/**
 * The sub-account records of `witness/sub_account.go` as Go holds them, the
 * converters between them and their Molecule form, and the edit engine that
 * replaces one field of a stored sub-account table and bumps its nonce.
 *
 * Go strings are byte strings, so every Go `string` field here is a `seq<byte>`.
 */
module SubAccountData {

  import opened Wrappers
  import opened Bytes
  import opened Molecule
  import M = MoleculeTypes

  /** `AccountCharSet`: the character-set tag (`AccountCharType`, a `uint32`) and the character. */
  datatype AccountCharSet = AccountCharSet(charSetName: u32, character: seq<byte>)

  /** `SubAccountRecord`. */
  datatype SubAccountRecord = SubAccountRecord(key: seq<byte>, recordType: seq<byte>, recordLabel: seq<byte>,
                                               value: seq<byte>, ttl: u32)

  /**
   * `SubAccount`. `lock` is the Go pointer `*types.Script` (`None` is nil);
   * `accountId` holds the bytes behind the hex string `AccountId`.
   */
  datatype SubAccount = SubAccount(
    lock: Option<M.Script>,
    accountId: seq<byte>,
    accountCharSet: seq<AccountCharSet>,
    suffix: seq<byte>,
    registeredAt: u64,
    expiredAt: u64,
    status: u8,
    records: seq<SubAccountRecord>,
    nonce: u64,
    enableSubAccount: u8,
    renewSubAccountPrice: u64)

  /** A Go `SubAccount` with every field at its zero value. */
  const ZeroSubAccount := SubAccount(None, [], [], [], 0, 0, 0, [], 0, 0, 0)

  /** `SubAccountBuilder`: a decoded sub-account witness together with its stored table. */
  datatype SubAccountBuilder = SubAccountBuilder(
    signature: seq<byte>,
    prevRoot: seq<byte>,
    currentRoot: seq<byte>,
    proof: seq<byte>,
    version: u32,
    subAccount: SubAccount,
    editKey: seq<byte>,
    editValue: seq<byte>,
    moleculeSubAccount: M.SubAccount,
    account: seq<byte>)

  // ---------------------------------------------------------------- edit keys

  /** The six edit keys of the sub-account protocol. */
  datatype EditKey = LockKey | ExpiredAtKey | StatusKey | RecordsKey | EnableSubAccountKey | RenewSubAccountPriceKey

  /** The byte string each key travels as. */
  function EditKeyName(k: EditKey): seq<byte>
  {
    match k
    case LockKey => Ascii("lock")
    case ExpiredAtKey => Ascii("expired_at")
    case StatusKey => Ascii("status")
    case RecordsKey => Ascii("records")
    case EnableSubAccountKey => Ascii("enable_sub_account")
    case RenewSubAccountPriceKey => Ascii("renew_sub_account_price")
  }

  /** The `switch string(s.EditKey)` of the source: which key, if any, the bytes name. */
  function ParseEditKey(b: seq<byte>): (r: Option<EditKey>)
    ensures r.Some? ==> EditKeyName(r.value) == b
    ensures r.None? ==> forall k: EditKey :: EditKeyName(k) != b
  {
    if b == Ascii("lock") then Some(LockKey)
    else if b == Ascii("expired_at") then Some(ExpiredAtKey)
    else if b == Ascii("status") then Some(StatusKey)
    else if b == Ascii("records") then Some(RecordsKey)
    else if b == Ascii("enable_sub_account") then Some(EnableSubAccountKey)
    else if b == Ascii("renew_sub_account_price") then Some(RenewSubAccountPriceKey)
    else None
  }

  /** An edit value decoded according to its key (`ConvertEditValueTo*`). */
  datatype EditValue =
    | LockValue(lock: M.Script)
    | ExpiredAtValue(expiredAt: seq<byte>)
    | StatusValue(status: seq<byte>)
    | RecordsValue(records: seq<M.Record>)
    | EnableSubAccountValue(enableSubAccount: seq<byte>)
    | RenewSubAccountPriceValue(renewSubAccountPrice: seq<byte>)

  predicate ValueOfKey(k: EditKey, e: EditValue)
  {
    match k
    case LockKey => e.LockValue?
    case ExpiredAtKey => e.ExpiredAtValue?
    case StatusKey => e.StatusValue?
    case RecordsKey => e.RecordsValue?
    case EnableSubAccountKey => e.EnableSubAccountValue?
    case RenewSubAccountPriceKey => e.RenewSubAccountPriceValue?
  }

  /**
   * `ConvertEditValueToLock` ... `ConvertEditValueToRenewSubAccountPrice`: the edit value
   * read as the Molecule type of the key's field. `None` is the nil the source's
   * `*FromSlice` returns on malformed bytes.
   */
  function ConvertEditValue(k: EditKey, v: seq<byte>): (r: Option<EditValue>)
    ensures r.Some? ==> ValueOfKey(k, r.value)
    ensures k == ExpiredAtKey || k == RenewSubAccountPriceKey ==> (r.Some? <==> |v| == 8)
    ensures k == StatusKey || k == EnableSubAccountKey ==> (r.Some? <==> |v| == 1)
    ensures k == ExpiredAtKey && |v| == 8 ==> r == Some(ExpiredAtValue(v))
    ensures k == StatusKey && |v| == 1 ==> r == Some(StatusValue(v))
    ensures k == EnableSubAccountKey && |v| == 1 ==> r == Some(EnableSubAccountValue(v))
    ensures k == RenewSubAccountPriceKey && |v| == 8 ==> r == Some(RenewSubAccountPriceValue(v))
    ensures k == LockKey ==> r == (match M.DecodeScript(v) case Some(s) => Some(LockValue(s)) case None => None)
    ensures k == RecordsKey ==> r == (match M.DecodeRecords(v) case Some(rs) => Some(RecordsValue(rs)) case None => None)
  {
    match k
    case LockKey =>
      var lock :- M.DecodeScript(v);
      Some(LockValue(lock))
    case ExpiredAtKey => if |v| == 8 then Some(ExpiredAtValue(v)) else None
    case StatusKey => if |v| == 1 then Some(StatusValue(v)) else None
    case RecordsKey =>
      var records :- M.DecodeRecords(v);
      Some(RecordsValue(records))
    case EnableSubAccountKey => if |v| == 1 then Some(EnableSubAccountValue(v)) else None
    case RenewSubAccountPriceKey => if |v| == 8 then Some(RenewSubAccountPriceValue(v)) else None
  }

  /** The builder call `subAccountBuilder.<Field>(value)`: the one field the value names is replaced. */
  function ApplyEdit(t: M.SubAccount, e: EditValue): M.SubAccount
  {
    match e
    case LockValue(lock) => t.(lock := lock)
    case ExpiredAtValue(x) => t.(expiredAt := x)
    case StatusValue(x) => t.(status := x)
    case RecordsValue(rs) => t.(records := rs)
    case EnableSubAccountValue(x) => t.(enableSubAccount := x)
    case RenewSubAccountPriceValue(x) => t.(renewSubAccountPrice := x)
  }

  /** `nonceUint64++` on a Go `uint64`: one more, wrapping to zero past the largest value. */
  function BumpNonce(nonce: seq<byte>): (r: seq<byte>)
    requires |nonce| == 8
    ensures Bytes2GoU64(r) == Some((Bytes2GoU64(nonce).value + 1) % TWO_64)
  {
    var n := Bytes2GoU64(nonce).value;
    U64RoundTrip((n + 1) % TWO_64);
    U64((n + 1) % TWO_64)
  }

  /** The two tables agree on every field other than the nonce and the one `k` names. */
  predicate SameExceptEdited(a: M.SubAccount, b: M.SubAccount, k: EditKey)
  {
    && a.id == b.id && a.account == b.account && a.suffix == b.suffix && a.registeredAt == b.registeredAt
    && (k != LockKey ==> a.lock == b.lock)
    && (k != ExpiredAtKey ==> a.expiredAt == b.expiredAt)
    && (k != StatusKey ==> a.status == b.status)
    && (k != RecordsKey ==> a.records == b.records)
    && (k != EnableSubAccountKey ==> a.enableSubAccount == b.enableSubAccount)
    && (k != RenewSubAccountPriceKey ==> a.renewSubAccountPrice == b.renewSubAccountPrice)
  }

  /** The field `k` names holds the decoded edit value `e`. */
  predicate HoldsEdit(t: M.SubAccount, e: EditValue)
  {
    match e
    case LockValue(lock) => t.lock == lock
    case ExpiredAtValue(x) => t.expiredAt == x
    case StatusValue(x) => t.status == x
    case RecordsValue(rs) => t.records == rs
    case EnableSubAccountValue(x) => t.enableSubAccount == x
    case RenewSubAccountPriceValue(x) => t.renewSubAccountPrice == x
  }

  /**
   * `genMoleculeSubAccount`: the stored table with the field the edit key names
   * replaced by the edit value and the nonce bumped by one. An unknown key leaves the
   * table as it is, nonce included. `None`: the key is known but its value is malformed,
   * where the source dereferences the nil the decoder returned.
   */
  function GenMoleculeSubAccount(s: SubAccountBuilder): (r: Option<M.SubAccount>)
    requires M.ValidSubAccount(s.moleculeSubAccount)
    ensures ParseEditKey(s.editKey).None? ==> r == Some(s.moleculeSubAccount)
    ensures ParseEditKey(s.editKey).Some? ==>
      (r.Some? <==> ConvertEditValue(ParseEditKey(s.editKey).value, s.editValue).Some?)
    ensures r.Some? && ParseEditKey(s.editKey).Some? ==>
      var k := ParseEditKey(s.editKey).value;
      && Bytes2GoU64(r.value.nonce) == Some((Bytes2GoU64(s.moleculeSubAccount.nonce).value + 1) % TWO_64)
      && SameExceptEdited(r.value, s.moleculeSubAccount, k)
      && HoldsEdit(r.value, ConvertEditValue(k, s.editValue).value)
    ensures r.Some? ==> M.ValidSubAccount(r.value)
  {
    match ParseEditKey(s.editKey)
    case None => Some(s.moleculeSubAccount)
    case Some(k) =>
      var e :- ConvertEditValue(k, s.editValue);
      Some(ApplyEdit(s.moleculeSubAccount, e).(nonce := BumpNonce(s.moleculeSubAccount.nonce)))
  }

  // ---------------------------------------------------------------- Go <-> Molecule

  const DOT: seq<byte> := Ascii(".")

  function ToMoleculeChar(c: AccountCharSet): M.AccountChar
  {
    M.AccountChar(U32(c.charSetName), c.character)
  }

  /**
   * What `ConvertToAccountChars` pushes: the characters in order, up to and
   * excluding the first whose `Char` is ".".
   */
  function AccountCharsBeforeDot(cs: seq<AccountCharSet>): (r: seq<M.AccountChar>)
    ensures |r| <= |cs|
  {
    if cs == [] || cs[0].character == DOT then []
    else [ToMoleculeChar(cs[0])] + AccountCharsBeforeDot(cs[1..])
  }

  /**
   * The characters kept are exactly the prefix before the first ".", converted one by
   * one; the character right after the kept prefix, if any, is the ".".
   */
  lemma {:induction false} AccountCharsBeforeDotSpec(cs: seq<AccountCharSet>)
    ensures var r := AccountCharsBeforeDot(cs);
      && (forall i :: 0 <= i < |r| ==> cs[i].character != DOT && r[i] == ToMoleculeChar(cs[i]))
      && (|r| < |cs| ==> cs[|r|].character == DOT)
  {
    if cs != [] && cs[0].character != DOT {
      AccountCharsBeforeDotSpec(cs[1..]);
    }
  }

  /** `ConvertToAccountChars`. */
  method ConvertToAccountChars(accountCharSet: seq<AccountCharSet>) returns (accountChars: seq<M.AccountChar>)
    ensures accountChars == AccountCharsBeforeDot(accountCharSet)
  {
    accountChars := [];
    var i := 0;
    while i < |accountCharSet|
      invariant 0 <= i <= |accountCharSet|
      invariant AccountCharsBeforeDot(accountCharSet) == accountChars + AccountCharsBeforeDot(accountCharSet[i..])
    {
      var item := accountCharSet[i];
      ghost var rest := AccountCharsBeforeDot(accountCharSet[i + 1..]);
      BeforeDotStep(accountCharSet, i);
      if item.character == DOT {
        assert accountChars + [] == accountChars;
        break;
      }
      assert accountChars + ([ToMoleculeChar(item)] + rest) == (accountChars + [ToMoleculeChar(item)]) + rest;
      accountChars := accountChars + [ToMoleculeChar(item)];
      i := i + 1;
    }
    if i == |accountCharSet| {
      assert accountCharSet[i..] == [];
      assert accountChars + [] == accountChars;
    }
  }

  /** One step of `AccountCharsBeforeDot` from position `i`. */
  lemma BeforeDotStep(cs: seq<AccountCharSet>, i: nat)
    requires i < |cs|
    ensures cs[i].character == DOT ==> AccountCharsBeforeDot(cs[i..]) == []
    ensures cs[i].character != DOT ==>
      AccountCharsBeforeDot(cs[i..]) == [ToMoleculeChar(cs[i])] + AccountCharsBeforeDot(cs[i + 1..])
  {
    assert cs[i..][0] == cs[i];
    assert cs[i..][1..] == cs[i + 1..];
  }

  function FromMoleculeChar(c: M.AccountChar): AccountCharSet
    requires M.ValidAccountChar(c)
  {
    AccountCharSet(Bytes2GoU32(c.charSetName).value, c.bytes)
  }

  /** `ConvertToAccountCharSets`. */
  method ConvertToAccountCharSets(accountChars: seq<M.AccountChar>) returns (accountCharSets: seq<AccountCharSet>)
    requires forall i :: 0 <= i < |accountChars| ==> M.ValidAccountChar(accountChars[i])
    ensures |accountCharSets| == |accountChars|
    ensures forall i :: 0 <= i < |accountChars| ==> accountCharSets[i] == FromMoleculeChar(accountChars[i])
  {
    accountCharSets := [];
    var index := 0;
    while index < |accountChars|
      invariant 0 <= index <= |accountChars| && |accountCharSets| == index
      invariant forall i :: 0 <= i < index ==> accountCharSets[i] == FromMoleculeChar(accountChars[i])
    {
      accountCharSets := accountCharSets + [FromMoleculeChar(accountChars[index])];
      index := index + 1;
    }
  }

  function GoCharSets(accountChars: seq<M.AccountChar>): (r: seq<AccountCharSet>)
    requires forall i :: 0 <= i < |accountChars| ==> M.ValidAccountChar(accountChars[i])
    ensures |r| == |accountChars|
  {
    seq(|accountChars|, i requires 0 <= i < |accountChars| => FromMoleculeChar(accountChars[i]))
  }

  function ToMoleculeRecord(r: SubAccountRecord): M.Record
  {
    M.Record(r.key, r.recordType, r.recordLabel, r.value, U32(r.ttl))
  }

  function MoleculeRecords(rs: seq<SubAccountRecord>): (r: seq<M.Record>)
    ensures |r| == |rs|
  {
    seq(|rs|, i requires 0 <= i < |rs| => ToMoleculeRecord(rs[i]))
  }

  /** `ConvertToRecords`: one Molecule record per Go record, in order. */
  method ConvertToRecords(subAccountRecords: seq<SubAccountRecord>) returns (records: seq<M.Record>)
    ensures records == MoleculeRecords(subAccountRecords)
  {
    records := [];
    var i := 0;
    while i < |subAccountRecords|
      invariant 0 <= i <= |subAccountRecords| && records == MoleculeRecords(subAccountRecords[..i])
    {
      assert subAccountRecords[..i + 1] == subAccountRecords[..i] + [subAccountRecords[i]];
      records := records + [ToMoleculeRecord(subAccountRecords[i])];
      i := i + 1;
    }
    assert subAccountRecords[..i] == subAccountRecords;
  }

  function FromMoleculeRecord(r: M.Record): SubAccountRecord
    requires M.ValidRecord(r)
  {
    SubAccountRecord(r.recordKey, r.recordType, r.recordLabel, r.recordValue, Bytes2GoU32(r.recordTtl).value)
  }

  function GoRecords(rs: seq<M.Record>): (r: seq<SubAccountRecord>)
    requires forall i :: 0 <= i < |rs| ==> M.ValidRecord(rs[i])
    ensures |r| == |rs|
  {
    seq(|rs|, i requires 0 <= i < |rs| => FromMoleculeRecord(rs[i]))
  }

  /** `ConvertToSubAccountRecords`: one Go record per Molecule record, in order. */
  method ConvertToSubAccountRecords(records: seq<M.Record>) returns (subAccountRecords: seq<SubAccountRecord>)
    requires forall i :: 0 <= i < |records| ==> M.ValidRecord(records[i])
    ensures subAccountRecords == GoRecords(records)
  {
    subAccountRecords := [];
    var index := 0;
    while index < |records|
      invariant 0 <= index <= |records| && |subAccountRecords| == index
      invariant forall i :: 0 <= i < index ==> subAccountRecords[i] == FromMoleculeRecord(records[i])
    {
      subAccountRecords := subAccountRecords + [FromMoleculeRecord(records[index])];
      index := index + 1;
    }
  }

  /** Converting Go records to Molecule records and back gives the same records in the same order. */
  lemma RecordsRoundTrip(rs: seq<SubAccountRecord>)
    ensures forall i :: 0 <= i < |rs| ==> M.ValidRecord(MoleculeRecords(rs)[i])
    ensures GoRecords(MoleculeRecords(rs)) == rs
  {
    forall i | 0 <= i < |rs|
      ensures M.ValidRecord(MoleculeRecords(rs)[i]) && GoRecords(MoleculeRecords(rs))[i] == rs[i]
    {
      U32RoundTrip(rs[i].ttl);
    }
  }

  /** The same round trip through the serialised `Records` bytes, as `ConvertToRecords(...).AsSlice()` ships them. */
  lemma RecordsWireRoundTrip(rs: seq<SubAccountRecord>)
    requires |M.EncodeRecords(MoleculeRecords(rs))| < TWO_32
    ensures var decoded := M.DecodeRecords(M.EncodeRecords(MoleculeRecords(rs)));
      decoded.Some? && GoRecords(decoded.value) == rs
  {
    RecordsRoundTrip(rs);
    M.RecordsRoundTrip(MoleculeRecords(rs));
  }

  /** Reading the account characters back gives the characters before the first "."; the rest is dropped. */
  lemma {:induction false} AccountCharsRoundTrip(cs: seq<AccountCharSet>)
    ensures forall i :: 0 <= i < |AccountCharsBeforeDot(cs)| ==> M.ValidAccountChar(AccountCharsBeforeDot(cs)[i])
    ensures GoCharSets(AccountCharsBeforeDot(cs)) == cs[..|AccountCharsBeforeDot(cs)|]
  {
    var r := AccountCharsBeforeDot(cs);
    AccountCharsBeforeDotSpec(cs);
    forall i | 0 <= i < |r|
      ensures M.ValidAccountChar(r[i]) && GoCharSets(r)[i] == cs[i]
    {
      U32RoundTrip(cs[i].charSetName);
    }
  }

  /** The sub-account's lock and id are usable: the source dereferences the lock and a 20-byte id. */
  predicate Convertible(sa: SubAccount)
  {
    sa.lock.Some? && M.ValidScript(sa.lock.value) && |sa.accountId| == M.ACCOUNT_ID_SIZE
  }

  /** `ConvertToMoleculeSubAccount` for a sub-account the source can convert. */
  function ConvertToMoleculeSubAccount(sa: SubAccount): (t: M.SubAccount)
    requires Convertible(sa)
    ensures M.ValidSubAccount(t)
  {
    AccountCharsRoundTrip(sa.accountCharSet);
    RecordsRoundTrip(sa.records);
    M.SubAccount(
      sa.lock.value, sa.accountId, AccountCharsBeforeDot(sa.accountCharSet), sa.suffix,
      U64(sa.registeredAt), U64(sa.expiredAt), [sa.status], MoleculeRecords(sa.records),
      U64(sa.nonce), [sa.enableSubAccount], U64(sa.renewSubAccountPrice))
  }

  /** The Go record the decoder fills from a decoded table (`resp.SubAccount.* = ...`). */
  function GoSubAccount(t: M.SubAccount): SubAccount
    requires M.ValidSubAccount(t)
  {
    SubAccount(
      Some(t.lock), t.id, GoCharSets(t.account), t.suffix,
      Bytes2GoU64(t.registeredAt).value, Bytes2GoU64(t.expiredAt).value, t.status[0],
      GoRecords(t.records), Bytes2GoU64(t.nonce).value, t.enableSubAccount[0],
      Bytes2GoU64(t.renewSubAccountPrice).value)
  }

  /**
   * Converting a sub-account to its Molecule table and reading it back gives the
   * same sub-account, except that the account characters stop before the first ".".
   */
  lemma SubAccountConversionRoundTrip(sa: SubAccount)
    requires Convertible(sa)
    ensures GoSubAccount(ConvertToMoleculeSubAccount(sa))
         == sa.(accountCharSet := sa.accountCharSet[..|AccountCharsBeforeDot(sa.accountCharSet)|])
  {
    AccountCharsRoundTrip(sa.accountCharSet);
    RecordsRoundTrip(sa.records);
    U64RoundTrip(sa.registeredAt);
    U64RoundTrip(sa.expiredAt);
    U64RoundTrip(sa.nonce);
    U64RoundTrip(sa.renewSubAccountPrice);
  }

  // ---------------------------------------------------------------- ConvertToSubAccount

  /** The Go record with only the edited field set, as `ConvertToSubAccount` builds it. */
  function GoEdit(e: EditValue): SubAccount
  {
    match e
    case LockValue(lock) => ZeroSubAccount.(lock := Some(lock))
    case ExpiredAtValue(x) => ZeroSubAccount.(expiredAt := (if |x| == 8 then Bytes2GoU64(x).value else 0))
    case StatusValue(x) => ZeroSubAccount.(status := if |x| == 1 then x[0] else 0)
    case RecordsValue(rs) =>
      if forall i :: 0 <= i < |rs| ==> M.ValidRecord(rs[i]) then ZeroSubAccount.(records := GoRecords(rs))
      else ZeroSubAccount
    case EnableSubAccountValue(x) => ZeroSubAccount.(enableSubAccount := if |x| == 1 then x[0] else 0)
    case RenewSubAccountPriceValue(x) => ZeroSubAccount.(renewSubAccountPrice := (if |x| == 8 then Bytes2GoU64(x).value else 0))
  }

  /** The Go fields `k` names agree in `a` and `b`. */
  predicate SameGoField(a: SubAccount, b: SubAccount, k: EditKey)
  {
    match k
    case LockKey => a.lock == b.lock
    case ExpiredAtKey => a.expiredAt == b.expiredAt
    case StatusKey => a.status == b.status
    case RecordsKey => a.records == b.records
    case EnableSubAccountKey => a.enableSubAccount == b.enableSubAccount
    case RenewSubAccountPriceKey => a.renewSubAccountPrice == b.renewSubAccountPrice
  }

  /**
   * `ConvertToSubAccount`: a zero-valued Go sub-account whose one field named by the
   * edit key carries the edit value; all zero for an unknown key. `None`: the key is
   * known but its value is malformed, where the source dereferences nil.
   */
  function ConvertToSubAccount(s: SubAccountBuilder): (r: Option<SubAccount>)
    ensures ParseEditKey(s.editKey).None? ==> r == Some(ZeroSubAccount)
    ensures ParseEditKey(s.editKey).Some? ==>
      (r.Some? <==> ConvertEditValue(ParseEditKey(s.editKey).value, s.editValue).Some?)
    ensures r.Some? && ParseEditKey(s.editKey).Some? ==>
      forall k: EditKey :: k != ParseEditKey(s.editKey).value ==> SameGoField(r.value, ZeroSubAccount, k)
    ensures r.Some? ==>
      && r.value.accountId == [] && r.value.accountCharSet == [] && r.value.suffix == []
      && r.value.registeredAt == 0 && r.value.nonce == 0
    ensures r.Some? && ParseEditKey(s.editKey) == Some(LockKey) ==> r.value.lock == M.DecodeScript(s.editValue)
    ensures r.Some? && ParseEditKey(s.editKey) == Some(ExpiredAtKey) ==>
      |s.editValue| == 8 && r.value.expiredAt == Bytes2GoU64(s.editValue).value
    ensures r.Some? && ParseEditKey(s.editKey) == Some(StatusKey) ==>
      |s.editValue| == 1 && r.value.status == s.editValue[0]
    ensures r.Some? && ParseEditKey(s.editKey) == Some(RecordsKey) ==>
      M.DecodeRecords(s.editValue).Some? && r.value.records == GoRecords(M.DecodeRecords(s.editValue).value)
    ensures r.Some? && ParseEditKey(s.editKey) == Some(EnableSubAccountKey) ==>
      |s.editValue| == 1 && r.value.enableSubAccount == s.editValue[0]
    ensures r.Some? && ParseEditKey(s.editKey) == Some(RenewSubAccountPriceKey) ==>
      |s.editValue| == 8 && r.value.renewSubAccountPrice == Bytes2GoU64(s.editValue).value
  {
    match ParseEditKey(s.editKey)
    case None => Some(ZeroSubAccount)
    case Some(k) =>
      var e :- ConvertEditValue(k, s.editValue);
      GoEditTouchesOnly(k, e);
      Some(GoEdit(e))
  }

  /** `GoEdit` leaves every field but the one its key names at its zero value. */
  lemma GoEditTouchesOnly(k: EditKey, e: EditValue)
    requires ValueOfKey(k, e)
    ensures forall other: EditKey :: other != k ==> SameGoField(GoEdit(e), ZeroSubAccount, other)
  {
    forall other: EditKey | other != k
      ensures SameGoField(GoEdit(e), ZeroSubAccount, other)
    {
    }
  }

  /**
   * The field `ConvertToSubAccount` reports is the field of the table `genMoleculeSubAccount`
   * builds from the same builder, read back as Go values; and both fail on the same inputs.
   */
  lemma ConvertToSubAccountAgreesWithEdit(s: SubAccountBuilder)
    requires M.ValidSubAccount(s.moleculeSubAccount)
    requires ParseEditKey(s.editKey).Some?
    ensures ConvertToSubAccount(s).Some? <==> GenMoleculeSubAccount(s).Some?
    ensures GenMoleculeSubAccount(s).Some? ==>
      SameGoField(ConvertToSubAccount(s).value, GoSubAccount(GenMoleculeSubAccount(s).value), ParseEditKey(s.editKey).value)
  {
    var k := ParseEditKey(s.editKey).value;
    if e :| ConvertEditValue(k, s.editValue) == Some(e) {
      var t := GenMoleculeSubAccount(s).value;
      assert HoldsEdit(t, e);
      assert ConvertToSubAccount(s) == Some(GoEdit(e));
      EditReadBack(t, k, e);
    }
  }

  /** The Go field an edit sets is what reading the edited table back gives for that field. */
  lemma EditReadBack(t: M.SubAccount, k: EditKey, e: EditValue)
    requires M.ValidSubAccount(t) && ValueOfKey(k, e) && HoldsEdit(t, e)
    ensures SameGoField(GoEdit(e), GoSubAccount(t), k)
  {
  }
}
