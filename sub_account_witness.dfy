/**
 * The sub-account witness of `witness/sub_account.go`: the length-framed field list the
 * generators append, the witness `GenWitness` composes for each sub-account action, the
 * cursor reader that inverts the framing, and the decoder that turns the witnesses of a
 * transaction into sub-account builders keyed by account.
 */
module SubAccountWitness {

  import opened Wrappers
  import opened Bytes
  import opened Molecule
  import M = MoleculeTypes
  import opened SubAccountData

  /** `common.GoDataEntityVersion1`, the only witness version the code writes and reads. */
  const GO_DATA_ENTITY_VERSION_1: u32 := 1

  /** The number of framed fields a sub-account witness carries. */
  const WITNESS_FIELD_COUNT: nat := 8

  /**
   * The sub-account actions `GenWitness` distinguishes. `OtherAction(name)` is any other action
   * name: by construction it never carries the name of one of the four actions before it.
   */
  datatype SubAccountAction = CreateSubAccount | EditSubAccount | RenewSubAccount | RecycleSubAccount
                            | OtherAction(name: string)

  /** `SubAccountParam`. */
  datatype SubAccountParam = SubAccountParam(
    action: SubAccountAction,
    signature: seq<byte>,
    prevRoot: seq<byte>,
    currentRoot: seq<byte>,
    proof: seq<byte>,
    version: u32,
    subAccount: SubAccount,
    editKey: seq<byte>,
    editValue: seq<byte>)

  // ---------------------------------------------------------------- framing

  /**
   * `GoU32ToBytes(uint32(len(payload)))` followed by the payload: the same bytes as a
   * Molecule `Bytes` vector of the payload.
   */
  function Frame(payload: seq<byte>): (r: seq<byte>)
    ensures |r| == 4 + |payload|
  {
    EncodeBytes(payload)
  }

  function FrameAll(fields: seq<seq<byte>>): seq<byte>
  {
    if fields == [] then [] else Frame(fields[0]) + FrameAll(fields[1..])
  }

  /** Every field's length fits the `uint32` the frame stores it in. */
  predicate FramesFit(fields: seq<seq<byte>>)
  {
    forall i :: 0 <= i < |fields| ==> |fields[i]| < TWO_32
  }

  /** The framed list is four bytes per field plus the payloads. */
  lemma {:induction false} FrameAllLength(fields: seq<seq<byte>>)
    ensures |FrameAll(fields)| == 4 * |fields| + |Concat(fields)|
  {
    if fields != [] {
      FrameAllLength(fields[1..]);
    }
  }

  lemma {:induction false} FrameAllAppend(a: seq<seq<byte>>, b: seq<seq<byte>>)
    ensures FrameAll(a + b) == FrameAll(a) + FrameAll(b)
  {
    if a == [] {
      assert a + b == b;
    } else {
      assert (a + b)[1..] == a[1..] + b;
      FrameAllAppend(a[1..], b);
    }
  }

  // ---------------------------------------------------------------- generators

  /** The seven fields `genOldSubAccountBytes` frames, in order. */
  function OldFields(p: SubAccountParam, subAccount: M.SubAccount): (r: seq<seq<byte>>)
    ensures |r| == 7
  {
    [p.signature, p.prevRoot, p.currentRoot, p.proof, U32(GO_DATA_ENTITY_VERSION_1),
     M.EncodeSubAccount(subAccount), p.editKey]
  }

  /** The eight fields `genNewSubAccountBytes` frames: the seven above and the edit value. */
  function NewFields(p: SubAccountParam, subAccount: M.SubAccount): (r: seq<seq<byte>>)
    ensures |r| == WITNESS_FIELD_COUNT
  {
    OldFields(p, subAccount) + [p.editValue]
  }

  /** What `genOldSubAccountBytes` returns for builder version `version`. */
  function OldSubAccountBytes(version: u32, p: SubAccountParam, subAccount: M.SubAccount): seq<byte>
  {
    if version == GO_DATA_ENTITY_VERSION_1 then FrameAll(OldFields(p, subAccount)) else []
  }

  /** What `genNewSubAccountBytes` returns. */
  function NewSubAccountBytes(p: SubAccountParam): seq<byte>
    requires p.version == GO_DATA_ENTITY_VERSION_1 ==> Convertible(p.subAccount)
  {
    if p.version == GO_DATA_ENTITY_VERSION_1 then FrameAll(NewFields(p, ConvertToMoleculeSubAccount(p.subAccount)))
    else []
  }

  /**
   * The append pair `genOldSubAccountBytes` writes for each field: the `uint32` length, then
   * the payload. `done` are the fields already framed into `bys`.
   */
  method AppendFrame(bys: seq<byte>, ghost done: seq<seq<byte>>, payload: seq<byte>) returns (r: seq<byte>)
    requires bys == FrameAll(done)
    ensures r == FrameAll(done + [payload])
  {
    r := bys + U32(|payload|);
    r := r + payload;
    FrameAllAppend(done, [payload]);
    assert FrameAll([payload]) == Frame(payload) + FrameAll([]);
  }

  /** `genOldSubAccountBytes`: the seven framed fields for version 1, nothing otherwise. */
  method GenOldSubAccountBytes(s: SubAccountBuilder, p: SubAccountParam, subAccount: M.SubAccount)
    returns (bys: seq<byte>)
    ensures bys == OldSubAccountBytes(s.version, p, subAccount)
  {
    bys := [];
    if s.version == GO_DATA_ENTITY_VERSION_1 {
      ghost var done: seq<seq<byte>> := [];
      bys := AppendFrame(bys, done, p.signature);
      done := done + [p.signature];
      bys := AppendFrame(bys, done, p.prevRoot);
      done := done + [p.prevRoot];
      bys := AppendFrame(bys, done, p.currentRoot);
      done := done + [p.currentRoot];
      bys := AppendFrame(bys, done, p.proof);
      done := done + [p.proof];
      var versionBys := U32(s.version);
      bys := AppendFrame(bys, done, versionBys);
      done := done + [versionBys];
      var subAccountBys := M.EncodeSubAccount(subAccount);
      bys := AppendFrame(bys, done, subAccountBys);
      done := done + [subAccountBys];
      bys := AppendFrame(bys, done, p.editKey);
      done := done + [p.editKey];
      assert done == OldFields(p, subAccount);
    }
  }

  /** `genNewSubAccountBytes`: the eight framed fields for version 1, nothing otherwise. */
  method GenNewSubAccountBytes(p: SubAccountParam) returns (bys: seq<byte>)
    requires p.version == GO_DATA_ENTITY_VERSION_1 ==> Convertible(p.subAccount)
    ensures bys == NewSubAccountBytes(p)
  {
    bys := [];
    if p.version == GO_DATA_ENTITY_VERSION_1 {
      var moleculeSubAccount := ConvertToMoleculeSubAccount(p.subAccount);
      ghost var done: seq<seq<byte>> := [];
      bys := AppendFrame(bys, done, p.signature);
      done := done + [p.signature];
      bys := AppendFrame(bys, done, p.prevRoot);
      done := done + [p.prevRoot];
      bys := AppendFrame(bys, done, p.currentRoot);
      done := done + [p.currentRoot];
      bys := AppendFrame(bys, done, p.proof);
      done := done + [p.proof];
      var versionBys := U32(p.version);
      bys := AppendFrame(bys, done, versionBys);
      done := done + [versionBys];
      var subAccountBys := M.EncodeSubAccount(moleculeSubAccount);
      bys := AppendFrame(bys, done, subAccountBys);
      done := done + [subAccountBys];
      bys := AppendFrame(bys, done, p.editKey);
      done := done + [p.editKey];
      bys := AppendFrame(bys, done, p.editValue);
      done := done + [p.editValue];
      assert done == NewFields(p, moleculeSubAccount);
    }
  }

  /**
   * The version-1 witness body is exactly eight framed fields: its length is four bytes per
   * field plus the payloads, 32 plus the payload lengths.
   */
  lemma NewSubAccountBytesLength(p: SubAccountParam)
    requires p.version == GO_DATA_ENTITY_VERSION_1 && Convertible(p.subAccount)
    ensures |NewSubAccountBytes(p)|
         == 32 + |p.signature| + |p.prevRoot| + |p.currentRoot| + |p.proof| + 4
            + |M.EncodeSubAccount(ConvertToMoleculeSubAccount(p.subAccount))| + |p.editKey| + |p.editValue|
  {
    var fs := NewFields(p, ConvertToMoleculeSubAccount(p.subAccount));
    FrameAllLength(fs);
    ConcatLength8(fs);
  }

  /**
   * The new-account body is the old-account body of the converted sub-account with the framed
   * edit value appended; for any version but 1 both generators write nothing.
   */
  lemma NewExtendsOld(p: SubAccountParam, version: u32, t: M.SubAccount)
    requires p.version == GO_DATA_ENTITY_VERSION_1 ==> Convertible(p.subAccount)
    ensures version != GO_DATA_ENTITY_VERSION_1 ==> OldSubAccountBytes(version, p, t) == []
    ensures p.version != GO_DATA_ENTITY_VERSION_1 ==> NewSubAccountBytes(p) == []
    ensures p.version == GO_DATA_ENTITY_VERSION_1 ==>
      NewSubAccountBytes(p)
        == OldSubAccountBytes(GO_DATA_ENTITY_VERSION_1, p, ConvertToMoleculeSubAccount(p.subAccount)) + Frame(p.editValue)
  {
    if p.version == GO_DATA_ENTITY_VERSION_1 {
      var fields := OldFields(p, ConvertToMoleculeSubAccount(p.subAccount));
      FrameAllAppend(fields, [p.editValue]);
      assert FrameAll([p.editValue]) == Frame(p.editValue) + FrameAll([]);
    }
  }

  lemma ConcatLength8(fs: seq<seq<byte>>)
    requires |fs| == 8
    ensures |Concat(fs)| == |fs[0]| + |fs[1]| + |fs[2]| + |fs[3]| + |fs[4]| + |fs[5]| + |fs[6]| + |fs[7]|
  {
    assert fs[0..] == fs;
    ConcatFrom(fs, 0);
    ConcatFrom(fs, 1);
    ConcatFrom(fs, 2);
    ConcatFrom(fs, 3);
    ConcatFrom(fs, 4);
    ConcatFrom(fs, 5);
    ConcatFrom(fs, 6);
    ConcatFrom(fs, 7);
    assert fs[8..] == [];
  }

  lemma ConcatFrom(fs: seq<seq<byte>>, i: nat)
    requires i < |fs|
    ensures Concat(fs[i..]) == fs[i] + Concat(fs[i + 1..])
  {
    assert fs[i..][1..] == fs[i + 1..];
  }

  // ---------------------------------------------------------------- GenWitness

  /** The failures `GenWitness` reports; `NilDereference` stands for the run-time panic of the Go code. */
  datatype WitnessError = NotSupportEditKey(editKey: seq<byte>) | NotExistAction(action: string) | NilDereference

  /**
   * The framed value an edit witness ends with, chosen by the parameter's edit key. Only five
   * keys are accepted; `expired_at` and unknown keys fail, naming the builder's key as the
   * source's message does.
   */
  function EditedFieldBytes(builderEditKey: seq<byte>, p: SubAccountParam): (r: Result<seq<byte>, WitnessError>)
    ensures r == Err(NotSupportEditKey(builderEditKey)) <==>
      ParseEditKey(p.editKey).None? || ParseEditKey(p.editKey) == Some(ExpiredAtKey)
    ensures r == Err(NilDereference) <==> ParseEditKey(p.editKey) == Some(LockKey) && p.subAccount.lock.None?
    ensures r.Ok? ==> var k := ParseEditKey(p.editKey).value;
      r.value == Frame(EditFieldPayload(k, p.subAccount))
  {
    match ParseEditKey(p.editKey)
    case Some(LockKey) =>
      if p.subAccount.lock.None? then Err(NilDereference) else Ok(Frame(M.EncodeScript(p.subAccount.lock.value)))
    case Some(StatusKey) => Ok(Frame([p.subAccount.status]))
    case Some(RecordsKey) => Ok(Frame(M.EncodeRecords(MoleculeRecords(p.subAccount.records))))
    case Some(EnableSubAccountKey) => Ok(Frame([p.subAccount.enableSubAccount]))
    case Some(RenewSubAccountPriceKey) => Ok(Frame(U64(p.subAccount.renewSubAccountPrice)))
    case _ => Err(NotSupportEditKey(builderEditKey))
  }

  /** The Molecule bytes of the field `k` names, for the keys an edit witness can carry. */
  function EditFieldPayload(k: EditKey, sa: SubAccount): seq<byte>
  {
    match k
    case LockKey => if sa.lock.Some? then M.EncodeScript(sa.lock.value) else []
    case ExpiredAtKey => U64(sa.expiredAt)
    case StatusKey => [sa.status]
    case RecordsKey => M.EncodeRecords(MoleculeRecords(sa.records))
    case EnableSubAccountKey => [sa.enableSubAccount]
    case RenewSubAccountPriceKey => U64(sa.renewSubAccountPrice)
  }

  /**
   * `GenWitness`. `header` is what `GenDasSubAccountWitness` puts in front of the body.
   * Create frames the new sub-account; edit and renew frame the edited stored table
   * (nonce bumped) and end with the new field value; recycle frames the stored table as it
   * is and ends with an empty frame and one zero byte.
   */
  method GenWitness(s: SubAccountBuilder, p: SubAccountParam, header: seq<byte>) returns (r: Result<seq<byte>, WitnessError>)
    requires M.ValidSubAccount(s.moleculeSubAccount)
    requires p.subAccount.lock.Some? ==> M.ValidScript(p.subAccount.lock.value)
    ensures p.action == CreateSubAccount ==>
      r == if p.version == GO_DATA_ENTITY_VERSION_1 && !Convertible(p.subAccount) then Err(NilDereference)
           else Ok(header + NewSubAccountBytes(p))
    ensures p.action == EditSubAccount ==>
      r == match GenMoleculeSubAccount(s)
           case None => Err(NilDereference)
           case Some(t) =>
             match EditedFieldBytes(s.editKey, p)
             case Err(e) => Err(e)
             case Ok(value) => Ok(header + OldSubAccountBytes(s.version, p, t) + value)
    ensures p.action == RenewSubAccount ==>
      r == match GenMoleculeSubAccount(s)
           case None => Err(NilDereference)
           case Some(t) => Ok(header + OldSubAccountBytes(s.version, p, t) + U32(8) + U64(p.subAccount.expiredAt))
    ensures p.action == RecycleSubAccount ==>
      r == Ok(header + OldSubAccountBytes(s.version, p, s.moleculeSubAccount) + U32(0) + [0])
    ensures p.action.OtherAction? ==> r == Err(NotExistAction(p.action.name))
  {
    match p.action
    case CreateSubAccount =>
      if p.version == GO_DATA_ENTITY_VERSION_1 && !Convertible(p.subAccount) {
        return Err(NilDereference);
      }
      var body := GenNewSubAccountBytes(p);
      return Ok(header + body);
    case EditSubAccount =>
      var subAccount := GenMoleculeSubAccount(s);
      if subAccount.None? {
        return Err(NilDereference);
      }
      var value := EditedFieldBytes(s.editKey, p);
      if value.Err? {
        return Err(value.error);
      }
      var body := GenOldSubAccountBytes(s, p, subAccount.value);
      var witnessBys := header + body;
      return Ok(witnessBys + value.value);
    case RenewSubAccount =>
      var subAccount := GenMoleculeSubAccount(s);
      if subAccount.None? {
        return Err(NilDereference);
      }
      var body := GenOldSubAccountBytes(s, p, subAccount.value);
      var witnessBys := header + body;
      var expiredAt := U64(p.subAccount.expiredAt);
      witnessBys := witnessBys + U32(|expiredAt|);
      return Ok(witnessBys + expiredAt);
    case RecycleSubAccount =>
      var body := GenOldSubAccountBytes(s, p, s.moleculeSubAccount);
      var witnessBys := header + body;
      witnessBys := witnessBys + U32(0);
      return Ok(witnessBys + [0]);
    case OtherAction(name) =>
      return Err(NotExistAction(name));
  }

  // ---------------------------------------------------------------- cursor reader

  /** One frame at `at`: its payload and the position after it; `None` if the bytes end too soon. */
  function ReadField(data: seq<byte>, at: nat): (r: Option<(seq<byte>, nat)>)
    ensures r.Some? ==> r.value.1 == at + 4 + |r.value.0| <= |data|
  {
    if at + 4 > |data| then None
    else
      var len := FromLittleEndian(data[at..at + 4]);
      if at + 4 + len > |data| then None else Some((data[at + 4..at + 4 + len], at + 4 + len))
  }

  /** `count` consecutive frames starting at `at`. */
  function ReadFields(data: seq<byte>, at: nat, count: nat): (r: Option<seq<seq<byte>>>)
    ensures r.Some? ==> |r.value| == count
    decreases count
  {
    if count == 0 then Some([])
    else
      var (field, next) :- ReadField(data, at);
      var rest :- ReadFields(data, next, count - 1);
      Some([field] + rest)
  }

  function Prepend(fields: seq<seq<byte>>, rest: Option<seq<seq<byte>>>): Option<seq<seq<byte>>>
  {
    match rest
    case None => None
    case Some(fs) => Some(fields + fs)
  }

  /** The intended field reader: the cursor moves past each length word and payload in turn. */
  method ReadWitnessFields(dataBys: seq<byte>, count: nat) returns (r: Option<seq<seq<byte>>>)
    ensures r == ReadFields(dataBys, 0, count)
  {
    var index: nat := 0;
    var fields: seq<seq<byte>> := [];
    PrependNothing(ReadFields(dataBys, 0, count));
    while |fields| < count
      invariant |fields| <= count
      invariant ReadFields(dataBys, 0, count) == Prepend(fields, ReadFields(dataBys, index, count - |fields|))
      decreases count - |fields|
    {
      if index + 4 > |dataBys| {
        ReadFieldsStop(dataBys, index, count - |fields|);
        return None;
      }
      var length := FromLittleEndian(dataBys[index..index + 4]);
      if index + 4 + length > |dataBys| {
        ReadFieldsStop(dataBys, index, count - |fields|);
        return None;
      }
      var field := dataBys[index + 4..index + 4 + length];
      assert ReadField(dataBys, index) == Some((field, index + 4 + length));
      ReadFieldsStep(dataBys, index, count - |fields|, field, index + 4 + length);
      PrependAppend(fields, field, ReadFields(dataBys, index + 4 + length, count - |fields| - 1));
      fields := fields + [field];
      index := index + 4 + length;
    }
    assert fields + [] == fields;
    return Some(fields);
  }

  lemma PrependNothing(rest: Option<seq<seq<byte>>>)
    ensures Prepend([], rest) == rest
  {
    if rest.Some? {
      assert [] + rest.value == rest.value;
    }
  }

  lemma PrependAppend(fields: seq<seq<byte>>, field: seq<byte>, rest: Option<seq<seq<byte>>>)
    ensures Prepend(fields, Prepend([field], rest)) == Prepend(fields + [field], rest)
  {
    if rest.Some? {
      assert fields + ([field] + rest.value) == (fields + [field]) + rest.value;
    }
  }

  /** Reading framed fields gives them back, whatever bytes precede or follow them. */
  lemma {:induction false} ReadFramed(pre: seq<byte>, fields: seq<seq<byte>>, post: seq<byte>)
    requires FramesFit(fields)
    ensures ReadFields(pre + FrameAll(fields) + post, |pre|, |fields|) == Some(fields)
    decreases |fields|
  {
    if fields != [] {
      var f, rest := fields[0], fields[1..];
      var pre' := pre + Frame(f);
      var data := pre + FrameAll(fields) + post;
      FramedShift(pre, fields, post);
      ReadFrame(pre, f, FrameAll(rest) + post);
      assert FramesFit(rest) by {
        forall i | 0 <= i < |rest| ensures |rest[i]| < TWO_32 {
          assert rest[i] == fields[i + 1];
        }
      }
      ReadFramed(pre', rest, post);
      ReadFieldsStep(data, |pre|, |fields|, f, |pre'|);
      assert [f] + rest == fields;
    }
  }

  /** The bytes around the first frame, regrouped for the step of `ReadFramed`. */
  lemma FramedShift(pre: seq<byte>, fields: seq<seq<byte>>, post: seq<byte>)
    requires fields != []
    ensures pre + FrameAll(fields) + post == pre + Frame(fields[0]) + (FrameAll(fields[1..]) + post)
    ensures pre + FrameAll(fields) + post == (pre + Frame(fields[0])) + FrameAll(fields[1..]) + post
  {
    assert FrameAll(fields) == Frame(fields[0]) + FrameAll(fields[1..]);
  }

  lemma ReadFieldsStep(data: seq<byte>, at: nat, count: nat, field: seq<byte>, next: nat)
    requires count > 0 && ReadField(data, at) == Some((field, next))
    ensures ReadFields(data, at, count) == Prepend([field], ReadFields(data, next, count - 1))
  {
  }

  lemma ReadFieldsStop(data: seq<byte>, at: nat, count: nat)
    requires count > 0 && ReadField(data, at).None?
    ensures ReadFields(data, at, count).None?
  {
  }

  lemma ReadFrame(pre: seq<byte>, f: seq<byte>, post: seq<byte>)
    requires |f| < TWO_32
    ensures ReadField(pre + Frame(f) + post, |pre|) == Some((f, |pre| + 4 + |f|))
  {
    var w := U32(|f|);
    U32RoundTrip(|f|);
    var data := pre + Frame(f) + post;
    assert data == pre + w + (f + post);
    SliceOfConcat(pre, w, f + post);
    assert data == (pre + w) + f + post;
    SliceOfConcat(pre + w, f, post);
  }

  lemma SliceOfConcat(a: seq<byte>, b: seq<byte>, c: seq<byte>)
    ensures (a + b + c)[|a|..|a| + |b|] == b
  {
  }

  // ---------------------------------------------------------------- decoder

  /** Why a sub-account witness could not be decoded. */
  datatype DecodeError =
    | TruncatedFrame              // fewer than eight complete frames
    | BadVersionField             // "get version err": the version field is not four bytes
    | UnsupportedVersion(version: u32)  // "sub account version: %d"
    | BadSubAccountTable          // "SubAccountDataFromSlice err"
    | NotExistSubAccount          // "not exist sub account"

  /**
   * One sub-account witness body decoded as the encoder intends: eight frames read in turn,
   * a four-byte version that must be 1, and the sub-account table, whose Go view fills the
   * builder. `accountOf` is `common.AccountCharsToAccount`.
   */
  function DecodeSubAccountEntry(dataBys: seq<byte>, accountOf: seq<M.AccountChar> -> seq<byte>)
    : (r: Result<SubAccountBuilder, DecodeError>)
    ensures r.Ok? ==>
      && r.value.version == GO_DATA_ENTITY_VERSION_1
      && M.ValidSubAccount(r.value.moleculeSubAccount)
      && r.value.subAccount == GoSubAccount(r.value.moleculeSubAccount)
      && r.value.account == accountOf(r.value.moleculeSubAccount.account)
    ensures r.Err? ==> r.error != NotExistSubAccount
  {
    match ReadFields(dataBys, 0, WITNESS_FIELD_COUNT)
    case None => Err(TruncatedFrame)
    case Some(fs) => BuilderFromFields(fs, accountOf)
  }

  /** The builder eight decoded frames describe. */
  function BuilderFromFields(fs: seq<seq<byte>>, accountOf: seq<M.AccountChar> -> seq<byte>)
    : (r: Result<SubAccountBuilder, DecodeError>)
    requires |fs| == WITNESS_FIELD_COUNT
  {
    match Bytes2GoU32(fs[4])
    case None => Err(BadVersionField)
    case Some(version) =>
      if version != GO_DATA_ENTITY_VERSION_1 then Err(UnsupportedVersion(version))
      else
        match M.DecodeSubAccount(fs[5])
        case None => Err(BadSubAccountTable)
        case Some(t) =>
          Ok(SubAccountBuilder(fs[0], fs[1], fs[2], fs[3], version, GoSubAccount(t), fs[6], fs[7], t, accountOf(t.account)))
  }

  /** Decoding framed fields, whatever follows them, is building from those fields. */
  lemma DecodeFramed(fields: seq<seq<byte>>, post: seq<byte>, accountOf: seq<M.AccountChar> -> seq<byte>)
    requires |fields| == WITNESS_FIELD_COUNT && FramesFit(fields)
    ensures DecodeSubAccountEntry(FrameAll(fields) + post, accountOf) == BuilderFromFields(fields, accountOf)
  {
    ReadFramedAtStart(fields, post);
    DecodeOfRead(FrameAll(fields) + post, fields, accountOf);
  }

  lemma ReadFramedAtStart(fields: seq<seq<byte>>, post: seq<byte>)
    requires FramesFit(fields)
    ensures ReadFields(FrameAll(fields) + post, 0, |fields|) == Some(fields)
  {
    var framed := FrameAll(fields);
    ReadFramed([], fields, post);
    assert [] + framed + post == framed + post;
  }

  lemma DecodeOfRead(dataBys: seq<byte>, fields: seq<seq<byte>>, accountOf: seq<M.AccountChar> -> seq<byte>)
    requires |fields| == WITNESS_FIELD_COUNT && ReadFields(dataBys, 0, WITNESS_FIELD_COUNT) == Some(fields)
    ensures DecodeSubAccountEntry(dataBys, accountOf) == BuilderFromFields(fields, accountOf)
  {
  }

  /** A well-framed witness whose version field holds any version but 1 is rejected with that version. */
  lemma OtherVersionRejected(fields: seq<seq<byte>>, post: seq<byte>, version: u32,
                             accountOf: seq<M.AccountChar> -> seq<byte>)
    requires |fields| == WITNESS_FIELD_COUNT && FramesFit(fields)
    requires fields[4] == U32(version) && version != GO_DATA_ENTITY_VERSION_1
    ensures DecodeSubAccountEntry(FrameAll(fields) + post, accountOf) == Err(UnsupportedVersion(version))
  {
    DecodeFramed(fields, post, accountOf);
    U32RoundTrip(version);
  }

  /** The action-data type a DAS witness is tagged with; only the sub-account tag matters here. */
  datatype ActionDataType = ActionDataTypeSubAccount | OtherActionDataType(tag: u32)

  /** A DAS witness of the transaction: its tag and the bytes after the header. */
  datatype WitnessEntry = WitnessEntry(actionDataType: ActionDataType, dataBys: seq<byte>)

  /**
   * The builders the witnesses decode to, keyed by account, a later witness for the same
   * account replacing an earlier one; the first witness that fails to decode ends the scan.
   */
  function CollectSubAccounts(entries: seq<WitnessEntry>, accountOf: seq<M.AccountChar> -> seq<byte>)
    : Result<map<seq<byte>, SubAccountBuilder>, DecodeError>
    decreases |entries|
  {
    if entries == [] then Ok(map[])
    else
      var respMap :- CollectSubAccounts(entries[..|entries| - 1], accountOf);
      var entry := entries[|entries| - 1];
      if entry.actionDataType != ActionDataTypeSubAccount then Ok(respMap)
      else
        var resp :- DecodeSubAccountEntry(entry.dataBys, accountOf);
        Ok(respMap[resp.account := resp])
  }

  /** What `SubAccountDataBuilderMapFromTx` returns. */
  function SubAccountDataBuilderMap(entries: seq<WitnessEntry>, accountOf: seq<M.AccountChar> -> seq<byte>)
    : Result<map<seq<byte>, SubAccountBuilder>, DecodeError>
  {
    var respMap :- CollectSubAccounts(entries, accountOf);
    if |respMap| == 0 then Err(NotExistSubAccount) else Ok(respMap)
  }

  lemma {:induction false} CollectFailureSticks(entries: seq<WitnessEntry>, i: nat, accountOf: seq<M.AccountChar> -> seq<byte>)
    requires i <= |entries| && CollectSubAccounts(entries[..i], accountOf).Err?
    ensures CollectSubAccounts(entries, accountOf) == CollectSubAccounts(entries[..i], accountOf)
    decreases |entries| - i
  {
    if i < |entries| {
      assert entries[..i + 1][..i] == entries[..i];
      CollectFailureSticks(entries, i + 1, accountOf);
    } else {
      assert entries[..i] == entries;
    }
  }

  /** `SubAccountDataBuilderMapFromTx`: decode every sub-account witness into the map, in order. */
  method SubAccountDataBuilderMapFromTx(entries: seq<WitnessEntry>, accountOf: seq<M.AccountChar> -> seq<byte>)
    returns (r: Result<map<seq<byte>, SubAccountBuilder>, DecodeError>)
    ensures r == SubAccountDataBuilderMap(entries, accountOf)
  {
    var respMap: map<seq<byte>, SubAccountBuilder> := map[];
    var i := 0;
    while i < |entries|
      invariant 0 <= i <= |entries|
      invariant CollectSubAccounts(entries[..i], accountOf) == Ok(respMap)
    {
      var entry := entries[i];
      assert entries[..i + 1][..i] == entries[..i];
      if entry.actionDataType == ActionDataTypeSubAccount {
        var fields := ReadWitnessFields(entry.dataBys, WITNESS_FIELD_COUNT);
        var resp: Result<SubAccountBuilder, DecodeError>;
        if fields.None? {
          resp := Err(TruncatedFrame);
        } else {
          var fs := fields.value;
          var version := Bytes2GoU32(fs[4]);
          if version.None? {
            resp := Err(BadVersionField);
          } else if version.value != GO_DATA_ENTITY_VERSION_1 {
            resp := Err(UnsupportedVersion(version.value));
          } else {
            var subAccount := M.DecodeSubAccount(fs[5]);
            if subAccount.None? {
              resp := Err(BadSubAccountTable);
            } else {
              var t := subAccount.value;
              resp := Ok(SubAccountBuilder(fs[0], fs[1], fs[2], fs[3], version.value, GoSubAccount(t),
                                           fs[6], fs[7], t, accountOf(t.account)));
            }
          }
        }
        assert resp == DecodeSubAccountEntry(entry.dataBys, accountOf);
        if resp.Err? {
          CollectFailureSticks(entries, i + 1, accountOf);
          return Err(resp.error);
        }
        respMap := respMap[resp.value.account := resp.value];
      }
      i := i + 1;
    }
    assert entries[..i] == entries;
    if |respMap| == 0 {
      return Err(NotExistSubAccount);
    }
    return Ok(respMap);
  }

  /** A transaction without a sub-account witness fails with "not exist sub account". */
  lemma {:induction false} NoSubAccountWitness(entries: seq<WitnessEntry>, accountOf: seq<M.AccountChar> -> seq<byte>)
    requires forall i :: 0 <= i < |entries| ==> entries[i].actionDataType != ActionDataTypeSubAccount
    ensures SubAccountDataBuilderMap(entries, accountOf) == Err(NotExistSubAccount)
  {
    NoSubAccountWitnessCollects(entries, accountOf);
  }

  lemma {:induction false} NoSubAccountWitnessCollects(entries: seq<WitnessEntry>, accountOf: seq<M.AccountChar> -> seq<byte>)
    requires forall i :: 0 <= i < |entries| ==> entries[i].actionDataType != ActionDataTypeSubAccount
    ensures CollectSubAccounts(entries, accountOf) == Ok(map[])
    decreases |entries|
  {
    if entries != [] {
      NoSubAccountWitnessCollects(entries[..|entries| - 1], accountOf);
    }
  }

  /** `b` is what some sub-account witness among `entries` decodes to. */
  predicate DecodedFrom(entries: seq<WitnessEntry>, accountOf: seq<M.AccountChar> -> seq<byte>, b: SubAccountBuilder)
  {
    exists i :: 0 <= i < |entries| && entries[i].actionDataType == ActionDataTypeSubAccount
                && DecodeSubAccountEntry(entries[i].dataBys, accountOf) == Ok(b)
  }

  /**
   * Every builder in the map comes from a sub-account witness of the transaction that
   * decodes to it, and it is filed under its own account.
   */
  lemma {:induction false} CollectedBuildersDecoded(entries: seq<WitnessEntry>, accountOf: seq<M.AccountChar> -> seq<byte>)
    requires CollectSubAccounts(entries, accountOf).Ok?
    ensures var respMap := CollectSubAccounts(entries, accountOf).value;
      forall account :: account in respMap ==>
        respMap[account].account == account && DecodedFrom(entries, accountOf, respMap[account])
    decreases |entries|
  {
    if entries != [] {
      var prefix := entries[..|entries| - 1];
      var last := entries[|entries| - 1];
      CollectStep(entries, accountOf);
      CollectedBuildersDecoded(prefix, accountOf);
      DecodedFromGrows(entries, accountOf);
      if last.actionDataType == ActionDataTypeSubAccount {
        var resp := DecodeSubAccountEntry(last.dataBys, accountOf).value;
        assert DecodedFrom(entries, accountOf, resp) by {
          assert entries[|entries| - 1] == last;
        }
      }
    }
  }

  /** What a witness of the prefix decodes to, a witness of the whole list decodes to. */
  lemma DecodedFromGrows(entries: seq<WitnessEntry>, accountOf: seq<M.AccountChar> -> seq<byte>)
    requires entries != []
    ensures forall b :: DecodedFrom(entries[..|entries| - 1], accountOf, b) ==> DecodedFrom(entries, accountOf, b)
  {
    forall b | DecodedFrom(entries[..|entries| - 1], accountOf, b) ensures DecodedFrom(entries, accountOf, b)
    {
      var i :| 0 <= i < |entries| - 1 && entries[..|entries| - 1][i].actionDataType == ActionDataTypeSubAccount
               && DecodeSubAccountEntry(entries[..|entries| - 1][i].dataBys, accountOf) == Ok(b);
      assert entries[i] == entries[..|entries| - 1][i];
    }
  }

  /** The last witness either leaves the map of the earlier ones alone or files its decoded builder. */
  lemma CollectStep(entries: seq<WitnessEntry>, accountOf: seq<M.AccountChar> -> seq<byte>)
    requires entries != [] && CollectSubAccounts(entries, accountOf).Ok?
    ensures CollectSubAccounts(entries[..|entries| - 1], accountOf).Ok?
    ensures var before := CollectSubAccounts(entries[..|entries| - 1], accountOf).value;
      var last := entries[|entries| - 1];
      if last.actionDataType != ActionDataTypeSubAccount then CollectSubAccounts(entries, accountOf).value == before
      else
        && DecodeSubAccountEntry(last.dataBys, accountOf).Ok?
        && var resp := DecodeSubAccountEntry(last.dataBys, accountOf).value;
        && CollectSubAccounts(entries, accountOf).value == before[resp.account := resp]
  {
  }

  // ---------------------------------------------------------------- round trips

  /**
   * A create witness decodes back to the parameter it was built from: the same signature,
   * roots, proof, edit key and value, version 1, and the sub-account as converted (its
   * account characters cut at the first ".").
   */
  lemma CreateWitnessDecodes(p: SubAccountParam, post: seq<byte>, accountOf: seq<M.AccountChar> -> seq<byte>)
    requires p.version == GO_DATA_ENTITY_VERSION_1 && Convertible(p.subAccount)
    requires FramesFit(NewFields(p, ConvertToMoleculeSubAccount(p.subAccount)))
    ensures var t := ConvertToMoleculeSubAccount(p.subAccount);
      DecodeSubAccountEntry(NewSubAccountBytes(p) + post, accountOf)
        == Ok(SubAccountBuilder(p.signature, p.prevRoot, p.currentRoot, p.proof, GO_DATA_ENTITY_VERSION_1,
                                GoSubAccount(t), p.editKey, p.editValue, t, accountOf(t.account)))
    ensures GoSubAccount(ConvertToMoleculeSubAccount(p.subAccount))
         == p.subAccount.(accountCharSet := p.subAccount.accountCharSet[..|AccountCharsBeforeDot(p.subAccount.accountCharSet)|])
  {
    var t := ConvertToMoleculeSubAccount(p.subAccount);
    NewExtendsOld(p, GO_DATA_ENTITY_VERSION_1, t);
    OldWitnessDecodes(p, t, p.editValue, post, accountOf);
    SubAccountConversionRoundTrip(p.subAccount);
  }

  /**
   * An edit, renew or recycle witness body (the old fields of a table, then one more frame,
   * then any bytes) decodes to that table and that last frame's payload as the edit value.
   */
  lemma OldWitnessDecodes(p: SubAccountParam, t: M.SubAccount, value: seq<byte>, post: seq<byte>,
                          accountOf: seq<M.AccountChar> -> seq<byte>)
    requires M.ValidSubAccount(t) && FramesFit(OldFields(p, t) + [value])
    ensures DecodeSubAccountEntry(OldSubAccountBytes(GO_DATA_ENTITY_VERSION_1, p, t) + Frame(value) + post, accountOf)
         == Ok(SubAccountBuilder(p.signature, p.prevRoot, p.currentRoot, p.proof, GO_DATA_ENTITY_VERSION_1,
                                 GoSubAccount(t), p.editKey, value, t, accountOf(t.account)))
  {
    var fields := OldFields(p, t) + [value];
    OldThenFrame(p, t, value);
    DecodeFramed(fields, post, accountOf);
    assert |fields[5]| < TWO_32;
    OldFieldsBuild(p, t, value, accountOf);
  }

  lemma OldThenFrame(p: SubAccountParam, t: M.SubAccount, value: seq<byte>)
    ensures FrameAll(OldFields(p, t) + [value]) == OldSubAccountBytes(GO_DATA_ENTITY_VERSION_1, p, t) + Frame(value)
  {
    FrameAllAppend(OldFields(p, t), [value]);
    assert FrameAll([value]) == Frame(value) + FrameAll([]);
  }

  lemma OldFieldsBuild(p: SubAccountParam, t: M.SubAccount, value: seq<byte>,
                       accountOf: seq<M.AccountChar> -> seq<byte>)
    requires M.ValidSubAccount(t) && |M.EncodeSubAccount(t)| < TWO_32
    ensures BuilderFromFields(OldFields(p, t) + [value], accountOf)
         == Ok(SubAccountBuilder(p.signature, p.prevRoot, p.currentRoot, p.proof, GO_DATA_ENTITY_VERSION_1,
                                 GoSubAccount(t), p.editKey, value, t, accountOf(t.account)))
  {
    var fs := OldFields(p, t) + [value];
    U32RoundTrip(GO_DATA_ENTITY_VERSION_1);
    assert Bytes2GoU32(fs[4]) == Some(GO_DATA_ENTITY_VERSION_1);
    M.SubAccountRoundTrip(t);
    assert M.DecodeSubAccount(fs[5]) == Some(t);
    BuildFromDecodedFields(fs, t, accountOf);
  }

  /** Eight frames whose version and table fields decode are built field by field. */
  lemma BuildFromDecodedFields(fs: seq<seq<byte>>, t: M.SubAccount, accountOf: seq<M.AccountChar> -> seq<byte>)
    requires |fs| == WITNESS_FIELD_COUNT
    requires Bytes2GoU32(fs[4]) == Some(GO_DATA_ENTITY_VERSION_1) && M.DecodeSubAccount(fs[5]) == Some(t)
    ensures BuilderFromFields(fs, accountOf)
         == Ok(SubAccountBuilder(fs[0], fs[1], fs[2], fs[3], GO_DATA_ENTITY_VERSION_1,
                                 GoSubAccount(t), fs[6], fs[7], t, accountOf(t.account)))
  {
  }

  /**
   * The recycle witness body decodes to the stored table, nonce not bumped, with an empty
   * edit value.
   */
  lemma RecycleWitnessDecodes(s: SubAccountBuilder, p: SubAccountParam, accountOf: seq<M.AccountChar> -> seq<byte>)
    requires s.version == GO_DATA_ENTITY_VERSION_1 && M.ValidSubAccount(s.moleculeSubAccount)
    requires FramesFit(OldFields(p, s.moleculeSubAccount))
    ensures var t := s.moleculeSubAccount;
      DecodeSubAccountEntry(OldSubAccountBytes(s.version, p, t) + U32(0) + [0], accountOf)
        == Ok(SubAccountBuilder(p.signature, p.prevRoot, p.currentRoot, p.proof, GO_DATA_ENTITY_VERSION_1,
                                GoSubAccount(t), p.editKey, [], t, accountOf(t.account)))
  {
    var t := s.moleculeSubAccount;
    assert Frame([]) == U32(0);
    assert FramesFit(OldFields(p, t) + [[]]);
    OldWitnessDecodes(p, t, [], [0], accountOf);
  }

  /** The renew witness body decodes to the edited table with the new expiry as the edit value. */
  lemma RenewWitnessDecodes(s: SubAccountBuilder, p: SubAccountParam, accountOf: seq<M.AccountChar> -> seq<byte>)
    requires s.version == GO_DATA_ENTITY_VERSION_1 && M.ValidSubAccount(s.moleculeSubAccount)
    requires GenMoleculeSubAccount(s).Some?
    requires FramesFit(OldFields(p, GenMoleculeSubAccount(s).value))
    ensures var t := GenMoleculeSubAccount(s).value;
      DecodeSubAccountEntry(OldSubAccountBytes(s.version, p, t) + U32(8) + U64(p.subAccount.expiredAt), accountOf)
        == Ok(SubAccountBuilder(p.signature, p.prevRoot, p.currentRoot, p.proof, GO_DATA_ENTITY_VERSION_1,
                                GoSubAccount(t), p.editKey, U64(p.subAccount.expiredAt), t, accountOf(t.account)))
  {
    var t := GenMoleculeSubAccount(s).value;
    var value := U64(p.subAccount.expiredAt);
    assert OldSubAccountBytes(s.version, p, t) + U32(8) + value
        == OldSubAccountBytes(s.version, p, t) + Frame(value) + [];
    assert FramesFit(OldFields(p, t) + [value]);
    OldWitnessDecodes(p, t, value, [], accountOf);
  }

  // ---------------------------------------------------------------- the decoder as written

  /** How the as-written decoder ends: a run-time panic at a source line, or a returned error. */
  datatype AsWrittenOutcome = Panicked(line: nat) | Failed(message: string)

  /** Go's `b[lo:hi]` on a slice whose capacity is its length; `None` is the out-of-range panic. */
  function GoSlice(b: seq<byte>, lo: int, hi: int): Option<seq<byte>>
  {
    if 0 <= lo <= hi <= |b| then Some(b[lo..hi]) else None
  }

  /** `x, _ := Bytes2GoU32(b)`: the value, or Go's zero value with the error dropped. */
  function U32IgnoringErr(b: seq<byte>): nat
  {
    match Bytes2GoU32(b)
    case Some(v) => v
    case None => 0
  }

  /**
   * One `xLen, _ := Bytes2GoU32(dataBys[index:length]); x = dataBys[index+length : xLen];
   * index = length + int(xLen)` step of lines 84-119, with `length` the constant 4: the
   * payload and the new `index`, or the panic at `line` (the length slice) or `line + 1`.
   */
  function AsWrittenStep(dataBys: seq<byte>, index: nat, line: nat): Option<(seq<byte>, nat)>
  {
    var word :- GoSlice(dataBys, index, 4);
    var len := U32IgnoringErr(word);
    var payload :- GoSlice(dataBys, index + 4, len);
    Some((payload, 4 + len))
  }

  function StepLine(dataBys: seq<byte>, index: nat, line: nat): nat
  {
    if GoSlice(dataBys, index, 4).None? then line else line + 1
  }

  /**
   * The sub-account case of `SubAccountDataBuilderMapFromTx` as written (lines 81-140).
   * The error of a version field that is not four bytes is checked (lines 100-107), the
   * others are dropped; after the fields, version 1 writes through the nil `resp.SubAccount`.
   */
  function AsWrittenSubAccountEntry(dataBys: seq<byte>): AsWrittenOutcome
  {
    match AsWrittenStep(dataBys, 0, 84)
    case None => Panicked(StepLine(dataBys, 0, 84))
    case Some((_, index)) =>
    match AsWrittenStep(dataBys, index, 88)
    case None => Panicked(StepLine(dataBys, index, 88))
    case Some((_, index)) =>
    match AsWrittenStep(dataBys, index, 92)
    case None => Panicked(StepLine(dataBys, index, 92))
    case Some((_, index)) =>
    match AsWrittenStep(dataBys, index, 96)
    case None => Panicked(StepLine(dataBys, index, 96))
    case Some((_, index)) =>
    match GoSlice(dataBys, index, 4)
    case None => Panicked(100)
    case Some(word) =>
    match Bytes2GoU32(word)
    case None => Failed("get version len err")
    case Some(versionLen) =>
    match GoSlice(dataBys, index + 4, versionLen)
    case None => Panicked(104)
    case Some(versionBys) =>
    match Bytes2GoU32(versionBys)
    case None => Failed("get version err")
    case Some(version) =>
    var index := 4 + versionLen;
    match AsWrittenStep(dataBys, index, 110)
    case None => Panicked(StepLine(dataBys, index, 110))
    case Some((subAccountBys, index)) =>
    match AsWrittenStep(dataBys, index, 114)
    case None => Panicked(StepLine(dataBys, index, 114))
    case Some((_, index)) =>
    match AsWrittenStep(dataBys, index, 118)
    case None => Panicked(StepLine(dataBys, index, 118))
    case Some(_) =>
    if version != GO_DATA_ENTITY_VERSION_1 then Failed("sub account version")
    else if M.DecodeSubAccount(subAccountBys).None? then Failed("SubAccountDataFromSlice err")
    else Panicked(127)
  }

  /**
   * As written, the decoder panics on every input by line 88: a signature length below 4
   * makes `dataBys[4:signatureLen]` run backwards, and any other makes `dataBys[index:4]`
   * start past 4.
   */
  lemma AsWrittenAlwaysPanics(dataBys: seq<byte>)
    ensures AsWrittenSubAccountEntry(dataBys).Panicked?
    ensures AsWrittenSubAccountEntry(dataBys).line <= 88
  {
  }

  /**
   * So the witness the encoder writes is never read back by the code as written, although
   * the intended reader recovers it.
   */
  lemma CreateWitnessUnreadableAsWritten(p: SubAccountParam, accountOf: seq<M.AccountChar> -> seq<byte>)
    requires p.version == GO_DATA_ENTITY_VERSION_1 && Convertible(p.subAccount)
    requires FramesFit(NewFields(p, ConvertToMoleculeSubAccount(p.subAccount)))
    ensures AsWrittenSubAccountEntry(NewSubAccountBytes(p)).Panicked?
    ensures DecodeSubAccountEntry(NewSubAccountBytes(p), accountOf).Ok?
  {
    AsWrittenAlwaysPanics(NewSubAccountBytes(p));
    CreateWitnessDecodes(p, [], accountOf);
    assert NewSubAccountBytes(p) + [] == NewSubAccountBytes(p);
  }
}
