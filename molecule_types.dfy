/**
 * The Molecule types the sub-account witness carries, as the Go package
 * `molecule` exposes them: `Script`, `AccountChar`/`AccountChars`, `Record`/`Records`
 * and the eleven-field `SubAccount` table. Fixed-size integers stay as their raw
 * little-endian bytes, as in Molecule; `Encode*` is `AsSlice()` and `Decode*` is
 * `*FromSlice(b, false)`.
 */
module MoleculeTypes {

  import opened Wrappers
  import opened Bytes
  import opened Molecule

  /** A CKB script: 32-byte code hash, hash type byte, argument bytes. */
  datatype Script = Script(codeHash: seq<byte>, hashType: byte, args: seq<byte>)

  /** One character of an account name: `char_set_name` (a `Uint32`) and its bytes. */
  datatype AccountChar = AccountChar(charSetName: seq<byte>, bytes: seq<byte>)

  /** A record of an account; `recordTtl` is a `Uint32`. */
  datatype Record = Record(recordKey: seq<byte>, recordType: seq<byte>, recordLabel: seq<byte>,
                           recordValue: seq<byte>, recordTtl: seq<byte>)

  /** The sub-account table, fields in wire order. */
  datatype SubAccount = SubAccount(
    lock: Script,
    id: seq<byte>,
    account: seq<AccountChar>,
    suffix: seq<byte>,
    registeredAt: seq<byte>,
    expiredAt: seq<byte>,
    status: seq<byte>,
    records: seq<Record>,
    nonce: seq<byte>,
    enableSubAccount: seq<byte>,
    renewSubAccountPrice: seq<byte>)

  const ACCOUNT_ID_SIZE: nat := 20
  const SUB_ACCOUNT_FIELD_COUNT: nat := 11

  predicate ValidScript(s: Script)
  {
    |s.codeHash| == 32
  }

  predicate ValidAccountChar(c: AccountChar)
  {
    |c.charSetName| == 4
  }

  predicate ValidRecord(r: Record)
  {
    |r.recordTtl| == 4
  }

  /** Every fixed-size field has its Molecule width. */
  predicate ValidSubAccount(t: SubAccount)
  {
    && ValidScript(t.lock)
    && |t.id| == ACCOUNT_ID_SIZE
    && (forall i :: 0 <= i < |t.account| ==> ValidAccountChar(t.account[i]))
    && |t.registeredAt| == 8 && |t.expiredAt| == 8 && |t.status| == 1
    && (forall i :: 0 <= i < |t.records| ==> ValidRecord(t.records[i]))
    && |t.nonce| == 8 && |t.enableSubAccount| == 1 && |t.renewSubAccountPrice| == 8
  }

  // ---------------------------------------------------------------- vectors of tables

  /** The items of a dynvec decoded one by one; fails if any item fails. */
  function DecodeEach<T>(items: seq<seq<byte>>, decode: seq<byte> -> Option<T>): (r: Option<seq<T>>)
    ensures r.Some? ==> |r.value| == |items|
    ensures r.Some? ==> forall i :: 0 <= i < |items| ==> decode(items[i]) == Some(r.value[i])
  {
    if items == [] then Some([])
    else
      var x :- decode(items[0]);
      var xs :- DecodeEach(items[1..], decode);
      Some([x] + xs)
  }

  lemma {:induction false} DecodeEachInverse<T>(items: seq<seq<byte>>, decode: seq<byte> -> Option<T>, xs: seq<T>)
    requires |items| == |xs|
    requires forall i :: 0 <= i < |items| ==> decode(items[i]) == Some(xs[i])
    ensures DecodeEach(items, decode) == Some(xs)
  {
    if items != [] {
      DecodeEachInverse(items[1..], decode, xs[1..]);
      assert xs == [xs[0]] + xs[1..];
    }
  }

  /** A field of an encoded table is no larger than the table. */
  lemma FieldWithinTable(fields: seq<seq<byte>>, i: nat)
    requires i < |fields|
    ensures |fields[i]| < |EncodeTable(fields)|
  {
    FieldWithinConcat(fields, i);
  }

  // ---------------------------------------------------------------- Script

  function EncodeScript(s: Script): seq<byte>
  {
    EncodeTable([s.codeHash, [s.hashType], EncodeBytes(s.args)])
  }

  function DecodeScript(b: seq<byte>): (r: Option<Script>)
    ensures r.Some? ==> ValidScript(r.value)
  {
    var fs :- DecodeTable(b);
    if |fs| != 3 || |fs[0]| != 32 || |fs[1]| != 1 then None
    else
      var args :- DecodeBytes(fs[2]);
      Some(Script(fs[0], fs[1][0], args))
  }

  lemma ScriptRoundTrip(s: Script)
    requires ValidScript(s) && |EncodeScript(s)| < TWO_32
    ensures DecodeScript(EncodeScript(s)) == Some(s)
  {
    var fs := [s.codeHash, [s.hashType], EncodeBytes(s.args)];
    TableRoundTrip(fs);
    FieldWithinTable(fs, 2);
    BytesRoundTrip(s.args);
  }

  // ---------------------------------------------------------------- AccountChar(s)

  function EncodeAccountChar(c: AccountChar): seq<byte>
  {
    EncodeTable([c.charSetName, EncodeBytes(c.bytes)])
  }

  function DecodeAccountChar(b: seq<byte>): (r: Option<AccountChar>)
    ensures r.Some? ==> ValidAccountChar(r.value)
  {
    var fs :- DecodeTable(b);
    if |fs| != 2 || |fs[0]| != 4 then None
    else
      var bytes :- DecodeBytes(fs[1]);
      Some(AccountChar(fs[0], bytes))
  }

  lemma AccountCharRoundTrip(c: AccountChar)
    requires ValidAccountChar(c) && |EncodeAccountChar(c)| < TWO_32
    ensures DecodeAccountChar(EncodeAccountChar(c)) == Some(c)
  {
    var fs := [c.charSetName, EncodeBytes(c.bytes)];
    TableRoundTrip(fs);
    FieldWithinTable(fs, 1);
    BytesRoundTrip(c.bytes);
  }

  function AccountCharItems(cs: seq<AccountChar>): (r: seq<seq<byte>>)
    ensures |r| == |cs| && forall i :: 0 <= i < |cs| ==> r[i] == EncodeAccountChar(cs[i])
  {
    seq(|cs|, i requires 0 <= i < |cs| => EncodeAccountChar(cs[i]))
  }

  function EncodeAccountChars(cs: seq<AccountChar>): seq<byte>
  {
    EncodeTable(AccountCharItems(cs))
  }

  function DecodeAccountChars(b: seq<byte>): (r: Option<seq<AccountChar>>)
    ensures r.Some? ==> forall i :: 0 <= i < |r.value| ==> ValidAccountChar(r.value[i])
  {
    var items :- DecodeTable(b);
    DecodeEach(items, DecodeAccountChar)
  }

  lemma AccountCharsRoundTrip(cs: seq<AccountChar>)
    requires forall i :: 0 <= i < |cs| ==> ValidAccountChar(cs[i])
    requires |EncodeAccountChars(cs)| < TWO_32
    ensures DecodeAccountChars(EncodeAccountChars(cs)) == Some(cs)
  {
    var items := AccountCharItems(cs);
    TableRoundTrip(items);
    forall i | 0 <= i < |items|
      ensures DecodeAccountChar(items[i]) == Some(cs[i])
    {
      FieldWithinTable(items, i);
      AccountCharRoundTrip(cs[i]);
    }
    DecodeEachInverse(items, DecodeAccountChar, cs);
  }

  // ---------------------------------------------------------------- Record(s)

  function EncodeRecord(r: Record): seq<byte>
  {
    EncodeTable([EncodeBytes(r.recordKey), EncodeBytes(r.recordType), EncodeBytes(r.recordLabel),
                 EncodeBytes(r.recordValue), r.recordTtl])
  }

  function DecodeRecord(b: seq<byte>): (r: Option<Record>)
    ensures r.Some? ==> ValidRecord(r.value)
  {
    var fs :- DecodeTable(b);
    if |fs| != 5 || |fs[4]| != 4 then None
    else
      var key :- DecodeBytes(fs[0]);
      var recordType :- DecodeBytes(fs[1]);
      var recordLabel :- DecodeBytes(fs[2]);
      var value :- DecodeBytes(fs[3]);
      Some(Record(key, recordType, recordLabel, value, fs[4]))
  }

  lemma RecordRoundTrip(r: Record)
    requires ValidRecord(r) && |EncodeRecord(r)| < TWO_32
    ensures DecodeRecord(EncodeRecord(r)) == Some(r)
  {
    var fs := [EncodeBytes(r.recordKey), EncodeBytes(r.recordType), EncodeBytes(r.recordLabel),
               EncodeBytes(r.recordValue), r.recordTtl];
    TableRoundTrip(fs);
    FieldWithinTable(fs, 0);
    FieldWithinTable(fs, 1);
    FieldWithinTable(fs, 2);
    FieldWithinTable(fs, 3);
    BytesRoundTrip(r.recordKey);
    BytesRoundTrip(r.recordType);
    BytesRoundTrip(r.recordLabel);
    BytesRoundTrip(r.recordValue);
  }

  function RecordItems(rs: seq<Record>): (r: seq<seq<byte>>)
    ensures |r| == |rs| && forall i :: 0 <= i < |rs| ==> r[i] == EncodeRecord(rs[i])
  {
    seq(|rs|, i requires 0 <= i < |rs| => EncodeRecord(rs[i]))
  }

  /** `Records` (a dynvec of `Record`) as `AsSlice()` gives it. */
  function EncodeRecords(rs: seq<Record>): seq<byte>
  {
    EncodeTable(RecordItems(rs))
  }

  /** `molecule.RecordsFromSlice(b, false)`. */
  function DecodeRecords(b: seq<byte>): (r: Option<seq<Record>>)
    ensures r.Some? ==> forall i :: 0 <= i < |r.value| ==> ValidRecord(r.value[i])
  {
    var items :- DecodeTable(b);
    DecodeEach(items, DecodeRecord)
  }

  lemma RecordsRoundTrip(rs: seq<Record>)
    requires forall i :: 0 <= i < |rs| ==> ValidRecord(rs[i])
    requires |EncodeRecords(rs)| < TWO_32
    ensures DecodeRecords(EncodeRecords(rs)) == Some(rs)
  {
    var items := RecordItems(rs);
    TableRoundTrip(items);
    forall i | 0 <= i < |items|
      ensures DecodeRecord(items[i]) == Some(rs[i])
    {
      FieldWithinTable(items, i);
      RecordRoundTrip(rs[i]);
    }
    DecodeEachInverse(items, DecodeRecord, rs);
  }

  // ---------------------------------------------------------------- SubAccount

  function SubAccountFields(t: SubAccount): (r: seq<seq<byte>>)
    ensures |r| == SUB_ACCOUNT_FIELD_COUNT
  {
    [EncodeScript(t.lock), t.id, EncodeAccountChars(t.account), EncodeBytes(t.suffix),
     t.registeredAt, t.expiredAt, t.status, EncodeRecords(t.records),
     t.nonce, t.enableSubAccount, t.renewSubAccountPrice]
  }

  /** `SubAccount.AsSlice()`: the table built by `NewSubAccountBuilder()...Build()`. */
  function EncodeSubAccount(t: SubAccount): seq<byte>
  {
    EncodeTable(SubAccountFields(t))
  }

  /** `molecule.SubAccountFromSlice(b, false)`: exactly eleven fields, each of its own type. */
  function DecodeSubAccount(b: seq<byte>): (r: Option<SubAccount>)
    ensures r.Some? ==> ValidSubAccount(r.value)
  {
    var fs :- DecodeTable(b);
    SubAccountFromFields(fs)
  }

  /** The sub-account eleven table fields describe, when each holds a value of its type. */
  function SubAccountFromFields(fs: seq<seq<byte>>): (r: Option<SubAccount>)
    ensures r.Some? ==> ValidSubAccount(r.value)
  {
    if |fs| != SUB_ACCOUNT_FIELD_COUNT || |fs[1]| != ACCOUNT_ID_SIZE || |fs[4]| != 8 || |fs[5]| != 8
       || |fs[6]| != 1 || |fs[8]| != 8 || |fs[9]| != 1 || |fs[10]| != 8 then None
    else
      var lock :- DecodeScript(fs[0]);
      var account :- DecodeAccountChars(fs[2]);
      var suffix :- DecodeBytes(fs[3]);
      var records :- DecodeRecords(fs[7]);
      Some(SubAccount(lock, fs[1], account, suffix, fs[4], fs[5], fs[6], records, fs[8], fs[9], fs[10]))
  }

  /** Decoding the serialised table gives the table back. */
  lemma SubAccountRoundTrip(t: SubAccount)
    requires ValidSubAccount(t) && |EncodeSubAccount(t)| < TWO_32
    ensures DecodeSubAccount(EncodeSubAccount(t)) == Some(t)
  {
    var fs := SubAccountFields(t);
    TableRoundTrip(fs);
    assert DecodeTable(EncodeSubAccount(t)) == Some(fs);
    SubAccountFromOwnFields(t);
  }

  lemma SubAccountFromOwnFields(t: SubAccount)
    requires ValidSubAccount(t) && |EncodeSubAccount(t)| < TWO_32
    ensures SubAccountFromFields(SubAccountFields(t)) == Some(t)
  {
    SubAccountFieldsRoundTrip(t);
  }

  lemma SubAccountFieldsRoundTrip(t: SubAccount)
    requires ValidSubAccount(t) && |EncodeSubAccount(t)| < TWO_32
    ensures var fs := SubAccountFields(t);
      && DecodeScript(fs[0]) == Some(t.lock)
      && DecodeAccountChars(fs[2]) == Some(t.account)
      && DecodeBytes(fs[3]) == Some(t.suffix)
      && DecodeRecords(fs[7]) == Some(t.records)
  {
    var fs := SubAccountFields(t);
    FieldWithinTable(fs, 0);
    FieldWithinTable(fs, 2);
    FieldWithinTable(fs, 3);
    FieldWithinTable(fs, 7);
    ScriptRoundTrip(t.lock);
    AccountCharsRoundTrip(t.account);
    BytesRoundTrip(t.suffix);
    RecordsRoundTrip(t.records);
  }
}
