/**
 * The two variable-size layouts of the Molecule serialisation format
 * (Nervos RFC 0008 "Serialization") that the sub-account table is built from:
 *
 *  - fixvec of bytes (`Bytes`): the item count as a little-endian `u32`, then the items;
 *  - table and dynvec: the total size, one offset per field (each a little-endian
 *    `u32`, counted from the start of the table), then the fields back to back.
 *
 * Decoding checks what Molecule's non-compatible verifier checks: the total size is
 * the slice length, the first offset is the header size, the offsets never decrease
 * and never pass the end.
 */
module Molecule {

  import opened Wrappers
  import opened Bytes

  /** `Bytes` (fixvec<byte>) as built by `molecule.GoBytes2MoleculeBytes`. */
  function EncodeBytes(x: seq<byte>): (r: seq<byte>)
    ensures |r| == 4 + |x|
  {
    U32(|x|) + x
  }

  /** `molecule.BytesFromSlice(b, false)` followed by `RawData()`. */
  function DecodeBytes(b: seq<byte>): (r: Option<seq<byte>>)
    ensures r.Some? ==> |b| == 4 + |r.value| && b[4..] == r.value
  {
    if |b| >= 4 && FromLittleEndian(b[..4]) == |b| - 4 then Some(b[4..]) else None
  }

  lemma BytesRoundTrip(x: seq<byte>)
    requires |x| < TWO_32
    ensures DecodeBytes(EncodeBytes(x)) == Some(x)
  {
    Pow256Widths();
    FromToLittleEndian(|x|, 4);
    assert EncodeBytes(x)[..4] == U32(|x|);
    assert EncodeBytes(x)[4..] == x;
  }

  /** The fields of a table laid end to end. */
  function Concat(fields: seq<seq<byte>>): seq<byte>
  {
    if fields == [] then [] else fields[0] + Concat(fields[1..])
  }

  /** The offset words of a table whose first field starts at `start`. */
  function Offsets(fields: seq<seq<byte>>, start: nat): (r: seq<byte>)
    ensures |r| == 4 * |fields|
  {
    if fields == [] then [] else U32(start) + Offsets(fields[1..], start + |fields[0]|)
  }

  function HeaderSize(count: nat): nat
  {
    4 * (count + 1)
  }

  /** A Molecule table (or dynvec) holding the already serialised `fields`. */
  function EncodeTable(fields: seq<seq<byte>>): (r: seq<byte>)
    ensures |r| == HeaderSize(|fields|) + |Concat(fields)|
  {
    U32(HeaderSize(|fields|) + |Concat(fields)|) + Offsets(fields, HeaderSize(|fields|)) + Concat(fields)
  }

  function ReadU32At(b: seq<byte>, at: nat): nat
    requires at + 4 <= |b|
  {
    FromLittleEndian(b[at..at + 4])
  }

  /** The `count` offsets of a table header followed by its total size. */
  function Bounds(b: seq<byte>, count: nat): (r: seq<nat>)
    requires HeaderSize(count) <= |b|
    ensures |r| == count + 1 && r[count] == |b|
  {
    seq(count, i requires 0 <= i < count => ReadU32At(b, 4 + 4 * i)) + [|b|]
  }

  /** Offsets that never decrease and never pass `limit`. */
  predicate AscendingWithin(s: seq<nat>, limit: nat)
  {
    (forall i :: 0 <= i < |s| - 1 ==> s[i] <= s[i + 1]) && (forall i :: 0 <= i < |s| ==> s[i] <= limit)
  }

  /** The fields between consecutive bounds. */
  function Slices(b: seq<byte>, bounds: seq<nat>): (r: seq<seq<byte>>)
    requires |bounds| > 0 && AscendingWithin(bounds, |b|)
    ensures |r| == |bounds| - 1
    ensures forall i :: 0 <= i < |r| ==> r[i] == b[bounds[i]..bounds[i + 1]]
  {
    seq(|bounds| - 1, i requires 0 <= i < |bounds| - 1 => b[bounds[i]..bounds[i + 1]])
  }

  /** `molecule.*FromSlice(b, false)` for a table or dynvec: its fields, or an error. */
  function DecodeTable(b: seq<byte>): (r: Option<seq<seq<byte>>>)
    ensures r.Some? ==> |b| >= 4 && ReadU32At(b, 0) == |b|
  {
    if |b| < 4 || ReadU32At(b, 0) != |b| then None
    else if |b| == 4 then Some([])
    else if |b| < 8 then None
    else
      var first := ReadU32At(b, 4);
      if first % 4 != 0 || first < 8 || first > |b| then None
      else
        var count := first / 4 - 1;
        var bounds := Bounds(b, count);
        if bounds[0] != first || !AscendingWithin(bounds, |b|) then None
        else Some(Slices(b, bounds))
  }

  /** The length of the first `i` fields laid end to end: where field `i` starts. */
  function PrefixLength(fields: seq<seq<byte>>, i: nat): nat
    requires i <= |fields|
  {
    |Concat(fields[..i])|
  }

  lemma {:induction false} ConcatAppend(a: seq<seq<byte>>, b: seq<seq<byte>>)
    ensures Concat(a + b) == Concat(a) + Concat(b)
  {
    if a != [] {
      assert (a + b)[1..] == a[1..] + b;
      ConcatAppend(a[1..], b);
    } else {
      assert a + b == b;
    }
  }

  lemma ConcatPrefix(fields: seq<seq<byte>>, i: nat)
    requires i < |fields|
    ensures Concat(fields[..i + 1]) == Concat(fields[..i]) + fields[i]
    ensures PrefixLength(fields, i + 1) == PrefixLength(fields, i) + |fields[i]|
  {
    assert fields[..i + 1] == fields[..i] + [fields[i]];
    ConcatAppend(fields[..i], [fields[i]]);
    assert Concat([fields[i]]) == fields[i] + Concat([]);
  }

  lemma ConcatSplit(fields: seq<seq<byte>>, i: nat)
    requires i <= |fields|
    ensures Concat(fields) == Concat(fields[..i]) + Concat(fields[i..])
  {
    assert fields == fields[..i] + fields[i..];
    ConcatAppend(fields[..i], fields[i..]);
  }

  lemma {:induction false} PrefixLengthMonotone(fields: seq<seq<byte>>, i: nat, j: nat)
    requires i <= j <= |fields|
    ensures PrefixLength(fields, i) <= PrefixLength(fields, j)
    ensures PrefixLength(fields, j) <= |Concat(fields)|
    decreases j - i
  {
    if i < j {
      ConcatPrefix(fields, i);
      PrefixLengthMonotone(fields, i + 1, j);
    } else {
      ConcatSplit(fields, j);
    }
  }

  /** Field `i` is found in the concatenation between its start and the next one's. */
  lemma ConcatField(fields: seq<seq<byte>>, i: nat)
    requires i < |fields|
    ensures PrefixLength(fields, i) <= PrefixLength(fields, i + 1) <= |Concat(fields)|
    ensures Concat(fields)[PrefixLength(fields, i)..PrefixLength(fields, i + 1)] == fields[i]
  {
    ConcatPrefix(fields, i);
    ConcatSplit(fields, i + 1);
  }

  /** Every field is no longer than the concatenation holding it. */
  lemma FieldWithinConcat(fields: seq<seq<byte>>, i: nat)
    requires i < |fields|
    ensures |fields[i]| <= |Concat(fields)|
  {
    ConcatField(fields, i);
  }

  lemma {:induction false} OffsetsAt(fields: seq<seq<byte>>, start: nat, i: nat)
    requires i < |fields|
    ensures Offsets(fields, start)[4 * i..4 * i + 4] == U32(start + PrefixLength(fields, i))
  {
    if i > 0 {
      OffsetsAt(fields[1..], start + |fields[0]|, i - 1);
      assert fields[..i] == [fields[0]] + fields[1..][..i - 1];
      ConcatAppend([fields[0]], fields[1..][..i - 1]);
      assert Concat([fields[0]]) == fields[0] + Concat([]);
      assert PrefixLength(fields, i) == |fields[0]| + PrefixLength(fields[1..], i - 1);
    } else {
      assert fields[..0] == [];
    }
  }

  lemma BoundsAt(b: seq<byte>, count: nat, i: nat)
    requires HeaderSize(count) <= |b| && i < count
    ensures Bounds(b, count)[i] == ReadU32At(b, 4 + 4 * i)
  {
  }

  lemma HeaderWord(b: seq<byte>, total: nat, offsets: seq<byte>, rest: seq<byte>, at: nat)
    requires b == U32(total) + offsets + rest
    requires at + 4 <= |offsets|
    ensures b[4 + at..8 + at] == offsets[at..at + 4]
  {
    assert b[4..4 + |offsets|] == offsets;
  }

  /** In an encoded table, header word `i` holds the start of field `i`. */
  lemma EncodedBound(fields: seq<seq<byte>>, i: nat)
    requires |EncodeTable(fields)| < TWO_32
    requires i < |fields|
    ensures HeaderSize(|fields|) <= |EncodeTable(fields)|
    ensures Bounds(EncodeTable(fields), |fields|)[i] == HeaderSize(|fields|) + PrefixLength(fields, i)
  {
    var b := EncodeTable(fields);
    var h := HeaderSize(|fields|);
    var offsets := Offsets(fields, h);
    var start := h + PrefixLength(fields, i);
    HeaderWord(b, |b|, offsets, Concat(fields), 4 * i);
    OffsetsAt(fields, h, i);
    PrefixLengthMonotone(fields, i, |fields|);
    assert start < TWO_32;
    U32RoundTrip(start);
    BoundsAt(b, |fields|, i);
  }

  lemma TableTotal(fields: seq<seq<byte>>)
    requires |EncodeTable(fields)| < TWO_32
    ensures ReadU32At(EncodeTable(fields), 0) == |EncodeTable(fields)|
  {
    var b := EncodeTable(fields);
    assert b[0..4] == U32(|b|);
    U32RoundTrip(|b|);
  }

  /** The bounds read back from an encoded table are the field starts, in order. */
  lemma TableBounds(fields: seq<seq<byte>>)
    requires |EncodeTable(fields)| < TWO_32 && |fields| > 0
    ensures var b := EncodeTable(fields);
      && HeaderSize(|fields|) <= |b|
      && Bounds(b, |fields|)[0] == HeaderSize(|fields|)
      && AscendingWithin(Bounds(b, |fields|), |b|)
      && forall i :: 0 <= i <= |fields| ==> Bounds(b, |fields|)[i] == HeaderSize(|fields|) + PrefixLength(fields, i)
  {
    var b := EncodeTable(fields);
    var n := |fields|;
    var h := HeaderSize(n);
    var bounds := Bounds(b, n);
    assert fields[..n] == fields;
    assert fields[..0] == [];
    forall i | 0 <= i <= n
      ensures bounds[i] == h + PrefixLength(fields, i)
    {
      if i < n { EncodedBound(fields, i); }
    }
    forall i | 0 <= i < n
      ensures bounds[i] <= bounds[i + 1]
    {
      PrefixLengthMonotone(fields, i, i + 1);
    }
    forall i | 0 <= i <= n
      ensures bounds[i] <= |b|
    {
      PrefixLengthMonotone(fields, i, n);
    }
  }

  lemma TableSlices(fields: seq<seq<byte>>)
    requires |EncodeTable(fields)| < TWO_32 && |fields| > 0
    ensures var b := EncodeTable(fields);
      && HeaderSize(|fields|) <= |b|
      && |Bounds(b, |fields|)| > 0 && AscendingWithin(Bounds(b, |fields|), |b|)
      && Slices(b, Bounds(b, |fields|)) == fields
  {
    var b := EncodeTable(fields);
    var n := |fields|;
    var h := HeaderSize(n);
    TableBounds(fields);
    var bounds := Bounds(b, n);
    var r := Slices(b, bounds);
    var c := Concat(fields);
    assert b == (U32(|b|) + Offsets(fields, h)) + c;
    forall i | 0 <= i < n
      ensures r[i] == fields[i]
    {
      ConcatField(fields, i);
      SliceOfSuffix(U32(|b|) + Offsets(fields, h), c, PrefixLength(fields, i), PrefixLength(fields, i + 1));
    }
  }

  /** A slice that lies past `a` in `a + c` is the matching slice of `c`. */
  lemma SliceOfSuffix(a: seq<byte>, c: seq<byte>, x: nat, y: nat)
    requires x <= y <= |c|
    ensures (a + c)[|a| + x..|a| + y] == c[x..y]
  {
  }

  lemma {:induction false} TableRoundTrip(fields: seq<seq<byte>>)
    requires |EncodeTable(fields)| < TWO_32
    ensures DecodeTable(EncodeTable(fields)) == Some(fields)
  {
    TableTotal(fields);
    if |fields| > 0 {
      TableBounds(fields);
      TableSlices(fields);
      BoundsAt(EncodeTable(fields), |fields|, 0);
    }
  }
}
