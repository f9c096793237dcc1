/** Raw BSON documents (BSON specification 1.1, productions `document`, `e_list` and `element`), putting
    an `_id` in front of a document, and predicting the size of an array
    (driver/src/bson_util.rs:160-191, 226-248, 250-295).
 */
module Bson {
  import opened Wrappers
  import opened Utf8

  const MAX_INT32 := 0x7FFF_FFFF
  const MAX_USIZE := 0xFFFF_FFFF_FFFF_FFFF

  // ---------------------------------------------------------------------
  // The format
  // ---------------------------------------------------------------------

  function Le32(n: nat): (b: Bytes)
    ensures |b| == 4
  {
    [n % 256, n / 256 % 256, n / 256 / 256 % 256, n / 256 / 256 / 256 % 256]
  }

  /** A signed little-endian integer. */
  function FromLe32(b: Bytes): int
    requires |b| >= 4
  {
    var n: int := b[0] as int + 256 * (b[1] as int) + 65536 * (b[2] as int) + 16777216 * (b[3] as int);
    if b[3] >= 128 then n - 0x1_0000_0000 else n
  }

  lemma Le32RoundTrip(n: nat)
    requires n <= MAX_INT32
    ensures FromLe32(Le32(n)) == n
  {
    var q1, q2, q3 := n / 256, n / 256 / 256, n / 256 / 256 / 256;
    assert n == 256 * q1 + n % 256 && q1 == 256 * q2 + q1 % 256 && q2 == 256 * q3 + q2 % 256;
    assert q3 < 128;
  }

  datatype RawElement = RawElement(kind: Byte, key: Bytes, value: Bytes)

  function FindNul(b: Bytes): (r: Option<nat>)
    ensures r.Some? ==> r.value < |b| && b[r.value] == 0 && 0 !in b[..r.value]
    ensures r.None? ==> 0 !in b
  {
    if b == [] then None
    else if b[0] == 0 then Some(0)
    else
      var r := FindNul(b[1..]);
      if r.None? then None else (assert b[..r.value + 1] == [b[0]] + b[1..][..r.value]; Some(r.value + 1))
  }

  function FixedLength(kind: Byte): Option<nat> {
    if kind in {0x06, 0x0A, 0x7F, 0xFF} then Some(0)
    else if kind == 0x08 then Some(1)
    else if kind == 0x10 then Some(4)
    else if kind in {0x01, 0x09, 0x11, 0x12} then Some(8)
    else if kind == 0x07 then Some(12)
    else if kind == 0x13 then Some(16)
    else None
  }

  /** What has to be added to a length prefix, and the least it may be. */
  function Prefixed(kind: Byte): Option<(nat, nat)> {
    if kind in {0x02, 0x0D, 0x0E} then Some((4, 1))
    else if kind in {0x03, 0x04} then Some((0, 5))
    else if kind == 0x05 then Some((5, 0))
    else if kind == 0x0C then Some((16, 1))
    else if kind == 0x0F then Some((0, 14))
    else None
  }

  /** The length of the value of this kind that starts here. */
  function ValueLength(kind: Byte, b: Bytes): Option<nat> {
    if FixedLength(kind).Some? then FixedLength(kind)
    else if Prefixed(kind).Some? then
      if |b| >= 4 && FromLe32(b) >= Prefixed(kind).value.1 then Some(FromLe32(b) + Prefixed(kind).value.0) else None
    else if kind == 0x0B then
      var i := FindNul(b);
      if i.None? then None
      else
        var j := FindNul(b[i.value + 1..]);
        if j.None? then None else Some(i.value + j.value + 2)
    else None
  }

  function Encode(e: RawElement): Bytes { [e.kind] + e.key + [0] + e.value }

  function EncodeAll(es: seq<RawElement>): Bytes { if es == [] then [] else Encode(es[0]) + EncodeAll(es[1..]) }

  /** The first element and what follows it. */
  function ParseOne(b: Bytes): (r: Option<(RawElement, Bytes)>)
    ensures r.Some? ==> |r.value.1| < |b|
  {
    if b == [] then None
    else
      var i := FindNul(b[1..]);
      if i.None? then None
      else
        var rest := b[i.value + 2..];
        var n := ValueLength(b[0], rest);
        if n.None? || n.value > |rest| then None
        else Some((RawElement(b[0], b[1..i.value + 1], rest[..n.value]), rest[n.value..]))
  }

  function Parse(b: Bytes): Option<seq<RawElement>>
    decreases |b|
  {
    if b == [] then Some([])
    else
      var one := ParseOne(b);
      if one.None? then None
      else
        var more := Parse(one.value.1);
        if more.None? then None else Some([one.value.0] + more.value)
  }

  /** A length, a list of elements and a null byte. */
  predicate IsRawDocument(d: Bytes) { |d| >= 5 && FromLe32(d) == |d| && d[|d| - 1] == 0 }

  function Body(d: Bytes): Bytes
    requires IsRawDocument(d)
  {
    d[4..|d| - 1]
  }

  function Elements(d: Bytes): Option<seq<RawElement>>
    requires IsRawDocument(d)
  {
    Parse(Body(d))
  }

  predicate WellFormedElement(e: RawElement) { 0 !in e.key && ValueLength(e.kind, e.value) == Some(|e.value|) }

  lemma {:induction false} FindNulInPrefix(b: Bytes, rest: Bytes)
    ensures FindNul(b).Some? ==> FindNul(b + rest) == FindNul(b)
    decreases |b|
  {
    if b != [] && b[0] != 0 {
      FindNulInPrefix(b[1..], rest);
      assert (b + rest)[1..] == b[1..] + rest;
    }
  }

  lemma {:induction false} FindNulAfter(key: Bytes, rest: Bytes)
    requires 0 !in key
    ensures FindNul(key + [0] + rest) == Some(|key|)
    decreases |key|
  {
    var b := key + [0] + rest;
    if key != [] {
      assert key[0] in key;
      FindNulAfter(key[1..], rest);
      assert b[1..] == key[1..] + [0] + rest;
    }
  }

  lemma ValueLengthOfPrefix(kind: Byte, value: Bytes, rest: Bytes)
    requires ValueLength(kind, value) == Some(|value|)
    ensures ValueLength(kind, value + rest) == Some(|value|)
  {
    if kind == 0x0B {
      FindNulInPrefix(value, rest);
      var i := FindNul(value).value;
      assert (value + rest)[i + 1..] == value[i + 1..] + rest;
      FindNulInPrefix(value[i + 1..], rest);
    }
  }

  lemma ParseOneEncoded(e: RawElement, rest: Bytes)
    requires WellFormedElement(e)
    ensures ParseOne(Encode(e) + rest) == Some((e, rest))
  {
    var b := Encode(e) + rest;
    assert b[1..] == e.key + [0] + (e.value + rest);
    FindNulAfter(e.key, e.value + rest);
    assert b[|e.key| + 2..] == e.value + rest;
    assert b[1..|e.key| + 1] == e.key;
    ValueLengthOfPrefix(e.kind, e.value, rest);
    assert (e.value + rest)[..|e.value|] == e.value && (e.value + rest)[|e.value|..] == rest;
  }

  /** Reading back what was written. */
  lemma {:induction false} ParseEncoded(es: seq<RawElement>)
    requires forall e | e in es :: WellFormedElement(e)
    ensures Parse(EncodeAll(es)) == Some(es)
  {
    if es != [] {
      ParseEncoded(es[1..]);
      ParseOneEncoded(es[0], EncodeAll(es[1..]));
      assert [es[0]] + es[1..] == es;
    }
  }

  // ---------------------------------------------------------------------
  // The `_id` of a document
  // ---------------------------------------------------------------------

  const ID_KEY: Bytes := [0x5F, 0x69, 0x64]

  datatype BsonError = Malformed | TooLong

  /** `doc.get(key)`: reads elements up to the one that is asked for. */
  function Lookup(b: Bytes, key: Bytes): Result<Option<RawElement>, BsonError>
    decreases |b|
  {
    if b == [] then Ok(None)
    else
      var one := ParseOne(b);
      if one.None? then Err(Malformed)
      else if one.value.0.key == key then Ok(Some(one.value.0))
      else Lookup(one.value.1, key)
  }

  /** An object id is twelve bytes. */
  type ObjectId = b: Bytes | |b| == 12 witness [0, 0, 0, 0, 0, 0, 0, 0, 0, 0, 0, 0]

  function IdElement(id: ObjectId): RawElement { RawElement(0x07, ID_KEY, id) }

  /** The document `{ _id: id }`. */
  function IdDocument(id: ObjectId): Bytes { Le32(22) + Encode(IdElement(id)) + [0] }

  /** `get_or_prepend_id_field`: `doc'` is what the buffer holds afterwards. */
  method GetOrPrependId(doc: Bytes, newId: ObjectId) returns (r: Result<RawElement, BsonError>, doc': Bytes)
    requires IsRawDocument(doc)
    ensures IsRawDocument(doc')
    ensures var found := Lookup(Body(doc), ID_KEY);
            && (found.Err? ==> r == Err(found.error) && doc' == doc)
            && (found.Ok? && found.value.Some? ==> r == Ok(found.value.value) && doc' == doc)
            && (found.Ok? && found.value.None? && |doc| + 17 > MAX_INT32 ==> r == Err(TooLong) && doc' == doc)
            && (found.Ok? && found.value.None? && |doc| + 17 <= MAX_INT32 ==>
                  && r == Ok(IdElement(newId))
                  && |doc'| == |doc| + 17
                  && Body(doc') == Encode(IdElement(newId)) + Body(doc))
  {
    doc' := doc;
    var found := Lookup(Body(doc), ID_KEY);
    if found.Err? {
      return Err(found.error), doc;
    }
    if found.value.Some? {
      return Ok(found.value.value), doc;
    }
    var newBytes := IdDocument(newId);
    newBytes := newBytes[..|newBytes| - 1];
    newBytes := newBytes + doc[4..];
    if |newBytes| > MAX_INT32 {
      return Err(TooLong), doc;
    }
    newBytes := Le32(|newBytes|) + newBytes[4..];
    SplicedIsDocument(doc, newId, newBytes);
    return Ok(IdElement(newId)), newBytes;
  }

  lemma SplicedIsDocument(doc: Bytes, id: ObjectId, spliced: Bytes)
    requires IsRawDocument(doc) && |doc| + 17 <= MAX_INT32
    requires var front := IdDocument(id)[..|IdDocument(id)| - 1] + doc[4..]; spliced == Le32(|front|) + front[4..]
    ensures |spliced| == |doc| + 17 && IsRawDocument(spliced) && Body(spliced) == Encode(IdElement(id)) + Body(doc)
  {
    var e, body := Encode(IdElement(id)), Body(doc);
    assert doc[4..] == body + [0];
    assert IdDocument(id)[..|IdDocument(id)| - 1] == Le32(22) + e;
    assert (Le32(22) + e + (body + [0]))[4..] == e + body + [0];
    assert |e| == 17;
    FramedIsDocument(e + body);
  }

  /** A length, a list of elements and a null byte make a document. */
  lemma FramedIsDocument(body: Bytes)
    requires |body| + 5 <= MAX_INT32
    ensures var d := Le32(|body| + 5) + (body + [0]); IsRawDocument(d) && Body(d) == body
  {
    var d := Le32(|body| + 5) + (body + [0]);
    Le32RoundTrip(|body| + 5);
    assert d[..4] == Le32(|body| + 5);
    assert FromLe32(d) == FromLe32(Le32(|body| + 5));
    assert d[4..|body| + 4] == body;
  }

  /** The new document has the new `_id` and then all the elements it had before; asked again, it is left
      alone. */
  lemma PrependedId(before: Bytes, after: Bytes, id: ObjectId)
    requires IsRawDocument(before) && IsRawDocument(after) && Body(after) == Encode(IdElement(id)) + Body(before)
    ensures Elements(after) == if Elements(before).None? then None else Some([IdElement(id)] + Elements(before).value)
    ensures Lookup(Body(after), ID_KEY) == Ok(Some(IdElement(id)))
  {
    ParseOneEncoded(IdElement(id), Body(before));
  }

  /** In a well-formed document a key is found exactly when an element has it. */
  lemma {:induction false} LookupFindsTheFirst(b: Bytes, key: Bytes)
    requires Parse(b).Some?
    ensures Lookup(b, key).Ok?
    ensures Lookup(b, key).value.Some? <==> exists e | e in Parse(b).value :: e.key == key
    ensures Lookup(b, key).value.Some? ==>
              Lookup(b, key).value.value in Parse(b).value && Lookup(b, key).value.value.key == key
    decreases |b|
  {
    if b != [] {
      LookupFindsTheFirst(ParseOne(b).value.1, key);
      var first, more := ParseOne(b).value.0, Parse(ParseOne(b).value.1).value;
      assert Parse(b).value == [first] + more;
      assert forall e :: e in Parse(b).value <==> e == first || e in more;
    }
  }

  // ---------------------------------------------------------------------
  // Arrays
  // ---------------------------------------------------------------------

  /** The decimal digits of a number. */
  function Decimal(n: nat): (d: Bytes)
    ensures |d| > 0 && forall x | x in d :: 0x30 <= x <= 0x39
  {
    if n < 10 then [0x30 + n] else Decimal(n / 10) + [0x30 + n % 10]
  }

  function DecimalValue(d: Bytes): int {
    if d == [] then 0 else 10 * DecimalValue(d[..|d| - 1]) + d[|d| - 1] - 0x30
  }

  lemma {:induction false} DecimalRoundTrip(n: nat)
    ensures DecimalValue(Decimal(n)) == n
  {
    if n >= 10 {
      DecimalRoundTrip(n / 10);
      assert Decimal(n)[..|Decimal(n)| - 1] == Decimal(n / 10);
    } else {
      assert Decimal(n)[..0] == [];
    }
  }

  method NumDecimalDigits(index: nat) returns (digits: nat)
    ensures digits == |Decimal(index)|
  {
    var n := index;
    digits := 0;
    while true
      invariant digits + |Decimal(n)| == |Decimal(index)|
      decreases n
    {
      n := n / 10;
      digits := digits + 1;
      if n == 0 {
        return digits;
      }
    }
  }

  /** The entry of a document in an array. */
  function Entry(i: nat, doc: Bytes): RawElement { RawElement(0x03, Decimal(i), doc) }

  /** The entries of `docs` from index `i` on. */
  function Entries(docs: seq<Bytes>, i: nat): seq<RawElement> {
    if docs == [] then [] else [Entry(i, docs[0])] + Entries(docs[1..], i + 1)
  }

  function ArrayBytes(docs: seq<Bytes>): Bytes {
    var body := EncodeAll(Entries(docs, 0));
    Le32(|body| + 5) + body + [0]
  }

  /** `array_entry_size_bytes`: a type byte, the digits of the index, a null byte and the document. */
  function PredictedSize(index: nat, docLength: nat): nat { 2 + |Decimal(index)| + docLength }

  method ArrayEntrySize(index: nat, docLength: nat) returns (r: Option<nat>)
    ensures r == if PredictedSize(index, docLength) <= MAX_USIZE then Some(PredictedSize(index, docLength)) else None
  {
    var digits := NumDecimalDigits(index);
    var size := 1 + digits + 1 + docLength;
    return if size <= MAX_USIZE then Some(size) else None;
  }

  /** The predicted sizes of the entries of documents with these lengths, from index `i` on. */
  function PredictedSum(lengths: seq<nat>, i: nat): nat {
    if lengths == [] then 0 else PredictedSize(i, lengths[0]) + PredictedSum(lengths[1..], i + 1)
  }

  function Lengths(docs: seq<Bytes>): seq<nat> { seq(|docs|, i requires 0 <= i < |docs| => |docs[i]|) }

  /** The size of an entry depends on its index and the length of its document only, and is as predicted. */
  lemma EntryHasPredictedSize(index: nat, doc: Bytes)
    ensures |Encode(Entry(index, doc))| == PredictedSize(index, |doc|)
  {
  }

  /** The sum of the predicted sizes, and five, is the size of the array. */
  lemma SizesAddUp(docs: seq<Bytes>)
    ensures |ArrayBytes(docs)| == 5 + PredictedSum(Lengths(docs), 0)
  {
    EntriesAddUp(docs, 0);
  }

  lemma {:induction false} EntriesAddUp(docs: seq<Bytes>, i: nat)
    ensures |EncodeAll(Entries(docs, i))| == PredictedSum(Lengths(docs), i)
    decreases |docs|
  {
    if docs != [] {
      EntriesAddUp(docs[1..], i + 1);
      EntryHasPredictedSize(i, docs[0]);
      assert Entries(docs, i)[1..] == Entries(docs[1..], i + 1);
      assert Lengths(docs)[1..] == Lengths(docs[1..]);
    }
  }

  /** `vec_to_raw_array_buf`: the documents are appended one by one, each under its index. */
  method VecToRawArray(docs: seq<Bytes>) returns (bytes: Bytes)
    ensures bytes == ArrayBytes(docs)
  {
    bytes := Le32(5) + [0];
    assert bytes == ArrayBytes(docs[..0]);
    for i := 0 to |docs|
      invariant bytes == ArrayBytes(docs[..i])
    {
      var body := bytes[4..|bytes| - 1];
      assert body == EncodeAll(Entries(docs[..i], 0));
      body := body + Encode(Entry(i, docs[i]));
      EntriesSnoc(docs[..i], docs[i], 0);
      assert docs[..i + 1] == docs[..i] + [docs[i]];
      bytes := Le32(|body| + 5) + body + [0];
    }
    assert docs[..|docs|] == docs;
  }

  lemma {:induction false} EntriesSnoc(docs: seq<Bytes>, doc: Bytes, i: nat)
    ensures EncodeAll(Entries(docs + [doc], i)) == EncodeAll(Entries(docs, i)) + Encode(Entry(i + |docs|, doc))
    decreases |docs|
  {
    var all := docs + [doc];
    assert all[1..] == if docs == [] then [] else docs[1..] + [doc];
    assert Entries(all, i)[1..] == Entries(all[1..], i + 1);
    if docs == [] {
      assert EncodeAll(Entries([], i + 1)) == [];
    } else {
      EntriesSnoc(docs[1..], doc, i + 1);
      assert Entries(docs, i)[1..] == Entries(docs[1..], i + 1);
    }
  }

  /** The array is a document whose elements are the documents under their indexes. */
  lemma ArrayReadsBack(docs: seq<Bytes>)
    requires (forall d | d in docs :: IsRawDocument(d)) && |ArrayBytes(docs)| <= MAX_INT32
    ensures IsRawDocument(ArrayBytes(docs)) && Elements(ArrayBytes(docs)) == Some(Entries(docs, 0))
  {
    var body := EncodeAll(Entries(docs, 0));
    FramedIsDocument(body);
    assert ArrayBytes(docs) == Le32(|body| + 5) + (body + [0]);
    EntriesAreWellFormed(docs, 0);
    ParseEncoded(Entries(docs, 0));
  }

  lemma {:induction false} EntriesAreWellFormed(docs: seq<Bytes>, i: nat)
    requires forall d | d in docs :: IsRawDocument(d)
    ensures forall e | e in Entries(docs, i) :: WellFormedElement(e)
    decreases |docs|
  {
    if docs != [] {
      EntriesAreWellFormed(docs[1..], i + 1);
      assert docs[0] in docs;
      assert WellFormedElement(Entry(i, docs[0]));
      assert forall e :: e in Entries(docs, i) <==> e == Entry(i, docs[0]) || e in Entries(docs[1..], i + 1);
    }
  }
}
