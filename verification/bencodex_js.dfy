/** The JavaScript encoder of Bencodex (shared/bencodex/index.js): it writes the
    same bytes as the Rust one, of the text that TextEncoder makes of strings. */
module BencodexJs {
  import opened Wrappers
  import opened Bencodex
  import opened BencodexParse

  // ---------------------------------------------------------------------------
  // Strings
  // ---------------------------------------------------------------------------

  /** A string is any sequence of code units.  It is represented by the UTF-8 of
      its code points, where a surrogate that has no partner is a code point of
      its own and takes three bytes. */
  predicate JsString(s: Bytes) {
    if Surrogate(s) then !Pair(s) && JsString(s[3..])
    else s == [] || (var n := CodePoint(s); n > 0 && JsString(s[n..]))
  }

  predicate Surrogate(s: Bytes) { |s| >= 3 && s[0] == 0xed && 0xa0 <= s[1] <= 0xbf && Continuation(s[2]) }

  /** A leading surrogate and a trailing one are one code point, of four bytes. */
  predicate Pair(s: Bytes)
    requires Surrogate(s)
  {
    s[1] <= 0xaf && Surrogate(s[3..]) && s[4] >= 0xb0
  }

  /** U+FFFD in UTF-8. */
  function Replacement(): Bytes { [0xef, 0xbf, 0xbd] }

  /** TextEncoder.encode: unpaired surrogates are replaced. */
  function TextEncoded(s: Bytes): (r: Bytes)
    ensures |r| == |s|
  {
    if Surrogate(s) then Replacement() + TextEncoded(s[3..])
    else
      var n := CodePoint(s);
      if n == 0 then s else s[..n] + TextEncoded(s[n..])
  }

  /** What TextEncoder writes is UTF-8, and the string itself exactly when the
      string has no unpaired surrogate. */
  lemma {:induction false} TextEncodedIs(s: Bytes)
    requires JsString(s)
    ensures ValidUtf8(TextEncoded(s)) && (TextEncoded(s) == s <==> ValidUtf8(s))
  {
    var r := TextEncoded(s);
    if Surrogate(s) {
      TextEncodedIs(s[3..]);
      assert r[3..] == TextEncoded(s[3..]);
      assert r[0] != s[0];
    } else if s != [] {
      var n := CodePoint(s);
      TextEncodedIs(s[n..]);
      assert r[..n] == s[..n] && r[n..] == TextEncoded(s[n..]);
      SamePrefix(s, r);
    }
  }

  lemma SamePrefix(s: Bytes, t: Bytes)
    requires CodePoint(s) > 0 && CodePoint(s) <= |t| && t[..CodePoint(s)] == s[..CodePoint(s)]
    ensures CodePoint(t) == CodePoint(s)
  {
    var n := CodePoint(s);
    assert forall i :: 0 <= i < n ==> t[..n][i] == t[i] && s[..n][i] == s[i];
  }

  lemma {:induction false} TextIsString(s: Bytes)
    requires ValidUtf8(s)
    ensures JsString(s)
  {
    if s != [] {
      TextIsString(s[CodePoint(s)..]);
    }
  }

  function WireKey(key: Key): Key {
    match key
    case TextKey(s) => TextKey(TextEncoded(s))
    case BytesKey(_) => key
  }

  /** The value with its strings as TextEncoder writes them. */
  function Wire(value: Value): Value
    decreases value
  {
    match value
    case Text(s) => Text(TextEncoded(s))
    case List(items) => List(WireItems(items))
    case Dict(entries) => Dict(WireEntries(entries))
    case _ => value
  }

  function WireItems(items: seq<Value>): (r: seq<Value>)
    ensures |r| == |items|
    decreases items
  {
    if items == [] then [] else [Wire(items[0])] + WireItems(items[1..])
  }

  function WireEntry(e: Entry<Value>): Entry<Value>
    decreases e
  {
    Entry(WireKey(e.key), Wire(e.value))
  }

  function WireEntries(entries: seq<Entry<Value>>): (r: seq<Entry<Value>>)
    ensures |r| == |entries|
    decreases entries
  {
    if entries == [] then [] else [WireEntry(entries[0])] + WireEntries(entries[1..])
  }

  predicate WellFormedKey(key: Key) { key.TextKey? ==> ValidUtf8(key.utf8) }

  /** No string in the value has an unpaired surrogate. */
  ghost predicate WellFormed(value: Value)
    decreases value
  {
    match value
    case Text(s) => ValidUtf8(s)
    case List(items) => forall i :: 0 <= i < |items| ==> WellFormed(items[i])
    case Dict(entries) =>
      forall i :: 0 <= i < |entries| ==> WellFormedKey(entries[i].key) && WellFormed(entries[i].value)
    case _ => true
  }

  lemma {:induction false} WireAt(items: seq<Value>, entries: seq<Entry<Value>>)
    ensures forall i :: 0 <= i < |items| ==> WireItems(items)[i] == Wire(items[i])
    ensures forall i :: 0 <= i < |entries| ==>
              WireEntries(entries)[i] == Entry(WireKey(entries[i].key), Wire(entries[i].value))
    decreases |items| + |entries|
  {
    hide Wire, WireKey;
    if items != [] {
      WireAt(items[1..], entries);
    } else if entries != [] {
      WireAt([], entries[1..]);
    }
  }

  /** A value whose strings are all well formed is written as it is. */
  lemma {:induction false} WellFormedIsWire(value: Value)
    requires WellFormed(value)
    ensures Wire(value) == value
    decreases value
  {
    hide ValidUtf8, JsString, TextEncoded;
    match value {
      case Text(s) =>
        TextIsString(s);
        TextEncodedIs(s);
      case List(items) =>
        WireAt(items, []);
        forall i | 0 <= i < |items|
          ensures Wire(items[i]) == items[i]
        {
          WellFormedIsWire(items[i]);
        }
      case Dict(entries) =>
        WireAt([], entries);
        forall i | 0 <= i < |entries|
          ensures WireEntries(entries)[i] == entries[i]
        {
          WellFormedEntryIsWire(entries[i]);
        }
      case _ =>
    }
  }

  lemma {:induction false} WellFormedEntryIsWire(e: Entry<Value>)
    requires WellFormedKey(e.key) && WellFormed(e.value)
    ensures Entry(WireKey(e.key), Wire(e.value)) == e
    decreases e
  {
    hide ValidUtf8, JsString, TextEncoded, Wire, WellFormed;
    WellFormedIsWire(e.value);
    if e.key.TextKey? {
      TextIsString(e.key.utf8);
      TextEncodedIs(e.key.utf8);
    }
  }

  // ---------------------------------------------------------------------------
  // Encoding
  // ---------------------------------------------------------------------------

  /** Sign of the difference compareBytes returns: the first differing byte
      decides, then the lengths. */
  method CompareBytes(a: Bytes, b: Bytes) returns (difference: int)
    ensures difference < 0 <==> BytesLess(a, b)
    ensures difference == 0 <==> a == b
    ensures difference > 0 <==> BytesLess(b, a)
  {
    var len := if |a| < |b| then |a| else |b|;
    var i := 0;
    assert a[0..] == a && b[0..] == b;
    while i < len
      invariant 0 <= i <= len && a[..i] == b[..i]
      invariant BytesLess(a, b) == BytesLess(a[i..], b[i..])
      invariant BytesLess(b, a) == BytesLess(b[i..], a[i..])
    {
      assert a[i..][1..] == a[i + 1..] && b[i..][1..] == b[i + 1..];
      if a[i] != b[i] {
        return a[i] as int - b[i] as int;
      }
      i := i + 1;
    }
    BytesLessIsStrictTotal(a, b, a);
    assert |a| == |b| ==> a == a[..i] && b == b[..i];
    return |a| - |b|;
  }

  /** What an entry is sorted by, with its key already encoded. */
  datatype SortKey = SortKey(kind: nat, bytes: Bytes, encoded: Bytes)

  function KeySortValue(key: Key): SortKey { SortKeyOf(WireKey(key)) }

  function SortKeyOf(key: Key): SortKey {
    match key
    case TextKey(utf8) => SortKey(1, utf8, [TAG_TEXT] + EncodeBytes(utf8))
    case BytesKey(bytes) => SortKey(0, bytes, EncodeBytes(bytes))
  }

  predicate SortsBefore(a: SortKey, b: SortKey) {
    if a.kind != b.kind then a.kind < b.kind else BytesLess(a.bytes, b.bytes)
  }

  datatype JsEntry = JsEntry(sortKey: SortKey, value: Bytes)

  function JsInsert(x: JsEntry, s: seq<JsEntry>): seq<JsEntry> {
    if s == [] || !SortsBefore(s[0].sortKey, x.sortKey) then [x] + s else [s[0]] + JsInsert(x, s[1..])
  }

  /** Array.prototype.sort is stable. */
  function JsSort(s: seq<JsEntry>): seq<JsEntry> {
    if s == [] then [] else JsInsert(s[0], JsSort(s[1..]))
  }

  function JsEncode(value: Value): Bytes
    decreases value
  {
    match value
    case Null => [TAG_NULL]
    case Bool(b) => [if b then TAG_TRUE else TAG_FALSE]
    case Int(v) => [TAG_INT] + SignedDecimal(v) + [END]
    case Text(s) => [TAG_TEXT] + EncodeBytes(TextEncoded(s))
    case ByteString(bytes) => EncodeBytes(bytes)
    case List(items) => Concat([[TAG_LIST]] + JsEncodeItems(items) + [[END]])
    case Dict(entries) => Concat([[TAG_DICT]] + JsParts(JsSort(JsEncodeEntries(entries))) + [[END]])
  }

  function JsEncodeItems(items: seq<Value>): seq<Bytes>
    decreases items
  {
    if items == [] then [] else [JsEncode(items[0])] + JsEncodeItems(items[1..])
  }

  function JsEncodeEntry(e: Entry<Value>): JsEntry
    decreases e
  {
    JsEntry(KeySortValue(e.key), JsEncode(e.value))
  }

  function JsEncodeEntries(entries: seq<Entry<Value>>): seq<JsEntry>
    decreases entries
  {
    if entries == [] then [] else [JsEncodeEntry(entries[0])] + JsEncodeEntries(entries[1..])
  }

  function JsParts(entries: seq<JsEntry>): seq<Bytes> {
    if entries == [] then [] else [entries[0].sortKey.encoded, entries[0].value] + JsParts(entries[1..])
  }

  lemma Framed(tag: byte, parts: seq<Bytes>)
    ensures Concat([[tag]] + parts + [[END]]) == [tag] + Concat(parts) + [END]
  {
    ConcatOfAppend([[tag]] + parts, [[END]]);
    ConcatOfAppend([[tag]], parts);
    assert Concat([[tag]]) == [tag] by { assert [[tag]][1..] == []; }
    assert Concat([[END]]) == [END] by { assert [[END]][1..] == []; }
  }

  /** The two orders on keys are the same order. */
  lemma SameKeyOrder(a: Key, b: Key)
    ensures SortsBefore(SortKeyOf(a), SortKeyOf(b)) <==> KeyLess(a, b)
  {
  }

  function AsJs(entries: seq<Entry<Bytes>>): (r: seq<JsEntry>)
    ensures |r| == |entries|
  {
    seq(|entries|, i requires 0 <= i < |entries| => JsEntry(SortKeyOf(entries[i].key), entries[i].value))
  }

  lemma {:induction false} SameInsert(x: Entry<Bytes>, s: seq<Entry<Bytes>>)
    ensures JsInsert(JsEntry(SortKeyOf(x.key), x.value), AsJs(s)) == AsJs(Insert(x, s))
  {
    hide KeyLess, SortKeyOf, SortsBefore;
    if s != [] {
      SameKeyOrder(s[0].key, x.key);
      assert AsJs(s)[1..] == AsJs(s[1..]);
      SameInsert(x, s[1..]);
    }
  }

  lemma {:induction false} SameSort(s: seq<Entry<Bytes>>)
    ensures JsSort(AsJs(s)) == AsJs(Sort(s))
  {
    hide SortKeyOf, Insert;
    if s != [] {
      assert AsJs(s)[1..] == AsJs(s[1..]);
      SameSort(s[1..]);
      SameInsert(s[0], Sort(s[1..]));
    }
  }

  lemma {:induction false} SameParts(s: seq<Entry<Bytes>>)
    ensures Concat(JsParts(AsJs(s))) == WriteEntries(s)
  {
    if s != [] {
      assert AsJs(s)[1..] == AsJs(s[1..]);
      SameParts(s[1..]);
      ConcatOfAppend([SortKeyOf(s[0].key).encoded, s[0].value], JsParts(AsJs(s[1..])));
      var two := [SortKeyOf(s[0].key).encoded, s[0].value];
      assert Concat(two) == two[0] + two[1] by { assert two[1..][1..] == []; }
    }
  }

  lemma {:induction false} SameItems(items: seq<Value>)
    ensures Concat(JsEncodeItems(items)) == EncodeItems(WireItems(items))
    decreases items
  {
    hide JsEncode, Encode;
    if items != [] {
      EncodesWire(items[0]);
      SameItems(items[1..]);
      assert JsEncodeItems(items)[1..] == JsEncodeItems(items[1..]);
    }
  }

  lemma {:induction false} SameEntry(e: Entry<Value>)
    ensures JsEncodeEntry(e) == JsEntry(KeySortValue(e.key), EncodeEntry(WireEntry(e)).value)
    decreases e
  {
    hide JsEncode, Encode;
    EncodesWire(e.value);
  }

  lemma {:induction false} SameEntries(entries: seq<Entry<Value>>)
    ensures JsEncodeEntries(entries) == AsJs(EncodeEntries(WireEntries(entries)))
    decreases entries
  {
    hide JsEncode, Encode;
    if entries != [] {
      SameEntry(entries[0]);
      SameEntries(entries[1..]);
      var wire := WireEntries(entries);
      assert wire[1..] == WireEntries(entries[1..]);
      assert EncodeEntries(wire)[1..] == EncodeEntries(wire[1..]);
      assert AsJs(EncodeEntries(wire)) == [JsEncodeEntry(entries[0])] + AsJs(EncodeEntries(wire[1..]));
    }
  }

  /** Both encoders write the same bytes for every value, once unpaired
      surrogates, which Rust's strings cannot have, are replaced. */
  lemma SameEncoding(value: Value)
    ensures JsEncode(value) == Encode(Wire(value))
    ensures WellFormed(value) ==> JsEncode(value) == Encode(value)
  {
    hide JsEncode, Encode, Wire, WellFormed;
    EncodesWire(value);
    if WellFormed(value) {
      WellFormedIsWire(value);
    }
  }

  lemma {:induction false} EncodesWire(value: Value)
    ensures JsEncode(value) == Encode(Wire(value))
    decreases value
  {
    match value {
      case List(items) =>
        SameItems(items);
        Framed(TAG_LIST, JsEncodeItems(items));
      case Dict(entries) =>
        SameEntries(entries);
        SameSort(EncodeEntries(WireEntries(entries)));
        SameParts(Sort(EncodeEntries(WireEntries(entries))));
        Framed(TAG_DICT, JsParts(JsSort(JsEncodeEntries(entries))));
      case _ =>
    }
  }
}
