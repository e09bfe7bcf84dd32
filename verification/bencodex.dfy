/** Bencodex values and their canonical encoding (bencodex/src/ser.rs). */
module Bencodex {
  import opened Wrappers

  /** Text is represented by its UTF-8 bytes. */
  datatype Key = BytesKey(bytes: Bytes) | TextKey(utf8: Bytes)

  datatype Value =
    | Null
    | Bool(b: bool)
    | Int(v: int)
    | ByteString(bytes: Bytes)
    | Text(utf8: Bytes)
    | List(items: seq<Value>)
    | Dict(entries: seq<Entry<Value>>)

  datatype Entry<T> = Entry(key: Key, value: T)

  const I128_LIMIT: int := 0x8000_0000_0000_0000_0000_0000_0000_0000
  const USIZE_LIMIT: nat := 0x1_0000_0000_0000_0000

  /** No byte string in memory is as long as this: Rust allocates at most
      isize::MAX bytes. */
  const MEMORY_LIMIT: nat := 0x8000_0000_0000_0000

  const TAG_NULL: byte := 0x6e
  const TAG_TRUE: byte := 0x74
  const TAG_FALSE: byte := 0x66
  const TAG_INT: byte := 0x69
  const TAG_TEXT: byte := 0x75
  const TAG_LIST: byte := 0x6c
  const TAG_DICT: byte := 0x64
  const END: byte := 0x65
  const COLON: byte := 0x3a
  const MINUS: byte := 0x2d
  const PLUS: byte := 0x2b
  const ZERO: byte := 0x30

  predicate IsDigit(b: byte) { 0x30 <= b <= 0x39 }

  // ---------------------------------------------------------------------------
  // UTF-8
  // ---------------------------------------------------------------------------

  predicate Continuation(b: byte) { 0x80 <= b <= 0xbf }

  /** Number of bytes of the code point in front, as section 3.9 of the Unicode
      Standard tabulates them; none when there is no code point there. */
  function CodePoint(s: Bytes): (n: nat)
    ensures n <= |s| && n <= 4
  {
    if |s| >= 1 && s[0] <= 0x7f then 1
    else if |s| >= 2 && 0xc2 <= s[0] <= 0xdf && Continuation(s[1]) then 2
    else if
      && |s| >= 3 && 0xe0 <= s[0] <= 0xef && Continuation(s[1]) && Continuation(s[2])
      && (s[0] == 0xe0 ==> s[1] >= 0xa0) && (s[0] == 0xed ==> s[1] <= 0x9f)
    then 3
    else if
      && |s| >= 4 && 0xf0 <= s[0] <= 0xf4 && Continuation(s[1]) && Continuation(s[2]) && Continuation(s[3])
      && (s[0] == 0xf0 ==> s[1] >= 0x90) && (s[0] == 0xf4 ==> s[1] <= 0x8f)
    then 4
    else 0
  }

  predicate ValidUtf8(s: Bytes) {
    s == [] || (var n := CodePoint(s); n > 0 && ValidUtf8(s[n..]))
  }

  lemma {:induction false} AsciiIsUtf8(s: Bytes)
    requires forall i :: 0 <= i < |s| ==> s[i] <= 0x7f
    ensures ValidUtf8(s)
  {
    if s != [] {
      AsciiIsUtf8(s[1..]);
    }
  }

  // ---------------------------------------------------------------------------
  // Decimal numbers
  // ---------------------------------------------------------------------------

  function Digit(d: nat): byte
    requires d < 10
  {
    d as byte + 0x30
  }

  function Decimal(n: nat): (r: Bytes)
    ensures r != [] && forall i :: 0 <= i < |r| ==> IsDigit(r[i])
    ensures n > 0 ==> r[0] != ZERO
  {
    if n < 10 then [Digit(n)] else Decimal(n / 10) + [Digit(n % 10)]
  }

  function SignedDecimal(v: int): Bytes {
    if v < 0 then [MINUS] + Decimal(-v) else Decimal(v)
  }

  // ---------------------------------------------------------------------------
  // Dictionary keys
  // ---------------------------------------------------------------------------

  /** Byte keys come before text keys; within a kind the bytes decide. */
  predicate KeyLess(a: Key, b: Key) {
    match (a, b)
    case (BytesKey(x), BytesKey(y)) => BytesLess(x, y)
    case (TextKey(x), TextKey(y)) => BytesLess(x, y)
    case (BytesKey(_), TextKey(_)) => true
    case (TextKey(_), BytesKey(_)) => false
  }

  lemma {:induction false} BytesLessIsStrictTotal(a: Bytes, b: Bytes, c: Bytes)
    ensures !BytesLess(a, a)
    ensures a != b ==> (BytesLess(a, b) <==> !BytesLess(b, a))
    ensures BytesLess(a, b) && BytesLess(b, c) ==> BytesLess(a, c)
    decreases |a| + |b| + |c|
  {
    if a != [] && b != [] && c != [] {
      BytesLessIsStrictTotal(a[1..], b[1..], c[1..]);
      assert a[0] == b[0] && a[1..] == b[1..] ==> a == b by { assert a == [a[0]] + a[1..] && b == [b[0]] + b[1..]; }
    } else if a != [] && b != [] {
      BytesLessIsStrictTotal(a[1..], b[1..], []);
      assert a[0] == b[0] && a[1..] == b[1..] ==> a == b by { assert a == [a[0]] + a[1..] && b == [b[0]] + b[1..]; }
    } else if a != [] {
      BytesLessIsStrictTotal(a[1..], b, []);
    }
  }

  /** The key order is a strict total order. */
  lemma KeyLessIsStrictTotal(a: Key, b: Key, c: Key)
    ensures !KeyLess(a, a)
    ensures a != b ==> (KeyLess(a, b) <==> !KeyLess(b, a))
    ensures KeyLess(a, b) && KeyLess(b, c) ==> KeyLess(a, c)
  {
    var x := if a.BytesKey? then a.bytes else a.utf8;
    var y := if b.BytesKey? then b.bytes else b.utf8;
    var z := if c.BytesKey? then c.bytes else c.utf8;
    hide BytesLess;
    BytesLessIsStrictTotal(x, y, z);
  }

  /** One byte string comes before another when it ends first, or has the smaller
      byte where the two first differ. */
  predicate DiffersAt(a: Bytes, b: Bytes, k: nat) {
    k <= |a| && k < |b| && a[..k] == b[..k] && (k == |a| || a[k] < b[k])
  }

  ghost predicate ComesBefore(a: Bytes, b: Bytes) { exists k: nat :: DiffersAt(a, b, k) }

  lemma {:induction false} LessComesBefore(a: Bytes, b: Bytes)
    requires BytesLess(a, b)
    ensures ComesBefore(a, b)
    decreases |a|
  {
    if a == [] || a[0] < b[0] {
      assert DiffersAt(a, b, 0);
    } else {
      LessComesBefore(a[1..], b[1..]);
      var k: nat :| DiffersAt(a[1..], b[1..], k);
      assert a[..k + 1] == [a[0]] + a[1..][..k] && b[..k + 1] == [b[0]] + b[1..][..k];
      assert DiffersAt(a, b, k + 1);
    }
  }

  lemma {:induction false} BeforeIsLess(a: Bytes, b: Bytes, k: nat)
    requires DiffersAt(a, b, k)
    ensures BytesLess(a, b)
  {
    if k > 0 {
      assert a[..k][0] == b[..k][0];
      assert a[1..][..k - 1] == a[..k][1..] && b[1..][..k - 1] == b[..k][1..];
      BeforeIsLess(a[1..], b[1..], k - 1);
    }
  }

  /** Byte keys come before text keys, and within a kind the bytes decide. */
  lemma KeyLessIff(a: Key, b: Key)
    ensures KeyLess(a, b) <==>
              || (a.BytesKey? && b.TextKey?)
              || (a.BytesKey? && b.BytesKey? && ComesBefore(a.bytes, b.bytes))
              || (a.TextKey? && b.TextKey? && ComesBefore(a.utf8, b.utf8))
  {
    hide BytesLess, DiffersAt;
    var x := if a.BytesKey? then a.bytes else a.utf8;
    var y := if b.BytesKey? then b.bytes else b.utf8;
    if BytesLess(x, y) {
      LessComesBefore(x, y);
    }
    if ComesBefore(x, y) {
      var k: nat :| DiffersAt(x, y, k);
      BeforeIsLess(x, y, k);
    }
  }

  // --- Sorting entries by key -------------------------------------------------------

  function Insert<T>(x: Entry<T>, s: seq<Entry<T>>): seq<Entry<T>> {
    if s == [] || !KeyLess(s[0].key, x.key) then [x] + s else [s[0]] + Insert(x, s[1..])
  }

  /** Stable: entries with equal keys keep their order. */
  function Sort<T>(s: seq<Entry<T>>): seq<Entry<T>> {
    if s == [] then [] else Insert(s[0], Sort(s[1..]))
  }

  ghost predicate Ascending<T>(s: seq<Entry<T>>) {
    forall i, j :: 0 <= i < j < |s| ==> KeyLess(s[i].key, s[j].key)
  }

  ghost predicate DistinctKeys<T>(s: seq<Entry<T>>) {
    forall i, j :: 0 <= i < j < |s| ==> s[i].key != s[j].key
  }

  lemma {:induction false} InsertPermutes<T>(x: Entry<T>, s: seq<Entry<T>>)
    ensures multiset(Insert(x, s)) == multiset(s) + multiset{x}
    ensures |Insert(x, s)| == |s| + 1
  {
    hide KeyLess;
    if s == [] || !KeyLess(s[0].key, x.key) {
    } else {
      InsertPermutes(x, s[1..]);
      assert s == [s[0]] + s[1..];
    }
  }

  lemma {:induction false} SortPermutes<T>(s: seq<Entry<T>>)
    ensures multiset(Sort(s)) == multiset(s) && |Sort(s)| == |s|
  {
    if s != [] {
      SortPermutes(s[1..]);
      InsertPermutes(s[0], Sort(s[1..]));
      assert s == [s[0]] + s[1..];
    }
  }

  lemma {:induction false} InsertAscends<T>(x: Entry<T>, s: seq<Entry<T>>)
    requires Ascending(s) && forall i :: 0 <= i < |s| ==> s[i].key != x.key
    ensures Ascending(Insert(x, s))
  {
    hide KeyLess;
    if s == [] {
    } else if !KeyLess(s[0].key, x.key) {
      forall i | 0 <= i < |s|
        ensures KeyLess(x.key, s[i].key)
      {
        KeyLessIsStrictTotal(x.key, s[0].key, s[i].key);
      }
    } else {
      var rest := Insert(x, s[1..]);
      InsertAscends(x, s[1..]);
      InsertPermutes(x, s[1..]);
      forall j | 0 <= j < |rest|
        ensures KeyLess(s[0].key, rest[j].key)
      {
        assert rest[j] in multiset(rest);
        if rest[j] != x {
          assert rest[j] in s[1..];
        }
      }
    }
  }

  lemma {:induction false} SortAscends<T>(s: seq<Entry<T>>)
    requires DistinctKeys(s)
    ensures Ascending(Sort(s))
  {
    if s != [] {
      SortAscends(s[1..]);
      SortPermutes(s[1..]);
      var rest := Sort(s[1..]);
      forall i | 0 <= i < |rest|
        ensures rest[i].key != s[0].key
      {
        assert rest[i] in multiset(rest);
        var j :| 0 <= j < |s[1..]| && s[1..][j] == rest[i];
        assert s[j + 1] == rest[i];
      }
      InsertAscends(s[0], rest);
    }
  }

  /** Ascending sequences with the same entries are the same sequence. */
  lemma {:induction false} AscendingIsUnique<T>(a: seq<Entry<T>>, b: seq<Entry<T>>)
    requires Ascending(a) && Ascending(b) && multiset(a) == multiset(b)
    ensures a == b
  {
    assert |multiset(a)| == |a| && |multiset(b)| == |b|;
    if a != [] {
      assert a[0] in multiset(b);
      assert b[0] in multiset(a);
      FirstIsLeast(a, b);
      assert a == [a[0]] + a[1..] && b == [b[0]] + b[1..];
      assert multiset(a[1..]) == multiset(a) - multiset{a[0]};
      assert multiset(b[1..]) == multiset(b) - multiset{b[0]};
      AscendingIsUnique(a[1..], b[1..]);
    }
  }

  lemma FirstIsLeast<T>(a: seq<Entry<T>>, b: seq<Entry<T>>)
    requires Ascending(a) && Ascending(b) && a != [] && b != []
    requires a[0] in b && b[0] in a
    ensures a[0] == b[0]
  {
    hide KeyLess;
    var i :| 0 <= i < |b| && b[i] == a[0];
    var j :| 0 <= j < |a| && a[j] == b[0];
    KeyLessIsStrictTotal(a[0].key, b[0].key, a[0].key);
  }

  /** What is sorted does not depend on the order it came in. */
  lemma SortIsCanonical<T>(a: seq<Entry<T>>, b: seq<Entry<T>>)
    requires DistinctKeys(a) && DistinctKeys(b) && multiset(a) == multiset(b)
    ensures Sort(a) == Sort(b)
  {
    SortAscends(a);
    SortAscends(b);
    SortPermutes(a);
    SortPermutes(b);
    AscendingIsUnique(Sort(a), Sort(b));
  }

  function MapValues<T, U>(f: T -> U, s: seq<Entry<T>>): (r: seq<Entry<U>>)
    ensures |r| == |s| && forall i :: 0 <= i < |s| ==> r[i] == Entry(s[i].key, f(s[i].value))
  {
    seq(|s|, i requires 0 <= i < |s| => Entry(s[i].key, f(s[i].value)))
  }

  lemma {:induction false} InsertCommutes<T, U>(f: T -> U, x: Entry<T>, s: seq<Entry<T>>)
    ensures Insert(Entry(x.key, f(x.value)), MapValues(f, s)) == MapValues(f, Insert(x, s))
  {
    hide KeyLess;
    if s != [] && KeyLess(s[0].key, x.key) {
      InsertCommutes(f, x, s[1..]);
      assert MapValues(f, s)[1..] == MapValues(f, s[1..]);
    }
  }

  /** Sorting looks at keys only. */
  lemma {:induction false} SortCommutes<T, U>(f: T -> U, s: seq<Entry<T>>)
    ensures Sort(MapValues(f, s)) == MapValues(f, Sort(s))
  {
    if s != [] {
      assert MapValues(f, s)[1..] == MapValues(f, s[1..]);
      SortCommutes(f, s[1..]);
      InsertCommutes(f, s[0], Sort(s[1..]));
    }
  }

  // ---------------------------------------------------------------------------
  // Encoding
  // ---------------------------------------------------------------------------

  function EncodeInt(v: int): Bytes { [TAG_INT] + SignedDecimal(v) + [END] }

  function EncodeBytes(bytes: Bytes): Bytes { Decimal(|bytes|) + [COLON] + bytes }

  function EncodeText(utf8: Bytes): Bytes { [TAG_TEXT] + EncodeBytes(utf8) }

  function EncodeKey(key: Key): Bytes {
    match key
    case BytesKey(bytes) => EncodeBytes(bytes)
    case TextKey(utf8) => EncodeText(utf8)
  }

  function Encode(value: Value): Bytes
    decreases value
  {
    match value
    case Null => [TAG_NULL]
    case Bool(b) => [if b then TAG_TRUE else TAG_FALSE]
    case Int(v) => EncodeInt(v)
    case ByteString(bytes) => EncodeBytes(bytes)
    case Text(utf8) => EncodeText(utf8)
    case List(items) => [TAG_LIST] + EncodeItems(items) + [END]
    case Dict(entries) => [TAG_DICT] + WriteEntries(Sort(EncodeEntries(entries))) + [END]
  }

  function EncodeItems(items: seq<Value>): Bytes
    decreases items
  {
    if items == [] then [] else Encode(items[0]) + EncodeItems(items[1..])
  }

  /** Each value is encoded on its own, before the entries are sorted. */
  function EncodeEntries(entries: seq<Entry<Value>>): (r: seq<Entry<Bytes>>)
    ensures |r| == |entries|
    ensures forall i :: 0 <= i < |r| ==> r[i].key == entries[i].key
    decreases entries
  {
    if entries == [] then []
    else [EncodeEntry(entries[0])] + EncodeEntries(entries[1..])
  }

  function EncodeEntry(e: Entry<Value>): (r: Entry<Bytes>)
    ensures r.key == e.key
    decreases e
  {
    Entry(e.key, Encode(e.value))
  }

  function WriteEntries(entries: seq<Entry<Bytes>>): Bytes {
    if entries == [] then [] else EncodeKey(entries[0].key) + entries[0].value + WriteEntries(entries[1..])
  }

  // ---------------------------------------------------------------------------
  // Canonical values
  // ---------------------------------------------------------------------------

  predicate ValidKey(key: Key) {
    match key
    case BytesKey(bytes) => |bytes| < MEMORY_LIMIT
    case TextKey(utf8) => |utf8| < MEMORY_LIMIT && ValidUtf8(utf8)
  }

  /** A value the serializer can be given: integers of 128 bits, real text, and
      dictionaries with distinct keys. */
  ghost predicate Valid(value: Value)
    decreases value
  {
    match value
    case Int(v) => -I128_LIMIT <= v < I128_LIMIT
    case ByteString(bytes) => |bytes| < MEMORY_LIMIT
    case Text(utf8) => |utf8| < MEMORY_LIMIT && ValidUtf8(utf8)
    case List(items) => forall i :: 0 <= i < |items| ==> Valid(items[i])
    case Dict(entries) =>
      && DistinctKeys(entries)
      && forall i :: 0 <= i < |entries| ==> ValidKey(entries[i].key) && Valid(entries[i].value)
    case _ => true
  }

  /** The same value with every dictionary in key order. */
  function Canon(value: Value): Value
    decreases value
  {
    match value
    case List(items) => List(CanonItems(items))
    case Dict(entries) => Dict(Sort(CanonEntries(entries)))
    case _ => value
  }

  function CanonItems(items: seq<Value>): (r: seq<Value>)
    ensures |r| == |items|
    decreases items
  {
    if items == [] then [] else [Canon(items[0])] + CanonItems(items[1..])
  }

  function CanonEntries(entries: seq<Entry<Value>>): (r: seq<Entry<Value>>)
    ensures |r| == |entries|
    ensures forall i :: 0 <= i < |r| ==> r[i].key == entries[i].key
    decreases entries
  {
    if entries == [] then []
    else [CanonEntry(entries[0])] + CanonEntries(entries[1..])
  }

  function CanonEntry(e: Entry<Value>): (r: Entry<Value>)
    ensures r.key == e.key
    decreases e
  {
    Entry(e.key, Canon(e.value))
  }

  /** One way of encoding a dictionary: whatever order its entries were
      inserted in, the bytes are the same. */
  lemma DictionaryEncodingIsCanonical(a: seq<Entry<Value>>, b: seq<Entry<Value>>)
    requires DistinctKeys(a) && DistinctKeys(b) && multiset(a) == multiset(b)
    ensures Encode(Dict(a)) == Encode(Dict(b))
  {
    EntriesOfPermutation(a);
    EntriesOfPermutation(b);
    SortIsCanonical(a, b);
  }

  lemma EntriesOfPermutation(a: seq<Entry<Value>>)
    ensures Sort(EncodeEntries(a)) == MapValues(Encode, Sort(a))
  {
    EncodeEntriesMaps(a);
    SortCommutes(Encode, a);
  }

  lemma {:induction false} EncodeEntriesMaps(a: seq<Entry<Value>>)
    ensures EncodeEntries(a) == MapValues(Encode, a)
  {
    if a != [] {
      EncodeEntriesMaps(a[1..]);
      assert MapValues(Encode, a)[1..] == MapValues(Encode, a[1..]);
    }
  }

  // --- Examples -----------------------------------------------------------------------

  /** How values are written: n, t and f; i42e and i-3e; 4:spam and u4:spam. */
  lemma WrittenScalars()
    ensures Encode(Null) == [0x6e] && Encode(Bool(true)) == [0x74] && Encode(Bool(false)) == [0x66]
    ensures Encode(Int(42)) == [0x69, 0x34, 0x32, 0x65] && Encode(Int(-3)) == [0x69, 0x2d, 0x33, 0x65]
    ensures Encode(ByteString([0x73, 0x70, 0x61, 0x6d])) == [0x34, 0x3a, 0x73, 0x70, 0x61, 0x6d]
    ensures Encode(Text([0x73, 0x70, 0x61, 0x6d])) == [0x75, 0x34, 0x3a, 0x73, 0x70, 0x61, 0x6d]
  {
    assert Decimal(42) == Decimal(4) + [0x32] && Decimal(4) == [0x34] && Decimal(3) == [0x33];
  }

  /** A list of 1 and 2 is li1ei2ee. */
  lemma WrittenList()
    ensures Encode(List([Int(1), Int(2)])) == [0x6c, 0x69, 0x31, 0x65, 0x69, 0x32, 0x65, 0x65]
  {
    assert Encode(Int(1)) == [0x69, 0x31, 0x65] && Encode(Int(2)) == [0x69, 0x32, 0x65] by {
      assert Decimal(1) == [0x31] && Decimal(2) == [0x32];
    }
    assert [Int(1), Int(2)][1..] == [Int(2)] && [Int(2)][1..] == [];
    assert EncodeItems([Int(1), Int(2)]) == Encode(Int(1)) + EncodeItems([Int(2)]);
    assert EncodeItems([Int(2)]) == Encode(Int(2)) + EncodeItems([]);
    hide EncodeInt;
  }

  /** A dictionary has its byte keys first: of b"b" to true and "a" to 1 it is
      d1:btu1:ai1ee, in whichever order they were put in. */
  lemma WrittenDict()
    ensures
      var entries := [Entry(TextKey([0x61]), Int(1)), Entry(BytesKey([0x62]), Bool(true))];
      Encode(Dict(entries)) == [0x64, 0x31, 0x3a, 0x62, 0x74, 0x75, 0x31, 0x3a, 0x61, 0x69, 0x31, 0x65, 0x65]
  {
    var one, yes := Entry(TextKey([0x61]), Int(1)), Entry(BytesKey([0x62]), Bool(true));
    var text: Entry<Bytes> := Entry(TextKey([0x61]), [0x69, 0x31, 0x65]);
    var bytes: Entry<Bytes> := Entry(BytesKey([0x62]), [0x74]);
    assert Decimal(1) == [0x31];
    assert Encode(Int(1)) == [0x69, 0x31, 0x65] && Encode(Bool(true)) == [0x74];
    EntriesOfTwo(one, yes);
    assert EncodeKey(text.key) == [0x75, 0x31, 0x3a, 0x61] && EncodeKey(bytes.key) == [0x31, 0x3a, 0x62];
    SortOfTwo(text, bytes);
    WrittenPair(bytes, text);
    hide EncodeEntries, Sort, EncodeKey, WriteEntries, Decimal;
    assert WriteEntries([bytes, text]) == [0x31, 0x3a, 0x62, 0x74, 0x75, 0x31, 0x3a, 0x61, 0x69, 0x31, 0x65];
  }

  lemma EntriesOfTwo(a: Entry<Value>, b: Entry<Value>)
    ensures EncodeEntries([a, b]) == [Entry(a.key, Encode(a.value)), Entry(b.key, Encode(b.value))]
  {
    assert [a, b][1..] == [b] && [b][1..] == [];
    assert EncodeEntries([b]) == [EncodeEntry(b)];
  }

  lemma SortOfTwo<T>(a: Entry<T>, b: Entry<T>)
    requires KeyLess(b.key, a.key)
    ensures Sort([a, b]) == [b, a]
  {
    assert [a, b][1..] == [b] && [b][1..] == [];
    assert Sort([b]) == [b];
    assert Insert(a, [b]) == [b] + Insert(a, []);
  }

  lemma WrittenPair(a: Entry<Bytes>, b: Entry<Bytes>)
    ensures WriteEntries([a, b]) == EncodeKey(a.key) + a.value + EncodeKey(b.key) + b.value
  {
    assert [a, b][1..] == [b] && [b][1..] == [];
    hide EncodeKey;
    assert WriteEntries([b]) == EncodeKey(b.key) + b.value;
  }
}
