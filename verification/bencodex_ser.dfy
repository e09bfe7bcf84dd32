/** The Bencodex serializer (bencodex/src/ser.rs): writers that append to one
    output buffer, the byte-aware sequence, and the dictionary collector. */
module BencodexSer {
  import opened Wrappers
  import opened Bencodex
  import opened BencodexParse

  // ---------------------------------------------------------------------------
  // Sequences
  // ---------------------------------------------------------------------------

  /** An element as the sequence serializer sees it: a `u8`, or anything else,
      with the bytes its own serialization writes. */
  datatype Element = U8(b: byte) | Other(encoded: Bytes)
  {
    function Encoded(): Bytes {
      match this
      case U8(b) => EncodeInt(b as int)
      case Other(encoded) => encoded
    }
  }

  function JoinedElements(es: seq<Element>): Bytes {
    if es == [] then [] else JoinedElements(es[..|es| - 1]) + es[|es| - 1].Encoded()
  }

  predicate AllBytes(es: seq<Element>) { forall i :: 0 <= i < |es| ==> es[i].U8? }

  function BytesOf(es: seq<Element>): (r: Bytes)
    requires AllBytes(es)
    ensures |r| == |es|
  {
    seq(|es|, i requires 0 <= i < |es| => es[i].b)
  }

  /** A sequence of bytes is a byte string, any other sequence is a list, and so
      is the empty one. */
  function EncodeSeq(es: seq<Element>): Bytes {
    if es == [] then [TAG_LIST, END]
    else if AllBytes(es) then EncodeBytes(BytesOf(es))
    else [TAG_LIST] + JoinedElements(es) + [END]
  }

  datatype SeqState = Empty | Collecting(bytes: Bytes) | Listing

  datatype SerError = ValueWithoutKey | NotADictKey

  /** A map key as its own serialization offers it; integers have up to 64 bits
      and are signed or of more than 8 of them. */
  datatype MapKey = StringKey(utf8: Bytes) | RawKey(bytes: Bytes) | U8Key(b: byte) | IntegerKey(v: int) | OtherKey

  /** The dictionary key that is made of it: a `u8` is a byte string of one
      byte, any other integer its decimal text. */
  function Captured(key: MapKey): Result<Key, SerError> {
    match key
    case StringKey(utf8) => Ok(TextKey(utf8))
    case RawKey(bytes) => Ok(BytesKey(bytes))
    case U8Key(b) => Ok(BytesKey([b]))
    case IntegerKey(v) => Ok(TextKey(SignedDecimal(v)))
    case OtherKey => Err(NotADictKey)
  }

  /** Integer keys of one kind stay apart from each other, and `u8` keys from
      every other integer key. */
  lemma IntegerKeysStayApart(a: MapKey, b: MapKey)
    requires (a.U8Key? || a.IntegerKey?) && (b.U8Key? || b.IntegerKey?) && a != b
    ensures Captured(a) != Captured(b)
  {
    if a.IntegerKey? && b.IntegerKey? {
      var m, n := if a.v < 0 then -a.v else a.v, if b.v < 0 then -b.v else b.v;
      DecimalRoundTrip(m);
      DecimalRoundTrip(n);
      DecimalStart(m);
      DecimalStart(n);
      var s, t := SignedDecimal(a.v), SignedDecimal(b.v);
      hide Decimal, DigitsValue;
      assert a.v < 0 ==> s[1..] == Decimal(m);
      assert b.v < 0 ==> t[1..] == Decimal(n);
    }
  }

  class BencodexSerializer {
    var out: Bytes

    constructor ()
      ensures out == []
    {
      out := [];
    }

    method WriteByteString(bytes: Bytes)
      modifies this
      ensures out == old(out) + EncodeBytes(bytes)
    {
      out := out + Decimal(|bytes|);
      out := out + [COLON];
      out := out + bytes;
    }

    method WriteUnicode(utf8: Bytes)
      modifies this
      ensures out == old(out) + EncodeText(utf8)
    {
      out := out + [TAG_TEXT];
      out := out + Decimal(|utf8|);
      out := out + [COLON];
      out := out + utf8;
    }

    method WriteInt(v: int)
      modifies this
      ensures out == old(out) + EncodeInt(v)
    {
      out := out + [TAG_INT];
      out := out + SignedDecimal(v);
      out := out + [END];
    }

    method WriteKey(key: Key)
      modifies this
      ensures out == old(out) + EncodeKey(key)
    {
      match key {
        case BytesKey(bytes) => WriteByteString(bytes);
        case TextKey(utf8) => WriteUnicode(utf8);
      }
    }

    /** What an element's own serialization does. */
    method Serialize(e: Element)
      modifies this
      ensures out == old(out) + e.Encoded()
    {
      match e {
        case U8(b) => WriteInt(b as int);
        case Other(encoded) => out := out + encoded;
      }
    }
  }

  /** Starts out collecting bytes and falls back to a list at the first element
      that is not a `u8`. */
  class ByteSeqSerializer {
    const ser: BencodexSerializer
    var state: SeqState
    ghost const before: Bytes
    ghost var elements: seq<Element>

    ghost predicate Valid()
      reads this, ser
    {
      match state
      case Empty => elements == [] && ser.out == before
      case Collecting(bytes) =>
        elements != [] && AllBytes(elements) && bytes == BytesOf(elements) && ser.out == before
      case Listing => !AllBytes(elements) && ser.out == before + [TAG_LIST] + JoinedElements(elements)
    }

    constructor (serializer: BencodexSerializer)
      ensures Valid() && ser == serializer && elements == [] && before == serializer.out
    {
      ser := serializer;
      state := Empty;
      before := serializer.out;
      elements := [];
    }

    /** Opens the list and writes the bytes collected so far as integers. */
    method SwitchToList()
      requires Valid() && !state.Listing?
      modifies this`state, ser
      ensures state.Listing? && ser.out == before + [TAG_LIST] + JoinedElements(elements)
    {
      hide EncodeInt, JoinedElements;
      var prior := if state.Collecting? then state.bytes else [];
      assert |prior| == |elements| && forall i :: 0 <= i < |prior| ==> elements[i] == U8(prior[i]);
      state := Listing;
      ser.out := ser.out + [TAG_LIST];
      var i := 0;
      assert JoinedElements(elements[..0]) == [] by { NothingJoined(elements[..0]); }
      while i < |prior|
        invariant 0 <= i <= |prior| && state.Listing?
        invariant ser.out == before + [TAG_LIST] + JoinedElements(elements[..i])
      {
        assert elements[..i + 1] == elements[..i] + [elements[i]];
        JoinedOfMore(elements[..i], elements[i]);
        ser.WriteInt(prior[i] as int);
        i := i + 1;
      }
      assert elements[..i] == elements;
    }

    method SerializeElement(e: Element)
      requires Valid()
      modifies this, ser
      ensures Valid() && elements == old(elements) + [e]
    {
      hide EncodeInt, BytesOf, JoinedElements;
      JoinedOfMore(elements, e);
      assert before + [TAG_LIST] + JoinedElements(elements + [e]) == before + [TAG_LIST] + JoinedElements(elements) + e.Encoded();
      if state.Listing? {
        NotAllBytes(elements, e);
        ser.Serialize(e);
      } else if e.U8? {
        BytesOfMore(elements, e);
        state := Collecting(if state.Collecting? then state.bytes + [e.b] else [e.b]);
      } else {
        SwitchToList();
        ser.Serialize(e);
        assert !(elements + [e])[|elements|].U8?;
      }
      elements := elements + [e];
    }

    /** No element is lost on the way, whatever the mix. */
    method End()
      requires Valid()
      modifies ser
      ensures ser.out == before + EncodeSeq(elements)
    {
      match state {
        case Empty => ser.out := ser.out + [TAG_LIST, END];
        case Collecting(bytes) => ser.WriteByteString(bytes);
        case Listing => ser.out := ser.out + [END];
      }
    }
  }

  lemma NothingJoined(es: seq<Element>)
    requires es == []
    ensures JoinedElements(es) == []
  {
  }

  lemma JoinedOfMore(es: seq<Element>, e: Element)
    ensures JoinedElements(es + [e]) == JoinedElements(es) + e.Encoded()
  {
    assert (es + [e])[..|es|] == es;
  }

  lemma BytesOfMore(es: seq<Element>, e: Element)
    requires (es == [] || AllBytes(es)) && e.U8?
    ensures AllBytes(es + [e]) && BytesOf(es + [e]) == BytesOf(es) + [e.b]
  {
  }

  lemma NotAllBytes(es: seq<Element>, e: Element)
    requires !AllBytes(es)
    ensures !AllBytes(es + [e])
  {
    var i :| 0 <= i < |es| && !es[i].U8?;
    assert (es + [e])[i] == es[i];
  }

  // --- Reading a sequence back --------------------------------------------------------

  /** A byte string presented as a sequence of numbers. */
  function Numbers(bytes: Bytes): (r: seq<Value>)
    ensures |r| == |bytes|
  {
    seq(|bytes|, i requires 0 <= i < |bytes| => Int(bytes[i] as int))
  }

  /** What a target that is a sequence and nothing else reads: list elements, or
      the bytes of a byte string one by one.  It refuses any other value, a
      dictionary before reading on in it. */
  function ParseSeq(input: Bytes): Result<(seq<Value>, Bytes), ParseError> {
    if input == [] then Err(Eof)
    else if input[0] == TAG_LIST then
      (match ParseItems(input[1..])
       case Err(e) => Err(e)
       case Ok((items, after)) =>
         match ConsumeEnd(after)
         case Err(e) => Err(e)
         case Ok(end) => Ok((items, end)))
    else if IsDigit(input[0]) then
      (match ParseByteString(input)
       case Err(e) => Err(e)
       case Ok((bytes, after)) => Ok((Numbers(bytes), after)))
    else if input[0] == TAG_DICT then Err(NotASequence)
    else
      match ParseValue(input)
      case Err(e) => Err(e)
      case Ok(_) => Err(NotASequence)
  }

  ghost predicate ElementReads(e: Element, value: Value) {
    match e
    case U8(b) => value == Int(b as int)
    case Other(encoded) => Parses(encoded, value)
  }

  lemma {:induction false} JoinedIs(es: seq<Element>)
    ensures JoinedElements(es) == Concat(Parts(es))
    decreases |es|
  {
    if es != [] {
      var last := |es| - 1;
      JoinedIs(es[..last]);
      assert Parts(es) == Parts(es[..last]) + [es[last].Encoded()];
      ConcatOfAppend(Parts(es[..last]), [es[last].Encoded()]);
      assert Concat([es[last].Encoded()]) == es[last].Encoded();
    }
  }

  function Parts(es: seq<Element>): (r: seq<Bytes>)
    ensures |r| == |es|
  {
    seq(|es|, i requires 0 <= i < |es| => es[i].Encoded())
  }

  lemma U8Parses(b: byte)
    ensures Parses(EncodeInt(b as int), Int(b as int))
  {
    ScalarParses(Int(b as int));
  }

  lemma BytesRoundTrip(es: seq<Element>, values: seq<Value>, suffix: Bytes)
    requires |es| == |values| && forall i :: 0 <= i < |es| ==> ElementReads(es[i], values[i])
    requires |es| < MEMORY_LIMIT && es != [] && AllBytes(es)
    ensures ParseSeq(EncodeSeq(es) + suffix) == Ok((values, suffix))
  {
    hide Parses, ParseItems, ParseByteString, Decimal;
    ByteStringRoundTrip(BytesOf(es), suffix);
    forall i | 0 <= i < |es|
      ensures Numbers(BytesOf(es))[i] == values[i]
    {
      assert ElementReads(es[i], values[i]);
    }
    assert Numbers(BytesOf(es)) == values;
  }

  /** Whatever mix of bytes and other elements a sequence has, it reads back
      element by element and leaves what follows it. */
  lemma SequenceRoundTrip(es: seq<Element>, values: seq<Value>, suffix: Bytes)
    requires |es| == |values| && forall i :: 0 <= i < |es| ==> ElementReads(es[i], values[i])
    requires |es| < MEMORY_LIMIT
    ensures ParseSeq(EncodeSeq(es) + suffix) == Ok((values, suffix))
  {
    hide ParseValue, ParseByteString, Decimal, Encode, ParseItems;
    if es != [] && AllBytes(es) {
      hide Parses;
      BytesRoundTrip(es, values, suffix);
    } else {
      forall i | 0 <= i < |es|
        ensures Parses(Parts(es)[i], values[i])
      {
        if es[i].U8? {
          U8Parses(es[i].b);
        }
      }
      JoinedIs(es);
      ItemsParse(Parts(es), values, suffix);
      var encoded := [TAG_LIST] + Concat(Parts(es)) + [END];
      assert EncodeSeq(es) == encoded;
      assert (encoded + suffix)[1..] == Concat(Parts(es)) + [END] + suffix;
      assert ([END] + suffix)[1..] == suffix;
    }
  }

  // ---------------------------------------------------------------------------
  // Dictionaries
  // ---------------------------------------------------------------------------

  class DictCollector {
    const ser: BencodexSerializer
    var entries: seq<Entry<Bytes>>
    var currentKey: Option<Key>

    constructor (serializer: BencodexSerializer)
      ensures ser == serializer && entries == [] && currentKey == None
    {
      ser := serializer;
      entries := [];
      currentKey := None;
    }

    method SerializeKey(key: MapKey) returns (r: Result<(), SerError>)
      modifies this`currentKey
      ensures
        match Captured(key)
        case Ok(k) => r == Ok(()) && currentKey == Some(k)
        case Err(e) => r == Err(e) && currentKey == old(currentKey)
    {
      var captured := Captured(key);
      if captured.Err? { return Err(captured.error); }
      currentKey := Some(captured.value);
      return Ok(());
    }

    /** The value is serialized into a buffer of its own; `encoded` is that buffer. */
    method SerializeValue(encoded: Bytes) returns (r: Result<(), SerError>)
      modifies this`entries, this`currentKey
      ensures currentKey == None
      ensures
        match old(currentKey)
        case None => r == Err(ValueWithoutKey) && entries == old(entries)
        case Some(key) => r == Ok(()) && entries == old(entries) + [Entry(key, encoded)]
    {
      if currentKey.None? {
        return Err(ValueWithoutKey);
      }
      entries := entries + [Entry(currentKey.value, encoded)];
      currentKey := None;
      return Ok(());
    }

    method Flush()
      modifies this`entries, ser
      ensures ser.out == old(ser.out) + [TAG_DICT] + WriteEntries(Sort(old(entries))) + [END]
    {
      hide Sort, EncodeKey;
      entries := Sort(entries);
      ser.out := ser.out + [TAG_DICT];
      ghost var start := ser.out;
      var i := 0;
      while i < |entries|
        invariant 0 <= i <= |entries| && entries == Sort(old(entries))
        invariant start + WriteEntries(entries) == ser.out + WriteEntries(entries[i..])
      {
        assert entries[i..][1..] == entries[i + 1..];
        ser.WriteKey(entries[i].key);
        ser.out := ser.out + entries[i].value;
        i := i + 1;
      }
      ser.out := ser.out + [END];
    }
  }

  function Offered(key: Key): (r: MapKey)
    ensures Captured(r) == Ok(key)
  {
    match key
    case TextKey(utf8) => StringKey(utf8)
    case BytesKey(bytes) => RawKey(bytes)
  }

  /** A collector fed a dictionary's entries in any order writes its canonical
      encoding. */
  method SerializeDict(ser: BencodexSerializer, entries: seq<Entry<Value>>)
    modifies ser
    ensures ser.out == old(ser.out) + Encode(Dict(entries))
  {
    hide Encode, Sort, WriteEntries, EncodeEntry;
    var collector := new DictCollector(ser);
    var i := 0;
    while i < |entries|
      invariant 0 <= i <= |entries| && collector.ser == ser && ser.out == old(ser.out)
      invariant fresh(collector) && collector.entries == EncodeEntries(entries)[..i]
      invariant collector.currentKey == None
    {
      var held := collector.SerializeKey(Offered(entries[i].key));
      EntryAt(entries, i);
      var stored := collector.SerializeValue(Encode(entries[i].value));
      i := i + 1;
    }
    EncodedDict(entries);
    assert collector.entries == EncodeEntries(entries);
    collector.Flush();
    assert ser.out == old(ser.out) + ([TAG_DICT] + WriteEntries(Sort(EncodeEntries(entries))) + [END]);
  }

  lemma {:induction false} EntryAt(entries: seq<Entry<Value>>, i: nat)
    requires i < |entries|
    ensures EncodeEntries(entries)[i] == Entry(entries[i].key, Encode(entries[i].value))
  {
    if i > 0 {
      EntryAt(entries[1..], i - 1);
    }
  }
}
