/** The Bencodex deserializer (bencodex/src/de.rs): a cursor that every parse step
    moves forward, proved against the parsers on values. */
module BencodexDe {
  import opened Wrappers
  import opened Bencodex
  import opened BencodexParse
  import opened BencodexSer

  function AddItems(items: seq<Value>, r: Result<(seq<Value>, Bytes), ParseError>): Result<(seq<Value>, Bytes), ParseError> {
    match r
    case Ok((more, rest)) => Ok((items + more, rest))
    case Err(e) => Err(e)
  }

  function AddEntries(entries: seq<Entry<Value>>, r: Result<(seq<Entry<Value>>, Bytes), ParseError>)
    : Result<(seq<Entry<Value>>, Bytes), ParseError>
  {
    match r
    case Ok((more, rest)) => Ok((entries + more, rest))
    case Err(e) => Err(e)
  }

  lemma ItemsAddUp(items: seq<Value>, item: Value, r: Result<(seq<Value>, Bytes), ParseError>)
    ensures AddItems([], r) == r
    ensures AddItems(items + [item], r) == AddItems(items, AddItems([item], r))
    ensures r.Ok? && r.value.0 == [] ==> AddItems(items, r) == Ok((items, r.value.1))
  {
    if r.Ok? {
      assert [] + r.value.0 == r.value.0;
      assert items + [item] + r.value.0 == items + ([item] + r.value.0);
      assert r.value.0 == [] ==> items + r.value.0 == items;
    }
  }

  lemma EntriesAddUp(entries: seq<Entry<Value>>, e: Entry<Value>, r: Result<(seq<Entry<Value>>, Bytes), ParseError>)
    ensures AddEntries([], r) == r
    ensures AddEntries(entries + [e], r) == AddEntries(entries, AddEntries([e], r))
    ensures r.Ok? && r.value.0 == [] ==> AddEntries(entries, r) == Ok((entries, r.value.1))
  {
    if r.Ok? {
      assert [] + r.value.0 == r.value.0;
      assert entries + [e] + r.value.0 == entries + ([e] + r.value.0);
      assert r.value.0 == [] ==> entries + r.value.0 == entries;
    }
  }

  class Deserializer {
    var input: Bytes

    constructor (slice: Bytes)
      ensures input == slice
    {
      input := slice;
    }

    method Peek() returns (r: Result<byte, ParseError>)
      ensures r == if input == [] then Err(Eof) else Ok(input[0])
    {
      return if input == [] then Err(Eof) else Ok(input[0]);
    }

    method Advance(n: nat)
      requires n <= |input|
      modifies this
      ensures input == old(input)[n..]
    {
      input := input[n..];
    }

    method ConsumeTerminator() returns (r: Result<(), ParseError>)
      modifies this
      ensures
        match ConsumeEnd(old(input))
        case Ok(rest) => r.Ok? && input == rest
        case Err(e) => r == Err(e)
    {
      var next := Peek();
      if next.Err? { return Err(next.error); }
      if next.value != END { return Err(MissingEnd); }
      Advance(1);
      return Ok(());
    }

    method ReadInt() returns (r: Result<int, ParseError>)
      modifies this
      ensures
        match ParseIntValue(old(input))
        case Ok((v, rest)) => r == Ok(v) && input == rest
        case Err(e) => r == Err(e)
    {
      hide ValidUtf8, ParseI128;
      var end := IndexOf(input, END);
      if end.None? { return Err(UnterminatedInteger); }
      var s := input[..end.value];
      if !ValidUtf8(s) { return Err(InvalidUtf8); }
      if StartsMinusZero(s) || (|s| > 1 && s[0] == ZERO) { return Err(InvalidInteger); }
      var v := ParseI128(s);
      if v.None? { return Err(InvalidInteger); }
      Advance(end.value + 1);
      return Ok(v.value);
    }

    method ReadByteString() returns (r: Result<Bytes, ParseError>)
      modifies this
      ensures
        match ParseByteString(old(input))
        case Ok((bytes, rest)) => r == Ok(bytes) && input == rest
        case Err(e) => r == Err(e)
    {
      hide ValidUtf8, ParseUnsigned;
      var colon := IndexOf(input, COLON);
      if colon.None? { return Err(MissingColon); }
      if !ValidUtf8(input[..colon.value]) { return Err(InvalidUtf8); }
      var len := ParseUnsigned(input[..colon.value], USIZE_LIMIT);
      if len.None? { return Err(BadLength); }
      var start := colon.value + 1;
      if start + len.value >= USIZE_LIMIT { return Err(LengthOverflow); }
      if |input| < start + len.value { return Err(Eof); }
      var data := input[start..start + len.value];
      Advance(start + len.value);
      return Ok(data);
    }

    method ReadUnicode() returns (r: Result<Bytes, ParseError>)
      modifies this
      ensures
        match ParseText(old(input))
        case Ok((utf8, rest)) => r == Ok(utf8) && input == rest
        case Err(e) => r == Err(e)
    {
      hide ParseByteString, ValidUtf8;
      var bytes := ReadByteString();
      if bytes.Err? { return bytes; }
      if !ValidUtf8(bytes.value) { return Err(InvalidUtf8); }
      return bytes;
    }

    method ReadKey() returns (r: Result<Key, ParseError>)
      modifies this
      ensures
        match ParseKey(old(input))
        case Ok((key, rest)) => r == Ok(key) && input == rest
        case Err(e) => r == Err(e)
    {
      hide ParseByteString, ParseText;
      var tag := Peek();
      if tag.Err? { return Err(tag.error); }
      if tag.value == TAG_TEXT {
        Advance(1);
        var text := ReadUnicode();
        return if text.Ok? then Ok(TextKey(text.value)) else Err(text.error);
      }
      if IsDigit(tag.value) {
        var bytes := ReadByteString();
        return if bytes.Ok? then Ok(BytesKey(bytes.value)) else Err(bytes.error);
      }
      return Err(InvalidKey);
    }

    method DeserializeAny() returns (r: Result<Value, ParseError>)
      modifies this
      ensures
        match ParseValue(old(input))
        case Ok((value, rest)) => r == Ok(value) && input == rest
        case Err(e) => r == Err(e)
      decreases |input|, 0
    {
      hide ParseIntValue, ParseByteString, ParseText, ConsumeEnd;
      var tag := Peek();
      if tag.Err? { return Err(tag.error); }
      if tag.value == TAG_NULL { Advance(1); return Ok(Null); }
      if tag.value == TAG_TRUE { Advance(1); return Ok(Bool(true)); }
      if tag.value == TAG_FALSE { Advance(1); return Ok(Bool(false)); }
      if tag.value == TAG_INT {
        Advance(1);
        var v := ReadInt();
        return if v.Ok? then Ok(Int(v.value)) else Err(v.error);
      }
      if tag.value == TAG_LIST {
        Advance(1);
        var items := VisitList();
        if items.Err? { return Err(items.error); }
        var end := ConsumeTerminator();
        return if end.Ok? then Ok(List(items.value)) else Err(end.error);
      }
      if tag.value == TAG_DICT {
        Advance(1);
        var entries := VisitDict();
        if entries.Err? { return Err(entries.error); }
        var end := ConsumeTerminator();
        return if end.Ok? then Ok(Dict(entries.value)) else Err(end.error);
      }
      if tag.value == TAG_TEXT {
        Advance(1);
        var text := ReadUnicode();
        return if text.Ok? then Ok(Text(text.value)) else Err(text.error);
      }
      if IsDigit(tag.value) {
        var bytes := ReadByteString();
        return if bytes.Ok? then Ok(ByteString(bytes.value)) else Err(bytes.error);
      }
      return Err(UnexpectedByte(tag.value));
    }

    /** Elements one after the other until the terminator is next. */
    method VisitList() returns (r: Result<seq<Value>, ParseError>)
      modifies this
      ensures
        match ParseItems(old(input))
        case Ok((items, rest)) => r == Ok(items) && input == rest
        case Err(e) => r == Err(e)
      decreases |input|, 1
    {
      hide ParseValue;
      var items: seq<Value> := [];
      ItemsAddUp([], Null, ParseItems(input));
      while true
        invariant |input| <= |old(input)|
        invariant ParseItems(old(input)) == AddItems(items, ParseItems(input))
        decreases |input|
      {
        var next := Peek();
        if next.Err? { return Err(next.error); }
        ItemsAddUp(items, Null, ParseItems(input));
        if next.value == END { return Ok(items); }
        var item := DeserializeAny();
        if item.Err? { return Err(item.error); }
        ItemsAddUp(items, item.value, ParseItems(input));
        items := items + [item.value];
      }
    }

    method VisitDict() returns (r: Result<seq<Entry<Value>>, ParseError>)
      modifies this
      ensures
        match ParseEntries(old(input))
        case Ok((entries, rest)) => r == Ok(entries) && input == rest
        case Err(e) => r == Err(e)
      decreases |input|, 1
    {
      hide ParseValue, ParseKey;
      var entries: seq<Entry<Value>> := [];
      EntriesAddUp([], Entry(TextKey([]), Null), ParseEntries(input));
      while true
        invariant |input| <= |old(input)|
        invariant ParseEntries(old(input)) == AddEntries(entries, ParseEntries(input))
        decreases |input|
      {
        var next := Peek();
        if next.Err? { return Err(next.error); }
        EntriesAddUp(entries, Entry(TextKey([]), Null), ParseEntries(input));
        if next.value == END { return Ok(entries); }
        var key := ReadKey();
        if key.Err? { return Err(key.error); }
        var value := DeserializeAny();
        if value.Err? { return Err(value.error); }
        EntriesAddUp(entries, Entry(key.value, value.value), ParseEntries(input));
        entries := entries + [Entry(key.value, value.value)];
      }
    }

    /** A target that is a sequence: a byte string gives its bytes one by one. */
    method DeserializeSeq() returns (r: Result<seq<Value>, ParseError>)
      modifies this
      ensures
        match ParseSeq(old(input))
        case Ok((values, rest)) => r == Ok(values) && input == rest
        case Err(e) => r == Err(e)
    {
      hide ParseItems, ParseByteString, ConsumeEnd;
      var tag := Peek();
      if tag.Err? { return Err(tag.error); }
      if tag.value == TAG_LIST {
        Advance(1);
        var items := VisitList();
        if items.Err? { return items; }
        var end := ConsumeTerminator();
        return if end.Ok? then items else Err(end.error);
      }
      if IsDigit(tag.value) {
        var bytes := ReadByteString();
        if bytes.Err? { return Err(bytes.error); }
        var values: seq<Value> := [];
        var pos := 0;
        while pos < |bytes.value|
          invariant 0 <= pos <= |bytes.value| && values == Numbers(bytes.value)[..pos]
          invariant ParseSeq(old(input)) == Ok((Numbers(bytes.value), input))
        {
          values := values + [Int(bytes.value[pos] as int)];
          pos := pos + 1;
        }
        assert values == Numbers(bytes.value);
        return Ok(values);
      }
      if tag.value == TAG_DICT { return Err(NotASequence); }
      var other := DeserializeAny();
      return Err(if other.Ok? then NotASequence else other.error);
    }
  }

  /** from_slice: one value and nothing after it. */
  method FromSliceAny(slice: Bytes) returns (r: Result<Value, ParseError>)
    ensures r == FromSlice(slice)
  {
    hide ParseValue;
    var de := new Deserializer(slice);
    r := de.DeserializeAny();
    if r.Ok? && de.input != [] {
      r := Err(TrailingBytes);
    }
  }
}
