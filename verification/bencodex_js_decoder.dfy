/** The JavaScript decoder of Bencodex (shared/bencodex/index.js): an offset moved
    over the input, proved against readers on values, and what it reads back from
    an encoding. */
module BencodexJsDecoder {
  import opened Wrappers
  import opened Bencodex
  import opened BencodexParse
  import opened BencodexJs

  datatype JsError =
    | UnexpectedEnd
    | MissingDelimiter
    | InvalidLength
    | MissingColonAfterLength
    | UnexpectedEndOfBytes
    | InvalidIntegerEncoding
    | UnparsableInteger
    | KeyIsNotBytesOrText
    | UnexpectedTag(tag: byte)
    | TrailingBytesAfterValue

  /** What the language supplies: TextDecoder.decode, with strings as their UTF-8
      bytes, and BigInt, which refuses some strings. */
  datatype Platform = Platform(decodeText: Bytes -> Bytes, bigInt: Bytes -> Option<int>)

  /** U+FEFF in UTF-8. */
  function ByteOrderMark(): Bytes { [0xef, 0xbb, 0xbf] }

  predicate Marked(utf8: Bytes) { ByteOrderMark() <= utf8 }

  function Unmarked(utf8: Bytes): Bytes { if Marked(utf8) then utf8[3..] else utf8 }

  /** A TextDecoder made without options drops one leading byte order mark, as
      the UTF-8 decode algorithm of the Encoding Standard says, and BigInt reads
      what toString writes. */
  ghost predicate Standard(js: Platform) {
    && (forall utf8: Bytes :: ValidUtf8(utf8) ==> js.decodeText(utf8) == Unmarked(utf8))
    && forall v: int :: js.bigInt(SignedDecimal(v)) == Some(v)
  }

  /** One more than the greatest safe integer. */
  const SAFE_LIMIT: nat := 0x20_0000_0000_0000

  // ---------------------------------------------------------------------------
  // Readers on values
  // ---------------------------------------------------------------------------

  /** How many digits the input starts with. */
  function DigitCount(s: Bytes): (n: nat)
    ensures n <= |s| && AllDigits(s[..n]) && (n < |s| ==> !IsDigit(s[n]))
  {
    if s == [] || !IsDigit(s[0]) then 0
    else
      assert s[..1 + DigitCount(s[1..])] == [s[0]] + s[1..][..DigitCount(s[1..])];
      1 + DigitCount(s[1..])
  }

  /** An empty length reads as zero. */
  function ScanLength(s: Bytes): (r: Result<(nat, Bytes), JsError>)
    ensures r.Ok? ==> |r.value.1| < |s|
  {
    var n := DigitCount(s);
    if n == |s| then Err(MissingColonAfterLength)
    else if s[n] != COLON || (n > 1 && s[0] == ZERO) then Err(InvalidLength)
    else if DigitsValue(s[..n]) >= SAFE_LIMIT then Err(InvalidLength)
    else Ok((DigitsValue(s[..n]), s[n + 1..]))
  }

  function ScanBytes(s: Bytes): (r: Result<(Bytes, Bytes), JsError>)
    ensures r.Ok? ==> |r.value.1| < |s|
  {
    match ScanLength(s)
    case Err(e) => Err(e)
    case Ok((len, rest)) => if |rest| < len then Err(UnexpectedEndOfBytes) else Ok((rest[..len], rest[len..]))
  }

  function ScanInteger(js: Platform, s: Bytes): (r: Result<(int, Bytes), JsError>)
    ensures r.Ok? ==> |r.value.1| < |s|
  {
    match IndexOf(s, END)
    case None => Err(MissingDelimiter)
    case Some(end) =>
      var raw := js.decodeText(s[..end]);
      if raw == [] || raw == [MINUS] || StartsMinusZero(raw) || (|raw| > 1 && raw[0] == ZERO) then
        Err(InvalidIntegerEncoding)
      else
        match js.bigInt(raw)
        case None => Err(UnparsableInteger)
        case Some(v) => Ok((v, s[end + 1..]))
  }

  function ScanKey(js: Platform, s: Bytes): (r: Result<(Key, Bytes), JsError>)
    ensures r.Ok? ==> |r.value.1| < |s|
  {
    if s == [] then Err(UnexpectedEnd)
    else if s[0] == TAG_TEXT then
      (match ScanBytes(s[1..])
       case Err(e) => Err(e)
       case Ok((utf8, rest)) => Ok((TextKey(js.decodeText(utf8)), rest)))
    else if IsDigit(s[0]) then
      (match ScanBytes(s)
       case Err(e) => Err(e)
       case Ok((bytes, rest)) => Ok((BytesKey(bytes), rest)))
    else Err(KeyIsNotBytesOrText)
  }

  /** Map.set: a string key already there keeps its place and gets the new value;
      a byte array is a key of its own, whatever it holds. */
  function MapSet(entries: seq<Entry<Value>>, e: Entry<Value>): (r: seq<Entry<Value>>) {
    if entries == [] || e.key.BytesKey? then entries + [e]
    else if entries[0].key == e.key then [e] + entries[1..]
    else [entries[0]] + MapSet(entries[1..], e)
  }

  function ScanValue(js: Platform, s: Bytes): (r: Result<(Value, Bytes), JsError>)
    ensures r.Ok? ==> |r.value.1| < |s|
    decreases |s|, 0
  {
    if s == [] then Err(UnexpectedEnd)
    else
      var tag, rest := s[0], s[1..];
      if tag == TAG_NULL then Ok((Null, rest))
      else if tag == TAG_TRUE then Ok((Bool(true), rest))
      else if tag == TAG_FALSE then Ok((Bool(false), rest))
      else if tag == TAG_INT then
        (match ScanInteger(js, rest)
         case Err(e) => Err(e)
         case Ok((v, after)) => Ok((Int(v), after)))
      else if tag == TAG_TEXT then
        (match ScanBytes(rest)
         case Err(e) => Err(e)
         case Ok((utf8, after)) => Ok((Text(js.decodeText(utf8)), after)))
      else if IsDigit(tag) then
        (match ScanBytes(s)
         case Err(e) => Err(e)
         case Ok((bytes, after)) => Ok((ByteString(bytes), after)))
      else if tag == TAG_LIST then
        (match ScanItems(js, rest, [])
         case Err(e) => Err(e)
         case Ok((items, after)) => Ok((List(items), after)))
      else if tag == TAG_DICT then
        (match ScanEntries(js, rest, [])
         case Err(e) => Err(e)
         case Ok((entries, after)) => Ok((Dict(entries), after)))
      else Err(UnexpectedTag(tag))
  }

  /** Adds elements to those already read, up to the terminator and past it. */
  function ScanItems(js: Platform, s: Bytes, items: seq<Value>): (r: Result<(seq<Value>, Bytes), JsError>)
    ensures r.Ok? ==> |r.value.1| < |s|
    decreases |s|, 1
  {
    if s == [] then Err(UnexpectedEnd)
    else if s[0] == END then Ok((items, s[1..]))
    else
      match ScanValue(js, s)
      case Err(e) => Err(e)
      case Ok((item, rest)) => ScanItems(js, rest, items + [item])
  }

  function ScanEntries(js: Platform, s: Bytes, entries: seq<Entry<Value>>)
    : (r: Result<(seq<Entry<Value>>, Bytes), JsError>)
    ensures r.Ok? ==> |r.value.1| < |s|
    decreases |s|, 1
  {
    if s == [] then Err(UnexpectedEnd)
    else if s[0] == END then Ok((entries, s[1..]))
    else
      match ScanKey(js, s)
      case Err(e) => Err(e)
      case Ok((key, afterKey)) =>
        match ScanValue(js, afterKey)
        case Err(e) => Err(e)
        case Ok((value, rest)) => ScanEntries(js, rest, MapSet(entries, Entry(key, value)))
  }

  function Decoded(js: Platform, s: Bytes): Result<Value, JsError> {
    match ScanValue(js, s)
    case Err(e) => Err(e)
    case Ok((value, rest)) => if rest == [] then Ok(value) else Err(TrailingBytesAfterValue)
  }

  // ---------------------------------------------------------------------------
  // The decoder
  // ---------------------------------------------------------------------------

  lemma {:induction false} DigitsSoFar(s: Bytes, k: nat)
    requires k <= |s| && AllDigits(s[..k])
    ensures DigitCount(s) == k + DigitCount(s[k..])
    decreases k
  {
    if k == 0 {
      assert s[0..] == s;
    } else {
      assert IsDigit(s[..k][0]);
      assert s[1..][k - 1..] == s[k..];
      assert forall i :: 0 <= i < k - 1 ==> s[1..][i] == s[..k][i + 1];
      DigitsSoFar(s[1..], k - 1);
    }
  }

  lemma FoundAt(s: Bytes, b: byte, start: nat, end: nat)
    requires start <= end <= |s| && forall k :: start <= k < end ==> s[k] != b
    ensures end == |s| ==> IndexOf(s[start..], b) == None
    ensures end < |s| && s[end] == b ==>
              && IndexOf(s[start..], b) == Some(end - start)
              && s[start..][..end - start] == s[start..end] && s[start..][end - start + 1..] == s[end + 1..]
  {
    var rest := s[start..];
    var at := IndexOf(rest, b);
    if at.Some? {
      assert rest[at.value] == s[start + at.value];
      assert end < |s| && at.value > end - start ==> rest[end - start] in rest[..at.value];
    } else if end < |s| {
      assert rest[end - start] == s[end];
    }
  }

  lemma FirstDigit(s: Bytes)
    ensures s == [] || !IsDigit(s[0]) ==> DigitCount(s) == 0
    ensures s != [] && IsDigit(s[0]) ==> DigitCount(s) == 1 + DigitCount(s[1..])
  {
  }

  class Decoder {
    const input: Bytes
    var offset: nat

    ghost predicate Valid()
      reads this
    {
      offset <= |input|
    }

    ghost function Rest(): Bytes
      requires Valid()
      reads this
    {
      input[offset..]
    }

    constructor (bytes: Bytes)
      ensures Valid() && input == bytes && Rest() == bytes
    {
      input, offset := bytes, 0;
    }

    method Peek() returns (r: Result<byte, JsError>)
      requires Valid()
      ensures r == if Rest() == [] then Err(UnexpectedEnd) else Ok(Rest()[0])
    {
      return if offset >= |input| then Err(UnexpectedEnd) else Ok(input[offset]);
    }

    method Take() returns (r: Result<byte, JsError>)
      requires Valid()
      modifies this
      ensures Valid()
      ensures if old(Rest()) == [] then r == Err(UnexpectedEnd) && Rest() == []
              else r == Ok(old(Rest())[0]) && Rest() == old(Rest())[1..] && offset == old(offset) + 1
    {
      r := Peek();
      if r.Ok? {
        offset := offset + 1;
      }
    }

    method ReadUntil(b: byte) returns (r: Result<Bytes, JsError>)
      requires Valid()
      modifies this
      ensures Valid()
      ensures
        match IndexOf(old(Rest()), b)
        case None => r == Err(MissingDelimiter)
        case Some(end) => r == Ok(old(Rest())[..end]) && Rest() == old(Rest())[end + 1..]
    {
      var start := offset;
      while offset < |input| && input[offset] != b
        invariant start <= offset <= |input|
        invariant forall k :: start <= k < offset ==> input[k] != b
      {
        offset := offset + 1;
      }
      FoundAt(input, b, start, offset);
      if offset >= |input| { return Err(MissingDelimiter); }
      r := Ok(input[start..offset]);
      offset := offset + 1;
    }

    /** Moves to the first byte that is no digit. */
    method SkipDigits(start: nat)
      requires Valid() && start <= offset && AllDigits(input[start..][..offset - start])
      modifies this
      ensures Valid() && offset == start + DigitCount(input[start..])
    {
      hide AllDigits, DigitCount;
      DigitsSoFar(input[start..], offset - start);
      assert input[start..][offset - start..] == input[offset..];
      FirstDigit(input[offset..]);
      while offset < |input| && IsDigit(input[offset])
        invariant start <= offset <= |input|
        invariant DigitCount(input[start..]) == offset - start + DigitCount(input[offset..])
        invariant offset == |input| || !IsDigit(input[offset]) ==> DigitCount(input[offset..]) == 0
        invariant offset < |input| && IsDigit(input[offset]) ==>
                    DigitCount(input[offset..]) == 1 + DigitCount(input[offset..][1..])
      {
        assert input[offset..][1..] == input[offset + 1..];
        offset := offset + 1;
        FirstDigit(input[offset..]);
      }
    }

    /** The first digit of the length may have been taken as the tag. */
    method ReadLength(prefixAlreadyRead: bool) returns (r: Result<nat, JsError>)
      requires Valid() && (prefixAlreadyRead ==> offset > 0 && IsDigit(input[offset - 1]))
      modifies this
      ensures Valid()
      ensures
        match ScanLength(input[if prefixAlreadyRead then old(offset) - 1 else old(offset)..])
        case Ok((len, rest)) => r == Ok(len) && Rest() == rest
        case Err(e) => r == Err(e)
    {
      hide DigitCount, DigitsValue, AllDigits;
      var start := if prefixAlreadyRead then offset - 1 else offset;
      ghost var s := input[start..];
      assert AllDigits(input[start..][..offset - start]) by { DigitsBefore(prefixAlreadyRead); }
      SkipDigits(start);
      if offset >= |input| { return Err(MissingColonAfterLength); }
      assert input[offset] == s[offset - start];
      if input[offset] != COLON { return Err(InvalidLength); }
      var raw := input[start..offset];
      assert raw == s[..offset - start] && s[offset - start + 1..] == input[offset + 1..];
      if |raw| > 1 && raw[0] == ZERO { return Err(InvalidLength); }
      offset := offset + 1;
      return if DigitsValue(raw) >= SAFE_LIMIT then Err(InvalidLength) else Ok(DigitsValue(raw));
    }

    lemma DigitsBefore(prefixAlreadyRead: bool)
      requires Valid() && (prefixAlreadyRead ==> offset > 0 && IsDigit(input[offset - 1]))
      ensures
        var start := if prefixAlreadyRead then offset - 1 else offset;
        AllDigits(input[start..][..offset - start])
    {
    }

    method ReadBytes(prefixAlreadyRead: bool) returns (r: Result<Bytes, JsError>)
      requires Valid() && (prefixAlreadyRead ==> offset > 0 && IsDigit(input[offset - 1]))
      modifies this
      ensures Valid()
      ensures
        match ScanBytes(input[if prefixAlreadyRead then old(offset) - 1 else old(offset)..])
        case Ok((bytes, rest)) => r == Ok(bytes) && Rest() == rest
        case Err(e) => r == Err(e)
    {
      var len := ReadLength(prefixAlreadyRead);
      if len.Err? { return Err(len.error); }
      if |input| < offset + len.value { return Err(UnexpectedEndOfBytes); }
      r := Ok(input[offset..offset + len.value]);
      assert Rest()[..len.value] == r.value && Rest()[len.value..] == input[offset + len.value..];
      offset := offset + len.value;
    }

    method ReadInteger(js: Platform) returns (r: Result<int, JsError>)
      requires Valid()
      modifies this
      ensures Valid()
      ensures
        match ScanInteger(js, old(Rest()))
        case Ok((v, rest)) => r == Ok(v) && Rest() == rest
        case Err(e) => r == Err(e)
    {
      var bytes := ReadUntil(END);
      if bytes.Err? { return Err(bytes.error); }
      var raw := js.decodeText(bytes.value);
      if raw == [] || raw == [MINUS] || StartsMinusZero(raw) || (|raw| > 1 && raw[0] == ZERO) {
        return Err(InvalidIntegerEncoding);
      }
      var v := js.bigInt(raw);
      return if v.Some? then Ok(v.value) else Err(UnparsableInteger);
    }

    method ReadValue(js: Platform) returns (r: Result<Value, JsError>)
      requires Valid()
      modifies this
      ensures Valid()
      ensures
        match ScanValue(js, old(Rest()))
        case Ok((value, rest)) => r == Ok(value) && Rest() == rest
        case Err(e) => r == Err(e)
      decreases |input| - offset, 0
    {
      hide ScanBytes, ScanInteger;
      hide ScanItems, ScanEntries;
      var tag := Take();
      if tag.Err? { return Err(tag.error); }
      if tag.value == TAG_NULL { return Ok(Null); }
      if tag.value == TAG_TRUE { return Ok(Bool(true)); }
      if tag.value == TAG_FALSE { return Ok(Bool(false)); }
      if tag.value == TAG_INT {
        var v := ReadInteger(js);
        return if v.Ok? then Ok(Int(v.value)) else Err(v.error);
      }
      if tag.value == TAG_TEXT {
        var utf8 := ReadBytes(false);
        return if utf8.Ok? then Ok(Text(js.decodeText(utf8.value))) else Err(utf8.error);
      }
      if IsDigit(tag.value) {
        var bytes := ReadBytes(true);
        return if bytes.Ok? then Ok(ByteString(bytes.value)) else Err(bytes.error);
      }
      if tag.value == TAG_LIST {
        var items := ReadList(js);
        return if items.Ok? then Ok(List(items.value)) else Err(items.error);
      }
      if tag.value == TAG_DICT {
        var entries := ReadDict(js);
        return if entries.Ok? then Ok(Dict(entries.value)) else Err(entries.error);
      }
      return Err(UnexpectedTag(tag.value));
    }

    method ReadList(js: Platform) returns (r: Result<seq<Value>, JsError>)
      requires Valid()
      modifies this
      ensures Valid()
      ensures
        match ScanItems(js, old(Rest()), [])
        case Ok((items, rest)) => r == Ok(items) && Rest() == rest
        case Err(e) => r == Err(e)
      decreases |input| - offset, 1
    {
      hide ScanValue;
      var items: seq<Value> := [];
      while true
        invariant Valid() && |Rest()| <= |old(Rest())|
        invariant ScanItems(js, old(Rest()), []) == ScanItems(js, Rest(), items)
        decreases |input| - offset
      {
        var next := Peek();
        if next.Err? { return Err(next.error); }
        if next.value == END {
          offset := offset + 1;
          return Ok(items);
        }
        var item := ReadValue(js);
        if item.Err? { return Err(item.error); }
        items := items + [item.value];
      }
    }

    /** The key of an entry, its tag first. */
    method ReadKey(js: Platform) returns (r: Result<Key, JsError>)
      requires Valid()
      modifies this
      ensures Valid()
      ensures
        match ScanKey(js, old(Rest()))
        case Ok((key, rest)) => r == Ok(key) && Rest() == rest
        case Err(e) => r == Err(e)
    {
      hide ScanBytes;
      var tag := Take();
      if tag.Err? { return Err(tag.error); }
      if tag.value == TAG_TEXT {
        var utf8 := ReadBytes(false);
        return if utf8.Ok? then Ok(TextKey(js.decodeText(utf8.value))) else Err(utf8.error);
      }
      if IsDigit(tag.value) {
        var bytes := ReadBytes(true);
        return if bytes.Ok? then Ok(BytesKey(bytes.value)) else Err(bytes.error);
      }
      return Err(KeyIsNotBytesOrText);
    }

    method ReadDict(js: Platform) returns (r: Result<seq<Entry<Value>>, JsError>)
      requires Valid()
      modifies this
      ensures Valid()
      ensures
        match ScanEntries(js, old(Rest()), [])
        case Ok((entries, rest)) => r == Ok(entries) && Rest() == rest
        case Err(e) => r == Err(e)
      decreases |input| - offset, 1
    {
      hide ScanValue, ScanKey, MapSet;
      var entries: seq<Entry<Value>> := [];
      while true
        invariant Valid() && |Rest()| <= |old(Rest())|
        invariant ScanEntries(js, old(Rest()), []) == ScanEntries(js, Rest(), entries)
        decreases |input| - offset
      {
        var next := Peek();
        if next.Err? { return Err(next.error); }
        if next.value == END {
          offset := offset + 1;
          return Ok(entries);
        }
        var key := ReadKey(js);
        if key.Err? { return Err(key.error); }
        var value := ReadValue(js);
        if value.Err? { return Err(value.error); }
        entries := MapSet(entries, Entry(key.value, value.value));
      }
    }
  }

  method Decode(js: Platform, bytes: Bytes) returns (r: Result<Value, JsError>)
    ensures r == Decoded(js, bytes)
  {
    hide ScanValue;
    var decoder := new Decoder(bytes);
    r := decoder.ReadValue(js);
    if r.Ok? && decoder.offset < |bytes| {
      r := Err(TrailingBytesAfterValue);
    }
  }

  // ---------------------------------------------------------------------------
  // What an encoding decodes to
  // ---------------------------------------------------------------------------

  predicate ShortKey(key: Key) {
    match key
    case BytesKey(bytes) => |bytes| < SAFE_LIMIT
    case TextKey(utf8) => |utf8| < SAFE_LIMIT && ValidUtf8(utf8)
  }

  /** What is written can be read again: its texts are UTF-8, and lengths are
      safe integers. */
  ghost predicate Readable(value: Value)
    decreases value
  {
    match value
    case ByteString(bytes) => |bytes| < SAFE_LIMIT
    case Text(utf8) => |utf8| < SAFE_LIMIT && ValidUtf8(utf8)
    case List(items) => forall i :: 0 <= i < |items| ==> Readable(items[i])
    case Dict(entries) =>
      forall i :: 0 <= i < |entries| ==> ShortKey(entries[i].key) && Readable(entries[i].value)
    case _ => true
  }

  predicate JsKey(key: Key) {
    match key
    case BytesKey(bytes) => |bytes| < SAFE_LIMIT
    case TextKey(s) => |s| < SAFE_LIMIT && JsString(s)
  }

  /** A value the JavaScript encoder can be given: its strings are any sequences
      of code units, and its integers have any size. */
  ghost predicate JsValid(value: Value)
    decreases value
  {
    match value
    case ByteString(bytes) => |bytes| < SAFE_LIMIT
    case Text(s) => |s| < SAFE_LIMIT && JsString(s)
    case List(items) => forall i :: 0 <= i < |items| ==> JsValid(items[i])
    case Dict(entries) =>
      && DistinctKeys(entries)
      && forall i :: 0 <= i < |entries| ==> JsKey(entries[i].key) && JsValid(entries[i].value)
    case _ => true
  }

  lemma WireKeyIsShort(key: Key)
    requires JsKey(key)
    ensures ShortKey(WireKey(key))
  {
    if key.TextKey? {
      TextEncodedIs(key.utf8);
    }
  }

  /** Whatever the encoder is given, what it writes can be read again. */
  lemma {:induction false} WireIsReadable(value: Value)
    requires JsValid(value)
    ensures Readable(Wire(value))
    decreases value
  {
    hide TextEncoded, JsString, ValidUtf8, JsKey, WireKey, ShortKey, DistinctKeys;
    match value {
      case Text(s) => TextEncodedIs(s);
      case List(items) =>
        WireAt(items, []);
        forall i | 0 <= i < |items|
          ensures Readable(WireItems(items)[i])
        {
          WireIsReadable(items[i]);
        }
      case Dict(entries) =>
        WireAt([], entries);
        forall i | 0 <= i < |entries|
          ensures ShortKey(WireEntries(entries)[i].key) && Readable(WireEntries(entries)[i].value)
        {
          WireKeyIsShort(entries[i].key);
          WireEntryIsReadable(entries[i]);
        }
      case _ =>
    }
  }

  lemma {:induction false} WireEntryIsReadable(e: Entry<Value>)
    requires JsValid(e.value)
    ensures Readable(Wire(e.value))
    decreases e
  {
    WireIsReadable(e.value);
  }

  function UnmarkedKey(key: Key): Key {
    if key.TextKey? then TextKey(Unmarked(key.utf8)) else key
  }

  /** Every entry set in turn, under its key without a byte order mark. */
  function SetAll(entries: seq<Entry<Value>>, es: seq<Entry<Value>>): seq<Entry<Value>>
    decreases |es|
  {
    if es == [] then entries
    else SetAll(MapSet(entries, Entry(UnmarkedKey(es[0].key), es[0].value)), es[1..])
  }

  /** What decoding makes of a value that was encoded. */
  function ReadBack(value: Value): Value
    decreases value
  {
    match value
    case Text(utf8) => Text(Unmarked(utf8))
    case List(items) => List(ReadBackItems(items))
    case Dict(entries) => Dict(SetAll([], Sort(ReadBackEntries(entries))))
    case _ => value
  }

  function ReadBackItems(items: seq<Value>): (r: seq<Value>)
    ensures |r| == |items|
    decreases items
  {
    if items == [] then [] else [ReadBack(items[0])] + ReadBackItems(items[1..])
  }

  function ReadBackEntries(entries: seq<Entry<Value>>): (r: seq<Entry<Value>>)
    ensures |r| == |entries|
    decreases entries
  {
    if entries == [] then [] else [ReadBackEntry(entries[0])] + ReadBackEntries(entries[1..])
  }

  function ReadBackEntry(e: Entry<Value>): (r: Entry<Value>)
    decreases e
  {
    Entry(e.key, ReadBack(e.value))
  }

  /** The bytes decode to the value and leave whatever follows them. */
  ghost predicate Reads(js: Platform, encoded: Bytes, value: Value) {
    && encoded != [] && encoded[0] != END
    && forall suffix: Bytes :: ScanValue(js, encoded + suffix) == Ok((value, suffix))
  }

  lemma LengthScans(d: Bytes, rest: Bytes)
    requires d != [] && AllDigits(d) && DigitsValue(d) < SAFE_LIMIT && (|d| > 1 ==> d[0] != ZERO)
    ensures ScanLength(d + [COLON] + rest) == Ok((DigitsValue(d), rest))
  {
    var s := d + [COLON] + rest;
    assert s[..|d|] == d && s[|d|] == COLON && s[|d| + 1..] == rest;
    DigitsSoFar(s, |d|);
    FirstDigit(s[|d|..]);
    hide DigitCount, DigitsValue;
  }

  lemma LengthReads(bytes: Bytes, suffix: Bytes)
    requires |bytes| < SAFE_LIMIT
    ensures ScanBytes(EncodeBytes(bytes) + suffix) == Ok((bytes, suffix))
    ensures IsDigit(EncodeBytes(bytes)[0])
  {
    var d := Decimal(|bytes|);
    var s := EncodeBytes(bytes) + suffix;
    DecimalRoundTrip(|bytes|);
    DecimalStart(|bytes|);
    assert s == d + [COLON] + (bytes + suffix);
    LengthScans(d, bytes + suffix);
    hide ScanLength;
    assert (bytes + suffix)[..|bytes|] == bytes && (bytes + suffix)[|bytes|..] == suffix;
  }

  lemma IntegerReads(js: Platform, v: int, suffix: Bytes)
    requires Standard(js)
    ensures ScanInteger(js, SignedDecimal(v) + [END] + suffix) == Ok((v, suffix))
  {
    var s := SignedDecimal(v);
    var n := if v < 0 then -v else v;
    DecimalStart(n);
    FoundAfterPrefix(s, END, suffix);
    AsciiIsUtf8(s);
    assert !Marked(s);
    assert (s + [END] + suffix)[..|s|] == s && (s + [END] + suffix)[|s| + 1..] == suffix;
    assert v < 0 ==> s[1..] == Decimal(n);
  }

  lemma KeyReads(js: Platform, key: Key, suffix: Bytes)
    requires Standard(js) && ShortKey(key)
    ensures EncodeKey(key) != [] && EncodeKey(key)[0] != END
    ensures ScanKey(js, EncodeKey(key) + suffix) == Ok((UnmarkedKey(key), suffix))
  {
    hide ScanBytes, ValidUtf8, Unmarked, Decimal;
    match key {
      case BytesKey(bytes) => LengthReads(bytes, suffix);
      case TextKey(utf8) =>
        LengthReads(utf8, suffix);
        assert EncodeKey(key) + suffix == [TAG_TEXT] + (EncodeBytes(utf8) + suffix);
    }
  }

  lemma ScalarReads(js: Platform, value: Value)
    requires Standard(js) && Readable(value) && !value.List? && !value.Dict?
    ensures Reads(js, Encode(value), ReadBack(value))
  {
    hide ScanInteger, ScanBytes, ValidUtf8, Unmarked, Decimal, SignedDecimal;
    var encoded := Encode(value);
    forall suffix: Bytes
      ensures ScanValue(js, encoded + suffix) == Ok((ReadBack(value), suffix)) && encoded != [] && encoded[0] != END
    {
      match value {
        case Null => assert (encoded + suffix)[1..] == suffix;
        case Bool(_) => assert (encoded + suffix)[1..] == suffix;
        case Int(v) =>
          IntegerReads(js, v, suffix);
          assert (encoded + suffix)[1..] == SignedDecimal(v) + [END] + suffix;
        case ByteString(bytes) => LengthReads(bytes, suffix);
        case Text(utf8) =>
          LengthReads(utf8, suffix);
          assert (encoded + suffix)[1..] == EncodeBytes(utf8) + suffix;
      }
    }
    assert ScanValue(js, encoded + []) == Ok((ReadBack(value), []));
  }

  lemma {:induction false} ItemsRead(js: Platform, items: seq<Value>, done: seq<Value>, suffix: Bytes)
    requires forall i :: 0 <= i < |items| ==> Reads(js, Encode(items[i]), ReadBack(items[i]))
    ensures ScanItems(js, EncodeItems(items) + [END] + suffix, done) == Ok((done + ReadBackItems(items), suffix))
    decreases |items|
  {
    hide ScanValue, Encode, ReadBack;
    if items == [] {
      assert EncodeItems(items) + [END] + suffix == [END] + suffix && done + ReadBackItems(items) == done;
    } else {
      var value := ReadBack(items[0]);
      ItemsRead(js, items[1..], done + [value], suffix);
      var rest := EncodeItems(items[1..]) + [END] + suffix;
      assert EncodeItems(items) + [END] + suffix == Encode(items[0]) + rest;
      assert ScanValue(js, Encode(items[0]) + rest) == Ok((value, rest));
      assert done + [value] + ReadBackItems(items[1..]) == done + ReadBackItems(items);
    }
  }

  lemma {:induction false} EntriesRead(
    js: Platform, es: seq<Entry<Both>>, entries: seq<Entry<Value>>, suffix: Bytes)
    requires Standard(js)
    requires forall i :: 0 <= i < |es| ==> ShortKey(es[i].key) && Reads(js, es[i].value.encoded, es[i].value.value)
    ensures ScanEntries(js, WriteEntries(MapValues(EncodedPart, es)) + [END] + suffix, entries)
            == Ok((SetAll(entries, MapValues(ValuePart, es)), suffix))
    decreases |es|
  {
    hide ScanKey, ScanValue, EncodeKey, ShortKey, MapSet, UnmarkedKey, Standard;
    var written := WriteEntries(MapValues(EncodedPart, es));
    if es == [] {
      assert written + [END] + suffix == [END] + suffix;
    } else {
      var e := es[0];
      var next := MapSet(entries, Entry(UnmarkedKey(e.key), e.value.value));
      EntriesRead(js, es[1..], next, suffix);
      assert MapValues(EncodedPart, es)[1..] == MapValues(EncodedPart, es[1..]);
      assert MapValues(ValuePart, es)[1..] == MapValues(ValuePart, es[1..]);
      var rest := WriteEntries(MapValues(EncodedPart, es[1..])) + [END] + suffix;
      assert written + [END] + suffix == EncodeKey(e.key) + (e.value.encoded + rest);
      KeyReads(js, e.key, e.value.encoded + rest);
      assert ScanValue(js, e.value.encoded + rest) == Ok((e.value.value, rest));
    }
  }

  lemma {:induction false} ItemsMap(items: seq<Value>)
    ensures forall i :: 0 <= i < |items| ==> ReadBackItems(items)[i] == ReadBack(items[i])
  {
    hide ReadBack;
    if items != [] {
      ItemsMap(items[1..]);
    }
  }

  lemma {:induction false} EntriesMap(entries: seq<Entry<Value>>)
    ensures ReadBackEntries(entries) == MapValues(ReadBack, entries)
  {
    if entries != [] {
      EntriesMap(entries[1..]);
      assert MapValues(ReadBack, entries)[1..] == MapValues(ReadBack, entries[1..]);
    }
  }

  function Written(entries: seq<Entry<Value>>): (r: seq<Entry<Both>>) {
    MapValues((v: Value) => Both(Encode(v), ReadBack(v)), entries)
  }

  lemma SortedParts(entries: seq<Entry<Value>>)
    ensures Sort(EncodeEntries(entries)) == MapValues(EncodedPart, Sort(Written(entries)))
    ensures Sort(ReadBackEntries(entries)) == MapValues(ValuePart, Sort(Written(entries)))
  {
    hide Encode, ReadBack, KeyLess;
    var both := Written(entries);
    EncodeEntriesMaps(entries);
    EntriesMap(entries);
    assert MapValues(EncodedPart, both) == MapValues(Encode, entries);
    assert MapValues(ValuePart, both) == MapValues(ReadBack, entries);
    SortCommutes(EncodedPart, both);
    SortCommutes(ValuePart, both);
  }

  lemma SortedKeepsAll(js: Platform, es: seq<Entry<Both>>)
    requires forall i :: 0 <= i < |es| ==> ShortKey(es[i].key) && Reads(js, es[i].value.encoded, es[i].value.value)
    ensures
      var sorted := Sort(es);
      forall i :: 0 <= i < |sorted| ==>
        ShortKey(sorted[i].key) && Reads(js, sorted[i].value.encoded, sorted[i].value.value)
  {
    hide ShortKey, Reads;
    var sorted := Sort(es);
    SortPermutes(es);
    forall i | 0 <= i < |sorted|
      ensures ShortKey(sorted[i].key) && Reads(js, sorted[i].value.encoded, sorted[i].value.value)
    {
      assert sorted[i] in multiset(sorted);
      var j :| 0 <= j < |es| && es[j] == sorted[i];
    }
  }

  lemma ReadsIf(js: Platform, encoded: Bytes, value: Value)
    requires encoded != [] && encoded[0] != END
    requires forall suffix: Bytes :: ScanValue(js, encoded + suffix) == Ok((value, suffix))
    ensures Reads(js, encoded, value)
  {
  }

  lemma ReadBackUnfolds(items: seq<Value>, entries: seq<Entry<Value>>)
    ensures ReadBack(List(items)) == List(ReadBackItems(items))
    ensures ReadBack(Dict(entries)) == Dict(SetAll([], Sort(ReadBackEntries(entries))))
  {
  }

  lemma ScanUnfolds(js: Platform, body: Bytes)
    ensures ScanItems(js, body, []).Ok? ==>
              ScanValue(js, [TAG_LIST] + body)
              == Ok((List(ScanItems(js, body, []).value.0), ScanItems(js, body, []).value.1))
    ensures ScanEntries(js, body, []).Ok? ==>
              ScanValue(js, [TAG_DICT] + body)
              == Ok((Dict(ScanEntries(js, body, []).value.0), ScanEntries(js, body, []).value.1))
  {
    hide ScanItems, ScanEntries;
    assert ([TAG_LIST] + body)[1..] == body && ([TAG_DICT] + body)[1..] == body;
  }

  lemma ListReads(js: Platform, items: seq<Value>)
    requires forall i :: 0 <= i < |items| ==> Reads(js, Encode(items[i]), ReadBack(items[i]))
    ensures Reads(js, Encode(List(items)), ReadBack(List(items)))
  {
    hide Reads, Encode, EncodeItems, ReadBack, ReadBackItems, ScanItems, ScanValue;
    EncodedList(items);
    ReadBackUnfolds(items, []);
    forall suffix: Bytes
      ensures ScanValue(js, Encode(List(items)) + suffix) == Ok((ReadBack(List(items)), suffix))
    {
      var body := EncodeItems(items) + [END] + suffix;
      ItemsRead(js, items, [], suffix);
      ScanUnfolds(js, body);
      assert Encode(List(items)) + suffix == [TAG_LIST] + body;
      assert [] + ReadBackItems(items) == ReadBackItems(items);
    }
    ReadsIf(js, Encode(List(items)), ReadBack(List(items)));
  }

  lemma DictReads(js: Platform, entries: seq<Entry<Value>>)
    requires Standard(js)
    requires forall i :: 0 <= i < |entries| ==>
               ShortKey(entries[i].key) && Reads(js, Encode(entries[i].value), ReadBack(entries[i].value))
    ensures Reads(js, Encode(Dict(entries)), ReadBack(Dict(entries)))
  {
    hide Reads, Encode, ReadBack, ScanEntries, ScanValue, ShortKey, Sort, SetAll, Standard, Canon;
    var sorted := Sort(Written(entries));
    EncodedDict(entries);
    SortedParts(entries);
    SortedKeepsAll(js, Written(entries));
    ReadBackUnfolds([], entries);
    forall suffix: Bytes
      ensures ScanValue(js, Encode(Dict(entries)) + suffix) == Ok((ReadBack(Dict(entries)), suffix))
    {
      EntriesRead(js, sorted, [], suffix);
      var body := WriteEntries(MapValues(EncodedPart, sorted)) + [END] + suffix;
      ScanUnfolds(js, body);
      assert Encode(Dict(entries)) + suffix == [TAG_DICT] + body;
    }
    ReadsIf(js, Encode(Dict(entries)), ReadBack(Dict(entries)));
  }

  /** Decoding an encoding never fails, whatever follows it. */
  lemma {:induction false} EncodingReads(js: Platform, value: Value)
    requires Standard(js) && Readable(value)
    ensures Reads(js, Encode(value), ReadBack(value))
    decreases value
  {
    hide Reads, Encode, ReadBack, Standard;
    match value {
      case List(items) =>
        forall i | 0 <= i < |items|
          ensures Reads(js, Encode(items[i]), ReadBack(items[i]))
        {
          EncodingReads(js, items[i]);
        }
        ListReads(js, items);
      case Dict(entries) =>
        forall i | 0 <= i < |entries|
          ensures Reads(js, Encode(entries[i].value), ReadBack(entries[i].value))
        {
          EntryReads(js, entries[i]);
        }
        DictReads(js, entries);
      case _ => ScalarReads(js, value);
    }
  }

  lemma {:induction false} EntryReads(js: Platform, e: Entry<Value>)
    requires Standard(js) && Readable(e.value)
    ensures Reads(js, Encode(e.value), ReadBack(e.value))
    decreases e
  {
    EncodingReads(js, e.value);
  }

  // ---------------------------------------------------------------------------
  // When the value comes back
  // ---------------------------------------------------------------------------

  predicate MarkedKey(key: Key) { key.TextKey? && Marked(key.utf8) }

  /** No text and no text key in the value starts with a byte order mark. */
  ghost predicate NoMarks(value: Value)
    decreases value
  {
    match value
    case Text(utf8) => !Marked(utf8)
    case List(items) => forall i :: 0 <= i < |items| ==> NoMarks(items[i])
    case Dict(entries) =>
      forall i :: 0 <= i < |entries| ==> !MarkedKey(entries[i].key) && NoMarks(entries[i].value)
    case _ => true
  }

  lemma {:induction false} SetAddsAtMostOne(entries: seq<Entry<Value>>, e: Entry<Value>)
    ensures |entries| <= |MapSet(entries, e)| <= |entries| + 1
    ensures |MapSet(entries, e)| == |entries| + 1 ==> MapSet(entries, e) == entries + [e]
    ensures (forall i :: 0 <= i < |entries| ==> entries[i].key != e.key) ==> MapSet(entries, e) == entries + [e]
  {
    if entries != [] && e.key.TextKey? && entries[0].key != e.key {
      SetAddsAtMostOne(entries[1..], e);
      assert entries + [e] == [entries[0]] + (entries[1..] + [e]);
    }
  }

  function UnmarkedEntries(es: seq<Entry<Value>>): (r: seq<Entry<Value>>)
    ensures |r| == |es|
  {
    seq(|es|, i requires 0 <= i < |es| => Entry(UnmarkedKey(es[i].key), es[i].value))
  }

  /** No entry is lost exactly when each is added behind the others. */
  lemma {:induction false} SetAllAddsAtMost(entries: seq<Entry<Value>>, es: seq<Entry<Value>>)
    ensures |SetAll(entries, es)| <= |entries| + |es|
    ensures |SetAll(entries, es)| == |entries| + |es| ==> SetAll(entries, es) == entries + UnmarkedEntries(es)
    decreases |es|
  {
    hide MapSet, UnmarkedKey;
    if es == [] {
      assert entries + UnmarkedEntries(es) == entries;
    } else {
      var e := Entry(UnmarkedKey(es[0].key), es[0].value);
      SetAddsAtMostOne(entries, e);
      SetAllAddsAtMost(MapSet(entries, e), es[1..]);
      assert UnmarkedEntries(es) == [e] + UnmarkedEntries(es[1..]);
      assert entries + [e] + UnmarkedEntries(es[1..]) == entries + UnmarkedEntries(es);
    }
  }

  lemma {:induction false} SetAllAddsAll(entries: seq<Entry<Value>>, es: seq<Entry<Value>>)
    requires DistinctKeys(entries + es)
    requires forall i :: 0 <= i < |es| ==> !MarkedKey(es[i].key)
    ensures SetAll(entries, es) == entries + es
    decreases |es|
  {
    hide MapSet;
    if es == [] {
      assert entries + es == entries;
    } else {
      var all := entries + es;
      forall i | 0 <= i < |entries|
        ensures entries[i].key != es[0].key
      {
        assert all[i].key != all[|entries|].key;
      }
      SetAddsAtMostOne(entries, es[0]);
      assert UnmarkedKey(es[0].key) == es[0].key;
      assert entries + [es[0]] + es[1..] == all;
      SetAllAddsAll(entries + [es[0]], es[1..]);
    }
  }

  lemma UnmarkedIsShorter(key: Key)
    ensures UnmarkedKey(key) == key <==> !MarkedKey(key)
  {
    if MarkedKey(key) {
      assert |Unmarked(key.utf8)| == |key.utf8| - 3;
    }
  }

  lemma SortedDistinct(es: seq<Entry<Value>>)
    requires DistinctKeys(es)
    ensures DistinctKeys(Sort(es))
  {
    hide KeyLess, Sort;
    SortAscends(es);
    var sorted := Sort(es);
    forall i, j | 0 <= i < j < |sorted|
      ensures sorted[i].key != sorted[j].key
    {
      KeyLessIsStrictTotal(sorted[i].key, sorted[j].key, sorted[i].key);
    }
  }

  /** Sorted entries and unsorted ones have the same keys and values. */
  lemma SortedHolds(es: seq<Entry<Value>>, i: nat)
    requires i < |es|
    ensures |Sort(es)| == |es| && exists j :: 0 <= j < |es| && Sort(es)[j] == es[i]
    ensures exists j :: 0 <= j < |es| && Sort(es)[i] == es[j]
  {
    hide Sort;
    SortPermutes(es);
    assert es[i] in multiset(Sort(es));
    assert Sort(es)[i] in multiset(es);
  }

  lemma DictComesBackIf(entries: seq<Entry<Value>>)
    requires DistinctKeys(entries)
    requires forall i :: 0 <= i < |entries| ==> !MarkedKey(entries[i].key)
    requires forall i :: 0 <= i < |entries| ==> ReadBack(entries[i].value) == Canon(entries[i].value)
    ensures ReadBack(Dict(entries)) == Canon(Dict(entries))
  {
    hide Sort, SetAll, ReadBack, Canon, MarkedKey;
    EntriesMap(entries);
    CanonEntriesMaps(entries);
    ReadBackUnfolds([], entries);
    EncodedDict(entries);
    var es := ReadBackEntries(entries);
    assert es == CanonEntries(entries);
    assert DistinctKeys(es);
    SortedDistinct(es);
    forall i | 0 <= i < |Sort(es)|
      ensures !MarkedKey(Sort(es)[i].key)
    {
      SortPermutes(es);
      SortedHolds(es, i);
    }
    assert [] + Sort(es) == Sort(es);
    SetAllAddsAll([], Sort(es));
  }

  lemma SetAllKeepsAll(es: seq<Entry<Value>>, all: seq<Entry<Value>>)
    requires |es| == |all| && SetAll([], es) == all
    ensures all == UnmarkedEntries(es)
  {
    SetAllAddsAtMost([], es);
    assert [] + UnmarkedEntries(es) == UnmarkedEntries(es);
  }

  lemma DictComesBackOnlyIf(entries: seq<Entry<Value>>, i: nat)
    requires i < |entries|
    requires ReadBack(Dict(entries)) == Canon(Dict(entries))
    ensures !MarkedKey(entries[i].key) && ReadBack(entries[i].value) == Canon(entries[i].value)
  {
    hide Sort, SetAll, ReadBack, Canon, MarkedKey, UnmarkedKey, ReadBackEntries, CanonEntries;
    var back, canon := ReadBackEntries(entries), CanonEntries(entries);
    ReadBackUnfolds([], entries);
    EncodedDict(entries);
    SortedTogether(entries, i);
    SetAllKeepsAll(Sort(back), Sort(canon));
    var k :| 0 <= k < |entries| && Sort(back)[k] == back[i] && Sort(canon)[k] == canon[i];
    assert canon[i] == Entry(UnmarkedKey(back[i].key), back[i].value);
    EntriesMap(entries);
    CanonEntriesMaps(entries);
    UnmarkedIsShorter(entries[i].key);
  }

  /** What two encodings make of one entry stands at one place once sorted. */
  lemma SortedTogether(entries: seq<Entry<Value>>, i: nat)
    requires i < |entries|
    ensures |Sort(ReadBackEntries(entries))| == |entries| == |Sort(CanonEntries(entries))|
    ensures exists k :: 0 <= k < |entries|
                        && Sort(ReadBackEntries(entries))[k] == ReadBackEntries(entries)[i]
                        && Sort(CanonEntries(entries))[k] == CanonEntries(entries)[i]
  {
    hide Sort, ReadBack, Canon;
    EntriesMap(entries);
    CanonEntriesMaps(entries);
    SortCommutes(ReadBack, entries);
    SortCommutes(Canon, entries);
    SortedHolds(entries, i);
    var k :| 0 <= k < |entries| && Sort(entries)[k] == entries[i];
    assert MapValues(ReadBack, Sort(entries))[k] == ReadBackEntries(entries)[i];
    assert MapValues(Canon, Sort(entries))[k] == CanonEntries(entries)[i];
  }

  lemma ListComesBackIff(items: seq<Value>)
    ensures ReadBack(List(items)) == Canon(List(items))
            <==> forall i :: 0 <= i < |items| ==> ReadBack(items[i]) == Canon(items[i])
  {
    hide ReadBack, Canon;
    ItemsMap(items);
    EncodedItems(items);
    ReadBackUnfolds(items, []);
    CanonList(items);
  }

  lemma {:induction false} ComesBackIff(value: Value)
    requires JsValid(value)
    ensures ReadBack(value) == Canon(value) <==> NoMarks(value)
    decreases value
  {
    hide ReadBack, Canon, MarkedKey;
    match value {
      case List(items) =>
        forall i | 0 <= i < |items|
          ensures ReadBack(items[i]) == Canon(items[i]) <==> NoMarks(items[i])
        {
          ComesBackIff(items[i]);
        }
        ListComesBackIff(items);
      case Dict(entries) =>
        forall i | 0 <= i < |entries|
          ensures ReadBack(entries[i].value) == Canon(entries[i].value) <==> NoMarks(entries[i].value)
        {
          EntryComesBackIff(entries[i]);
        }
        if NoMarks(value) {
          DictComesBackIf(entries);
        }
        if ReadBack(value) == Canon(value) {
          forall i | 0 <= i < |entries|
            ensures !MarkedKey(entries[i].key) && NoMarks(entries[i].value)
          {
            DictComesBackOnlyIf(entries, i);
          }
        }
      case _ => ScalarComesBackIff(value);
    }
  }

  lemma {:induction false} EntryComesBackIff(e: Entry<Value>)
    requires JsValid(e.value)
    ensures ReadBack(e.value) == Canon(e.value) <==> NoMarks(e.value)
    decreases e
  {
    ComesBackIff(e.value);
  }

  lemma ScalarComesBackIff(value: Value)
    requires !value.List? && !value.Dict?
    ensures ReadBack(value) == Canon(value) <==> NoMarks(value)
  {
    if value.Text? && Marked(value.utf8) {
      assert |Unmarked(value.utf8)| == |value.utf8| - 3;
    }
  }

  // --- What comes back has only well-formed strings ------------------------------------

  ghost predicate EntriesWellFormed(es: seq<Entry<Value>>) {
    forall i :: 0 <= i < |es| ==> WellFormedKey(es[i].key) && WellFormed(es[i].value)
  }

  lemma UnmarkedIsUtf8(s: Bytes)
    requires ValidUtf8(s)
    ensures ValidUtf8(Unmarked(s))
  {
    if Marked(s) {
      assert s[0] == 0xef && s[1] == 0xbb && s[2] == 0xbf;
    }
  }

  lemma {:induction false} MapSetWellFormed(entries: seq<Entry<Value>>, e: Entry<Value>)
    requires EntriesWellFormed(entries) && WellFormedKey(e.key) && WellFormed(e.value)
    ensures EntriesWellFormed(MapSet(entries, e))
  {
    hide WellFormed, WellFormedKey;
    if entries != [] {
      MapSetWellFormed(entries[1..], e);
    }
  }

  lemma {:induction false} SetAllWellFormed(entries: seq<Entry<Value>>, es: seq<Entry<Value>>)
    requires EntriesWellFormed(entries) && EntriesWellFormed(es)
    ensures EntriesWellFormed(SetAll(entries, es))
    decreases |es|
  {
    hide WellFormed, MapSet, ValidUtf8, Unmarked;
    if es != [] {
      var e := Entry(UnmarkedKey(es[0].key), es[0].value);
      if es[0].key.TextKey? {
        UnmarkedIsUtf8(es[0].key.utf8);
      }
      MapSetWellFormed(entries, e);
      SetAllWellFormed(MapSet(entries, e), es[1..]);
    }
  }

  /** Whatever is read, its strings have no unpaired surrogate. */
  lemma {:induction false} ReadBackIsWellFormed(value: Value)
    requires Readable(value)
    ensures WellFormed(ReadBack(value))
    decreases value
  {
    hide ValidUtf8, Unmarked, Sort, SetAll, ReadBackEntries, ReadBackItems;
    match value {
      case Text(s) => UnmarkedIsUtf8(s);
      case List(items) =>
        ItemsMap(items);
        forall i | 0 <= i < |items|
          ensures WellFormed(ReadBackItems(items)[i])
        {
          ReadBackIsWellFormed(items[i]);
        }
      case Dict(entries) =>
        var es := ReadBackEntries(entries);
        EntriesMap(entries);
        forall i | 0 <= i < |entries|
          ensures WellFormed(es[i].value)
        {
          ReadBackEntryIsWellFormed(entries[i]);
        }
        assert EntriesWellFormed(es);
        SortWellFormed(es);
        SetAllWellFormed([], Sort(es));
      case _ =>
    }
  }

  lemma {:induction false} ReadBackEntryIsWellFormed(e: Entry<Value>)
    requires Readable(e.value)
    ensures WellFormed(ReadBack(e.value))
    decreases e
  {
    ReadBackIsWellFormed(e.value);
  }

  lemma SortWellFormed(es: seq<Entry<Value>>)
    ensures EntriesWellFormed(es) <==> EntriesWellFormed(Sort(es))
  {
    hide WellFormed, WellFormedKey, Sort;
    SortPermutes(es);
    var sorted := Sort(es);
    if EntriesWellFormed(es) {
      forall i | 0 <= i < |es|
        ensures WellFormedKey(sorted[i].key) && WellFormed(sorted[i].value)
      {
        SortedHolds(es, i);
      }
    }
    if EntriesWellFormed(sorted) {
      forall i | 0 <= i < |es|
        ensures WellFormedKey(es[i].key) && WellFormed(es[i].value)
      {
        SortedHolds(es, i);
      }
    }
  }

  /** Putting dictionaries in key order changes no string. */
  lemma {:induction false} CanonWellFormed(value: Value)
    requires WellFormed(Canon(value))
    ensures WellFormed(value)
    decreases value
  {
    hide ValidUtf8, Sort, CanonEntries, CanonItems;
    match value {
      case List(items) =>
        EncodedItems(items);
        forall i | 0 <= i < |items|
          ensures WellFormed(items[i])
        {
          assert WellFormed(CanonItems(items)[i]);
          CanonWellFormed(items[i]);
        }
      case Dict(entries) =>
        var es := CanonEntries(entries);
        CanonEntriesMaps(entries);
        SortWellFormed(es);
        forall i | 0 <= i < |entries|
          ensures WellFormed(entries[i].value)
        {
          assert WellFormed(es[i].value);
          CanonEntryWellFormed(entries[i]);
        }
      case _ =>
    }
  }

  lemma {:induction false} CanonEntryWellFormed(e: Entry<Value>)
    requires WellFormed(Canon(e.value))
    ensures WellFormed(e.value)
    decreases e
  {
    CanonWellFormed(e.value);
  }

  /** What the encoder writes always decodes, and to the value it was made from
      exactly when no text in it starts with a byte order mark or has an
      unpaired surrogate. */
  lemma JsRoundTripsIff(js: Platform, value: Value)
    requires Standard(js) && JsValid(value)
    ensures Decoded(js, JsEncode(value)).Ok?
    ensures Decoded(js, JsEncode(value)) == Ok(Canon(value)) <==> NoMarks(value) && WellFormed(value)
  {
    hide Encode, ReadBack, Canon, ScanValue, Wire, NoMarks, WellFormed, JsEncode, JsValid, Readable;
    var wire := Wire(value);
    SameEncoding(value);
    WireIsReadable(value);
    EncodingReads(js, wire);
    assert Encode(wire) + [] == Encode(wire);
    assert ScanValue(js, Encode(wire) + []) == Ok((ReadBack(wire), []));
    if WellFormed(value) {
      WellFormedIsWire(value);
      ComesBackIff(value);
    } else {
      ReadBackIsWellFormed(wire);
      if WellFormed(Canon(value)) {
        CanonWellFormed(value);
      }
    }
  }

  /** What Rust writes, whose strings are UTF-8, decodes alike. */
  lemma RustIsReadIff(js: Platform, value: Value)
    requires Standard(js) && JsValid(value) && WellFormed(value)
    ensures Decoded(js, Encode(value)) == Ok(Canon(value)) <==> NoMarks(value)
  {
    hide Encode, Canon, Decoded, NoMarks, WellFormed, JsEncode, JsValid;
    SameEncoding(value);
    JsRoundTripsIff(js, value);
  }

  /** On such a value the two decoders agree. */
  lemma DecodersAgree(js: Platform, value: Value)
    requires Standard(js) && JsValid(value) && Valid(value) && WellFormed(value) && NoMarks(value)
    ensures Decoded(js, Encode(value)) == Ok(Canon(value)) && FromSlice(Encode(value)) == Ok(Canon(value))
  {
    hide Encode, Canon, Decoded, FromSlice, NoMarks, WellFormed, JsValid, Valid;
    RustIsReadIff(js, value);
    EncodeThenDecode(value, []);
  }

  /** A text that is only a byte order mark comes back empty. */
  lemma MarkIsDropped(js: Platform)
    requires Standard(js)
    ensures Decoded(js, JsEncode(Text(ByteOrderMark()))) == Ok(Text([]))
  {
    var value := Text(ByteOrderMark());
    hide ScanValue;
    assert ValidUtf8(ByteOrderMark()) by { assert ByteOrderMark()[3..] == []; }
    SameEncoding(value);
    EncodingReads(js, value);
    assert Encode(value) + [] == Encode(value);
    assert ScanValue(js, Encode(value) + []) == Ok((ReadBack(value), []));
    assert ReadBack(value) == Text([]);
  }

  /** A text that is only a surrogate comes back as U+FFFD. */
  lemma SurrogateIsReplaced(js: Platform)
    requires Standard(js)
    ensures Decoded(js, JsEncode(Text([0xed, 0xa0, 0x80]))) == Ok(Text(Replacement()))
  {
    var value, wire := Text([0xed, 0xa0, 0x80]), Text(Replacement());
    hide ScanValue;
    assert ValidUtf8(Replacement()) by { assert Replacement()[3..] == []; }
    assert Wire(value) == wire by { assert [0xed, 0xa0, 0x80][3..] == [] && Replacement() + [] == Replacement(); }
    SameEncoding(value);
    EncodingReads(js, wire);
    assert Encode(wire) + [] == Encode(wire);
    assert ScanValue(js, Encode(wire) + []) == Ok((ReadBack(wire), []));
  }
}
