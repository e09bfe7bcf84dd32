/** Parsing Bencodex (bencodex/src/de.rs), on values: what each parser reads from
    the front of the input and what it leaves. */
module BencodexParse {
  import opened Wrappers
  import opened Bencodex

  datatype ParseError =
    | Eof
    | UnterminatedInteger
    | InvalidInteger
    | MissingColon
    | BadLength
    | LengthOverflow
    | InvalidUtf8
    | InvalidKey
    | MissingEnd
    | UnexpectedByte(b: byte)
    | TrailingBytes
    | NotASequence

  function IndexOf(s: Bytes, b: byte): (r: Option<nat>)
    ensures r.Some? ==> r.value < |s| && s[r.value] == b && b !in s[..r.value]
    ensures r.None? ==> b !in s
  {
    if s == [] then None
    else if s[0] == b then Some(0)
    else
      match IndexOf(s[1..], b)
      case None => None
      case Some(i) => Some(i + 1)
  }

  // ---------------------------------------------------------------------------
  // Numbers
  // ---------------------------------------------------------------------------

  predicate AllDigits(s: Bytes) { forall i :: 0 <= i < |s| ==> IsDigit(s[i]) }

  function DigitsValue(s: Bytes): nat
    requires AllDigits(s)
  {
    if s == [] then 0 else DigitsValue(s[..|s| - 1]) * 10 + (s[|s| - 1] as nat - 0x30)
  }

  /** An optional plus sign and at least one digit. */
  function ParseUnsigned(s: Bytes, limit: nat): Option<nat> {
    var digits := if s != [] && s[0] == PLUS then s[1..] else s;
    if digits == [] || !AllDigits(digits) || DigitsValue(digits) >= limit then None else Some(DigitsValue(digits))
  }

  /** As above, or a minus sign and digits, within 128 bits. */
  function ParseI128(s: Bytes): Option<int> {
    if s != [] && s[0] == MINUS then
      var digits := s[1..];
      if digits == [] || !AllDigits(digits) || DigitsValue(digits) > I128_LIMIT then None
      else
        var n: int := DigitsValue(digits);
        Some(-n)
    else
      match ParseUnsigned(s, I128_LIMIT)
      case Some(n) => Some(n)
      case None => None
  }

  predicate StartsMinusZero(s: Bytes) { |s| >= 2 && s[0] == MINUS && s[1] == ZERO }

  /** The leading 'i' has been read. */
  function ParseIntValue(input: Bytes): (r: Result<(int, Bytes), ParseError>)
    ensures r.Ok? ==> |r.value.1| < |input|
  {
    match IndexOf(input, END)
    case None => Err(UnterminatedInteger)
    case Some(end) =>
      var s := input[..end];
      if !ValidUtf8(s) then Err(InvalidUtf8)
      else if StartsMinusZero(s) || (|s| > 1 && s[0] == ZERO) then Err(InvalidInteger)
      else
        match ParseI128(s)
        case None => Err(InvalidInteger)
        case Some(v) => Ok((v, input[end + 1..]))
  }

  /** Where the byte string would end need not be an address at all: the sum
      overflows, and the source panics there instead of returning an error. */
  function ParseByteString(input: Bytes): (r: Result<(Bytes, Bytes), ParseError>)
    ensures r.Ok? ==> |r.value.1| < |input|
  {
    match IndexOf(input, COLON)
    case None => Err(MissingColon)
    case Some(colon) =>
      if !ValidUtf8(input[..colon]) then Err(InvalidUtf8)
      else
        match ParseUnsigned(input[..colon], USIZE_LIMIT)
        case None => Err(BadLength)
        case Some(len) =>
          var start := colon + 1;
          if start + len >= USIZE_LIMIT then Err(LengthOverflow)
          else if |input| < start + len then Err(Eof)
          else Ok((input[start..start + len], input[start + len..]))
  }

  function ParseText(input: Bytes): (r: Result<(Bytes, Bytes), ParseError>)
    ensures r.Ok? ==> |r.value.1| < |input|
  {
    match ParseByteString(input)
    case Err(e) => Err(e)
    case Ok((utf8, rest)) => if ValidUtf8(utf8) then Ok((utf8, rest)) else Err(InvalidUtf8)
  }

  // ---------------------------------------------------------------------------
  // Values
  // ---------------------------------------------------------------------------

  function ConsumeEnd(input: Bytes): Result<Bytes, ParseError> {
    if input == [] then Err(Eof) else if input[0] == END then Ok(input[1..]) else Err(MissingEnd)
  }

  function ParseValue(input: Bytes): (r: Result<(Value, Bytes), ParseError>)
    ensures r.Ok? ==> |r.value.1| < |input|
    decreases |input|, 0
  {
    if input == [] then Err(Eof)
    else
      var tag, rest := input[0], input[1..];
      if tag == TAG_NULL then Ok((Null, rest))
      else if tag == TAG_TRUE then Ok((Bool(true), rest))
      else if tag == TAG_FALSE then Ok((Bool(false), rest))
      else if tag == TAG_INT then
        (match ParseIntValue(rest)
         case Err(e) => Err(e)
         case Ok((v, after)) => Ok((Int(v), after)))
      else if tag == TAG_LIST then
        (match ParseItems(rest)
         case Err(e) => Err(e)
         case Ok((items, after)) =>
           match ConsumeEnd(after)
           case Err(e) => Err(e)
           case Ok(end) => Ok((List(items), end)))
      else if tag == TAG_DICT then
        (match ParseEntries(rest)
         case Err(e) => Err(e)
         case Ok((entries, after)) =>
           match ConsumeEnd(after)
           case Err(e) => Err(e)
           case Ok(end) => Ok((Dict(entries), end)))
      else if tag == TAG_TEXT then
        (match ParseText(rest)
         case Err(e) => Err(e)
         case Ok((utf8, after)) => Ok((Text(utf8), after)))
      else if IsDigit(tag) then
        (match ParseByteString(input)
         case Err(e) => Err(e)
         case Ok((bytes, after)) => Ok((ByteString(bytes), after)))
      else Err(UnexpectedByte(tag))
  }

  /** Elements up to the terminator, which is left for the caller. */
  function ParseItems(input: Bytes): (r: Result<(seq<Value>, Bytes), ParseError>)
    ensures r.Ok? ==> |r.value.1| <= |input|
    decreases |input|, 1
  {
    if input == [] then Err(Eof)
    else if input[0] == END then Ok(([], input))
    else
      match ParseValue(input)
      case Err(e) => Err(e)
      case Ok((item, rest)) =>
        match ParseItems(rest)
        case Err(e) => Err(e)
        case Ok((items, after)) => Ok(([item] + items, after))
  }

  function ParseKey(input: Bytes): (r: Result<(Key, Bytes), ParseError>)
    ensures r.Ok? ==> |r.value.1| < |input|
  {
    if input == [] then Err(Eof)
    else if input[0] == TAG_TEXT then
      (match ParseText(input[1..])
       case Err(e) => Err(e)
       case Ok((utf8, rest)) => Ok((TextKey(utf8), rest)))
    else if IsDigit(input[0]) then
      (match ParseByteString(input)
       case Err(e) => Err(e)
       case Ok((bytes, rest)) => Ok((BytesKey(bytes), rest)))
    else Err(InvalidKey)
  }

  function ParseEntries(input: Bytes): (r: Result<(seq<Entry<Value>>, Bytes), ParseError>)
    ensures r.Ok? ==> |r.value.1| <= |input|
    decreases |input|, 1
  {
    if input == [] then Err(Eof)
    else if input[0] == END then Ok(([], input))
    else
      match ParseKey(input)
      case Err(e) => Err(e)
      case Ok((key, afterKey)) =>
        match ParseValue(afterKey)
        case Err(e) => Err(e)
        case Ok((value, rest)) =>
          match ParseEntries(rest)
          case Err(e) => Err(e)
          case Ok((entries, after)) => Ok(([Entry(key, value)] + entries, after))
  }

  /** A whole message: nothing may follow the value. */
  function FromSlice(input: Bytes): Result<Value, ParseError> {
    match ParseValue(input)
    case Err(e) => Err(e)
    case Ok((value, rest)) => if rest == [] then Ok(value) else Err(TrailingBytes)
  }

  // ---------------------------------------------------------------------------
  // Round trip
  // ---------------------------------------------------------------------------

  lemma {:induction false} FoundAfterPrefix(prefix: Bytes, b: byte, rest: Bytes)
    requires b !in prefix
    ensures IndexOf(prefix + [b] + rest, b) == Some(|prefix|)
  {
    var s := prefix + [b] + rest;
    if prefix == [] {
      assert s[0] == b;
    } else {
      assert s[0] == prefix[0] && s[1..] == prefix[1..] + [b] + rest;
      FoundAfterPrefix(prefix[1..], b, rest);
    }
  }

  lemma {:induction false} DecimalRoundTrip(n: nat)
    ensures AllDigits(Decimal(n)) && DigitsValue(Decimal(n)) == n
  {
    if n >= 10 {
      DecimalRoundTrip(n / 10);
      assert Decimal(n)[..|Decimal(n)| - 1] == Decimal(n / 10);
    } else {
      assert Decimal(n)[..0] == [];
    }
  }

  lemma DecimalStart(n: nat)
    ensures |Decimal(n)| > 1 ==> Decimal(n)[0] != ZERO
    ensures END !in Decimal(n) && COLON !in Decimal(n) && PLUS !in Decimal(n) && MINUS !in Decimal(n)
  {
    forall b: byte | b in Decimal(n)
      ensures IsDigit(b)
    {
      var i :| 0 <= i < |Decimal(n)| && Decimal(n)[i] == b;
    }
  }

  lemma IntRoundTrip(v: int, suffix: Bytes)
    requires -I128_LIMIT <= v < I128_LIMIT
    ensures ParseIntValue(SignedDecimal(v) + [END] + suffix) == Ok((v, suffix))
  {
    var s := SignedDecimal(v);
    var n := if v < 0 then -v else v;
    DecimalRoundTrip(n);
    DecimalStart(n);
    FoundAfterPrefix(s, END, suffix);
    AsciiIsUtf8(s);
    var input := s + [END] + suffix;
    assert input[..|s|] == s && input[|s| + 1..] == suffix;
    if v < 0 {
      assert s[1..] == Decimal(n);
    }
  }

  lemma {:induction false} DecimalIsShort(n: nat)
    ensures |Decimal(n)| <= if n == 0 then 1 else n
  {
    if n >= 10 {
      DecimalIsShort(n / 10);
    }
  }

  lemma ByteStringRoundTrip(bytes: Bytes, suffix: Bytes)
    requires |bytes| < MEMORY_LIMIT
    ensures ParseByteString(EncodeBytes(bytes) + suffix) == Ok((bytes, suffix))
    ensures IsDigit(EncodeBytes(bytes)[0])
  {
    var s := Decimal(|bytes|);
    DecimalRoundTrip(|bytes|);
    DecimalIsShort(|bytes|);
    DecimalStart(|bytes|);
    FoundAfterPrefix(s, COLON, bytes + suffix);
    AsciiIsUtf8(s);
    var input := EncodeBytes(bytes) + suffix;
    assert input == s + [COLON] + (bytes + suffix);
    assert input[..|s|] == s;
    assert input[|s| + 1..|s| + 1 + |bytes|] == bytes && input[|s| + 1 + |bytes|..] == suffix;
  }

  /** A length in digits makes the parser panic, whatever follows it, exactly
      when it is itself an address but the end it leads to is not. */
  lemma LengthPanicsIff(digits: Bytes, suffix: Bytes)
    requires digits != [] && AllDigits(digits)
    ensures ParseByteString(digits + [COLON] + suffix) == Err(LengthOverflow)
            <==> DigitsValue(digits) < USIZE_LIMIT <= |digits| + 1 + DigitsValue(digits)
  {
    FoundAfterPrefix(digits, COLON, suffix);
    AsciiIsUtf8(digits);
    assert (digits + [COLON] + suffix)[..|digits|] == digits;
  }

  /** The greatest length that fits does so. */
  lemma GreatestLengthPanics(suffix: Bytes)
    ensures ParseByteString(Decimal(USIZE_LIMIT - 1) + [COLON] + suffix) == Err(LengthOverflow)
  {
    DecimalRoundTrip(USIZE_LIMIT - 1);
    hide ParseByteString, Decimal, DigitsValue;
    LengthPanicsIff(Decimal(USIZE_LIMIT - 1), suffix);
  }

  lemma TextRoundTrip(utf8: Bytes, suffix: Bytes)
    requires |utf8| < MEMORY_LIMIT && ValidUtf8(utf8)
    ensures EncodeText(utf8) + suffix != [] && (EncodeText(utf8) + suffix)[0] == TAG_TEXT
    ensures ParseText((EncodeText(utf8) + suffix)[1..]) == Ok((utf8, suffix))
  {
    hide ParseByteString, ValidUtf8, Decimal;
    ByteStringRoundTrip(utf8, suffix);
    assert (EncodeText(utf8) + suffix)[1..] == EncodeBytes(utf8) + suffix;
  }

  lemma KeyRoundTrip(key: Key, suffix: Bytes)
    requires ValidKey(key)
    ensures EncodeKey(key) != [] && EncodeKey(key)[0] != END
    ensures ParseKey(EncodeKey(key) + suffix) == Ok((key, suffix))
  {
    hide ParseByteString, ValidUtf8, Decimal;
    match key {
      case BytesKey(bytes) => ByteStringRoundTrip(bytes, suffix);
      case TextKey(utf8) => TextRoundTrip(utf8, suffix);
    }
  }

  /** The bytes parse to the value and leave whatever follows them. */
  ghost predicate Parses(encoded: Bytes, value: Value) {
    && encoded != [] && encoded[0] != END
    && forall suffix: Bytes :: ParseValue(encoded + suffix) == Ok((value, suffix))
  }

  /** An entry with its value's bytes and what they parse to. */
  datatype Both = Both(encoded: Bytes, value: Value)

  function EncodedPart(b: Both): Bytes { b.encoded }

  function ValuePart(b: Both): Value { b.value }

  lemma {:induction false} EntriesParse(es: seq<Entry<Both>>, suffix: Bytes)
    requires forall i :: 0 <= i < |es| ==> ValidKey(es[i].key) && Parses(es[i].value.encoded, es[i].value.value)
    ensures ParseEntries(WriteEntries(MapValues(EncodedPart, es)) + [END] + suffix)
            == Ok((MapValues(ValuePart, es), [END] + suffix))
    decreases |es|
  {
    hide ParseKey, ParseValue, EncodeKey, ValidKey, Insert;
    var written := WriteEntries(MapValues(EncodedPart, es));
    if es == [] {
      assert written + [END] + suffix == [END] + suffix;
    } else {
      EntriesParse(es[1..], suffix);
      assert MapValues(EncodedPart, es)[1..] == MapValues(EncodedPart, es[1..]);
      var rest := WriteEntries(MapValues(EncodedPart, es[1..])) + [END] + suffix;
      var e := es[0];
      assert written + [END] + suffix == EncodeKey(e.key) + (e.value.encoded + rest);
      KeyRoundTrip(e.key, e.value.encoded + rest);
      assert ParseValue(e.value.encoded + rest) == Ok((e.value.value, rest));
      assert MapValues(ValuePart, es) == [Entry(e.key, e.value.value)] + MapValues(ValuePart, es[1..]);
    }
  }

  lemma {:induction false} ItemsParse(encoded: seq<Bytes>, values: seq<Value>, suffix: Bytes)
    requires |encoded| == |values| && forall i :: 0 <= i < |encoded| ==> Parses(encoded[i], values[i])
    ensures ParseItems(Concat(encoded) + [END] + suffix) == Ok((values, [END] + suffix))
    decreases |encoded|
  {
    hide ParseValue;
    if encoded == [] {
      assert Concat(encoded) + [END] + suffix == [END] + suffix;
    } else {
      ItemsParse(encoded[1..], values[1..], suffix);
      var rest := Concat(encoded[1..]) + [END] + suffix;
      assert Concat(encoded) + [END] + suffix == encoded[0] + rest;
      assert ParseValue(encoded[0] + rest) == Ok((values[0], rest));
      assert values == [values[0]] + values[1..];
    }
  }

  lemma {:induction false} EncodedItems(items: seq<Value>)
    ensures
      var parts := seq(|items|, i requires 0 <= i < |items| => Encode(items[i]));
      && EncodeItems(items) == Concat(parts)
      && |CanonItems(items)| == |items| && forall i :: 0 <= i < |items| ==> CanonItems(items)[i] == Canon(items[i])
  {
    hide Encode, Canon;
    var parts := seq(|items|, i requires 0 <= i < |items| => Encode(items[i]));
    if items != [] {
      EncodedItems(items[1..]);
      assert parts[1..] == seq(|items[1..]|, i requires 0 <= i < |items[1..]| => Encode(items[1..][i]));
    }
  }

  lemma {:induction false} CanonEntriesMaps(a: seq<Entry<Value>>)
    ensures CanonEntries(a) == MapValues(Canon, a)
  {
    if a != [] {
      CanonEntriesMaps(a[1..]);
      assert MapValues(Canon, a)[1..] == MapValues(Canon, a[1..]);
    }
  }

  function Paired(entries: seq<Entry<Value>>): (r: seq<Entry<Both>>)
    ensures |r| == |entries|
  {
    MapValues((v: Value) => Both(Encode(v), Canon(v)), entries)
  }

  lemma SortedParts(entries: seq<Entry<Value>>)
    ensures Sort(EncodeEntries(entries)) == MapValues(EncodedPart, Sort(Paired(entries)))
    ensures Sort(CanonEntries(entries)) == MapValues(ValuePart, Sort(Paired(entries)))
  {
    hide Encode, Canon, KeyLess;
    var both := Paired(entries);
    EncodeEntriesMaps(entries);
    CanonEntriesMaps(entries);
    assert MapValues(EncodedPart, both) == MapValues(Encode, entries);
    assert MapValues(ValuePart, both) == MapValues(Canon, entries);
    SortCommutes(EncodedPart, both);
    SortCommutes(ValuePart, both);
  }

  lemma SortedKeepsAll(es: seq<Entry<Both>>)
    requires forall i :: 0 <= i < |es| ==> ValidKey(es[i].key) && Parses(es[i].value.encoded, es[i].value.value)
    ensures
      var sorted := Sort(es);
      forall i :: 0 <= i < |sorted| ==> ValidKey(sorted[i].key) && Parses(sorted[i].value.encoded, sorted[i].value.value)
  {
    hide ValidKey, Parses;
    var sorted := Sort(es);
    SortPermutes(es);
    forall i | 0 <= i < |sorted|
      ensures ValidKey(sorted[i].key) && Parses(sorted[i].value.encoded, sorted[i].value.value)
    {
      assert sorted[i] in multiset(sorted);
      var j :| 0 <= j < |es| && es[j] == sorted[i];
    }
  }

  lemma ListParses(items: seq<Value>)
    requires forall i :: 0 <= i < |items| ==> Parses(Encode(items[i]), Canon(items[i]))
    ensures Parses(Encode(List(items)), Canon(List(items)))
  {
    var parts := seq(|items|, i requires 0 <= i < |items| => Encode(items[i]));
    EncodedItems(items);
    hide Parses, Encode, Canon, ParseItems;
    assert Encode(List(items)) == [TAG_LIST] + EncodeItems(items) + [END] by { EncodedList(items); }
    assert Canon(List(items)) == List(CanonItems(items)) by { CanonList(items); }
    forall suffix: Bytes
      ensures ParseValue(Encode(List(items)) + suffix) == Ok((Canon(List(items)), suffix))
    {
      ItemsParse(parts, CanonItems(items), suffix);
      assert (Encode(List(items)) + suffix)[1..] == Concat(parts) + [END] + suffix;
      assert ([END] + suffix)[1..] == suffix;
    }
    ParsesIf(Encode(List(items)), Canon(List(items)));
  }

  lemma EncodedList(items: seq<Value>)
    ensures Encode(List(items)) == [TAG_LIST] + EncodeItems(items) + [END]
  {
  }

  lemma CanonList(items: seq<Value>)
    ensures Canon(List(items)) == List(CanonItems(items))
  {
  }

  lemma EncodedDict(entries: seq<Entry<Value>>)
    ensures Encode(Dict(entries)) == [TAG_DICT] + WriteEntries(Sort(EncodeEntries(entries))) + [END]
    ensures Canon(Dict(entries)) == Dict(Sort(CanonEntries(entries)))
  {
  }

  lemma ParsesIf(encoded: Bytes, value: Value)
    requires encoded != [] && encoded[0] != END
    requires forall suffix: Bytes :: ParseValue(encoded + suffix) == Ok((value, suffix))
    ensures Parses(encoded, value)
  {
  }

  lemma DictParses(entries: seq<Entry<Value>>)
    requires forall i :: 0 <= i < |entries| ==>
               ValidKey(entries[i].key) && Parses(Encode(entries[i].value), Canon(entries[i].value))
    ensures Parses(Encode(Dict(entries)), Canon(Dict(entries)))
  {
    hide Parses, Encode, Canon, ParseEntries, ValidKey, Sort;
    var sorted := Sort(Paired(entries));
    EncodedDict(entries);
    SortedParts(entries);
    SortedKeepsAll(Paired(entries));
    forall suffix: Bytes
      ensures ParseValue(Encode(Dict(entries)) + suffix) == Ok((Canon(Dict(entries)), suffix))
    {
      EntriesParse(sorted, suffix);
      assert (Encode(Dict(entries)) + suffix)[1..] == WriteEntries(MapValues(EncodedPart, sorted)) + [END] + suffix;
      assert ([END] + suffix)[1..] == suffix;
    }
    ParsesIf(Encode(Dict(entries)), Canon(Dict(entries)));
  }

  lemma ScalarParses(value: Value)
    requires Valid(value) && !value.List? && !value.Dict?
    ensures Parses(Encode(value), Canon(value))
  {
    hide ParseIntValue, ParseByteString, ParseText, ValidUtf8, Decimal, SignedDecimal;
    var encoded := Encode(value);
    forall suffix: Bytes
      ensures ParseValue(encoded + suffix) == Ok((value, suffix)) && encoded != [] && encoded[0] != END
    {
      match value {
        case Null => assert (encoded + suffix)[1..] == suffix;
        case Bool(_) => assert (encoded + suffix)[1..] == suffix;
        case Int(v) =>
          IntRoundTrip(v, suffix);
          assert (encoded + suffix)[1..] == SignedDecimal(v) + [END] + suffix;
        case ByteString(bytes) => ByteStringRoundTrip(bytes, suffix);
        case Text(utf8) => TextRoundTrip(utf8, suffix);
      }
    }
    assert ParseValue(encoded + []) == Ok((value, []));
  }

  /** Parsing an encoding gives the value back, with its dictionaries in key
      order, and leaves exactly what follows. */
  lemma {:induction false} RoundTrip(value: Value)
    requires Valid(value)
    ensures Parses(Encode(value), Canon(value))
    decreases value
  {
    hide Parses, Encode, Canon;
    match value {
      case List(items) =>
        forall i | 0 <= i < |items|
          ensures Parses(Encode(items[i]), Canon(items[i]))
        {
          RoundTrip(items[i]);
        }
        ListParses(items);
      case Dict(entries) =>
        forall i | 0 <= i < |entries|
          ensures Parses(Encode(entries[i].value), Canon(entries[i].value))
        {
          RoundTripEntry(entries[i]);
        }
        DictParses(entries);
      case _ => ScalarParses(value);
    }
  }

  lemma {:induction false} RoundTripEntry(e: Entry<Value>)
    requires Valid(e.value)
    ensures Parses(Encode(e.value), Canon(e.value))
    decreases e
  {
    RoundTrip(e.value);
  }

  lemma EncodeThenDecode(value: Value, suffix: Bytes)
    requires Valid(value)
    ensures ParseValue(Encode(value) + suffix) == Ok((Canon(value), suffix))
    ensures FromSlice(Encode(value)) == Ok(Canon(value))
    ensures suffix != [] ==> FromSlice(Encode(value) + suffix) == Err(TrailingBytes)
  {
    hide ParseValue, Encode, Canon;
    RoundTrip(value);
    assert Encode(value) + [] == Encode(value);
    assert ParseValue(Encode(value) + []) == Ok((Canon(value), []));
  }

  // --- 128-bit unsigned integers -------------------------------------------------------

  /** The serializer casts an unsigned 128-bit integer to a signed one. */
  function AsI128(v: nat): int
    requires v < 2 * I128_LIMIT
  {
    if v < I128_LIMIT then v else v - 2 * I128_LIMIT
  }

  /** So such an integer comes back exactly when it is below 2^127. */
  lemma U128RoundTripsIff(v: nat)
    requires v < 2 * I128_LIMIT
    ensures FromSlice(EncodeInt(AsI128(v))) == Ok(Int(v)) <==> v < I128_LIMIT
  {
    hide ParseValue, Canon;
    EncodeThenDecode(Int(AsI128(v)), []);
    assert Encode(Int(AsI128(v))) == EncodeInt(AsI128(v));
    assert Canon(Int(AsI128(v))) == Int(AsI128(v)) by { CanonScalar(AsI128(v)); }
  }

  lemma CanonScalar(v: int)
    ensures Canon(Int(v)) == Int(v)
  {
  }
}
