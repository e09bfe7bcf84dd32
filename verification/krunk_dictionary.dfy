/** Krunk's signed dictionary (src/games/krunk_dict_tree.rs): a balanced tree
    whose leaves are signatures over the gaps between the listed words. */
module KrunkDictionary {
  import opened Wrappers
  import opened Sexps

  // ---------------------------------------------------------------------------
  // Five-byte words
  // ---------------------------------------------------------------------------

  type Word = w: Bytes | |w| == 5 witness [0, 0, 0, 0, 0]

  const LIMIT: nat := 0x100_0000_0000
  const HALF: nat := 0x80_0000_0000

  const MIN_WORD: Word := [0x80, 0, 0, 0, 0]
  const MAX_WORD: Word := [0x7f, 0xff, 0xff, 0xff, 0xff]

  /** The word read as a big-endian number. */
  function Value(w: Word): (v: nat)
    ensures v < LIMIT
  {
    w[0] as nat * 0x1_0000_0000 + w[1] as nat * 0x100_0000 + w[2] as nat * 0x1_0000 + w[3] as nat * 0x100 + w[4] as nat
  }

  /** The word read as a two's complement number. */
  function Signed(w: Word): int {
    if Value(w) < HALF then Value(w) else Value(w) - LIMIT
  }

  function WordOf(v: nat): (w: Word)
    requires v < LIMIT
    ensures Value(w) == v
  {
    var q1 := v / 256;
    var q2 := q1 / 256;
    var q3 := q2 / 256;
    [(q3 / 256) as byte, (q3 % 256) as byte, (q2 % 256) as byte, (q1 % 256) as byte, (v % 256) as byte]
  }

  lemma ValueIsInjective(a: Word, b: Word)
    requires Value(a) == Value(b)
    ensures a == b
  {
    assert a[0] == b[0] && a[1] == b[1] && a[2] == b[2] && a[3] == b[3] && a[4] == b[4];
  }

  lemma LessStep(a: Bytes, b: Bytes, k: nat)
    requires |a| == |b| && k < |a|
    ensures BytesLess(a[k..], b[k..]) <==> a[k] < b[k] || (a[k] == b[k] && BytesLess(a[k + 1..], b[k + 1..]))
  {
    assert a[k..][1..] == a[k + 1..] && b[k..][1..] == b[k + 1..];
  }

  /** On words the byte order is the numeric order. */
  lemma LessIffValue(a: Word, b: Word)
    ensures BytesLess(a, b) <==> Value(a) < Value(b)
  {
    assert a[0..] == a && b[0..] == b && !BytesLess(a[5..], b[5..]);
    LessStep(a, b, 0);
    LessStep(a, b, 1);
    LessStep(a, b, 2);
    LessStep(a, b, 3);
    LessStep(a, b, 4);
  }

  function AddOne(w: Word): (r: Word)
    ensures Value(r) == if Value(w) == LIMIT - 1 then 0 else Value(w) + 1
  {
    var v := Value(w);
    WordOf(if v == LIMIT - 1 then 0 else v + 1)
  }

  function SubOne(w: Word): (r: Word)
    ensures Value(r) == if Value(w) == 0 then LIMIT - 1 else Value(w) - 1
  {
    var v := Value(w);
    WordOf(if v == 0 then LIMIT - 1 else v - 1)
  }

  /** Carries from the last byte; wraps around at the largest value. */
  method WordAddOne(word: Word) returns (r: Word)
    ensures r == AddOne(word)
  {
    hide WordOf, BytesLess;
    var result := new byte[5](i requires 0 <= i < 5 => word[i]);
    var carry := true;
    var i := 5;
    while i > 0
      invariant 0 <= i <= 5
      invariant forall k :: 0 <= k < i ==> result[k] == word[k]
      invariant carry ==> forall k :: i <= k < 5 ==> word[k] == 255 && result[k] == 0
      invariant !carry ==> i < 5 && Value(result[..]) == Value(word) + 1
    {
      i := i - 1;
      if carry {
        carry := result[i] == 255;
        result[i] := if result[i] == 255 then 0 else result[i] + 1;
        assert result[..] == [result[0], result[1], result[2], result[3], result[4]];
      }
    }
    assert result[..] == [result[0], result[1], result[2], result[3], result[4]];
    r := result[..];
    ValueIsInjective(r, AddOne(word));
  }

  /** Borrows from the last byte; wraps around at zero. */
  method WordSubOne(word: Word) returns (r: Word)
    ensures r == SubOne(word)
  {
    hide WordOf, BytesLess;
    var result := new byte[5](i requires 0 <= i < 5 => word[i]);
    var borrow := true;
    var i := 5;
    while i > 0
      invariant 0 <= i <= 5
      invariant forall k :: 0 <= k < i ==> result[k] == word[k]
      invariant borrow ==> forall k :: i <= k < 5 ==> word[k] == 0 && result[k] == 255
      invariant !borrow ==> i < 5 && Value(result[..]) == Value(word) - 1
    {
      i := i - 1;
      if borrow {
        borrow := result[i] == 0;
        result[i] := if result[i] == 0 then 255 else result[i] - 1;
        assert result[..] == [result[0], result[1], result[2], result[3], result[4]];
      }
    }
    assert result[..] == [result[0], result[1], result[2], result[3], result[4]];
    r := result[..];
    ValueIsInjective(r, SubOne(word));
  }

  // ---------------------------------------------------------------------------
  // Gaps
  // ---------------------------------------------------------------------------

  function GapLeft(words: seq<Word>, i: nat): Word
    requires i <= |words|
  {
    if i == 0 then MIN_WORD else AddOne(words[i - 1])
  }

  function GapRight(words: seq<Word>, i: nat): Word
    requires i <= |words|
  {
    if i == |words| then MAX_WORD else SubOne(words[i])
  }

  /** Evidence is ten bytes: the two bounds of a gap. */
  function Blob(left: Word, right: Word): Bytes { left + right }

  function Gap(words: seq<Word>, i: nat): Bytes
    requires i <= |words|
  {
    Blob(GapLeft(words, i), GapRight(words, i))
  }

  /** Whether the code gives gap i a signature at all. */
  predicate Reachable(words: seq<Word>, i: nat)
    requires i <= |words|
  {
    if words == [] then true
    else if i == 0 then words[0] != MIN_WORD
    else if i == |words| then words[i - 1] != MAX_WORD
    else !BytesLess(GapRight(words, i), GapLeft(words, i))
  }

  /** Evidence of the reachable gaps among the first k. */
  function Gaps(words: seq<Word>, k: nat): seq<Bytes>
    requires k <= |words| + 1
  {
    if k == 0 then [] else Gaps(words, k - 1) + (if Reachable(words, k - 1) then [Gap(words, k - 1)] else [])
  }

  method GenerateGapEvidence(words: seq<Word>) returns (gaps: seq<Bytes>)
    ensures gaps == Gaps(words, |words| + 1)
  {
    hide Value, AddOne, SubOne, WordOf, BytesLess;
    var n := |words|;
    gaps := [];
    if n == 0 {
      assert Gaps(words, 0) == [];
      return [Blob(MIN_WORD, MAX_WORD)];
    }
    if words[0] != MIN_WORD {
      var right := WordSubOne(words[0]);
      gaps := [Blob(MIN_WORD, right)];
    }
    assert gaps == Gaps(words, 0) + gaps;
    var i := 1;
    while i < n
      invariant 1 <= i <= n && gaps == Gaps(words, i)
    {
      var left := WordAddOne(words[i - 1]);
      var right := WordSubOne(words[i]);
      if !BytesLess(right, left) {
        gaps := gaps + [Blob(left, right)];
      }
      i := i + 1;
    }
    if words[n - 1] != MAX_WORD {
      var left := WordAddOne(words[n - 1]);
      gaps := gaps + [Blob(left, MAX_WORD)];
    }
  }

  method ReachableGapMask(words: seq<Word>) returns (mask: seq<bool>)
    ensures |mask| == |words| + 1 && forall i :: 0 <= i < |mask| ==> mask[i] == Reachable(words, i)
  {
    hide Value, AddOne, SubOne, WordOf, BytesLess;
    var n := |words|;
    if n == 0 {
      return [true];
    }
    mask := [words[0] != MIN_WORD];
    var i := 1;
    while i < n
      invariant 1 <= i <= n && |mask| == i
      invariant forall k :: 0 <= k < i ==> mask[k] == Reachable(words, k)
    {
      var left := WordAddOne(words[i - 1]);
      var right := WordSubOne(words[i]);
      mask := mask + [!BytesLess(right, left)];
      i := i + 1;
    }
    mask := mask + [words[n - 1] != MAX_WORD];
  }

  // ---------------------------------------------------------------------------
  // Signatures
  // ---------------------------------------------------------------------------

  /** A signature as its 96 bytes. */
  type Sig = b: Bytes | |b| == 96 witness seq(96, i => 0)

  function DefaultSig(): Sig { [0xc0] + seq(95, i => 0) }

  /** Position of gap i among the reachable ones. */
  function CompactIndex(words: seq<Word>, i: nat): nat
    requires i <= |words| + 1
  {
    |Gaps(words, i)|
  }

  /** The compact index of a reachable gap is in range and finds its evidence. */
  lemma {:induction false} CompactIndexFits(words: seq<Word>, i: nat, k: nat)
    requires i < k <= |words| + 1 && Reachable(words, i)
    ensures CompactIndex(words, i) < |Gaps(words, k)|
    ensures Gaps(words, k)[CompactIndex(words, i)] == Gap(words, i)
    decreases k
  {
    hide Reachable, Gap;
    if i < k - 1 {
      CompactIndexFits(words, i, k - 1);
    }
  }

  function SignatureAt(words: seq<Word>, compact: seq<Sig>, i: nat): Sig
    requires |compact| >= |Gaps(words, |words| + 1)| && i <= |words|
  {
    if Reachable(words, i) && CompactIndex(words, i) < |compact| then compact[CompactIndex(words, i)] else DefaultSig()
  }

  /** Signatures of the first k gaps, reachable or not. */
  function Expanded(words: seq<Word>, compact: seq<Sig>, k: nat): (full: seq<Sig>)
    requires |compact| >= |Gaps(words, |words| + 1)| && k <= |words| + 1
    ensures |full| == k && forall i :: 0 <= i < k ==> full[i] == SignatureAt(words, compact, i)
  {
    if k == 0 then [] else Expanded(words, compact, k - 1) + [SignatureAt(words, compact, k - 1)]
  }

  /** With one signature for each piece of evidence the index never runs out. */
  method ExpandSignaturesForTree(words: seq<Word>, compact: seq<Sig>) returns (full: seq<Sig>)
    requires |compact| >= |Gaps(words, |words| + 1)|
    ensures full == Expanded(words, compact, |words| + 1)
  {
    hide Reachable, Gap;
    var mask := ReachableGapMask(words);
    full := [];
    var index := 0;
    var i := 0;
    while i < |mask|
      invariant 0 <= i <= |mask| && |full| == i
      invariant index == CompactIndex(words, i)
      invariant full == Expanded(words, compact, i)
    {
      if mask[i] {
        CompactIndexFits(words, i, |words| + 1);
        full := full + [compact[index]];
        index := index + 1;
      } else {
        full := full + [DefaultSig()];
      }
      i := i + 1;
    }
  }

  // ---------------------------------------------------------------------------
  // The tree
  // ---------------------------------------------------------------------------

  /** Interior node: left, right, word; leaf: the signature of a gap. */
  function SignedTree(words: seq<Word>, sigs: seq<Sig>, gapOffset: nat): Sexp
    requires gapOffset + |words| < |sigs|
    decreases |words|
  {
    if words == [] then Atom(sigs[gapOffset])
    else
      var mid := |words| / 2;
      Pair(
        SignedTree(words[..mid], sigs, gapOffset),
        Pair(SignedTree(words[mid + 1..], sigs, gapOffset + mid + 1), Pair(Atom(words[mid]), NIL)))
  }

  /** Some atoms of 96 bytes are not points of the curve; `isPoint` says which are. */
  function LookupFrom(isPoint: Bytes -> bool, node: Sexp, word: Word): Option<Bytes> {
    match node
    case Atom(bytes) => if |bytes| == 96 && isPoint(bytes) then Some(bytes) else None
    case Pair(left, Pair(right, Pair(Atom(here), _))) =>
      if here == word then None
      else if BytesLess(here, word) then LookupFrom(isPoint, right, word)
      else LookupFrom(isPoint, left, word)
    case _ => None
  }

  method LookupGapSignature(isPoint: Bytes -> bool, tree: Sexp, word: Word) returns (r: Option<Bytes>)
    requires WellShaped(tree)
    ensures r == LookupFrom(isPoint, tree, word)
  {
    var node := tree;
    while true
      invariant LookupFrom(isPoint, tree, word) == LookupFrom(isPoint, node, word) && WellShaped(node)
      decreases node
    {
      match node {
        case Atom(bytes) =>
          if |bytes| == 96 && isPoint(bytes) {
            return Some(bytes);
          }
          return None;
        case Pair(left, rest) =>
          if rest.Atom? { return None; }
          var rightNode, tail := rest.left, rest.right;
          if tail.Atom? { return None; }
          var here := tail.left.bytes;
          if here == word {
            return None;
          }
          if BytesLess(here, word) {
            node := rightNode;
          } else {
            node := left;
          }
      }
    }
  }

  /** Where a word is expected there is an atom: the allocator's atom accessor
      is only defined on atoms. */
  predicate WellShaped(node: Sexp) {
    node.Pair? && node.right.Pair? ==>
      && WellShaped(node.left) && WellShaped(node.right.left)
      && (node.right.right.Pair? ==> node.right.right.left.Atom?)
  }

  lemma {:induction false} SignedTreeIsWellShaped(words: seq<Word>, sigs: seq<Sig>, gapOffset: nat)
    requires gapOffset + |words| < |sigs|
    ensures WellShaped(SignedTree(words, sigs, gapOffset))
    decreases |words|
  {
    if words != [] {
      var mid := |words| / 2;
      SignedTreeIsWellShaped(words[..mid], sigs, gapOffset);
      SignedTreeIsWellShaped(words[mid + 1..], sigs, gapOffset + mid + 1);
    }
  }

  function SignedDepth(tree: Sexp): nat {
    match tree
    case Pair(left, Pair(right, _)) =>
      1 + (if SignedDepth(left) >= SignedDepth(right) then SignedDepth(left) else SignedDepth(right))
    case _ => 0
  }

  /** With fewer than 2^d words a lookup makes at most d comparisons. */
  lemma {:induction false} SignedTreeIsBalanced(words: seq<Word>, sigs: seq<Sig>, gapOffset: nat, d: nat)
    requires gapOffset + |words| < |sigs| && |words| < PowerOfTwo(d)
    ensures SignedDepth(SignedTree(words, sigs, gapOffset)) <= d
    decreases |words|
  {
    if words != [] {
      var mid := |words| / 2;
      SignedTreeIsBalanced(words[..mid], sigs, gapOffset, d - 1);
      SignedTreeIsBalanced(words[mid + 1..], sigs, gapOffset + mid + 1, d - 1);
    }
  }

  ghost predicate StrictlySorted(words: seq<Word>) {
    forall i, j :: 0 <= i < j < |words| ==> Value(words[i]) < Value(words[j])
  }

  /** Linear scan: how many listed words come before the query. */
  function Rank(words: seq<Word>, query: Word): (r: nat)
    ensures r <= |words|
  {
    if words == [] then 0 else (if BytesLess(words[0], query) then 1 else 0) + Rank(words[1..], query)
  }

  /** In a sorted list the rank is the position of the query. */
  lemma {:induction false} RankIsPosition(words: seq<Word>, query: Word)
    requires StrictlySorted(words)
    ensures
      var r := Rank(words, query);
      && (forall i :: 0 <= i < r ==> Value(words[i]) < Value(query))
      && (forall i :: r <= i < |words| ==> Value(query) <= Value(words[i]))
  {
    hide Value, BytesLess;
    if words != [] {
      LessIffValue(words[0], query);
      assert forall i :: 0 <= i < |words[1..]| ==> words[1..][i] == words[i + 1];
      RankIsPosition(words[1..], query);
    }
  }

  lemma RankFromPosition(words: seq<Word>, query: Word, r: nat)
    requires StrictlySorted(words) && r <= |words|
    requires forall i :: 0 <= i < r ==> Value(words[i]) < Value(query)
    requires forall i :: r <= i < |words| ==> Value(query) <= Value(words[i])
    ensures Rank(words, query) == r
  {
    hide Value, BytesLess, Rank;
    RankIsPosition(words, query);
    var q := Rank(words, query);
    var k := if q < r then q else r;
    assert k < |words| ==> (Value(words[k]) < Value(query) <==> k < q) && (Value(words[k]) < Value(query) <==> k < r);
  }

  /** The tree agrees with a linear scan of the sorted list: nothing for a
      listed word, and for any other the signature at its rank. */
  lemma {:induction false} LookupIsRank(
    isPoint: Bytes -> bool, words: seq<Word>, sigs: seq<Sig>, gapOffset: nat, query: Word)
    requires StrictlySorted(words) && gapOffset + |words| < |sigs|
    requires forall i :: 0 <= i < |sigs| ==> isPoint(sigs[i])
    ensures
      var r := LookupFrom(isPoint, SignedTree(words, sigs, gapOffset), query);
      r == if query in words then None else Some(sigs[gapOffset + Rank(words, query)])
    decreases |words|
  {
    hide Value, BytesLess, Rank, StrictlySorted;
    if words == [] {
      assert Rank(words, query) == 0;
    } else {
      var mid := |words| / 2;
      LookupStep(isPoint, words, sigs, gapOffset, query);
      hide SignedTree, LookupFrom;
      HalvesAreSorted(words, mid);
      if words[mid] == query {
        assert query in words;
      } else {
        RankInHalf(words, mid, query);
        if BytesLess(words[mid], query) {
          LookupIsRank(isPoint, words[mid + 1..], sigs, gapOffset + mid + 1, query);
        } else {
          LookupIsRank(isPoint, words[..mid], sigs, gapOffset, query);
        }
      }
    }
  }

  lemma LookupStep(isPoint: Bytes -> bool, words: seq<Word>, sigs: seq<Sig>, gapOffset: nat, query: Word)
    requires words != [] && gapOffset + |words| < |sigs|
    ensures
      var mid := |words| / 2;
      LookupFrom(isPoint, SignedTree(words, sigs, gapOffset), query)
      == if words[mid] == query then None
         else if BytesLess(words[mid], query) then
           LookupFrom(isPoint, SignedTree(words[mid + 1..], sigs, gapOffset + mid + 1), query)
         else LookupFrom(isPoint, SignedTree(words[..mid], sigs, gapOffset), query)
  {
    hide BytesLess;
  }

  lemma HalvesAreSorted(words: seq<Word>, mid: nat)
    requires StrictlySorted(words) && mid < |words|
    ensures StrictlySorted(words[..mid]) && StrictlySorted(words[mid + 1..])
  {
    hide Value;
  }

  /** One comparison with the middle word leaves the half that holds the answer. */
  lemma RankInHalf(words: seq<Word>, mid: nat, query: Word)
    requires StrictlySorted(words) && mid < |words| && words[mid] != query
    ensures BytesLess(words[mid], query) ==>
              && (query in words <==> query in words[mid + 1..])
              && Rank(words, query) == mid + 1 + Rank(words[mid + 1..], query)
    ensures !BytesLess(words[mid], query) ==>
              && (query in words <==> query in words[..mid])
              && Rank(words, query) == Rank(words[..mid], query)
  {
    hide Value, BytesLess, Rank;
    var r := Rank(words, query);
    HalvesAreSorted(words, mid);
    RankIsPosition(words, query);
    LessIffValue(words[mid], query);
    if BytesLess(words[mid], query) {
      RankFromPosition(words[mid + 1..], query, r - mid - 1);
    } else {
      NotLessMeansGreater(query, words[mid]);
      RankFromPosition(words[..mid], query, r);
    }
    MembershipSplits(words, mid, query);
  }

  lemma NotLessMeansGreater(a: Word, b: Word)
    requires !BytesLess(b, a) && a != b
    ensures Value(a) < Value(b)
  {
    hide Value;
    LessIffValue(b, a);
    if Value(a) == Value(b) {
      ValueIsInjective(a, b);
    }
  }

  lemma MembershipSplits(words: seq<Word>, mid: nat, query: Word)
    requires StrictlySorted(words) && mid < |words| && words[mid] != query
    ensures Value(words[mid]) < Value(query) ==> (query in words <==> query in words[mid + 1..])
    ensures Value(query) < Value(words[mid]) ==> (query in words <==> query in words[..mid])
  {
  }

  // ---------------------------------------------------------------------------
  // The whole dictionary
  // ---------------------------------------------------------------------------

  predicate TopBitClear(w: Word) { w[0] < 0x80 }

  lemma TopBitClearIff(w: Word)
    ensures TopBitClear(w) <==> Value(w) < HALF
  {
  }

  /** Whether the evidence of gap i bounds the query from both sides. */
  predicate Encloses(words: seq<Word>, i: nat, query: Word)
    requires i <= |words|
  {
    Signed(GapLeft(words, i)) <= Signed(query) <= Signed(GapRight(words, i))
  }

  /** No listed word lies within the evidence of gap i. */
  predicate LeavesOutWords(words: seq<Word>, i: nat)
    requires i <= |words|
  {
    forall k :: 0 <= k < |words| ==>
      Signed(words[k]) < Signed(GapLeft(words, i)) || Signed(GapRight(words, i)) < Signed(words[k])
  }

  lemma GapBounds(words: seq<Word>, i: nat)
    requires i <= |words| && forall k :: 0 <= k < |words| ==> Value(words[k]) < HALF
    ensures i == 0 || Value(words[i - 1]) == HALF - 1 ==> Signed(GapLeft(words, i)) + HALF == 0
    ensures i > 0 && Value(words[i - 1]) < HALF - 1 ==> Signed(GapLeft(words, i)) == Value(words[i - 1]) + 1
    ensures i == |words| ==> Signed(GapRight(words, i)) == HALF - 1
    ensures i < |words| ==> Signed(GapRight(words, i)) == Value(words[i]) - 1
  {
    hide WordOf;
    if 0 < i { assert Value(words[i - 1]) < HALF; }
    if i < |words| { assert Value(words[i]) < HALF; }
    assert Value(MIN_WORD) == HALF && Value(MAX_WORD) == HALF - 1;
    hide Value;
  }

  lemma ReachableIff(words: seq<Word>, i: nat)
    requires i <= |words| && StrictlySorted(words) && forall k :: 0 <= k < |words| ==> Value(words[k]) < HALF
    ensures Reachable(words, i) <==>
              || words == [] || i == 0
              || (if i == |words| then Value(words[i - 1]) < HALF - 1 else Value(words[i - 1]) + 1 < Value(words[i]))
  {
    hide WordOf;
    assert Value(MIN_WORD) == HALF && Value(MAX_WORD) == HALF - 1;
    hide Value, BytesLess;
    if words != [] && i == |words| && Value(words[i - 1]) == HALF - 1 {
      ValueIsInjective(words[i - 1], MAX_WORD);
    }
    if 0 < i < |words| {
      assert Value(words[i - 1]) < Value(words[i]) < HALF;
      LessIffValue(GapRight(words, i), GapLeft(words, i));
    }
  }

  /** The gap an unlisted query falls into is reachable, with bounds around the
      query, exactly when the query's top bit is clear or no word is listed: the
      search goes by unsigned order and the bounds are signed.  Of listed words
      the bounds of a reachable gap leave out every one. */
  lemma GapAtRank(words: seq<Word>, query: Word)
    requires StrictlySorted(words) && query !in words
    requires forall i :: 0 <= i < |words| ==> TopBitClear(words[i])
    ensures
      var r := Rank(words, query);
      && (Reachable(words, r) && Encloses(words, r, query) <==> words == [] || TopBitClear(query))
      && (Reachable(words, r) ==> LeavesOutWords(words, r))
  {
    hide Value, GapLeft, GapRight, BytesLess, TopBitClear, Reachable, Rank;
    var r := Rank(words, query);
    RankIsPosition(words, query);
    TopBitClearIff(query);
    forall i | 0 <= i < |words|
      ensures Value(words[i]) < HALF && Value(words[i]) != Value(query)
    {
      TopBitClearIff(words[i]);
      if Value(words[i]) == Value(query) {
        ValueIsInjective(words[i], query);
      }
    }
    GapBounds(words, r);
    ReachableIff(words, r);
    assert 0 < r < |words| ==> Value(words[r - 1]) < Value(query) < Value(words[r]);
  }

  /** What a slashing party gets out of the dictionary both sides signed: for
      every sorted list of words and every query, nothing when the word is
      listed, otherwise the signature made for the evidence of its gap, or the
      default one where a gap has none.  That evidence proves the query unlisted
      exactly when the query's top bit is clear or no word is listed. */
  lemma DictionaryRefinesWordList(isPoint: Bytes -> bool, words: seq<Word>, compact: seq<Sig>, query: Word)
    requires StrictlySorted(words)
    requires forall i :: 0 <= i < |words| ==> TopBitClear(words[i])
    requires |compact| == |Gaps(words, |words| + 1)|
    requires isPoint(DefaultSig()) && forall i :: 0 <= i < |compact| ==> isPoint(compact[i])
    ensures
      var found := LookupFrom(isPoint, SignedTree(words, Expanded(words, compact, |words| + 1), 0), query);
      && (found.None? <==> query in words)
      && (found.Some? ==>
            var r := Rank(words, query);
            var j := CompactIndex(words, r);
            && (Reachable(words, r) && Encloses(words, r, query) <==> words == [] || TopBitClear(query))
            && if Reachable(words, r) then
                 && j < |compact| && found.value == compact[j]
                 && Gaps(words, |words| + 1)[j] == Blob(GapLeft(words, r), GapRight(words, r))
                 && LeavesOutWords(words, r)
               else found.value == DefaultSig())
  {
    hide Value, Signed, BytesLess, Rank, Reachable, GapLeft, GapRight, WellShaped, Encloses, LeavesOutWords, StrictlySorted,
         TopBitClear;
    var full := Expanded(words, compact, |words| + 1);
    forall i | 0 <= i < |full|
      ensures isPoint(full[i])
    {
      if Reachable(words, i) {
        CompactIndexFits(words, i, |words| + 1);
      }
    }
    LookupIsRank(isPoint, words, full, 0, query);
    if query !in words {
      var r := Rank(words, query);
      GapAtRank(words, query);
      if Reachable(words, r) {
        CompactIndexFits(words, r, |words| + 1);
      }
    }
  }

  // ---------------------------------------------------------------------------
  // The unsigned tree
  // ---------------------------------------------------------------------------

  /** Interior node: left, word, right; leaf: nil. */
  function DictTree(words: seq<Word>): Sexp
    decreases |words|
  {
    if words == [] then NIL
    else
      var mid := |words| / 2;
      Pair(DictTree(words[..mid]), Pair(Atom(words[mid]), Pair(DictTree(words[mid + 1..]), NIL)))
  }

  function InOrder(tree: Sexp): seq<Bytes> {
    match tree
    case Pair(left, Pair(Atom(word), Pair(right, _))) => InOrder(left) + [word] + InOrder(right)
    case _ => []
  }

  function Depth(tree: Sexp): nat {
    match tree
    case Pair(left, Pair(_, Pair(right, _))) =>
      1 + (if Depth(left) >= Depth(right) then Depth(left) else Depth(right))
    case _ => 0
  }

  function PowerOfTwo(n: nat): nat { if n == 0 then 1 else 2 * PowerOfTwo(n - 1) }

  /** The tree lists the words in order, and a list of fewer than 2^d words
      needs at most d comparisons. */
  lemma {:induction false} DictTreeIsBalanced(words: seq<Word>, d: nat)
    requires |words| < PowerOfTwo(d)
    ensures InOrder(DictTree(words)) == words && Depth(DictTree(words)) <= d
    decreases |words|
  {
    if words != [] {
      var mid := |words| / 2;
      DictTreeIsBalanced(words[..mid], d - 1);
      DictTreeIsBalanced(words[mid + 1..], d - 1);
      assert words == words[..mid] + [words[mid]] + words[mid + 1..];
    }
  }
}
