/** Hashing a curried program without building it (src/common/standard_coin.rs). */
module CurriedHash {
  import opened Wrappers
  import opened Sexps

  /** SHA-256 is any function from byte strings to digests. */
  type Sha = Bytes -> Bytes

  // ---------------------------------------------------------------------------
  // Structured hash input
  // ---------------------------------------------------------------------------

  datatype ShaInput =
    | Raw(bytes: Bytes)
    | Digest(digest: Bytes)
    | Hashed(inputs: seq<ShaInput>)
    | Array(inputs: seq<ShaInput>)

  /** The bytes an input feeds to the hasher. */
  function Fed(sha: Sha, input: ShaInput): Bytes
    decreases input
  {
    match input
    case Raw(bytes) => bytes
    case Digest(digest) => digest
    case Hashed(inputs) => sha(FedAll(sha, inputs))
    case Array(inputs) => FedAll(sha, inputs)
  }

  function FedAll(sha: Sha, inputs: seq<ShaInput>): Bytes
    decreases inputs
  {
    if inputs == [] then [] else Fed(sha, inputs[0]) + FedAll(sha, inputs[1..])
  }

  function HashOf(sha: Sha, input: ShaInput): Bytes { sha(Fed(sha, input)) }

  lemma FedTwo(sha: Sha, a: ShaInput, b: ShaInput)
    ensures FedAll(sha, [a, b]) == Fed(sha, a) + Fed(sha, b)
  {
    assert [a, b][1..] == [b];
    FedOne(sha, b);
  }

  lemma FedThree(sha: Sha, a: ShaInput, b: ShaInput, c: ShaInput)
    ensures FedAll(sha, [a, b, c]) == Fed(sha, a) + (Fed(sha, b) + Fed(sha, c))
  {
    assert [a, b, c][1..] == [b, c];
    FedTwo(sha, b, c);
  }

  lemma FedOne(sha: Sha, a: ShaInput)
    ensures FedAll(sha, [a]) == Fed(sha, a)
  {
    assert [a][1..] == [];
  }

  // ---------------------------------------------------------------------------
  // Trees
  // ---------------------------------------------------------------------------

  /** The CLVM tree hash. */
  function TreeHashOf(sha: Sha, tree: Sexp): Bytes {
    match tree
    case Atom(bytes) => sha([1] + bytes)
    case Pair(left, right) => sha([2] + (TreeHashOf(sha, left) + TreeHashOf(sha, right)))
  }

  /** A list of three: (operator first second). */
  function Call(operator: byte, first: Sexp, second: Sexp): Sexp {
    Pair(Atom([operator]), Pair(first, Pair(second, NIL)))
  }

  const QUOTE: byte := 1
  const APPLY: byte := 2
  const CONS: byte := 4

  function Quoted(tree: Sexp): Sexp { Pair(Atom([QUOTE]), tree) }

  /** (c (q . arg) rest), ending in the environment path 1. */
  function CurriedArgs(args: seq<Sexp>): Sexp {
    if args == [] then Atom([1]) else Call(CONS, Quoted(args[0]), CurriedArgs(args[1..]))
  }

  /** (a (q . mod) args) */
  function Curried(mod: Sexp, args: seq<Sexp>): Sexp { Call(APPLY, Quoted(mod), CurriedArgs(args)) }

  // ---------------------------------------------------------------------------
  // The shortcut
  // ---------------------------------------------------------------------------

  function ConsedParameterHash(sha: Sha, environment: Bytes, parameter: Bytes): Bytes {
    HashOf(sha, Array([
      Raw([2]),
      Hashed([Raw([1]), Raw([CONS])]),
      Hashed([
        Raw([2]),
        Hashed([Raw([2]), Hashed([Raw([1]), Raw([QUOTE])]), Digest(parameter)]),
        Hashed([Raw([2]), Digest(environment), Hashed([Raw([1])])])])]))
  }

  function QuotedModHash(sha: Sha, modHash: Bytes): Bytes {
    HashOf(sha, Array([Raw([2]), Digest(HashOf(sha, Array([Raw([1]), Raw([1])]))), Digest(modHash)]))
  }

  function AppliedHash(sha: Sha, quotedModHash: Bytes, environment: Bytes): Bytes {
    HashOf(sha, Array([
      Raw([2]),
      Hashed([Raw([1]), Raw([APPLY])]),
      Hashed([Raw([2]), Digest(quotedModHash), Hashed([Raw([2]), Digest(environment), Hashed([Raw([1])])])])]))
  }

  /** Environment hash of the arguments from position k on. */
  function EnvironmentHash(sha: Sha, arguments: seq<Bytes>, k: nat): Bytes
    requires k <= |arguments|
    decreases |arguments| - k
  {
    if k == |arguments| then HashOf(sha, Raw([1, 1]))
    else ConsedParameterHash(sha, EnvironmentHash(sha, arguments, k + 1), arguments[k])
  }

  /** Goes through the argument hashes from the last to the first. */
  method CurryAndTreeHash(sha: Sha, quotedModHash: Bytes, arguments: seq<Bytes>) returns (r: Bytes)
    ensures r == AppliedHash(sha, quotedModHash, EnvironmentHash(sha, arguments, 0))
  {
    hide ConsedParameterHash;
    var env := HashOf(sha, Raw([1, 1]));
    var i := |arguments|;
    while i > 0
      invariant 0 <= i <= |arguments| && env == EnvironmentHash(sha, arguments, i)
    {
      i := i - 1;
      env := ConsedParameterHash(sha, env, arguments[i]);
    }
    r := AppliedHash(sha, quotedModHash, env);
  }

  // ---------------------------------------------------------------------------
  // The shortcut is right
  // ---------------------------------------------------------------------------

  lemma AtomHash(sha: Sha, b: byte)
    ensures sha(FedAll(sha, [Raw([1]), Raw([b])])) == TreeHashOf(sha, Atom([b]))
  {
    FedTwo(sha, Raw([1]), Raw([b]));
  }

  lemma NilHash(sha: Sha)
    ensures sha(FedAll(sha, [Raw([1])])) == TreeHashOf(sha, NIL)
  {
    FedOne(sha, Raw([1]));
    assert [1 as byte] + [] == [1];
  }

  lemma PairHash(sha: Sha, a: ShaInput, b: ShaInput, left: Sexp, right: Sexp)
    requires Fed(sha, a) == TreeHashOf(sha, left) && Fed(sha, b) == TreeHashOf(sha, right)
    ensures sha(FedAll(sha, [Raw([2]), a, b])) == TreeHashOf(sha, Pair(left, right))
  {
    FedThree(sha, Raw([2]), a, b);
  }

  /** One argument consed onto an environment. */
  lemma ConsedIsTreeHash(sha: Sha, environment: Sexp, parameter: Sexp)
    ensures ConsedParameterHash(sha, TreeHashOf(sha, environment), TreeHashOf(sha, parameter))
            == TreeHashOf(sha, Call(CONS, Quoted(parameter), environment))
  {
    hide FedAll, TreeHashOf;
    var env, par := Digest(TreeHashOf(sha, environment)), Digest(TreeHashOf(sha, parameter));
    var nil, q, c := Hashed([Raw([1])]), Hashed([Raw([1]), Raw([QUOTE])]), Hashed([Raw([1]), Raw([CONS])]);
    NilHash(sha);
    AtomHash(sha, QUOTE);
    AtomHash(sha, CONS);
    PairHash(sha, q, par, Atom([QUOTE]), parameter);
    PairHash(sha, env, nil, environment, NIL);
    PairHash(sha, Hashed([Raw([2]), q, par]), Hashed([Raw([2]), env, nil]), Quoted(parameter), Pair(environment, NIL));
    PairHash(
      sha, c, Hashed([Raw([2]), Hashed([Raw([2]), q, par]), Hashed([Raw([2]), env, nil])]),
      Atom([CONS]), Pair(Quoted(parameter), Pair(environment, NIL)));
  }

  lemma QuotedModIsTreeHash(sha: Sha, mod: Sexp)
    ensures QuotedModHash(sha, TreeHashOf(sha, mod)) == TreeHashOf(sha, Quoted(mod))
  {
    hide FedAll, TreeHashOf;
    AtomHash(sha, QUOTE);
    PairHash(sha, Digest(HashOf(sha, Array([Raw([1]), Raw([1])]))), Digest(TreeHashOf(sha, mod)), Atom([QUOTE]), mod);
  }

  lemma AppliedIsTreeHash(sha: Sha, quotedMod: Sexp, environment: Sexp)
    ensures AppliedHash(sha, TreeHashOf(sha, quotedMod), TreeHashOf(sha, environment))
            == TreeHashOf(sha, Call(APPLY, quotedMod, environment))
  {
    hide FedAll, TreeHashOf;
    var env, mod := Digest(TreeHashOf(sha, environment)), Digest(TreeHashOf(sha, quotedMod));
    var nil, a := Hashed([Raw([1])]), Hashed([Raw([1]), Raw([APPLY])]);
    NilHash(sha);
    AtomHash(sha, APPLY);
    PairHash(sha, env, nil, environment, NIL);
    PairHash(sha, mod, Hashed([Raw([2]), env, nil]), quotedMod, Pair(environment, NIL));
    PairHash(
      sha, a, Hashed([Raw([2]), mod, Hashed([Raw([2]), env, nil])]),
      Atom([APPLY]), Pair(quotedMod, Pair(environment, NIL)));
  }

  function TreeHashes(sha: Sha, args: seq<Sexp>): (r: seq<Bytes>)
    ensures |r| == |args|
  {
    seq(|args|, i requires 0 <= i < |args| => TreeHashOf(sha, args[i]))
  }

  lemma {:induction false} EnvironmentIsTreeHash(sha: Sha, args: seq<Sexp>, k: nat)
    requires k <= |args|
    ensures EnvironmentHash(sha, TreeHashes(sha, args), k) == TreeHashOf(sha, CurriedArgs(args[k..]))
    decreases |args| - k
  {
    hide ConsedParameterHash;
    if k == |args| {
      assert [1 as byte, 1] == [1] + [1];
    } else {
      EnvironmentIsTreeHash(sha, args, k + 1);
      ConsedIsTreeHash(sha, CurriedArgs(args[k + 1..]), args[k]);
      assert args[k..][1..] == args[k + 1..];
    }
  }

  /** For every module and every list of arguments the shortcut gives the tree
      hash of the curried program it never builds. */
  lemma CurryHashIsTreeHash(sha: Sha, mod: Sexp, args: seq<Sexp>)
    ensures AppliedHash(
              sha, QuotedModHash(sha, TreeHashOf(sha, mod)), EnvironmentHash(sha, TreeHashes(sha, args), 0))
            == TreeHashOf(sha, Curried(mod, args))
  {
    hide AppliedHash, EnvironmentHash, QuotedModHash, TreeHashOf;
    QuotedModIsTreeHash(sha, mod);
    EnvironmentIsTreeHash(sha, args, 0);
    assert args[0..] == args;
    AppliedIsTreeHash(sha, Quoted(mod), CurriedArgs(args));
  }
}
