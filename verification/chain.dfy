/**
 Coins, puzzle hashes and signatures, symbolically.

 Hashes are free constructors over what they commit to, so they are injective;
 a BLS half signature records who signed which message under which aggregate
 key, and the default signature is a separate value that verifies nothing.
 */
module Chain {
  import opened Wrappers

  datatype Program = Program(bytes: Bytes)

  /** A 32-byte digest: the tree hash of a program, or the digest that pairs a
      validation program hash with the tree hash of a game state. */
  datatype Hash =
    | TreeHash(program: Program)
    | InfoHash(validator: Hash, state: Hash)

  datatype PublicKey = PublicKey(id: nat)

  /** Sum of two public keys: addition of curve points is commutative. */
  datatype AggregateKey = AggregateKey(keys: multiset<PublicKey>)

  function Aggregate(a: PublicKey, b: PublicKey): AggregateKey {
    AggregateKey(multiset{a, b})
  }

  datatype ValidationInfoHash = NoInfo | InitialInfo | KnownInfo(hash: Hash)

  /** The argument list curried into the referee puzzle, in its order; the two
      numbers a move brings with it are kept as the atoms they are encoded as. */
  datatype CurriedReferee = CurriedReferee(
    mover: PublicKey,
    waiter: PublicKey,
    timeout: nat,
    amount: nat,
    modHash: Hash,
    nonce: nat,
    moveMade: Bytes,
    maxMoveSizeRaw: Bytes,
    validationInfo: ValidationInfoHash,
    moverShareRaw: Bytes,
    previousValidationInfo: ValidationInfoHash)

  datatype PuzzleHash =
    | RewardPh(id: nat)
    | RefereePh(mod: Hash, curried: CurriedReferee)
    | UnrollPh(key: AggregateKey, stateNumber: nat, conditions: ConditionsHash)

  datatype Condition =
    | CreateCoin(ph: PuzzleHash, amount: nat)
    | Rem(number: nat)
    | AssertHeightRelative(blocks: nat)

  datatype ConditionsHash = ConditionsHash(of: seq<Condition>)

  datatype CoinID = Launcher(id: nat) | IdOf(coin: CoinString)

  datatype CoinString = CoinString(parent: CoinID, ph: PuzzleHash, amount: nat)

  /** What a channel or unroll half signature can be a signature of. */
  datatype Message =
    | UnrollMessage(conditions: seq<Condition>)
    | ChannelMessage(coin: CoinID, spend: seq<Condition>)
    | PayoutMessage(ph: PuzzleHash)

  datatype Signature =
    | DefaultSignature
    | HalfSignature(signer: PublicKey, key: Option<AggregateKey>, message: Message)
}
