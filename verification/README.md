# Proofs about the potato protocol

Two players open a channel coin and play games inside it. One token, the potato, passes between them with numbered, jointly signed unroll states; disputes end on chain, where a referee puzzle moves, times out or slashes each game's coin. This project models that system in Dafny and proves properties of the model.

| files | what they hold |
|---|---|
| `chain.dfy`, `wrappers.dfy`, `sexps.dfy` | hashes, puzzle hashes and signatures as free constructors; result types and byte strings; CLVM values |
| `referee.dfy`, `game_laws.dfy`, `referee_on_chain.dfy` | the my-turn / their-turn machine, what the two sides check of each other's moves, and the referee puzzle it meets on chain |
| `channel.dfy` | the channel's operations on values |
| `channel_money.dfy`, `channel_history.dfy`, `channel_games.dfy` | balances; unroll history and preemption; game identifiers, coins and their matching |
| `channel_laws.dfy`, `channel_payouts.dfy`, `channel_referees.dfy` | stakes, reports and what is let in; who the signed conditions pay; what a game's referee would pay |
| `offchain.dfy`, `peer_invariants.dfy`, `peer_laws.dfy`, `peer_messages.dfy` | one peer of the off-chain protocol, what its steps keep, and what becomes of its queue, of groups and of single messages |
| `failed_drains.dfy` | a drain that fails part of the way: what it leaves, and when the views stay mirrored |
| `mirrored_views.dfy`, `vouched_proposals.dfy`, `potato.dfy`, `two_peers.dfy`, `two_peer_steps.dfy`, `two_peer_batches.dfy`, `two_peer_runs.dfy`, `run_payouts.dfy` | two peers, two queues, every run of them, and who would be paid in every state of it |
| `channel_state.dfy`, `offchain_phase.dfy` | the classes that carry out the channel and the phase in place |
| `coin_lifecycle.dfy`, `submissions.dfy`, `transaction_manager.dfy` | what the transaction manager does to one coin, to its submissions, and the class itself |
| `on_chain.dfy`, `on_chain_phase.dfy` | games tracked on chain with their referees, on values and in place |
| `on_chain_turns.dfy`, `on_chain_endings.dfy`, `unroll_turns.dfy` | whose turn a coin is at; what is reported of endings; from an unroll to its games |
| `krunk_dictionary.dfy`, `curried_hash.dfy` | the signed dictionary tree; curried program hashing |
| `bencodex.dfy`, `bencodex_parse.dfy`, `bencodex_ser.dfy`, `bencodex_de.dfy`, `bencodex_js.dfy`, `bencodex_js_decoder.dfy` | Bencodex on values, the Rust writer and reader, the JavaScript writer and reader |

## How the model is built

- **Values and classes.** Each operation that changes state is a method of a class, proved equal to a function on values, error by error; the invariants and the properties of whole runs are lemmas about those functions.
- **Hashes and signatures.** A hash is a constructor applied to what it commits to, so hashes are injective. A half signature records signer, aggregate key and message; it verifies when those three are the expected ones, and the default signature is a value of its own that verifies nothing.
- **CLVM.** Handlers, validators and proposal factories are the fields of one `Clvm` value, any functions at all. Every theorem holds for all of them. What a spend creates is what the referee puzzle lets it create; that puzzle is modelled for moves and timeouts.
- **Two peers.** A `System` is two peers and two FIFO queues. A step is a local request at either side, a delivery at either side, or nothing. A run is any sequence of steps, starting as the handshakes leave the two sides; it goes on after a drain that fails, and the system records what failed drains have done (`Lapses`).
- **Integers.** Amounts are naturals; `ChannelMoney.NoOverflow` and `U64_LIMIT` say where 64 bits matter. The u128 to i128 cast of the serializer, the byte carries of the dictionary and the signed and unsigned readings of a CLVM atom are written out.

## Where the code differs from its description, and where a property needs a condition

- The comment at `src/session_phases/mod.rs:74-80` says that a peer with work left asks for the potato again right after sending it. The code does not: it asks when an action is queued without the potato, and what a drain sends is never a request (`PeerInvariants.DrainNeverAsks`, with the input in `PeerInvariants.WorkLeftIsNotAskedFor`).
- `ChannelState::new` is given the opposite of the phase's potato flag, so the two agree only after the first exchange. The invariant of a run says exactly that (`TwoPeers.StartKeepsInv`).
- The signatures stored with the latest sent unroll are always the default ones, so only the latest received one can preempt. State 0 can be preempted exactly when the peer sends the odd states (`ChannelHistory.InitialUnrollIsPreemptibleIff`).
- Settling a game can fail on a subtraction, and does exactly when the mover's share of the last move is above the game's amount (`ChannelMoney.SentSettlementFailsOnShareIff`); the initial share of a proposal is not checked against it, so a received proposal is enough (`FailedDrains.ProposedShareOverpays`).
- A drain that fails has already applied the items before the failing one, loses their batch and the moves put back for later, and restores nothing; when the failing item is a move or a settlement, or the drain was a flush, the session goes on from there. The two views then still mirror each other exactly when the drain had itself undone whatever the other side would have to know of: no move, the games accepted all settled again and for what we had put into them, nothing overpaid (`FailedDrains.FailedDrainMirrorsIff`, over runs `TwoPeerRuns.FailedDrainMirrorsViewsIff`). An accepted game followed by a settlement that is not ours to make is an input where they do not (`FailedDrains.FailedDrainStrays`, `TwoPeerRuns.RunGoesOnAstray`). Money is conserved exactly when the failing item did not overpay (`FailedDrains.FailedDrainKeepsMoneyIff`), which cannot happen while every share we could settle for fits its game (`FailedDrains.FittingSharesNeverOverpay`). Where the potato is, what each side can preempt and recover, and which coins it can match do not depend on any of this.
- An unsigned 128-bit integer comes back from Bencodex exactly when it is below 2^127 (`BencodexParse.U128RoundTripsIff`).
- A byte string whose length is an address but whose end is not makes the Rust parser panic; the model returns an error of its own there (`BencodexParse.LengthPanicsIff`, with the input in `BencodexParse.GreatestLengthPanics`).
- A text comes back through the JavaScript codec exactly when it does not start with a byte order mark and has no unpaired surrogate (`BencodexJsDecoder.JsRoundTripsIff`; `MarkIsDropped` and `SurrogateIsReplaced` are inputs where it does not).
- The dictionary is searched in unsigned order and its evidence is signed, so the signature found for an unlisted query is for evidence around it exactly when the query's top bit is clear or no word is listed (`KrunkDictionary.DictionaryRefinesWordList`).
- A referee keeps the raw bytes of a move's size limit but not of the mover's share, so the coin it follows is the one created exactly when that share is a canonical atom (`RefereeOnChain.FollowsCoinIff`, with an input in `RefereeOnChain.NonCanonicalShareIsNotFollowed`). A move made off chain can be played on chain exactly when its share fits the amount, moves are still allowed and the next size limit fits two bytes (`RefereeOnChain.MovePlaysOnChainIff`).
- A move on chain whose share is above the game's amount fails after the referee has made it, and the referee is then not put back; for every other refused move it is (`OnChainTurns.MoveGoesOutIff`).
- When the opponent's timeout of a coin beats a move of ours, the code looks for their reward in the first coin created only. So the move is reported as too late exactly when nothing is ours; otherwise, with our payout coming first, the opponent is reported to have timed out (`OnChainEndings.LateMoveIsReported`). What it pays us is reported rightly in both cases.

## Model

| member | source | states |
|---|---|---|
| `Referees.NewRefereesAgree` | src/referee/mod.rs:32-106 | Two referees set up from the two sides of one proposal take opposite turns and curry equal argument lists |
| `Referees.MoveKeepsAgreement` | src/referee/my_turn.rs:323-516 | A move its maker produced and the other side took without a slash leaves them in agreement again; the wire carries the hash of the coin the move spends |
| `Referees.PlayKeepsAgreement` | src/referee/their_turn.rs:282-414 | So does every sequence of moves |
| `Referees.TimeoutSpendsAgree` | src/referee/mod.rs:414-495 | Equal curried arguments give both sides the same timeout spend, payouts and summed signatures included |
| `Referees.AgreementMeans` | src/referee/mod.rs:401-521 | Agreement means equal outcome and on-chain puzzle hashes, shares adding up to the game amount, and one timeout spend for any coin; whose share is whose is stated in `RefereeOnChain.TimeoutPaysOurShare` |
| `Referees.RefereesAgreeForWholeGame` | src/referee/types.rs:273-345 | All of this after any game of accepted moves from any proposal |
| `GameLaws.FirstSlashConvinces` | src/referee/their_turn.rs:339-414 | The evidence of a slash convinces the validator; when none is found none offered does |
| `GameLaws.SlashedIff` | src/referee/their_turn.rs:282-414 | A move is followed only if neither no evidence nor any that our handler offers convinces the validator, asked about the state the move leads to; a slash carries evidence that does |
| `GameLaws.CheckedMoveStands` | src/referee/my_turn.rs:323-516 | With the same state and validator on both sides, what the maker checks is what the taker checks: a move that goes out is never slashed without evidence, both end in the same state, and each side has the other's next validator and handler |
| `RefereeOnChain.CanonicalValue` | src/referee/types.rs:38-52 | The canonical atom of a number reads back as that number, signed and unsigned |
| `RefereeOnChain.TwoByteNumbers` | clsp/referee/onchain/referee.clsp:101 | Exactly the numbers below 2^15 have atoms the puzzle's two-byte limit lets through |
| `RefereeOnChain.TimeoutPaysShares` | clsp/referee/onchain/referee.clsp:42-58 | The puzzle accepts the timeout a referee builds, pays the two sides their shares of the whole amount, and asks for exactly the signatures attached |
| `RefereeOnChain.TimeoutPaysOurShare` | src/referee/mod.rs:401-495 | The timeout of a referee's last state pays our reward hash what the referee calls our current share, and theirs the rest; it can be built exactly when the share fits the amount |
| `RefereeOnChain.MovePlaysOnChainIff` | src/referee/types.rs:454-485 | When the puzzle accepts the replay of an off-chain move, and that it then creates the coin the mover expects |
| `RefereeOnChain.FollowsCoinIff` | src/referee/their_turn.rs:416-608 | For any move the puzzle allows on the coin we wait on: it is read without error, refused, followed or slashed as off chain, and the coin followed or slashed is the created one exactly when the share is canonical; the hash assertion fails only otherwise |
| `RefereeOnChain.NonCanonicalShareIsNotFollowed` | src/referee/their_turn.rs:416-608 | The puzzle takes the two bytes 00 05 as a share, and the coin then followed is not the one created |
| `RefereeOnChain.NewIsSlashReady` | src/referee/their_turn.rs:94-103 | The commitment of a new game's coin opens with the validator and state kept for a slash |
| `RefereeOnChain.MoverIsSlashReady` | src/referee/my_turn.rs:280-319 | So does the one our own move leaves |
| `RefereeOnChain.SlashOpensCommitment` | src/referee/their_turn.rs:611-653 | A slash opens the commitment curried into the slashed coin, and carries its mover's signature for the payout |
| `RefereeOnChain.ProgramHashIsIgnored` | src/referee/their_turn.rs:339-346 | A move read from chain, which has no program hash, is taken as the same move off chain |
| `RefereeOnChain.PlayedMoveIsExpected` | src/referee/mod.rs:338-359 | A move made off chain and then played on chain is expected by both, its maker and the one who took it off chain; the coin they name is the one after the move, and neither referee changes |
| `RefereeOnChain.TurnKeepsGame` | src/referee/mod.rs:523-553 | One turn played on chain: the waiter follows the very coin the puzzle created, and both sides curry it alike |
| `RefereeOnChain.TurnPlaysIff` | src/referee/mod.rs:330-399 | A turn can be played on chain exactly when the move can be made, fits the coin, and would be taken without a slash off chain |
| `RefereeOnChain.TimeoutsAgree` | src/referee/mod.rs:414-452 | For the coin both wait on, whichever of its two hashes matched, both build the same timeout, and their shares make up the amount |
| `RefereeOnChain.OnChainGameAgrees` | src/referee/mod.rs:330-399 | After any number of on-chain turns the coin that exists is the one both expect, with one timeout spend |
| `RefereeOnChain.GameGoesOnChain` | src/referee/mod.rs:507-521 | The same from a proposal, through any off-chain moves and then any on-chain ones |
| `ChannelMoney.NewChannelMoney` | src/channel_state/mod.rs:466-604 | A new channel's two balances are the channel amount, with nothing allocated |
| `ChannelMoney.AcceptKeepsMoney` | src/channel_state/mod.rs:1035-1070 | Accepting keeps the total and keeps each allocation equal to the sum of that side's stakes in live games |
| `ChannelMoney.SendMoveKeepsMoney` | src/channel_state/mod.rs:1270-1312 | So does a sent move |
| `ChannelMoney.ReceivedMoveKeepsMoney` | src/channel_state/mod.rs:1316-1361 | So does a received move |
| `ChannelMoney.SentSettlementKeepsMoney` | src/channel_state/mod.rs:1376-1426 | So does a settlement we send |
| `ChannelMoney.ReceivedSettlementKeepsMoney` | src/channel_state/mod.rs:1430-1460 | So does a settlement we receive |
| `ChannelMoney.SentSettlementSucceedsIff` | src/channel_state/mod.rs:1376-1426 | With shares within amounts, sending a settlement fails only for want of the potato, of the game, or of the turn: no subtraction fails |
| `ChannelMoney.ReceivedSettlementSucceedsIff` | src/channel_state/mod.rs:1430-1460 | Likewise for a received settlement |
| `ChannelMoney.SentSettlementFailsOnShareIff` | src/channel_state/mod.rs:1390-1411 | Otherwise allowed, it fails exactly when the last move's share exceeds the game amount |
| `ChannelMoney.NoOverflow` | src/channel_state/mod.rs:1169-1179 | When the channel amount fits 64 bits, so does every balance, their sum and every game amount |
| `ChannelLaws.StartOwnsContributions` | src/channel_state/mod.rs:466-604 | At the start each side owns its contribution, and even game numbers belong to the side whose channel is told that it starts with the potato |
| `ChannelLaws.ProposalsOwnNothing` | src/channel_state/mod.rs:1035-1107 | Accepting and cancelling change what neither side owns, balance and stakes together |
| `ChannelLaws.MovesOwnNothing` | src/channel_state/mod.rs:1270-1361 | Nor does moving |
| `ChannelLaws.SettlementOwns` | src/channel_state/mod.rs:1376-1460 | A settlement gives each side its share for its stake |
| `ChannelLaws.GameStakesAsDescribed` | src/session_phases/mod.rs:167-198 | A game a factory describes, proposed and accepted: the proposer stakes the sender's contribution and the other the receiver's, exactly when covered, and the side named first moves first, with its handler, state and limits |
| `ChannelLaws.ProposalLetInIff` | src/channel_state/mod.rs:931-1032 | When a received proposal is let in: parity, order and gap of its number, amount, timeout, room |
| `ChannelLaws.MoveLetInIff` | src/channel_state/mod.rs:1316-1361 | When a received move is let in; the share it then gives us is the mover's and fits the game |
| `ChannelLaws.SettlementIsReported` | src/channel_state/mod.rs:1400-1426 | A settlement sent is cached to be reported with what it paid us |
| `ChannelLaws.ReportsSurvive` | src/channel_state/mod.rs:268-279 | Taking in a state loses no such report and draining reports leaves none |
| `ChannelPayouts.UnrollPaysBalances` | src/channel_state/types/unroll_coin.rs:152-171 | The conditions of a state pay our reward hash our balance, theirs their balance and each game coin its amount, and nothing else, to every puzzle hash; the rewards follow the number, first that of the side that started |
| `ChannelPayouts.UnrollPaysAll` | src/channel_state/mod.rs:644-691 | So a state pays out the whole channel amount |
| `ChannelPayouts.TimeoutWaits` | src/channel_state/types/unroll_coin.rs:152-171 | Spent by timeout it pays the same, after the unroll timeout |
| `ChannelPayouts.ChannelSpendFundsUnroll` | src/channel_state/mod.rs:693-729 | Signing a state signs a spend that puts the whole channel coin into its unroll, which the channel resolves |
| `ChannelPayouts.SignaturesBind` | src/channel_state/mod.rs:693-729 | Equal half signatures mean equal signer, channel coin and conditions; for unrolls equal number and payouts |
| `ChannelPayouts.ShutdownPaysBalances` | src/shutdown.rs:9-51 | A clean shutdown pays each reward hash its side's balance, nothing else, and no coin of nothing |
| `ChannelPayouts.PaidOfPermutation` | src/shutdown.rs:35-51 | What conditions pay does not depend on their order |
| `ChannelPayouts.ClosePaysBalances` | src/session_phases/mod.rs:829-957 | The payout a close accepts carries the signature of the other side, in whatever order it listed the coins, and pays each side its balance, and all of the channel |
| `ChannelReferees.SentSettlementPaysTimeout` | src/channel_state/mod.rs:1376-1426 | A settlement sent moves to each side what the timeout of the game's coin would pay it |
| `ChannelReferees.ReceivedSettlementPaysTimeout` | src/channel_state/mod.rs:1430-1460 | So does one received |
| `ChannelReferees.DrainBelongs` | src/session_phases/mod.rs:1020-1260 | A drain, failing or not, leaves the channel only games of its two players with its payouts, settles only on our turn, and signs nothing |
| `ChannelReferees.ApplyBelongs` | src/session_phases/mod.rs:643-812 | So does applying a batch, settlements apart |
| `ChannelHistory.InitialHistory` | src/channel_state/mod.rs:352-394 | The handshake leaves exactly state 0 in the unroll map |
| `ChannelHistory.SendKeepsHistory` | src/channel_state/mod.rs:693-729 | Signing the next state keeps the map at exactly states 0 to the current number, each under its own puzzle hash, and the alternation of senders |
| `ChannelHistory.ReceiveKeepsHistory` | src/channel_state/mod.rs:766-847 | So does accepting the peer's next state |
| `ChannelHistory.ResolvedIsStored` | src/channel_state/mod.rs:1560-1576 | What an unroll spend resolves to is a stored state whose puzzle hash one of the spend's outputs has, the first that is stored |
| `ChannelHistory.EveryStateResolves` | src/channel_state/mod.rs:1655-1686 | Every state up to the current one resolves from its own puzzle hash, and its timeout spend reveals conditions with the stored hash |
| `ChannelHistory.ChannelCoinSpentSucceedsIff` | src/channel_state/mod.rs:1617-1651 | The answer to a channel coin spend exists exactly when it resolves, spends the coin it resolved to, and times out, with no signature, exactly when it was ours, is current, or nothing preempts it |
| `ChannelHistory.UnrecoverableIff` | src/session_phases/handler_base.rs:25-57 | An unroll is unrecoverable exactly when it does not resolve and claims a later state than ours |
| `ChannelHistory.PreemptionSourceIff` | src/channel_state/mod.rs:1693-1708 | Something preempts a state exactly when the latest received one has the other parity, and then that is it |
| `ChannelHistory.StaleSentUnrollIsPreempted` | src/channel_state/mod.rs:1710-1772 | For every state we sent and left behind there is a later state of the other parity with the peer's verifying signature, and the answer to its unroll is that preemption |
| `ChannelHistory.InitialUnrollIsPreemptibleIff` | src/channel_state/mod.rs:1693-1708 | State 0 can be preempted exactly when we send the even states |
| `ChannelGames.ReceivedProposalKeepsNonces` | src/channel_state/mod.rs:931-1032 | A received proposal is new: game identifiers stay distinct over proposals, live games and settlements, and below their side's next nonce |
| `ChannelGames.SentProposalKeepsNonces` | src/channel_state/mod.rs:878-918 | So is one we send with a nonce handed out before |
| `ChannelGames.AcceptKeepsNonces` | src/channel_state/mod.rs:1035-1070 | Accepting moves an identifier from proposed to live and loses none |
| `ChannelGames.CancelKeepsNonces` | src/channel_state/mod.rs:1089-1107 | Cancelling only removes identifiers |
| `ChannelGames.SentMoveKeepsHashes` | src/channel_state/mod.rs:1270-1312 | A sent move changes one live game, keeps its amount, and caches exactly the hash the game had before it |
| `ChannelGames.UnrollCreatesGameCoins` | src/channel_state/mod.rs:644-691 | The game coins an unroll creates are the live games in order |
| `ChannelGames.CurrentCoinsAreKnown` | src/channel_state/mod.rs:315-329 | The coins of the current state are known to the matching, one per game |
| `ChannelGames.SentMoveKeepsCoins` | src/channel_state/mod.rs:1286-1312 | Coins of the last signed state stay known after our moves |
| `ChannelGames.SentSettlementKeepsCoins` | src/channel_state/mod.rs:1400-1426 | And after our settlements, of games we have not moved in since |
| `ChannelGames.MatchNamesItsGame` | src/channel_state/mod.rs:1799-1912 | A matched coin is given to the game whose nonce its puzzle hash carries |
| `ChannelGames.KnownCoinMatches` | src/channel_state/mod.rs:1822-1905 | A known coin is matched: by latest hash, by cached hash before our move, or among pending settlements |
| `ChannelGames.KnownCoinsFindTheirGames` | src/channel_state/mod.rs:1799-1912 | Known coins of distinct games all find their games |
| `ChannelGames.CoinsMatchDistinctGames` | src/channel_state/mod.rs:1799-1912 | Whatever the coins, distinct coins are given distinct games |
| `UnrollTurns.MatchedTurn` | src/channel_state/mod.rs:1843-1905 | A matched coin's recorded turn is the one its puzzle says: that of the game for its latest hash, ours for one a cached move was made from, ours with the claim armed for a settled game; its timeout is the one the puzzle waits for |
| `UnrollTurns.StartIsLawful` | src/session_phases/spend_channel_coin_phase.rs:993-1070 | However the on-chain phase starts from a channel, redone moves included, it starts within the law of turns |
| `PeerInvariants.SendGroupKeeps` | src/session_phases/mod.rs:1084-1098 | Sending a queued group keeps the sender's channel sound and the identifiers still queued fresh |
| `PeerInvariants.DrainActionKeeps` | src/session_phases/mod.rs:1034-1221 | Draining one item keeps money, identifiers, hashes, known coins and the unroll records |
| `PeerInvariants.DrainAllLeaves` | src/session_phases/mod.rs:1020-1260 | So does the whole queue; what is left behind is moves waiting for their turn, and a shutdown signs the channel's payout as it then is |
| `PeerInvariants.ApplyActionsKeep` | src/session_phases/mod.rs:643-812 | Applying any received actions keeps the receiver's identifiers, hashes and unroll records |
| `PeerInvariants.DrainNeverAsks` | src/session_phases/mod.rs:1245-1260 | A drain that returns sends nothing or one batch, never a request; what it defers stays queued, and the potato is away exactly when a batch was sent |
| `PeerInvariants.WorkLeftIsNotAskedFor` | src/session_phases/mod.rs:74-84 | A cancellation followed by a move out of turn: the batch goes out, the move stays queued, the potato is away and was not asked for |
| `PeerLaws.AppliedBatchesTakeGroupsWhole` | src/session_phases/mod.rs:643-680 | A batch that applies accepts each group whole or not at all, and cancels it likewise |
| `PeerLaws.CoveredGroupIsAccepted` | src/session_phases/mod.rs:1600-1658 | Accepting a group the balances cover drains into the acceptance of every member |
| `PeerLaws.UncoveredGroupIsCancelled` | src/session_phases/mod.rs:1600-1658 | One they do not cover is queued to be cancelled whole |
| `PeerLaws.AcceptDrainsIff` | src/session_phases/mod.rs:1099-1140 | A queued acceptance accepts exactly when both balances cover the stakes, cancels otherwise, and fails only without such a proposal of the peer's |
| `PeerLaws.MoveDrains` | src/session_phases/mod.rs:1034-1083 | A move out of turn or for no game is put back, one its handler rejects is dropped, and the drain goes on; one for a game not live yet fails |
| `PeerLaws.HydratedIsChecked` | src/session_phases/mod.rs:254-294 | A group that gets through is what our own factory makes of it, under distinct numbers |
| `PeerLaws.TakenMoveIsAnswered` | src/session_phases/mod.rs:730-780 | A move taken is answered with what its handler has to say |
| `PeerLaws.BatchKeepsQueue` | src/session_phases/mod.rs:680-812 | Of our queue a batch removes exactly our groups when it proposes one and a shutdown when it brings a game; it adds settlements only |
| `PeerLaws.FinishedGameIsSettled` | src/session_phases/mod.rs:730-780 | A game the peer's move has finished at our turn is queued to settle |
| `PeerLaws.PotatoIsKeptIff` | src/session_phases/mod.rs:478-534 | When a received potato is kept; otherwise it goes out with one batch |
| `PeerLaws.LastSettlementCloses` | src/session_phases/mod.rs:467-477 | A settlement that leaves the peer nothing and no game live is answered with the shutdown |
| `PeerLaws.ProposalQueues` | src/session_phases/mod.rs:1515-1598 | With none of the peer's open a proposal queues one group, numbered consecutively and described as the factory says |
| `PeerLaws.ProposalKeepsQueue` | src/session_phases/mod.rs:1515-1598 | A proposal takes a queued shutdown out of the queue and nothing else; with one of the peer's open it only uses up a number |
| `PeerLaws.GroupIsCancelledWhole` | src/session_phases/mod.rs:1660-1676 | Cancelling any member queues the cancellation of every member of its group |
| `PeerMessages.WaitingMoveStays` | src/session_phases/mod.rs:1034-1222 | A move a drain finds out of turn is still queued afterwards |
| `PeerMessages.SettlementIsTold` | src/session_phases/mod.rs:1034-1222 | A settlement is sent with the amount it moved to us |
| `PeerMessages.FlushStops` | src/session_phases/mod.rs:426-436 | A flush sends what a drain has to send; one whose drain fails keeps what was done by then and sends nothing |
| `PeerMessages.PotatoIsUsedIff` | src/session_phases/mod.rs:447-534 | A potato received leads to an error exactly when something other than a move or settlement of ours fails; otherwise a failure keeps the potato and what was done by then |
| `PeerMessages.HolderAnswersRequest` | src/session_phases/mod.rs:1291-1356 | The holder answers a request at once with a batch of nothing |
| `PeerMessages.EarlyRequestIsAnswered` | src/session_phases/mod.rs:495-515 | A request that comes before the potato is answered once that has come |
| `PeerMessages.ClosesIff` | src/session_phases/mod.rs:536-641 | A message closes the channel exactly when it is a batch with a shutdown or acknowledges ours |
| `PeerMessages.MessageIsRefusedIff` | src/session_phases/mod.rs:1291-1356 | A second potato is refused, and after our shutdown all but its acknowledgement and requests; a game's message is taken exactly at the peer's turn and changes nothing |
| `FailedDrains.FailureSplits` | src/session_phases/mod.rs:1028-1222 | A failed drain is a drain of what is before the failing item, which succeeds, and that item failing on the channel it left; what is behind stays queued |
| `FailedDrains.FailureKeeps` | src/session_phases/mod.rs:1020-1260 | A failed drain keeps identifiers, hashes, known coins, unroll records, and money up to the excess it paid; its effect on live games, stakes and balances is what the lost batch says |
| `FailedDrains.FailedDrainMirrorsIff` | src/session_phases/mod.rs:478-490 | After it the two views mirror each other exactly when the lost batch has no move, settles the games it accepted and no others, pays us for them what we had put in, and nothing was overpaid |
| `FailedDrains.QuietQueueIsUndone` | src/session_phases/mod.rs:1084-1221 | That is so whenever everything queued before the failing item only proposes or cancels, and that item does not overpay |
| `FailedDrains.FailedDrainKeepsMoneyIff` | src/channel_state/mod.rs:1376-1426 | After it the balances add up to the total plus the excess, and to the total exactly when the failing item did not overpay |
| `FailedDrains.FittingSharesNeverOverpay` | src/channel_state/mod.rs:1390-1411 | No failed drain overpays when every share we could settle for, live or proposed, fits its game beforehand |
| `FailedDrains.FailedDrainStrays` | src/game_session.rs:855-870 | An acceptance and then a settlement that is not ours to make: the drain fails, the game is live on our side alone, nothing is queued, and no mirrored channel still mirrors ours |
| `FailedDrains.ProposedShareOverpays` | src/channel_state/mod.rs:931-1032 | A received proposal whose initial share is above its amount, accepted and settled in one drain, fails having paid us the difference |
| `MirroredViews.MirrorMove` | src/channel_state/mod.rs:1270-1361 | A move sent by one and taken by the other keeps the two channels mirrored |
| `MirroredViews.MirrorSettlement` | src/channel_state/mod.rs:1376-1460 | So does a settlement |
| `MirroredViews.MirrorAccept` | src/channel_state/mod.rs:1035-1086 | So does an accepted proposal |
| `MirroredViews.MirrorCancel` | src/channel_state/mod.rs:1089-1107 | So does a cancelled one |
| `MirroredViews.HydratedStartsMirror` | src/session_phases/mod.rs:254-294 | What the receiver's own factory makes of a group mirrors the proposer's starts |
| `MirroredViews.LinkedGroup` | src/session_phases/mod.rs:167-198 | A group sent and received adds mirrored proposals on both sides |
| `MirroredViews.LinkedUnknownGroup` | src/session_phases/mod.rs:704-712 | A group of a game type the receiver does not know leaves the proposer one-sided proposals that disturb nothing |
| `MirroredViews.MirroredUnrolls` | src/channel_state/mod.rs:644-691 | Mirrored channels build the same unroll conditions and puzzle hash, and each verifies the other's half signatures; who is paid what is stated in `ChannelPayouts.UnrollPaysBalances` |
| `MirroredViews.MirroredShutdown` | src/shutdown.rs:9-51 | They agree on the clean shutdown payout up to order, and the sender's signature of it verifies; who is paid what is stated in `ChannelPayouts.ShutdownPaysBalances` |
| `MirroredViews.MirroredMoney` | src/channel_state/mod.rs:1169-1179 | Conservation on one side is conservation on the other |
| `MirroredViews.DrainActionInStep` | src/session_phases/mod.rs:1034-1221 | Each item drained keeps the sender mirrored by a receiver that has applied the batch so far |
| `MirroredViews.DrainAllInStep` | src/session_phases/mod.rs:1020-1260 | So does the whole queue, including what cancels instead of accepting and what is not sent |
| `VouchedProposals.ReceivedStaysVouched` | src/channel_state/mod.rs:960-980 | Whatever batch the other side takes, mirrored or not, our proposals that it holds have contributions adding up to the amount |
| `VouchedProposals.ReceivedStaysBehind` | src/channel_state/mod.rs:931-958 | Its next expected nonce stays behind every identifier we have still to send |
| `VouchedProposals.ReceivedKeepsMoney` | src/channel_state/mod.rs:1035-1070 | Taking such a batch keeps the receiver's money, mirrored or not |
| `Potato.SendRequest` | src/session_phases/mod.rs:1007-1018 | Asking for the potato keeps one token and a request behind every batch |
| `Potato.SendBatch` | src/session_phases/mod.rs:1245-1260 | Sending a batch hands the token to the queue |
| `Potato.TakeOther` | src/session_phases/mod.rs:1319-1341 | Taking anything else from a queue keeps both |
| `Potato.TakeBatch` | src/session_phases/mod.rs:1342-1356 | Taking a batch, nobody else holds the token and no second batch is under way |
| `TwoPeers.StartSucceedsIff` | src/session_phases/handshake_initiator.rs:779-784 | The two sides start exactly when their keys differ and the unroll timeout is positive |
| `TwoPeerRuns.StartIsReached` | src/session_phases/handshake_initiator.rs:110-114 | Runs exist for every such pair of sides |
| `TwoPeers.StartKeepsInv` | src/session_phases/handshake_receiver.rs:416-421 | The start satisfies the invariant of runs: initiator Present, receiver Absent, channel flags the other way round |
| `TwoPeerSteps.NonceAndActionsCommute` | src/channel_state/mod.rs:154-158 | Handing out our own nonces while a batch is under way does not change what applying it does |
| `TwoPeerSteps.QueueChangeKeepsInv` | src/session_phases/mod.rs:1499-1503 | Queue and nonce changes at one side keep the invariant, a batch under way included |
| `TwoPeerSteps.PotatoRequestKeepsInv` | src/session_phases/mod.rs:1007-1018 | Requesting the potato if needed keeps the invariant |
| `TwoPeerSteps.ActionKeepsInv` | src/session_phases/mod.rs:1499-1503 | Queueing an action keeps it |
| `TwoPeerSteps.ProposalKeepsInv` | src/session_phases/mod.rs:1515-1598 | Proposing a group of games keeps it |
| `TwoPeerBatches.SendBatchKeepsInv` | src/channel_state/mod.rs:693-729 | Signing and sending a batch keeps it |
| `TwoPeerBatches.DrainKeepsInv` | src/session_phases/mod.rs:1020-1260 | A drain that returns normally keeps it, and sends one batch or changes nothing but the queue |
| `TwoPeerBatches.FailedDrainKeepsInv` | src/session_phases/mod.rs:478-490 | A drain that fails keeps the invariant for the lapses it then records |
| `TwoPeerBatches.EmptyPotatoKeepsInv` | src/channel_state/mod.rs:731-736 | Giving the potato away empty keeps it |
| `TwoPeerBatches.SignaturesVerify` | src/channel_state/mod.rs:766-818 | The signatures of a batch verify for every receiver that mirrors its sender |
| `TwoPeerBatches.ReceiveKeepsInv` | src/session_phases/mod.rs:447-534 | Taking a batch keeps the invariant |
| `TwoPeerRuns.StepKeepsSafe` | src/session_phases/mod.rs:1291-1356 | Every step of two peers, drains that fail included, keeps the invariant, until a shutdown closes one of them with the potato in one place |
| `TwoPeerRuns.RunKeepsSafe` | src/session_phases/mod.rs:1291-1356 | So does every run |
| `TwoPeerRuns.OnePotatoAlways` | src/session_phases/mod.rs:1342-1347 | In every reachable state exactly one of: A holds the potato, B holds it, one batch is under way; the double-potato error cannot happen |
| `TwoPeerRuns.RequestIsNeverLost` | src/session_phases/mod.rs:1007-1018 | A peer that is waiting has a batch coming or a request going out behind every batch, so the queues are not both empty |
| `TwoPeerRuns.RequestIsAnswered` | src/session_phases/mod.rs:1322-1341 | Once a waiting peer's queue has been delivered, a batch is on its way to it |
| `TwoPeerRuns.ViewsAreMirrored` | src/session_phases/mod.rs:643-812 | With no batch under way, and no failed drain having left something undone, both sides have the same state number, balances swapped, games in the same order with the same hashes and amounts, and next unrolls with the same conditions |
| `TwoPeerRuns.AppliedBatchesAreAccepted` | src/channel_state/mod.rs:822-847 | Under the same proviso a batch whose actions apply is accepted: its signatures verify for the same unroll its sender signed, or its shutdown payout is the expected one |
| `TwoPeerRuns.MoneyIsConserved` | src/channel_state/mod.rs:249-257 | In every reachable state the four balances make up the channel amount and what that side's failed drains have overpaid, which is nothing in a run whose views have not strayed |
| `TwoPeerRuns.FailedDrainMirrorsViewsIff` | src/session_phases/mod.rs:478-490 | When a drain fails in a run with mirrored views, on a flush or after a batch, the views are mirrored afterwards exactly when the drain undid what it had carried out |
| `TwoPeerRuns.FailedDrainConservesIff` | src/session_phases/mod.rs:478-490 | In any run such a drain conserves the money exactly when it did not overpay, and it did not when the shares fit |
| `TwoPeerRuns.RunGoesOnAstray` | src/game_session.rs:855-870 | A flush of an acceptance and a settlement that is not ours to make is a step the run goes on from, with the potato still ours, nothing queued or sent, and one live game more than the other side has |
| `TwoPeerRuns.StaleUnrollsArePreempted` | src/channel_state/mod.rs:1617-1772 | In every reachable state every state this peer ever sent and left behind is preempted |
| `TwoPeerRuns.NoStateIsUnrecoverable` | src/session_phases/handler_base.rs:25-57 | In every reachable state no state number up to the current one is unrecoverable, and each resolves from its own puzzle hash |
| `TwoPeerRuns.UnrollCoinsFindTheirGames` | src/channel_state/mod.rs:1799-1912 | In every reachable state the coins of the last received unroll all find their games, and no two the same |
| `RunPayouts.EveryStatePaysOut` | src/channel_state/mod.rs:693-847 | In every reachable state, every state this side ever signed or took in pays out the whole channel amount, by timeout only after the unroll timeout; failed drains may have added what they overpaid |
| `RunPayouts.SentStatePaysBalances` | src/channel_state/mod.rs:693-729 | While a batch of ours is under way in a run with mirrored views, the state signed pays each side exactly what is its due |
| `RunPayouts.ReceivedStatePaysBalances` | src/channel_state/mod.rs:822-847 | A state just taken in, with the peer's verifying signature, pays each side exactly what is its due, in any run |
| `RunPayouts.SettlementsPayTimeouts` | src/channel_state/mod.rs:1376-1460 | In every reachable state a settlement, sent or received, moves to each side what the timeout of the game's coin would pay it |
| `RunPayouts.CleanClosePaysAll` | src/session_phases/mod.rs:829-957 | A clean close reached in a run pays out the whole channel amount, to each side its balance |
| `RunPayouts.OnChainTurnsAreRight` | src/session_phases/on_chain.rs:661-1457 | Going on chain from any reachable state, the turn recorded of each coin, and every turn told, is the puzzle's, then and after any run of spends |
| `ChannelStates.ChannelState.New` | src/channel_state/mod.rs:466-604 | Builds the channel, or fails on equal keys or no timeout |
| `ChannelStates.ChannelState.AllocateMyNonce` | src/channel_state/mod.rs:154-158 | Hands out the next nonce of our parity and changes nothing else |
| `ChannelStates.ChannelState.VerifyAndStoreInitialPeerSignatures` | src/channel_state/mod.rs:352-394 | Stores the peer's signatures of state 0, or rejects them unchanged |
| `ChannelStates.ChannelState.SignNextState` | src/channel_state/mod.rs:693-729 | Numbers, signs and records the next state and gives the potato away; what the state pays is stated in `ChannelPayouts.UnrollPaysBalances` |
| `ChannelStates.ChannelState.VerifyReceivedBatchSignatures` | src/channel_state/mod.rs:822-847 | Takes the peer's next state, its record and the potato, or fails having only dropped the pending settlements |
| `ChannelStates.ChannelState.DrainCachedAcceptSettlements` | src/channel_state/mod.rs:268-279 | Reports the cached settlements and clears the cache |
| `ChannelStates.ChannelState.ProposeGame` | src/channel_state/mod.rs:878-918 | Adds our proposal |
| `ChannelStates.ChannelState.ReceiveProposal` | src/channel_state/mod.rs:931-1032 | Adds the peer's proposal, or rejects it unchanged for its nonce, amounts or duplication |
| `ChannelStates.ChannelState.AcceptInner` | src/channel_state/mod.rs:1035-1070 | Makes a proposal a live game and moves both stakes, or changes nothing |
| `ChannelStates.ChannelState.Accept` | src/channel_state/mod.rs:1072-1076 | As above, remembering that we accepted |
| `ChannelStates.ChannelState.ReceiveAccept` | src/channel_state/mod.rs:1079-1086 | As above, for one of our own proposals |
| `ChannelStates.ChannelState.Cancel` | src/channel_state/mod.rs:1089-1107 | Removes the proposal, or reports that there is none |
| `ChannelStates.ChannelState.CancelAll` | src/channel_state/mod.rs:1109-1113 | Removes every proposal |
| `ChannelStates.ChannelState.MakeMove` | src/channel_state/mod.rs:1270-1312 | Moves in a game and caches the move for a redo, or changes nothing |
| `ChannelStates.ChannelState.ReceiveMove` | src/channel_state/mod.rs:1316-1361 | Takes the peer's move into the game, or changes nothing |
| `ChannelStates.ChannelState.Settle` | src/channel_state/mod.rs:1376-1426 | Pays both sides out of the game, as `ChannelReferees.SentSettlementPaysTimeout` says, and keeps it pending, or fails with exactly what was done before the failing check |
| `ChannelStates.ChannelState.ReceiveSettlement` | src/channel_state/mod.rs:1430-1460 | The same for the peer's settlement, with the checks in its own order, as `ChannelReferees.ReceivedSettlementPaysTimeout` says |
| `ChannelStates.ChannelState.ResolveUnrollFromConditions` | src/channel_state/mod.rs:1560-1576 | The loop finds the first created coin that is in the unroll map |
| `ChannelStates.ChannelState.SetStateForCoinsInMap` | src/channel_state/mod.rs:1799-1912 | The loop over coins gives the map the properties above are about |
| `OffChainPhases.OffChainPhase.SendPotatoRequestIfNeeded` | src/session_phases/mod.rs:1007-1018 | Asks once, only without the potato |
| `OffChainPhases.OffChainPhase.DoGameAction` | src/session_phases/mod.rs:1499-1503 | Queues at the back and asks if needed |
| `OffChainPhases.OffChainPhase.ProposeGames` | src/session_phases/mod.rs:1515-1598 | Withdraws a queued shutdown, and queues one group with consecutive nonces unless a peer proposal is open or the factory gives none |
| `OffChainPhases.OffChainPhase.AcceptGroupOf` | src/session_phases/mod.rs:1600-1658 | Queues the acceptance of the whole group, or its silent cancellation when the balances do not cover it |
| `OffChainPhases.OffChainPhase.CancelGroupOf` | src/session_phases/mod.rs:1660-1676 | Queues the cancellation of the whole group |
| `OffChainPhases.OffChainPhase.DrainOne` | src/session_phases/mod.rs:1034-1221 | One queue item: sent, deferred, turned into a cancellation, or an error with the channel it leaves and the action to report |
| `OffChainPhases.OffChainPhase.DrainActions` | src/session_phases/mod.rs:1028-1222 | The pop-front loop builds batch, deferred queue and shutdown in order, or stops with what was applied so far and the rest of the queue |
| `OffChainPhases.OffChainPhase.DrainQueueIntoBatch` | src/session_phases/mod.rs:1020-1260 | Sends what was drained and gives the potato away, keeps it when there was nothing, or fails with the state the failed drain leaves |
| `OffChainPhases.OffChainPhase.FlushPendingActions` | src/session_phases/mod.rs:426-436 | A flush drains the queue of a holder of the potato, and leaves what the drain leaves whether it fails or not |
| `OffChainPhases.OffChainPhase.SendEmptyPotato` | src/channel_state/mod.rs:731-736 | Signs the next state as it stands and gives the potato away |
| `OffChainPhases.OffChainPhase.ApplyOne` | src/session_phases/mod.rs:680-812 | One received action, with its effect on our queue and the message it answers with |
| `OffChainPhases.OffChainPhase.ApplyBatch` | src/session_phases/mod.rs:643-812 | Whole groups only; all actions in order or an error |
| `OffChainPhases.OffChainPhase.CloseCleanly` | src/session_phases/mod.rs:829-957 | Ends the channel when the games are over and the payout and its signature are right; whose payout is whose is stated in `ChannelPayouts.ClosePaysBalances` |
| `OffChainPhases.OffChainPhase.UsePotato` | src/session_phases/mod.rs:478-534 | Our own work first, then the peer's request, then the answer to a settlement; a move or settlement of ours that fails is reported and the potato kept with what the drain left |
| `OffChainPhases.OffChainPhase.UpdateAfterReceive` | src/session_phases/mod.rs:447-534 | Takes the potato, reports settlements, asks for a shutdown when the peer has nothing left |
| `OffChainPhases.OffChainPhase.ProcessReceivedBatch` | src/session_phases/mod.rs:643-999 | A batch: applied and answered, or the end of the channel |
| `OffChainPhases.OffChainPhase.ProcessQueuedMessage` | src/session_phases/mod.rs:1291-1356 | Every message in every potato state, errors included; a batch that is refused puts channel and queue back |
| `CoinLifecycle.ReportKeepsLifecycle` | src/transaction_manager.rs:631-856 | A report of a coin keeps its observations in order and its claims counted |
| `CoinLifecycle.CoinLifecycle` | src/transaction_manager.rs:661-856 | Over any run: a vanished coin is watched and not present, and no further report calls it spent for being absent; every Spent has its own earlier Created; claims queued are re-arms plus the one outstanding |
| `CoinLifecycle.VanishedIsNotSpent` | src/transaction_manager.rs:789-797 | In every report of every run a coin that has vanished, in this report or before, is reported spent only when its record says so |
| `CoinLifecycle.ObservedIff` | src/transaction_manager.rs:775-833 | In every report of every run exactly these are observed: a creation of a coin live now and not before, a spend of one that was live, is not and is not gone for a rollback, and both of one first seen spent |
| `CoinLifecycle.SpendIsNotMissed` | src/transaction_manager.rs:775-833 | A coin live at one snapshot and not at the next, of the same height or above, is observed spent in between, once |
| `CoinLifecycle.CreationIsNotMissed` | src/transaction_manager.rs:775-833 | A coin not live at one snapshot and live at the next is observed created |
| `CoinLifecycle.ReportTeaches` | src/transaction_manager.rs:631-856 | From one end of a report to the other: which creation and spend are believed or forgotten, when the claim is re-armed and queued, when the coin is forgotten, and what epoch begins |
| `CoinLifecycle.HeightTeaches` | src/transaction_manager.rs:507-558 | The same for a height on its own |
| `CoinLifecycle.WatchTeaches` | src/transaction_manager.rs:452-474 | Watching again updates timeout and claim and keeps what is known |
| `CoinLifecycle.NoDueClaimIsLeft` | src/transaction_manager.rs:595-613 | Over every run, after a report or a height no claim that is due is left out |
| `CoinLifecycle.QueuedClaimsAreDue` | src/transaction_manager.rs:595-613 | In every run a claim is queued only when some report has told of the coin's creation, its timeout has passed since, and no spend of it stands |
| `CoinLifecycle.QueuedAgainOnlyAfterRearm` | src/transaction_manager.rs:530-558 | While the coin stays watched its claim is queued again only after it was re-armed in between |
| `CoinLifecycle.OneRollbackOneClaim` | src/transaction_manager.rs:507-558 | A height-only rollback and the snapshot of that height, with birthdays kept, re-arm and queue one claim |
| `CoinLifecycle.FurtherClaimMeansMovedBirthday` | src/transaction_manager.rs:530-558 | A further claim means the snapshot moved the coin's birthday |
| `Submissions.TightestIsLeast` | src/transaction_manager.rs:98-104 | The retained expiry is the least of all given, none counting as no limit |
| `Submissions.ApplyKeepsLedger` | src/transaction_manager.rs:393-447 | Draining, requeueing, pruning, replaying and evicting keep one record per spent-coin list with the tightest expiry drained for it |
| `Submissions.RetainedSubmissions` | src/transaction_manager.rs:892-914 | So over any run of them no two retained transactions spend the same list, and each expiry is the minimum drained since retention |
| `Submissions.ReplayedCreator` | src/transaction_manager.rs:861-883 | What is replayed for a vanished coin is a live retained transaction spending its parent, and nothing is replayed exactly when none is left |
| `Submissions.ForgottenIff` | src/transaction_manager.rs:393-447 | A retained transaction is forgotten exactly when it has expired at a reload, is six blocks past its expiry and would be replayed, spends a coin spent for good, or lost a coin to another; otherwise it keeps its bundle and expiry |
| `Submissions.HandedOutIsRetained` | src/transaction_manager.rs:393-434 | What is handed out is retained |
| `Submissions.KeysTellSpends` | src/transaction_manager.rs:106-120 | Two bundles have one key exactly when they spend the same coins in the same order |
| `TransactionManagers.TransactionManager.RegisterWatch` | src/transaction_manager.rs:452-474 | Watches or updates one coin and no other |
| `TransactionManagers.TransactionManager.DrainSubmissions` | src/transaction_manager.rs:393-434 | Hands out everything queued and retains it, or, if anything fails to parse, changes nothing |
| `TransactionManagers.TransactionManager.RequeueSubmitted` | src/transaction_manager.rs:440-447 | Queues again what is retained and not expired |
| `TransactionManagers.TransactionManager.InvalidateTimeoutClaims` | src/transaction_manager.rs:530-558 | A new rollback epoch re-arms exactly the claims it invalidates |
| `TransactionManagers.TransactionManager.EvaluateMatureTimeoutClaims` | src/transaction_manager.rs:595-613 | Queues each due claim once and marks it |
| `TransactionManagers.TransactionManager.ReportHeight` | src/transaction_manager.rs:507-525 | A height report moves every coin as the model of one coin says, or is rejected unchanged |
| `TransactionManagers.TransactionManager.RollBackBirthdays` | src/transaction_manager.rs:669-688 | A reorg forgets births and spends above the new height and marks exactly the newly vanished coins |
| `TransactionManagers.TransactionManager.ReconcileRecords` | src/transaction_manager.rs:690-739 | The records loop, any records in order: births, confirmed spends, live coins and those first seen spent |
| `TransactionManagers.OneRecordCounts` | src/transaction_manager.rs:690-739 | With no two records for a coin, the loop does to it what its own record says |
| `TransactionManagers.TransactionManager.SettleObservations` | src/transaction_manager.rs:775-833 | Which coins are reported created and which spent, and what is stamped; which spends those are over runs is stated in `CoinLifecycle.ObservedIff` |
| `TransactionManagers.TransactionManager.ReconcileSubmitted` | src/transaction_manager.rs:741-773 | Marks landed transactions and prunes those beaten to a coin |
| `TransactionManagers.TransactionManager.ResubmitVanished` | src/transaction_manager.rs:861-883 | Replays the creator of each newly vanished coin |
| `TransactionManagers.TransactionManager.EvictConfirmedSpends` | src/transaction_manager.rs:892-914 | Forgets coins spent deep enough, everywhere they are kept |
| `TransactionManagers.TransactionManager.FinishReport` | src/transaction_manager.rs:835-856 | What follows the observations: the replays of vanished coins and then the due claims are queued, and buried spends are forgotten |
| `TransactionManagers.TransactionManager.ReportCoinStates` | src/transaction_manager.rs:631-856 | A snapshot moves every coin as the model of one coin says, names exactly the newly vanished coins, queues their creators' replays and then the due claims, and updates the submissions, or is rejected with nothing changed |
| `TransactionManagers.ReportRunsLedger` | src/transaction_manager.rs:741-856 | What a report leaves submitted and pending is a run of the submission operations, so all that every run of them keeps holds over reports |
| `TransactionManagers.BeatenIff` | src/transaction_manager.rs:741-773 | A report drops a transaction as beaten exactly when it never landed, a coin of its is recorded spent and none of its outputs is recorded created |
| `OnChainGames.ActionIsFine` | src/session_phases/on_chain.rs:1561-1687 | An action of ours keeps one coin per game and loses no game without at most one ending for it |
| `OnChainGames.SpendIsFine` | src/session_phases/on_chain.rs:661-1457 | So does every spend of a game coin, however the game's referee reads it |
| `OnChainGames.RunIsFine` | src/session_phases/on_chain.rs:1459-1470 | So does any run, queued actions included |
| `OnChainGames.OneEndingPerGame` | src/session_phases/on_chain.rs:484-517 | Over any run each game gets at most one ending, is tracked before it and not after, and none comes back |
| `OnChainGames.UnrollStartsOneCoinPerGame` | src/channel_state/mod.rs:1799-1912 | What the channel hands over has one coin per game |
| `OnChainTurns.TurnsAreThePuzzles` | src/session_phases/on_chain.rs:661-1457 | Over every run the turn recorded of a tracked coin is ours exactly when its puzzle has us as the mover, and so is every turn told |
| `OnChainTurns.EventKeepsLaw` | src/session_phases/on_chain.rs:1242-1249 | Every spend, action and unknown spend keeps that, whichever way the spend is read |
| `OnChainTurns.TurnIsTheReferees` | src/session_phases/on_chain.rs:988-1457 | For the coin of the referee's last state the recorded turn is the referee's own |
| `OnChainTurns.ReadingKeepsTurn` | src/session_phases/on_chain.rs:409-482 | However a spend is read, the referee kept is a player's; a move followed gives us the turn in the very coin it waits on, an expected one turns the roles round |
| `OnChainTurns.TheirMoveGivesTheTurn` | src/session_phases/on_chain.rs:1220-1360 | The opponent's move on a coin we wait on: the game is then tracked in the coin the puzzle created, at our turn, with a referee ready to move in it |
| `OnChainTurns.MoveGoesOutIff` | src/session_phases/on_chain.rs:1472-1559 | On our turn in the coin the game is known by, a move goes out exactly when its handler makes it with a share within the amount; the referee is put back as it was unless the share is above |
| `OnChainTurns.MoveIsDoneIff` | src/session_phases/on_chain.rs:1472-1559 | When any move is carried out: turn, no move waiting, handler, share, and the coin known |
| `OnChainTurns.OurMoveGivesTheTurnAway` | src/session_phases/on_chain.rs:672-778 | Our move from request to landing: the game is tracked in the coin the puzzle created, at the opponent's turn, with the referee that made the move |
| `OnChainEndings.TimeoutCreates` | clsp/referee/onchain/referee.clsp:42-58 | The coins a timeout creates: each side's share, if any, to its reward hash, the mover's first |
| `OnChainEndings.ClaimIffPaysUs` | src/session_phases/on_chain.rs:536-588 | A coin is registered with a claim exactly when its timeout pays us |
| `OnChainEndings.TimeoutIsReported` | src/session_phases/on_chain.rs:1140-1220 | A timeout is reported with what it pays us, and as that of the side the coin's puzzle has as its mover |
| `OnChainEndings.AcceptedTimeoutIsReported` | src/session_phases/on_chain.rs:877-986 | So is that of a game whose result we have accepted |
| `OnChainEndings.LateMoveIsReported` | src/session_phases/on_chain.rs:745-778 | And one that beats a move of ours; as a move too late exactly when nothing is ours |
| `OnChainEndings.SettlementArmsIff` | src/session_phases/on_chain.rs:1635-1675 | A settlement on chain gives the game up exactly on our turn with nothing ours, and otherwise arms the claim |
| `OnChainEndings.SettledGamePaysOut` | src/session_phases/on_chain.rs:877-986 | Its timeout then ends the game cleanly with what it pays us |
| `OnChainEndings.TheirMoveDecides` | src/session_phases/on_chain.rs:1242-1360 | After the opponent's move a game all ours, or over with something for us, is settled at once, one over with nothing is lost, any other is ours to move |
| `OnChainEndings.SlashRemembersShare` | src/referee/their_turn.rs:611-653 | A slash is worth the whole game and remembers the share the cheat left us |
| `OnChainEndings.CheatIsReportedAsPaid` | src/session_phases/on_chain.rs:795-876 | A timeout of a coin we were slashing is reported as a cheat with what it pays us |
| `OnChainEndings.CheatThatStandsIsReported` | src/session_phases/on_chain.rs:1361-1425 | From the illegal move to that ending |
| `OnChainEndings.SlashByMoverIsReported` | src/session_phases/on_chain.rs:1140-1220 | A slash by the opponent, when it is to move, is reported as that, with nothing for us |
| `OnChainEndings.KnownCoinIsExpected` | src/session_phases/on_chain.rs:439-458 | A spend that makes another coin of our own states is expected whoever made it: the referee stays, the turn passes on |
| `OnChainEndings.UnexpectedSpendEndsGame` | src/session_phases/on_chain.rs:1002-1051 | A spend that cannot be read, or on our turn reads as the opponent's, ends the game with an error |
| `OnChainEndings.QueueGoesInOrder` | src/session_phases/on_chain.rs:1459-1470 | Queued actions are taken from the front, none twice |
| `OnChainEndings.SpentCoinIsDropped` | src/session_phases/on_chain.rs:779-794 | A coin whose spend can be read is no longer tracked, and what is tracked in its place was made by that spend |
| `OnChainPhases.OnChainPhase.DoOnChainMove` | src/session_phases/on_chain.rs:1472-1559 | A move on chain in each of its cases: made on the game's referee, which is put back until it lands, with the pending move recorded |
| `OnChainPhases.OnChainPhase.BuildTimeoutClaim` | src/session_phases/on_chain.rs:536-588 | The claim of a coin's timeout, live game or settled |
| `OnChainPhases.OnChainPhase.AcceptSettlement` | src/session_phases/on_chain.rs:1635-1675 | A settlement on chain |
| `OnChainPhases.OnChainPhase.DoOnChainAction` | src/session_phases/on_chain.rs:1561-1687 | Every kind of action, one coin per game kept |
| `OnChainPhases.OnChainPhase.ProcessQueuedAction` | src/session_phases/on_chain.rs:1459-1470 | Takes the queue from the front until an action is blocked |
| `OnChainPhases.OnChainPhase.EmitLoserForfeitTerminal` | src/session_phases/on_chain.rs:484-517 | Ends the game once and drops its coins |
| `OnChainPhases.OnChainPhase.ResolvePendingMove` | src/session_phases/on_chain.rs:672-778 | Whether a spend is our own pending move landing |
| `OnChainPhases.OnChainPhase.SpendArmed` | src/session_phases/on_chain.rs:877-986 | A spend of a coin whose timeout claim was armed |
| `OnChainPhases.OnChainPhase.SpendByReferee` | src/session_phases/on_chain.rs:988-1457 | A spend as the game's own referee reads it, with the referee it leaves |
| `OnChainPhases.OnChainPhase.FollowSpend` | src/session_phases/on_chain.rs:1022-1457 | What follows: expected, moved, timed out, slashed or paid; whose turn then is stated in `OnChainTurns.EventKeepsLaw` |
| `OnChainPhases.OnChainPhase.HandleGameCoinSpent` | src/session_phases/on_chain.rs:661-1457 | The whole handler, referees included |
| `OnChainPhases.OnChainPhase.CoinSpentWithoutSolution` | src/session_phases/on_chain.rs:1766-1800 | A spend whose puzzle and solution are not to be had ends the game with an error |
| `KrunkDictionary.LessIffValue` | src/games/krunk_dict_tree.rs:252-292 | The byte order of words is the order of their values |
| `KrunkDictionary.WordAddOne` | src/games/krunk_dict_tree.rs:14-25 | The carry loop adds one, wrapping at the top |
| `KrunkDictionary.AddOne` | src/games/krunk_dict_tree.rs:14-25 | What adding one means |
| `KrunkDictionary.WordSubOne` | src/games/krunk_dict_tree.rs:28-39 | The borrow loop subtracts one, wrapping at zero |
| `KrunkDictionary.SubOne` | src/games/krunk_dict_tree.rs:28-39 | What subtracting one means |
| `KrunkDictionary.GenerateGapEvidence` | src/games/krunk_dict_tree.rs:50-104 | The loop lists the evidence of the reachable gaps in order |
| `KrunkDictionary.ReachableGapMask` | src/games/krunk_dict_tree.rs:109-140 | The mask says of every gap whether any word fits in it |
| `KrunkDictionary.CompactIndexFits` | src/games/krunk_dict_tree.rs:145-161 | A reachable gap has its compact signature, for its own evidence: indices never run out |
| `KrunkDictionary.ExpandSignaturesForTree` | src/games/krunk_dict_tree.rs:145-161 | The expansion has the compact signature of each reachable gap and the default elsewhere |
| `KrunkDictionary.LookupGapSignature` | src/games/krunk_dict_tree.rs:310-351 | The cursor loop is the lookup on trees |
| `KrunkDictionary.SignedTreeIsWellShaped` | src/games/krunk_dict_tree.rs:252-292 | The tree built has the shape the lookup takes apart |
| `KrunkDictionary.SignedTreeIsBalanced` | src/games/krunk_dict_tree.rs:244-292 | Among fewer than 2^d words a lookup makes at most d comparisons |
| `KrunkDictionary.LookupIsRank` | src/games/krunk_dict_tree.rs:252-351 | Lookup finds nothing exactly for listed words, otherwise the signature at the query's rank |
| `KrunkDictionary.RankIsPosition` | src/games/krunk_dict_tree.rs:50-104 | The rank is where a linear scan would put the query |
| `KrunkDictionary.GapAtRank` | src/games/krunk_dict_tree.rs:109-140 | That gap is reachable with an interval around an unlisted query exactly when the query's top bit is clear or no word is listed; a reachable gap's interval holds no listed word |
| `KrunkDictionary.DictionaryRefinesWordList` | src/games/krunk_dict_tree.rs:205-351 | All of it together, for any sorted list and any query: nothing for a listed word; otherwise the signature of its gap, whose evidence encloses the query exactly under that condition, or the default one where the gap is unreachable |
| `KrunkDictionary.DictTreeIsBalanced` | src/games/krunk_dict_tree.rs:361-390 | The plain tree holds the words in order at logarithmic depth |
| `Bencodex.KeyLessIsStrictTotal` | bencodex/src/ser.rs:353-368 | The key order is a strict total order |
| `Bencodex.KeyLessIff` | bencodex/src/ser.rs:353-368 | A byte key comes before a text key, and within a kind the one that ends first or has the smaller byte where they first differ |
| `Bencodex.WrittenScalars` | bencodex/src/tests.rs:5-98 | What null, the booleans, integers, byte strings and texts look like when written |
| `Bencodex.WrittenList` | bencodex/src/tests.rs:100-113 | What a list looks like |
| `Bencodex.WrittenDict` | bencodex/src/ser.rs:432-440 | What a dictionary looks like, its byte key first whatever the order of its entries |
| `Bencodex.SortAscends` | bencodex/src/ser.rs:432-440 | Sorting distinct keys puts them in that order |
| `Bencodex.SortPermutes` | bencodex/src/ser.rs:432-440 | Sorting loses and adds no entry |
| `Bencodex.SortIsCanonical` | bencodex/src/ser.rs:432-440 | The sorted entries do not depend on insertion order |
| `Bencodex.DictionaryEncodingIsCanonical` | bencodex/src/ser.rs:432-440 | Nor do the bytes of a dictionary |
| `BencodexParse.IntRoundTrip` | bencodex/src/de.rs:43-57 | Written integers parse, leaving exactly what follows |
| `BencodexParse.ByteStringRoundTrip` | bencodex/src/de.rs:59-73 | So do byte strings |
| `BencodexParse.LengthPanicsIff` | bencodex/src/de.rs:66-70 | A length in digits overflows the address arithmetic, whatever follows, exactly when it is below 2^64 and the end it leads to is not |
| `BencodexParse.GreatestLengthPanics` | bencodex/src/de.rs:66-70 | The greatest 64-bit length does |
| `BencodexParse.TextRoundTrip` | bencodex/src/de.rs:75-80 | So do texts |
| `BencodexParse.KeyRoundTrip` | bencodex/src/de.rs:344-349 | So do dictionary keys |
| `BencodexParse.RoundTrip` | bencodex/src/de.rs:86-134 | So does every value, nested as it may be, dictionaries in key order |
| `BencodexParse.EncodeThenDecode` | bencodex/src/de.rs:5-16 | Decoding an encoding gives the value; anything after it is an error |
| `BencodexParse.U128RoundTripsIff` | bencodex/src/ser.rs:60 | An unsigned 128-bit integer comes back exactly when below 2^127 |
| `BencodexSer.BencodexSerializer.WriteByteString` | bencodex/src/ser.rs:15-19 | Appends length, colon and bytes |
| `BencodexSer.BencodexSerializer.WriteUnicode` | bencodex/src/ser.rs:21-27 | Appends the tagged text |
| `BencodexSer.BencodexSerializer.WriteInt` | bencodex/src/ser.rs:29-33 | Appends the decimal integer |
| `BencodexSer.BencodexSerializer.WriteKey` | bencodex/src/ser.rs:341-351 | Appends a key by its kind |
| `BencodexSer.ByteSeqSerializer.SwitchToList` | bencodex/src/ser.rs:208-217 | Writes the bytes held back as list elements, losing none |
| `BencodexSer.ByteSeqSerializer.SerializeElement` | bencodex/src/ser.rs:224-248 | Keeps buffer and output together equal to every element so far |
| `BencodexSer.ByteSeqSerializer.End` | bencodex/src/ser.rs:250-257 | A byte string for u8 elements only, otherwise the list of all elements |
| `BencodexSer.SequenceRoundTrip` | bencodex/src/de.rs:204-221 | Any sequence, mixed or all bytes, reads back element for element |
| `BencodexSer.DictCollector.SerializeKey` | bencodex/src/ser.rs:373-452 | Holds the key that is made of a map key of any kind, or refuses it and keeps what it held |
| `BencodexSer.IntegerKeysStayApart` | bencodex/src/ser.rs:388-395 | Different integer keys make different dictionary keys, a `u8` and any other integer included |
| `BencodexSer.DictCollector.SerializeValue` | bencodex/src/ser.rs:454-461 | Pairs the encoded value with the held key, or errs without one |
| `BencodexSer.DictCollector.Flush` | bencodex/src/ser.rs:432-440 | Writes the entries in key order |
| `BencodexSer.SerializeDict` | bencodex/src/ser.rs:140-146 | A dictionary through the collector is its canonical encoding |
| `BencodexDe.Deserializer.ConsumeTerminator` | bencodex/src/de.rs:31-41 | Consumes the terminator or says why not |
| `BencodexDe.Deserializer.ReadInt` | bencodex/src/de.rs:43-57 | The cursor form of the integer parser, errors included |
| `BencodexDe.Deserializer.ReadByteString` | bencodex/src/de.rs:59-73 | Of the byte string parser, its overflow included |
| `BencodexDe.Deserializer.ReadUnicode` | bencodex/src/de.rs:75-80 | Of the text parser |
| `BencodexDe.Deserializer.DeserializeAny` | bencodex/src/de.rs:86-134 | Of the value parser, for every tag |
| `BencodexDe.Deserializer.VisitList` | bencodex/src/de.rs:303-308 | Of the elements of a list |
| `BencodexDe.Deserializer.VisitDict` | bencodex/src/de.rs:344-353 | Of the entries of a dictionary |
| `BencodexDe.Deserializer.DeserializeSeq` | bencodex/src/de.rs:204-221 | Of a target that takes sequences only: a list or a byte string, and every other value refused |
| `BencodexDe.FromSliceAny` | bencodex/src/de.rs:5-16 | One value and nothing after it |
| `BencodexJs.CompareBytes` | shared/bencodex/index.js:45-51 | The sign of the result is the order of byte strings |
| `BencodexJs.TextEncodedIs` | shared/bencodex/index.js:30-37 | What is written for a string is UTF-8, and the string itself exactly when it has no unpaired surrogate |
| `BencodexJs.SameKeyOrder` | shared/bencodex/index.js:35-43 | The JavaScript key order is the Rust one |
| `BencodexJs.SameEncoding` | shared/bencodex/index.js:59-92 | The two encoders write the same bytes for every value, once unpaired surrogates, which Rust cannot hold, are replaced |
| `BencodexJsDecoder.Decoder.ReadUntil` | shared/bencodex/index.js:115-124 | The bytes up to the first delimiter, and the offset past it |
| `BencodexJsDecoder.Decoder.ReadLength` | shared/bencodex/index.js:126-141 | A length, its first digit perhaps already taken, errors included |
| `BencodexJsDecoder.Decoder.ReadBytes` | shared/bencodex/index.js:143-149 | That many bytes |
| `BencodexJsDecoder.Decoder.ReadInteger` | shared/bencodex/index.js:151-162 | An integer up to its terminator |
| `BencodexJsDecoder.Decoder.ReadValue` | shared/bencodex/index.js:164-195 | A value of any tag |
| `BencodexJsDecoder.Decoder.ReadList` | shared/bencodex/index.js:172-179 | The elements of a list, in order |
| `BencodexJsDecoder.Decoder.ReadDict` | shared/bencodex/index.js:180-192 | The entries of a dictionary, set one after the other |
| `BencodexJsDecoder.Decode` | shared/bencodex/index.js:197-202 | One value and nothing after it |
| `BencodexJsDecoder.EncodingReads` | shared/bencodex/index.js:164-195 | Every encoding decodes and leaves exactly what follows |
| `BencodexJsDecoder.ComesBackIff` | shared/bencodex/index.js:170-188 | A value whose strings reach the decoder as they are comes back unchanged exactly when no text or text key in it starts with a byte order mark |
| `BencodexJsDecoder.JsRoundTripsIff` | shared/bencodex/index.js:197-202 | Any value the encoder takes comes back exactly when, besides, none of its strings has an unpaired surrogate; what is written always decodes |
| `BencodexJsDecoder.RustIsReadIff` | shared/bencodex/index.js:197-202 | What the Rust encoder writes comes back exactly when no text starts with a byte order mark |
| `BencodexJsDecoder.DecodersAgree` | bencodex/src/de.rs:5-16 | On such values the two decoders give the same result |
| `BencodexJsDecoder.MarkIsDropped` | shared/bencodex/index.js:170 | A text that is only a byte order mark comes back empty |
| `BencodexJsDecoder.SurrogateIsReplaced` | shared/bencodex/index.js:30-33 | A text that is only a surrogate comes back as the replacement character |
| `CurriedHash.CurryAndTreeHash` | src/common/standard_coin.rs:132-158 | The reverse loop computes the hash of the environment chain applied to the module |
| `CurriedHash.ConsedIsTreeHash` | src/common/standard_coin.rs:111-130 | The consed parameter hash is the tree hash of that expression |
| `CurriedHash.QuotedModIsTreeHash` | src/common/standard_coin.rs:160-167 | The quoted module hash is the tree hash of the quoted module |
| `CurriedHash.AppliedIsTreeHash` | src/common/standard_coin.rs:150-158 | The last step is the tree hash of the application |
| `CurriedHash.EnvironmentIsTreeHash` | src/common/standard_coin.rs:132-150 | The environment hash is the tree hash of the curried arguments, from any position on |
| `CurriedHash.CurryHashIsTreeHash` | src/common/standard_coin.rs:132-158 | So the curried hash is the tree hash of the fully built curried program, for any hash function |

## Left out

- BLS arithmetic, key derivation, SHA-256 and CLVM execution: signatures and hashes are symbolic, programs are arbitrary functions.
- Handshake messages, wallet offers, launcher and settlement coins: the start of a run is what they leave.
- Cheating and test-only paths, the obsolete send-potato action, and `game_is_my_turn` of cached moves.
- `GameSession`, notifications, status snapshots, logs and saved state: of the effects, only messages to the peer and, on chain, notices and registrations are modelled.
- What follows a clean shutdown or going on chain inside a run of two peers: runs end there; the spend-channel-coin phase is not part of this model.
- Partial state after an error that ends the session or goes on chain, as a batch refused half way: methods promise which error. Where the session goes on after an error, the state is promised.
- `drain_preempt_resolved_accept_settlements` and the settlement reports it makes.
- TransactionManagers.TransactionManager.ReportCoinStates: takes at most one record per coin, and does not model session errors in between, the session's own timeout-claim status or abandoned sessions.
- Order of iteration over hash maps and sets: what is proved holds for any order.
- Submissions.ReplayedCreator: expected outputs of a bundle come from an abstract parser.
- OnChainPhases.OnChainPhase.HandleGameCoinSpent: payout coin bookkeeping, reward coin names and the readable a followed move delivers are left out; a slash without a reward, which nothing produces, is too.
- RefereeOnChain.SlashOpensCommitment: whether the validator a slash reveals calls the move slashable is up to the CLVM program; the slash branch of the puzzle beyond its commitment is not modelled.
- RefereeOnChain.TimeoutPaysShares: the AGG_SIG_ME signature of a move is recorded as who signs which solution; remarks are dropped.
- JavaScript objects that are not maps, and byte keys shared between JavaScript maps.
- UnrollTurns.StartIsLawful: which games are given up at once when the unroll lands is left open; the law holds whichever are.
- OnChainTurns.TurnsAreThePuzzles: that payouts go to the two reward hashes, and that a move of ours on chain is one we submitted, stand for signatures the puzzle asks for.
- Typed deserialization, enum and struct variants, and the rejection of non-canonical Bencodex.
- The sorts of the two libraries are stable insertion sorts here; which stable sort does not matter.
- Generating and checking the BLS signatures of the dictionary, and its byte form.
