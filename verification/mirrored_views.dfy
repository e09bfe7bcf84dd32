/** The two sides' views of the channel mirror each other, and stay so when one
    side drains its queue and the other applies the batch. */
module MirroredViews {
  import opened Wrappers
  import opened Chain
  import opened Referees
  import opened Channels
  import opened ChannelMoney
  import opened ChannelGames
  import opened OffChainPeers
  import opened PeerInvariants

  // ---------------------------------------------------------------------------
  // Mirrored views
  // ---------------------------------------------------------------------------

  ghost predicate MirroredIdentity(a: ChannelIdentity, b: ChannelIdentity) {
    && a.myChannelKey == b.theirChannelKey && a.theirChannelKey == b.myChannelKey
    && a.myUnrollKey == b.theirUnrollKey && a.theirUnrollKey == b.myUnrollKey
    && a.myRefereeKey == b.theirRefereeKey && a.theirRefereeKey == b.myRefereeKey
    && a.rewardPh == b.theirRewardPh && a.theirRewardPh == b.rewardPh
    && a.theirPayoutSignature == b.MyPayoutSignature() && b.theirPayoutSignature == a.MyPayoutSignature()
    && a.unrollTimeout == b.unrollTimeout && a.refereeModHash == b.refereeModHash && a.channelCoin == b.channelCoin
  }

  ghost predicate MirroredGame(g: LiveGame, h: LiveGame) {
    && g.gameId == h.gameId && g.lastPh == h.lastPh
    && g.myContribution == h.theirContribution && g.theirContribution == h.myContribution
    && g.lastPh == g.referee.OutcomePuzzleHash()
    && Agree(g.referee, h.referee)
  }

  ghost predicate MirroredProposal(p: ProposedGame, q: ProposedGame) {
    && p.gameId == q.gameId && p.initialPh == q.initialPh
    && p.myContribution == q.theirContribution && p.theirContribution == q.myContribution
    && p.initialPh == p.referee.OutcomePuzzleHash()
    && Agree(p.referee, q.referee)
  }

  ghost predicate MirroredGames(a: seq<LiveGame>, b: seq<LiveGame>) {
    |a| == |b| && forall i :: 0 <= i < |a| ==> MirroredGame(a[i], b[i])
  }

  /** A proposal of an unknown game type is known to its proposer only; those
      both sides know are the same proposal. */
  ghost predicate MirroredProposals(a: seq<ProposedGame>, b: seq<ProposedGame>) {
    forall i, j :: 0 <= i < |a| && 0 <= j < |b| && a[i].gameId == b[j].gameId ==> MirroredProposal(a[i], b[j])
  }

  ghost predicate Mirror(a: Channel, b: Channel) {
    && MirroredIdentity(a.id, b.id)
    && a.myOut == b.theirOut && a.theirOut == b.myOut
    && a.myAllocated == b.theirAllocated && a.theirAllocated == b.myAllocated
    && a.latestSent.coin.startedWithPotato != b.latestSent.coin.startedWithPotato
    && a.myNextNonce % 2 == b.theirNextNonce % 2 && a.theirNextNonce % 2 == b.myNextNonce % 2
    && a.myNextNonce % 2 != b.myNextNonce % 2
    && MirroredGames(a.live, b.live)
    && MirroredProposals(a.proposed, b.proposed)
  }

  lemma MirrorSymmetric(a: Channel, b: Channel)
    ensures Mirror(a, b) <==> Mirror(b, a)
  {
    if Mirror(a, b) {
      GamesSymmetric(a.live, b.live);
      ProposalsSymmetric(a.proposed, b.proposed);
    }
    if Mirror(b, a) {
      GamesSymmetric(b.live, a.live);
      ProposalsSymmetric(b.proposed, a.proposed);
    }
  }

  lemma GamesSymmetric(a: seq<LiveGame>, b: seq<LiveGame>)
    requires MirroredGames(a, b)
    ensures MirroredGames(b, a)
  {
    forall i | 0 <= i < |b|
      ensures MirroredGame(b[i], a[i])
    {
      assert MirroredGame(a[i], b[i]);
      AgreeSymmetric(a[i].referee, b[i].referee);
    }
  }

  lemma ProposalsSymmetric(a: seq<ProposedGame>, b: seq<ProposedGame>)
    requires MirroredProposals(a, b)
    ensures MirroredProposals(b, a)
  {
    forall i, j | 0 <= i < |b| && 0 <= j < |a| && b[i].gameId == a[j].gameId
      ensures MirroredProposal(b[i], a[j])
    {
      assert MirroredProposal(a[j], b[i]);
      AgreeSymmetric(a[j].referee, b[i].referee);
    }
  }

  // --- What mirrored views agree on ---------------------------------------------

  lemma MirroredCoins(a: seq<LiveGame>, b: seq<LiveGame>)
    requires MirroredGames(a, b)
    ensures GameCoins(a) == GameCoins(b)
  {
    forall i | 0 <= i < |a|
      ensures GameCoins(a)[i] == GameCoins(b)[i]
    {
      assert MirroredGame(a[i], b[i]);
    }
  }

  lemma SharedKeys(a: ChannelIdentity, b: ChannelIdentity)
    requires MirroredIdentity(a, b)
    ensures a.UnrollKey() == b.UnrollKey() && a.ChannelKey() == b.ChannelKey()
  {
    assert multiset{a.myUnrollKey, a.theirUnrollKey} == multiset{b.myUnrollKey, b.theirUnrollKey};
    assert multiset{a.myChannelKey, a.theirChannelKey} == multiset{b.myChannelKey, b.theirChannelKey};
  }

  /** Both sides derive the same conditions for a state, and the same channel
      spend; each half signature is what the other side checks for. */
  lemma MirroredUnrolls(a: Channel, b: Channel, number: nat)
    requires Mirror(a, b)
    ensures
      var coinA := UpdatedUnroll(a.id, a.latestSent.coin.startedWithPotato, number, CurrentInputs(a));
      var coinB := UpdatedUnroll(b.id, b.latestSent.coin.startedWithPotato, number, CurrentInputs(b));
      && coinA.outcome.baseConditions == coinB.outcome.baseConditions
      && coinA.outcome.timeoutConditions == coinB.outcome.timeoutConditions
      && UnrollPuzzleHash(a.id, coinA) == UnrollPuzzleHash(b.id, coinB)
      && VerifyUnroll(b.id, coinB, coinA.outcome.signature)
      && VerifyChannel(
           b.id, ChannelSpendConditions(b.id, coinB), OurChannelHalf(a.id, ChannelSpendConditions(a.id, coinA)))
  {
    hide Aggregate, MirroredGames, MirroredProposals;
    SharedKeys(a.id, b.id);
    MirroredCoins(a.live, b.live);
  }

  lemma MirroredShutdown(a: Channel, b: Channel)
    requires Mirror(a, b)
    ensures multiset(ShutdownConditions(a)) == multiset(ShutdownConditions(b))
    ensures VerifyChannel(b.id, ShutdownConditions(a), OurChannelHalf(a.id, ShutdownConditions(a)))
  {
    hide Aggregate, MirroredGames, MirroredProposals;
    SharedKeys(a.id, b.id);
    var mine := if a.myOut != 0 then [CreateCoin(a.id.rewardPh, a.myOut)] else [];
    var theirs := if a.theirOut != 0 then [CreateCoin(a.id.theirRewardPh, a.theirOut)] else [];
    assert ShutdownConditions(a) == mine + theirs && ShutdownConditions(b) == theirs + mine;
    assert multiset(mine + theirs) == multiset(mine) + multiset(theirs) == multiset(theirs + mine);
  }

  lemma {:induction false} MirroredSums(a: seq<LiveGame>, b: seq<LiveGame>)
    requires MirroredGames(a, b)
    ensures SumMine(a) == SumTheirs(b) && SumTheirs(a) == SumMine(b)
  {
    if a != [] {
      assert MirroredGame(a[0], b[0]);
      assert MirroredGames(a[1..], b[1..]);
      MirroredSums(a[1..], b[1..]);
    }
  }

  lemma MirroredMoney(a: Channel, b: Channel, total: nat)
    requires Mirror(a, b) && Money(a, total)
    ensures Money(b, total)
  {
    MirroredSums(a.live, b.live);
    forall i | 0 <= i < |b.live|
      ensures AddsUp(b.live[i])
    {
      assert MirroredGame(a.live[i], b.live[i]) && AddsUp(a.live[i]);
    }
  }

  lemma {:induction false} SameLivePosition(a: seq<LiveGame>, b: seq<LiveGame>, id: nat)
    requires MirroredGames(a, b)
    ensures LivePosition(a, id) == LivePosition(b, id)
  {
    if a != [] {
      assert MirroredGame(a[0], b[0]);
      assert MirroredGames(a[1..], b[1..]);
      SameLivePosition(a[1..], b[1..], id);
    }
  }

  // ---------------------------------------------------------------------------
  // One action, sent and applied
  // ---------------------------------------------------------------------------

  lemma UpdatedGamesMirror(a: seq<LiveGame>, b: seq<LiveGame>, m: nat, g: LiveGame, h: LiveGame)
    requires MirroredGames(a, b) && m < |a| && MirroredGame(g, h)
    ensures MirroredGames(a[m := g], b[m := h])
  {
  }

  lemma RemovedGamesMirror(a: seq<LiveGame>, b: seq<LiveGame>, m: nat)
    requires MirroredGames(a, b) && m < |a|
    ensures MirroredGames(RemoveAt(a, m), RemoveAt(b, m))
  {
    forall i | 0 <= i < |a| - 1
      ensures MirroredGame(RemoveAt(a, m)[i], RemoveAt(b, m)[i])
    {
      var j := if i < m then i else i + 1;
      assert MirroredGame(a[j], b[j]);
    }
  }

  lemma MirroredMovedGame(
    clvm: Clvm, g: LiveGame, h: LiveGame, readable: Program, entropy: Bytes, na: nat, nb: nat)
    requires MirroredGame(g, h)
    requires MyTurnMakeMove(clvm, g.referee, readable, entropy, na).Ok?
    requires
      var wire := MyTurnMakeMove(clvm, g.referee, readable, entropy, na).value.1;
      && TheirTurnMoveOffChain(clvm, h.referee, wire.details, nb).Ok?
      && TheirTurnMoveOffChain(clvm, h.referee, wire.details, nb).value.1.slash.None?
    ensures
      var (a', wire) := MyTurnMakeMove(clvm, g.referee, readable, entropy, na).value;
      var (b', _) := TheirTurnMoveOffChain(clvm, h.referee, wire.details, nb).value;
      && b'.Some?
      && MirroredGame(
           g.(referee := a', lastPh := a'.OutcomePuzzleHash()),
           h.(referee := b'.value, lastPh := b'.value.OutcomePuzzleHash()))
  {
    hide MyTurnMakeMove, TheirTurnMoveOffChain;
    MoveKeepsAgreement(clvm, g.referee, h.referee, readable, entropy, na, nb);
  }

  lemma MirrorMove(clvm: Clvm, a: Channel, b: Channel, id: nat, readable: Program, entropy: Bytes)
    requires Mirror(a, b) && SendMove(clvm, a, id, readable, entropy).Ok?
    requires ApplyReceivedMove(clvm, b, id, SendMove(clvm, a, id, readable, entropy).value.1).Ok?
    ensures
      var (a', details) := SendMove(clvm, a, id, readable, entropy).value;
      Mirror(a', ApplyReceivedMove(clvm, b, id, details).value.0)
  {
    hide MyTurnMakeMove, TheirTurnMoveOffChain, MirroredGame, MirroredProposals;
    SameLivePosition(a.live, b.live, id);
    var m := LivePosition(a.live, id).value;
    var (a', details) := SendMove(clvm, a, id, readable, entropy).value;
    MirroredMovedGame(clvm, a.live[m], b.live[m], readable, entropy, a.stateNumber, b.stateNumber);
    var b' := ApplyReceivedMove(clvm, b, id, details).value.0;
    UpdatedGamesMirror(a.live, b.live, m, a'.live[m], b'.live[m]);
  }

  lemma MirrorSettlement(a: Channel, b: Channel, id: nat)
    requires Mirror(a, b) && SendAcceptSettlement(a, id).Ok? && ApplyReceivedAcceptSettlement(b, id).Ok?
    ensures Mirror(SendAcceptSettlement(a, id).value.0, ApplyReceivedAcceptSettlement(b, id).value.0)
  {
    hide MirroredProposals, MirroredIdentity, RemoveAt, CanonicalAtom;
    SameLivePosition(a.live, b.live, id);
    var m := LivePosition(a.live, id).value;
    assert MirroredGame(a.live[m], b.live[m]);
    RemovedGamesMirror(a.live, b.live, m);
  }

  lemma RemovedProposalsMirror(a: seq<ProposedGame>, b: seq<ProposedGame>, i: nat, j: nat)
    requires MirroredProposals(a, b) && i < |a| && j < |b|
    ensures MirroredProposals(RemoveAt(a, i), RemoveAt(b, j))
  {
    forall x, y | 0 <= x < |a| - 1 && 0 <= y < |b| - 1 && RemoveAt(a, i)[x].gameId == RemoveAt(b, j)[y].gameId
      ensures MirroredProposal(RemoveAt(a, i)[x], RemoveAt(b, j)[y])
    {
      assert RemoveAt(a, i)[x] == a[if x < i then x else x + 1];
      assert RemoveAt(b, j)[y] == b[if y < j then y else y + 1];
    }
  }

  lemma MirrorAccept(a: Channel, b: Channel, id: nat)
    requires Mirror(a, b) && AcceptProposalInner(a, id).Ok? && AcceptProposalInner(b, id).Ok?
    ensures Mirror(AcceptProposalInner(a, id).value, AcceptProposalInner(b, id).value)
  {
    var i, j := ProposalPosition(a.proposed, id).value, ProposalPosition(b.proposed, id).value;
    assert MirroredProposal(a.proposed[i], b.proposed[j]);
    RemovedProposalsMirror(a.proposed, b.proposed, i, j);
    var g, h := AcceptProposalInner(a, id).value.live, AcceptProposalInner(b, id).value.live;
    assert MirroredGame(g[|a.live|], h[|b.live|]);
    assert MirroredGames(g, h);
  }

  lemma MirrorCancel(a: Channel, b: Channel, id: nat)
    requires Mirror(a, b) && CancelProposal(a, id).Ok? && CancelProposal(b, id).Ok?
    ensures Mirror(CancelProposal(a, id).value, CancelProposal(b, id).value)
  {
    hide MirroredGames;
    RemovedProposalsMirror(
      a.proposed, b.proposed, ProposalPosition(a.proposed, id).value, ProposalPosition(b.proposed, id).value);
  }

  // --- Proposal groups ------------------------------------------------------------

  ghost predicate UnknownId(proposals: seq<ProposedGame>, id: nat) {
    forall i :: 0 <= i < |proposals| ==> proposals[i].gameId != id
  }

  lemma UnknownIfNotCounted(ch: Channel, id: nat)
    requires id !in KnownIds(ch)
    ensures UnknownId(ch.proposed, id)
  {
    forall i | 0 <= i < |ch.proposed|
      ensures ch.proposed[i].gameId != id
    {
      ProposalIdCounted(ch.proposed, i);
    }
  }

  /** Identifiers the sender may still propose are all at or above the
      receiver's next expected nonce. */
  ghost predicate Behind(view: nat, ch: Channel, ids: seq<nat>) {
    && view <= ch.myNextNonce
    && forall i :: 0 <= i < |ids| ==> view <= ids[i]
  }

  /** What one side proposes the other does not know yet. */
  lemma ProposedIsNewToPeer(a: Channel, b: Channel, id: nat)
    requires Mirror(a, b) && NonceDiscipline(b)
    requires a.IsOurNonce(id) && b.theirNextNonce <= id
    ensures UnknownId(b.proposed, id)
  {
    hide Mirror, KnownIds;
    assert !b.IsOurNonce(id) by { ParityOpposite(a, b, id); }
    UnknownIfNotCounted(b, id);
  }

  lemma ParityOpposite(a: Channel, b: Channel, id: nat)
    requires Mirror(a, b)
    ensures a.IsOurNonce(id) <==> !b.IsOurNonce(id)
  {
  }

  /** The proposer adds a game the other side does not know. */
  lemma MirrorOneSided(a: Channel, b: Channel, start: GameStartInfo, groupId: nat)
    requires Mirror(a, b) && UnknownId(b.proposed, start.gameId)
    ensures Mirror(SendProposeGame(a, start, groupId), b)
  {
    hide MirroredGames, ProposalOf, MirroredProposal;
    assert ProposalOf(a, start, groupId).gameId == start.gameId by { ProposalNames(a, start, groupId); }
    var added := SendProposeGame(a, start, groupId).proposed;
    assert forall i :: 0 <= i < |a.proposed| ==> added[i] == a.proposed[i];
    assert MirroredProposals(added, b.proposed);
  }

  lemma ProposalNames(ch: Channel, start: GameStartInfo, groupId: nat)
    ensures ProposalOf(ch, start, groupId).gameId == start.gameId
  {
  }

  lemma MirrorProposal(a: Channel, b: Channel, sa: GameStartInfo, sb: GameStartInfo, ga: nat, gb: nat)
    requires Mirror(a, b) && MirroredStart(sa, sb)
    requires UnknownId(a.proposed, sa.gameId) && UnknownId(b.proposed, sb.gameId)
    requires ApplyReceivedProposal(b, sb, gb).Ok?
    ensures Mirror(SendProposeGame(a, sa, ga), ApplyReceivedProposal(b, sb, gb).value)
  {
    hide MirroredGames;
    var p, q := ProposalOf(a, sa, ga), ProposalOf(b, sb, gb);
    assert MirroredProposal(p, q) by {
      NewRefereesAgree(a.id.GameContext(sa), b.id.GameContext(sb), sa, sb, a.stateNumber, b.stateNumber);
    }
    AddedProposalsMirror(a.proposed, b.proposed, p, q);
  }

  lemma AddedProposalsMirror(a: seq<ProposedGame>, b: seq<ProposedGame>, p: ProposedGame, q: ProposedGame)
    requires MirroredProposals(a, b) && MirroredProposal(p, q)
    requires UnknownId(a, p.gameId) && UnknownId(b, q.gameId)
    ensures MirroredProposals(a + [p], b + [q])
  {
    hide MirroredProposal;
    assert p.gameId == q.gameId by { SameIdentifier(p, q); }
  }

  lemma SameIdentifier(p: ProposedGame, q: ProposedGame)
    requires MirroredProposal(p, q)
    ensures p.gameId == q.gameId
  {
  }

  ghost predicate MirroredStarts(a: seq<GameStartInfo>, b: seq<GameStartInfo>) {
    |a| == |b| && forall i :: 0 <= i < |a| ==> MirroredStart(a[i], b[i])
  }

  /** What links a sender that still has `ids` to propose to its receiver. */
  ghost predicate Linked(a: Channel, b: Channel, ids: seq<nat>) {
    && Sound(a) && Fresh(a, ids)
    && Sound(b) && Mirror(a, b) && Behind(b.theirNextNonce, a, ids)
  }

  lemma LinkedProposal(a: Channel, b: Channel, sa: GameStartInfo, sb: GameStartInfo, ga: nat, gb: nat, rest: seq<nat>)
    requires Linked(a, b, [sa.gameId] + rest) && MirroredStart(sa, sb)
    requires ApplyReceivedProposal(b, sb, gb).Ok?
    ensures Linked(SendProposeGame(a, sa, ga), ApplyReceivedProposal(b, sb, gb).value, rest)
  {
    hide Mirror, NonceDiscipline, HashesOk, KnownIds;
    var ids := [sa.gameId] + rest;
    var b' := ApplyReceivedProposal(b, sb, gb).value;
    FreshHeadIsNew(a, sa.gameId, rest);
    UnknownIfNotCounted(a, sa.gameId);
    assert b.theirNextNonce <= ids[0];
    ProposedIsNewToPeer(a, b, sa.gameId);
    MirrorProposal(a, b, sa, sb, ga, gb);
    SendOneKeeps(a, sa, ga, rest);
    ReceivedProposalKeeps(b, sb, gb, []);
    assert Behind(b'.theirNextNonce, SendProposeGame(a, sa, ga), rest) by {
      forall i | 0 <= i < |rest|
        ensures sa.gameId + 2 <= rest[i]
      {
        assert rest[i] == ids[i + 1] && sa.gameId == ids[0];
        assert a.IsOurNonce(ids[i + 1]) && a.IsOurNonce(ids[0]);
      }
    }
  }

  lemma {:induction false} LinkedGroup(
    a: Channel, b: Channel, sa: seq<GameStartInfo>, sb: seq<GameStartInfo>, ga: nat, gb: nat, rest: seq<nat>)
    requires Linked(a, b, GroupIds(sa) + rest) && MirroredStarts(sa, sb)
    requires ApplyGroup(b, sb, gb).Ok?
    ensures Linked(SendGroup(a, sa, ga), ApplyGroup(b, sb, gb).value, rest)
    decreases |sa|
  {
    hide Linked, MirroredStart;
    if sa == [] {
      assert GroupIds(sa) + rest == rest;
    } else {
      var last := |sa| - 1;
      assert GroupIds(sa) + rest == GroupIds(sa[..last]) + ([sa[last].gameId] + rest);
      assert MirroredStarts(sa[..last], sb[..last]);
      LinkedGroup(a, b, sa[..last], sb[..last], ga, gb, [sa[last].gameId] + rest);
      LinkedProposal(
        SendGroup(a, sa[..last], ga), ApplyGroup(b, sb[..last], gb).value, sa[last], sb[last], ga, gb, rest);
    }
  }

  /** A group of a type the receiver does not know is only on the sender. */
  lemma {:induction false} LinkedUnknownGroup(a: Channel, b: Channel, sa: seq<GameStartInfo>, ga: nat, rest: seq<nat>)
    requires Linked(a, b, GroupIds(sa) + rest)
    ensures Linked(SendGroup(a, sa, ga), b, rest)
    decreases |sa|
  {
    hide Sound, Mirror, KnownIds;
    if sa == [] {
      assert GroupIds(sa) + rest == rest;
    } else {
      var last := |sa| - 1;
      var id := sa[last].gameId;
      assert GroupIds(sa) + rest == GroupIds(sa[..last]) + ([id] + rest);
      LinkedUnknownGroup(a, b, sa[..last], ga, [id] + rest);
      LinkedOneSided(SendGroup(a, sa[..last], ga), b, sa[last], ga, rest);
    }
  }

  lemma LinkedOneSided(a: Channel, b: Channel, sa: GameStartInfo, ga: nat, rest: seq<nat>)
    requires Linked(a, b, [sa.gameId] + rest)
    ensures Linked(SendProposeGame(a, sa, ga), b, rest)
  {
    hide Mirror, HashesOk, KnownIds;
    var ids := [sa.gameId] + rest;
    FreshHeadIsNew(a, sa.gameId, rest);
    assert b.theirNextNonce <= ids[0];
    ProposedIsNewToPeer(a, b, sa.gameId);
    MirrorOneSided(a, b, sa, ga);
    SendOneKeeps(a, sa, ga, rest);
    assert forall i :: 0 <= i < |rest| ==> rest[i] == ids[i + 1];
  }

  /** The starts both sides derive from one group mirror each other. */
  lemma HydratedStartsMirror(clvm: Clvm, factories: Factories, action: GameAction)
    requires action.QueuedGroup? && GroupOk(action)
    requires Hydrate(clvm, factories, action.wire).Ok?
    ensures MirroredStarts(action.games, Hydrate(clvm, factories, action.wire).value)
  {
    var starts := Hydrate(clvm, factories, action.wire).value;
    var games := FactoryGames(clvm, factories, action.wire.start).value;
    forall i | 0 <= i < |starts|
      ensures MirroredStart(action.games[i], starts[i])
    {
      assert action.wire.members[i] == WireSpec(games[i], action.wire.members[i].gameId);
      assert StartMatchesSpec(action.games[i], action.wire.members[i], action.wire.start.timeout);
    }
  }

  // ---------------------------------------------------------------------------
  // A whole queue, drained and applied
  // ---------------------------------------------------------------------------

  /** Groups aside, an action adds at most one batch action and leaves the
      sender's nonces alone; applied, it keeps the views mirrored. */
  lemma MirrorAction(clvm: Clvm, factories: Factories, st: Draining, action: GameAction, b: Channel)
    requires Mirror(st.ch, b) && !action.QueuedGroup? && DrainAction(clvm, st, action).Ok?
    ensures
      var next := DrainAction(clvm, st, action).value;
      && (next.batch == st.batch ==> Mirror(next.ch, b))
      && (next.batch != st.batch ==>
            var x := next.batch[|next.batch| - 1];
            && next.batch == st.batch + [x] && !x.ProposeGroup?
            && (ApplyAction(clvm, factories, b, x).Ok? ==>
                  Mirror(next.ch, ApplyAction(clvm, factories, b, x).value)))
  {
    hide Mirror, SendMove, ApplyReceivedMove, SendAcceptSettlement, ApplyReceivedAcceptSettlement,
         CancelProposal, AcceptProposalInner, DrainShutdown, SendGroup, ApplyGroup, Hydrate;
    match action {
      case QueuedMove(id, readable, entropy) =>
        if GameIsMyTurn(st.ch, id) == Some(true) && SendMove(clvm, st.ch, id, readable, entropy).Ok? {
          var details := SendMove(clvm, st.ch, id, readable, entropy).value.1;
          if ApplyReceivedMove(clvm, b, id, details).Ok? {
            MirrorMove(clvm, st.ch, b, id, readable, entropy);
          }
        }
      case QueuedSettlement(id) =>
        if ApplyReceivedAcceptSettlement(b, id).Ok? {
          MirrorSettlement(st.ch, b, id);
        }
      case QueuedAccept(id) =>
        MirrorCancelIfOk(st.ch, b, id);
        if AcceptProposalInner(st.ch, id).Ok? && AcceptProposalInner(b, id).Ok? {
          MirrorAccept(st.ch, b, id);
          MirrorIgnoresCache(AcceptProposalInner(st.ch, id).value, AcceptProposalInner(b, id).value, id);
        }
      case QueuedCancel(id) => MirrorCancelIfOk(st.ch, b, id);
      case QueuedSilentCancel(id) => MirrorCancelIfOk(st.ch, b, id);
      case QueuedShutdown => MirrorDropped(st, b);
    }
  }

  lemma MirrorCancelIfOk(a: Channel, b: Channel, id: nat)
    requires Mirror(a, b)
    ensures CancelProposal(a, id).Ok? && CancelProposal(b, id).Ok? ==>
              Mirror(CancelProposal(a, id).value, CancelProposal(b, id).value)
  {
    hide Mirror, CancelProposal;
    if CancelProposal(a, id).Ok? && CancelProposal(b, id).Ok? {
      MirrorCancel(a, b, id);
    }
  }

  lemma MirrorIgnoresCache(a: Channel, b: Channel, id: nat)
    requires Mirror(a, b)
    ensures Mirror(a.(cached := a.cached + [CachedProposalAccepted(id)]), b)
  {
  }

  lemma MirrorDropped(st: Draining, b: Channel)
    requires Mirror(st.ch, b) && DrainShutdown(st).Ok?
    ensures Mirror(DrainShutdown(st).value.ch, b) && DrainShutdown(st).value.batch == st.batch
  {
    hide MirroredGames, MirroredProposal;
  }

  lemma ApplyKeepsTheirNonce(clvm: Clvm, factories: Factories, b: Channel, x: BatchAction)
    requires !x.ProposeGroup? && ApplyAction(clvm, factories, b, x).Ok?
    ensures ApplyAction(clvm, factories, b, x).value.theirNextNonce == b.theirNextNonce
  {
    if x.Move? {
      ReceivedMoveKeepsRecords(clvm, b, x.gameId, x.details);
    }
  }

  lemma GroupLinked(clvm: Clvm, factories: Factories, st: Draining, action: GameAction, rest: seq<nat>, b: Channel)
    requires action.QueuedGroup? && GroupOk(action)
    requires Linked(st.ch, b, GroupIds(action.games) + rest)
    requires ApplyAction(clvm, factories, b, ProposeGroup(action.wire)).Ok?
    ensures Linked(
              SendGroup(st.ch, action.games, action.wire.groupId),
              ApplyAction(clvm, factories, b, ProposeGroup(action.wire)).value, rest)
  {
    hide Linked, Hydrate, SendGroup, ApplyGroup, GroupOk;
    if action.wire.start.gameType in factories {
      HydratedStartsMirror(clvm, factories, action);
      LinkedGroup(
        st.ch, b, action.games, Hydrate(clvm, factories, action.wire).value,
        action.wire.groupId, action.wire.groupId, rest);
    } else {
      LinkedUnknownGroup(st.ch, b, action.games, action.wire.groupId, rest);
    }
  }

  /** Once applied, what the sender drained so far leaves the receiver linked to it. */
  ghost predicate InStep(
    clvm: Clvm, factories: Factories, b: Channel, st: Draining, ids: seq<nat>)
  {
    ApplyActions(clvm, factories, b, st.batch).Ok? ==>
      Linked(st.ch, ApplyActions(clvm, factories, b, st.batch).value, ids)
  }

  lemma SnocApplies(clvm: Clvm, factories: Factories, b: Channel, actions: seq<BatchAction>, x: BatchAction)
    ensures
      var before := ApplyActions(clvm, factories, b, actions);
      ApplyActions(clvm, factories, b, actions + [x])
      == if before.Ok? then ApplyAction(clvm, factories, before.value, x) else Err(before.error)
  {
    assert (actions + [x])[..|actions|] == actions;
  }

  lemma DrainActionInStep(
    clvm: Clvm, factories: Factories, b: Channel, st: Draining, action: GameAction, rest: seq<GameAction>,
    total: nat, coins: seq<(PuzzleHash, nat)>)
    requires SenderOk(st.ch, total, coins, QueuedIds([action] + rest)) && GroupOk(action)
    requires InStep(clvm, factories, b, st, QueuedIds([action] + rest))
    requires DrainAction(clvm, st, action).Ok?
    ensures InStep(clvm, factories, b, DrainAction(clvm, st, action).value, QueuedIds(rest))
  {
    hide Mirror, DrainAction, Sound, ApplyAction, ApplyActions, GroupOk, Money, CoinsOk, Fresh, HasHistorical;
    var next := DrainAction(clvm, st, action).value;
    var ids := QueuedIds(rest);
    QueuedIdsOfFirst(action, rest);
    DrainActionKeeps(clvm, st, action, rest, total, coins);
    if ApplyActions(clvm, factories, b, next.batch).Ok? {
      if action.QueuedGroup? {
        DrainedGroupIs(clvm, st, action);
        SnocApplies(clvm, factories, b, st.batch, ProposeGroup(action.wire));
        GroupLinked(clvm, factories, st, action, ids, ApplyActions(clvm, factories, b, st.batch).value);
      } else if next.batch == st.batch {
        assert QueuedIds([action] + rest) == ids;
        MirrorAction(clvm, factories, st, action, ApplyActions(clvm, factories, b, st.batch).value);
      } else {
        assert QueuedIds([action] + rest) == ids;
        DrainAddsOne(clvm, st, action);
        var x := next.batch[|next.batch| - 1];
        SnocApplies(clvm, factories, b, st.batch, x);
        var rb := ApplyActions(clvm, factories, b, st.batch).value;
        MirrorAction(clvm, factories, st, action, rb);
        ApplyKeepsTheirNonce(clvm, factories, rb, x);
        ReceivedKeepsSound(clvm, factories, rb, x);
      }
    }
  }

  lemma DrainedGroupIs(clvm: Clvm, st: Draining, action: GameAction)
    requires action.QueuedGroup?
    ensures DrainAction(clvm, st, action)
            == Ok(st.(
              ch := SendGroup(st.ch, action.games, action.wire.groupId),
              batch := st.batch + [ProposeGroup(action.wire)]))
  {
  }

  lemma DrainAddsOne(clvm: Clvm, st: Draining, action: GameAction)
    requires DrainAction(clvm, st, action).Ok?
    ensures
      var batch := DrainAction(clvm, st, action).value.batch;
      batch != st.batch ==> batch != [] && batch == st.batch + [batch[|batch| - 1]]
  {
    hide SendMove, SendAcceptSettlement, CancelProposal, SendAcceptProposal, SendGroup;
  }

  lemma ReceivedKeepsSound(clvm: Clvm, factories: Factories, b: Channel, x: BatchAction)
    requires Sound(b) && ApplyAction(clvm, factories, b, x).Ok?
    ensures Sound(ApplyAction(clvm, factories, b, x).value)
  {
    hide Sound, ApplyAction;
    ApplyActionKeeps(clvm, factories, b, x, []);
  }

  /** The mirrored-views step: if the receiver applies the whole batch, the two
      channels mirror each other again. */
  lemma {:induction false} DrainAllInStep(
    clvm: Clvm, factories: Factories, a: Channel, b: Channel, done: seq<GameAction>, rest: seq<GameAction>,
    total: nat, coins: seq<(PuzzleHash, nat)>)
    requires SenderOk(a, total, coins, QueuedIds(done + rest)) && GroupsOk(done)
    requires Linked(a, b, QueuedIds(done + rest))
    requires DrainAll(clvm, a, done).Ok?
    ensures
      var st := DrainAll(clvm, a, done).value;
      && SenderOk(st.ch, total, coins, QueuedIds(rest)) && SameRecords(a, st.ch)
      && InStep(clvm, factories, b, st, QueuedIds(rest))
    decreases |done|
  {
    hide SenderOk, Linked, DrainAction, ApplyAction, GroupOk;
    if done == [] {
      assert done + rest == rest;
    } else {
      var last := |done| - 1;
      assert done + rest == done[..last] + ([done[last]] + rest);
      DrainAllInStep(clvm, factories, a, b, done[..last], [done[last]] + rest, total, coins);
      var st := DrainAll(clvm, a, done[..last]).value;
      DrainActionKeeps(clvm, st, done[last], rest, total, coins);
      DrainActionInStep(clvm, factories, b, st, done[last], rest, total, coins);
    }
  }
}
