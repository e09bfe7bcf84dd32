/** Money in a channel: what every accept and settlement conserves. */
module ChannelMoney {
  import opened Wrappers
  import opened Chain
  import opened Referees
  import opened Channels

  function SumMine(games: seq<LiveGame>): nat {
    if games == [] then 0 else games[0].myContribution + SumMine(games[1..])
  }

  function SumTheirs(games: seq<LiveGame>): nat {
    if games == [] then 0 else games[0].theirContribution + SumTheirs(games[1..])
  }

  lemma {:induction false} SumOfAppend(games: seq<LiveGame>, g: LiveGame)
    ensures SumMine(games + [g]) == SumMine(games) + g.myContribution
    ensures SumTheirs(games + [g]) == SumTheirs(games) + g.theirContribution
  {
    if games == [] {
      assert [] + [g] == [g];
    } else {
      assert (games + [g])[1..] == games[1..] + [g];
      SumOfAppend(games[1..], g);
    }
  }

  lemma {:induction false} SumOfRemove(games: seq<LiveGame>, i: nat)
    requires i < |games|
    ensures SumMine(games) == SumMine(RemoveAt(games, i)) + games[i].myContribution
    ensures SumTheirs(games) == SumTheirs(RemoveAt(games, i)) + games[i].theirContribution
  {
    if i == 0 {
      assert RemoveAt(games, 0) == games[1..];
    } else {
      assert RemoveAt(games, i)[1..] == RemoveAt(games[1..], i - 1);
      SumOfRemove(games[1..], i - 1);
    }
  }

  lemma {:induction false} SumOfUpdate(games: seq<LiveGame>, i: nat, g: LiveGame)
    requires i < |games|
    requires g.myContribution == games[i].myContribution && g.theirContribution == games[i].theirContribution
    ensures SumMine(games[i := g]) == SumMine(games) && SumTheirs(games[i := g]) == SumTheirs(games)
  {
    if i > 0 {
      assert games[i := g][1..] == games[1..][i - 1 := g];
      SumOfUpdate(games[1..], i - 1, g);
    } else {
      assert games[0 := g][1..] == games[1..];
    }
  }

  /** The contributions to a game are its amount. */
  predicate AddsUp(g: LiveGame) { g.Amount() == g.myContribution + g.theirContribution }

  predicate ProposalAddsUp(p: ProposedGame) { p.referee.fixed.amount == p.myContribution + p.theirContribution }

  /** The channel amount is split over the four balances, and each allocated
      balance is what that side has put into the live games. */
  ghost predicate Money(ch: Channel, total: nat) {
    && ch.myOut + ch.theirOut + ch.myAllocated + ch.theirAllocated == total
    && ch.myAllocated == SumMine(ch.live)
    && ch.theirAllocated == SumTheirs(ch.live)
    && forall i :: 0 <= i < |ch.live| ==> AddsUp(ch.live[i])
  }

  lemma NewChannelMoney(id: ChannelIdentity, start: bool, mine: nat, theirs: nat)
    requires NewChannel(id, start, mine, theirs).Ok?
    ensures Money(NewChannel(id, start, mine, theirs).value, mine + theirs)
  {
  }

  lemma AcceptKeepsMoney(ch: Channel, id: nat, total: nat)
    requires Money(ch, total) && AcceptProposalInner(ch, id).Ok?
    requires ProposalAddsUp(ch.proposed[ProposalPosition(ch.proposed, id).value])
    ensures Money(AcceptProposalInner(ch, id).value, total)
  {
    var p := ch.proposed[ProposalPosition(ch.proposed, id).value];
    SumOfAppend(ch.live, LiveGame(p.gameId, p.initialPh, p.referee, p.myContribution, p.theirContribution));
  }

  lemma SendMoveKeepsMoney(clvm: Clvm, ch: Channel, id: nat, readable: Program, entropy: Bytes, total: nat)
    requires Money(ch, total) && SendMove(clvm, ch, id, readable, entropy).Ok?
    ensures Money(SendMove(clvm, ch, id, readable, entropy).value.0, total)
  {
    var i := LivePosition(ch.live, id).value;
    SumOfUpdate(ch.live, i, SendMove(clvm, ch, id, readable, entropy).value.0.live[i]);
    assert AddsUp(ch.live[i]);
  }

  lemma ReceivedMoveKeepsMoney(clvm: Clvm, ch: Channel, id: nat, details: GameMoveDetails, total: nat)
    requires Money(ch, total) && ApplyReceivedMove(clvm, ch, id, details).Ok?
    ensures Money(ApplyReceivedMove(clvm, ch, id, details).value.0, total)
  {
    var i := LivePosition(ch.live, id).value;
    SumOfUpdate(ch.live, i, ApplyReceivedMove(clvm, ch, id, details).value.0.live[i]);
    assert AddsUp(ch.live[i]);
  }

  lemma SentSettlementKeepsMoney(ch: Channel, id: nat, total: nat)
    requires Money(ch, total) && SendAcceptSettlement(ch, id).Ok?
    ensures Money(SendAcceptSettlement(ch, id).value.0, total)
  {
    var i := LivePosition(ch.live, id).value;
    SumOfRemove(ch.live, i);
    assert AddsUp(ch.live[i]);
  }

  lemma ReceivedSettlementKeepsMoney(ch: Channel, id: nat, total: nat)
    requires Money(ch, total) && ApplyReceivedAcceptSettlement(ch, id).Ok?
    ensures Money(ApplyReceivedAcceptSettlement(ch, id).value.0, total)
  {
    var i := LivePosition(ch.live, id).value;
    SumOfRemove(ch.live, i);
    assert AddsUp(ch.live[i]);
  }

  predicate ShareFits(g: LiveGame) { g.referee.spendThisCoin.gameMove.basic.moverShare <= g.Amount() }

  /** With the money invariant no checked subtraction in a settlement fails: a
      settlement goes through exactly when its own guards let it, for the
      sender ... */
  lemma SentSettlementSucceedsIff(ch: Channel, id: nat, total: nat)
    requires Money(ch, total) && forall i :: 0 <= i < |ch.live| ==> ShareFits(ch.live[i])
    ensures SendAcceptSettlement(ch, id).Ok? <==>
              && ch.havePotato && LivePosition(ch.live, id).Some?
              && ch.live[LivePosition(ch.live, id).value].IsMyTurn()
  {
    if LivePosition(ch.live, id).Some? {
      var i := LivePosition(ch.live, id).value;
      SumOfRemove(ch.live, i);
      assert ShareFits(ch.live[i]);
    }
  }

  /** ... and for the receiver. */
  lemma ReceivedSettlementSucceedsIff(ch: Channel, id: nat, total: nat)
    requires Money(ch, total) && forall i :: 0 <= i < |ch.live| ==> ShareFits(ch.live[i])
    ensures ApplyReceivedAcceptSettlement(ch, id).Ok? <==>
              && LivePosition(ch.live, id).Some?
              && !ch.live[LivePosition(ch.live, id).value].IsMyTurn()
  {
    if LivePosition(ch.live, id).Some? {
      var i := LivePosition(ch.live, id).value;
      SumOfRemove(ch.live, i);
      assert ShareFits(ch.live[i]);
    }
  }

  /** Without the guard on shares the claim is false: exactly a share above the
      amount of a game we may settle makes the settlement fail. */
  lemma SentSettlementFailsOnShareIff(ch: Channel, id: nat, total: nat)
    requires Money(ch, total) && ch.havePotato && LivePosition(ch.live, id).Some?
    requires ch.live[LivePosition(ch.live, id).value].IsMyTurn()
    ensures SendAcceptSettlement(ch, id).Err? <==> !ShareFits(ch.live[LivePosition(ch.live, id).value])
  {
    var i := LivePosition(ch.live, id).value;
    SumOfRemove(ch.live, i);
    assert AddsUp(ch.live[i]);
  }

  /** Balances of a channel whose amount fits in 64 bits never leave 64 bits. */
  lemma NoOverflow(ch: Channel, total: nat)
    requires Money(ch, total) && total < U64_LIMIT
    ensures ch.myOut < U64_LIMIT && ch.theirOut < U64_LIMIT
    ensures ch.myAllocated + ch.theirAllocated < U64_LIMIT
    ensures forall i :: 0 <= i < |ch.live| ==> ch.live[i].Amount() < U64_LIMIT
  {
    forall i | 0 <= i < |ch.live|
      ensures ch.live[i].Amount() < U64_LIMIT
    {
      SumOfRemove(ch.live, i);
      assert AddsUp(ch.live[i]);
    }
  }
}
