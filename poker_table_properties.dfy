/**
 * What the table round promises: which player `nextPlayer` chooses, what
 * each action does and leaves alone, what a new round resets, and the board
 * and turn invariant that holds after any sequence of actions and new rounds
 * from the opening state. The last part ties the table to the deal button's
 * label and to the card face.
 */
module PokerTableProperties {

  import opened MockData
  import opened PokerTable
  import ActionPanel
  import PlayingCard

  // ---------------------------------------------------------------------
  // Turn order
  // ---------------------------------------------------------------------

  /** No player counts as active exactly when no status is `active`. */
  lemma {:induction false} ActiveCountZeroIff(players: seq<Player>)
    ensures ActiveCount(players) == 0 <==> forall i :: 0 <= i < |players| ==> players[i].status != Active
  {
    if players != [] {
      ActiveCountZeroIff(players[1..]);
      assert forall i :: 1 <= i < |players| ==> players[i] == players[1..][i - 1];
    }
  }

  /** How many steps round the table `next` lies after `current`; the current seat itself is a full round. */
  function Offset(next: nat, current: nat, n: nat): nat
    requires next < n && current < n
  {
    if next > current then next - current else next + n - current
  }

  lemma ProbeOffset(current: nat, k: nat, n: nat)
    requires current < n && 1 <= k <= n
    ensures Probe(current, k, n) < n && Offset(Probe(current, k, n), current, n) == k
  {
  }

  /** The scan from probe `k` on, when every earlier probe hit a passed player. */
  lemma {:induction false} ScanFromIsFirstUnpassed(players: seq<Player>, current: nat, k: nat)
    requires current < |players| && 1 <= k <= |players|
    requires forall j :: 1 <= j < k ==> players[Probe(current, j, |players|)].status == Passed
    ensures var n := |players|;
            var next := ScanFrom(players, current, k);
            var d := Offset(next, current, n);
            && k <= d <= n
            && Probe(current, d, n) == next
            && (d < n ==> players[next].status != Passed)
            && (forall j :: 1 <= j < d ==> players[Probe(current, j, n)].status == Passed)
    decreases |players| - k
  {
    var n := |players|;
    ProbeOffset(current, k, n);
    if k < n && players[Probe(current, k, n)].status == Passed {
      ScanFromIsFirstUnpassed(players, current, k + 1);
    }
  }

  /**
   * `nextPlayer`'s choice: the first player cyclically after the current one
   * whose status is not `passed` (so a sitting-out or winning player can be
   * chosen), or the current player when every other player has passed.
   */
  lemma TurnAfterIsFirstUnpassed(players: seq<Player>, current: nat)
    requires current < |players|
    ensures var n := |players|;
            var next := TurnAfter(players, current);
            var d := Offset(next, current, n);
            && next < n
            && 1 <= d <= n
            && Probe(current, d, n) == next
            && (next != current ==> players[next].status != Passed)
            && (forall j :: 1 <= j < d ==> players[Probe(current, j, n)].status == Passed)
    ensures TurnAfter(players, current) == current <==>
              forall j :: 1 <= j < |players| ==> players[Probe(current, j, |players|)].status == Passed
  {
    var n := |players|;
    ScanFromIsFirstUnpassed(players, current, 1);
    var next := TurnAfter(players, current);
    var d := Offset(next, current, n);
    assert next == current <==> d == n;
  }

  /** With no active player, `nextPlayer` keeps the turn where it is. */
  lemma NoActivePlayerKeepsTurn(s: TableState)
    requires s.currentPlayerIndex < |s.players|
    requires forall i :: 0 <= i < |s.players| ==> s.players[i].status != Active
    ensures NextTurn(s.players, s.currentPlayerIndex) == s.currentPlayerIndex
    ensures HandleActionStep(s, "ready") == s
  {
    ActiveCountZeroIff(s.players);
  }

  /** A sitting-out player is not skipped: only `passed` is. */
  lemma SittingOutCanTakeTurn()
    ensures var players := [MockPlayers[0], MockPlayers[1].(status := SittingOut)];
            TurnAfter(players, 0) == 1
  {
  }

  // ---------------------------------------------------------------------
  // One action
  // ---------------------------------------------------------------------

  /** `pass` marks the current player as passed and changes nothing else. */
  lemma PassMarksOnlyCurrent(s: TableState)
    requires s.currentPlayerIndex < |s.players|
    ensures var r := HandleActionStep(s, "pass");
            var i := s.currentPlayerIndex;
            && |r.players| == |s.players|
            && r.players[i] == s.players[i].(status := Passed)
            && (forall j :: 0 <= j < |s.players| && j != i ==> r.players[j] == s.players[j])
            && r.(players := s.players) == s
  {
  }

  /**
   * `play` deals by phase and board size (the flop while waiting, the turn on
   * three cards, the river on four, nothing otherwise) and then moves the
   * turn on; the players and the round number stay as they were.
   */
  lemma PlayDealsThenAdvances(s: TableState)
    requires s.currentPlayerIndex < |s.players|
    ensures var r := HandleActionStep(s, "play");
            var c := s.communityCards;
            && r.players == s.players
            && r.roundNumber == s.roundNumber
            && r.currentPlayerIndex == NextTurn(s.players, s.currentPlayerIndex)
            && (s.gamePhase == Phase.Waiting ==> r.communityCards == ["As", "Kh", "Qd"] && r.gamePhase == Playing)
            && (s.gamePhase != Phase.Waiting ==> r.gamePhase == s.gamePhase)
            && (s.gamePhase != Phase.Waiting && |c| == 3 ==> r.communityCards == c + ["Jc"])
            && (s.gamePhase != Phase.Waiting && |c| == 4 ==> r.communityCards == c + ["10s"])
            && (s.gamePhase != Phase.Waiting && |c| != 3 && |c| != 4 ==> r.communityCards == c)
  {
  }

  /**
   * `show` only sets the phase to showdown, `ready` only moves the turn, an
   * unrecognised action changes nothing, and no action changes the round.
   */
  lemma OtherActions(s: TableState, action: string)
    requires s.currentPlayerIndex < |s.players|
    ensures HandleActionStep(s, "show") == s.(gamePhase := Showdown)
    ensures HandleActionStep(s, "ready") == s.(currentPlayerIndex := NextTurn(s.players, s.currentPlayerIndex))
    ensures action !in {"pass", "ready", "play", "show"} ==> HandleActionStep(s, action) == s
    ensures HandleActionStep(s, action).roundNumber == s.roundNumber
  {
  }

  /**
   * A new round clears the board, counts the round, waits with the turn on
   * the first player, and seats the opening roster again with everyone active.
   */
  lemma NewRoundResets(s: TableState)
    ensures var r := NewRoundStep(s);
            && r.communityCards == []
            && r.roundNumber == s.roundNumber + 1
            && r.gamePhase == Phase.Waiting
            && r.currentPlayerIndex == 0
            && |r.players| == |MockPlayers|
            && (forall i :: 0 <= i < |r.players| ==>
                  r.players[i] == MockPlayers[i].(status := Active) && r.players[i].status == Active)
  {
  }

  // ---------------------------------------------------------------------
  // The invariant of every reachable table
  // ---------------------------------------------------------------------

  /** The players are the opening roster with at most their status changed, to `active` or `passed`. */
  predicate RosterShape(players: seq<Player>) {
    && |players| == |MockPlayers|
    && forall i :: 0 <= i < |players| ==>
         players[i] == MockPlayers[i].(status := players[i].status)
         && players[i].status in {Active, Passed}
  }

  /**
   * The board is a prefix of As Kh Qd Jc 10s of size 0, 3, 4 or 5; a waiting
   * table has an empty board; a playing table shows at least the flop; the
   * dealing phase never occurs; and the turn index points at a player.
   */
  predicate Inv(s: TableState) {
    && |s.communityCards| <= |FullBoard|
    && s.communityCards == FullBoard[..|s.communityCards|]
    && |s.communityCards| in {0, 3, 4, 5}
    && (s.gamePhase == Phase.Waiting ==> s.communityCards == [])
    && (s.gamePhase == Playing ==> |s.communityCards| >= 3)
    && s.gamePhase != Dealing
    && s.currentPlayerIndex < |s.players|
    && RosterShape(s.players)
  }

  lemma InitialInv()
    ensures Inv(InitialTable)
  {
  }

  lemma HandleActionKeepsInv(s: TableState, action: string)
    requires Inv(s)
    ensures Inv(HandleActionStep(s, action))
  {
    var c := s.communityCards;
    if action == "play" && s.gamePhase != Phase.Waiting {
      if |c| == 3 {
        assert c + [TurnCard] == FullBoard[..4];
      } else if |c| == 4 {
        assert c + [RiverCard] == FullBoard[..5];
      }
    } else if action == "pass" {
      var r := HandleActionStep(s, action);
      assert forall i :: 0 <= i < |r.players| ==>
        r.players[i] == (if i == s.currentPlayerIndex then s.players[i].(status := Passed) else s.players[i]);
    }
  }

  lemma NewRoundKeepsInv(s: TableState)
    ensures Inv(NewRoundStep(s))
  {
    var r := NewRoundStep(s);
    assert forall i :: 0 <= i < |r.players| ==> r.players[i] == MockPlayers[i].(status := Active);
  }

  /** What the user can do at the table: press an action button or start a new round. */
  datatype Event = Act(action: string) | NewRound

  function Apply(s: TableState, e: Event): (r: TableState)
    requires s.currentPlayerIndex < |s.players|
    ensures r.currentPlayerIndex < |r.players|
  {
    match e
    case Act(action) => HandleActionStep(s, action)
    case NewRound => NewRoundStep(s)
  }

  /** The table after `events`, one transition each. */
  function Run(s: TableState, events: seq<Event>): TableState
    requires s.currentPlayerIndex < |s.players|
    decreases |events|
  {
    if events == [] then s else Run(Apply(s, events[0]), events[1..])
  }

  function NewRoundCount(events: seq<Event>): nat {
    if events == [] then 0 else (if events[0].NewRound? then 1 else 0) + NewRoundCount(events[1..])
  }

  lemma {:induction false} RunKeepsInv(s: TableState, events: seq<Event>)
    requires Inv(s)
    ensures Inv(Run(s, events))
    decreases |events|
  {
    if events != [] {
      match events[0] {
        case Act(action) => HandleActionKeepsInv(s, action);
        case NewRound => NewRoundKeepsInv(s);
      }
      RunKeepsInv(Apply(s, events[0]), events[1..]);
    }
  }

  /** Every table reachable from the opening state satisfies the invariant. */
  lemma ReachableInv(events: seq<Event>)
    ensures Inv(Run(InitialTable, events))
  {
    InitialInv();
    RunKeepsInv(InitialTable, events);
  }

  /** Only new rounds move the round number, one each. */
  lemma {:induction false} RoundNumberCountsNewRounds(s: TableState, events: seq<Event>)
    requires s.currentPlayerIndex < |s.players|
    ensures Run(s, events).roundNumber == s.roundNumber + NewRoundCount(events)
    decreases |events|
  {
    if events != [] {
      OtherActions(s, if events[0].Act? then events[0].action else "");
      RoundNumberCountsNewRounds(Apply(s, events[0]), events[1..]);
    }
  }

  /** Within a round the board only grows: an action keeps every card already shown, in place. */
  lemma BoardOnlyGrows(s: TableState, action: string)
    requires Inv(s)
    ensures var r := HandleActionStep(s, action);
            && s.communityCards <= r.communityCards
            && |r.communityCards| <= |s.communityCards| + 3
  {
  }

  // ---------------------------------------------------------------------
  // The deal button and the card faces
  // ---------------------------------------------------------------------

  /**
   * On every reachable table that is waiting or shows the flop or the turn,
   * the deal button's label names what `play` deals next.
   */
  lemma DealLabelNamesNextDeal(s: TableState)
    requires Inv(s)
    ensures var r := HandleActionStep(s, "play");
            var text := ActionPanel.DealButtonText(|s.communityCards|);
            && (s.gamePhase == Phase.Waiting ==>
                  text == ActionPanel.DealFlopLabel && |r.communityCards| == 3)
            && (|s.communityCards| == 3 ==>
                  text == ActionPanel.DealTurnLabel && |r.communityCards| == 4)
            && (|s.communityCards| == 4 ==>
                  text == ActionPanel.DealRiverLabel && |r.communityCards| == 5)
  {
  }

  /**
   * The label counts cards, not the phase: after `show` on a fresh table the
   * button still reads "Deal Flop", but `play` deals nothing there.
   */
  lemma FlopLabelAfterEarlyShow()
    ensures var s := HandleActionStep(InitialTable, "show");
            && ActionPanel.DealButtonText(|s.communityCards|) == ActionPanel.DealFlopLabel
            && HandleActionStep(s, "play").communityCards == []
  {
  }

  /** Every card the table deals has a suit with a symbol, and hearts and diamonds show red. */
  lemma DealtCardsHaveSymbols()
    ensures forall i :: 0 <= i < |FullBoard| ==> PlayingCard.SuitSymbol(PlayingCard.Suit(FullBoard[i])).Some?
    ensures PlayingCard.View("Kh", false).isRed && PlayingCard.View("Qd", false).isRed
    ensures !PlayingCard.View("As", false).isRed && !PlayingCard.View("Jc", false).isRed
  {
    assert FullBoard == ["As", "Kh", "Qd", "Jc", "10s"];
  }

  /** Hence every card on a reachable board is drawn with a suit symbol. */
  lemma BoardCardsHaveSymbols(events: seq<Event>)
    ensures var c := Run(InitialTable, events).communityCards;
            forall i :: 0 <= i < |c| ==> PlayingCard.View(c[i], false).suitSymbol.Some?
  {
    ReachableInv(events);
    DealtCardsHaveSymbols();
    var c := Run(InitialTable, events).communityCards;
    assert forall i :: 0 <= i < |c| ==> c[i] == FullBoard[i];
  }
}
