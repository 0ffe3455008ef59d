/**
 * The table round of `PokerTable.tsx`: five pieces of state (round number,
 * community cards, whose turn it is, the game phase and the players) and
 * the two handlers that change them, `handleAction` and `startNewRound`.
 *
 * Each handler is one transition from a single snapshot of the state. The
 * pure functions below (`HandleActionStep`, `NewRoundStep`) state what one
 * transition yields; the class `Table` holds the state in fields and its
 * methods are proved to make exactly that transition.
 */
module PokerTable {

  import opened MockData

  datatype Phase = Waiting | Dealing | Playing | Showdown

  datatype TableState = TableState(
    roundNumber: int,
    communityCards: seq<string>,
    currentPlayerIndex: nat,
    gamePhase: Phase,
    players: seq<Player>)

  /** The state a table opens with. */
  const InitialTable := TableState(1, [], 0, Phase.Waiting, MockPlayers)

  /** The three cards of the flop, always the same literals. */
  const Flop: seq<string> := ["As", "Kh", "Qd"]
  const TurnCard := "Jc"
  const RiverCard := "10s"

  /** Every card the table can ever show, in the order it shows them. */
  const FullBoard: seq<string> := Flop + [TurnCard, RiverCard]

  // ---------------------------------------------------------------------
  // Turn order
  // ---------------------------------------------------------------------

  /** The number of players whose status is `active` (`players.filter(...).length`). */
  function ActiveCount(players: seq<Player>): (count: nat)
    ensures count <= |players|
  {
    if players == [] then 0
    else (if players[0].status == Active then 1 else 0) + ActiveCount(players[1..])
  }

  /** The seat index `k` steps after `current`, going round the table of `n` players. */
  function Probe(current: nat, k: nat, n: nat): nat
    requires current < n && k <= n
  {
    if current + k < n then current + k else current + k - n
  }

  /**
   * The `nextPlayer` scan from its `k`-th probe on: the first probed player
   * who has not passed, or the current player once the scan has come back
   * round to them.
   */
  function ScanFrom(players: seq<Player>, current: nat, k: nat): (next: nat)
    requires current < |players| && 1 <= k <= |players|
    ensures next < |players|
    ensures next == current || players[next].status != Passed
    decreases |players| - k
  {
    var n := |players|;
    if k == n then current
    else if players[Probe(current, k, n)].status != Passed then Probe(current, k, n)
    else ScanFrom(players, current, k + 1)
  }

  /** The index the turn moves to when at least one player is active. */
  function TurnAfter(players: seq<Player>, current: nat): (next: nat)
    requires current < |players|
    ensures next < |players|
    ensures next != current ==> players[next].status != Passed
  {
    ScanFrom(players, current, 1)
  }

  /** `nextPlayer`: without an active player the turn stays where it is. */
  function NextTurn(players: seq<Player>, current: nat): (next: nat)
    requires current < |players|
    ensures next < |players|
  {
    if ActiveCount(players) == 0 then current else TurnAfter(players, current)
  }

  // ---------------------------------------------------------------------
  // One transition
  // ---------------------------------------------------------------------

  /** `players.map(...)` marking the player at `index` as passed. */
  function MarkPassed(players: seq<Player>, index: nat): (marked: seq<Player>)
    ensures |marked| == |players|
    ensures forall j :: 0 <= j < |players| ==> marked[j].(status := players[j].status) == players[j]
    ensures forall j :: 0 <= j < |players| ==>
              (marked[j].status == Passed <==> j == index || players[j].status == Passed)
    ensures forall j :: 0 <= j < |players| && j != index ==> marked[j] == players[j]
  {
    seq(|players|, j requires 0 <= j < |players| =>
      if j == index then players[j].(status := Passed) else players[j])
  }

  /** What `play` deals: the flop while waiting, else the turn on three cards and the river on four. */
  function Deal(s: TableState): (r: TableState)
    ensures r.players == s.players && r.roundNumber == s.roundNumber
    ensures r.currentPlayerIndex == s.currentPlayerIndex
    ensures s.gamePhase == Phase.Waiting ==> r.communityCards == Flop && r.gamePhase == Playing
    ensures s.gamePhase != Phase.Waiting ==>
              && r.gamePhase == s.gamePhase
              && s.communityCards <= r.communityCards
              && |r.communityCards| <= |s.communityCards| + 1
              && (|r.communityCards| == |s.communityCards| + 1 <==> |s.communityCards| in {3, 4})
  {
    if s.gamePhase == Phase.Waiting then s.(communityCards := Flop, gamePhase := Playing)
    else if |s.communityCards| == 3 then s.(communityCards := s.communityCards + [TurnCard])
    else if |s.communityCards| == 4 then s.(communityCards := s.communityCards + [RiverCard])
    else s
  }

  /** `handleAction(action)` as one transition of the whole table state. */
  function HandleActionStep(s: TableState, action: string): (r: TableState)
    requires s.currentPlayerIndex < |s.players|
    ensures r.currentPlayerIndex < |r.players|
  {
    if action == "pass" then s.(players := MarkPassed(s.players, s.currentPlayerIndex))
    else if action == "ready" then s.(currentPlayerIndex := NextTurn(s.players, s.currentPlayerIndex))
    else if action == "play" then Deal(s).(currentPlayerIndex := NextTurn(s.players, s.currentPlayerIndex))
    else if action == "show" then s.(gamePhase := Showdown)
    else s
  }

  /** The opening roster with every player made active again. */
  function ResetRoster(): (roster: seq<Player>)
    ensures |roster| == |MockPlayers|
    ensures forall j :: 0 <= j < |roster| ==>
              roster[j].status == Active && roster[j].(status := MockPlayers[j].status) == MockPlayers[j]
  {
    seq(|MockPlayers|, j requires 0 <= j < |MockPlayers| => MockPlayers[j].(status := Active))
  }

  /** `startNewRound` as one transition of the whole table state. */
  function NewRoundStep(s: TableState): (r: TableState)
    ensures r.roundNumber == s.roundNumber + 1
    ensures r.currentPlayerIndex < |r.players| && r.players[r.currentPlayerIndex].status == Active
  {
    TableState(s.roundNumber + 1, [], 0, Phase.Waiting, ResetRoster())
  }

  // ---------------------------------------------------------------------
  // The table as mutable state
  // ---------------------------------------------------------------------

  class Table {
    var roundNumber: int
    var communityCards: seq<string>
    var currentPlayerIndex: nat
    var gamePhase: Phase
    var players: seq<Player>

    function State(): TableState
      reads this
    {
      TableState(roundNumber, communityCards, currentPlayerIndex, gamePhase, players)
    }

    constructor ()
      ensures State() == InitialTable
    {
      roundNumber := 1;
      communityCards := [];
      currentPlayerIndex := 0;
      gamePhase := Phase.Waiting;
      players := MockPlayers;
    }

    method HandleAction(action: string)
      requires currentPlayerIndex < |players|
      modifies this
      ensures State() == HandleActionStep(old(State()), action)
    {
      if action == "pass" {
        players := players[currentPlayerIndex := players[currentPlayerIndex].(status := Passed)];
        assert players == MarkPassed(old(players), currentPlayerIndex);
      } else if action == "ready" {
        ghost var probes := NextPlayer();
      } else if action == "play" {
        if gamePhase == Phase.Waiting {
          DealFlop();
        } else if |communityCards| == 3 {
          DealTurn();
        } else if |communityCards| == 4 {
          DealRiver();
        }
        ghost var probes := NextPlayer();
      } else if action == "show" {
        gamePhase := Showdown;
      }
    }

    method DealFlop()
      modifies this`communityCards, this`gamePhase
      ensures communityCards == Flop && gamePhase == Playing
    {
      communityCards := Flop;
      gamePhase := Playing;
    }

    method DealTurn()
      modifies this`communityCards
      ensures communityCards == old(communityCards) + [TurnCard]
    {
      communityCards := communityCards + [TurnCard];
    }

    method DealRiver()
      modifies this`communityCards
      ensures communityCards == old(communityCards) + [RiverCard]
    {
      communityCards := communityCards + [RiverCard];
    }

    /**
     * Moves the turn to the next player round the table who has not passed;
     * the loop stops at the current player again after `|players| - 1`
     * probes at most.
     */
    method NextPlayer() returns (ghost probes: nat)
      requires currentPlayerIndex < |players|
      modifies this`currentPlayerIndex
      ensures currentPlayerIndex == NextTurn(players, old(currentPlayerIndex))
      ensures probes <= |players| - 1
    {
      probes := 0;
      if ActiveCount(players) == 0 {
        return;
      }
      var n, current := |players|, currentPlayerIndex;
      var nextIndex := (current + 1) % n;
      ProbeStep(current, 0, n);
      ghost var k := 1;
      while players[nextIndex].status == Passed && nextIndex != current
        invariant 1 <= k <= n && probes == k - 1
        invariant nextIndex == Probe(current, k, n)
        invariant ScanFrom(players, current, k) == TurnAfter(players, current)
        decreases n - k
      {
        ProbeStep(current, k, n);
        nextIndex := (nextIndex + 1) % n;
        k := k + 1;
        probes := probes + 1;
      }
      currentPlayerIndex := nextIndex;
    }

    method StartNewRound()
      modifies this
      ensures State() == NewRoundStep(old(State()))
    {
      communityCards := [];
      roundNumber := roundNumber + 1;
      gamePhase := Phase.Waiting;
      currentPlayerIndex := 0;
      players := ResetRoster();
    }
  }

  /** One step of the `nextPlayer` loop: `(i + 1) % n` is the next probe, and only the `n`-th probe is the start. */
  lemma ProbeStep(current: nat, k: nat, n: nat)
    requires current < n && k < n
    ensures (Probe(current, k, n) + 1) % n == Probe(current, k + 1, n)
    ensures Probe(current, k + 1, n) == current <==> k + 1 == n
  {
    var p := Probe(current, k, n);
    if p + 1 < n {
      assert (p + 1) % n == p + 1;
    } else {
      assert (p + 1) % n == 0;
    }
  }
}
