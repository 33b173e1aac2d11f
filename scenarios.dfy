/**
 * Callers of the store: the turn loop that the rule logic drives, and
 * scenarios on a fresh store. Boxes are appended to a player's collection
 * directly, as the rule logic outside the store does.
 */
module GameScenarios {
  import opened Wrappers
  import opened Models
  import opened Game

  /** n consecutive calls of changePlayer, as a caller issues them turn by turn. */
  method ChangePlayerTimes<Point, Line>(store: GameStore<Point, Line>, n: nat)
    requires store.Valid()
    modifies store`currentPlayer
    ensures store.Valid()
    ensures store.playerA == old(store.playerA) && store.playerB == old(store.playerB)
    ensures store.CurrentId() == Changes(old(store.CurrentId()), n)
    ensures n >= 1 ==> store.GetCurrentPlayer() == Assigned(store.playerA) || store.GetCurrentPlayer() == Assigned(store.playerB)
    ensures n == 0 ==> store.GetCurrentPlayer() == old(store.GetCurrentPlayer())
  {
    ghost var start := store.CurrentId();
    var i := 0;
    while i < n
      invariant 0 <= i <= n
      invariant store.Valid()
      invariant store.playerA == old(store.playerA) && store.playerB == old(store.playerB)
      invariant store.CurrentId() == Changes(start, i)
      invariant i >= 1 ==> store.GetCurrentPlayer() == Assigned(store.playerA) || store.GetCurrentPlayer() == Assigned(store.playerB)
      invariant i == 0 ==> store.GetCurrentPlayer() == old(store.GetCurrentPlayer())
    {
      store.ChangePlayer();
      i := i + 1;
    }
  }

  /** A fresh store: no current player yet and both scores 0. */
  method FreshStore<Point, Line>() returns (current: Option<string>, scoreA: nat, scoreB: nat)
    ensures current == None && scoreA == 0 && scoreB == 0
  {
    var store := new GameStore<Point, Line>();
    current := store.CurrentId();
    scoreA := store.GetPlayerAScore();
    scoreB := store.GetPlayerBScore();
  }

  /** Setting player A, then player B, makes each the current player in turn. */
  method SetThenRead<Point, Line>() returns (afterA: Option<string>, afterB: Option<string>)
    ensures afterA == Some("A") && afterB == Some("B")
  {
    var store := new GameStore<Point, Line>();
    store.SetCurrentPlayer(store.playerA);
    afterA := store.CurrentId();
    store.SetCurrentPlayer(store.playerB);
    afterB := store.CurrentId();
  }

  /** changePlayer before any setCurrentPlayer lands on A. */
  method ChangeBeforeAnySet<Point, Line>() returns (current: Option<string>)
    ensures current == Some("A")
  {
    var store := new GameStore<Point, Line>();
    store.ChangePlayer();
    current := store.CurrentId();
  }

  /** Starting from an explicit turn of A, n calls land on A when n is even and on B when n is odd. */
  method TogglesFromA<Point, Line>(n: nat) returns (current: Option<string>, onA: bool)
    ensures current == Some(if n % 2 == 0 then "A" else "B")
    ensures onA == (n % 2 == 0)
  {
    var store := new GameStore<Point, Line>();
    store.SetCurrentPlayer(store.playerA);
    ChangePlayerTimes(store, n);
    ChangesFromA(n);
    current := store.CurrentId();
    onA := store.GetCurrentPlayer() == Assigned(store.playerA);
  }

  /** Appending three boxes to A's collection gives A a score of 3 and leaves B at 0. */
  method ScoreFollowsAppends<Point, Line>(b1: Box<Point, Line>, b2: Box<Point, Line>, b3: Box<Point, Line>)
    returns (scoreA: nat, scoreB: nat)
    ensures scoreA == 3 && scoreB == 0
  {
    var store := new GameStore<Point, Line>();
    store.playerA.boxes := store.playerA.boxes + [b1];
    store.playerA.boxes := store.playerA.boxes + [b2];
    store.playerA.boxes := store.playerA.boxes + [b3];
    scoreA := store.GetPlayerAScore();
    scoreB := store.GetPlayerBScore();
  }

  /** The current player is a reference: a box appended to A after setting A is seen through it. */
  method AppendVisibleThroughCurrent<Point, Line>(b: Box<Point, Line>) returns (seen: nat, scoreA: nat)
    ensures seen == 1 && scoreA == 1
  {
    var store := new GameStore<Point, Line>();
    store.SetCurrentPlayer(store.playerA);
    store.playerA.boxes := store.playerA.boxes + [b];
    var slot := store.GetCurrentPlayer();
    seen := |slot.player.boxes|;
    scoreA := store.GetPlayerAScore();
  }

  /** Set B, B claims two boxes, change player: the turn is A's and the scores are 0 and 2. */
  method EndToEnd<Point, Line>(b1: Box<Point, Line>, b2: Box<Point, Line>)
    returns (current: Option<string>, scoreA: nat, scoreB: nat)
    ensures current == Some("A") && scoreA == 0 && scoreB == 2
  {
    var store := new GameStore<Point, Line>();
    store.SetCurrentPlayer(store.playerB);
    store.playerB.boxes := store.playerB.boxes + [b1, b2];
    store.ChangePlayer();
    current := store.CurrentId();
    scoreA := store.GetPlayerAScore();
    scoreB := store.GetPlayerBScore();
  }
}
