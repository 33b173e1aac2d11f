/**
 * The turn/score store: which player's turn it is, the two fixed players,
 * and their scores. The store is a class whose actions assign the
 * current-player slot in place; the turn rule itself is also stated as
 * functions on ids, so that repeated turns can be reasoned about.
 */
module Game {
  import opened Wrappers
  import opened Models

  /** The two canonical players of a session. */
  datatype Side = SideA | SideB

  /** The id each canonical player is created with. */
  function IdOf(s: Side): (id: string) {
    match s
    case SideA => "A"
    case SideB => "B"
  }

  function Other(s: Side): (o: Side) {
    match s
    case SideA => SideB
    case SideB => SideA
  }

  /**
   * The player that changePlayer hands the turn to, given the current
   * player's id (None for the uninitialised placeholder): B exactly when
   * the id is the string "A", and A in every other case.
   */
  function Target(id: Option<string>): (s: Side) {
    if id == Some("A") then SideB else SideA
  }

  /** The current player's id after one changePlayer, for a store whose players carry their canonical ids. */
  function NextId(id: Option<string>): (next: Option<string>) {
    Some(IdOf(Target(id)))
  }

  /** The current player's id after n calls of changePlayer starting from `start`. */
  function Changes(start: Option<string>, n: nat): (id: Option<string>)
    decreases n
  {
    if n == 0 then start else NextId(Changes(start, n - 1))
  }

  /** From a canonical player, changePlayer goes to the other one. */
  lemma TargetOfCanonical(s: Side)
    ensures Target(Some(IdOf(s))) == Other(s)
  {
  }

  /** Starting from a canonical player, the turn alternates with the parity of the number of calls. */
  lemma {:induction false} ChangesFromSide(s: Side, n: nat)
    ensures Changes(Some(IdOf(s)), n) == Some(IdOf(if n % 2 == 0 then s else Other(s)))
  {
    if n > 0 {
      ChangesFromSide(s, n - 1);
      TargetOfCanonical(if (n - 1) % 2 == 0 then s else Other(s));
    }
  }

  /** Starting from player A, an even number of calls lands on A and an odd number on B. */
  lemma ChangesFromA(n: nat)
    ensures Changes(Some("A"), n) == Some(if n % 2 == 0 then "A" else "B")
  {
    ChangesFromSide(SideA, n);
  }

  /** Starting from player B, an even number of calls lands on B and an odd number on A. */
  lemma ChangesFromB(n: nat)
    ensures Changes(Some("B"), n) == Some(if n % 2 == 0 then "B" else "A")
  {
    ChangesFromSide(SideB, n);
  }

  /** n + 1 calls are one call followed by n calls. */
  lemma {:induction false} ChangesShift(start: Option<string>, n: nat)
    ensures Changes(start, n + 1) == Changes(NextId(start), n)
  {
    if n > 0 {
      ChangesShift(start, n - 1);
    }
  }

  /**
   * From the uninitialised placeholder the first call lands on A, and the
   * turn alternates from there: an odd number of calls ends on A.
   */
  lemma ChangesFromPlaceholder(n: nat)
    requires n >= 1
    ensures Changes(None, n) == Some(if n % 2 == 1 then "A" else "B")
  {
    ChangesShift(None, n - 1);
    ChangesFromA(n - 1);
  }

  /** After at least one call, whatever the start, the current id is one of the canonical ids. */
  lemma ChangesCanonical(start: Option<string>, n: nat)
    requires n >= 1
    ensures Changes(start, n) == Some("A") || Changes(start, n) == Some("B")
  {
  }

  /** Once a canonical player holds the turn, two more calls give it back. */
  lemma ChangesPeriodTwo(start: Option<string>, n: nat)
    requires n >= 1
    ensures Changes(start, n + 2) == Changes(start, n)
  {
    var s := Target(Changes(start, n - 1));
    TargetOfCanonical(s);
    TargetOfCanonical(Other(s));
  }

  /**
   * The store's current-player slot: the empty placeholder the store starts
   * with (an object with no fields, so no id), or a reference to a player record.
   */
  datatype PlayerSlot<Point, Line> = Placeholder | Assigned(player: Player<Point, Line>)

  class GameStore<Point, Line> {
    var currentPlayer: PlayerSlot<Point, Line>
    var playerA: Player<Point, Line>
    var playerB: Player<Point, Line>

    /** The two players carry the ids they were created with. */
    ghost predicate Valid()
      reads this, playerA, playerB
    {
      playerA.id == "A" && playerB.id == "B"
    }

    /** The store's initial state. */
    constructor ()
      ensures Valid()
      ensures fresh(playerA) && fresh(playerB) && playerA != playerB
      ensures playerA.id == "A" && playerA.name == "Player A" && playerA.color == "var(--color-primary)"
      ensures playerB.id == "B" && playerB.name == "Player B" && playerB.color == "var(--color-secondary)"
      ensures playerA.boxes == [] && playerB.boxes == []
      ensures GetPlayerAScore() == 0 && GetPlayerBScore() == 0
      ensures GetCurrentPlayer() == Placeholder && CurrentId() == None
      ensures GetCurrentPlayer() != Assigned(playerA) && GetCurrentPlayer() != Assigned(playerB)
    {
      currentPlayer := Placeholder;
      playerA := new Player("A", "Player A", "var(--color-primary)", []);
      playerB := new Player("B", "Player B", "var(--color-secondary)", []);
    }

    function GetCurrentPlayer(): (slot: PlayerSlot<Point, Line>)
      reads this
    {
      currentPlayer
    }

    function GetPlayerAScore(): (score: nat)
      reads this, playerA
    {
      |playerA.boxes|
    }

    function GetPlayerBScore(): (score: nat)
      reads this, playerB
    {
      |playerB.boxes|
    }

    /** The objects the current player's id is read from. */
    function CurrentFrame(): (frame: set<object>)
      reads this
    {
      if currentPlayer.Assigned? then {currentPlayer.player} else {}
    }

    /** The current player's id; the placeholder has none. */
    function CurrentId(): (id: Option<string>)
      reads this, CurrentFrame()
    {
      match currentPlayer
      case Placeholder => None
      case Assigned(p) => Some(p.id)
    }

    /** The canonical player record for a side. */
    function PlayerOn(s: Side): (p: Player<Point, Line>)
      reads this
    {
      match s
      case SideA => playerA
      case SideB => playerB
    }

    /** Any player record is accepted; only the slot changes. */
    method SetCurrentPlayer(player: Player<Point, Line>)
      modifies this`currentPlayer
      ensures GetCurrentPlayer() == Assigned(player)
      ensures playerA == old(playerA) && playerB == old(playerB)
      ensures GetPlayerAScore() == old(GetPlayerAScore()) && GetPlayerBScore() == old(GetPlayerBScore())
      ensures Valid() == old(Valid())
    {
      currentPlayer := Assigned(player);
    }

    /** Hands the turn to B when the current id is exactly "A", and to A otherwise. */
    method ChangePlayer()
      modifies this`currentPlayer
      ensures old(CurrentId()) == Some("A") ==> GetCurrentPlayer() == Assigned(playerB)
      ensures old(CurrentId()) != Some("A") ==> GetCurrentPlayer() == Assigned(playerA)
      ensures GetCurrentPlayer() == Assigned(PlayerOn(Target(old(CurrentId()))))
      ensures GetCurrentPlayer() == Assigned(playerA) || GetCurrentPlayer() == Assigned(playerB)
      ensures playerA == old(playerA) && playerB == old(playerB)
      ensures GetPlayerAScore() == old(GetPlayerAScore()) && GetPlayerBScore() == old(GetPlayerBScore())
      ensures Valid() == old(Valid())
      ensures Valid() ==> CurrentId() == NextId(old(CurrentId()))
    {
      if CurrentId() == Some("A") {
        SetCurrentPlayer(playerB);
      } else {
        SetCurrentPlayer(playerA);
      }
    }
  }
}
