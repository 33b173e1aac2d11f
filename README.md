# Turn/score store of a dots-and-boxes game

This project models the game store of a two-player dots-and-boxes game
(timbiriche). The store holds three things: the current-player slot, and the
two fixed players A and B. A player owns the boxes it has completed, and its
score is the number of those boxes. The store has three getters (the current
player, A's score and B's score) and two actions:

- `setCurrentPlayer` puts any player record in the slot;
- `changePlayer` hands the turn to B when the current player's id is exactly
  `"A"`, and to A in every other case. That includes the empty placeholder the
  slot starts with, which has no id.

The model follows the source's own form:

- `Models` (`models.dfy`): `Box` is a datatype whose anchor point and lines are
  opaque type parameters. `Player` is a class, because the slot refers to the
  same record as `playerA` or `playerB`, and the rule logic outside the store
  grows a player's `boxes` in place.
- `Game` (`game.dfy`): `GameStore` is a class with the three state fields. The
  getters are functions with `reads` clauses (`GetCurrentPlayer`,
  `GetPlayerAScore`, `GetPlayerBScore`, and `CurrentId` for the id test at
  line 31). The two actions are methods that assign the slot; `ChangePlayer`
  calls `SetCurrentPlayer`, as the source does. The placeholder `{}` is the
  slot value `Placeholder`. Every other value is `Assigned(p)`, a reference to a
  player record, so a box added to `playerA` is visible through the slot.
- `Game` also states the turn rule on ids. `Target` picks the player
  `changePlayer` selects. `NextId` is the resulting id. `Changes(start, n)` is
  the id after n calls. The lemmas about these functions prove alternation and
  parity, and `ChangePlayer`'s contract ties the method to `Target` and `NextId`.
- `GameScenarios` (`scenarios.dfy`) holds the store's callers. One is a turn
  loop that calls `ChangePlayer` n times and is proved to reach
  `Changes(start, n)`. The others are scenarios on a fresh store: initial scores, the default-to-A case, parity from A, scores following
  appended boxes, aliasing through the slot, and one end-to-end game.

A stricter store could reject a player other than A or B; the code accepts
any player record, and so does the model: `SetCurrentPlayer` has no
precondition.

## Model

| member | source | states |
|---|---|---|
| `Models.Player.constructor` | src/models/Player.ts:3-8 | a player record holds exactly the id, name, colour and boxes it is built with |
| `Game.GameStore.constructor` | src/stores/game.ts:6-20 | a fresh store has player A with id "A" and player B with id "B", their fixed names and colours, empty box lists, and so scores 0 and 0; the two players are distinct records; the slot is the placeholder, which has no id and is neither player |
| `Game.GameStore.SetCurrentPlayer` | src/stores/game.ts:27-29 | afterwards the current player is the given record, whatever its id; both player references, both scores and the ids of A and B are unchanged; nothing but the slot is written |
| `Game.GameStore.ChangePlayer` | src/stores/game.ts:30-36 | if the old current id is exactly "A" the current player becomes B, otherwise (placeholder, "B" or any other id) it becomes A; the result is always A or B, as selected by `Target`; with canonical ids the new id is `NextId` of the old one; players and scores are unchanged |
| `Game.TargetOfCanonical` | src/stores/game.ts:31-34 | from either canonical player, changePlayer selects the other one |
| `Game.ChangesFromSide` | src/stores/game.ts:31-34 | starting from a canonical player, n calls land on that player when n is even and on the other when n is odd |
| `Game.ChangesFromA` | src/stores/game.ts:8-34 | starting from A (id fixed at line 9), n calls give id "A" for even n and "B" for odd n (id fixed at line 15) |
| `Game.ChangesFromB` | src/stores/game.ts:8-34 | starting from B, n calls give id "B" for even n and "A" for odd n |
| `Game.ChangesShift` | src/stores/game.ts:30-36 | n + 1 calls are one call followed by n calls |
| `Game.ChangesFromPlaceholder` | src/stores/game.ts:7-34 | from the placeholder, the first call lands on A, and after n >= 1 calls the id is "A" for odd n and "B" for even n |
| `Game.ChangesCanonical` | src/stores/game.ts:30-36 | after at least one call, from any start, the current id is "A" or "B" |
| `Game.ChangesPeriodTwo` | src/stores/game.ts:30-36 | after at least one call, two more calls return to the same player |
| `GameScenarios.ChangePlayerTimes` | src/stores/game.ts:30-36 | n calls of the method reach id `Changes(start, n)`, keep both players and their ids, and after at least one call the slot refers to A or B |
| `GameScenarios.FreshStore` | src/stores/game.ts:6-24 | before any action, the current id is absent and both scores are 0 |
| `GameScenarios.SetThenRead` | src/stores/game.ts:22-29 | after setting A the current id is "A", and after setting B it is "B" |
| `GameScenarios.ChangeBeforeAnySet` | src/stores/game.ts:7-34 | changePlayer on a fresh store makes A current |
| `GameScenarios.TogglesFromA` | src/stores/game.ts:27-36 | after setting A and n calls, the current id is "A" for even n and "B" for odd n, and the slot refers to A exactly when n is even |
| `GameScenarios.ScoreFollowsAppends` | src/stores/game.ts:23-24 | three boxes appended to A's list give A a score of 3 and leave B's score at 0 |
| `GameScenarios.AppendVisibleThroughCurrent` | src/stores/game.ts:22-28 | after setting A, a box appended to A's list is seen through the current-player slot, with no second set |
| `GameScenarios.EndToEnd` | src/stores/game.ts:22-36 | set B, B gains two boxes, change player: the current id is "A", A's score is 0 and B's is 2 |

## Left out

- Pinia's `defineStore` wrapper, its reactivity and subscriptions: the store is a plain class, and readers re-read the getters.
- The placeholder `{}` is a value of the slot, not an object. Writes that outside code might make to the placeholder's own fields are not modelled.
- Names and colours are opaque strings with no meaning. The model only records the constants the players are created with.
- The structure of `Point` and `Line`: `src/models/Point.ts` and `src/models/Line.ts` are not part of this model, so both are type parameters of `Box`.
- Box-completion rules, win detection, rendering and input handling are not in the store. Appending a box is done by outside code; the scenarios do it by assigning a player's `boxes` field.
- The getters `GetCurrentPlayer`, `GetPlayerAScore` and `GetPlayerBScore` have no contracts of their own. Each returns its field or list length, and the constructor, the two actions and the scenarios state the properties about them.
