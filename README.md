# 30S gameplay rules in Dafny

A model of the gameplay core of the Unity arcade game 30S: a timed session in which the player
swings a magnet to grab items and drop them into a truck before the countdown runs out, scored by
the value in the truck. The model covers the game controller's session state machine, the global
time scale and the end-of-game star rank; the magnet's highlight and grab slots; item durability,
explosion and joint state; the truck's ledger; player movement gating and sprite flip; and the
scene loader's next-level name.

Each core source file is one module, and each Unity component whose fields change in place is a
class whose methods state, with field-level `modifies` frames, exactly what changes:

| module | file | contents |
|---|---|---|
| `Items` | item.dfy | `Item` (durability, light, joint, destroyed flag), `Alive`, the collision damage rule |
| `Trucks` | truck.dfy | `Truck` (list of items), `ValueSum`, `RemoveFirst` and the ledger lemmas |
| `Session` | game_controller.dfy | `GameController`, `UpdatedState`, the score ratio and star lemmas |
| `Magnets` | magnet.dfy | `Magnet` with its highlighted and current slots |
| `Movement` | player_movement.dfy | `PlayerMovement` with the player's flip flag |
| `Scenes` | scene_loader.dfy | level-name parsing and formatting, `SceneLoader` |
| `Level` | level.dfy | explicit wiring of an exploding item to the controller's slow motion, and short plays |
| `Options` | options.dfy | `Option` |

Conventions:
- Unity's implicit `!item` test treats a destroyed object as null. `Items.Alive` is that test:
  an item is alive when it is non-null and its `destroyed` flag is not set. `Explode` only sets
  the flag, because the engine defers `Destroy` to the end of the frame.
- Floats are `real`. The division in `RankLevel` is modelled with its IEEE outcomes
  (`Session.Ratio`): a maximum of zero gives +Infinity or NaN, not an error.
- The timers, the physics engine and the input system are parameters. "Start countdown reached",
  "play countdown reached", impact speed, collider tags, the move direction and whether the scene
  is loaded are passed to the methods. The game controller is passed where the source uses its
  singleton.
- `Item.Explode` calls `GameController.PlaySlowMotionEffect`. Here that call is made by
  `Level.ItemCollides`, because an import from `Items` to `Session` would form a cycle.

The model follows the code as written, including these behaviours a reader might not expect:
- The truck does not de-duplicate: an item entering twice is counted twice.
- Grabbing while already holding does not release the held item; its joint stays connected.
- Destroying an item clears neither magnet slot.
- On trigger exit of any item that is not the current one, the magnet clears whatever item is
  highlighted, which need not be the item leaving. Entering a new item does not turn off the
  previous item's light.
- Releasing unhighlights the item in the highlight slot, which is not necessarily the held one.
- With no item value at start (maximum 0), the rank is not clamped. A positive total shows all
  five stars (+Infinity) and a zero total shows none (NaN).
- The level index is read with `Convert.ToInt32`. It accepts surrounding white space and a
  leading sign, so `"Level 7"` and `"Level+7"` name level 7 and `"Level-3"` names level -3.
  Only two characters that are not a number are a format error.

## Model

| member | source | states |
|---|---|---|
| `Items.TruncateTowardZero` | Assets/Scripts/Item/Item.cs:19 | the `(int)` cast lies within one of its argument, toward zero, for both signs |
| `Items.Alive` | Assets/Scripts/Magnet/Magnet.cs:89 | Unity's `!item` test: an item counts as present exactly when it is non-null and not destroyed |
| `Items.CollisionDamage` | Assets/Scripts/Item/Item.cs:83-87 | a Magnet-tagged contact deals no damage; any other deals speed × 10, which is never negative |
| `Items.Item.constructor` | Assets/Scripts/Item/Item.cs:6-18 | a new item keeps its name, value and base durability, has durability 0 and is not destroyed |
| `Items.Item.DurabilityPercentage` | Assets/Scripts/Item/Item.cs:19 | 100 at full durability, between 0 and 99 below it, never positive at or below zero, and current/base × 100 truncated toward zero for either sign (a negative durability after an explosion gives a negative percentage) |
| `Items.Item.Start` | Assets/Scripts/Item/Item.cs:32-39 | durability becomes the base durability (so the percentage is 100), the light is off, the joint has no body and is disabled |
| `Items.Item.SetHighlight` | Assets/Scripts/Item/Item.cs:43-46 | sets the light flag to the value and changes nothing else (so repeating it changes nothing) |
| `Items.Item.SetJointBody` | Assets/Scripts/Item/Item.cs:48-52 | connects the given body and enables the joint exactly when the body is not null |
| `Items.Item.TakeDamage` | Assets/Scripts/Item/Item.cs:54-68 | durability drops by exactly the damage; splash feedback iff damage > 10; explodes (and is destroyed) iff durability is then at most 0 |
| `Items.Item.Explode` | Assets/Scripts/Item/Item.cs:70-78 | the item is destroyed |
| `Items.Item.OnCollisionEnter2D` | Assets/Scripts/Item/Item.cs:81-96 | a magnet contact changes nothing; any other applies `TakeDamage(speed × 10)`; durability never increases |
| `Trucks.ValueSum` | Assets/Scripts/Truck/Truck.cs:13-21 | the summed value of a list, 0 when empty, non-negative when every value is |
| `Trucks.RemoveFirst` | Assets/Scripts/Truck/Truck.cs:44 | removes exactly one occurrence of a present item (one shorter, same multiset less that item) and leaves the list alone otherwise |
| `Trucks.ValueSumAppend` | Assets/Scripts/Truck/Truck.cs:18 | the total of two lists joined is the sum of their totals |
| `Trucks.ValueSumRemoveFirst` | Assets/Scripts/Truck/Truck.cs:44 | removing a present item lowers the total by exactly its value |
| `Trucks.EnterThenExit` | Assets/Scripts/Truck/Truck.cs:28-44 | an entry followed by an exit of the same item restores count, contents and total |
| `Trucks.EnterTwice` | Assets/Scripts/Truck/Truck.cs:25-28 | entering the same item twice adds two to the count and twice its value to the total |
| `Trucks.Truck.constructor` | Assets/Scripts/Truck/Truck.cs:10 | the ledger starts empty |
| `Trucks.Truck.ItemsCount` | Assets/Scripts/Truck/Truck.cs:12 | the number of recorded entries, counting repeats; zero exactly when nothing is recorded |
| `Trucks.Truck.TotalValue` | Assets/Scripts/Truck/Truck.cs:13-21 | the accumulator loop returns `ValueSum` of the ledger, 0 when empty |
| `Trucks.Truck.OnTriggerEnter2D` | Assets/Scripts/Truck/Truck.cs:23-34 | an Item-tagged collider is appended with no duplicate check; other colliders change nothing |
| `Trucks.Truck.OnTriggerExit2D` | Assets/Scripts/Truck/Truck.cs:36-50 | with the scene loaded, an Item-tagged collider loses one occurrence if present; otherwise nothing changes |
| `Session.UpdatedState` | Assets/Scripts/GameController.cs:99-113 | the state only moves forward, EndGame is final, PreGame starts when its countdown is reached, InProgress ends when its countdown is reached, and PreGame with both reached ends the frame in EndGame |
| `Session.RunMovesForward` | Assets/Scripts/GameController.cs:99-113 | over any run of frames the state never goes back and EndGame stays EndGame |
| `Session.ScoreRatio` | Assets/Scripts/GameController.cs:200 | finite exactly when the maximum is non-zero and then times the maximum gives the total; +Infinity or NaN for a zero maximum |
| `Session.StarShown` | Assets/Scripts/GameController.cs:203 | star i is lit for a finite score q exactly when 5q ≥ i, always for +Infinity, never for -Infinity or NaN |
| `Session.StarsShown` | Assets/Scripts/GameController.cs:201-204 | the number of lit stars among the first n is at most n |
| `Session.StarsShownFinite` | Assets/Scripts/GameController.cs:201-204 | for a finite score q the lit stars number min(n, floor(5q) + 1), or 0 when q < 0 |
| `Session.StarsFormPrefix` | Assets/Scripts/GameController.cs:203 | if star i is lit, every earlier star is lit |
| `Session.RankBounds` | Assets/Scripts/GameController.cs:198-205 | with a positive maximum at least one star is lit iff the total is non-negative, and all five iff the score is at least 0.8 |
| `Session.RankMonotone` | Assets/Scripts/GameController.cs:198-205 | with a positive maximum a larger total never lights fewer stars |
| `Session.RankWithoutItems` | Assets/Scripts/GameController.cs:200-204 | with a zero maximum a positive total lights all five stars and any other total none |
| `Session.GameController.constructor` | Assets/Scripts/GameController.cs:24 | the session starts in PreGame with no maximum value accumulated |
| `Session.GameController.Awake` | Assets/Scripts/GameController.cs:68-76 | the maximum grows by the summed value of every item present |
| `Session.GameController.Start` | Assets/Scripts/GameController.cs:78-97 | time scale and fixed step 0, cursor locked, start display shown, end display hidden, state unchanged |
| `Session.GameController.Update` | Assets/Scripts/GameController.cs:99-113 | the state follows `UpdatedState`; starting sets time scale 1 and hides the start display; ending freezes time, frees the cursor, shows the end display with the truck's count and total and lights the stars by the score; cursor, end display, stars and reported totals change only on the end transition, the start display only on the start transition; with no transition nothing changes; array entries past the fifth star are never written |
| `Session.GameController.SetGameState` | Assets/Scripts/GameController.cs:126-129 | sets the state to any value, backwards included |
| `Session.GameController.SetCursorEnabled` | Assets/Scripts/GameController.cs:131-135 | sets whether the cursor is free |
| `Session.GameController.SetTimeScale` | Assets/Scripts/GameController.cs:137-141 | sets the time scale and keeps the fixed step at 0.01666667 × the time scale |
| `Session.GameController.BeginSlowMotion` | Assets/Scripts/GameController.cs:145-150 | the slow-motion effect sets the given scale |
| `Session.GameController.EndSlowMotion` | Assets/Scripts/GameController.cs:152-157 | when the effect finishes the scale is 1, whatever it was |
| `Session.GameController.StartGame` | Assets/Scripts/GameController.cs:169-178 | InProgress, time scale 1, start display hidden |
| `Session.GameController.EndGame` | Assets/Scripts/GameController.cs:180-194 | EndGame, time scale 0, cursor free, end display with the truck's count and total, stars ranked, array entries past the fifth star unchanged |
| `Session.GameController.RankLevel` | Assets/Scripts/GameController.cs:198-205 | star i (0 to 4) is shown exactly when the truck total over the maximum reaches i/5; the rest of the array keeps its values |
| `Magnets.Magnet.constructor` | Assets/Scripts/Magnet/Magnet.cs:20-21 | both slots start empty |
| `Magnets.Magnet.FireOnPerformed` | Assets/Scripts/Magnet/Magnet.cs:73-77 | outside InProgress nothing changes; in progress a live highlighted item is grabbed, the highlight slot is kept |
| `Magnets.Magnet.FireOnCanceled` | Assets/Scripts/Magnet/Magnet.cs:79-83 | outside InProgress nothing changes; in progress a live current item is released, as `ReleaseCurrentItem` says, including a destroyed highlighted item staying in its slot untouched |
| `Magnets.Magnet.HighlightItem` | Assets/Scripts/Magnet/Magnet.cs:87-93 | a live item becomes the highlighted one and is lit; a previous highlight is not turned off |
| `Magnets.Magnet.UnhighlightCurrentItem` | Assets/Scripts/Magnet/Magnet.cs:95-101 | a live highlighted item is turned off and the slot emptied; a destroyed one stays in the slot |
| `Magnets.Magnet.GrabItem` | Assets/Scripts/Magnet/Magnet.cs:105-113 | a dead or null item changes nothing; otherwise it becomes current, jointed to the magnet's body with the joint enabled; a previously held item is not released; the held item stays tethered |
| `Magnets.Magnet.ReleaseCurrentItem` | Assets/Scripts/Magnet/Magnet.cs:115-124 | with no live current item nothing changes; otherwise a live highlighted item is turned off and its slot cleared (a destroyed one stays in the slot, untouched), the current item's joint disconnected and disabled, and the current slot emptied |
| `Magnets.Magnet.OnTriggerEnter2D` | Assets/Scripts/Magnet/Magnet.cs:128-132 | a live item entering becomes highlighted and lit; anything else changes nothing |
| `Magnets.Magnet.OnTriggerExit2D` | Assets/Scripts/Magnet/Magnet.cs:134-138 | a live item other than the current one leaving clears whatever is highlighted; the current item leaving changes nothing |
| `Movement.Flipped` | Assets/Scripts/Player/PlayerMovement.cs:72-73 | moving left flips, moving right unflips, a zero horizontal component keeps the flag |
| `Movement.PlayerMovement.constructor` | Assets/Scripts/Player/PlayerMovement.cs:6-9 | the player starts not moving, with no direction |
| `Movement.PlayerMovement.FixedUpdate` | Assets/Scripts/Player/PlayerMovement.cs:41-44 | a force is applied iff moving, and it is moveForce × direction |
| `Movement.PlayerMovement.MoveOnPerformed` | Assets/Scripts/Player/PlayerMovement.cs:50-56 | ignored unless InProgress; in progress it moves in the given direction |
| `Movement.PlayerMovement.MoveOnCanceled` | Assets/Scripts/Player/PlayerMovement.cs:58-61 | stops in every game state |
| `Movement.PlayerMovement.Move` | Assets/Scripts/Player/PlayerMovement.cs:67-74 | moving with the given direction, and the flip flag by `Flipped` |
| `Movement.PlayerMovement.Stop` | Assets/Scripts/Player/PlayerMovement.cs:76-79 | not moving |
| `Scenes.ParseTwoChars` | Assets/Scripts/SceneLoader.cs:62 | two digits, a digit padded by white space, or a signed digit parse, and every other pair is a format error; results lie in -9..99 |
| `Scenes.LevelIndex` | Assets/Scripts/SceneLoader.cs:62 | a name shorter than 7 characters is an out-of-range error; otherwise the result is the parse of characters 5-6 |
| `Scenes.FormatNat` | Assets/Scripts/SceneLoader.cs:63 | at least one decimal digit, whose decimal value is n, with a leading '0' only for 0 (so 100, the successor of index 99, is "100"); one digit below 10, two from 10 to 99 |
| `Scenes.FormatInt` | Assets/Scripts/SceneLoader.cs:63 | a minus sign before the digits of a negative number |
| `Scenes.NextLevelName` | Assets/Scripts/SceneLoader.cs:63 | "Level", then a "0" when the index is below 9, then index + 1 in decimal |
| `Scenes.NextLevel` | Assets/Scripts/SceneLoader.cs:60-64 | succeeds exactly when the index can be read, with the same error otherwise, and the result starts with "Level" |
| `Scenes.NextLevelRoundTrip` | Assets/Scripts/SceneLoader.cs:62-63 | for index 0..98 the next name has 7 characters, starts with "Level" and reads back as index + 1 |
| `Scenes.LevelsAdvanceByOne` | Assets/Scripts/SceneLoader.cs:60-64 | from a level with index 0..98 the next level's index is one more |
| `Scenes.SceneLoader.constructor` | Assets/Scripts/SceneLoader.cs:27 | no scene is recorded at first |
| `Scenes.SceneLoader.Load` | Assets/Scripts/SceneLoader.cs:54-58 | records the scene to load |
| `Scenes.SceneLoader.LoadNextLevel` | Assets/Scripts/SceneLoader.cs:60-64 | records the next level's name, or reports the error and records nothing |
| `Scenes.SceneLoader.Restart` | Assets/Scripts/SceneLoader.cs:66-70 | records the active scene's own name |
| `Level.ItemCollides` | Assets/Scripts/Item/Item.cs:67-90 | an impact that explodes the item destroys it and sets the time scale to the slow-motion scale 0.5 in the same step; otherwise the time scale is untouched |
| `Level.StartedGame` | Assets/Scripts/GameController.cs:169-173 | after Start and a frame with the start countdown reached, the game is in progress at time scale 1 |
| `Level.SessionRun` | Assets/Scripts/GameController.cs:88-113 | a whole session: time scale 0 before the start, 1 during play, 0 at the end with the cursor free and the state EndGame |
| `Level.TruckCountsTwice` | Assets/Scripts/Truck/Truck.cs:25-28 | one item entering twice gives count 2 and twice its value |
| `Level.GrabWhileHolding` | Assets/Scripts/Magnet/Magnet.cs:105-124 | after a second grab the first item is still jointed to the magnet, and still after the second is released |
| `Level.StaleHighlight` | Assets/Scripts/Magnet/Magnet.cs:87-101 | entering A then B and A leaving leaves A lit, B unlit and the highlight slot empty |
| `Level.DestroyedWhileHeld` | Assets/Scripts/Magnet/Magnet.cs:115-117 | a held item destroyed by an impact triggers slow motion, stays current, and a release leaves its joint enabled |

## Left out

- The `Timer` class is not part of this model: "start countdown reached" and "play countdown reached" are inputs to `Update`, and the countdown texts are not modelled.
- Rendering and feedback: line renderers, force fields, lights beyond their on/off flag, particles, floating texts (PopText), camera shake, post-processing, and the formatting of the end-of-game text (its item count and total are kept).
- Input wiring (`OnEnable`, `OnDisable`, the escape action, `InputTypeController`): fire and move events are method calls.
- Coroutines and real-time waits: the slow-motion effect is two explicit steps, so its 0.25 s duration and overlapping effects are not modelled; `LoadSceneAsync`, the camera outro and `Quit` are left out.
- Physics: impact speed is an input; contact points, joint simulation and force integration are left out; `FixedUpdate` returns the force instead of applying it.
- Movement.PlayerMovement.MoveOnPerformed: receives the already normalised direction, because normalising needs a square root; the flip rule reads only the sign of the horizontal component of the vector the input system delivers, and Unity's normalisation returns the zero vector for an input of magnitude at most 1e-5, so such a tiny input leaves the flip flag as it is.
- Floating point: values are exact reals, so rounding in sums, in `i / 5f` and in the fixed step is not modelled, and a maximum of -0.0 is not told apart from 0.
- Session.GameController.Start: requires at least five star slots, and Valid() keeps that from then on; the scene has five, and with fewer the code would throw IndexOutOfRangeException in `RankLevel` (GameController.cs:203) after the end-of-game state is set, which the model does not capture.
- Items.Item.DurabilityPercentage: requires a positive base durability; a zero base (a float division by zero, then an undefined int cast) and int overflow are not modelled.
- Trucks.Truck.OnTriggerEnter2D: requires an Item-tagged collider to carry an Item; without one the source would append null and then throw.
- Trucks.Truck.OnTriggerExit2D: for an Item-tagged collider without an Item the list is left unchanged, as in the source, but the NullReferenceException the source then raises while showing the value text is not modelled.
- Items.Item.Explode: sets the destroyed flag at once, and `Alive` reads it at once, whereas Unity's `!item` still sees the object until the end of the frame; so a magnet release later in the same frame releases the item in the source but does nothing in the model.
- Level.ItemCollides: the explosion effects, the "destroyed" text and the camera shake are presentation; only the slow-motion request is modelled.
- The magnet's own `Awake`/`Start` (connecting its joint to the player's body) and `Update` (line positions) are engine wiring and presentation.
- Player.cs only sets the sprite's flip flag; the flag is the `flipped` field of `PlayerMovement`. PopText.cs is a presentation widget.
- The controller's frame-rate, vSync and post-processing setup in `Start`, and the singleton and `FindObjectOfType` lookups, which are explicit references here.
