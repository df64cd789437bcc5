# Crate game screen: input and contact flags

A model of the gameplay-flag state machine of the `GameScreen` of the SupaBax
platformer (`crate` package). The screen is the game's input processor, and
the contact listener it registers with the physics world writes through the
screen's player reference:

- a key press or release sets or clears the player's movement intent
  (`movingLeft`, `movingRight`, `jump`), flips the screen's `debug` rendering
  toggle on the grave key, and asks the application to exit on Escape;
- a contact that begins or ends on a fixture tagged `"ground sensor"` sets or
  clears the player's `grounded` flag, last write wins;
- the screen takes its player from the first entity the body builder produced.

`Crate` (GameScreen.dfy) holds the events, the pure step functions that say
what each event does to the six flags, and the class `GameScreen` whose fields
are those flags and whose handlers are proved to perform exactly those steps.
`CrateProperties` (Properties.dfy) proves what the flags are after any
sequence of events. `Wrappers` (Wrappers.dfy) holds `Option` and `Result`.

Modelling decisions:

- The player's class is not part of this model; its setters are flag writes at
  their call sites, so the player's four flags are plain fields of the screen.
- Key codes are the abstract `Key` datatype: the five keys the screen tests,
  and `Other` for the rest.
- A fixture's user data is `Option<string>` (`None` for no user data). The
  source compares it to the literal with Java's reference `==`; the model
  compares by value, which agrees as long as the tag is the interned literal.
- `Gdx.app.exit()` becomes setting `exitRequested`; libGDX defers the exit, so
  the rest of the handler still runs, as in the model.
- The unchecked `entities.get(0)` and downcast to `Player` become `PlayerOf`,
  which names the two failures (`IndexOutOfBounds`, `ClassCast`); the
  constructor requires success, since the source has no recovery.

Releasing Space clears `jump` directly (GameScreen.java:218-220), and a
ground-sensor contact sets the one player's `grounded` without resolving which
body owns the sensor (GameScreen.java:107-115).

The sequence lemmas of `CrateProperties` describe the flags as the four
handlers leave them: they speak of the writes those handlers make, and of no
other writer.

## Model

| member | source | states |
|---|---|---|
| `Crate.PlayerOf` | core/src/crate/GameScreen.java:84-86 | the player is the first entity; an empty list fails with an index error and a non-player first entity with a cast error, and these are the only failures |
| `Crate.InitialFlags` | core/src/crate/GameScreen.java:36 | a new screen starts with debug rendering on, no exit requested, and the player's flags as handed over |
| `Crate.GameScreen.constructor` | core/src/crate/GameScreen.java:60-86 | builds the screen from an entity list whose first entity is the player, in the initial state |
| `Crate.KeyDownStep` | core/src/crate/GameScreen.java:186-209 | exit is requested iff it was or the key is Escape; debug flips iff the key is Grave; A sets movingLeft and D sets movingRight without clearing the other; Space sets jump; grounded never changes |
| `Crate.KeyUpStep` | core/src/crate/GameScreen.java:212-223 | a release clears only the flag of its own key (A, D, Space); debug, exit and grounded never change; any other key changes nothing |
| `Crate.ContactStep` | core/src/crate/GameScreen.java:105-117 | a contact changes nothing but grounded; grounded becomes true on begin and false on end exactly when fixture A or B carries the ground-sensor tag |
| `Crate.GameScreen.KeyDown` | core/src/crate/GameScreen.java:186-209 | the press handler leaves the screen in the state `KeyDownStep` gives and reports the event as not consumed |
| `Crate.GameScreen.KeyUp` | core/src/crate/GameScreen.java:212-223 | the release handler leaves the screen in the state `KeyUpStep` gives and reports the event as not consumed |
| `Crate.GameScreen.BeginContact` | core/src/crate/GameScreen.java:113-117 | the begin callback leaves the screen in the state `ContactStep` gives for a beginning contact |
| `Crate.GameScreen.EndContact` | core/src/crate/GameScreen.java:106-110 | the end callback leaves the screen in the state `ContactStep` gives for an ending contact |
| `CrateProperties.StepHeld` | core/src/crate/GameScreen.java:199-220 | one event changes a movement flag only by pressing (set) or releasing (clear) its own key |
| `CrateProperties.GroundedUnwritten` | core/src/crate/GameScreen.java:105-117 | after events with no ground-sensor contact, grounded keeps its initial value |
| `CrateProperties.GroundedLastWrite` | core/src/crate/GameScreen.java:105-117 | after any events delivered to the handlers, grounded is true iff the latest ground-sensor contact began; earlier contacts are not counted |
| `CrateProperties.StraddlingClearsGrounded` | core/src/crate/GameScreen.java:107-116 | two ground contacts begin and one ends: grounded is false although one contact remains |
| `CrateProperties.HeldUnwritten` | core/src/crate/GameScreen.java:198-220 | with no press or release of A, D or Space, the flag that key drives keeps its value |
| `CrateProperties.HeldLastWrite` | core/src/crate/GameScreen.java:198-220 | after any events delivered to the handlers, the flag of A, D or Space is set iff the latest event on that key was a press |
| `CrateProperties.BothDirectionsHeld` | core/src/crate/GameScreen.java:199-203 | pressing A then D leaves both movingLeft and movingRight set |
| `CrateProperties.ExitIffEscapePressed` | core/src/crate/GameScreen.java:187-189 | after any events, exit is requested iff it already was or Escape was pressed; releases never request it |
| `CrateProperties.DebugParity` | core/src/crate/GameScreen.java:190-196 | after any events, debug differs from its start value iff Grave was pressed an odd number of times |
| `CrateProperties.GraveTwiceRestoresDebug` | core/src/crate/GameScreen.java:190-196 | two Grave presses restore the whole state |
| `CrateProperties.ContactsOnlyWriteGrounded` | core/src/crate/GameScreen.java:105-117 | a sequence of contact events changes nothing but grounded |
| `CrateProperties.KeysKeepGrounded` | core/src/crate/GameScreen.java:186-222 | a sequence of key events never changes grounded |

## Left out

- The weapon package's pistol bullet: its spawn offset and random angular spread are floating-point arithmetic over `java.util.Random`, and its body, fixture, texture and disposal are physics and graphics library calls.
- The physics step, gravity, `preSolve` (which only resets friction through the physics engine) and the empty `postSolve`: they belong to the physics engine, which is not part of this model.
- Rendering, the camera and viewport, loading the tile map, the body builder and `dispose`: rendering, assets and calls into code that is not part of this model.
- The per-frame loop over the entities: it only delegates to entity `update` methods, which are not part of this model.
- Registering the screen as input processor and contact listener in `show`: library wiring; the model assumes events are delivered to the handlers.
- `keyTyped` and the touch, mouse and scroll handlers: they only return false.
- `Player` setters and `update`: the player's class is not part of this model; the setters are modelled as the flag writes they perform. The screen calls every entity's `update` once per frame (GameScreen.java:126-128), and the player's `update` may itself write `jump` or `grounded`; the model does not capture such writes, so `HeldLastWrite`, `HeldUnwritten`, `GroundedLastWrite` and `GroundedUnwritten` hold of the player's flags only as long as nothing but the input and contact handlers writes them.
