# lorenz-fun viewer bookkeeping, in Dafny

This project models the bookkeeping of the interactive 3D Lorenz-attractor viewer
(`src/bin/three.rs`). Each trajectory entity (`Lorenz3d`) keeps a fading trail. This is a
newest-first history of visual positions, pushed to the front and truncated to
`POINT_TRAIL_LEN` = 1000 every tick, and drawn as a chain of line segments whose intensity
drops by 1/1000 per segment. The application state (`AppState`) owns the list of entities
and the help flag. It reacts to key presses decoded by `AppAction::from_key`. The browser
build also has a single-slot mailbox (`CONFIG_TO_INIT`). A page script writes a scene
selector into it, and each frame drains it.

Modules:

- `Wrappers` (`wrappers.dfy`): `Option`.
- `Actions` (`actions.dfy`): `LorenzConfig`, `AppAction`, the toolkit's `Key`, and `FromKey` with its inverse `KeyFor`.
- `Trail` (`trail.dfy`): truncation and the one-tick push as functions, the drawing loop as a method, and lemmas about many pushes and about the intensity ramp.
- `Mailbox` (`mailbox.dfy`): the `i32` selector and the mailbox as class `ConfigSlot`.
- `App` (`app.dfy`): the classes `Lorenz3d` and `AppState`, whose methods mutate their fields as the Rust methods do.

The Lorenz integrator is treated as opaque. Its state is a datatype with the six fields of
`lorenz::Lorenz` and the default coefficients. Its update (`Lorenz::update(0.01)`) and the
mapping to a visual position (the 0.1 scale and the `f32` cast) are function-typed parameters
of `Step`, `StepAll` and `Frame`. The random generator's samples are an input (`RandomDraw`)
of type `Unit`, the interval [0, 1) that rand's standard float distribution yields. The
window is left out. The lines `draw_line` would draw are returned as `Segment` values, each
carrying its two end points and the number of intensity decrements made before it was drawn.

## Model

| member | source | states |
|---|---|---|
| `Actions.FromKey` | src/bin/three.rs:40-49 | a key decodes to an action exactly when it is one of `1`, `2`, `H`, `=`, `-`, and the decoded action's bound key is the pressed key |
| `Actions.FromKeyOfKeyFor` | src/bin/three.rs:42-46 | each action is produced by its bound key: `1` gives `InitConfig(One)`, `2` gives `InitConfig(Two)`, `H` gives `ToggleHelp`, `=` gives `AddObj`, `-` gives `RemoveObj` |
| `Actions.FromKeyInjective` | src/bin/three.rs:40-49 | no two keys decode to the same action |
| `Trail.Truncate` | src/bin/three.rs:96 | truncation leaves a prefix of length `min(n, len)` |
| `Trail.Pushed` | src/bin/three.rs:95-96 | after one push and truncate the length is `min(maxLen, oldLen + 1)` and stays within the bound. The front is the new position and positions `1..` are the old trail in order, so only the oldest is dropped when full |
| `Trail.PushAllKeepsNewest` | src/bin/three.rs:95-96 | pushing positions one by one leaves them newest first, followed by the old trail, cut at the bound |
| `Trail.PushAllSnoc` | src/bin/three.rs:95-96 | one more tick after a run of pushes is the run extended by that position |
| `Trail.PushAllFromEmpty` | src/bin/three.rs:95-96 | from an empty trail, `k` pushes leave `min(k, maxLen)` positions: the most recent ones, newest first |
| `Trail.DrawTrail` | src/bin/three.rs:97-106 | the loop emits `max(0, len - 1)` segments, and segment `k` joins `trail[k]` to `trail[k + 1]` after exactly `k` intensity decrements |
| `Trail.Intensity` | src/bin/three.rs:97-103 | the running intensity starts at 1 and falls by `POINT_TRAIL_INTENSITY_DECAY` = 1/1000 (line 15) per drawn segment. It stays within [0, 1] for up to 1000 decrements and is 0 after exactly 1000 |
| `Trail.DrawingFades` | src/bin/three.rs:97-106 | along the drawing of a trail of at most 1000 positions the intensity strictly decreases from segment to segment and stays at or above 2/1000 |
| `Mailbox.ConfigOfSelector` | src/bin/three.rs:244-258 | a selector names a configuration exactly when it is 1 (`One`) or 2 (`Two`) |
| `Mailbox.SelectorRoundTrip` | src/bin/three.rs:244-258 | selectors 1 and 2 and the two configurations correspond one to one |
| `Mailbox.ConfigSlot.constructor` | src/bin/three.rs:230 | the slot starts empty |
| `Mailbox.ConfigSlot.InitConfig` | src/bin/three.rs:244-258 | returns true and overwrites the slot exactly for selectors 1 and 2; any other selector returns false and leaves the slot unchanged |
| `Mailbox.ConfigSlot.CheckConfigToInit` | src/bin/three.rs:233-240 | returns the previous slot value and leaves the slot empty |
| `Mailbox.LastWriteWinsOnce` | src/bin/three.rs:230-258 | of two writes, the later valid one is what the drain sees; a second drain sees nothing |
| `App.SpawnState` | src/bin/three.rs:71-76 | `with_pos` on a new entity sets the position and keeps the default coefficients |
| `App.ConfigSpawns` | src/bin/three.rs:139-153 | scene One sets up exactly one entity, white; scene Two sets up two. Every start has y = z = 0.1 |
| `App.ConfigSpawnsShape` | src/bin/three.rs:137-154 | scene One has one entity; scene Two has two, of different colours, whose starts differ only by 1e-7 along x |
| `App.RandomSpawn` | src/bin/three.rs:156-166 | a random entity starts inside [-10, 10) on each axis and every colour channel is in [0, 1) |
| `App.Lorenz3d.New` | src/bin/three.rs:61-69 | a new entity is white, has the default integrator state and an empty trail |
| `App.Lorenz3d.WithPos` | src/bin/three.rs:71-76 | sets the position only |
| `App.Lorenz3d.WithColor` | src/bin/three.rs:78-82 | sets the colour only |
| `App.Lorenz3d.Step` | src/bin/three.rs:84-107 | advances the integrator and pushes its visual position onto the trail, which stays within 1000. The returned lines are the drawing of the new trail |
| `App.AppState.constructor` | src/bin/three.rs:122-129 | a new state has no entities and shows help |
| `App.AppState.RemoveL3d` | src/bin/three.rs:170-174 | removes only the last entity and keeps the others in order; on an empty list it changes nothing |
| `App.AppState.Clear` | src/bin/three.rs:131-135 | always ends with no entities and the help flag unchanged |
| `App.AppState.InitConfig` | src/bin/three.rs:137-154 | whatever was there before, ends with exactly the scene's fresh entities (one for One, two for Two), each set up as the scene says |
| `App.AppState.AddRandomL3d` | src/bin/three.rs:156-168 | appends exactly one fresh entity, set up from the samples, at the end and keeps the others in order |
| `App.AppState.ExecuteAction` | src/bin/three.rs:190-197 | dispatches each action to its operation. `ToggleHelp` negates the help flag and changes nothing else; no other action touches the flag |
| `App.AppState.StepAll` | src/bin/three.rs:220-222 | every entity is ticked exactly once and the lines of each are the drawing of its new trail |
| `App.AppState.Frame` | src/bin/three.rs:201-226 | the frame drains the mailbox. A requested scene replaces the entities before they are stepped; otherwise the same entities are stepped. Help is drawn exactly when the flag is set |
| `App.ToggleHelpTwice` | src/bin/three.rs:193 | toggling help twice restores the state |
| `App.Start` | src/bin/three.rs:260-268 | start-up gives a state showing help, holding scene One's single white entity at (0.1, 0.1, 0.1) |

## Left out

- The Lorenz integrator (`src/lib.rs`) is `f64` arithmetic. It appears only as the `update` parameter; the model says nothing about its values.
- All floating point: the `f32` cast and 0.1 scaling of positions, the head's quaternion rotation, and the multiplication of the colour by the intensity. Intensity is represented by its decrement count. `Trail.Intensity` computes it with exact reals, so `f32` rounding of the running subtraction is not modelled.
- The `f64` values are exact reals too: the `with_pos` arguments, the default coefficients (`8.0 / 3.0`) and `-10 + u * 20` in `RandomSpawn`. So `App.ConfigSpawnsShape` proves an offset of exactly 1e-7 between the two starts of scene Two, whereas in `f64` `0.1000001 - 0.1` is only close to 1e-7.
- Every window and scene-graph call: `add_cube`, `set_color`, `set_local_translation`, `prepend_to_local_rotation`, `draw_line` (its lines are returned instead), `remove_node`, `draw_text`. `Lorenz3d::remove` is not modelled, because all it does is `remove_node`. `draw_help` is not modelled either, because it only draws text; `Frame` reports whether it would run.
- The event polling loop of `State::step` (src/bin/three.rs:209-219), because it reads the window's event queue. Each press it handles is one `FromKey` followed by one `ExecuteAction`, and both are modelled. `Frame` models the rest of the frame.
- `Frame` models the browser build, where the mailbox is drained. In the native build that step is compiled out.
- `render_loop`, the window set-up in `main` and the font. `Start` keeps only the state changes of `main`.
- The random generator: its samples are the `RandomDraw` input.
- The thread-safety of the `unsafe` static: the slot is a field of a single-threaded object.
- `src/bin/svg.rs` (printing of float values) and `server.js` (a static-file HTTP server) are not part of this model.
- `Actions.Key`: the toolkit has far more keys than the model lists. The rest stand as `Other(code)`, and they all decode to `None` as in the source.

In `src/bin/three.rs`, segment `k` (from `trail[k]` to `trail[k + 1]`) is drawn after `k` decrements. Nothing is clamped, so the last segment of a full trail is drawn at 2/1000, never at 0 (`Trail.DrawingFades`).
