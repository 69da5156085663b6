# Cube swarm demo: a Dafny model of its frame logic

The program moves a grid of entities toward per-entity targets every frame
and draws them as instanced cubes. Around the graphics and ECS libraries it
has a small amount of sequential logic of its own. This project models that
logic and proves what it promises:

- the frame-time statistics `Fps` (class `FrameStats.Fps`);
- the double-buffered handoff of two encoders between the main loop and the
  render system through two cross-wired channels of capacity 2
  (`EncoderPipe`);
- the camera input controller `CameraController` (`Camera`);
- the render system's `run`: instance batch construction, truncation to
  `MAX_INSTANCE_COUNT` and the commands it records (`Presentation`);
- the mover's clamp-and-scale step (`Mover`), over exact reals;
- the static cube mesh `Vertex::new` / `DEBUG_CUBE` (`Mesh`);
- one pass of the main loop, putting these together (`MainLoop`).

Values are datatypes and functions; what the program updates in place is a
class whose methods are proved against those functions: `Fps` (its
accumulator and history), `CameraController` (its key array and deltas),
`World` (the `Pos` storage, an array the mover writes in place), `Ring` (the
two channels and what each side holds) and `Render` (its transform and draw
slice).

Main results:

- `Fps.Frame` keeps `ms_accum` equal to the sum of the window and below 1000.
  Below the threshold it only appends the sample. At or above it, it reports
  the frame count, a minimum and maximum that are samples bounding every
  sample, and the total. Then it empties the window.
- The encoder ring always holds exactly the two distinct seed encoders
  (`Ring.Valid`, `Ring.Conserved`). No channel exceeds capacity 2 and a send
  never blocks (`Ring.Release`). The encoders the render side receives
  alternate between the two seeds, in any interleaving of the two sides'
  receives and sends. `MainLoop.Tick` shows that one frame starts and ends in
  the idle state and swaps the two encoders.
- `Handled`/`Updated` state the controller's event and frame behaviour. After
  a batch of events each key slot holds the state of the last event for that
  key (`LastKeyEventWins`). The zoom flag lasts one frame, except that a frame
  with no events at all keeps the previous value (`ZoomIsPerFrame`).
- For a non-negative step, the mover's factor lies in [0, 1]. Within one step the entity lands exactly
  on its target. Otherwise it ends exactly one step closer (`StepsCloser`). A
  position at its target is a fixed point.
- `Render.Run` receives one encoder and sends the same one back. In between it
  records clear colour, clear depth, constants, instance upload and draw, in
  that order. The upload is the first `min(n, 1000000)` positions in join
  order.

Three facts about the program that shape the model:

- The projection-view matrix is fixed at start-up. The camera controller only
  computes and prints its deltas; nothing applies them to the view.
- The two seed encoders are sent into the render-bound channel. The main side
  never holds them at start.
- Within one frame the main side receives only after the systems have
  finished, so recording and submission do not overlap in this program. The
  ring invariant is proved for any interleaving anyway.

## Model

| member | source | states |
|---|---|---|
| `Components.Lerp` | src/systems.rs:67 | the lerp's offset from its start is the scaled difference; amount 0 stays at the start, 1 reaches the end |
| `Mover.Factor` | src/systems.rs:59-65 | the factor is in [0, 1] for a non-negative step, is 0 within one step, and otherwise `f * d == d - step` |
| `Mover.Step` | src/systems.rs:59-67 | the new position's offset from the target is the old offset scaled by `Factor(d, step)`: the lerp from the target toward the old position |
| `Mover.Arrives` | src/systems.rs:59-67 | within one step of the target the new position is the target exactly |
| `Mover.StepsCloser` | src/systems.rs:59-67 | farther than a non-negative step away, the new distance to the target is exactly `d - step` |
| `Mover.FixedPoint` | src/systems.rs:59-67 | a position equal to its target is left unchanged, whatever distance is supplied |
| `Mover.Run` | src/systems.rs:47-71 | every joined entity's `Pos` is replaced by the step toward its `MoveTo` in place; `MoveTo` is unchanged; entities within a step arrive, the others end a step closer |
| `Ecs.World.constructor` | src/render.rs:188-208 | every entity starts at the same position with its own target; the two storages have one slot per entity |
| `Mesh.NewVertex` | src/render.rs:63-68 | the position is the corner extended with `w = 1`; the texture coordinate is kept |
| `Mesh.FaceVertices` | src/render.rs:74-103 | each commented group of the vertex table holds four rows |
| `Mesh.Faces` | src/render.rs:73-104 | the first n groups laid end to end hold `4n` vertices |
| `Mesh.CubeVertices` | src/render.rs:72-104 | `DEBUG_CUBE.0` holds 24 vertices |
| `Mesh.CubeIndices` | src/render.rs:105-112 | `DEBUG_CUBE.1` holds 36 indices |
| `Mesh.IndicesWellFormed` | src/render.rs:105-112 | 36 indices, each below 24, and face k's six indices are `4k + [0, 1, 2, 2, 3, 0]` |
| `Mesh.VerticesWellFormed` | src/render.rs:72-104 | every vertex has `w = 1`, corner coordinates of ±1, texture coordinates of 0 or 1, and face k's four vertices lie in that face's plane |
| `Mesh.FaceWellFormed` | src/render.rs:74-103 | each of the six commented groups of four rows lists vertices of its own face: `w = 1`, corners of ±1 with the face's coordinate fixed, texture coordinates of 0 or 1 |
| `Mesh.FacesIndexed` | src/render.rs:73-104 | the vertex array is the six groups laid end to end: vertex i is row `i % 4` of group `i / 4` |
| `FrameStats.Summarise` | src/render.rs:241-250 | on a non-empty window: the frame count, a minimum and a maximum that are samples and bound every sample, and the sum |
| `FrameStats.Fps.constructor` | src/render.rs:233-235 | a new window is empty with a zero accumulator |
| `FrameStats.Fps.Frame` | src/render.rs:236-265 | keeps the accumulator equal to the window's sum and below 1000; below the threshold only appends and reports nothing; at or above, reports on the window with the new sample and empties it |
| `FrameStats.ReportAfterOneSecond` | src/render.rs:236-264 | samples 10, 20, 30 report nothing; a fourth sample of 940 reports 4 frames, min 10, max 940, total 1000 |
| `Camera.Slot` | src/render.rs:286-297 | exactly W, A, S, D, Q, E have a slot, and it is one of the six |
| `Camera.SlotInjective` | src/render.rs:286-297 | no two keys share a slot: W, A, S, D, Q and E each write their own entry of the key table |
| `Camera.SlotsCovered` | src/render.rs:286-297 | every one of the six entries of the key table is written by some key |
| `Camera.Handled` | src/render.rs:279-309 | the latch is cleared (and with it the zoom flag if it was set); a W..E key event writes its state into its slot; a wheel event sets the zoom flag to the sign of its delta and a zero delta keeps it; nothing else changes |
| `Camera.HandledAll` | src/render.rs:366-377 | handling a batch of events in order clears the frame latch when the batch is non-empty and never changes the position or rotation deltas |
| `Camera.Direction` | src/render.rs:315-330 | each axis is -1, 0 or 1; 0 exactly when both or neither of its opposite keys are pressed, +1 exactly when only D (x) or W (y) is |
| `Camera.Rotation` | src/render.rs:331-338 | -1, 0 or 1; 0 exactly when Q and E are both or neither pressed, +1 exactly when only Q is |
| `Camera.Updated` | src/render.rs:311-350 | the direction and rotation come from the key table, the latch is set, the key table and zoom flag are untouched |
| `Camera.LastKeyEventWins` | src/render.rs:285-297 | after a batch of events each key slot holds the state of the last event for that key, or its old state if there is none |
| `Camera.ZoomIsPerFrame` | src/render.rs:280-283 | after `update`, the next frame's events leave the sign of the last non-zero wheel event, or 0 if none; with no events the flag keeps its value |
| `Camera.CameraController.constructor` | src/render.rs:353-359 | all keys released, deltas zero, latch set |
| `Camera.CameraController.Handle` | src/render.rs:279-309 | the fields after `handle` are `Handled` of the fields before |
| `Camera.CameraController.Update` | src/render.rs:311-350 | the fields after `update` are `Updated` of the fields before |
| `EncoderPipe.NewEncoderChannels` | src/render.rs:20-30 | each side's sender feeds the other side's receiver, and a side sends and receives on different channels |
| `EncoderPipe.Ring.Seeded` | src/render.rs:213-217 | two sends of distinct encoders into the render-bound channel leave the ring valid and idle, holding exactly those two |
| `EncoderPipe.Ring.Conserved` | src/render.rs:216-217 | in every valid state the ring holds exactly the two seed encoders, no channel is over capacity 2, and the two sides never hold the same encoder |
| `EncoderPipe.Ring.Send` | src/render.rs:216-217 | a send on a channel with room appends to it and changes nothing else |
| `EncoderPipe.Ring.Recv` | src/render.rs:385 | a receive on a non-empty channel takes its oldest element and changes nothing else |
| `EncoderPipe.Ring.Acquire` | src/systems.rs:20 | a side's receive takes the oldest encoder of its receiving channel and holds it; the ring stays valid; what the render side receives alternates between the seeds |
| `EncoderPipe.Ring.Release` | src/systems.rs:43 | a side's send of the encoder it holds finds room (never blocks), appends it to its sending channel and keeps the ring valid |
| `Presentation.InstanceCount` | src/systems.rs:31 | `min(n, MAX_INSTANCE_COUNT)`: at most both, and equal to one of them |
| `Presentation.BuildBatch` | src/systems.rs:27-30 | one instance per joined position, in join order, translated to it |
| `Presentation.Render.constructor` | src/render.rs:219-225 | the system holds the ring's render side and `proview`, its transform is `proview`, and no instance range is set |
| `Presentation.Render.Run` | src/systems.rs:9-45 | one receive and one send of the same encoder; in between clear colour, clear depth, constants set to `proview`, upload of the batch of the first `min(n, MAX_INSTANCE_COUNT)` positions, one draw of that many; `proview` unchanged and both transforms equal to it |
| `MainLoop.PollEvents` | src/render.rs:366-377 | every event goes to the camera in order; the loop keeps running exactly when no event is Escape or Closed |
| `MainLoop.IsQuit` | src/render.rs:367-375 | Escape in either key state, or closing the window, ends the loop |
| `MainLoop.QuitWritesNothing` | src/render.rs:366-377 | a quit event still reaches `handle`, but writes no key slot and no zoom; it only clears the frame latch |
| `MainLoop.ReturnEncoder` | src/render.rs:385-391 | the main side receives the oldest encoder the render side sent and sends it back towards the render side |
| `MainLoop.Tick` | src/render.rs:363-395 | a frame from the idle ring returns to it with the two encoders swapped, after the render side recorded into the first; `running` is false exactly when a quit event arrived; the camera keeps its key array and its state is the batch of events handled and then updated; every position took one mover step; the log is the five commands in order with the batch of the first `min(n, 1000000)` positions and the unchanged `proview`, which also stays the data transform, with the instance range `(count, 0)`; the frame statistics either append the frame time below 1000 ms, or report the window and reset it |

## Left out

- Window, device and GL setup, the pipeline state, the vertex, texture and instance buffers and the sampler (src/render.rs:128-185, and the `gfx_defines!` declarations): library calls with no logic of the program's own.
- `encoder.flush`, `swap_buffers` and `cleanup`: `MainLoop.ReturnEncoder` receives and sends the encoder but does not model submission to the GPU.
- The specs `World` and `Planner` internals, the thread pool and `dispatch`/`wait`: `MainLoop.Tick` runs the mover and then the render system one after the other.
- Real blocking of `sync_channel`: a receive requires a non-empty channel, and a send is proved never to find its channel full. The `unwrap` failures on a disconnected channel are not modelled, because both ends live as long as the program.
- Floating point throughout: positions, factors and lerps are exact reals, so no rounding is modelled.
- The mean and variance of the frame statistics: only their integer inputs are reported (count, min, max, total).
- `Mover.Run`: the distance `|pos - target|` is an input with `d >= 0 && d * d == |pos - target|^2`, because its square root has no exact counterpart here. "Exactly one step closer" holds over the reals, not in `f32`.
- `Camera.CameraController.Update`: the direction is kept before `normalize`, which only rescales a non-zero direction to unit length. The zoom and rotation flags are integers standing for the `f32` values -1, 0 and 1.
- `FrameStats.Fps.Frame`: `ms_accum` and the loop's running sum are unbounded integers rather than `u32`. Since `ms_accum < 1000` before each add, only a single sample of more than 2^32 - 1000 ms could overflow. The `as u32` cast of the frame duration is outside the model, because the frame time is an input.
- `perspective`/`look_at` and the grid target coordinates (src/render.rs:161-168, 194-205): `proview` is an opaque matrix and `Ecs.World.constructor` takes the targets as given.
- `Duration` timing and all `println!` output: the frame time is an input, and the statistics are returned instead of printed.
- Entities with only one of the two components: the program creates every entity with both, so a join visits all of them in slot order.
- Key scan codes and glutin events other than key input, wheel and close: they reach `handle` as `OtherEvent` or `OtherKey` and are ignored, as in the program.
- The `while running` loop itself: its body is `MainLoop.Tick`, and alternation across frames is carried by the ring's invariant rather than by a loop over frames.
- src/components.rs, src/prelude.rs and src/main.rs: declarations, re-exports and the entry point. `Pos` and `MoveTo` are mirrored as datatypes in `Components`.
