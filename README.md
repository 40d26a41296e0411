# Voronoi seed simulator — a Dafny model

The program animates a Voronoi diagram. A handful of moving "seeds" each own the
screen region nearest to them. A fragment shader colours that region with the
seed's palette colour. This project models the part of `src/main.c` that is not
rendering glue:

- the application `State`: a fixed arena of `SEEDS_N_MAX` = 10 seed slots, the
  live count `seedCount` and the `isPaused` flag (module `Simulation`, class `State`);
- `spawnSeed`, which fills slot `count` with a random on-screen position, a random
  velocity and the colour `palette[count % 10]` (module `Seeds`);
- `handleKeyEvents`. Space toggles pause. When the resulting state is running, S
  spawns while there is room and D removes the last seed while more than one is
  left. The state machine on the two counters is module `Input`. The class method
  also writes the seed slot;
- the advance step of the render loop, extracted as `State.Advance`. Each live seed
  moves by its velocity. On each axis it is clamped against the radius-4 band with an
  `if / else if` pair, and that axis's velocity is negated on a bounce. Its new
  position is packed into the shader's position buffer;
- `paletteToNormalizedFloats`, which spreads the palette into a flat array of
  channel values divided by 255 (module `Palette`);
- start-up: the state initialiser, the two start-up spawns and the two shader
  buffers.

Positions and velocities are `real`. `rand()` results are parameters (`Seeds.Rolls`)
constrained to `[0, RAND_MAX]`. Key releases are three booleans (`Input.Keys`).

The model follows the code as written:

- spawn and remove are refused while paused, because both sit under the
  `!isPaused` guard (src/main.c:58);
- the colour index is the literal `count % 10` (src/main.c:40);
- `SEED_VELOCITY(1)` gives velocities in `[-0.5, 0.5]`, although the comment at
  src/main.c:38 says "between -1 and 1".

A seed may spawn within 4 units of an edge, because positions are drawn from
the whole screen. Its first tick then clamps it to the edge band and negates
its velocity even when it was already moving inward. For example, x = 1 with
vx = 0.5 becomes x = 4 with vx = -0.5 (`Seeds.EdgeStripTurnsOutward`). The next
tick flips it back inward. From inside the band a bounce always turns inward
(`Seeds.BounceTurnsInward`).

The state initialiser `{{}, false, 0}` is positional and mismatched. It puts `false`
into `seedCount` and `0` into `isPaused`. This happens to give a count of zero and a
running state, which is what the constructor models.

## Model

| member | source | states |
|---|---|---|
| Seeds.SeedVelocity | src/main.c:21 | SEED_VELOCITY(1) of any rand() result lies in [-0.5, 0.5]; both ends are reached at rand() = 0 and rand() = RAND_MAX |
| Seeds.SpawnedSeed | src/main.c:35-41 | a spawned seed has integral coordinates with 0 <= x < 1920 and 0 <= y < 1080, each velocity component in [-0.5, 0.5], and colour palette[count % 10] |
| Seeds.SlotColour | src/main.c:40 | the colour depends on the slot alone: whatever the random draws, respawning into a slot gives the same colour, and slots ten apart share one |
| Seeds.SpawnSeed | src/main.c:35-42 | writes only slot count, with the spawned seed, and returns count + 1 |
| Seeds.Bounce | src/main.c:128-146 | one axis of the advance step: the new position lies in [4, extent - 4] whatever the old one was; the velocity is negated exactly when the moved position leaves [4, extent - 4), and otherwise the seed moves freely with its velocity kept; the magnitude is always preserved |
| Seeds.BounceTurnsInward | src/main.c:131-146 | from inside the band, crossing the lower clamp puts the seed at the radius with a positive velocity, and crossing the upper clamp puts it at extent - radius with a non-positive velocity |
| Seeds.EdgeStripTurnsOutward | src/main.c:36-38 | a seed spawned at x = 1 with vx = 0.5 is clamped to x = 4 on its first tick, and its velocity turns outward to -0.5 |
| Seeds.Step | src/main.c:128-146 | after one tick a seed satisfies 4 <= x <= 1916 and 4 <= y <= 1076, keeps its colour and keeps each velocity component's magnitude |
| Seeds.RunKeepsSeed | src/main.c:119-146 | after any number n >= 1 of running ticks a seed is still in the band, still has its colour and its per-axis speeds |
| Palette.Normalize | src/main.c:46-49 | a channel divided by 255 lies in [0, 1], and multiplying back by 255 recovers the byte |
| Palette.Flattened | src/main.c:44-51 | the flat layout of a palette has 4 entries per colour |
| Palette.FlattenedAt | src/main.c:44-51 | entry 4i+k of the flat layout is channel k (r, g, b, a) of colour i divided by 255 |
| Palette.FlattenedEntries | src/main.c:44-51 | every entry of the flat layout lies in [0, 1] and is 1/255 of channel j % 4 of colour j / 4 |
| Palette.PaletteToNormalizedFloats | src/main.c:44-51 | fills out[0 .. 4*len) with the flat layout of palette[0 .. len), so out[4i+k] is channel k of palette[i] over 255, and leaves every later entry unchanged |
| Input.KeyStep | src/main.c:53-71 | space flips the pause flag; while the result is paused the count is unchanged; the count moves by at most one; 1 <= count <= 10 is preserved |
| Input.KeyStepCount | src/main.c:58-70 | when running: spawn at 10 and remove at 1 are no-ops, otherwise spawn adds exactly one and remove subtracts exactly one, and with both keys the spawn happens first |
| Input.KeyRunAppend | src/main.c:119-121 | running two frames' worth of key events in sequence equals running their concatenation |
| Input.KeyRunKeepsBounds | src/main.c:58-70 | 1 <= seedCount <= SEEDS_N_MAX holds after any sequence of key events |
| Input.PausedRunFreezes | src/main.c:54-58 | while paused, key events without space leave count and pause flag unchanged |
| Input.SpawnRun | src/main.c:59-63 | n presses of S while running take the count to min(count + n, 10) |
| Input.RemoveRun | src/main.c:65-69 | n presses of D while running take the count to max(count - n, 1) |
| Input.FillThenDrain | src/main.c:17-18 | from the start count 2, eight spawns reach 10 and nine removals then reach 1 |
| Simulation.SeedOkKept | src/main.c:35-42 | a spawned seed is on screen, has a bounded velocity and the colour of its slot; a tick keeps all three |
| Simulation.State.constructor | src/main.c:75 | starts from count 0, running, with zeroed slots, then spawns SEEDS_N_START seeds, giving count 2, running, slots 0 and 1 spawned, the rest zero, and the invariant established |
| Simulation.State.HandleKeyEvents | src/main.c:53-71 | count and pause flag move as KeyStep says; only the spawned slot changes, and only when a spawn fires; the invariant (1 <= count <= 10, each live slot on screen with bounded velocity and its slot's colour) is preserved |
| Simulation.State.Advance | src/main.c:124-151 | when paused nothing changes; when running each live seed takes one Step, slots at or beyond the count are untouched, positions[2i] and positions[2i+1] hold seed i's new position and later entries are untouched |
| Simulation.State.PackPositions | src/main.c:148-149 | writes every live seed's position into the buffer and leaves later entries alone |
| Simulation.State.Tick | src/main.c:119-151 | key events then the advance step: the invariant is kept; a paused tick changes neither seeds nor buffer; a running tick steps every live seed after the key events and leaves the buffer in step with them; a buffer in step stays in step; buffer entries at or beyond 2 * seedCount are untouched |
| Simulation.StartAsWritten | src/main.c:94-113 | start-up as written: the state after the start-up spawns, the colour buffer equal to the palette's flat layout, and a position buffer holding whatever was there |
| Simulation.PausedFirstFrame | src/main.c:113-124 | pausing on the first frame leaves the position buffer out of step with the seeds, a buffer the shader then reads |
| Simulation.Start | src/main.c:94-110 | start-up with the position buffer packed once after the spawns: invariant, count 2 and running, colour buffer as the flat palette, and positions in step from the first frame |

## Left out

- Window, shader and drawing calls have no logic of their own and are not modelled. These are raylib's `InitWindow`, `LoadShader`, `GetShaderLocation`, `SetShaderValue(V)`, the render-texture passes, `DrawTextureRec`, `DrawCircle` and the clean-up (src/main.c:91-92, 101-107, 111, 115, 122, 153-186).
- The nearest-seed colouring itself lives in `voronoi.frag` and `voronoi.vert`, which are not part of this model. So is any edge overlay.
- Randomness: `srand(time(NULL))` and `rand()` become parameters. RAND_MAX is implementation-defined and is taken as glibc's 2^31 - 1.
- Float arithmetic: positions and velocities are exact reals, so IEEE rounding of `Vector2Add` and of the division in `SEED_VELOCITY` is not modelled. The `(int)` truncation for drawing at src/main.c:175 is presentation.
- Key polling (`IsKeyReleased`) is abstracted as booleans per frame.
- The `WindowShouldClose` loop is modelled as one `State.Tick` per frame. Over many frames only the counters are modelled (`Input.KeyRun`); seed motion over many frames is `Seeds.Run`.
- Seeds.SeedVelocity: computed on reals, not on 32-bit floats.

## Findings

| source | as written | input that shows it | evidently intended | confidence | as-written member | corrected member |
|---|---|---|---|---|---|---|
| src/main.c:113-153 | `shdr_seed_positions` is never initialised and is written only inside the `!isPaused` advance loop, yet it is uploaded every frame | space released on the very first frame: the first tick is paused, and the shader receives indeterminate positions for the two live seeds until the user unpauses. This needs the first `IsKeyReleased(KEY_SPACE)` call to report a release. The model lets it, since key events are free booleans, but whether raylib can do so before any earlier frame has polled input is not visible in src/main.c | the buffer holds the live seeds' positions on every frame, for example by packing it once after the start-up spawns | not executed; low practical impact | Simulation.PausedFirstFrame | Simulation.Start |
