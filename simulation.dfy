/** The application state of main (src/main.c:29-33) as a class: the fixed
    arena of SEEDS_N_MAX seed slots, the live count and the pause flag, with
    the key handler, the advance step extracted from the render loop, one
    whole tick, and start-up. */
module Simulation {
  import opened Seeds
  import opened Palette
  import opened Input

  /** What every live slot satisfies: its position lies on the screen, each
      velocity component is within [-0.5, 0.5], and its colour is the one
      the palette assigns to its slot. */
  ghost predicate SeedOk(s: Seed, palette: seq<Color>, slot: nat) {
    0.0 <= s.position.x < SCREEN_WIDTH as real && 0.0 <= s.position.y < SCREEN_HEIGHT as real &&
    Abs(s.velocity.x) <= 0.5 && Abs(s.velocity.y) <= 0.5 &&
    slot % 10 < |palette| && s.color == palette[slot % 10]
  }

  /** A freshly spawned seed is a good occupant of its slot, and a tick keeps a good occupant good. */
  lemma SeedOkKept(s: Seed, palette: seq<Color>, slot: nat, rolls: Rolls)
    requires slot % 10 < |palette| && rolls.InRange()
    ensures SeedOk(SpawnedSeed(palette, slot, rolls), palette, slot)
    ensures SeedOk(s, palette, slot) ==> SeedOk(Step(s), palette, slot)
  {
  }

  /** A zero-initialised Seed, what `{}` leaves in every slot (src/main.c:75). */
  const ZERO_SEED := Seed(Vector2(0.0, 0.0), Vector2(0.0, 0.0), Color(0, 0, 0, 0))

  /** The seed slots after one frame's key events: the spawned slot replaced, if a spawn happened. */
  function AfterKeys(seeds: seq<Seed>, st: Status, k: Keys, palette: seq<Color>, rolls: Rolls): seq<Seed>
    requires |seeds| == SEEDS_N_MAX && |palette| >= PALETTE_N && rolls.InRange()
  {
    if Spawns(st, k) then seeds[st.seedCount := SpawnedSeed(palette, st.seedCount, rolls)] else seeds
  }

  class State {
    const seeds: array<Seed>
    var seedCount: nat
    var isPaused: bool

    /** The struct's shape: exactly SEEDS_N_MAX slots. */
    ghost predicate Valid() {
      seeds.Length == SEEDS_N_MAX
    }

    function Snapshot(): Status
      reads this
    {
      Status(seedCount, isPaused)
    }

    /** The invariant the program keeps: 1 <= seedCount <= SEEDS_N_MAX and every live slot is good. */
    ghost predicate Live(palette: seq<Color>)
      reads this, seeds
    {
      Valid() && 1 <= seedCount <= SEEDS_N_MAX &&
      forall i :: 0 <= i < seedCount ==> SeedOk(seeds[i], palette, i)
    }

    /** The shader's position buffer holds every live seed's current position. */
    ghost predicate Synced(positions: array<real>)
      reads this, seeds, positions
    {
      Valid() && positions.Length == 2 * SEEDS_N_MAX && seedCount <= SEEDS_N_MAX &&
      forall i :: 0 <= i < seedCount ==>
        positions[2 * i] == seeds[i].position.x && positions[2 * i + 1] == seeds[i].position.y
    }

    /** The state initialiser and the start-up spawns of main (src/main.c:75, 97-99). */
    constructor (palette: seq<Color>, rolls: seq<Rolls>)
      requires |palette| >= PALETTE_N
      requires |rolls| == SEEDS_N_START && forall j :: 0 <= j < |rolls| ==> rolls[j].InRange()
      ensures Valid() && fresh(seeds)
      ensures Snapshot() == Status(SEEDS_N_START, false)
      ensures forall i :: 0 <= i < SEEDS_N_START ==> seeds[i] == SpawnedSeed(palette, i, rolls[i])
      ensures forall i :: SEEDS_N_START <= i < SEEDS_N_MAX ==> seeds[i] == ZERO_SEED
      ensures Live(palette)
    {
      seeds := new Seed[SEEDS_N_MAX](_ => ZERO_SEED);
      // The positional initialiser {{}, false, 0} puts false into seedCount
      // and 0 into isPaused: a count of zero, running.
      seedCount := 0;
      isPaused := false;
      new;
      for i := 0 to SEEDS_N_START
        invariant seedCount == i && !isPaused
        invariant forall j :: 0 <= j < i ==> seeds[j] == SpawnedSeed(palette, j, rolls[j])
        invariant forall j :: i <= j < SEEDS_N_MAX ==> seeds[j] == ZERO_SEED
      {
        seedCount := SpawnSeed(seeds, palette, seedCount, rolls[i]);
      }
    }

    /** handleKeyEvents (src/main.c:53-71). */
    method HandleKeyEvents(palette: seq<Color>, keys: Keys, rolls: Rolls)
      requires Valid() && |palette| >= PALETTE_N && rolls.InRange()
      modifies this, seeds
      ensures Snapshot() == KeyStep(old(Snapshot()), keys)
      ensures seeds[..] == AfterKeys(old(seeds[..]), old(Snapshot()), keys, palette, rolls)
      ensures old(Live(palette)) ==> Live(palette)
    {
      if keys.space {
        isPaused := !isPaused;
      }
      if !isPaused {
        if keys.spawn {
          if seedCount < SEEDS_N_MAX {
            seedCount := SpawnSeed(seeds, palette, seedCount, rolls);
          }
        }
        if keys.remove {
          if seedCount > 1 {
            seedCount := seedCount - 1;
          }
        }
      }
      if old(Live(palette)) && Spawns(old(Snapshot()), keys) {
        SeedOkKept(seeds[old(seedCount)], palette, old(seedCount), rolls);
      }
    }

    /** The advance step of the render loop (src/main.c:124-151): when running,
        every live seed takes one Step and its new position is packed into
        positions[2i], positions[2i+1]; nothing else changes. */
    method Advance(positions: array<real>)
      requires Valid() && seedCount <= SEEDS_N_MAX && positions.Length == 2 * SEEDS_N_MAX
      modifies seeds, positions
      ensures isPaused ==> seeds[..] == old(seeds[..]) && positions[..] == old(positions[..])
      ensures !isPaused ==> forall i :: 0 <= i < seedCount ==> seeds[i] == Step(old(seeds[i]))
      ensures !isPaused ==> forall i :: seedCount <= i < SEEDS_N_MAX ==> seeds[i] == old(seeds[i])
      ensures !isPaused ==> Synced(positions)
      ensures !isPaused ==> forall m :: 2 * seedCount <= m < positions.Length ==> positions[m] == old(positions[m])
    {
      if !isPaused {
        for i := 0 to seedCount
          invariant forall j :: 0 <= j < i ==> seeds[j] == Step(old(seeds[j]))
          invariant forall j :: i <= j < SEEDS_N_MAX ==> seeds[j] == old(seeds[j])
          invariant forall j :: 0 <= j < i ==>
            positions[2 * j] == seeds[j].position.x && positions[2 * j + 1] == seeds[j].position.y
          invariant forall m :: 2 * i <= m < positions.Length ==> positions[m] == old(positions[m])
        {
          var s := seeds[i];
          var position := Vector2(s.position.x + s.velocity.x, s.position.y + s.velocity.y);
          var velocity := s.velocity;

          if position.x - SEED_RADIUS as real < 0.0 {
            position := position.(x := SEED_RADIUS as real);
            velocity := velocity.(x := -velocity.x);
          } else if position.x + SEED_RADIUS as real >= SCREEN_WIDTH as real {
            position := position.(x := (SCREEN_WIDTH - SEED_RADIUS) as real);
            velocity := velocity.(x := -velocity.x);
          }

          if position.y - SEED_RADIUS as real < 0.0 {
            position := position.(y := SEED_RADIUS as real);
            velocity := velocity.(y := -velocity.y);
          } else if position.y + SEED_RADIUS as real >= SCREEN_HEIGHT as real {
            position := position.(y := (SCREEN_HEIGHT - SEED_RADIUS) as real);
            velocity := velocity.(y := -velocity.y);
          }

          seeds[i] := Seed(position, velocity, s.color);
          positions[i * 2] := position.x;
          positions[i * 2 + 1] := position.y;
        }
      }
    }

    /** Writes every live seed's position into the shader buffer. */
    method PackPositions(positions: array<real>)
      requires Valid() && seedCount <= SEEDS_N_MAX && positions.Length == 2 * SEEDS_N_MAX
      modifies positions
      ensures Synced(positions)
      ensures forall m :: 2 * seedCount <= m < positions.Length ==> positions[m] == old(positions[m])
    {
      for i := 0 to seedCount
        invariant forall j :: 0 <= j < i ==>
          positions[2 * j] == seeds[j].position.x && positions[2 * j + 1] == seeds[j].position.y
        invariant forall m :: 2 * i <= m < positions.Length ==> positions[m] == old(positions[m])
      {
        positions[i * 2] := seeds[i].position.x;
        positions[i * 2 + 1] := seeds[i].position.y;
      }
    }

    /** One pass of the render loop's state work (src/main.c:121, 124-151):
        key events, then the advance step. The invariant is kept, a paused
        tick leaves seeds and buffer alone, and a running tick leaves the
        buffer in step with the seeds. */
    method Tick(palette: seq<Color>, keys: Keys, rolls: Rolls, positions: array<real>)
      requires Live(palette) && |palette| >= PALETTE_N && rolls.InRange()
      requires positions.Length == 2 * SEEDS_N_MAX
      modifies this, seeds, positions
      ensures Snapshot() == KeyStep(old(Snapshot()), keys)
      ensures Live(palette)
      ensures isPaused ==> seeds[..] == old(seeds[..]) && positions[..] == old(positions[..])
      ensures !isPaused ==> forall i :: 0 <= i < seedCount ==>
        seeds[i] == Step(AfterKeys(old(seeds[..]), old(Snapshot()), keys, palette, rolls)[i])
      ensures !isPaused ==> forall i :: seedCount <= i < SEEDS_N_MAX ==>
        seeds[i] == AfterKeys(old(seeds[..]), old(Snapshot()), keys, palette, rolls)[i]
      ensures !isPaused ==> Synced(positions)
      ensures old(Synced(positions)) ==> Synced(positions)
      ensures forall m :: 2 * seedCount <= m < positions.Length ==> positions[m] == old(positions[m])
    {
      HandleKeyEvents(palette, keys, rolls);
      ghost var mid := seeds[..];
      Advance(positions);
      forall i | 0 <= i < seedCount
        ensures SeedOk(seeds[i], palette, i)
      {
        if !isPaused {
          SeedOkKept(mid[i], palette, i, rolls);
        }
      }
    }
  }

  /** Start-up as main writes it (src/main.c:75-113): the state, the colour
      buffer filled once, and a position buffer that is never initialised;
      its indeterminate contents are the parameter `stale`. */
  method StartAsWritten(palette: seq<Color>, rolls: seq<Rolls>, stale: seq<real>)
    returns (st: State, colors: array<real>, positions: array<real>)
    requires |palette| == PALETTE_N
    requires |rolls| == SEEDS_N_START && forall j :: 0 <= j < |rolls| ==> rolls[j].InRange()
    requires |stale| == 2 * SEEDS_N_MAX
    ensures fresh(st) && fresh(st.seeds) && fresh(colors) && fresh(positions)
    ensures st.Live(palette) && st.Snapshot() == Status(SEEDS_N_START, false)
    ensures colors[..] == Flattened(palette)
    ensures positions[..] == stale
  {
    st := new State(palette, rolls);
    colors := new real[PALETTE_N * 4];
    PaletteToNormalizedFloats(palette, colors, PALETTE_N);
    assert palette[..PALETTE_N] == palette;
    positions := new real[SEEDS_N_MAX * 2](j requires 0 <= j < |stale| => stale[j]);
  }

  /** Pausing on the very first frame hands the shader a position buffer
      that was never written: with the MOCHA palette and any stale contents
      that no on-screen seed can have, the buffer after that tick is out of
      step with the seeds. */
  method PausedFirstFrame() returns (st: State, positions: array<real>)
    ensures st.Snapshot() == Status(SEEDS_N_START, true)
    ensures !st.Synced(positions)
  {
    var rolls := Rolls(0, 0, 0, 0);
    var colors;
    st, colors, positions := StartAsWritten(MOCHA, [rolls, rolls], seq(2 * SEEDS_N_MAX, _ => -1.0));
    st.Tick(MOCHA, Keys(true, false, false), rolls, positions);
    assert positions[0] == -1.0 && st.seeds[0].position.x >= 0.0;
  }

  /** Start-up with the buffer packed once after the initial spawns, so that
      the shader sees the live seeds' positions from the first frame on,
      paused or not; every later Tick keeps that. */
  method Start(palette: seq<Color>, rolls: seq<Rolls>)
    returns (st: State, colors: array<real>, positions: array<real>)
    requires |palette| == PALETTE_N
    requires |rolls| == SEEDS_N_START && forall j :: 0 <= j < |rolls| ==> rolls[j].InRange()
    ensures fresh(st) && fresh(st.seeds) && fresh(colors) && fresh(positions)
    ensures st.Live(palette) && st.Snapshot() == Status(SEEDS_N_START, false)
    ensures colors[..] == Flattened(palette)
    ensures st.Synced(positions)
  {
    st := new State(palette, rolls);
    colors := new real[PALETTE_N * 4];
    PaletteToNormalizedFloats(palette, colors, PALETTE_N);
    assert palette[..PALETTE_N] == palette;
    positions := new real[SEEDS_N_MAX * 2];
    st.PackPositions(positions);
  }
}
