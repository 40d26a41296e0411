/** The seed entity of the Voronoi animation: the screen and seed constants,
    how spawnSeed fills a slot, and how one tick of the advance loop moves a
    seed and bounces it off the screen edges (src/main.c). */
module Seeds {

  // Screen, palette and seed constants (src/main.c:10-19).
  const SCREEN_WIDTH: int := 1920
  const SCREEN_HEIGHT: int := 1080
  const PALETTE_N: nat := 10
  const SEEDS_N_START: nat := 2
  const SEEDS_N_MAX: nat := 10
  const SEED_RADIUS: int := 4

  /** The largest value rand() returns (the C library's RAND_MAX; glibc's value). */
  const RAND_MAX: int := 0x7fff_ffff

  newtype byte = x: int | 0 <= x < 256

  /** raylib's Vector2; float components are modelled as reals. */
  datatype Vector2 = Vector2(x: real, y: real)

  /** raylib's Color: four unsigned char channels. */
  datatype Color = Color(r: byte, g: byte, b: byte, a: byte)

  /** The Seed struct (src/main.c:23-27). */
  datatype Seed = Seed(position: Vector2, velocity: Vector2, color: Color)

  /** The four rand() results one spawnSeed call draws, in the order it draws them. */
  datatype Rolls = Rolls(x: int, y: int, vx: int, vy: int) {
    /** rand() returns a value in [0, RAND_MAX]. */
    predicate InRange() {
      0 <= x <= RAND_MAX && 0 <= y <= RAND_MAX && 0 <= vx <= RAND_MAX && 0 <= vy <= RAND_MAX
    }
  }

  function Abs(x: real): real {
    if x < 0.0 then -x else x
  }

  predicate Integral(x: real) {
    x.Floor as real == x
  }

  /** SEED_VELOCITY(1): the draw rand() / RAND_MAX scaled by the range 1,
      shifted down by half the range, so it covers [-0.5, 0.5] (not the
      [-1, 1] the comment at the call site names). */
  function SeedVelocity(roll: int): (v: real)
    requires 0 <= roll <= RAND_MAX
    ensures -0.5 <= v <= 0.5
    ensures roll == 0 ==> v == -0.5
    ensures roll == RAND_MAX ==> v == 0.5
  {
    (roll as real / RAND_MAX as real) * 1.0 - 1.0 * 0.5
  }

  /** The seed that spawnSeed writes into slot `count`. */
  function SpawnedSeed(palette: seq<Color>, count: nat, rolls: Rolls): (s: Seed)
    requires count % 10 < |palette|
    requires rolls.InRange()
    ensures Integral(s.position.x) && 0.0 <= s.position.x < SCREEN_WIDTH as real
    ensures Integral(s.position.y) && 0.0 <= s.position.y < SCREEN_HEIGHT as real
    ensures Abs(s.velocity.x) <= 0.5 && Abs(s.velocity.y) <= 0.5
    ensures s.color == palette[count % 10]
  {
    Seed(Vector2((rolls.x % SCREEN_WIDTH) as real, (rolls.y % SCREEN_HEIGHT) as real),
         Vector2(SeedVelocity(rolls.vx), SeedVelocity(rolls.vy)),
         palette[count % 10])
  }

  /** The colour a slot receives depends on the slot alone: whatever the
      random draws, two spawns into the same slot (say, after a removal)
      get the same colour, and slots ten apart share a colour. */
  lemma SlotColour(palette: seq<Color>, count: nat, r1: Rolls, r2: Rolls)
    requires count % 10 < |palette| && r1.InRange() && r2.InRange()
    ensures SpawnedSeed(palette, count, r1).color == SpawnedSeed(palette, count, r2).color
    ensures SpawnedSeed(palette, count + 10, r1).color == SpawnedSeed(palette, count, r2).color
  {
    assert (count + 10) % 10 == count % 10;
  }

  /** spawnSeed (src/main.c:35-42): fills slot `count` and returns count + 1. */
  method SpawnSeed(seeds: array<Seed>, palette: seq<Color>, count: nat, rolls: Rolls) returns (newCount: nat)
    requires count < seeds.Length
    requires count % 10 < |palette|
    requires rolls.InRange()
    modifies seeds
    ensures newCount == count + 1
    ensures seeds[..] == old(seeds[..])[count := SpawnedSeed(palette, count, rolls)]
  {
    var position := Vector2((rolls.x % SCREEN_WIDTH) as real, (rolls.y % SCREEN_HEIGHT) as real);
    var velocity := Vector2(SeedVelocity(rolls.vx), SeedVelocity(rolls.vy));
    seeds[count] := Seed(position, velocity, palette[count % 10]);
    newCount := count + 1;
  }

  /** Position and velocity of a seed along one axis. */
  datatype Axis = Axis(pos: real, vel: real)

  /** One axis of the advance loop (src/main.c:128-146): move by the velocity,
      then, with the source's if / else-if, clamp to the radius below or to
      extent - radius above, negating the velocity when either clamp fires. */
  function Bounce(p: real, v: real, extent: int): (r: Axis)
    requires extent >= 2 * SEED_RADIUS
    ensures SEED_RADIUS as real <= r.pos <= (extent - SEED_RADIUS) as real
    ensures r.vel == v || r.vel == -v
    ensures Abs(r.vel) == Abs(v)
    ensures (p + v < SEED_RADIUS as real || p + v >= (extent - SEED_RADIUS) as real) ==> r.vel == -v
    ensures SEED_RADIUS as real <= p + v < (extent - SEED_RADIUS) as real ==> r == Axis(p + v, v)
  {
    var q := p + v;
    if q - SEED_RADIUS as real < 0.0 then Axis(SEED_RADIUS as real, -v)
    else if q + SEED_RADIUS as real >= extent as real then Axis((extent - SEED_RADIUS) as real, -v)
    else Axis(q, v)
  }

  /** A seed that starts inside the clamp band and crosses an edge turns
      back into the screen; one that stays inside the band moves freely and
      keeps its velocity. */
  lemma BounceTurnsInward(p: real, v: real, extent: int)
    requires extent >= 2 * SEED_RADIUS
    requires SEED_RADIUS as real <= p <= (extent - SEED_RADIUS) as real
    ensures p + v < SEED_RADIUS as real ==>
      Bounce(p, v, extent).pos == SEED_RADIUS as real && Bounce(p, v, extent).vel > 0.0
    ensures p + v >= (extent - SEED_RADIUS) as real ==>
      Bounce(p, v, extent).pos == (extent - SEED_RADIUS) as real && Bounce(p, v, extent).vel <= 0.0
  {
  }

  /** Outside the band the turn can point the wrong way: a seed spawned at
      x = 1 moving right at 0.5 is clamped to the radius on its first tick
      and its velocity turns outward, to -0.5. */
  lemma EdgeStripTurnsOutward()
    ensures SpawnedSeed([Color(0, 0, 0, 0)], 0, Rolls(1, 500, RAND_MAX, 0)).position.x == 1.0
    ensures SpawnedSeed([Color(0, 0, 0, 0)], 0, Rolls(1, 500, RAND_MAX, 0)).velocity.x == 0.5
    ensures Bounce(1.0, 0.5, SCREEN_WIDTH) == Axis(SEED_RADIUS as real, -0.5)
  {
  }

  /** The bounce band: where the advance step may leave a seed. */
  predicate InBand(s: Seed) {
    SEED_RADIUS as real <= s.position.x <= (SCREEN_WIDTH - SEED_RADIUS) as real &&
    SEED_RADIUS as real <= s.position.y <= (SCREEN_HEIGHT - SEED_RADIUS) as real
  }

  /** One active seed through one tick of the advance loop (src/main.c:128-146). */
  function Step(s: Seed): (t: Seed)
    ensures InBand(t)
    ensures t.color == s.color
    ensures Abs(t.velocity.x) == Abs(s.velocity.x) && Abs(t.velocity.y) == Abs(s.velocity.y)
  {
    var alongX := Bounce(s.position.x, s.velocity.x, SCREEN_WIDTH);
    var alongY := Bounce(s.position.y, s.velocity.y, SCREEN_HEIGHT);
    Seed(Vector2(alongX.pos, alongY.pos), Vector2(alongX.vel, alongY.vel), s.color)
  }

  /** A seed after n unpaused ticks. */
  function Run(s: Seed, n: nat): Seed {
    if n == 0 then s else Step(Run(s, n - 1))
  }

  /** However many ticks pass, a seed stays in the bounce band from its first
      tick on, never changes colour and keeps the speed of each velocity
      component. */
  lemma {:induction false} RunKeepsSeed(s: Seed, n: nat)
    ensures n >= 1 ==> InBand(Run(s, n))
    ensures Run(s, n).color == s.color
    ensures Abs(Run(s, n).velocity.x) == Abs(s.velocity.x)
    ensures Abs(Run(s, n).velocity.y) == Abs(s.velocity.y)
  {
    if n > 0 {
      RunKeepsSeed(s, n - 1);
    }
  }
}
