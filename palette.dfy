/** The seed palette and its conversion into the flat float layout the
    shader's colour uniform reads (src/main.c:44-51, 78-89). */
module Palette {
  import opened Seeds

  /** The ten Catppuccin Mocha colours main hands to every spawn (src/main.c:78-89). */
  const MOCHA: seq<Color> := [
    Color(245, 224, 220, 255), // Rosewater
    Color(242, 205, 205, 255), // Flamingo
    Color(245, 194, 231, 255), // Pink
    Color(203, 166, 247, 255), // Mauve
    Color(243, 139, 168, 255), // Red
    Color(250, 179, 135, 255), // Peach
    Color(249, 226, 175, 255), // Yellow
    Color(166, 227, 161, 255), // Green
    Color(148, 226, 213, 255), // Teal
    Color(137, 180, 250, 255)  // Blue
  ]

  /** Channel k of a colour, in the order r, g, b, a. */
  function Channel(c: Color, k: nat): byte
    requires k < 4
  {
    if k == 0 then c.r else if k == 1 then c.g else if k == 2 then c.b else c.a
  }

  /** A channel divided by 255: lands in [0, 1], and scaling back by 255
      recovers the byte, so no two channel values normalise alike. */
  function Normalize(b: byte): (f: real)
    ensures 0.0 <= f <= 1.0
    ensures f * 255.0 == b as real
  {
    b as real / 255.0
  }

  /** The four normalised channels of one colour. */
  function Quad(c: Color): seq<real> {
    [Normalize(c.r), Normalize(c.g), Normalize(c.b), Normalize(c.a)]
  }

  /** The flat layout: colour i occupies entries 4i .. 4i+3. */
  function Flattened(palette: seq<Color>): (out: seq<real>)
    ensures |out| == 4 * |palette|
  {
    if palette == [] then [] else Flattened(palette[..|palette| - 1]) + Quad(palette[|palette| - 1])
  }

  /** Entry 4i+k of the flat layout is channel k of colour i divided by 255. */
  lemma {:induction false} FlattenedAt(palette: seq<Color>, i: nat, k: nat)
    requires i < |palette| && k < 4
    ensures Flattened(palette)[4 * i + k] == Normalize(Channel(palette[i], k))
  {
    var n := |palette| - 1;
    if i < n {
      FlattenedAt(palette[..n], i, k);
    }
  }

  /** Every entry of the flat layout lies in [0, 1] and is some channel of
      the colour it belongs to, divided by 255. */
  lemma FlattenedEntries(palette: seq<Color>, j: nat)
    requires j < |Flattened(palette)|
    ensures 0.0 <= Flattened(palette)[j] <= 1.0
    ensures Flattened(palette)[j] * 255.0 == Channel(palette[j / 4], j % 4) as real
  {
    FlattenedAt(palette, j / 4, j % 4);
  }

  /** paletteToNormalizedFloats (src/main.c:44-51): writes exactly
      out[0 .. 4*len), channel by channel, and leaves the rest of out alone. */
  method PaletteToNormalizedFloats(palette: seq<Color>, out: array<real>, len: nat)
    requires len <= |palette|
    requires 4 * len <= out.Length
    modifies out
    ensures out[..4 * len] == Flattened(palette[..len])
    ensures forall i, k :: 0 <= i < len && 0 <= k < 4 ==> out[4 * i + k] == Normalize(Channel(palette[i], k))
    ensures out[4 * len..] == old(out[4 * len..])
  {
    for i := 0 to len
      invariant out[..4 * i] == Flattened(palette[..i])
      invariant out[4 * i..] == old(out[4 * i..])
    {
      out[i * 4] := Normalize(palette[i].r);
      out[i * 4 + 1] := Normalize(palette[i].g);
      out[i * 4 + 2] := Normalize(palette[i].b);
      out[i * 4 + 3] := Normalize(palette[i].a);
      assert palette[..i + 1][..i] == palette[..i];
      assert out[..4 * (i + 1)] == out[..4 * i] + Quad(palette[i]);
    }
    forall i, k | 0 <= i < len && 0 <= k < 4
      ensures out[4 * i + k] == Normalize(Channel(palette[i], k))
    {
      FlattenedAt(palette[..len], i, k);
      assert out[4 * i + k] == out[..4 * len][4 * i + k];
    }
  }
}
