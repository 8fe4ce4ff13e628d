/**
 * The fixed colour catalogues, the presence-flag catalogues, and the two
 * derived colours (trousers from the shirt colour, beard from the hair
 * colour) with their per-run offsets and clamps.
 */
module Palette {
  import opened Raster

  const SkinColours: seq<Color> :=
    [Color(254, 218, 181), Color(253, 203, 162), Color(213, 168, 125), Color(119, 95, 79), Color(231, 156, 113)]

  const HairColours: seq<Color> :=
    [Color(230, 230, 230), Color(132, 111, 88), Color(250, 255, 65), Color(204, 153, 51), Color(255, 151, 63),
     Color(22, 19, 22), Color(93, 67, 48), Color(142, 82, 2), Color(149, 99, 27), Color(136, 119, 107),
     Color(131, 118, 119)]

  /** `beard_colours` is the same list as `hair_colours`. */
  const BeardColours: seq<Color> := HairColours

  const ShirtColours: seq<Color> :=
    [Color(63, 56, 68), Color(240, 243, 242), Color(81, 24, 73), Color(199, 0, 57), Color(249, 81, 53),
     Color(255, 141, 26), Color(255, 195, 0), Color(237, 221, 83), Color(173, 212, 92), Color(87, 199, 133),
     Color(0, 186, 173), Color(42, 123, 155)]

  /** `has_hairs`, `has_glasses_`, `has_beards`, ...: every flag is drawn from [False, True]. */
  const Flags: seq<bool> := [false, true]

  /** `np.random.randint(-50, 50)`: the high end is exclusive. */
  predicate TrouserJitter(j: int) {
    -50 <= j < 50
  }

  /** `np.random.randint(0, 50)`: the high end is exclusive. */
  predicate BeardJitter(b: int) {
    0 <= b < 50
  }

  /** `max(min(shirt + j, 250), 10)` for one channel. */
  function TrouserChannel(shirt: Byte, j: int): (r: Byte)
    ensures 10 <= r <= 250
    ensures 10 <= shirt + j <= 250 ==> r == shirt + j
    ensures shirt + j > 250 ==> r == 250
    ensures shirt + j < 10 ==> r == 10
  {
    var capped := if shirt + j < 250 then shirt + j else 250;
    if capped > 10 then capped else 10
  }

  /**
   * The trouser colour: one offset `j` added to every channel of the shirt
   * colour, each channel clamped to [10, 250].
   */
  function TrouserColour(shirt: Color, j: int): (c: Color)
    ensures forall k :: 0 <= k < 3 ==> Tint(c, k) == TrouserChannel(Tint(shirt, k), j)
    ensures forall k :: 0 <= k < 3 ==> 10 <= Tint(c, k) <= 250
  {
    Color(TrouserChannel(shirt.r, j), TrouserChannel(shirt.g, j), TrouserChannel(shirt.b, j))
  }

  /** `np.min([hair + b, 254])` for one channel. */
  function BeardChannel(hair: Byte, b: int): (r: Byte)
    requires BeardJitter(b)
    ensures r <= 254
    ensures hair + b <= 254 ==> r == hair + b
    ensures hair + b >= 254 ==> r == 254
  {
    if hair + b < 254 then hair + b else 254
  }

  /** The beard colour: one offset `b` added to every hair channel, capped at 254. */
  function BeardColour(hair: Color, b: int): (c: Color)
    requires BeardJitter(b)
    ensures forall k :: 0 <= k < 3 ==> Tint(c, k) == BeardChannel(Tint(hair, k), b)
    ensures forall k :: 0 <= k < 3 ==> Tint(c, k) <= 254
  {
    Color(BeardChannel(hair.r, b), BeardChannel(hair.g, b), BeardChannel(hair.b, b))
  }

  /**
   * Neither derived colour has a 255 channel, so a trouser or beard layer
   * recoloured once has no `== 255` markers left for any later run.
   */
  lemma DerivedColoursSettle(shirt: Color, hair: Color, j: int, b: int)
    requires BeardJitter(b)
    ensures NoMaxChannel(TrouserColour(shirt, j))
    ensures NoMaxChannel(BeardColour(hair, b))
  {
    assert Tint(TrouserColour(shirt, j), 0) <= 250 && Tint(TrouserColour(shirt, j), 1) <= 250 && Tint(TrouserColour(shirt, j), 2) <= 250;
    assert Tint(BeardColour(hair, b), 0) <= 254 && Tint(BeardColour(hair, b), 1) <= 254 && Tint(BeardColour(hair, b), 2) <= 254;
  }

  /** Every skin colour is positive in every channel: the `> 0` mask of body, head and hands survives each run. */
  lemma SkinColoursArePositive()
    ensures forall c :: c in SkinColours ==> AllPositive(c)
  {
  }

  /**
   * Some hair and shirt colours do carry a 255 channel, so those `== 255`
   * layers keep part of their markers after a recolour.
   */
  lemma SomePaletteColoursKeepMarkers()
    ensures !NoMaxChannel(HairColours[2]) && !NoMaxChannel(HairColours[4])
    ensures !NoMaxChannel(ShirtColours[5]) && !NoMaxChannel(ShirtColours[6])
  {
  }
}
