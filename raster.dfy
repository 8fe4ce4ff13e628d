/**
 * RGBA `uint8` pixel buffers and the two in-place operations the generator
 * performs on them: masked recolouring of channels 0-2, and pasting a layer
 * onto the canvas at the origin.
 *
 * A loaded layer is one row of an `array2<Pixel>` store (row = layer,
 * column = pixel of the flattened height x width image), so that a recolour
 * written into a row is seen by every later use of that row.
 */
module Raster {

  /** A numpy `uint8` value. */
  type Byte = x: int | 0 <= x < 256

  datatype Pixel = Pixel(r: Byte, g: Byte, b: Byte, a: Byte)

  /** A palette colour: the (R, G, B) tuples of the source. */
  datatype Color = Color(r: Byte, g: Byte, b: Byte)

  /** The two marker conventions: `layer == 255` and `layer > 0`. */
  datatype Marker = IsMax | IsPositive

  predicate Marks(m: Marker, v: Byte) {
    match m
    case IsMax => v == 255
    case IsPositive => v > 0
  }

  /** Channel k of a pixel, 0 = R, 1 = G, 2 = B, 3 = alpha. */
  function Channel(p: Pixel, k: nat): Byte
    requires k < 4
  {
    if k == 0 then p.r else if k == 1 then p.g else if k == 2 then p.b else p.a
  }

  /** Channel k of a colour, 0 = R, 1 = G, 2 = B. */
  function Tint(c: Color, k: nat): Byte
    requires k < 3
  {
    if k == 0 then c.r else if k == 1 then c.g else c.b
  }

  /** The pixel with channel k set to v. */
  function WithChannel(p: Pixel, k: nat, v: Byte): (q: Pixel)
    requires k < 4
    ensures Channel(q, k) == v
    ensures forall k' :: 0 <= k' < 4 && k' != k ==> Channel(q, k') == Channel(p, k')
  {
    if k == 0 then p.(r := v) else if k == 1 then p.(g := v) else if k == 2 then p.(b := v) else p.(a := v)
  }

  /**
   * One pixel after the three masked assignments
   * `layer[:,:,k][layer[:,:,k] <marker>] = colour[k]`, k = 0, 1, 2:
   * each colour channel is tested on its own, alpha is never written.
   */
  function RecolourPixel(p: Pixel, m: Marker, c: Color): (q: Pixel)
    ensures forall k :: 0 <= k < 3 ==>
      Channel(q, k) == if Marks(m, Channel(p, k)) then Tint(c, k) else Channel(p, k)
    ensures q.a == p.a
  {
    Pixel(if Marks(m, p.r) then c.r else p.r,
          if Marks(m, p.g) then c.g else p.g,
          if Marks(m, p.b) then c.b else p.b,
          p.a)
  }

  /** A whole layer after recolouring. */
  function Recolour(s: seq<Pixel>, m: Marker, c: Color): (t: seq<Pixel>)
    ensures |t| == |s|
    ensures forall i :: 0 <= i < |s| ==> t[i] == RecolourPixel(s[i], m, c)
  {
    if s == [] then [] else [RecolourPixel(s[0], m, c)] + Recolour(s[1..], m, c)
  }

  /** A colour none of whose channels is the `== 255` marker. */
  predicate NoMaxChannel(c: Color) {
    c.r != 255 && c.g != 255 && c.b != 255
  }

  /** A colour all of whose channels satisfy the `> 0` marker. */
  predicate AllPositive(c: Color) {
    c.r > 0 && c.g > 0 && c.b > 0
  }

  /** The mixed pixel (255, 100, 255) has only its R and B channels replaced. */
  lemma RecolourMixedPixel(alpha: Byte, c: Color)
    ensures RecolourPixel(Pixel(255, 100, 255, alpha), IsMax, c) == Pixel(c.r, 100, c.b, alpha)
  {
  }

  /**
   * Because the buffers are written in place, a `== 255` layer recoloured
   * with a colour that has no 255 channel has no markers left: every later
   * recolour, whatever its colour, leaves it as it is.
   */
  lemma RecolourMaxSettles(s: seq<Pixel>, first: Color, later: Color)
    requires NoMaxChannel(first)
    ensures Recolour(Recolour(s, IsMax, first), IsMax, later) == Recolour(s, IsMax, first)
  {
    var once := Recolour(s, IsMax, first);
    var twice := Recolour(once, IsMax, later);
    forall i | 0 <= i < |s| ensures twice[i] == once[i] {
      RecolourPixelMaxSettles(s[i], first, later);
    }
  }

  lemma RecolourPixelMaxSettles(p: Pixel, first: Color, later: Color)
    requires NoMaxChannel(first)
    ensures RecolourPixel(RecolourPixel(p, IsMax, first), IsMax, later) == RecolourPixel(p, IsMax, first)
  {
  }

  /**
   * A `> 0` layer recoloured with a colour whose channels are all positive
   * keeps its mask: a later recolour acts as if applied to the original.
   */
  lemma RecolourPositiveRefreshes(s: seq<Pixel>, first: Color, later: Color)
    requires AllPositive(first)
    ensures Recolour(Recolour(s, IsPositive, first), IsPositive, later) == Recolour(s, IsPositive, later)
  {
    var twice := Recolour(Recolour(s, IsPositive, first), IsPositive, later);
    var direct := Recolour(s, IsPositive, later);
    forall i | 0 <= i < |s| ensures twice[i] == direct[i] {
      RecolourPixelPositiveRefreshes(s[i], first, later);
    }
  }

  lemma RecolourPixelPositiveRefreshes(p: Pixel, first: Color, later: Color)
    requires AllPositive(first)
    ensures RecolourPixel(RecolourPixel(p, IsPositive, first), IsPositive, later) == RecolourPixel(p, IsPositive, later)
  {
  }

  /**
   * `avatar.paste(layer, (0, 0), layer)`: each canvas pixel becomes the
   * combination of itself and the layer pixel at the same place. The
   * combination (PIL's masked blend) is a parameter.
   */
  function Paste(canvas: seq<Pixel>, layer: seq<Pixel>, blend: (Pixel, Pixel) -> Pixel): (r: seq<Pixel>)
    requires |layer| == |canvas|
    ensures |r| == |canvas|
    ensures forall i :: 0 <= i < |r| ==> r[i] == blend(canvas[i], layer[i])
  {
    seq(|canvas|, i requires 0 <= i < |canvas| => blend(canvas[i], layer[i]))
  }

  /** Row `i` of the store: the pixels of one loaded layer. */
  function Row(layers: array2<Pixel>, i: nat): (s: seq<Pixel>)
    requires i < layers.Length0
    reads layers
    ensures |s| == layers.Length1
    ensures forall j :: 0 <= j < layers.Length1 ==> s[j] == layers[i, j]
  {
    seq(layers.Length1, j requires 0 <= j < layers.Length1 reads layers => layers[i, j])
  }

  /** The whole store as a value. */
  ghost function Rows(layers: array2<Pixel>): (s: seq<seq<Pixel>>)
    reads layers
    ensures |s| == layers.Length0
    ensures forall i :: 0 <= i < layers.Length0 ==> s[i] == Row(layers, i)
  {
    seq(layers.Length0, i requires 0 <= i < layers.Length0 reads layers => Row(layers, i))
  }

  /** `layer[:,:,k][layer[:,:,k] <marker>] = v` on one row of the store. */
  method RecolourChannel(layers: array2<Pixel>, row: nat, k: nat, m: Marker, v: Byte)
    requires row < layers.Length0 && k < 3
    modifies layers
    ensures forall j :: 0 <= j < layers.Length1 ==>
      layers[row, j] == if Marks(m, Channel(old(layers[row, j]), k)) then WithChannel(old(layers[row, j]), k, v) else old(layers[row, j])
    ensures forall i, j :: 0 <= i < layers.Length0 && 0 <= j < layers.Length1 && i != row ==>
      layers[i, j] == old(layers[i, j])
  {
    var j := 0;
    while j < layers.Length1
      invariant 0 <= j <= layers.Length1
      invariant forall j' :: 0 <= j' < j ==>
        layers[row, j'] == if Marks(m, Channel(old(layers[row, j']), k)) then WithChannel(old(layers[row, j']), k, v) else old(layers[row, j'])
      invariant forall j' :: j <= j' < layers.Length1 ==> layers[row, j'] == old(layers[row, j'])
      invariant forall i, j' :: 0 <= i < layers.Length0 && 0 <= j' < layers.Length1 && i != row ==>
        layers[i, j'] == old(layers[i, j'])
    {
      var p := layers[row, j];
      if Marks(m, Channel(p, k)) {
        layers[row, j] := WithChannel(p, k, v);
      }
      j := j + 1;
    }
  }

  /** The three masked assignments on channels 0, 1 and 2 of one row. */
  method RecolourRow(layers: array2<Pixel>, row: nat, m: Marker, c: Color)
    requires row < layers.Length0
    modifies layers
    ensures Rows(layers) == old(Rows(layers))[row := Recolour(old(Row(layers, row)), m, c)]
  {
    ghost var before := Rows(layers);
    RecolourChannel(layers, row, 0, m, c.r);
    RecolourChannel(layers, row, 1, m, c.g);
    RecolourChannel(layers, row, 2, m, c.b);
    ghost var after := before[row := Recolour(before[row], m, c)];
    forall i | 0 <= i < layers.Length0 ensures Rows(layers)[i] == after[i] {
      if i == row {
        forall j | 0 <= j < layers.Length1 ensures Row(layers, row)[j] == after[row][j] {
          var p := before[row][j];
          assert RecolourPixel(p, m, c) == after[row][j];
        }
      } else {
        assert Row(layers, i) == before[i];
      }
    }
  }

  /** Pastes row `row` of the store onto the canvas. */
  method PasteRow(canvas: array<Pixel>, layers: array2<Pixel>, row: nat, blend: (Pixel, Pixel) -> Pixel)
    requires row < layers.Length0 && canvas.Length == layers.Length1
    modifies canvas
    ensures canvas[..] == Paste(old(canvas[..]), Row(layers, row), blend)
  {
    var j := 0;
    while j < canvas.Length
      invariant 0 <= j <= canvas.Length
      invariant forall j' :: 0 <= j' < j ==> canvas[j'] == blend(old(canvas[j']), layers[row, j'])
      invariant forall j' :: j <= j' < canvas.Length ==> canvas[j'] == old(canvas[j'])
    {
      canvas[j] := blend(canvas[j], layers[row, j]);
      j := j + 1;
    }
  }

  /** `Image.fromarray(layer)`: a new canvas holding a copy of one row. */
  method CopyRow(layers: array2<Pixel>, row: nat) returns (canvas: array<Pixel>)
    requires row < layers.Length0
    ensures fresh(canvas)
    ensures canvas[..] == Row(layers, row)
  {
    canvas := new Pixel[layers.Length1](j requires 0 <= j < layers.Length1 reads layers => layers[row, j]);
  }
}
