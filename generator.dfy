/**
 * The avatar generator object: its catalogues and loaded layers, the
 * trait fields its setters assign, and `generate`, which resolves the traits
 * and then draws them onto a fresh canvas, recolouring the shared layers in
 * place as it goes.
 */
module Generator {
  import opened Common
  import opened Raster
  import opened Catalog
  import opened Selector
  import opened Palette
  import opened Compositor
  import opened DrawOrder

  /** The variant catalogues read at construction, one list per folder. */
  datatype Catalogue = Catalogue(
    eyes: seq<Variant>, mouths: seq<Variant>, shirts: seq<Variant>, trousers: seq<Variant>,
    hairs: seq<Variant>, glasses: seq<Variant>, beards: seq<Variant>,
    items: seq<Variant>, hats: seq<Variant>, jewellery: seq<Variant>, pins: seq<Variant>)

  /** Every variant of every catalogue is made of rows of the store. */
  predicate CatalogueFits(cat: Catalogue, rows: nat) {
    (forall v :: v in cat.eyes ==> VariantFits(v, rows))
    && (forall v :: v in cat.mouths ==> VariantFits(v, rows))
    && (forall v :: v in cat.shirts ==> VariantFits(v, rows))
    && (forall v :: v in cat.trousers ==> VariantFits(v, rows))
    && (forall v :: v in cat.hairs ==> VariantFits(v, rows))
    && (forall v :: v in cat.glasses ==> VariantFits(v, rows))
    && (forall v :: v in cat.beards ==> VariantFits(v, rows))
    && (forall v :: v in cat.items ==> VariantFits(v, rows))
    && (forall v :: v in cat.hats ==> VariantFits(v, rows))
    && (forall v :: v in cat.jewellery ==> VariantFits(v, rows))
    && (forall v :: v in cat.pins ==> VariantFits(v, rows))
  }

  /** The index arguments `generate` passes on to the setters it calls. */
  datatype Overrides = Overrides(
    skinColour: Index, hairColour: Index, shirtColour: Index,
    eyes: Index, mouth: Index, shirt: Index, trouser: Index,
    hasHair: Index, hair: Index, hasGlasses: Index, glasses: Index, hasBeard: Index, beard: Index)

  /**
   * The outcomes of the random draws of one `generate` call: the position
   * `np.random.choice` returns for each setter, and the two `randint` offsets.
   */
  datatype Draws = Draws(
    skinColour: nat, hairColour: nat, shirtColour: nat,
    eyes: nat, mouth: nat, shirt: nat, trouser: nat,
    hasHair: nat, hair: nat, hasGlasses: nat, glasses: nat, hasBeard: nat, beard: nat,
    trouserJitter: int, beardJitter: int)

  /** `draw` is a position `np.random.choice` can return for a list of length n. */
  predicate Drawable(draw: nat, n: nat) {
    n > 0 ==> draw < n
  }

  /** Every draw is one the random generator can produce. */
  predicate DrawsInRange(cat: Catalogue, d: Draws) {
    Drawable(d.skinColour, |SkinColours|) && Drawable(d.hairColour, |HairColours|)
    && Drawable(d.shirtColour, |ShirtColours|)
    && Drawable(d.eyes, |cat.eyes|) && Drawable(d.mouth, |cat.mouths|)
    && Drawable(d.shirt, |cat.shirts|) && Drawable(d.trouser, |cat.trousers|)
    && Drawable(d.hasHair, |Flags|) && Drawable(d.hair, |cat.hairs|)
    && Drawable(d.hasGlasses, |Flags|) && Drawable(d.glasses, |cat.glasses|)
    && Drawable(d.hasBeard, |Flags|) && Drawable(d.beard, |cat.beards|)
    && TrouserJitter(d.trouserJitter) && BeardJitter(d.beardJitter)
  }

  /** `set_X(index)` of an optional trait: a selection only when the presence flag holds. */
  function SelectIf<T>(flag: bool, values: seq<T>, index: Index, draw: nat): (r: Result<Option<T>>)
    requires Drawable(draw, |values|)
    ensures !flag ==> r == Ok(None)
    ensures flag && r.Ok? ==> r.value.Some? && r.value.value in values
    ensures flag ==> (r.Err? <==> |values| == 0) && (r.Err? ==> r.error == EmptyCatalog)
    ensures flag && r.Ok? ==> r.value == Some(Select(values, index, draw).value)
    ensures flag && Forces(index, |values|) ==> r == Ok(Some(values[index.i]))
  {
    if flag then
      var v :- Select(values, index, draw);
      Ok(Some(v))
    else Ok(None)
  }

  /** The four required garments, selected in the order `generate` sets them. */
  datatype Garments = Garments(eyes: Variant, mouth: Variant, trouser: Variant, shirt: Variant)

  /** The optional traits: each is `Some` exactly when its flag came out `True`. */
  datatype Extras = Extras(hair: Option<Variant>, glasses: Option<Variant>, beard: Option<Variant>)

  /**
   * A trait field once its setter's turn has come or gone: the selection
   * when the setter was reached and its catalogue is non-empty; otherwise
   * (not reached, or raised) the value the field already held.
   */
  function Settled<T>(reached: bool, values: seq<T>, index: Index, draw: nat, prev: Option<T>): Option<T>
    requires Drawable(draw, |values|)
  {
    if reached && |values| > 0 then Some(Select(values, index, draw).value) else prev
  }

  /** The garment fields of a generator: `None` until their setter first succeeds. */
  datatype GarmentState = GarmentState(eye: Option<Variant>, mouth: Option<Variant>, trouser: Option<Variant>, shirt: Option<Variant>)

  /** The presence-flag and trait fields of the optional traits. */
  datatype ExtraState = ExtraState(
    hasHair: Option<bool>, hair: Option<Variant>,
    hasGlasses: Option<bool>, glass: Option<Variant>,
    hasBeard: Option<bool>, beard: Option<Variant>)

  /** `set_eyes`, `set_mouth`, `set_trouser`, `set_shirt` in turn; the first empty catalogue raises. */
  function SelectGarments(cat: Catalogue, o: Overrides, d: Draws): (r: Result<Garments>)
    requires DrawsInRange(cat, d)
    ensures r.Err? <==> |cat.eyes| == 0 || |cat.mouths| == 0 || |cat.trousers| == 0 || |cat.shirts| == 0
    ensures r.Err? ==> r.error == EmptyCatalog
    ensures r.Ok? ==>
      r.value.eyes in cat.eyes && r.value.mouth in cat.mouths
      && r.value.trouser in cat.trousers && r.value.shirt in cat.shirts
    ensures r.Ok? ==>
      (Forces(o.eyes, |cat.eyes|) ==> r.value.eyes == cat.eyes[o.eyes.i])
      && (Forces(o.mouth, |cat.mouths|) ==> r.value.mouth == cat.mouths[o.mouth.i])
      && (Forces(o.trouser, |cat.trousers|) ==> r.value.trouser == cat.trousers[o.trouser.i])
      && (Forces(o.shirt, |cat.shirts|) ==> r.value.shirt == cat.shirts[o.shirt.i])
  {
    var eyes :- Select(cat.eyes, o.eyes, d.eyes);
    var mouth :- Select(cat.mouths, o.mouth, d.mouth);
    var trouser :- Select(cat.trousers, o.trouser, d.trouser);
    var shirt :- Select(cat.shirts, o.shirt, d.shirt);
    Ok(Garments(eyes, mouth, trouser, shirt))
  }

  /** The flag drawn by `set_has_hair`, `set_has_glasses` or `set_has_beard`. */
  function Flag(index: Index, draw: nat): (b: bool)
    requires Drawable(draw, |Flags|)
    ensures Select(Flags, index, draw) == Ok(b)
  {
    Select(Flags, index, draw).value
  }

  /**
   * `set_has_hair`, `set_hair`, `set_has_glasses`, `set_glasses`,
   * `set_has_beard`, `set_beard` in turn: an optional trait is selected only
   * under its flag, and an empty catalogue raises only then.
   */
  function SelectExtras(cat: Catalogue, o: Overrides, d: Draws): (r: Result<Extras>)
    requires DrawsInRange(cat, d)
    ensures r.Err? <==>
      (Flag(o.hasHair, d.hasHair) && |cat.hairs| == 0)
      || (Flag(o.hasGlasses, d.hasGlasses) && |cat.glasses| == 0)
      || (Flag(o.hasBeard, d.hasBeard) && |cat.beards| == 0)
    ensures r.Err? ==> r.error == EmptyCatalog
    ensures r.Ok? ==>
      (r.value.hair.Some? <==> Flag(o.hasHair, d.hasHair))
      && (r.value.glasses.Some? <==> Flag(o.hasGlasses, d.hasGlasses))
      && (r.value.beard.Some? <==> Flag(o.hasBeard, d.hasBeard))
      && (r.value.hair.Some? ==> r.value.hair.value in cat.hairs)
      && (r.value.glasses.Some? ==> r.value.glasses.value in cat.glasses)
      && (r.value.beard.Some? ==> r.value.beard.value in cat.beards)
    ensures r.Ok? ==>
      (r.value.hair.Some? && Forces(o.hair, |cat.hairs|) ==> r.value.hair.value == cat.hairs[o.hair.i])
      && (r.value.glasses.Some? && Forces(o.glasses, |cat.glasses|) ==> r.value.glasses.value == cat.glasses[o.glasses.i])
      && (r.value.beard.Some? && Forces(o.beard, |cat.beards|) ==> r.value.beard.value == cat.beards[o.beard.i])
  {
    var hair :- SelectIf(Flag(o.hasHair, d.hasHair), cat.hairs, o.hair, d.hair);
    var glasses :- SelectIf(Flag(o.hasGlasses, d.hasGlasses), cat.glasses, o.glasses, d.glasses);
    var beard :- SelectIf(Flag(o.hasBeard, d.hasBeard), cat.beards, o.beard, d.beard);
    Ok(Extras(hair, glasses, beard))
  }

  /**
   * The traits the setter calls at the start of `generate` settle on: the
   * three colours (drawn from non-empty palettes, so they cannot fail), the
   * garments, then the optional traits. The overlay flags are passed
   * through as the fields hold them.
   */
  function Resolve(cat: Catalogue, o: Overrides, d: Draws, hasItem: bool, hasHat: bool, hasJewellery: bool, hasPin: bool): (r: Result<Choice>)
    requires DrawsInRange(cat, d)
    ensures r.Err? <==> SelectGarments(cat, o, d).Err? || SelectExtras(cat, o, d).Err?
    ensures r.Err? ==> r.error == EmptyCatalog
    ensures r.Ok? ==> var ch := r.value;
      Select(SkinColours, o.skinColour, d.skinColour) == Ok(ch.skin)
      && Select(HairColours, o.hairColour, d.hairColour) == Ok(ch.hairColour)
      && Select(ShirtColours, o.shirtColour, d.shirtColour) == Ok(ch.shirtColour)
      && SelectGarments(cat, o, d) == Ok(Garments(ch.eyes, ch.mouth, ch.trouser, ch.shirt))
      && SelectExtras(cat, o, d) == Ok(Extras(ch.hair, ch.glasses, ch.beard))
      && ch.hasItem == hasItem && ch.hasHat == hasHat && ch.hasJewellery == hasJewellery && ch.hasPin == hasPin
      && ch.trouserJitter == d.trouserJitter && ch.beardJitter == d.beardJitter
      && JittersInRange(ch)
  {
    var g := SelectGarments(cat, o, d);
    var x := SelectExtras(cat, o, d);
    if g.Err? then Err(g.error)
    else if x.Err? then Err(x.error)
    else
      var g, x := g.value, x.value;
      Ok(Choice(Select(SkinColours, o.skinColour, d.skinColour).value,
                Select(HairColours, o.hairColour, d.hairColour).value,
                Select(ShirtColours, o.shirtColour, d.shirtColour).value,
                g.eyes, g.mouth, g.shirt, g.trouser, x.hair, x.glasses, x.beard,
                hasItem, hasHat, hasJewellery, hasPin, d.trouserJitter, d.beardJitter))
  }

  /** Every resolved trait is an entry of its palette or catalogue. */
  lemma ResolveDrawsFromCatalogues(cat: Catalogue, o: Overrides, d: Draws, hasItem: bool, hasHat: bool, hasJewellery: bool, hasPin: bool)
    requires DrawsInRange(cat, d)
    requires Resolve(cat, o, d, hasItem, hasHat, hasJewellery, hasPin).Ok?
    ensures var ch := Resolve(cat, o, d, hasItem, hasHat, hasJewellery, hasPin).value;
      ch.skin in SkinColours && ch.hairColour in HairColours && ch.shirtColour in ShirtColours
      && ch.eyes in cat.eyes && ch.mouth in cat.mouths && ch.shirt in cat.shirts && ch.trouser in cat.trousers
      && (ch.hair.Some? ==> ch.hair.value in cat.hairs)
      && (ch.glasses.Some? ==> ch.glasses.value in cat.glasses)
      && (ch.beard.Some? ==> ch.beard.value in cat.beards)
  {
  }

  /**
   * An `int` index inside its catalogue fixes the trait, for the colours,
   * the garments and (when their flag holds) the optional traits alike; an
   * optional trait is present exactly when its flag came out `True`.
   */
  lemma ResolveHonoursOverrides(cat: Catalogue, o: Overrides, d: Draws, hasItem: bool, hasHat: bool, hasJewellery: bool, hasPin: bool)
    requires DrawsInRange(cat, d)
    requires Resolve(cat, o, d, hasItem, hasHat, hasJewellery, hasPin).Ok?
    ensures var ch := Resolve(cat, o, d, hasItem, hasHat, hasJewellery, hasPin).value;
      (Forces(o.skinColour, |SkinColours|) ==> ch.skin == SkinColours[o.skinColour.i])
      && (Forces(o.hairColour, |HairColours|) ==> ch.hairColour == HairColours[o.hairColour.i])
      && (Forces(o.shirtColour, |ShirtColours|) ==> ch.shirtColour == ShirtColours[o.shirtColour.i])
      && (Forces(o.eyes, |cat.eyes|) ==> ch.eyes == cat.eyes[o.eyes.i])
      && (Forces(o.mouth, |cat.mouths|) ==> ch.mouth == cat.mouths[o.mouth.i])
      && (Forces(o.shirt, |cat.shirts|) ==> ch.shirt == cat.shirts[o.shirt.i])
      && (Forces(o.trouser, |cat.trousers|) ==> ch.trouser == cat.trousers[o.trouser.i])
      && (ch.hair.Some? <==> Flag(o.hasHair, d.hasHair))
      && (ch.glasses.Some? <==> Flag(o.hasGlasses, d.hasGlasses))
      && (ch.beard.Some? <==> Flag(o.hasBeard, d.hasBeard))
      && (ch.hair.Some? && Forces(o.hair, |cat.hairs|) ==> ch.hair.value == cat.hairs[o.hair.i])
      && (ch.glasses.Some? && Forces(o.glasses, |cat.glasses|) ==> ch.glasses.value == cat.glasses[o.glasses.i])
      && (ch.beard.Some? && Forces(o.beard, |cat.beards|) ==> ch.beard.value == cat.beards[o.beard.i])
  {
  }

  /** A zero canvas: `np.zeros` of the image size, RGBA. */
  function Blank(n: nat): (c: seq<Pixel>)
    ensures |c| == n && forall i :: 0 <= i < n ==> c[i] == Pixel(0, 0, 0, 0)
  {
    seq(n, _ => Pixel(0, 0, 0, 0))
  }

  class AvatarGenerator {
    /** The loaded layers: the body parts and every variant's images, one row each. */
    const layers: array2<Pixel>
    const parts: BodyParts
    const catalogue: Catalogue

    var skinColour: Option<Color>
    var hairColour: Option<Color>
    var beardColour: Option<Color>
    var shirtColour: Option<Color>
    var eye: Option<Variant>
    var mouth: Option<Variant>
    var shirt: Option<Variant>
    var trouser: Option<Variant>
    var hasHair: Option<bool>
    var hair: Option<Variant>
    var hasGlasses: Option<bool>
    var glass: Option<Variant>
    var hasBeard: Option<bool>
    var beard: Option<Variant>
    var hasHat: Option<bool>
    var hat: Option<Variant>
    var hasJewellery: Option<bool>
    var jewel: Option<Variant>
    var hasItem: Option<bool>
    var item: Option<Variant>
    var hasPin: Option<bool>
    var pin: Option<Variant>

    /** Every body part and every variant names a row of the store. */
    predicate Valid() {
      PartsFit(parts, layers.Length0) && CatalogueFits(catalogue, layers.Length0)
    }

    /** `__init__` once the images are loaded: every trait field starts as `None`. */
    constructor(layers: array2<Pixel>, parts: BodyParts, catalogue: Catalogue)
      requires PartsFit(parts, layers.Length0) && CatalogueFits(catalogue, layers.Length0)
      ensures Valid()
      ensures this.layers == layers && this.parts == parts && this.catalogue == catalogue
      ensures skinColour == hairColour == beardColour == shirtColour == None
      ensures eye == mouth == shirt == trouser == None
      ensures hasHair == hasGlasses == hasBeard == hasHat == hasJewellery == hasItem == hasPin == None
      ensures hair == glass == beard == hat == jewel == item == pin == None
    {
      this.layers := layers;
      this.parts := parts;
      this.catalogue := catalogue;
      skinColour, hairColour, beardColour, shirtColour := None, None, None, None;
      eye, mouth, shirt, trouser := None, None, None, None;
      hasHair, hasGlasses, hasBeard, hasHat, hasJewellery, hasItem, hasPin := None, None, None, None, None, None, None;
      hair, glass, beard, hat, jewel, item, pin := None, None, None, None, None, None, None;
    }

    // -------------------------------------------------------------------------
    // Colour setters: a selection from a fixed palette, stored and returned.

    method SetSkinColour(index: Index, draw: nat) returns (c: Color)
      requires draw < |SkinColours|
      modifies this`skinColour
      ensures Select(SkinColours, index, draw) == Ok(c) && skinColour == Some(c)
    {
      c := Select(SkinColours, index, draw).value;
      skinColour := Some(c);
    }

    method SetHairColour(index: Index, draw: nat) returns (c: Color)
      requires draw < |HairColours|
      modifies this`hairColour
      ensures Select(HairColours, index, draw) == Ok(c) && hairColour == Some(c)
    {
      c := Select(HairColours, index, draw).value;
      hairColour := Some(c);
    }

    method SetBeardColour(index: Index, draw: nat) returns (c: Color)
      requires draw < |BeardColours|
      modifies this`beardColour
      ensures Select(BeardColours, index, draw) == Ok(c) && beardColour == Some(c)
    {
      c := Select(BeardColours, index, draw).value;
      beardColour := Some(c);
    }

    method SetShirtColour(index: Index, draw: nat) returns (c: Color)
      requires draw < |ShirtColours|
      modifies this`shirtColour
      ensures Select(ShirtColours, index, draw) == Ok(c) && shirtColour == Some(c)
    {
      c := Select(ShirtColours, index, draw).value;
      shirtColour := Some(c);
    }

    // -------------------------------------------------------------------------
    // Required variants: a selection from a catalogue, which raises when it is empty.

    method SetEyes(index: Index, draw: nat) returns (r: Result<Variant>)
      requires Drawable(draw, |catalogue.eyes|)
      modifies this`eye
      ensures r == Select(catalogue.eyes, index, draw)
      ensures eye == if r.Ok? then Some(r.value) else old(eye)
    {
      r := Select(catalogue.eyes, index, draw);
      if r.Ok? {
        eye := Some(r.value);
      }
    }

    method SetMouth(index: Index, draw: nat) returns (r: Result<Variant>)
      requires Drawable(draw, |catalogue.mouths|)
      modifies this`mouth
      ensures r == Select(catalogue.mouths, index, draw)
      ensures mouth == if r.Ok? then Some(r.value) else old(mouth)
    {
      r := Select(catalogue.mouths, index, draw);
      if r.Ok? {
        mouth := Some(r.value);
      }
    }

    method SetShirt(index: Index, draw: nat) returns (r: Result<Variant>)
      requires Drawable(draw, |catalogue.shirts|)
      modifies this`shirt
      ensures r == Select(catalogue.shirts, index, draw)
      ensures shirt == if r.Ok? then Some(r.value) else old(shirt)
    {
      r := Select(catalogue.shirts, index, draw);
      if r.Ok? {
        shirt := Some(r.value);
      }
    }

    method SetTrouser(index: Index, draw: nat) returns (r: Result<Variant>)
      requires Drawable(draw, |catalogue.trousers|)
      modifies this`trouser
      ensures r == Select(catalogue.trousers, index, draw)
      ensures trouser == if r.Ok? then Some(r.value) else old(trouser)
    {
      r := Select(catalogue.trousers, index, draw);
      if r.Ok? {
        trouser := Some(r.value);
      }
    }

    // -------------------------------------------------------------------------
    // Presence flags: a selection from [False, True].

    method SetHasHair(index: Index, draw: nat) returns (b: bool)
      requires draw < |Flags|
      modifies this`hasHair
      ensures Select(Flags, index, draw) == Ok(b) && hasHair == Some(b)
    {
      b := Select(Flags, index, draw).value;
      hasHair := Some(b);
    }

    method SetHasGlasses(index: Index, draw: nat) returns (b: bool)
      requires draw < |Flags|
      modifies this`hasGlasses
      ensures Select(Flags, index, draw) == Ok(b) && hasGlasses == Some(b)
    {
      b := Select(Flags, index, draw).value;
      hasGlasses := Some(b);
    }

    method SetHasBeard(index: Index, draw: nat) returns (b: bool)
      requires draw < |Flags|
      modifies this`hasBeard
      ensures Select(Flags, index, draw) == Ok(b) && hasBeard == Some(b)
    {
      b := Select(Flags, index, draw).value;
      hasBeard := Some(b);
    }

    method SetHasHat(index: Index, draw: nat) returns (b: bool)
      requires draw < |Flags|
      modifies this`hasHat
      ensures Select(Flags, index, draw) == Ok(b) && hasHat == Some(b)
    {
      b := Select(Flags, index, draw).value;
      hasHat := Some(b);
    }

    method SetHasJewellery(index: Index, draw: nat) returns (b: bool)
      requires draw < |Flags|
      modifies this`hasJewellery
      ensures Select(Flags, index, draw) == Ok(b) && hasJewellery == Some(b)
    {
      b := Select(Flags, index, draw).value;
      hasJewellery := Some(b);
    }

    method SetHasItem(index: Index, draw: nat) returns (b: bool)
      requires draw < |Flags|
      modifies this`hasItem
      ensures Select(Flags, index, draw) == Ok(b) && hasItem == Some(b)
    {
      b := Select(Flags, index, draw).value;
      hasItem := Some(b);
    }

    method SetHasPin(index: Index, draw: nat) returns (b: bool)
      requires draw < |Flags|
      modifies this`hasPin
      ensures Select(Flags, index, draw) == Ok(b) && hasPin == Some(b)
    {
      b := Select(Flags, index, draw).value;
      hasPin := Some(b);
    }

    // -------------------------------------------------------------------------
    // Optional variants: selected only while their presence flag is truthy;
    // otherwise the setter returns `None` and the field keeps its value.

    method SetHair(index: Index, draw: nat) returns (r: Result<Option<Variant>>)
      requires Drawable(draw, |catalogue.hairs|)
      modifies this`hair
      ensures r == SelectIf(Truthy(hasHair), catalogue.hairs, index, draw)
      ensures hair == if r.Ok? && r.value.Some? then r.value else old(hair)
    {
      r := SelectIf(Truthy(hasHair), catalogue.hairs, index, draw);
      if r.Ok? && r.value.Some? {
        hair := r.value;
      }
    }

    method SetGlasses(index: Index, draw: nat) returns (r: Result<Option<Variant>>)
      requires Drawable(draw, |catalogue.glasses|)
      modifies this`glass
      ensures r == SelectIf(Truthy(hasGlasses), catalogue.glasses, index, draw)
      ensures glass == if r.Ok? && r.value.Some? then r.value else old(glass)
    {
      r := SelectIf(Truthy(hasGlasses), catalogue.glasses, index, draw);
      if r.Ok? && r.value.Some? {
        glass := r.value;
      }
    }

    method SetBeard(index: Index, draw: nat) returns (r: Result<Option<Variant>>)
      requires Drawable(draw, |catalogue.beards|)
      modifies this`beard
      ensures r == SelectIf(Truthy(hasBeard), catalogue.beards, index, draw)
      ensures beard == if r.Ok? && r.value.Some? then r.value else old(beard)
    {
      r := SelectIf(Truthy(hasBeard), catalogue.beards, index, draw);
      if r.Ok? && r.value.Some? {
        beard := r.value;
      }
    }

    method SetHat(index: Index, draw: nat) returns (r: Result<Option<Variant>>)
      requires Drawable(draw, |catalogue.hats|)
      modifies this`hat
      ensures r == SelectIf(Truthy(hasHat), catalogue.hats, index, draw)
      ensures hat == if r.Ok? && r.value.Some? then r.value else old(hat)
    {
      r := SelectIf(Truthy(hasHat), catalogue.hats, index, draw);
      if r.Ok? && r.value.Some? {
        hat := r.value;
      }
    }

    method SetJewellery(index: Index, draw: nat) returns (r: Result<Option<Variant>>)
      requires Drawable(draw, |catalogue.jewellery|)
      modifies this`jewel
      ensures r == SelectIf(Truthy(hasJewellery), catalogue.jewellery, index, draw)
      ensures jewel == if r.Ok? && r.value.Some? then r.value else old(jewel)
    {
      r := SelectIf(Truthy(hasJewellery), catalogue.jewellery, index, draw);
      if r.Ok? && r.value.Some? {
        jewel := r.value;
      }
    }

    method SetItem(index: Index, draw: nat) returns (r: Result<Option<Variant>>)
      requires Drawable(draw, |catalogue.items|)
      modifies this`item
      ensures r == SelectIf(Truthy(hasItem), catalogue.items, index, draw)
      ensures item == if r.Ok? && r.value.Some? then r.value else old(item)
    {
      r := SelectIf(Truthy(hasItem), catalogue.items, index, draw);
      if r.Ok? && r.value.Some? {
        item := r.value;
      }
    }

    method SetPin(index: Index, draw: nat) returns (r: Result<Option<Variant>>)
      requires Drawable(draw, |catalogue.pins|)
      modifies this`pin
      ensures r == SelectIf(Truthy(hasPin), catalogue.pins, index, draw)
      ensures pin == if r.Ok? && r.value.Some? then r.value else old(pin)
    {
      r := SelectIf(Truthy(hasPin), catalogue.pins, index, draw);
      if r.Ok? && r.value.Some? {
        pin := r.value;
      }
    }

    // -------------------------------------------------------------------------
    // generate

    /** The traits a `generate` call with these indices and draws settles on. */
    function Resolved(o: Overrides, d: Draws): (r: Result<Choice>)
      requires DrawsInRange(catalogue, d)
      reads this`hasItem, this`hasHat, this`hasJewellery, this`hasPin
      ensures r.Ok? ==> r.value.hasItem == Truthy(hasItem) && r.value.hasHat == Truthy(hasHat)
      ensures r.Ok? ==> r.value.hasJewellery == Truthy(hasJewellery) && r.value.hasPin == Truthy(hasPin)
    {
      Resolve(catalogue, o, d, Truthy(hasItem), Truthy(hasHat), Truthy(hasJewellery), Truthy(hasPin))
    }

    /** The garment fields once the four garment setters have run or one of them has raised. */
    predicate GarmentsSettled(o: Overrides, d: Draws, was: GarmentState)
      requires DrawsInRange(catalogue, d)
      reads this`eye, this`mouth, this`trouser, this`shirt
    {
      var c := catalogue;
      eye == Settled(true, c.eyes, o.eyes, d.eyes, was.eye)
      && mouth == Settled(|c.eyes| > 0, c.mouths, o.mouth, d.mouth, was.mouth)
      && trouser == Settled(|c.eyes| > 0 && |c.mouths| > 0, c.trousers, o.trouser, d.trouser, was.trouser)
      && shirt == Settled(|c.eyes| > 0 && |c.mouths| > 0 && |c.trousers| > 0, c.shirts, o.shirt, d.shirt, was.shirt)
    }

    /** The four garment fields. */
    function GarmentFields(): GarmentState
      reads this`eye, this`mouth, this`trouser, this`shirt
    {
      GarmentState(eye, mouth, trouser, shirt)
    }

    /** The six flag and trait fields of the optional traits. */
    function ExtraFields(): ExtraState
      reads this`hasHair, this`hair, this`hasGlasses, this`glass, this`hasBeard, this`beard
    {
      ExtraState(hasHair, hair, hasGlasses, glass, hasBeard, beard)
    }

    /**
     * The flag and trait fields once the three flag-and-trait pairs have run
     * or a trait setter has raised: a pair after a raise is not reached.
     */
    predicate ExtrasSettled(o: Overrides, d: Draws, was: ExtraState)
      requires DrawsInRange(catalogue, d)
      reads this`hasHair, this`hair, this`hasGlasses, this`glass, this`hasBeard, this`beard
    {
      var c := catalogue;
      var withHair, withGlasses, withBeard := Flag(o.hasHair, d.hasHair), Flag(o.hasGlasses, d.hasGlasses), Flag(o.hasBeard, d.hasBeard);
      var hairRaises := withHair && |c.hairs| == 0;
      var glassesRaises := !hairRaises && withGlasses && |c.glasses| == 0;
      hasHair == Some(withHair)
      && hair == Settled(withHair, c.hairs, o.hair, d.hair, was.hair)
      && hasGlasses == (if hairRaises then was.hasGlasses else Some(withGlasses))
      && glass == Settled(!hairRaises && withGlasses, c.glasses, o.glasses, d.glasses, was.glass)
      && hasBeard == (if hairRaises || glassesRaises then was.hasBeard else Some(withBeard))
      && beard == Settled(!hairRaises && !glassesRaises && withBeard, c.beards, o.beard, d.beard, was.beard)
    }

    /** `set_skin_colour`, `set_hair_colour`, `set_shirt_colour` as `generate` calls them. */
    method SetColours(o: Overrides, d: Draws)
      requires DrawsInRange(catalogue, d)
      modifies this`skinColour, this`hairColour, this`shirtColour
      ensures skinColour == Some(Select(SkinColours, o.skinColour, d.skinColour).value)
      ensures hairColour == Some(Select(HairColours, o.hairColour, d.hairColour).value)
      ensures shirtColour == Some(Select(ShirtColours, o.shirtColour, d.shirtColour).value)
    {
      var skin := SetSkinColour(o.skinColour, d.skinColour);
      var hairC := SetHairColour(o.hairColour, d.hairColour);
      var shirtC := SetShirtColour(o.shirtColour, d.shirtColour);
    }

    /** `set_eyes`, `set_mouth`, `set_trouser`, `set_shirt`, stopping at the first that raises. */
    method SetGarments(o: Overrides, d: Draws) returns (r: Result<Garments>)
      requires DrawsInRange(catalogue, d)
      modifies this`eye, this`mouth, this`trouser, this`shirt
      ensures r == SelectGarments(catalogue, o, d)
      ensures GarmentsSettled(o, d, old(GarmentFields()))
      ensures r.Ok? ==>
        eye == Some(r.value.eyes) && mouth == Some(r.value.mouth)
        && trouser == Some(r.value.trouser) && shirt == Some(r.value.shirt)
    {
      var eyes := SetEyes(o.eyes, d.eyes);
      if eyes.Err? { return Err(eyes.error); }
      var mouthV := SetMouth(o.mouth, d.mouth);
      if mouthV.Err? { return Err(mouthV.error); }
      var trouserV := SetTrouser(o.trouser, d.trouser);
      if trouserV.Err? { return Err(trouserV.error); }
      var shirtV := SetShirt(o.shirt, d.shirt);
      if shirtV.Err? { return Err(shirtV.error); }
      r := Ok(Garments(eyes.value, mouthV.value, trouserV.value, shirtV.value));
    }

    /** The three flag-and-trait pairs, stopping at the first trait that raises. */
    method SetExtras(o: Overrides, d: Draws) returns (r: Result<Extras>)
      requires DrawsInRange(catalogue, d)
      modifies this`hasHair, this`hair, this`hasGlasses, this`glass, this`hasBeard, this`beard
      ensures r == SelectExtras(catalogue, o, d)
      ensures ExtrasSettled(o, d, old(ExtraFields()))
      ensures r.Ok? ==>
        hasHair == Some(r.value.hair.Some?) && hair == (if r.value.hair.Some? then r.value.hair else old(hair))
        && hasGlasses == Some(r.value.glasses.Some?) && glass == (if r.value.glasses.Some? then r.value.glasses else old(glass))
        && hasBeard == Some(r.value.beard.Some?) && beard == (if r.value.beard.Some? then r.value.beard else old(beard))
    {
      var withHair := SetHasHair(o.hasHair, d.hasHair);
      var hairV := SetHair(o.hair, d.hair);
      if hairV.Err? { return Err(hairV.error); }
      var withGlasses := SetHasGlasses(o.hasGlasses, d.hasGlasses);
      var glassesV := SetGlasses(o.glasses, d.glasses);
      if glassesV.Err? { return Err(glassesV.error); }
      var withBeard := SetHasBeard(o.hasBeard, d.hasBeard);
      var beardV := SetBeard(o.beard, d.beard);
      if beardV.Err? { return Err(beardV.error); }
      r := Ok(Extras(hairV.value, glassesV.value, beardV.value));
    }

    /**
     * The setter calls at the head of `generate`, in their order; the first
     * empty catalogue raises and the later setters are not reached.
     */
    method SetTraits(o: Overrides, d: Draws) returns (r: Result<Choice>)
      requires DrawsInRange(catalogue, d)
      modifies this`skinColour, this`hairColour, this`shirtColour, this`eye, this`mouth, this`shirt, this`trouser
      modifies this`hasHair, this`hair, this`hasGlasses, this`glass, this`hasBeard, this`beard
      ensures r == Resolved(o, d)
      ensures skinColour == Some(Select(SkinColours, o.skinColour, d.skinColour).value)
      ensures hairColour == Some(Select(HairColours, o.hairColour, d.hairColour).value)
      ensures shirtColour == Some(Select(ShirtColours, o.shirtColour, d.shirtColour).value)
      ensures GarmentsSettled(o, d, old(GarmentFields()))
      ensures SelectGarments(catalogue, o, d).Ok? ==> ExtrasSettled(o, d, old(ExtraFields()))
      ensures SelectGarments(catalogue, o, d).Err? ==> ExtraFields() == old(ExtraFields())
      ensures r.Ok? ==> var ch := r.value;
        skinColour == Some(ch.skin) && hairColour == Some(ch.hairColour) && shirtColour == Some(ch.shirtColour)
        && eye == Some(ch.eyes) && mouth == Some(ch.mouth) && shirt == Some(ch.shirt) && trouser == Some(ch.trouser)
        && hasHair == Some(ch.hair.Some?) && hair == (if ch.hair.Some? then ch.hair else old(hair))
        && hasGlasses == Some(ch.glasses.Some?) && glass == (if ch.glasses.Some? then ch.glasses else old(glass))
        && hasBeard == Some(ch.beard.Some?) && beard == (if ch.beard.Some? then ch.beard else old(beard))
    {
      ghost var garments, extras := GarmentFields(), ExtraFields();
      SetColours(o, d);
      var g := SetGarments(o, d);
      assert GarmentsSettled(o, d, garments) && ExtraFields() == extras;
      if g.Err? { return Err(g.error); }
      var x := SetExtras(o, d);
      assert GarmentsSettled(o, d, garments) && ExtrasSettled(o, d, extras);
      if x.Err? { return Err(x.error); }
      r := Ok(Choice(skinColour.value, hairColour.value, shirtColour.value,
                     g.value.eyes, g.value.mouth, g.value.shirt, g.value.trouser,
                     x.value.hair, x.value.glasses, x.value.beard,
                     Truthy(hasItem), Truthy(hasHat), Truthy(hasJewellery), Truthy(hasPin),
                     d.trouserJitter, d.beardJitter));
    }

    /**
     * The drawing half of `generate`: a zero canvas, then the plan's steps on
     * the shared layers; the plan's failure, if it has one, replaces the avatar.
     */
    method Draw(ch: Choice, blend: (Pixel, Pixel) -> Pixel) returns (r: Result<array<Pixel>>)
      requires Valid() && JittersInRange(ch) && ChoiceFits(ch, layers.Length0)
      modifies layers
      ensures var plan := Plan(parts, ch);
        var start := Snapshot(old(Rows(layers)), Blank(layers.Length1));
        Fits(start, plan.steps)
        && Rows(layers) == Run(start, plan.steps, blend).store
        && (plan.failure.Some? ==> r == Err(plan.failure.value))
        && (plan.failure.None? ==> r.Ok? && fresh(r.value) && r.value[..] == Run(start, plan.steps, blend).canvas)
    {
      var plan := Plan(parts, ch);
      PlanInStore(parts, ch, layers.Length0);
      var canvas0 := new Pixel[layers.Length1](_ => Pixel(0, 0, 0, 0));
      assert canvas0[..] == Blank(layers.Length1);
      var canvas := Execute(layers, canvas0, plan.steps, blend);
      if plan.failure.Some? {
        r := Err(plan.failure.value);
      } else {
        r := Ok(canvas);
      }
    }

    /**
     * `generate`: set the traits, then draw. A failed selection raises
     * before anything is drawn; otherwise the layers are recoloured in place
     * as the plan says, and the plan's failure, if it has one, replaces the
     * avatar.
     */
    method Generate(o: Overrides, d: Draws, blend: (Pixel, Pixel) -> Pixel) returns (r: Result<array<Pixel>>)
      requires Valid() && DrawsInRange(catalogue, d)
      modifies this`skinColour, this`hairColour, this`shirtColour, this`eye, this`mouth, this`shirt, this`trouser
      modifies this`hasHair, this`hair, this`hasGlasses, this`glass, this`hasBeard, this`beard
      modifies layers
      ensures Resolved(o, d).Err? ==> r == Err(EmptyCatalog) && Rows(layers) == old(Rows(layers))
      ensures skinColour == Some(Select(SkinColours, o.skinColour, d.skinColour).value)
      ensures hairColour == Some(Select(HairColours, o.hairColour, d.hairColour).value)
      ensures shirtColour == Some(Select(ShirtColours, o.shirtColour, d.shirtColour).value)
      ensures GarmentsSettled(o, d, old(GarmentFields()))
      ensures SelectGarments(catalogue, o, d).Ok? ==> ExtrasSettled(o, d, old(ExtraFields()))
      ensures SelectGarments(catalogue, o, d).Err? ==> ExtraFields() == old(ExtraFields())
      ensures Resolved(o, d).Ok? ==> var ch := Resolved(o, d).value;
        skinColour == Some(ch.skin) && hairColour == Some(ch.hairColour) && shirtColour == Some(ch.shirtColour)
        && eye == Some(ch.eyes) && mouth == Some(ch.mouth) && shirt == Some(ch.shirt) && trouser == Some(ch.trouser)
        && hasHair == Some(ch.hair.Some?) && hair == (if ch.hair.Some? then ch.hair else old(hair))
        && hasGlasses == Some(ch.glasses.Some?) && glass == (if ch.glasses.Some? then ch.glasses else old(glass))
        && hasBeard == Some(ch.beard.Some?) && beard == (if ch.beard.Some? then ch.beard else old(beard))
      ensures Resolved(o, d).Ok? ==> var plan := Plan(parts, Resolved(o, d).value);
        var start := Snapshot(old(Rows(layers)), Blank(layers.Length1));
        Fits(start, plan.steps)
        && Rows(layers) == Run(start, plan.steps, blend).store
        && (plan.failure.Some? ==> r == Err(plan.failure.value))
        && (plan.failure.None? ==> r.Ok? && fresh(r.value) && r.value[..] == Run(start, plan.steps, blend).canvas)
    {
      var traits := SetTraits(o, d);
      if traits.Err? {
        return Err(traits.error);
      }
      ResolvedFits(catalogue, o, d, Truthy(hasItem), Truthy(hasHat), Truthy(hasJewellery), Truthy(hasPin), layers.Length0);
      r := Draw(traits.value, blend);
    }
  }

  /** Traits resolved from catalogues of store rows are made of store rows. */
  lemma ResolvedFits(cat: Catalogue, o: Overrides, d: Draws, hasItem: bool, hasHat: bool, hasJewellery: bool, hasPin: bool, rows: nat)
    requires DrawsInRange(cat, d) && CatalogueFits(cat, rows)
    requires Resolve(cat, o, d, hasItem, hasHat, hasJewellery, hasPin).Ok?
    ensures ChoiceFits(Resolve(cat, o, d, hasItem, hasHat, hasJewellery, hasPin).value, rows)
  {
    ResolveDrawsFromCatalogues(cat, o, d, hasItem, hasHat, hasJewellery, hasPin);
  }
}
