/**
 * The drawing half of `generate`: from the resolved traits it fixes the
 * sequence of recolour-then-paste steps, in the source's back-to-front
 * order, and the exception (if any) that ends the run.
 */
module DrawOrder {
  import opened Common
  import opened Raster
  import opened Catalog
  import opened Palette
  import opened Compositor

  /** The rows of the fixed body-part layers (`get_body_parts`). */
  datatype BodyParts = BodyParts(
    body: LayerId, head: LayerId, chin: LayerId, feet: LayerId,
    handsBg: LayerId, handsFg: LayerId, handsItemBg: LayerId, handsItemFg: LayerId,
    underware: LayerId, arms: LayerId)

  /**
   * What `generate` has resolved when it starts drawing. An optional trait
   * is `Some` exactly when its presence flag is truthy; the four overlay
   * flags are the fields `has_hat`, ... as they stand (the setters that
   * would draw them are disabled in `generate`).
   */
  datatype Choice = Choice(
    skin: Color, hairColour: Color, shirtColour: Color,
    eyes: Variant, mouth: Variant, shirt: Variant, trouser: Variant,
    hair: Option<Variant>, glasses: Option<Variant>, beard: Option<Variant>,
    hasItem: bool, hasHat: bool, hasJewellery: bool, hasPin: bool,
    trouserJitter: int, beardJitter: int)

  /** Every body part is a row of a store with `rows` rows. */
  predicate PartsFit(parts: BodyParts, rows: nat) {
    parts.body < rows && parts.head < rows && parts.chin < rows && parts.feet < rows
    && parts.handsBg < rows && parts.handsFg < rows && parts.handsItemBg < rows && parts.handsItemFg < rows
    && parts.underware < rows && parts.arms < rows
  }

  /** Every chosen variant is made of rows of the store. */
  predicate ChoiceFits(ch: Choice, rows: nat) {
    VariantFits(ch.eyes, rows) && VariantFits(ch.mouth, rows) && VariantFits(ch.shirt, rows) && VariantFits(ch.trouser, rows)
    && (ch.hair.Some? ==> VariantFits(ch.hair.value, rows))
    && (ch.glasses.Some? ==> VariantFits(ch.glasses.value, rows))
    && (ch.beard.Some? ==> VariantFits(ch.beard.value, rows))
  }

  /** The jitters lie in the ranges `randint` draws them from (the beard one only matters with a beard). */
  predicate JittersInRange(ch: Choice) {
    TrouserJitter(ch.trouserJitter) && (ch.beard.Some? ==> BeardJitter(ch.beardJitter))
  }

  /** The steps a run performs and the exception that ends it, if any. */
  datatype Draft = Draft(steps: seq<Step>, failure: Option<Failure>)

  /**
   * `for e, layer in enumerate(ids)`: paste every layer, recolouring all of
   * them or, with `firstOnly`, only the one at `e == 0`.
   */
  function Layers(part: Part, ids: seq<LayerId>, paint: Option<Paint>, firstOnly: bool): (r: seq<Step>)
    ensures |r| == |ids|
    ensures forall e :: 0 <= e < |ids| ==>
      r[e] == Step(part, e, ids[e], if firstOnly && e > 0 then None else paint, Blit)
  {
    seq(|ids|, e requires 0 <= e < |ids| => Step(part, e, ids[e], if firstOnly && e > 0 then None else paint, Blit))
  }

  /** A single layer pasted, as for the body parts and `fg[0]` of eyes, mouth and glasses. */
  function Single(part: Part, id: LayerId, paint: Option<Paint>): seq<Step> {
    [Step(part, 0, id, paint, Blit)]
  }

  /** The first foreground layer of a variant, or nothing when its list is empty. */
  function First(part: Part, v: Variant): seq<Step> {
    if |v.fg| == 0 then [] else Single(part, v.fg[0], None)
  }

  /** The body step: recoloured with the skin colour (`> 0`), it replaces the canvas. */
  function BodyStep(parts: BodyParts, ch: Choice): Step {
    Step(Body, 0, parts.body, Some(Paint(IsPositive, ch.skin)), Replace)
  }

  /** The background hair layers, only the first recoloured. */
  function HairBgSteps(ch: Choice): seq<Step> {
    if ch.hair.Some? then Layers(HairBg, ch.hair.value.Bg(), Some(Paint(IsMax, ch.hairColour)), true) else []
  }

  /** The hands: item hands (`== 255`) when an item is held, default hands (`> 0`) otherwise. */
  function HandsBgStep(parts: BodyParts, ch: Choice): Step {
    if ch.hasItem then Step(HandsBg, 0, parts.handsItemBg, Some(Paint(IsMax, ch.skin)), Blit)
    else Step(HandsBg, 0, parts.handsBg, Some(Paint(IsPositive, ch.skin)), Blit)
  }

  function HandsFgStep(parts: BodyParts, ch: Choice): Step {
    Step(HandsFg, 0, if ch.hasItem then parts.handsItemFg else parts.handsFg, None, Blit)
  }

  /** The part of rank k: the inverse of `Rank`. */
  function PartAt(k: nat): (p: Part)
    requires k < 17
    ensures Rank(p) == k
  {
    [HairBg, Body, Arms, TrouserBg, TrouserFg, ShirtBg, ShirtFg, Head, Chin,
     BeardFg, Feet, HandsBg, HandsFg, Eyes, Mouth, Glasses, HairFg][k]
  }

  /** `PartAt` undoes `Rank`. */
  lemma PartAtRank(p: Part)
    ensures PartAt(Rank(p)) == p
  {
  }

  /** The steps that draw one part. */
  function Group(parts: BodyParts, ch: Choice, p: Part): (g: seq<Step>)
    requires JittersInRange(ch)
    ensures forall s :: s in g ==> s.part == p
    ensures forall s :: s in g ==> (s.op == Replace <==> p == Body)
  {
    match p
    case HairBg => HairBgSteps(ch)
    case Body => [BodyStep(parts, ch)]
    case Arms => Single(Arms, parts.arms, None)
    case TrouserBg => Layers(TrouserBg, ch.trouser.Bg(), Some(Paint(IsMax, TrouserColour(ch.shirtColour, ch.trouserJitter))), false)
    case TrouserFg => Layers(TrouserFg, ch.trouser.fg, None, false)
    case ShirtBg => Layers(ShirtBg, ch.shirt.Bg(), Some(Paint(IsMax, ch.shirtColour)), false)
    case ShirtFg => Layers(ShirtFg, ch.shirt.fg, None, false)
    case Head => Single(Head, parts.head, Some(Paint(IsPositive, ch.skin)))
    case Chin => Single(Chin, parts.chin, None)
    case BeardFg =>
      if ch.beard.Some? then Layers(BeardFg, ch.beard.value.fg, Some(Paint(IsMax, BeardColour(ch.hairColour, ch.beardJitter))), true) else []
    case Feet => Single(Feet, parts.feet, None)
    case HandsBg => [HandsBgStep(parts, ch)]
    case HandsFg => [HandsFgStep(parts, ch)]
    case Eyes => First(Eyes, ch.eyes)
    case Mouth => First(Mouth, ch.mouth)
    case Glasses => if ch.glasses.Some? then First(Glasses, ch.glasses.value) else []
    case HairFg => if ch.hair.Some? then Layers(HairFg, ch.hair.value.fg, Some(Paint(IsMax, ch.hairColour)), true) else []
  }

  /**
   * The groups of all parts in draw order: group k holds exactly the steps
   * of the part of rank k.
   */
  function Segments(parts: BodyParts, ch: Choice): (segs: seq<seq<Step>>)
    requires JittersInRange(ch)
    ensures |segs| == 17
    ensures forall k :: 0 <= k < 17 ==> segs[k] == Group(parts, ch, PartAt(k))
  {
    seq(17, k requires 0 <= k < 17 => Group(parts, ch, PartAt(k)))
  }

  /**
   * How many groups run before an `IndexError` on `fg[0]` stops the run:
   * eyes (rank 13), mouth (14), glasses when present (15).
   */
  function Reach(ch: Choice): (n: nat)
    ensures Rank(Eyes) <= n <= 17 && n != Rank(HairFg)
    ensures n > Rank(Eyes) <==> |ch.eyes.fg| > 0
    ensures n > Rank(Mouth) <==> |ch.eyes.fg| > 0 && |ch.mouth.fg| > 0
    ensures n == 17 <==>
      |ch.eyes.fg| > 0 && |ch.mouth.fg| > 0 && (ch.glasses.Some? ==> |ch.glasses.value.fg| > 0)
  {
    if |ch.eyes.fg| == 0 then 13
    else if |ch.mouth.fg| == 0 then 14
    else if ch.glasses.Some? && |ch.glasses.value.fg| == 0 then 15
    else 17
  }

  /** Groups flattened in order. */
  function Concat(segs: seq<seq<Step>>): seq<Step>
  {
    if segs == [] then [] else Concat(segs[..|segs| - 1]) + segs[|segs| - 1]
  }

  /**
   * The drawing of `generate`. A truthy hat, jewellery, item or pin flag
   * makes `get_hat()[0]` (and its siblings) index a variant dict with 0,
   * which raises after everything else has been drawn.
   */
  function Plan(parts: BodyParts, ch: Choice): (d: Draft)
    requires JittersInRange(ch)
    ensures d.failure == Some(MissingLayer) <==>
      |ch.eyes.fg| == 0 || |ch.mouth.fg| == 0 || (ch.glasses.Some? && |ch.glasses.value.fg| == 0)
    ensures d.failure.None? <==>
      |ch.eyes.fg| > 0 && |ch.mouth.fg| > 0 && (ch.glasses.Some? ==> |ch.glasses.value.fg| > 0)
      && !ch.hasHat && !ch.hasJewellery && !ch.hasItem && !ch.hasPin
    ensures d.failure.Some? ==> d.failure.value in {MissingLayer, OverlayLookup}
    ensures ch.hasItem ==> d.failure.Some?
  {
    var n := Reach(ch);
    Draft(Concat(Segments(parts, ch)[..n]),
          if n < 17 then Some(MissingLayer)
          else if ch.hasHat || ch.hasJewellery || ch.hasItem || ch.hasPin then Some(OverlayLookup)
          else None)
  }

  // ---------------------------------------------------------------------------
  // Flattening

  lemma {:induction false} ConcatMember(segs: seq<seq<Step>>, s: Step)
    ensures s in Concat(segs) <==> exists k :: 0 <= k < |segs| && s in segs[k]
  {
    if segs != [] {
      var init := segs[..|segs| - 1];
      ConcatMember(init, s);
      if s in Concat(init) {
        var k :| 0 <= k < |init| && s in init[k];
        assert segs[k] == init[k];
      }
      if exists k :: 0 <= k < |segs| && s in segs[k] {
        var k :| 0 <= k < |segs| && s in segs[k];
        if k < |init| { assert init[k] == segs[k]; }
      }
    }
  }

  /** Step `x` is drawn before step `y`: an earlier part, or a lower layer of the same part. */
  predicate Before(x: Step, y: Step) {
    Rank(x.part) < Rank(y.part) || (Rank(x.part) == Rank(y.part) && x.pos < y.pos)
  }

  /**
   * The steps never go back in the draw order, and no layer of a part is
   * drawn twice.
   */
  ghost predicate Ordered(steps: seq<Step>) {
    forall i, j :: 0 <= i < j < |steps| ==> Before(steps[i], steps[j])
  }

  lemma {:induction false} ConcatOrdered(segs: seq<seq<Step>>)
    requires forall k, s :: 0 <= k < |segs| && s in segs[k] ==> Rank(s.part) == k
    requires forall k, i :: 0 <= k < |segs| && 0 <= i < |segs[k]| ==> segs[k][i].pos == i
    ensures Ordered(Concat(segs))
    ensures forall s :: s in Concat(segs) ==> Rank(s.part) < |segs|
  {
    if segs != [] {
      var n := |segs| - 1;
      var init := segs[..n];
      assert forall k :: 0 <= k < n ==> init[k] == segs[k];
      ConcatOrdered(init);
      var a: seq<Step>, b: seq<Step> := Concat(init), segs[n];
      forall i: int, j: int | 0 <= i < j < |a + b| ensures Before((a + b)[i], (a + b)[j]) {
        if j >= |a| && i < |a| {
          assert a[i] in a;
          assert b[j - |a|] in segs[n];
        } else if i >= |a| {
          assert b[i - |a|] in segs[n] && b[j - |a|] in segs[n];
          assert b[i - |a|].pos == i - |a| && b[j - |a|].pos == j - |a|;
        }
      }
      forall s | s in Concat(segs) ensures Rank(s.part) < |segs| {
        if s !in a { assert s in segs[n]; }
      }
    }
  }

  /** Every step of a plan comes from the group of its part's rank. */
  lemma StepInItsGroup(parts: BodyParts, ch: Choice, s: Step)
    requires JittersInRange(ch)
    requires s in Plan(parts, ch).steps
    ensures Rank(s.part) < Reach(ch)
    ensures s in Group(parts, ch, s.part)
  {
    var segs := Segments(parts, ch)[..Reach(ch)];
    ConcatMember(segs, s);
    var k :| 0 <= k < |segs| && s in segs[k];
    assert segs[k] == Segments(parts, ch)[k];
  }

  /** Conversely, every step of a group the run reaches is drawn. */
  lemma GroupDrawn(parts: BodyParts, ch: Choice, p: Part, s: Step)
    requires JittersInRange(ch)
    requires Rank(p) < Reach(ch) && s in Group(parts, ch, p)
    ensures s in Plan(parts, ch).steps
  {
    var segs := Segments(parts, ch)[..Reach(ch)];
    assert segs[Rank(p)] == Group(parts, ch, PartAt(Rank(p)));
    PartAtRank(p);
    assert s in segs[Rank(p)];
    ConcatMember(segs, s);
  }

  // ---------------------------------------------------------------------------
  // Draw-order facts

  /** Steps are drawn in the fixed back-to-front order of the parts. */
  lemma PlanFollowsDrawOrder(parts: BodyParts, ch: Choice)
    requires JittersInRange(ch)
    ensures Ordered(Plan(parts, ch).steps)
  {
    var segs := Segments(parts, ch)[..Reach(ch)];
    forall k: int, s: Step | 0 <= k < |segs| && s in segs[k] ensures Rank(s.part) == k {
      assert segs[k] == Segments(parts, ch)[k];
    }
    forall k: int, i: int | 0 <= k < |segs| && 0 <= i < |segs[k]| ensures segs[k][i].pos == i {
      assert segs[k] == Group(parts, ch, PartAt(k));
      GroupPositions(parts, ch, PartAt(k));
    }
    ConcatOrdered(segs);
  }

  /** The e-th step of a group draws layer e of its part. */
  lemma GroupPositions(parts: BodyParts, ch: Choice, p: Part)
    requires JittersInRange(ch)
    ensures forall e :: 0 <= e < |Group(parts, ch, p)| ==> Group(parts, ch, p)[e].pos == e
  {
  }

  /** The first two groups, then the rest. */
  lemma {:induction false} ConcatFront(segs: seq<seq<Step>>)
    requires |segs| >= 2
    ensures Concat(segs) == segs[0] + (segs[1] + Concat(segs[2..]))
    decreases |segs|
  {
    var n := |segs|;
    var init := segs[..n - 1];
    if n == 2 {
      assert init[..0] == [] && segs[2..] == [];
      assert Concat(init) == segs[0];
    } else {
      ConcatFront(init);
      assert init[0] == segs[0] && init[1] == segs[1];
      assert segs[2..][..|segs[2..]| - 1] == init[2..];
      assert Concat(segs[2..]) == Concat(init[2..]) + segs[n - 1];
    }
  }

  /** The plan split after its first two groups. */
  lemma PlanFront(parts: BodyParts, ch: Choice)
    requires JittersInRange(ch)
    ensures Plan(parts, ch).steps ==
      HairBgSteps(ch) + ([BodyStep(parts, ch)] + Concat(Segments(parts, ch)[..Reach(ch)][2..]))
  {
    var segs := Segments(parts, ch)[..Reach(ch)];
    ConcatFront(segs);
    assert segs[0] == Group(parts, ch, HairBg) && segs[1] == Group(parts, ch, Body);
  }

  /** The plan is the background hair, then the body step, then the rest. */
  lemma PlanStartsWithHairThenBody(parts: BodyParts, ch: Choice)
    requires JittersInRange(ch)
    ensures |Plan(parts, ch).steps| > |HairBgSteps(ch)|
    ensures var steps := Plan(parts, ch).steps;
      var k := |HairBgSteps(ch)|;
      steps[..k] == HairBgSteps(ch) && steps[k] == BodyStep(parts, ch)
  {
    PlanFront(parts, ch);
    var steps, hair, body := Plan(parts, ch).steps, HairBgSteps(ch), BodyStep(parts, ch);
    assert steps[..|hair|] == hair && steps[|hair|] == body;
  }

  /**
   * The body step is the only step of the body and the only one that
   * replaces the canvas; every other step pastes.
   */
  lemma OnlyBodyReplaces(parts: BodyParts, ch: Choice)
    requires JittersInRange(ch)
    ensures forall s :: s in Plan(parts, ch).steps ==> (s.op == Replace <==> s.part == Body)
    ensures forall s :: s in Plan(parts, ch).steps && s.part == Body ==> s == BodyStep(parts, ch)
  {
    forall s | s in Plan(parts, ch).steps
      ensures s.op == Replace <==> s.part == Body
      ensures s.part == Body ==> s == BodyStep(parts, ch)
    {
      StepInItsGroup(parts, ch, s);
    }
  }

  /**
   * What the background hair pastes onto the canvas is thrown away: the
   * final store and canvas are those of running the plan from the body step
   * on ANY starting canvas, with only the hair's recolour kept in the store.
   */
  lemma BodyDiscardsBackgroundHair(parts: BodyParts, ch: Choice, st: Snapshot, c: seq<Pixel>, blend: (Pixel, Pixel) -> Pixel)
    requires JittersInRange(ch)
    requires Fits(st, Plan(parts, ch).steps)
    requires |c| == |st.canvas|
    ensures |Plan(parts, ch).steps| > |HairBgSteps(ch)|
    ensures var steps := Plan(parts, ch).steps;
      var k := |HairBgSteps(ch)|;
      var mid := Run(st, steps[..k], blend);
      Fits(Snapshot(mid.store, c), steps[k..])
      && Run(st, steps, blend) == Run(Snapshot(mid.store, c), steps[k..], blend)
  {
    PlanStartsWithHairThenBody(parts, ch);
    var steps := Plan(parts, ch).steps;
    var k := |HairBgSteps(ch)|;
    ReplaceDiscardsEarlierPastes(st, steps, k, c, blend);
  }

  /** Right after the body step the canvas is the body row recoloured with the skin colour. */
  lemma BodyStepCanvas(parts: BodyParts, ch: Choice, st: Snapshot, blend: (Pixel, Pixel) -> Pixel)
    requires Fits(st, [BodyStep(parts, ch)])
    ensures Run(st, [BodyStep(parts, ch)], blend).canvas == Recolour(st.store[parts.body], IsPositive, ch.skin)
  {
    assert [BodyStep(parts, ch)][..0] == [];
  }

  /**
   * The hands branch on `has_item`: item hands recoloured where `== 255`,
   * default hands where `> 0`, each followed by its own foreground.
   */
  lemma HandsFollowItemFlag(parts: BodyParts, ch: Choice)
    requires JittersInRange(ch)
    ensures HandsBgStep(parts, ch) in Plan(parts, ch).steps
    ensures HandsFgStep(parts, ch) in Plan(parts, ch).steps
    ensures forall s :: s in Plan(parts, ch).steps && s.part == HandsBg ==>
      if ch.hasItem then s.layer == parts.handsItemBg && s.paint == Some(Paint(IsMax, ch.skin))
      else s.layer == parts.handsBg && s.paint == Some(Paint(IsPositive, ch.skin))
    ensures forall s :: s in Plan(parts, ch).steps && s.part == HandsFg ==>
      s.paint == None && s.layer == if ch.hasItem then parts.handsItemFg else parts.handsFg
  {
    GroupDrawn(parts, ch, HandsBg, HandsBgStep(parts, ch));
    GroupDrawn(parts, ch, HandsFg, HandsFgStep(parts, ch));
    forall s | s in Plan(parts, ch).steps && s.part in {HandsBg, HandsFg}
      ensures s == (if s.part == HandsBg then HandsBgStep(parts, ch) else HandsFgStep(parts, ch))
    {
      StepInItsGroup(parts, ch, s);
    }
  }

  /**
   * Trousers: every background layer is recoloured with the one derived
   * colour (shirt colour + j, clamped to [10, 250]); foreground layers are
   * pasted as they are.
   */
  lemma TrouserLayers(parts: BodyParts, ch: Choice)
    requires JittersInRange(ch)
    ensures forall s :: s in Plan(parts, ch).steps && s.part == TrouserBg ==>
      s.pos < |ch.trouser.Bg()| && s.layer == ch.trouser.Bg()[s.pos]
      && s.paint == Some(Paint(IsMax, TrouserColour(ch.shirtColour, ch.trouserJitter)))
    ensures forall s :: s in Plan(parts, ch).steps && s.part == TrouserFg ==>
      s.pos < |ch.trouser.fg| && s.layer == ch.trouser.fg[s.pos] && s.paint == None
    ensures forall e :: 0 <= e < |ch.trouser.Bg()| ==>
      Step(TrouserBg, e, ch.trouser.Bg()[e], Some(Paint(IsMax, TrouserColour(ch.shirtColour, ch.trouserJitter))), Blit) in Plan(parts, ch).steps
    ensures forall e :: 0 <= e < |ch.trouser.fg| ==>
      Step(TrouserFg, e, ch.trouser.fg[e], None, Blit) in Plan(parts, ch).steps
  {
    forall s | s in Plan(parts, ch).steps && s.part in {TrouserBg, TrouserFg}
      ensures s in Group(parts, ch, s.part)
    {
      StepInItsGroup(parts, ch, s);
    }
    forall e | 0 <= e < |ch.trouser.Bg()|
      ensures Step(TrouserBg, e, ch.trouser.Bg()[e], Some(Paint(IsMax, TrouserColour(ch.shirtColour, ch.trouserJitter))), Blit) in Plan(parts, ch).steps
    {
      var s := Step(TrouserBg, e, ch.trouser.Bg()[e], Some(Paint(IsMax, TrouserColour(ch.shirtColour, ch.trouserJitter))), Blit);
      assert s == Group(parts, ch, TrouserBg)[e];
      GroupDrawn(parts, ch, TrouserBg, s);
    }
    forall e | 0 <= e < |ch.trouser.fg|
      ensures Step(TrouserFg, e, ch.trouser.fg[e], None, Blit) in Plan(parts, ch).steps
    {
      var s := Step(TrouserFg, e, ch.trouser.fg[e], None, Blit);
      assert s == Group(parts, ch, TrouserFg)[e];
      GroupDrawn(parts, ch, TrouserFg, s);
    }
  }

  /** Beard: only the first foreground layer is recoloured, with hair colour + b capped at 254. */
  lemma BeardLayers(parts: BodyParts, ch: Choice)
    requires JittersInRange(ch)
    ensures forall s :: s in Plan(parts, ch).steps && s.part == BeardFg ==>
      ch.beard.Some? && s.pos < |ch.beard.value.fg| && s.layer == ch.beard.value.fg[s.pos]
      && s.paint == if s.pos == 0 then Some(Paint(IsMax, BeardColour(ch.hairColour, ch.beardJitter))) else None
    ensures ch.beard.Some? ==> forall e :: 0 <= e < |ch.beard.value.fg| ==>
      Step(BeardFg, e, ch.beard.value.fg[e], if e == 0 then Some(Paint(IsMax, BeardColour(ch.hairColour, ch.beardJitter))) else None, Blit)
        in Plan(parts, ch).steps
  {
    forall s | s in Plan(parts, ch).steps && s.part == BeardFg
      ensures s in Group(parts, ch, s.part)
    {
      StepInItsGroup(parts, ch, s);
    }
    if ch.beard.Some? {
      var fg := ch.beard.value.fg;
      var paint := Some(Paint(IsMax, BeardColour(ch.hairColour, ch.beardJitter)));
      forall e | 0 <= e < |fg|
        ensures Step(BeardFg, e, fg[e], if e == 0 then paint else None, Blit) in Plan(parts, ch).steps
      {
        var s := Step(BeardFg, e, fg[e], if e == 0 then paint else None, Blit);
        assert s == Group(parts, ch, BeardFg)[e];
        GroupDrawn(parts, ch, BeardFg, s);
      }
    }
  }

  /** Hair: only the first background and the first foreground layer are recoloured. */
  lemma HairLayers(parts: BodyParts, ch: Choice)
    requires JittersInRange(ch)
    ensures forall s :: s in Plan(parts, ch).steps && s.part == HairBg ==>
      ch.hair.Some? && s.pos < |ch.hair.value.Bg()| && s.layer == ch.hair.value.Bg()[s.pos]
      && s.paint == if s.pos == 0 then Some(Paint(IsMax, ch.hairColour)) else None
    ensures forall s :: s in Plan(parts, ch).steps && s.part == HairFg ==>
      ch.hair.Some? && s.pos < |ch.hair.value.fg| && s.layer == ch.hair.value.fg[s.pos]
      && s.paint == if s.pos == 0 then Some(Paint(IsMax, ch.hairColour)) else None
    ensures ch.hair.Some? ==> forall e :: 0 <= e < |ch.hair.value.Bg()| ==>
      Step(HairBg, e, ch.hair.value.Bg()[e], if e == 0 then Some(Paint(IsMax, ch.hairColour)) else None, Blit)
        in Plan(parts, ch).steps
    ensures ch.hair.Some? && Reach(ch) == 17 ==> forall e :: 0 <= e < |ch.hair.value.fg| ==>
      Step(HairFg, e, ch.hair.value.fg[e], if e == 0 then Some(Paint(IsMax, ch.hairColour)) else None, Blit)
        in Plan(parts, ch).steps
  {
    forall s | s in Plan(parts, ch).steps && s.part in {HairBg, HairFg}
      ensures s in Group(parts, ch, s.part)
    {
      StepInItsGroup(parts, ch, s);
    }
    if ch.hair.Some? {
      var paint := Some(Paint(IsMax, ch.hairColour));
      var bg := ch.hair.value.Bg();
      forall e | 0 <= e < |bg|
        ensures Step(HairBg, e, bg[e], if e == 0 then paint else None, Blit) in Plan(parts, ch).steps
      {
        var s := Step(HairBg, e, bg[e], if e == 0 then paint else None, Blit);
        assert s == Group(parts, ch, HairBg)[e];
        GroupDrawn(parts, ch, HairBg, s);
      }
      if Reach(ch) == 17 {
        var fg := ch.hair.value.fg;
        forall e | 0 <= e < |fg|
          ensures Step(HairFg, e, fg[e], if e == 0 then paint else None, Blit) in Plan(parts, ch).steps
        {
          var s := Step(HairFg, e, fg[e], if e == 0 then paint else None, Blit);
          assert s == Group(parts, ch, HairFg)[e];
          GroupDrawn(parts, ch, HairFg, s);
        }
      }
    }
  }

  /**
   * Eyes, mouth and glasses paste only `fg[0]`, unrecoloured, and glasses
   * appear only when their flag is truthy.
   */
  lemma FaceLayers(parts: BodyParts, ch: Choice)
    requires JittersInRange(ch)
    ensures forall s :: s in Plan(parts, ch).steps && s.part == Eyes ==>
      |ch.eyes.fg| > 0 && s == Step(Eyes, 0, ch.eyes.fg[0], None, Blit)
    ensures forall s :: s in Plan(parts, ch).steps && s.part == Mouth ==>
      |ch.mouth.fg| > 0 && s == Step(Mouth, 0, ch.mouth.fg[0], None, Blit)
    ensures forall s :: s in Plan(parts, ch).steps && s.part == Glasses ==>
      ch.glasses.Some? && |ch.glasses.value.fg| > 0 && s == Step(Glasses, 0, ch.glasses.value.fg[0], None, Blit)
  {
    forall s | s in Plan(parts, ch).steps && s.part in {Eyes, Mouth, Glasses}
      ensures s in Group(parts, ch, s.part)
    {
      StepInItsGroup(parts, ch, s);
    }
  }

  /**
   * Conversely, `fg[0]` of the eyes, the mouth and the chosen glasses is
   * pasted whenever the run gets that far.
   */
  lemma FaceDrawn(parts: BodyParts, ch: Choice)
    requires JittersInRange(ch)
    ensures |ch.eyes.fg| > 0 ==> Step(Eyes, 0, ch.eyes.fg[0], None, Blit) in Plan(parts, ch).steps
    ensures |ch.eyes.fg| > 0 && |ch.mouth.fg| > 0 ==> Step(Mouth, 0, ch.mouth.fg[0], None, Blit) in Plan(parts, ch).steps
    ensures Reach(ch) == 17 && ch.glasses.Some? ==>
      Step(Glasses, 0, ch.glasses.value.fg[0], None, Blit) in Plan(parts, ch).steps
  {
    if |ch.eyes.fg| > 0 {
      EyesDrawn(parts, ch);
      if |ch.mouth.fg| > 0 {
        MouthDrawn(parts, ch);
      }
    }
    if Reach(ch) == 17 && ch.glasses.Some? {
      GlassesDrawn(parts, ch);
    }
  }

  lemma EyesDrawn(parts: BodyParts, ch: Choice)
    requires JittersInRange(ch) && |ch.eyes.fg| > 0
    ensures Step(Eyes, 0, ch.eyes.fg[0], None, Blit) in Plan(parts, ch).steps
  {
    GroupDrawn(parts, ch, Eyes, Step(Eyes, 0, ch.eyes.fg[0], None, Blit));
  }

  lemma MouthDrawn(parts: BodyParts, ch: Choice)
    requires JittersInRange(ch) && |ch.eyes.fg| > 0 && |ch.mouth.fg| > 0
    ensures Step(Mouth, 0, ch.mouth.fg[0], None, Blit) in Plan(parts, ch).steps
  {
    GroupDrawn(parts, ch, Mouth, Step(Mouth, 0, ch.mouth.fg[0], None, Blit));
  }

  lemma GlassesDrawn(parts: BodyParts, ch: Choice)
    requires JittersInRange(ch) && Reach(ch) == 17 && ch.glasses.Some?
    ensures Step(Glasses, 0, ch.glasses.value.fg[0], None, Blit) in Plan(parts, ch).steps
  {
    GroupDrawn(parts, ch, Glasses, Step(Glasses, 0, ch.glasses.value.fg[0], None, Blit));
  }

  /**
   * The fixed body parts are always drawn, each exactly as one step: the
   * arms, the head recoloured `> 0` with the skin colour, the chin and the
   * feet.
   */
  lemma FixedPartsDrawn(parts: BodyParts, ch: Choice)
    requires JittersInRange(ch)
    ensures Step(Arms, 0, parts.arms, None, Blit) in Plan(parts, ch).steps
    ensures Step(Head, 0, parts.head, Some(Paint(IsPositive, ch.skin)), Blit) in Plan(parts, ch).steps
    ensures Step(Chin, 0, parts.chin, None, Blit) in Plan(parts, ch).steps
    ensures Step(Feet, 0, parts.feet, None, Blit) in Plan(parts, ch).steps
    ensures forall s :: s in Plan(parts, ch).steps ==>
      (s.part == Arms ==> s == Step(Arms, 0, parts.arms, None, Blit)) &&
      (s.part == Head ==> s == Step(Head, 0, parts.head, Some(Paint(IsPositive, ch.skin)), Blit)) &&
      (s.part == Chin ==> s == Step(Chin, 0, parts.chin, None, Blit)) &&
      (s.part == Feet ==> s == Step(Feet, 0, parts.feet, None, Blit))
  {
    forall s | s in Plan(parts, ch).steps
      ensures s.part == Arms ==> s == Step(Arms, 0, parts.arms, None, Blit)
      ensures s.part == Head ==> s == Step(Head, 0, parts.head, Some(Paint(IsPositive, ch.skin)), Blit)
      ensures s.part == Chin ==> s == Step(Chin, 0, parts.chin, None, Blit)
      ensures s.part == Feet ==> s == Step(Feet, 0, parts.feet, None, Blit)
    {
      StepInItsGroup(parts, ch, s);
    }
    GroupDrawn(parts, ch, Arms, Step(Arms, 0, parts.arms, None, Blit));
    GroupDrawn(parts, ch, Head, Step(Head, 0, parts.head, Some(Paint(IsPositive, ch.skin)), Blit));
    GroupDrawn(parts, ch, Chin, Step(Chin, 0, parts.chin, None, Blit));
    GroupDrawn(parts, ch, Feet, Step(Feet, 0, parts.feet, None, Blit));
  }

  /**
   * The shirt is always drawn, and only so: every bg layer recoloured
   * `== 255` with the shirt colour, then every fg layer unrecoloured.
   */
  lemma ShirtDrawn(parts: BodyParts, ch: Choice)
    requires JittersInRange(ch)
    ensures forall e :: 0 <= e < |ch.shirt.Bg()| ==>
      Step(ShirtBg, e, ch.shirt.Bg()[e], Some(Paint(IsMax, ch.shirtColour)), Blit) in Plan(parts, ch).steps
    ensures forall e :: 0 <= e < |ch.shirt.fg| ==>
      Step(ShirtFg, e, ch.shirt.fg[e], None, Blit) in Plan(parts, ch).steps
    ensures forall s :: s in Plan(parts, ch).steps && s.part == ShirtBg ==>
      s.pos < |ch.shirt.Bg()| && s == Step(ShirtBg, s.pos, ch.shirt.Bg()[s.pos], Some(Paint(IsMax, ch.shirtColour)), Blit)
    ensures forall s :: s in Plan(parts, ch).steps && s.part == ShirtFg ==>
      s.pos < |ch.shirt.fg| && s == Step(ShirtFg, s.pos, ch.shirt.fg[s.pos], None, Blit)
  {
    forall s | s in Plan(parts, ch).steps && (s.part == ShirtBg || s.part == ShirtFg)
      ensures s.part == ShirtBg ==>
        s.pos < |ch.shirt.Bg()| && s == Step(ShirtBg, s.pos, ch.shirt.Bg()[s.pos], Some(Paint(IsMax, ch.shirtColour)), Blit)
      ensures s.part == ShirtFg ==>
        s.pos < |ch.shirt.fg| && s == Step(ShirtFg, s.pos, ch.shirt.fg[s.pos], None, Blit)
    {
      StepInItsGroup(parts, ch, s);
      var g := Group(parts, ch, s.part);
      var i :| 0 <= i < |g| && g[i] == s;
    }
    forall e | 0 <= e < |ch.shirt.Bg()|
      ensures Step(ShirtBg, e, ch.shirt.Bg()[e], Some(Paint(IsMax, ch.shirtColour)), Blit) in Plan(parts, ch).steps
    {
      var s := Step(ShirtBg, e, ch.shirt.Bg()[e], Some(Paint(IsMax, ch.shirtColour)), Blit);
      assert s == Group(parts, ch, ShirtBg)[e];
      GroupDrawn(parts, ch, ShirtBg, s);
    }
    forall e | 0 <= e < |ch.shirt.fg|
      ensures Step(ShirtFg, e, ch.shirt.fg[e], None, Blit) in Plan(parts, ch).steps
    {
      var s := Step(ShirtFg, e, ch.shirt.fg[e], None, Blit);
      assert s == Group(parts, ch, ShirtFg)[e];
      GroupDrawn(parts, ch, ShirtFg, s);
    }
  }

  /** A run of `Layers` over rows of the store draws only rows of the store. */
  lemma LayersInStore(part: Part, ids: seq<LayerId>, paint: Option<Paint>, firstOnly: bool, rows: nat)
    requires forall id :: id in ids ==> id < rows
    ensures InStore(Layers(part, ids, paint, firstOnly), rows)
  {
    var g := Layers(part, ids, paint, firstOnly);
    forall s | s in g ensures s.layer < rows {
      var e :| 0 <= e < |g| && g[e] == s;
      assert ids[e] in ids;
    }
  }

  /** Each group draws only rows of the store. */
  lemma GroupInStore(parts: BodyParts, ch: Choice, p: Part, rows: nat)
    requires JittersInRange(ch) && PartsFit(parts, rows) && ChoiceFits(ch, rows)
    ensures InStore(Group(parts, ch, p), rows)
  {
    match p
    case HairBg =>
      if ch.hair.Some? { LayersInStore(HairBg, ch.hair.value.Bg(), Some(Paint(IsMax, ch.hairColour)), true, rows); }
    case TrouserBg =>
      LayersInStore(TrouserBg, ch.trouser.Bg(), Some(Paint(IsMax, TrouserColour(ch.shirtColour, ch.trouserJitter))), false, rows);
    case TrouserFg => LayersInStore(TrouserFg, ch.trouser.fg, None, false, rows);
    case ShirtBg => LayersInStore(ShirtBg, ch.shirt.Bg(), Some(Paint(IsMax, ch.shirtColour)), false, rows);
    case ShirtFg => LayersInStore(ShirtFg, ch.shirt.fg, None, false, rows);
    case BeardFg =>
      if ch.beard.Some? {
        LayersInStore(BeardFg, ch.beard.value.fg, Some(Paint(IsMax, BeardColour(ch.hairColour, ch.beardJitter))), true, rows);
      }
    case HairFg =>
      if ch.hair.Some? { LayersInStore(HairFg, ch.hair.value.fg, Some(Paint(IsMax, ch.hairColour)), true, rows); }
    case Eyes => if |ch.eyes.fg| > 0 { assert ch.eyes.fg[0] in ch.eyes.fg; }
    case Mouth => if |ch.mouth.fg| > 0 { assert ch.mouth.fg[0] in ch.mouth.fg; }
    case Glasses =>
      if ch.glasses.Some? && |ch.glasses.value.fg| > 0 { assert ch.glasses.value.fg[0] in ch.glasses.value.fg; }
    case _ =>
  }

  /** A plan built from layers of the store only draws rows of the store. */
  lemma PlanInStore(parts: BodyParts, ch: Choice, rows: nat)
    requires JittersInRange(ch) && PartsFit(parts, rows) && ChoiceFits(ch, rows)
    ensures InStore(Plan(parts, ch).steps, rows)
  {
    forall s | s in Plan(parts, ch).steps ensures s.layer < rows {
      StepInItsGroup(parts, ch, s);
      GroupInStore(parts, ch, s.part, rows);
    }
  }
}
