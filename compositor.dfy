/**
 * The compositor: a draw step recolours one layer of the store in place
 * (optionally) and then pastes it onto the canvas, or makes it the canvas.
 * `Run` is the meaning of a sequence of steps on a snapshot of the store
 * and the canvas; `Execute` performs the steps on the arrays.
 */
module Compositor {
  import opened Common
  import opened Raster
  import opened Catalog

  /** Which part of the figure a step draws. */
  datatype Part =
    | HairBg | Body | Arms | TrouserBg | TrouserFg | ShirtBg | ShirtFg | Head | Chin
    | BeardFg | Feet | HandsBg | HandsFg | Eyes | Mouth | Glasses | HairFg

  /** The position of a part in the fixed back-to-front draw order of `generate`. */
  function Rank(p: Part): nat {
    match p
    case HairBg => 0
    case Body => 1
    case Arms => 2
    case TrouserBg => 3
    case TrouserFg => 4
    case ShirtBg => 5
    case ShirtFg => 6
    case Head => 7
    case Chin => 8
    case BeardFg => 9
    case Feet => 10
    case HandsBg => 11
    case HandsFg => 12
    case Eyes => 13
    case Mouth => 14
    case Glasses => 15
    case HairFg => 16
  }

  /** A recolour: the marker convention and the target colour. */
  datatype Paint = Paint(marker: Marker, colour: Color)

  /** `avatar.paste(layer, (0, 0), layer)` or `avatar = Image.fromarray(layer)`. */
  datatype Op = Blit | Replace

  /**
   * One draw step: `pos` is the `e` of `enumerate` over the variant's list
   * (0 for a single body part), `layer` the store row drawn.
   */
  datatype Step = Step(part: Part, pos: nat, layer: LayerId, paint: Option<Paint>, op: Op)

  /** The layer store and the canvas at one moment. */
  datatype Snapshot = Snapshot(store: seq<seq<Pixel>>, canvas: seq<Pixel>)

  /** Every row has the canvas's size. */
  predicate WellSized(st: Snapshot) {
    forall i :: 0 <= i < |st.store| ==> |st.store[i]| == |st.canvas|
  }

  /** Every step names an existing row. */
  predicate InStore(steps: seq<Step>, rows: nat) {
    forall s :: s in steps ==> s.layer < rows
  }

  predicate Fits(st: Snapshot, steps: seq<Step>) {
    WellSized(st) && InStore(steps, |st.store|)
  }

  predicate SameShape(a: Snapshot, b: Snapshot) {
    |a.store| == |b.store| && |a.canvas| == |b.canvas| && WellSized(a)
  }

  /** The store after a step's recolour, if it has one. */
  function Recoloured(store: seq<seq<Pixel>>, s: Step): (r: seq<seq<Pixel>>)
    requires s.layer < |store|
    ensures |r| == |store|
    ensures forall i :: 0 <= i < |store| && i != s.layer ==> r[i] == store[i]
    ensures r[s.layer] == if s.paint.Some? then Recolour(store[s.layer], s.paint.value.marker, s.paint.value.colour) else store[s.layer]
  {
    match s.paint
    case None => store
    case Some(p) => store[s.layer := Recolour(store[s.layer], p.marker, p.colour)]
  }

  /** One step: recolour in place, then paste (or replace the canvas with) the recoloured row. */
  function Apply(st: Snapshot, s: Step, blend: (Pixel, Pixel) -> Pixel): (r: Snapshot)
    requires Fits(st, [s])
    ensures SameShape(r, st)
    ensures r.store == Recoloured(st.store, s)
    ensures r.canvas == if s.op == Replace then r.store[s.layer] else Paste(st.canvas, r.store[s.layer], blend)
  {
    var store := Recoloured(st.store, s);
    Snapshot(store, if s.op == Replace then store[s.layer] else Paste(st.canvas, store[s.layer], blend))
  }

  /** The steps applied in order. */
  function Run(st: Snapshot, steps: seq<Step>, blend: (Pixel, Pixel) -> Pixel): (r: Snapshot)
    requires Fits(st, steps)
    ensures SameShape(r, st)
    decreases |steps|
  {
    if steps == [] then st
    else
      var prev := Run(st, steps[..|steps| - 1], blend);
      Apply(prev, steps[|steps| - 1], blend)
  }

  /** A prefix of a plan that names only store rows names only store rows. */
  lemma InStorePrefix(steps: seq<Step>, rows: nat, k: nat)
    requires InStore(steps, rows) && k <= |steps|
    ensures InStore(steps[..k], rows)
  {
    forall s | s in steps[..k] ensures s.layer < rows {
      var i :| 0 <= i < k && steps[..k][i] == s;
      assert s == steps[i];
    }
  }

  /** Running `a` then `b` is running `a + b`. */
  lemma {:induction false} RunAppend(st: Snapshot, a: seq<Step>, b: seq<Step>, blend: (Pixel, Pixel) -> Pixel)
    requires Fits(st, a + b)
    ensures Fits(st, a) && Fits(Run(st, a, blend), b)
    ensures Run(st, a + b, blend) == Run(Run(st, a, blend), b, blend)
    decreases |b|
  {
    assert (a + b)[..|a|] == a;
    InStorePrefix(a + b, |st.store|, |a|);
    forall s | s in b ensures s.layer < |st.store| {
      assert s in a + b;
    }
    if b != [] {
      var n := |b| - 1;
      assert (a + b)[..|a + b| - 1] == a + b[..n];
      assert (a + b)[|a + b| - 1] == b[n];
      InStorePrefix(a + b, |st.store|, |a| + n);
      RunAppend(st, a, b[..n], blend);
      var mid := Run(st, a, blend);
      assert Run(st, a + b, blend) == Apply(Run(st, a + b[..n], blend), b[n], blend);
      assert Run(mid, b, blend) == Apply(Run(mid, b[..n], blend), b[n], blend);
    } else {
      assert a + b == a;
    }
  }

  /**
   * The store never depends on the canvas: recolours read and write rows
   * only.
   */
  lemma {:induction false} StoreIgnoresCanvas(store: seq<seq<Pixel>>, c1: seq<Pixel>, c2: seq<Pixel>, steps: seq<Step>, blend: (Pixel, Pixel) -> Pixel)
    requires |c1| == |c2|
    requires Fits(Snapshot(store, c1), steps)
    ensures Fits(Snapshot(store, c2), steps)
    ensures Run(Snapshot(store, c1), steps, blend).store == Run(Snapshot(store, c2), steps, blend).store
    decreases |steps|
  {
    if steps != [] {
      InStorePrefix(steps, |store|, |steps| - 1);
      StoreIgnoresCanvas(store, c1, c2, steps[..|steps| - 1], blend);
    }
  }

  /**
   * A sequence that starts with a `Replace` step forgets the canvas it
   * starts from: whatever was pasted before is discarded.
   */
  lemma {:induction false} ReplaceForgetsCanvas(store: seq<seq<Pixel>>, c1: seq<Pixel>, c2: seq<Pixel>, steps: seq<Step>, blend: (Pixel, Pixel) -> Pixel)
    requires |c1| == |c2|
    requires Fits(Snapshot(store, c1), steps)
    requires |steps| > 0 && steps[0].op == Replace
    ensures Fits(Snapshot(store, c2), steps)
    ensures Run(Snapshot(store, c1), steps, blend) == Run(Snapshot(store, c2), steps, blend)
    decreases |steps|
  {
    StoreIgnoresCanvas(store, c1, c2, steps, blend);
    if |steps| > 1 {
      InStorePrefix(steps, |store|, |steps| - 1);
      ReplaceForgetsCanvas(store, c1, c2, steps[..|steps| - 1], blend);
    } else {
      assert steps[..0] == [];
    }
  }

  /**
   * Everything pasted before a `Replace` step is lost: only its recolours,
   * kept in the store, reach the final result.
   */
  lemma ReplaceDiscardsEarlierPastes(st: Snapshot, steps: seq<Step>, k: nat, c: seq<Pixel>, blend: (Pixel, Pixel) -> Pixel)
    requires Fits(st, steps) && k < |steps| && steps[k].op == Replace && |c| == |st.canvas|
    ensures Fits(st, steps[..k])
    ensures Fits(Snapshot(Run(st, steps[..k], blend).store, c), steps[k..])
    ensures Run(st, steps, blend) == Run(Snapshot(Run(st, steps[..k], blend).store, c), steps[k..], blend)
  {
    assert steps == steps[..k] + steps[k..];
    RunAppend(st, steps[..k], steps[k..], blend);
    var mid := Run(st, steps[..k], blend);
    ReplaceForgetsCanvas(mid.store, mid.canvas, c, steps[k..], blend);
  }

  /** Performs the steps on the store and a canvas, in place. */
  method Execute(layers: array2<Pixel>, canvas0: array<Pixel>, steps: seq<Step>, blend: (Pixel, Pixel) -> Pixel)
    returns (canvas: array<Pixel>)
    requires canvas0.Length == layers.Length1
    requires InStore(steps, layers.Length0)
    modifies layers, canvas0
    ensures canvas == canvas0 || fresh(canvas)
    ensures Fits(old(Snapshot(Rows(layers), canvas0[..])), steps)
    ensures Snapshot(Rows(layers), canvas[..]) == Run(old(Snapshot(Rows(layers), canvas0[..])), steps, blend)
  {
    ghost var init := Snapshot(Rows(layers), canvas0[..]);
    canvas := canvas0;
    for i := 0 to |steps|
      invariant canvas.Length == layers.Length1
      invariant canvas == canvas0 || fresh(canvas)
      invariant Fits(init, steps[..i])
      invariant Snapshot(Rows(layers), canvas[..]) == Run(init, steps[..i], blend)
    {
      InStorePrefix(steps, layers.Length0, i + 1);
      assert steps[..i + 1][..i] == steps[..i] && steps[..i + 1][i] == steps[i];
      var s := steps[i];
      assert s in steps;
      ghost var prev := Snapshot(Rows(layers), canvas[..]);
      if s.paint.Some? {
        RecolourRow(layers, s.layer, s.paint.value.marker, s.paint.value.colour);
      }
      assert Rows(layers) == Recoloured(prev.store, s);
      if s.op == Replace {
        canvas := CopyRow(layers, s.layer);
      } else {
        PasteRow(canvas, layers, s.layer, blend);
      }
      assert Snapshot(Rows(layers), canvas[..]) == Apply(prev, s, blend);
    }
    assert steps[..|steps|] == steps;
  }
}
