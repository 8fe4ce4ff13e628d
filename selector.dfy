/**
 * `set_property`: pick one entry of a catalogue, either the one a caller's
 * index names or one drawn at random.
 */
module Selector {
  import opened Common

  /**
   * The Python value passed as `index`. Only a value whose type is exactly
   * `int` can force a choice; `None`, a `bool` (whose type is `bool`, not
   * `int`) and anything else (a float, a numpy integer, ...) cannot.
   */
  datatype Index = Absent | Int(i: int) | Bool(b: bool) | Other

  /** The guard `type(index) == int and index >= 0 and index < len(proba)`. */
  predicate Forces(index: Index, n: nat) {
    index.Int? && 0 <= index.i < n
  }

  /**
   * The selection of `set_property`. `draw` is the index that
   * `np.random.choice(len(proba), 1, p=proba)[0]` would return; it is only
   * used when the index does not force the choice. On an empty catalogue
   * no index forces and `np.random.choice` raises.
   */
  function Select<T>(values: seq<T>, index: Index, draw: nat): (r: Result<T>)
    requires |values| > 0 ==> draw < |values|
    ensures r.Err? <==> |values| == 0
    ensures r.Err? ==> r.error == EmptyCatalog
    ensures r.Ok? ==> r.value in values
    ensures Forces(index, |values|) ==> r == Ok(values[index.i])
    ensures !Forces(index, |values|) && |values| > 0 ==> r == Ok(values[draw])
  {
    if Forces(index, |values|) then Ok(values[index.i])
    else if |values| == 0 then Err(EmptyCatalog)
    else Ok(values[draw])
  }

  /** A forcing index makes the selection independent of the random draw. */
  lemma ForcedSelectionIgnoresDraw<T>(values: seq<T>, i: int, draw1: nat, draw2: nat)
    requires 0 <= i < |values|
    requires draw1 < |values| && draw2 < |values|
    ensures Select(values, Int(i), draw1) == Select(values, Int(i), draw2) == Ok(values[i])
  {
  }

  /**
   * Passing `True` or `False` (as for a `has_*` flag) does not force
   * anything: the choice is the random one, as with no index at all.
   */
  lemma BoolIndexIsRandom<T>(values: seq<T>, b: bool, draw: nat)
    requires |values| > 0 ==> draw < |values|
    ensures Select(values, Bool(b), draw) == Select(values, Absent, draw)
    ensures |values| > 0 ==> Select(values, Bool(b), draw) == Ok(values[draw])
  {
  }

  /** Any index outside [0, len) falls back to the random draw. */
  lemma OutOfRangeIsRandom<T>(values: seq<T>, i: int, draw: nat)
    requires i < 0 || i >= |values|
    requires |values| > 0 ==> draw < |values|
    ensures Select(values, Int(i), draw) == Select(values, Absent, draw)
  {
  }
}
