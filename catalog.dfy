/**
 * Trait catalogues: `read_single_pngs` turns each variant folder into a
 * dict `{'fg': [...]}`, with a `'bg'` list added the first time a file
 * whose name contains "bg" is met. The directory listings and the decoded
 * images are inputs here (`File.image`).
 */
module Catalog {
  import opened Common

  /** A handle on a loaded layer: its row in the layer store. */
  type LayerId = nat

  /** One variant dict: the optional `'bg'` list and the `'fg'` list. */
  datatype VariantOf<L> = VariantOf(bg: Option<seq<L>>, fg: seq<L>) {
    /** `variant.get('bg', [])` */
    function Bg(): seq<L> {
      bg.GetOr([])
    }
  }

  type Variant = VariantOf<LayerId>

  /** Every layer of the variant is a row of a store with `rows` rows. */
  predicate VariantFits(v: Variant, rows: nat) {
    (forall id :: id in v.Bg() ==> id < rows) && (forall id :: id in v.fg ==> id < rows)
  }

  /** One entry of a variant folder's listing, with the image loaded from it. */
  datatype File<L> = File(name: string, image: L)

  /** Python's `'bg' in name`: some position of the name starts "bg". */
  function ContainsBg(name: string): (r: bool)
    ensures r <==> exists i :: 0 <= i < |name| - 1 && name[i] == 'b' && name[i + 1] == 'g'
  {
    if |name| < 2 then false
    else if name[0] == 'b' && name[1] == 'g' then true
    else
      var rest := ContainsBg(name[1..]);
      assert rest <==> exists i :: 0 <= i < |name| - 1 && name[i] == 'b' && name[i + 1] == 'g' by {
        if exists i :: 0 <= i < |name| - 1 && name[i] == 'b' && name[i + 1] == 'g' {
          var i :| 0 <= i < |name| - 1 && name[i] == 'b' && name[i + 1] == 'g';
          assert i != 0;
          assert name[1..][i - 1] == 'b' && name[1..][i] == 'g';
        }
        if rest {
          var i :| 0 <= i < |name[1..]| - 1 && name[1..][i] == 'b' && name[1..][i + 1] == 'g';
          assert name[i + 1] == 'b' && name[i + 2] == 'g';
        }
      }
      rest
  }

  /** The images of the files whose name does (`bg`) or does not contain "bg", in listing order. */
  function Images<L>(files: seq<File<L>>, bg: bool): seq<L>
  {
    if files == [] then []
    else
      var last := files[|files| - 1];
      Images(files[..|files| - 1], bg) + (if ContainsBg(last.name) == bg then [last.image] else [])
  }

  /** All images of a folder, in listing order. */
  function AllImages<L>(files: seq<File<L>>): seq<L>
  {
    if files == [] then [] else AllImages(files[..|files| - 1]) + [files[|files| - 1].image]
  }

  /**
   * The dict the inner loop of `read_single_pngs` builds for one folder: a
   * `'bg'` list is present only when it has an image, and the two lists
   * together hold every image of the folder once.
   */
  function Partition<L>(files: seq<File<L>>): (v: VariantOf<L>)
    ensures v.bg.Some? ==> v.bg.value != []
    ensures |v.Bg()| + |v.fg| == |files|
    ensures multiset(v.Bg()) + multiset(v.fg) == multiset(AllImages(files))
  {
    PartitionSplitsFiles(files);
    var bg := Images(files, true);
    VariantOf(if bg == [] then None else Some(bg), Images(files, false))
  }

  /**
   * `read_single_pngs(obj)` once the listings are given: one variant dict per
   * folder, in listing order.
   */
  method ReadSinglePngs<L>(folders: seq<seq<File<L>>>) returns (imgs: seq<VariantOf<L>>)
    ensures |imgs| == |folders|
    ensures forall f :: 0 <= f < |folders| ==> imgs[f] == Partition(folders[f])
  {
    imgs := [];
    for f := 0 to |folders|
      invariant imgs == Partitions(folders[..f])
    {
      var v := ReadFolder(folders[f]);
      assert folders[..f + 1][..f] == folders[..f];
      imgs := imgs + [v];
    }
    assert folders[..|folders|] == folders;
    PartitionsAt(folders);
  }

  /** The dicts of the folders, in listing order. */
  function Partitions<L>(folders: seq<seq<File<L>>>): seq<VariantOf<L>>
  {
    if folders == [] then [] else Partitions(folders[..|folders| - 1]) + [Partition(folders[|folders| - 1])]
  }

  lemma {:induction false} PartitionsAt<L>(folders: seq<seq<File<L>>>)
    ensures |Partitions(folders)| == |folders|
    ensures forall f :: 0 <= f < |folders| ==> Partitions(folders)[f] == Partition(folders[f])
  {
    if folders != [] {
      var init := folders[..|folders| - 1];
      PartitionsAt(init);
      forall f | 0 <= f < |init| ensures Partitions(folders)[f] == Partition(folders[f]) {
        assert init[f] == folders[f];
      }
    }
  }

  /**
   * The inner loop of `read_single_pngs`: the dict of one folder, with the
   * `'bg'` list created at the first file whose name contains "bg".
   */
  method ReadFolder<L>(files: seq<File<L>>) returns (v: VariantOf<L>)
    ensures v == Partition(files)
  {
    var bg: Option<seq<L>> := None;
    var fg: seq<L> := [];
    for k := 0 to |files|
      invariant fg == Images(files[..k], false)
      invariant bg == if Images(files[..k], true) == [] then None else Some(Images(files[..k], true))
    {
      var img := files[k];
      ImagesSnoc(files, k, true);
      ImagesSnoc(files, k, false);
      if ContainsBg(img.name) {
        if bg.None? {
          bg := Some([]);
        }
        bg := Some(bg.value + [img.image]);
        assert bg.value == Images(files[..k + 1], true);
      } else {
        fg := fg + [img.image];
        assert Images(files[..k], true) + [] == Images(files[..k], true);
      }
    }
    assert files[..|files|] == files;
    v := VariantOf(bg, fg);
  }

  /** One more file of the listing extends the list of its kind by its image. */
  lemma ImagesSnoc<L>(files: seq<File<L>>, k: nat, bg: bool)
    requires k < |files|
    ensures Images(files[..k + 1], bg)
      == Images(files[..k], bg) + (if ContainsBg(files[k].name) == bg then [files[k].image] else [])
  {
    assert files[..k + 1][..k] == files[..k];
  }

  /** Some image goes to the bg list exactly when some file name contains "bg". */
  lemma {:induction false} SomeBgImageIffSomeBgName<L>(files: seq<File<L>>)
    ensures Images(files, true) != [] <==> exists i :: 0 <= i < |files| && ContainsBg(files[i].name)
  {
    if files != [] {
      var init := files[..|files| - 1];
      SomeBgImageIffSomeBgName(init);
      if exists i :: 0 <= i < |init| && ContainsBg(init[i].name) {
        var i :| 0 <= i < |init| && ContainsBg(init[i].name);
        assert files[i] == init[i];
      }
      if exists i :: 0 <= i < |files| && ContainsBg(files[i].name) {
        var i :| 0 <= i < |files| && ContainsBg(files[i].name);
        if i < |init| { assert init[i] == files[i]; }
      }
    }
  }

  /** The `'bg'` key is present exactly when some file name contains "bg". */
  lemma BgKeyIffSomeBgName<L>(files: seq<File<L>>)
    ensures Partition(files).bg.Some? <==> exists i :: 0 <= i < |files| && ContainsBg(files[i].name)
  {
    SomeBgImageIffSomeBgName(files);
  }

  /** Every file lands in exactly one of the two lists: together they hold each image once. */
  lemma {:induction false} PartitionSplitsFiles<L>(files: seq<File<L>>)
    ensures multiset(Images(files, true)) + multiset(Images(files, false)) == multiset(AllImages(files))
    ensures |Images(files, true)| + |Images(files, false)| == |files|
  {
    if files != [] {
      PartitionSplitsFiles(files[..|files| - 1]);
    }
  }

  /** Each image in a list comes from a file of that list's kind. */
  lemma {:induction false} ImagesComeFromTheirKind<L>(files: seq<File<L>>, bg: bool, x: L)
    requires x in Images(files, bg)
    ensures exists i :: 0 <= i < |files| && files[i].image == x && ContainsBg(files[i].name) == bg
  {
    var init := files[..|files| - 1];
    if x in Images(init, bg) {
      ImagesComeFromTheirKind(init, bg, x);
      var i :| 0 <= i < |init| && init[i].image == x && ContainsBg(init[i].name) == bg;
      assert files[i] == init[i];
    } else {
      assert files[|files| - 1].image == x;
    }
  }
}
