# South Park avatar generator: a verified model

This project models the core of `SouthParkAvatarGenerator` in Dafny. It covers four parts:

- **Trait selection.** `set_property` and the `set_*` wrappers pick colours, garments and optional traits from catalogues. An `int` index inside the catalogue forces the choice; any other index falls back to a random draw.
- **Catalogue reading.** `read_single_pngs` splits every variant folder into a `'fg'` list and, when some file name contains "bg", a `'bg'` list.
- **Recolouring.** Layers are recoloured in place. Channels 0-2 are each tested on their own against a marker (`== 255` or `> 0`) and overwritten with the target colour; alpha is never touched. Trousers and beard use derived colours with their jitters and clamps.
- **Drawing.** `generate` composites the avatar in a fixed back-to-front order of recolour-then-paste steps.

The loaded images live in one layer store, an `array2<Pixel>` with one row per loaded RGBA layer and one column per pixel of the flattened image. Body parts and catalogue variants hold row numbers.

A recolour writes into the store, exactly as the numpy masked assignments write into the shared buffers. So a recolour persists for every later paste and for every later `generate` call. `Compositor.Run` gives the meaning of a sequence of draw steps on a snapshot of the store and the canvas. `Compositor.Execute` performs those steps on the arrays with loops and is proved to agree with `Run`. `DrawOrder.Plan` is the sequence of steps `generate` performs and the exception it ends with, if any.

Randomness is an input:

- every `np.random.choice` is a position `draw` in range;
- the two `randint` offsets are integers in their ranges.

`paste` is an abstract per-pixel `blend` function, so the canvas keeps its size.

Recolours write into the shared buffers, not into copies. So once a `== 255` layer has been recoloured with a colour that has no 255 channel, later recolours leave it unchanged (`Raster.RecolourMaxSettles`).

## Model

| member | source | states |
|---|---|---|
| Selector.Select | southParkAvatarGenerator.py:142-155 | An `int` index in `[0, len)` returns that entry. Any other index (absent, `bool`, out of range, not an `int`) returns the drawn entry. The result is always an entry of the catalogue. An empty catalogue raises. |
| Selector.ForcedSelectionIgnoresDraw | southParkAvatarGenerator.py:149-150 | With an index in range, the random draw has no effect. |
| Selector.BoolIndexIsRandom | southParkAvatarGenerator.py:149-152 | A `bool` index (`True`/`False`) never forces the choice; it takes the random branch. |
| Selector.OutOfRangeIsRandom | southParkAvatarGenerator.py:149-152 | A negative or too-large index takes the random branch. |
| Catalog.ReadSinglePngs | southParkAvatarGenerator.py:157-170 | One variant dict per folder, in listing order. Each dict is the bg/fg partition of its folder's files. |
| Catalog.ReadFolder | southParkAvatarGenerator.py:161-169 | The inner loop builds exactly the bg/fg partition of one folder. The `'bg'` list is created at the first bg file. |
| Catalog.ContainsBg | southParkAvatarGenerator.py:163 | The `'bg' in img` test holds exactly when some position of the name starts "bg". |
| Catalog.Partition | southParkAvatarGenerator.py:161-168 | The dict built for one folder. A `'bg'` list is present only when it is non-empty. The two lists together hold every image of the folder exactly once. |
| Catalog.BgKeyIffSomeBgName | southParkAvatarGenerator.py:160-166 | The `'bg'` key exists exactly when some file name contains "bg". |
| Catalog.PartitionSplitsFiles | southParkAvatarGenerator.py:161-168 | Every file lands in exactly one of the two lists. Together the lists hold each image once. |
| Catalog.ImagesComeFromTheirKind | southParkAvatarGenerator.py:163-168 | Every image in the bg (fg) list comes from a file whose name does (does not) contain "bg". |
| Raster.RecolourPixel | southParkAvatarGenerator.py:243-245 | Channels 0-2 are tested independently: a channel that meets the marker takes the target's channel, every other channel is unchanged, and alpha is unchanged. |
| Raster.Recolour | southParkAvatarGenerator.py:251-253 | A whole layer is recoloured pixel by pixel, and its length is kept. |
| Raster.RecolourMixedPixel | southParkAvatarGenerator.py:243-245 | A pixel (255, 100, 255, a) under `== 255` gets only R and B replaced. |
| Raster.RecolourMaxSettles | southParkAvatarGenerator.py:281-283 | After a `== 255` recolour with a colour without a 255 channel, any later `== 255` recolour of the same buffer changes nothing. |
| Raster.RecolourPositiveRefreshes | southParkAvatarGenerator.py:294-296 | A `> 0` layer recoloured with a positive skin colour can be recoloured again, and then ends with the second colour. |
| Raster.RecolourChannel | southParkAvatarGenerator.py:330 | One masked assignment in place: matching values of channel k of one row become v, and nothing else in the store changes. |
| Raster.RecolourRow | southParkAvatarGenerator.py:330-332 | The three masked assignments: the row becomes its recolour, and every other row is unchanged. |
| Raster.Paste | southParkAvatarGenerator.py:247 | `paste` combines each canvas pixel with the layer pixel at the same position, and keeps the size. |
| Raster.PasteRow | southParkAvatarGenerator.py:258 | Pasting a store row onto the canvas array in place gives `Paste` of the old canvas and the row. |
| Raster.CopyRow | southParkAvatarGenerator.py:254 | `Image.fromarray(body)` is a fresh canvas holding the row. |
| Palette.TrouserChannel | southParkAvatarGenerator.py:266-268 | `max(min(shirt + j, 250), 10)` is in [10, 250], equals `shirt + j` inside that range, and is 250 above it and 10 below it. |
| Palette.TrouserColour | southParkAvatarGenerator.py:262-268 | One offset j for all three channels, each clamped to [10, 250]. |
| Palette.BeardChannel | southParkAvatarGenerator.py:315-317 | `min(hair + b, 254)` for b in [0, 49] is at most 254, and equals `hair + b` when that is at most 254. |
| Palette.BeardColour | southParkAvatarGenerator.py:312-317 | One offset b for all three channels, each capped at 254. |
| Palette.DerivedColoursSettle | southParkAvatarGenerator.py:262-268 | Trouser and beard colours never have a 255 channel, so their layers keep their first colour in every later call. |
| Palette.SkinColoursArePositive | southParkAvatarGenerator.py:14 | Every skin colour is positive in every channel, so the `> 0` mask survives each run. |
| Palette.SomePaletteColoursKeepMarkers | southParkAvatarGenerator.py:19-29 | Some hair and shirt colours have a 255 channel, so those layers still carry markers after a recolour. |
| Compositor.Recoloured | southParkAvatarGenerator.py:243-245 | A step recolours only its own row of the store. |
| Compositor.Apply | southParkAvatarGenerator.py:250-258 | One step: recolour in place, then paste the recoloured row or make it the canvas. The new store is the old one with only the step's own row recoloured. |
| Compositor.Run | southParkAvatarGenerator.py:239-392 | Running steps keeps the number and size of the rows and the canvas. |
| Compositor.RunAppend | southParkAvatarGenerator.py:239-392 | Running `a` then `b` is running `a + b`. |
| Compositor.StoreIgnoresCanvas | southParkAvatarGenerator.py:239-392 | The store after a run does not depend on the canvas. |
| Compositor.ReplaceForgetsCanvas | southParkAvatarGenerator.py:254 | Steps that start by replacing the canvas give the same result from any canvas. |
| Compositor.ReplaceDiscardsEarlierPastes | southParkAvatarGenerator.py:254 | Everything pasted before a replacing step is lost; only the recolours it made in the store remain. |
| Compositor.Execute | southParkAvatarGenerator.py:239-392 | The loop over the steps on the arrays leaves exactly the store and canvas that `Run` gives. |
| DrawOrder.Layers | southParkAvatarGenerator.py:241-247 | `for e, layer in enumerate(ids)`: step e draws `ids[e]`, recoloured unless only the first is and e > 0. |
| DrawOrder.Group | southParkAvatarGenerator.py:239-374 | Every step of a part's group belongs to that part, and only the body replaces the canvas. |
| DrawOrder.PlanFollowsDrawOrder | southParkAvatarGenerator.py:239-374 | Along the plan, each step comes from a later part, or from a later layer of the same part: the parts follow the order background hair, body, arms, trousers, shirt, head, chin, beard, feet, hands, eyes, mouth, glasses, foreground hair, and no layer is drawn twice. |
| DrawOrder.GroupDrawn | southParkAvatarGenerator.py:239-374 | Every step of a part the run reaches is in the plan. This is the converse of `StepInItsGroup`. |
| DrawOrder.FixedPartsDrawn | southParkAvatarGenerator.py:256-324 | The arms, the head recoloured `> 0` with the skin colour, the chin and the feet are always pasted, and each is the only step of its part. |
| DrawOrder.ShirtDrawn | southParkAvatarGenerator.py:279-289 | Every shirt bg layer is pasted, recoloured `== 255` with the shirt colour, and every shirt fg layer is pasted unrecoloured. These are the only shirt steps: a shirt step draws the bg or fg layer at its position with exactly that paint. |
| DrawOrder.PlanStartsWithHairThenBody | southParkAvatarGenerator.py:239-254 | The plan is the background hair steps, then the body step. |
| DrawOrder.OnlyBodyReplaces | southParkAvatarGenerator.py:249-254 | A step replaces the canvas exactly when it belongs to the body, and the body step (recoloured `> 0` with the skin colour) is the only body step. |
| DrawOrder.BodyDiscardsBackgroundHair | southParkAvatarGenerator.py:239-254 | What the background hair pastes is thrown away. The result equals running from the body step on any canvas, with only the hair's recolour kept in the store. |
| DrawOrder.BodyStepCanvas | southParkAvatarGenerator.py:250-254 | Right after the body step the canvas is the body buffer recoloured `> 0` with the skin colour. |
| DrawOrder.HandsFollowItemFlag | southParkAvatarGenerator.py:327-350 | With `has_item`, the item hands are drawn, recoloured `== 255`. Otherwise the default hands are drawn, recoloured `> 0`. Each is followed by its own foreground. |
| DrawOrder.TrouserLayers | southParkAvatarGenerator.py:261-274 | Every trouser bg layer is recoloured with the one derived colour, and fg layers are pasted without recolour. Every fg layer is drawn. |
| DrawOrder.BeardLayers | southParkAvatarGenerator.py:310-319 | Only the first beard fg layer is recoloured, with the capped beard colour. With a beard, every fg layer is drawn. |
| DrawOrder.HairLayers | southParkAvatarGenerator.py:239-247 | Only the first hair bg layer and the first hair fg layer are recoloured. With hair, every bg layer is drawn, and every fg layer is drawn when the run gets past the glasses. |
| DrawOrder.FaceLayers | southParkAvatarGenerator.py:353-363 | Eyes, mouth and glasses paste only `fg[0]`, without recolour. Glasses appear only when their flag holds. |
| DrawOrder.FaceDrawn | southParkAvatarGenerator.py:353-363 | `fg[0]` of the eyes is pasted when it exists, that of the mouth when the eyes' exists too, and that of the chosen glasses when the run gets past them. |
| DrawOrder.Reach | southParkAvatarGenerator.py:353-363 | The number of groups drawn before an `IndexError`. It is past the eyes exactly when the eyes have an fg layer, past the mouth exactly when the mouth has one too, and reaches the end exactly when the glasses, if chosen, have one as well. |
| DrawOrder.Plan | southParkAvatarGenerator.py:239-392 | The run raises `IndexError` exactly when a pasted `fg[0]` is missing. It ends without an exception exactly when nothing is missing and no overlay flag is truthy. A truthy `has_item` always raises. |
| DrawOrder.PlanInStore | southParkAvatarGenerator.py:239-374 | A plan built from store rows draws only store rows. |
| Generator.SelectIf | southParkAvatarGenerator.py:506-508 | A dependent setter returns `None` when its flag is falsy. Otherwise it returns the selection from its catalogue, the forced entry when the index forces one, or raises when the catalogue is empty. |
| Generator.SelectGarments | southParkAvatarGenerator.py:197-200 | Eyes, mouth, trouser and shirt are taken from their catalogues, with forcing indices honoured. The selection raises exactly when one of the four is empty. |
| Generator.SelectExtras | southParkAvatarGenerator.py:201-206 | Hair, glasses and beard are chosen exactly when their flag came out true, with forcing indices honoured. The selection raises exactly when a flagged catalogue is empty. |
| Generator.Resolve | southParkAvatarGenerator.py:193-206 | The traits `generate` settles on are the colour selections, the garment phase and the optional-trait phase, with the overlay flags passed through and the jitters in range. It fails exactly when one of the two phases fails. |
| Generator.ResolveDrawsFromCatalogues | southParkAvatarGenerator.py:142-155 | Every resolved trait is an entry of its palette or catalogue. |
| Generator.ResolveHonoursOverrides | southParkAvatarGenerator.py:149-150 | Every `int` index in range forces its trait, for the colours, the garments and the optional traits that are present. An optional trait is present exactly when its flag came out true. |
| Generator.ResolvedFits | southParkAvatarGenerator.py:193-206 | Traits resolved from catalogues of store rows are made of store rows. |
| Generator.AvatarGenerator.constructor | southParkAvatarGenerator.py:7-137 | Every trait field starts as `None`. |
| Generator.AvatarGenerator.SetSkinColour | southParkAvatarGenerator.py:423-424 | Stores and returns the selected skin colour. |
| Generator.AvatarGenerator.SetHairColour | southParkAvatarGenerator.py:432-433 | Stores and returns the selected hair colour. |
| Generator.AvatarGenerator.SetBeardColour | southParkAvatarGenerator.py:441-442 | Stores and returns the selected beard colour. |
| Generator.AvatarGenerator.SetShirtColour | southParkAvatarGenerator.py:450-451 | Stores and returns the selected shirt colour. |
| Generator.AvatarGenerator.SetEyes | southParkAvatarGenerator.py:460-461 | Stores the selected eyes and returns them; an empty catalogue raises and leaves the field unchanged. |
| Generator.AvatarGenerator.SetMouth | southParkAvatarGenerator.py:469-470 | The same for the mouth. |
| Generator.AvatarGenerator.SetShirt | southParkAvatarGenerator.py:478-479 | The same for the shirt. |
| Generator.AvatarGenerator.SetTrouser | southParkAvatarGenerator.py:487-488 | The same for the trousers. |
| Generator.AvatarGenerator.SetHasHair | southParkAvatarGenerator.py:497-498 | Stores and returns a flag drawn from [False, True]. |
| Generator.AvatarGenerator.SetHasGlasses | southParkAvatarGenerator.py:516-517 | The same for glasses. |
| Generator.AvatarGenerator.SetHasBeard | southParkAvatarGenerator.py:536-537 | The same for the beard. |
| Generator.AvatarGenerator.SetHasHat | southParkAvatarGenerator.py:556-557 | The same for the hat. |
| Generator.AvatarGenerator.SetHasJewellery | southParkAvatarGenerator.py:576-577 | The same for jewellery. |
| Generator.AvatarGenerator.SetHasItem | southParkAvatarGenerator.py:595-596 | The same for the item. |
| Generator.AvatarGenerator.SetHasPin | southParkAvatarGenerator.py:614-615 | The same for the pin. |
| Generator.AvatarGenerator.SetHair | southParkAvatarGenerator.py:506-508 | Selects and stores a hair only when `has_hair` is truthy. Otherwise it returns `None` and keeps the stored hair. |
| Generator.AvatarGenerator.SetGlasses | southParkAvatarGenerator.py:525-527 | The same under `has_glasses`. |
| Generator.AvatarGenerator.SetBeard | southParkAvatarGenerator.py:545-547 | The same under `has_beard`. |
| Generator.AvatarGenerator.SetHat | southParkAvatarGenerator.py:565-567 | The same under `has_hat`. |
| Generator.AvatarGenerator.SetJewellery | southParkAvatarGenerator.py:585-587 | The same under `has_jewellery`. |
| Generator.AvatarGenerator.SetItem | southParkAvatarGenerator.py:604-606 | The same under `has_item`. |
| Generator.AvatarGenerator.SetPin | southParkAvatarGenerator.py:623-625 | The same under `has_pin`. |
| Generator.AvatarGenerator.Resolved | southParkAvatarGenerator.py:378-391 | The overlay flags the drawing reads are the fields as they stand. |
| Generator.AvatarGenerator.SetColours | southParkAvatarGenerator.py:193-196 | The three colour setters, with `set_beard_colour` skipped. |
| Generator.AvatarGenerator.SetGarments | southParkAvatarGenerator.py:197-200 | The four garment setters, stopping at the first that raises. Each field holds its selection if its setter was reached and succeeded, and otherwise keeps its old value. |
| Generator.AvatarGenerator.SetExtras | southParkAvatarGenerator.py:201-206 | The three flag-and-trait pairs, stopping at the first trait setter that raises. The pairs after a raise keep their old fields. |
| Generator.AvatarGenerator.SetTraits | southParkAvatarGenerator.py:193-214 | All setters `generate` calls, in order. The result is that of `Resolve`. On success and on every failure, each field is set exactly when its setter was reached and succeeded. |
| Generator.AvatarGenerator.Draw | southParkAvatarGenerator.py:220-396 | A zero canvas, then the plan's steps on the shared store. The store ends as `Run` says, and the avatar is the canvas unless the plan raises. |
| Generator.AvatarGenerator.Generate | southParkAvatarGenerator.py:172-396 | A failed selection raises before anything is drawn or recoloured, and leaves the fields its setters reached. Otherwise the fields hold the resolved traits, the store is recoloured in place as the plan says, and the result is the avatar or the plan's exception. |

## Left out

- File and image I/O (`os.listdir`, `Image.open`, `get_body_parts`, the image paths) is not modelled. The directory listings, the decoded images and the body-part rows are inputs.
- PIL's alpha-masked `paste` arithmetic and `Image.fromarray` are not modelled. Pasting is an abstract per-pixel `blend`, and a canvas is a flat sequence of pixels.
- The `*_proba` weights and the distribution of `np.random.choice` and `randint` are not modelled. Each draw is an input position in range.
- The `getattr`/`setattr` name lookup of `set_property` is replaced by typed fields, one setter per field.
- The getters and the `has_*` query methods are not modelled: the model reads the fields directly. The `has_*` methods are shadowed by the instance fields of the same name anyway.
- The concrete 811×745 canvas size is symbolic. The commented-out thumbnail and crop, and the commented-out underware, trouser and shirt pastes, are not modelled.
- The `underware` body part is loaded but never drawn. The model keeps its row and never draws it.
- The `beard_colour`, `has_hat`, `hat`, `has_jewellery`, `jewellery`, `has_item`, `item`, `has_pin` and `pin` arguments of `generate` are ignored by the code, because their setter calls (lines 195 and 207-214) are commented out. The model's `Overrides` omits them. The overlay flags the drawing reads are the fields as earlier setter calls left them.
- The overlay branches are modelled as errors. A truthy `has_hat`, `has_jewellery`, `has_item` or `has_pin` makes `get_X()[0]` index a variant dict (or `None`) with 0, which raises after everything else is drawn. The model reports this as one `OverlayLookup` failure, without telling `KeyError` from `TypeError`.
- Every layer and the canvas have the same number of pixels: a layer is a row of the store, and `Raster.Paste` requires equal lengths. PIL's `ValueError` when a pasted image's size differs from the canvas or from its mask is not modelled. For example, background hair is pasted (line 247) onto the 811×745 zero canvas before the body replaces it, so a hair layer of another size would raise there.
- Python exceptions are a `Result` value. The process does not stop, and the caller sees `Err`.
