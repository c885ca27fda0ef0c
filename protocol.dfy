/** The in-place buffer-ownership protocol of a CUDA in-place image filter,
    on values.

    A `Filter` is everything the protocol reads or changes: the two image
    types fixed by the template arguments, the user's in-place intent, the
    modification time the set macros bump, the input slots (each naming an
    image object), the output's bulk data, the mark that this cycle grafted
    its first input, and the memory. The pipeline drives one update cycle as
    `ReleaseInputs(GenerateData(f, op))`: allocate the output (grafting the
    first input when running in place), compute into it, release inputs. */
module InPlaceProtocol {
  import opened Images

  datatype Filter = Filter(
    inputType: ImageType,
    outputType: ImageType,
    inPlace: bool,
    mtime: nat,
    inputs: seq<ImageId>,
    output: Option<BufferId>,
    grafted: bool,
    store: Store)

  /** Every slot names an image object in memory, and the output's block is
      in memory. */
  predicate Valid(f: Filter)
  {
    && WellFormed(f.store)
    && (forall i :: 0 <= i < |f.inputs| ==> f.inputs[i] in f.store.images)
    && (f.output.Some? ==> f.output.value in f.store.pixels)
  }

  /** The bulk data of the image object in slot `i`. */
  function InputBulk(f: Filter, i: nat): Option<BufferId>
    requires Valid(f) && i < |f.inputs|
  {
    f.store.images[f.inputs[i]].bulk
  }

  /** Everything but the in-place intent and the modification time. */
  predicate SameExceptIntent(f: Filter, g: Filter)
  {
    && f.inputType == g.inputType && f.outputType == g.outputType
    && f.inputs == g.inputs && f.output == g.output
    && f.grafted == g.grafted && f.store == g.store
  }

  // ---------------------------------------------------------------------
  // In-place policy

  /** `SetInPlace(b)`: stores the intent; the modification time advances
      only when the value changes. */
  function SetInPlace(f: Filter, b: bool): (r: Filter)
    ensures r.inPlace == b && SameExceptIntent(f, r)
    ensures r.mtime > f.mtime <==> f.inPlace != b
    ensures r.mtime >= f.mtime
  {
    if f.inPlace == b then f else f.(inPlace := b, mtime := f.mtime + 1)
  }

  /** Default eligibility: the input and output image types are the same
      type, so `typeid` finds them equal. */
  function CanRunInPlace(input: ImageType, output: ImageType): (r: bool)
    ensures r <==> && input.imageClass == output.imageClass
                   && input.pixelType == output.pixelType
                   && input.dimension == output.dimension
  {
    input == output
  }

  /** The filter really runs in place: the user asked for it and the image
      types allow it. */
  predicate RunsInPlace(f: Filter)
    ensures RunsInPlace(f) ==> f.inPlace && f.inputType == f.outputType
    ensures !f.inPlace ==> !RunsInPlace(f)
  {
    f.inPlace && CanRunInPlace(f.inputType, f.outputType)
  }

  /** Running in place, and the image object in the first slot has bulk
      data to hand over. */
  predicate WillGraft(f: Filter)
    requires Valid(f)
    ensures WillGraft(f) ==> RunsInPlace(f) && |f.inputs| > 0 && InputBulk(f, 0).Some?
    ensures RunsInPlace(f) && |f.inputs| > 0 && InputBulk(f, 0).Some? ==> WillGraft(f)
  {
    RunsInPlace(f) && |f.inputs| > 0 && InputBulk(f, 0).Some?
  }

  /** Connecting input images (`SetNthInput` of the superclass): the
      modification time advances only when the slots change. */
  function SetInputs(f: Filter, ins: seq<ImageId>): (r: Filter)
    ensures r.inputs == ins && r.inPlace == f.inPlace
    ensures r == f.(inputs := ins, mtime := r.mtime)
    ensures r.mtime > f.mtime <==> f.inputs != ins
    ensures r.mtime >= f.mtime
  {
    if f.inputs == ins then f else f.(inputs := ins, mtime := f.mtime + 1)
  }

  // ---------------------------------------------------------------------
  // Buffer ownership transfer

  /** `AllocateOutputs()`: grafts the first input's bulk data onto the output
      when the filter runs in place, otherwise allocates a new block. */
  function AllocateOutputs(f: Filter): (r: Filter)
    requires Valid(f)
    ensures Valid(r)
    ensures r.output.Some?
    ensures r.inputs == f.inputs && r.inPlace == f.inPlace && r.mtime == f.mtime
    ensures r.inputType == f.inputType && r.outputType == f.outputType
    ensures r.store.images == f.store.images
    ensures r.store.pixels.Keys >= f.store.pixels.Keys
    ensures forall b :: b in f.store.pixels ==> r.store.pixels[b] == f.store.pixels[b]
  {
    if WillGraft(f) then
      f.(output := InputBulk(f, 0), grafted := true)
    else
      var alloc := AllocateBlock(f.store, []);
      f.(output := Some(alloc.0), grafted := false, store := alloc.1)
  }

  /** The opaque compute step: the output's block receives `op` applied to
      the first input's pixels. On the in-place path both are one block, and
      the input's data is overwritten. */
  function Compute(f: Filter, op: seq<Pixel> -> seq<Pixel>): (r: Filter)
    requires Valid(f)
    ensures Valid(r)
    ensures r.inputs == f.inputs && r.output == f.output && r.grafted == f.grafted
    ensures r.inPlace == f.inPlace && r.mtime == f.mtime
    ensures r.inputType == f.inputType && r.outputType == f.outputType
    ensures r.store.images == f.store.images
    ensures r.store.next == f.store.next && r.store.pixels.Keys == f.store.pixels.Keys
    ensures forall b :: b in f.store.pixels && Some(b) != f.output ==> r.store.pixels[b] == f.store.pixels[b]
  {
    if f.output.Some? && |f.inputs| > 0 && InputBulk(f, 0).Some? then
      var source := f.store.pixels[InputBulk(f, 0).value];
      f.(store := Overwrite(f.store, f.output.value, op(source)))
    else
      f
  }

  /** `GenerateData()` of a CUDA filter: it calls `AllocateOutputs()` itself,
      then computes. */
  function GenerateData(f: Filter, op: seq<Pixel> -> seq<Pixel>): (r: Filter)
    requires Valid(f)
    ensures Valid(r)
    ensures r.inputs == f.inputs && r.inPlace == f.inPlace
    ensures r.store.images == f.store.images
  {
    Compute(AllocateOutputs(f), op)
  }

  // ---------------------------------------------------------------------
  // Release step

  /** One step of the generic policy: image object `id` drops its bulk data
      if its ReleaseDataFlag is set. */
  function ReleaseIfFlagged(s: Store, id: ImageId): (r: Store)
    requires WellFormed(s) && id in s.images
    ensures WellFormed(r) && r.images.Keys == s.images.Keys
  {
    if s.images[id].releaseDataFlag then ReleaseImage(s, id) else s
  }

  /** The generic release policy over the slots `slots`: every image object
      in a slot whose ReleaseDataFlag is set drops its bulk data; every
      other image object, and every block, stays as it was. */
  function ReleaseFlagged(slots: seq<ImageId>, s: Store): (r: Store)
    requires WellFormed(s)
    requires forall i :: 0 <= i < |slots| ==> slots[i] in s.images
    ensures WellFormed(r)
    ensures r.pixels == s.pixels && r.next == s.next && r.nextImage == s.nextImage
    ensures r.images.Keys == s.images.Keys
    ensures forall id :: id in s.images ==>
              r.images[id] == if id in slots && s.images[id].releaseDataFlag then Released(s.images[id]) else s.images[id]
    decreases |slots|
  {
    if slots == [] then s else ReleaseFlagged(slots[1..], ReleaseIfFlagged(s, slots[0]))
  }

  /** `ReleaseInputs()`: the generic policy, and in addition the image
      object in the first slot when this cycle grafted it onto the output.
      The pending mark is cleared. */
  function ReleaseInputs(f: Filter): (r: Filter)
    requires Valid(f)
    ensures Valid(r)
    ensures r.inputs == f.inputs && !r.grafted
    ensures r.output == f.output && r.store.pixels == f.store.pixels && r.store.next == f.store.next
    ensures r.inPlace == f.inPlace && r.mtime == f.mtime
    ensures r.inputType == f.inputType && r.outputType == f.outputType
    ensures r.store.images.Keys == f.store.images.Keys
    ensures forall id :: id in f.store.images ==>
              r.store.images[id] ==
                if (id in f.inputs && f.store.images[id].releaseDataFlag) || (f.grafted && |f.inputs| > 0 && id == f.inputs[0])
                then Released(f.store.images[id])
                else f.store.images[id]
  {
    var generic := ReleaseFlagged(f.inputs, f.store);
    var s := if f.grafted && |f.inputs| > 0 then ReleaseImage(generic, f.inputs[0]) else generic;
    f.(store := s, grafted := false)
  }

  /** One whole update cycle, as the pipeline drives it. */
  function Update(f: Filter, op: seq<Pixel> -> seq<Pixel>): (r: Filter)
    requires Valid(f)
    ensures Valid(r)
  {
    ReleaseInputs(GenerateData(f, op))
  }

  // ---------------------------------------------------------------------
  // Properties of the policy

  /** Setting the intent and reading it back gives what was set; setting it
      again changes nothing at all. */
  lemma SetInPlaceIdempotent(f: Filter, b: bool)
    ensures SetInPlace(SetInPlace(f, b), b) == SetInPlace(f, b)
    ensures SetInPlace(f, b).inPlace == b
    ensures f.inPlace == b ==> SetInPlace(f, b) == f
  {
  }

  /** Same pixel type and same dimension are necessary to run in place, and
      the default template argument (output type = input type) is always
      eligible. */
  lemma CanRunInPlaceNeedsSamePixelAndDimension(input: ImageType, output: ImageType)
    ensures CanRunInPlace(input, output) ==> input.pixelType == output.pixelType && input.dimension == output.dimension
    ensures CanRunInPlace(input, input)
  {
  }

  /** Same pixel type and dimension are not sufficient: two different image
      classes over `float` in two dimensions have different `typeid`s. */
  lemma DifferentImageClassesAreIneligible()
    ensures !CanRunInPlace(ImageType("Image", "float", 2), ImageType("OrientedImage", "float", 2))
  {
  }

  /** Asking for in-place operation is effective only together with
      eligibility: the cycle grafts exactly when the intent is set, the types
      allow it and the first input holds bulk data. */
  lemma GraftsExactlyWhenEffective(f: Filter)
    requires Valid(f)
    ensures AllocateOutputs(f).grafted <==> f.inPlace && CanRunInPlace(f.inputType, f.outputType) && |f.inputs| > 0 && InputBulk(f, 0).Some?
    ensures AllocateOutputs(f).grafted ==> AllocateOutputs(f).output == InputBulk(f, 0)
  {
  }

  /** Requesting in-place operation of an ineligible filter is no error: it
      falls back to a new block, distinct from every block in memory. */
  lemma IneligibleRequestFallsBack(f: Filter)
    requires Valid(f) && f.inPlace && !CanRunInPlace(f.inputType, f.outputType)
    ensures !AllocateOutputs(f).grafted
    ensures AllocateOutputs(f).output.value !in f.store.pixels
  {
  }

  /** On the in-place path the output refers to the first input's block and
      nothing is allocated. */
  lemma InPlaceAllocationSharesInput(f: Filter)
    requires Valid(f) && WillGraft(f)
    ensures AllocateOutputs(f).output == InputBulk(f, 0)
    ensures AllocateOutputs(f).store == f.store
  {
  }

  /** Off the in-place path the output gets a new block that no image object
      holds, and every existing block keeps its pixels. */
  lemma FreshAllocationIsDistinct(f: Filter)
    requires Valid(f) && !WillGraft(f)
    ensures var r := AllocateOutputs(f);
      && r.output.value !in f.store.pixels
      && (forall id :: id in f.store.images ==> !Holds(f.store.images[id], r.output.value))
      && (forall b :: b in f.store.pixels ==> r.store.pixels[b] == f.store.pixels[b])
  {
  }

  /** After an in-place cycle: the output holds the first input's block,
      whose pixels are now `op` of its old pixels, nothing was allocated,
      the first input's image object (in every slot it fills) no longer
      holds the block, and any other image object holds it exactly when it
      did before and was not released by the generic policy. */
  lemma InPlaceCycle(f: Filter, op: seq<Pixel> -> seq<Pixel>)
    requires Valid(f) && WillGraft(f)
    ensures var b := InputBulk(f, 0).value;
      var r := Update(f, op);
      && r.output == Some(b)
      && r.store.next == f.store.next
      && b in r.store.pixels && r.store.pixels[b] == op(f.store.pixels[b])
      && r.inputs == f.inputs
      && !Holds(r.store.images[f.inputs[0]], b)
      && (forall i :: 0 <= i < |f.inputs| && f.inputs[i] == f.inputs[0] ==> InputBulk(r, i) == None)
      && (forall id :: id in f.store.images && id != f.inputs[0] ==>
            (Holds(r.store.images[id], b) <==>
               Holds(f.store.images[id], b) && !(id in f.inputs && f.store.images[id].releaseDataFlag)))
  {
  }

  /** After an in-place cycle in which the first input's image object was
      the only image object holding the block, the output is the block's
      sole holder. */
  lemma InPlaceOutputSoleOwner(f: Filter, op: seq<Pixel> -> seq<Pixel>)
    requires Valid(f) && WillGraft(f)
    requires forall id :: id in f.store.images && id != f.inputs[0] ==> f.store.images[id].bulk != InputBulk(f, 0)
    ensures var r := Update(f, op);
      && r.output == InputBulk(f, 0)
      && forall id :: id in r.store.images ==> r.store.images[id].bulk != r.output
  {
    InPlaceCycle(f, op);
  }

  /** After a cycle that did not run in place: the output holds a new block
      carrying `op` of the first input's pixels, every block that existed
      before keeps its pixels (the input's data is untouched), and an image
      object drops its bulk data exactly when it fills a slot and its
      ReleaseDataFlag is set. */
  lemma FreshCycle(f: Filter, op: seq<Pixel> -> seq<Pixel>)
    requires Valid(f) && !WillGraft(f) && |f.inputs| > 0 && InputBulk(f, 0).Some?
    ensures var r := Update(f, op);
      && r.output.Some? && r.output.value !in f.store.pixels
      && r.output.value in r.store.pixels
      && r.store.pixels[r.output.value] == op(f.store.pixels[InputBulk(f, 0).value])
      && (forall b :: b in f.store.pixels ==> b in r.store.pixels && r.store.pixels[b] == f.store.pixels[b])
      && r.store.images.Keys == f.store.images.Keys
      && (forall id :: id in f.store.images ==>
            r.store.images[id].bulk ==
              if id in f.inputs && f.store.images[id].releaseDataFlag then None else f.store.images[id].bulk)
  {
  }
}
