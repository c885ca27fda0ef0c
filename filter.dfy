/** `CudaInPlaceImageFilter`: the base class of CUDA filters that may
    overwrite their first input to produce their output.

    The object's state is its in-place intent (`m_InPlace`), the modification
    time its set macro bumps, the input slots and the output's bulk data it
    receives from its `ImageToImageFilter` superclass, and the mark that the
    current cycle grafted its first input. Image objects and their bulk data
    live in a `Memory` shared with the rest of the pipeline; a slot names an
    image object, so one object may fill several slots. Every method is specified by the
    transition of `InPlaceProtocol` it performs on `State()`; the properties
    of those transitions are proved there. */
module CudaInPlace {
  import opened Images
  import Protocol = InPlaceProtocol

  class CudaInPlaceImageFilter {
    /** The template arguments `TInputImage` and `TOutputImage`. */
    const inputType: ImageType
    const outputType: ImageType
    const memory: Memory

    var inPlace: bool
    var mtime: nat
    var inputs: seq<ImageId>
    var output: Option<BufferId>
    var grafted: bool

    function State(): Protocol.Filter
      reads this, memory
    {
      Protocol.Filter(inputType, outputType, inPlace, mtime, inputs, output, grafted, memory.Contents())
    }

    ghost predicate Valid()
      reads this, memory
    {
      Protocol.Valid(State())
    }

    /** A new filter with no inputs and no output data; in-place operation is
        requested from the start. */
    constructor (inputType: ImageType, outputType: ImageType, memory: Memory)
      requires memory.Valid()
      ensures Valid()
      ensures this.inputType == inputType && this.outputType == outputType && this.memory == memory
      ensures inPlace && mtime == 0 && inputs == [] && output == None && !grafted
    {
      this.inputType, this.outputType, this.memory := inputType, outputType, memory;
      inPlace, mtime, inputs, output, grafted := true, 0, [], None, false;
    }

    /** The intent last set. */
    function GetInPlace(): (r: bool)
      reads this
      ensures r == inPlace
    {
      inPlace
    }

    /** Whether the first input and the output have the same image type:
        same image class, pixel type and dimension. A query that changes
        nothing. */
    function CanRunInPlace(): (r: bool)
      ensures r <==> && inputType.imageClass == outputType.imageClass
                     && inputType.pixelType == outputType.pixelType
                     && inputType.dimension == outputType.dimension
    {
      Protocol.CanRunInPlace(inputType, outputType)
    }

    method SetInPlace(b: bool)
      requires Valid()
      modifies this`inPlace, this`mtime
      ensures Valid()
      ensures State() == Protocol.SetInPlace(old(State()), b)
      ensures GetInPlace() == b
    {
      if inPlace != b {
        inPlace, mtime := b, mtime + 1;
      }
    }

    method InPlaceOn()
      requires Valid()
      modifies this`inPlace, this`mtime
      ensures Valid()
      ensures State() == Protocol.SetInPlace(old(State()), true)
      ensures GetInPlace()
    {
      SetInPlace(true);
    }

    method InPlaceOff()
      requires Valid()
      modifies this`inPlace, this`mtime
      ensures Valid()
      ensures State() == Protocol.SetInPlace(old(State()), false)
      ensures !GetInPlace()
    {
      SetInPlace(false);
    }

    /** Connects the input image objects (`SetNthInput` of the
        superclass, which calls `Modified()` when a slot changes). */
    method SetInputs(images: seq<ImageId>)
      requires Valid()
      requires forall i :: 0 <= i < |images| ==> images[i] in memory.images
      modifies this`inputs, this`mtime
      ensures Valid()
      ensures State() == Protocol.SetInputs(old(State()), images)
    {
      if inputs != images {
        inputs, mtime := images, mtime + 1;
      }
    }

    /** Grafts the first input's bulk data onto the output when running in
        place; otherwise gives the output a new block. */
    method AllocateOutputs()
      requires Valid()
      modifies this`output, this`grafted, memory
      ensures Valid()
      ensures State() == Protocol.AllocateOutputs(old(State()))
    {
      if inPlace && CanRunInPlace() && |inputs| > 0 && memory.images[inputs[0]].bulk.Some? {
        output, grafted := memory.images[inputs[0]].bulk, true;
      } else {
        var b := memory.Allocate([]);
        output, grafted := Some(b), false;
      }
    }

    /** Allocates the output, then lets `op` compute it from the first
        input's pixels. */
    method GenerateData(op: seq<Pixel> -> seq<Pixel>)
      requires Valid()
      modifies this`output, this`grafted, memory
      ensures Valid()
      ensures State() == Protocol.GenerateData(old(State()), op)
    {
      AllocateOutputs();
      if output.Some? && |inputs| > 0 && memory.images[inputs[0]].bulk.Some? {
        var source := memory.pixels[memory.images[inputs[0]].bulk.value];
        memory.Write(output.value, op(source));
      }
    }

    /** The generic policy (`ProcessObject::ReleaseInputs`): releases every
        input image object whose ReleaseDataFlag is set. */
    method ReleaseFlaggedInputs()
      requires Valid()
      modifies memory
      ensures Valid()
      ensures memory.Contents() == Protocol.ReleaseFlagged(inputs, old(memory.Contents()))
    {
      ghost var s0 := memory.Contents();
      var i := 0;
      while i < |inputs|
        invariant 0 <= i <= |inputs|
        invariant Valid()
        invariant Protocol.ReleaseFlagged(inputs[i..], memory.Contents()) == Protocol.ReleaseFlagged(inputs, s0)
      {
        assert inputs[i..][1..] == inputs[i + 1..];
        if memory.images[inputs[i]].releaseDataFlag {
          memory.Release(inputs[i]);
        }
        i := i + 1;
      }
    }

    /** Releases every input image object whose ReleaseDataFlag is set,
        and the first input's image object too when this cycle overwrote
        it. */
    method ReleaseInputs()
      requires Valid()
      modifies this`grafted, memory
      ensures Valid()
      ensures State() == Protocol.ReleaseInputs(old(State()))
      ensures forall id :: id in old(memory.images) ==>
                memory.images[id] ==
                  if (id in inputs && old(memory.images[id].releaseDataFlag)) || (old(grafted) && |inputs| > 0 && id == inputs[0])
                  then Released(old(memory.images[id]))
                  else old(memory.images[id])
    {
      ReleaseFlaggedInputs();
      if grafted && |inputs| > 0 {
        memory.Release(inputs[0]);
      }
      grafted := false;
    }

    /** One update of this filter as the pipeline drives it: generate the
        data, then release the inputs. */
    method Update(op: seq<Pixel> -> seq<Pixel>)
      requires Valid()
      modifies this`output, this`grafted, memory
      ensures Valid()
      ensures State() == Protocol.Update(old(State()), op)
    {
      GenerateData(op);
      ReleaseInputs();
    }
  }

  function AddOne(s: seq<Pixel>): (r: seq<Pixel>)
    ensures |r| == |s| && forall i :: 0 <= i < |s| ==> r[i] == s[i] + 1
  {
    seq(|s|, i requires 0 <= i < |s| => s[i] + 1)
  }

  /** A 4x4 single-channel image of fives, run in place through a filter
      that adds one: the output is the input's block, now all sixes, and the
      input image object no longer holds it. */
  method AddOneInPlace() returns (filter: CudaInPlaceImageFilter, b: BufferId)
    ensures filter.output == Some(b)
    ensures b in filter.memory.pixels && filter.memory.pixels[b] == seq(16, _ => 6)
    ensures |filter.inputs| == 1 && filter.inputs[0] in filter.memory.images
    ensures filter.memory.images[filter.inputs[0]].bulk == None
  {
    var memory := new Memory();
    b := memory.Allocate(seq(16, _ => 5));
    var source := memory.NewImage(Image(Some(b), false));
    var imageType := ImageType("Image", "float", 2);
    filter := new CudaInPlaceImageFilter(imageType, imageType, memory);
    filter.SetInputs([source]);
    filter.InPlaceOn();
    ghost var before := filter.State();
    filter.Update(AddOne);
    Protocol.InPlaceCycle(before, AddOne);
  }
}
