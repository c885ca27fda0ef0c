# In-place buffer ownership of CudaInPlaceImageFilter

`CudaInPlaceImageFilter` is the base class of the CUDA-enabled ITK image
filters that can produce their output by overwriting their first input.
This project models its in-place protocol in Dafny and proves properties
of it:

- the user's in-place intent (`m_InPlace`, with `SetInPlace`, `GetInPlace`,
  `InPlaceOn` and `InPlaceOff`);
- the eligibility query `CanRunInPlace()`, which by default is true exactly
  when the input and output image types are the same type;
- `AllocateOutputs()`, which grafts the first input's bulk data onto the
  output when the filter really runs in place, and otherwise allocates a
  new block for the output;
- `ReleaseInputs()`, which releases the inputs the generic policy releases
  (those whose ReleaseDataFlag is set) and, after a graft, also the first
  input, whose data the filter overwrote.

Files:

- `images.dfy` (module `Images`): image types, image objects, bulk data
  blocks identified by `BufferId`, and the `Store` of all image objects
  (by `ImageId`) and blocks. The `Memory` class holds the store for a
  whole pipeline.
- `protocol.dfy` (module `InPlaceProtocol`): the whole filter as a value,
  `Filter`, with the transitions `SetInPlace`, `SetInputs`,
  `AllocateOutputs`, `Compute`, `GenerateData`, `ReleaseInputs` and
  `Update` as functions, and the lemmas about them.
- `filter.dfy` (module `CudaInPlace`): the class `CudaInPlaceImageFilter`.
  Its fields are the ones the source updates in place, and each method
  ensures `State() == InPlaceProtocol.X(old(State()))` for its transition
  `X`. `GetInPlace` and `CanRunInPlace` are functions, so they cannot
  change anything. The method `AddOneInPlace` is a client run: a 4x4 image
  of fives goes in place through a filter that adds one.

The pipeline superclass appears only as the caller. It connects the
inputs (`SetInputs`) and drives one update in order: `GenerateData`
(which, for a CUDA filter, calls `AllocateOutputs` itself), then
`ReleaseInputs`.

Modelling decisions:

- Only the class declaration is part of this model.
  `CudaInPlaceImageFilter.txx`, which holds the method bodies, is not. The
  model follows what the declaration and its comments state.
- An input slot names an image object, not a copy of one. When one image
  object fills several slots, releasing it empties all of them.
- An image type is its image class, pixel type and dimension.
  `CanRunInPlace` compares the two types for equality, standing in for the
  `typeid` comparison. Same pixel type and dimension are necessary, as
  `CudaInPlaceImageFilter.h:93-94` says, but not sufficient.
- The first input is grafted only when its image object holds bulk data.
  "When possible, we graft the input" (`CudaInPlaceImageFilter.h:115`).
  Otherwise the model allocates, as on the non-in-place path.
- `AllocateOutputs` records that it grafted (`grafted`). `ReleaseInputs`
  releases the first input on that record, which is "the input that it has
  overwritten". The record is cleared by the release.
- `itkSetMacro` also calls `Modified()` when the value changes, and so does
  the superclass when a slot changes. The model keeps a modification time
  `mtime` that advances only then. Setting the intent changes the flag and
  this timestamp, and nothing else. Setting it to the value it already has
  changes nothing at all.
- The header declares the constructor (`CudaInPlaceImageFilter.h:107`) but
  does not define it. The model starts with in-place operation requested,
  as ITK's `InPlaceImageFilter` does.
- A new output block's pixels are empty until the compute step writes them.

## Model

| member | source | states |
|---|---|---|
| `Images.Released` | cuda-insight-toolkit/Examples/src/Common/CudaInPlaceImageFilter.h:122-128 | an image object that releases its data holds no block afterwards and keeps its ReleaseDataFlag |
| `Images.AllocateBlock` | cuda-insight-toolkit/Examples/src/Common/CudaInPlaceImageFilter.h:112-115 | a newly allocated output block has an identity no existing block has; every existing block keeps its pixels and no image object changes |
| `Images.Overwrite` | cuda-insight-toolkit/Examples/src/Common/CudaInPlaceImageFilter.h:113-114 | writing into a block changes that block's pixels and no other block's, and no image object |
| `Images.CreateImage` | cuda-insight-toolkit/Examples/src/Common/CudaInPlaceImageFilter.h:72-74 | a new image object gets an identity no existing object has; the other objects and all blocks are unchanged |
| `Images.ReleaseImage` | cuda-insight-toolkit/Examples/src/Common/CudaInPlaceImageFilter.h:122-128 | `ReleaseData()` on one image object empties that object only; every block and every other image object is unchanged |
| `Images.Memory.Allocate` | cuda-insight-toolkit/Examples/src/Common/CudaInPlaceImageFilter.h:112-115 | the memory hands out a block that is new, as `AllocateBlock` specifies |
| `Images.Memory.Write` | cuda-insight-toolkit/Examples/src/Common/CudaInPlaceImageFilter.h:113-114 | the memory overwrites one block in place, as `Overwrite` specifies |
| `Images.Memory.NewImage` | cuda-insight-toolkit/Examples/src/Common/CudaInPlaceImageFilter.h:72-74 | the memory creates an image object, as `CreateImage` specifies |
| `Images.Memory.Release` | cuda-insight-toolkit/Examples/src/Common/CudaInPlaceImageFilter.h:122-128 | the memory releases one image object's data in place, as `ReleaseImage` specifies |
| `InPlaceProtocol.SetInPlace` | cuda-insight-toolkit/Examples/src/Common/CudaInPlaceImageFilter.h:89-91 | after setting, the intent is the value set; slots, output, memory and types are unchanged; the modification time advances exactly when the value changes |
| `InPlaceProtocol.CanRunInPlace` | cuda-insight-toolkit/Examples/src/Common/CudaInPlaceImageFilter.h:101-104 | eligible exactly when the two image types agree in image class, pixel type and dimension (the `typeid` comparison) |
| `InPlaceProtocol.RunsInPlace` | cuda-insight-toolkit/Examples/src/Common/CudaInPlaceImageFilter.h:84-88 | the filter really runs in place only when the intent is set and the input and output types are identical; never when the intent is off |
| `InPlaceProtocol.WillGraft` | cuda-insight-toolkit/Examples/src/Common/CudaInPlaceImageFilter.h:112-116 | a graft happens exactly when the filter runs in place and the first input's image object holds bulk data |
| `InPlaceProtocol.SetInputs` | cuda-insight-toolkit/Examples/src/Common/CudaInPlaceImageFilter.h:52 | connecting inputs sets the slots and nothing else but the modification time, which advances exactly when the slots change |
| `InPlaceProtocol.AllocateOutputs` | cuda-insight-toolkit/Examples/src/Common/CudaInPlaceImageFilter.h:112-120 | the output always has a block afterwards; inputs, image objects, intent and types are untouched; no existing block loses its pixels; every slot still names an image object in memory |
| `InPlaceProtocol.Compute` | cuda-insight-toolkit/Examples/src/Common/CudaInPlaceImageFilter.h:112-119 | the compute step writes only the output's block; slots, image objects and memory layout are unchanged |
| `InPlaceProtocol.GenerateData` | cuda-insight-toolkit/Examples/src/Common/CudaInPlaceImageFilter.h:118-119 | allocating and then computing keeps the slots, the image objects and the intent |
| `InPlaceProtocol.ReleaseFlagged` | cuda-insight-toolkit/Examples/src/Common/CudaInPlaceImageFilter.h:125-127 | the generic policy releases an image object exactly when it fills a slot and its ReleaseDataFlag is set; every other object and every block is unchanged |
| `InPlaceProtocol.ReleaseInputs` | cuda-insight-toolkit/Examples/src/Common/CudaInPlaceImageFilter.h:122-131 | an image object is released exactly when it fills a slot and is flagged, or it fills the first slot and this cycle grafted it; every other object, the blocks, the output and the slots are kept, and the graft mark is cleared |
| `InPlaceProtocol.Update` | cuda-insight-toolkit/Examples/src/Common/CudaInPlaceImageFilter.h:118-124 | a whole allocate, compute, release cycle leaves every slot naming an image object in memory |
| `InPlaceProtocol.SetInPlaceIdempotent` | cuda-insight-toolkit/Examples/src/Common/CudaInPlaceImageFilter.h:84-91 | set-then-get returns the value set; setting the same value twice is the same as once; setting the current value changes nothing |
| `InPlaceProtocol.CanRunInPlaceNeedsSamePixelAndDimension` | cuda-insight-toolkit/Examples/src/Common/CudaInPlaceImageFilter.h:93-104 | running in place needs the same pixel type and dimension, and the default template argument (output type = input type) is always eligible |
| `InPlaceProtocol.DifferentImageClassesAreIneligible` | cuda-insight-toolkit/Examples/src/Common/CudaInPlaceImageFilter.h:101-104 | two different image classes with the same pixel type and dimension are not eligible, because `typeid` tells them apart |
| `InPlaceProtocol.GraftsExactlyWhenEffective` | cuda-insight-toolkit/Examples/src/Common/CudaInPlaceImageFilter.h:84-88 | the cycle grafts if and only if the intent is set, `CanRunInPlace` holds and the first input holds data; when it grafts, the output is the first input's block |
| `InPlaceProtocol.IneligibleRequestFallsBack` | cuda-insight-toolkit/Examples/src/Common/CudaInPlaceImageFilter.h:84-88 | requesting in-place operation of an ineligible filter is not an error: it falls back to a new block |
| `InPlaceProtocol.InPlaceAllocationSharesInput` | cuda-insight-toolkit/Examples/src/Common/CudaInPlaceImageFilter.h:112-116 | on the in-place path the output refers to the first input's block and memory is unchanged (nothing is allocated) |
| `InPlaceProtocol.FreshAllocationIsDistinct` | cuda-insight-toolkit/Examples/src/Common/CudaInPlaceImageFilter.h:112-115 | off the in-place path the output's block is new, no image object holds it, and every existing block (the inputs' data) keeps its pixels |
| `InPlaceProtocol.InPlaceCycle` | cuda-insight-toolkit/Examples/src/Common/CudaInPlaceImageFilter.h:122-130 | after an in-place cycle the output holds the input's block with the computed pixels and nothing was allocated; the first input's image object, in every slot it fills, no longer holds the block; any other image object holds it exactly when it did before and was not released as flagged |
| `InPlaceProtocol.InPlaceOutputSoleOwner` | cuda-insight-toolkit/Examples/src/Common/CudaInPlaceImageFilter.h:122-128 | when the first input's image object was the only one holding the block, after an in-place cycle the output is its sole holder |
| `InPlaceProtocol.FreshCycle` | cuda-insight-toolkit/Examples/src/Common/CudaInPlaceImageFilter.h:112-127 | after a cycle that did not run in place, the output's new block carries the computed pixels, every pre-existing block is untouched, and an image object is released exactly when it fills a slot and is flagged |
| `CudaInPlace.CudaInPlaceImageFilter.constructor` | cuda-insight-toolkit/Examples/src/Common/CudaInPlaceImageFilter.h:107 | a new filter has its template types, no inputs, no output data and in-place requested |
| `CudaInPlace.CudaInPlaceImageFilter.GetInPlace` | cuda-insight-toolkit/Examples/src/Common/CudaInPlaceImageFilter.h:90 | a const getter returning the stored intent; `SetInPlace`, `InPlaceOn` and `InPlaceOff` ensure it then returns the value set |
| `CudaInPlace.CudaInPlaceImageFilter.CanRunInPlace` | cuda-insight-toolkit/Examples/src/Common/CudaInPlaceImageFilter.h:93-104 | a query with no effect, true exactly when first input and output have the same image class, pixel type and dimension |
| `CudaInPlace.CudaInPlaceImageFilter.SetInPlace` | cuda-insight-toolkit/Examples/src/Common/CudaInPlaceImageFilter.h:89 | `GetInPlace()` returns the value set; only the flag and the modification time may change |
| `CudaInPlace.CudaInPlaceImageFilter.InPlaceOn` | cuda-insight-toolkit/Examples/src/Common/CudaInPlaceImageFilter.h:91 | `GetInPlace()` is true afterwards; only the flag and the modification time may change |
| `CudaInPlace.CudaInPlaceImageFilter.InPlaceOff` | cuda-insight-toolkit/Examples/src/Common/CudaInPlaceImageFilter.h:91 | `GetInPlace()` is false afterwards; only the flag and the modification time may change |
| `CudaInPlace.CudaInPlaceImageFilter.SetInputs` | cuda-insight-toolkit/Examples/src/Common/CudaInPlaceImageFilter.h:52 | the superclass connects the input image objects; only the slots and the modification time change, as `InPlaceProtocol.SetInputs` specifies |
| `CudaInPlace.CudaInPlaceImageFilter.AllocateOutputs` | cuda-insight-toolkit/Examples/src/Common/CudaInPlaceImageFilter.h:112-120 | the object performs the `AllocateOutputs` transition: graft when running in place, a new block otherwise |
| `CudaInPlace.CudaInPlaceImageFilter.GenerateData` | cuda-insight-toolkit/Examples/src/Common/CudaInPlaceImageFilter.h:118-119 | the object allocates its output itself, then computes into it |
| `CudaInPlace.CudaInPlaceImageFilter.ReleaseFlaggedInputs` | cuda-insight-toolkit/Examples/src/Common/CudaInPlaceImageFilter.h:125-127 | the loop over the slots releases exactly what the generic policy `ReleaseFlagged` releases |
| `CudaInPlace.CudaInPlaceImageFilter.ReleaseInputs` | cuda-insight-toolkit/Examples/src/Common/CudaInPlaceImageFilter.h:122-131 | each image object is released exactly when it fills a slot and is flagged, or fills the first slot after a graft; all others keep their data |
| `CudaInPlace.CudaInPlaceImageFilter.Update` | cuda-insight-toolkit/Examples/src/Common/CudaInPlaceImageFilter.h:118-124 | the object performs one whole cycle: generate data, then release inputs |
| `CudaInPlace.AddOneInPlace` | cuda-insight-toolkit/Examples/src/Common/CudaInPlaceImageFilter.h:112-128 | a 4x4 image of fives run in place through add-one: the output is the input's block, all sixteen pixels are six, and the input image object no longer holds the block |

## Left out

- CUDA device memory, host/device transfers and kernel launches. The
  compute step is an arbitrary function `op` from the first input's pixels
  to the output's pixels. Synchronisation of device work is assumed done
  by the time `ReleaseInputs` runs.
- The pipeline superclass (`ImageToImageFilter`, `ProcessObject`). Update
  scheduling, requested-region propagation and multithreaded tiling are not
  modelled. Regions are not modelled either, so there is no region check
  and no region-mismatch failure.
- The global ReleaseDataFlag of the generic policy. Only each image
  object's own flag is modelled.
- `SmartPointer` reference counts and real `typeid`. Blocks are identities
  in a store that never frees them, so releasing a holder never destroys
  data another holder still sees.
- Reuse of an output's existing container across updates. Every non-graft
  allocation is a new block.
- Multiple outputs. The class is modelled with a single output. Choosing
  which output to graft is left to subclasses.
- `CanRunInPlace` overrides in subclasses. Only the default test is
  modelled.
- Releasing twice, and what happens when inputs are reconnected between
  allocation and release. Neither the class declaration nor its comments
  state either.
- `PrintSelf` (stream output), the disabled copy constructor and
  assignment, and the explicit-instantiation macros.
