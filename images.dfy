/** Images, bulk data and the memory that holds them.

    An image object does not own pixels directly: it holds a reference to a
    block of bulk data (a pixel container), and several image objects may
    refer to the same block. Filter slots in turn refer to image objects, so
    one image object may fill several slots. Blocks are identified by a
    `BufferId`, image objects by an `ImageId`; the `Store` maps each to its
    content and hands out fresh identities. Reference counting is not
    modelled: a block stays in the store for as long as the model runs, so
    dropping one holder never destroys the data another holder still sees. */
module Images {

  /** Identity of a block of bulk pixel data. */
  type BufferId = nat

  /** Identity of an image object. */
  type ImageId = nat

  type Pixel = int

  datatype Option<T> = None | Some(value: T)

  /** What `typeid` tells apart for two image types: the image class (such
      as `Image` or `OrientedImage`), its pixel type and its dimension. */
  datatype ImageType = ImageType(imageClass: string, pixelType: string, dimension: nat)

  /** The state of an image object: the bulk data it currently holds, if
      any, and the ReleaseDataFlag its user set on it. */
  datatype Image = Image(bulk: Option<BufferId>, releaseDataFlag: bool)

  predicate Holds(img: Image, b: BufferId)
  {
    img.bulk == Some(b)
  }

  /** The image object after `ReleaseData()`: it no longer holds bulk data. */
  function Released(img: Image): (r: Image)
    ensures forall b :: !Holds(r, b)
    ensures r.releaseDataFlag == img.releaseDataFlag
  {
    img.(bulk := None)
  }

  /** Every block allocated so far with its pixels, every image object with
      its state, and the identities handed out next. */
  datatype Store = Store(
    next: BufferId,
    pixels: map<BufferId, seq<Pixel>>,
    nextImage: ImageId,
    images: map<ImageId, Image>)

  /** No identity is one the store has yet to hand out, and every image
      object's bulk data is a block in memory. */
  predicate WellFormed(s: Store)
  {
    && (forall b :: b in s.pixels ==> b < s.next)
    && (forall id :: id in s.images ==> id < s.nextImage)
    && (forall id :: id in s.images && s.images[id].bulk.Some? ==> s.images[id].bulk.value in s.pixels)
  }

  /** Allocation of a new block holding `data`. */
  function AllocateBlock(s: Store, data: seq<Pixel>): (r: (BufferId, Store))
    requires WellFormed(s)
    ensures WellFormed(r.1)
    ensures r.0 !in s.pixels
    ensures r.1.pixels.Keys == s.pixels.Keys + {r.0} && r.1.pixels[r.0] == data
    ensures forall b :: b in s.pixels ==> r.1.pixels[b] == s.pixels[b]
    ensures r.1.images == s.images && r.1.nextImage == s.nextImage
  {
    (s.next, s.(next := s.next + 1, pixels := s.pixels[s.next := data]))
  }

  /** Overwriting the pixels of an existing block; no other block changes. */
  function Overwrite(s: Store, b: BufferId, data: seq<Pixel>): (r: Store)
    requires WellFormed(s) && b in s.pixels
    ensures WellFormed(r) && r.next == s.next
    ensures r.pixels.Keys == s.pixels.Keys && r.pixels[b] == data
    ensures forall c :: c in s.pixels && c != b ==> r.pixels[c] == s.pixels[c]
    ensures r.images == s.images && r.nextImage == s.nextImage
  {
    s.(pixels := s.pixels[b := data])
  }

  /** A new image object with the given state. */
  function CreateImage(s: Store, img: Image): (r: (ImageId, Store))
    requires WellFormed(s)
    requires img.bulk.Some? ==> img.bulk.value in s.pixels
    ensures WellFormed(r.1)
    ensures r.0 !in s.images
    ensures r.1.images.Keys == s.images.Keys + {r.0} && r.1.images[r.0] == img
    ensures forall id :: id in s.images ==> r.1.images[id] == s.images[id]
    ensures r.1.pixels == s.pixels && r.1.next == s.next
  {
    (s.nextImage, s.(nextImage := s.nextImage + 1, images := s.images[s.nextImage := img]))
  }

  /** `ReleaseData()` on image object `id`: that object, in whichever slots
      it sits, holds no bulk data afterwards; the blocks themselves and the
      other image objects are unchanged. */
  function ReleaseImage(s: Store, id: ImageId): (r: Store)
    requires WellFormed(s) && id in s.images
    ensures WellFormed(r)
    ensures r.images.Keys == s.images.Keys && r.images[id] == Released(s.images[id])
    ensures forall other :: other in s.images && other != id ==> r.images[other] == s.images[other]
    ensures r.pixels == s.pixels && r.next == s.next && r.nextImage == s.nextImage
  {
    s.(images := s.images[id := Released(s.images[id])])
  }

  /** The memory shared by all filters of a pipeline: blocks and image
      objects. */
  class Memory {
    var next: BufferId
    var pixels: map<BufferId, seq<Pixel>>
    var nextImage: ImageId
    var images: map<ImageId, Image>

    function Contents(): Store
      reads this
    {
      Store(next, pixels, nextImage, images)
    }

    predicate Valid()
      reads this
    {
      WellFormed(Contents())
    }

    constructor ()
      ensures Valid() && Contents() == Store(0, map[], 0, map[])
    {
      next, pixels, nextImage, images := 0, map[], 0, map[];
    }

    /** Allocates a new block holding `data` (an upstream producer's output,
        or a filter's fresh output buffer). */
    method Allocate(data: seq<Pixel>) returns (b: BufferId)
      requires Valid()
      modifies this
      ensures Valid()
      ensures (b, Contents()) == AllocateBlock(old(Contents()), data)
    {
      b := next;
      next, pixels := next + 1, pixels[b := data];
    }

    /** Overwrites the pixels of block `b`, in place. */
    method Write(b: BufferId, data: seq<Pixel>)
      requires Valid() && b in pixels
      modifies this
      ensures Valid()
      ensures Contents() == Overwrite(old(Contents()), b, data)
    {
      pixels := pixels[b := data];
    }

    /** Creates an image object (an upstream producer's output image). */
    method NewImage(img: Image) returns (id: ImageId)
      requires Valid()
      requires img.bulk.Some? ==> img.bulk.value in pixels
      modifies this
      ensures Valid()
      ensures (id, Contents()) == CreateImage(old(Contents()), img)
    {
      id := nextImage;
      nextImage, images := nextImage + 1, images[id := img];
    }

    /** `ReleaseData()` on image object `id`. */
    method Release(id: ImageId)
      requires Valid() && id in images
      modifies this
      ensures Valid()
      ensures Contents() == ReleaseImage(old(Contents()), id)
    {
      images := images[id := Released(images[id])];
    }
  }
}
