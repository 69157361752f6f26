/**
 * `collate_batch`: stack a list of (image, annotation) pairs into one
 * zero-padded buffer of shape (N, 3, max height, max width), plus the list
 * of annotations.
 */
module Collate {
  import opened Wrappers

  /** An image as a (channels, height, width) array of pixel values. */
  type Image = array3<int>

  /** Raised by the slice assignment when an image's channel count can be
      broadcast neither to nor from 3; `index` is the position of the image. */
  datatype CollateError = BroadcastError(index: nat)

  /** The result: the batch buffer and the annotation list. */
  datatype Batch<A> = Batch(imgs: array4<int>, anns: seq<A>)

  function Max(a: nat, b: nat): (m: nat) {
    if a >= b then a else b
  }

  /** A (c, h, w) image can be written into a (3, h, w) slot: c is 3, or c is 1
      and the single channel is repeated. */
  predicate Broadcastable(img: Image) {
    img.Length0 == 1 || img.Length0 == 3
  }

  /** `m` is the largest image height in `batch`, and 0 for an empty batch. */
  ghost predicate IsMaxHeight<A>(batch: seq<(Image, A)>, m: nat) {
    && (forall i :: 0 <= i < |batch| ==> batch[i].0.Length1 <= m)
    && (m == 0 || exists i :: 0 <= i < |batch| && batch[i].0.Length1 == m)
  }

  /** `m` is the largest image width in `batch`, and 0 for an empty batch. */
  ghost predicate IsMaxWidth<A>(batch: seq<(Image, A)>, m: nat) {
    && (forall i :: 0 <= i < |batch| ==> batch[i].0.Length2 <= m)
    && (m == 0 || exists i :: 0 <= i < |batch| && batch[i].0.Length2 == m)
  }

  /** Channel `c` of the broadcast image at row `y`, column `x`. */
  function Pixel(img: Image, c: nat, y: nat, x: nat): (v: int)
    reads img
    requires Broadcastable(img) && c < 3 && y < img.Length1 && x < img.Length2
  {
    if img.Length0 == 1 then img[0, y, x] else img[c, y, x]
  }

  /** What cell (c, y, x) of an image's slot holds after collation: the
      image inside its own height and width, 0 outside. */
  ghost function Padded(img: Image, c: nat, y: nat, x: nat): (v: int)
    reads img
    requires Broadcastable(img) && c < 3
  {
    if y < img.Length1 && x < img.Length2 then Pixel(img, c, y, x) else 0
  }

  /** The first loop of `collate_batch`: collects the images and the
      annotations in order and takes the running maximum of heights and
      widths, starting from 0. */
  method ScanBatch<A>(batch: seq<(Image, A)>)
    returns (imgs: seq<Image>, anns: seq<A>, maxHeight: nat, maxWidth: nat)
    ensures |imgs| == |batch| && |anns| == |batch|
    ensures forall i :: 0 <= i < |batch| ==> imgs[i] == batch[i].0 && anns[i] == batch[i].1
    ensures IsMaxHeight(batch, maxHeight) && IsMaxWidth(batch, maxWidth)
  {
    imgs, anns := [], [];
    maxWidth, maxHeight := 0, 0;
    for i := 0 to |batch|
      invariant |imgs| == i && |anns| == i
      invariant forall j :: 0 <= j < i ==> imgs[j] == batch[j].0 && anns[j] == batch[j].1
      invariant IsMaxHeight(batch[..i], maxHeight) && IsMaxWidth(batch[..i], maxWidth)
    {
      var (image, ann) := batch[i];
      var height, width := image.Length1, image.Length2;
      maxWidth := Max(maxWidth, width);
      maxHeight := Max(maxHeight, height);
      imgs := imgs + [image];
      anns := anns + [ann];
    }
    assert batch[..|batch|] == batch;
  }

  /** `collate_batch(batch)`. On success the buffer is new, has shape
      (N, 3, max height, max width), holds each image in the top-left corner
      of its slot in every channel and 0 everywhere else, and the annotations
      come back unchanged and in order. It fails, at the first offending
      image, exactly when some image's channel count cannot be broadcast. */
  method CollateBatch<A>(batch: seq<(Image, A)>) returns (r: Result<Batch<A>, CollateError>)
    ensures r.Failure? <==> exists i :: 0 <= i < |batch| && !Broadcastable(batch[i].0)
    ensures r.Failure? ==>
      && r.error.index < |batch|
      && !Broadcastable(batch[r.error.index].0)
      && forall j :: 0 <= j < r.error.index ==> Broadcastable(batch[j].0)
    ensures r.Success? ==> fresh(r.value.imgs)
    ensures r.Success? ==>
      var b := r.value.imgs;
      && b.Length0 == |batch| && b.Length1 == 3
      && IsMaxHeight(batch, b.Length2) && IsMaxWidth(batch, b.Length3)
    ensures r.Success? ==>
      var b := r.value.imgs;
      forall i, c, y, x :: 0 <= i < b.Length0 && 0 <= c < 3 && 0 <= y < b.Length2 && 0 <= x < b.Length3 ==>
        b[i, c, y, x] == Padded(batch[i].0, c, y, x)
    ensures r.Success? ==>
      |r.value.anns| == |batch| && forall i :: 0 <= i < |batch| ==> r.value.anns[i] == batch[i].1
  {
    var imgs, anns, maxHeight, maxWidth := ScanBatch(batch);
    var n := |imgs|;
    var batchImgs := new int[n, 3, maxHeight, maxWidth]((i, c, y, x) => 0);
    for i := 0 to n
      invariant forall j :: 0 <= j < i ==> Broadcastable(imgs[j])
      invariant forall j, c, y, x :: 0 <= j < i && 0 <= c < 3 && 0 <= y < maxHeight && 0 <= x < maxWidth ==>
        batchImgs[j, c, y, x] == Padded(imgs[j], c, y, x)
      invariant forall j, c, y, x :: i <= j < n && 0 <= c < 3 && 0 <= y < maxHeight && 0 <= x < maxWidth ==>
        batchImgs[j, c, y, x] == 0
    {
      var image := imgs[i];
      if !Broadcastable(image) {
        return Failure(BroadcastError(i));
      }
      var height, width := image.Length1, image.Length2;
      forall c, y, x | 0 <= c < 3 && 0 <= y < height && 0 <= x < width {
        batchImgs[i, c, y, x] := Pixel(image, c, y, x);
      }
    }
    r := Success(Batch(batchImgs, anns));
  }

  /** The worked example of two images of shapes (3, 4, 6) and (3, 5, 5):
      the buffer has shape (2, 3, 5, 6). */
  lemma ExampleShape<A>(p: Image, q: Image, a: A, b: A, h: nat, w: nat)
    requires p.Length1 == 4 && p.Length2 == 6 && q.Length1 == 5 && q.Length2 == 5
    requires IsMaxHeight([(p, a), (q, b)], h) && IsMaxWidth([(p, a), (q, b)], w)
    ensures h == 5 && w == 6
  {
    var batch := [(p, a), (q, b)];
    assert batch[0].0 == p && batch[1].0 == q;
  }
}
