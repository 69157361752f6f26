/**
 * The dataset object: construction from a configuration, the index-retry
 * loop and annotation assembly of `_read_ann_info`, the annotation merge of
 * mix-up (`mix_ann`) and the mix-up decision of `Mix_Up_im`.
 */
module Dataset {
  import opened Wrappers
  import opened Annotations
  import opened Paths
  import opened Transforms

  /** The constructor's options that this model uses. */
  datatype Config = Config(
    imagesDir: Option<string>,
    annotationsFile: Option<string>,
    datasetDir: Option<string>,
    transforms: Option<seq<TransformConfig>>,
    filterEmptyGt: bool,
    mixUp: bool,
    filterMinSize: int,
    mixUpProb: real)

  /** The dataset's fields once the constructor has finished; none of them
      changes afterwards. `classes` is the class attribute `CLASSES`. */
  datatype CustomDataset = CustomDataset(
    imagesDir: string,
    annotationsFile: string,
    mixUpProb: real,
    mixUp: bool,
    transList: Option<seq<TransformConfig>>,
    classes: Option<seq<string>>,
    imgInfos: seq<Record>,
    totalLen: nat)
  {
    ghost predicate Valid() {
      totalLen == |imgInfos|
    }
  }

  /** The constructor. `load` stands for reading the annotation store at a
      path. With `filter_empty_gt` the loaded list is filtered; the length is
      recorded last. */
  function NewDataset(cfg: Config, load: string -> seq<Record>): (r: Result<CustomDataset, ConfigError>)
    ensures r.Failure? <==> ResolvePaths(cfg.imagesDir, cfg.annotationsFile, cfg.datasetDir).Failure?
    ensures r.Failure? ==> r.error == ResolvePaths(cfg.imagesDir, cfg.annotationsFile, cfg.datasetDir).error
    ensures r.Success? ==>
      var paths := ResolvePaths(cfg.imagesDir, cfg.annotationsFile, cfg.datasetDir).value;
      var loaded := load(paths.1);
      && r.value.Valid()
      && (r.value.imagesDir, r.value.annotationsFile) == paths
      && r.value.mixUp == cfg.mixUp && r.value.mixUpProb == cfg.mixUpProb
      && r.value.transList == cfg.transforms
      && r.value.classes == None
      && (cfg.filterEmptyGt ==> r.value.imgInfos == FilterImgs(loaded, cfg.filterMinSize))
      && (!cfg.filterEmptyGt ==> r.value.imgInfos == loaded)
  {
    match ResolvePaths(cfg.imagesDir, cfg.annotationsFile, cfg.datasetDir)
    case Failure(e) => Failure(e)
    case Success(paths) =>
      var loaded := load(paths.1);
      var infos := if cfg.filterEmptyGt then FilterImgs(loaded, cfg.filterMinSize) else loaded;
      Success(CustomDataset(paths.0, paths.1, cfg.mixUpProb, cfg.mixUp, cfg.transforms, None, infos, |infos|))
  }

  /** With box filtering on, no record of the dataset lacks boxes, so the
      index-retry loop never draws. */
  lemma FilteredDatasetHasBoxes(cfg: Config, load: string -> seq<Record>, i: nat)
    requires cfg.filterEmptyGt && NewDataset(cfg, load).Success?
    requires i < |NewDataset(cfg, load).value.imgInfos|
    ensures HasBoxes(NewDataset(cfg, load).value.imgInfos[i])
  {
    var infos := NewDataset(cfg, load).value.imgInfos;
    assert infos[i] in infos;
  }

  /** Every entry of `cands` is an index into `infos`. */
  predicate IndicesIn(cands: seq<nat>, n: nat) {
    forall p :: 0 <= p < |cands| ==> cands[p] < n
  }

  /** The requested index and the draws together are all indices into the list. */
  lemma CandidatesInRange(idx: nat, draws: seq<nat>, n: nat)
    requires idx < n && IndicesIn(draws, n)
    ensures IndicesIn([idx] + draws, n)
  {
    assert forall p :: 1 <= p < |draws| + 1 ==> ([idx] + draws)[p] == draws[p - 1];
  }

  /** `j` is the first index in `cands` whose record has boxes. */
  ghost predicate IsFirstWithBoxes(infos: seq<Record>, cands: seq<nat>, j: nat)
    requires IndicesIn(cands, |infos|)
  {
    exists p :: 0 <= p < |cands| && cands[p] == j && HasBoxes(infos[j])
      && forall q :: 0 <= q < p ==> !HasBoxes(infos[cands[q]])
  }

  /** The retry loop at the top of `_read_ann_info`: keep the index if its
      record has boxes, otherwise replace it by the next random draw.
      `draws` is the stream of indices the random generator yields; the
      source keeps drawing for ever, and `None` stands for "the supplied
      draws ran out before a record with boxes came up". */
  method ChooseIndex(infos: seq<Record>, idx: nat, draws: seq<nat>) returns (r: Option<nat>)
    requires idx < |infos|
    requires IndicesIn(draws, |infos|)
    ensures HasBoxes(infos[idx]) ==> r == Some(idx)
    ensures r.Some? ==> IsFirstWithBoxes(infos, [idx] + draws, r.value)
    ensures r.None? <==> forall p :: 0 <= p < |draws| + 1 ==> !HasBoxes(infos[([idx] + draws)[p]])
  {
    ghost var cands := [idx] + draws;
    var cur := idx;
    var k := 0;
    while true
      invariant 0 <= k <= |draws|
      invariant cur == cands[k]
      invariant forall q :: 0 <= q < k ==> !HasBoxes(infos[cands[q]])
      decreases |draws| - k
    {
      if HasBoxes(infos[cur]) {
        return Some(cur);
      }
      if k == |draws| {
        return None;
      }
      cur := draws[k];
      k := k + 1;
    }
  }

  /** The errors `_read_ann_info` can raise (besides I/O). */
  datatype ReadError =
    | NoRecordWithBoxes     // the supplied draws ran out (see ChooseIndex)
    | SizeMismatch          // the image on disk is not the recorded size
    | MissingIgnoreBoxes    // the record has no `bboxes_ignore`
    | BlendSizeMismatch     // mix-up: the two images differ in size, so blending them fails

  /** The per-sample annotation dictionary that `_read_ann_info` assembles;
      the transform pipeline and `mix_ann` update it in place. */
  class Ann {
    var rboxes: seq<Row>
    var hboxes: seq<Row>
    var polys: seq<Row>
    var labels: seq<int>
    var rboxesIgnore: seq<Row>
    var hboxesIgnore: seq<Row>
    var polysIgnore: seq<Row>
    var classes: Option<seq<string>>
    var oriImgSize: (int, int)
    var imgSize: (int, int)
    var scaleFactor: real
    var filename: string
    var imgFile: string

    constructor (rboxes: seq<Row>, hboxes: seq<Row>, polys: seq<Row>, labels: seq<int>,
                 rboxesIgnore: seq<Row>, hboxesIgnore: seq<Row>, polysIgnore: seq<Row>,
                 classes: Option<seq<string>>, oriImgSize: (int, int), imgSize: (int, int),
                 scaleFactor: real, filename: string, imgFile: string)
      ensures this.rboxes == rboxes && this.hboxes == hboxes && this.polys == polys
      ensures this.labels == labels
      ensures this.rboxesIgnore == rboxesIgnore && this.hboxesIgnore == hboxesIgnore
      ensures this.polysIgnore == polysIgnore
      ensures this.classes == classes && this.oriImgSize == oriImgSize && this.imgSize == imgSize
      ensures this.scaleFactor == scaleFactor && this.filename == filename && this.imgFile == imgFile
    {
      this.rboxes, this.hboxes, this.polys, this.labels := rboxes, hboxes, polys, labels;
      this.rboxesIgnore, this.hboxesIgnore, this.polysIgnore := rboxesIgnore, hboxesIgnore, polysIgnore;
      this.classes, this.oriImgSize, this.imgSize := classes, oriImgSize, imgSize;
      this.scaleFactor, this.filename, this.imgFile := scaleFactor, filename, imgFile;
    }

    /** The keys that `mix_ann` leaves alone hold what `_read_ann_info`
        puts there for `info`, read from `imagesDir` with box conversion
        `convert`. */
    ghost predicate HasUnmergedKeys(info: Record, imagesDir: string, classes: Option<seq<string>>,
                                    convert: seq<Row> -> (seq<Row>, seq<Row>))
      reads this
    {
      && info.ann.bboxesIgnore.Some?
      && rboxesIgnore == info.ann.bboxesIgnore.value
      && (hboxesIgnore, polysIgnore) == convert(info.ann.bboxesIgnore.value)
      && this.classes == classes
      && oriImgSize == (info.width, info.height)
      && imgSize == (info.width, info.height)
      && scaleFactor == 1.0
      && filename == info.filename
      && imgFile == Join(imagesDir, info.filename)
    }

    /** This dictionary is the one `_read_ann_info` builds for `info`. */
    ghost predicate Describes(info: Record, imagesDir: string, classes: Option<seq<string>>,
                              convert: seq<Row> -> (seq<Row>, seq<Row>))
      reads this
    {
      && HasUnmergedKeys(info, imagesDir, classes, convert)
      && rboxes == info.ann.bboxes
      && (hboxes, polys) == convert(info.ann.bboxes)
      && labels == info.ann.labels
    }

    /** This dictionary is the one read for `info1` with the boxes,
        polygons and labels of the one read for `info2` appended. */
    ghost predicate DescribesMix(info1: Record, info2: Record, imagesDir: string,
                                 classes: Option<seq<string>>,
                                 convert: seq<Row> -> (seq<Row>, seq<Row>))
      reads this
    {
      && HasUnmergedKeys(info1, imagesDir, classes, convert)
      && info2.ann.bboxesIgnore.Some?
      && rboxes == info1.ann.bboxes + info2.ann.bboxes
      && hboxes == convert(info1.ann.bboxes).0 + convert(info2.ann.bboxes).0
      && polys == convert(info1.ann.bboxes).1 + convert(info2.ann.bboxes).1
      && labels == info1.ann.labels + info2.ann.labels
    }
  }

  /** `_read_ann_info(idx)`. `draws` feeds the retry loop, `imageSize` gives
      the (width, height) of the image file at a path, and `convert` is the
      oriented-box conversion, yielding (axis-aligned boxes, polygons). The
      result describes the first candidate record with boxes, or is the
      first error the source would raise for it. */
  method ReadAnnInfo(ds: CustomDataset, idx: nat, draws: seq<nat>,
                     imageSize: string -> (int, int),
                     convert: seq<Row> -> (seq<Row>, seq<Row>))
    returns (r: Result<Ann, ReadError>)
    requires ds.Valid()
    requires idx < ds.totalLen
    requires IndicesIn(draws, ds.totalLen)
    ensures r.Success? ==> fresh(r.value)
    ensures ReadOutcome(ds, idx, draws, imageSize, convert, r)
  {
    var chosen := ChooseIndex(ds.imgInfos, idx, draws);
    if chosen.None? {
      return Failure(NoRecordWithBoxes);
    }
    var j := chosen.value;
    var info := ds.imgInfos[j];
    var imgPath := Join(ds.imagesDir, info.filename);
    var (width, height) := imageSize(imgPath);
    if !(width == info.width && height == info.height) {
      assert !SizeMatches(ds, j, imageSize);
      assert ReadFails(ds, j, imageSize, SizeMismatch);
      return Failure(SizeMismatch);
    }
    var (hboxes, polys) := convert(info.ann.bboxes);
    if info.ann.bboxesIgnore.None? {
      assert ReadFails(ds, j, imageSize, MissingIgnoreBoxes);
      return Failure(MissingIgnoreBoxes);
    }
    var (hboxesIgnore, polysIgnore) := convert(info.ann.bboxesIgnore.value);
    var ann := new Ann(info.ann.bboxes, hboxes, polys, info.ann.labels,
                       info.ann.bboxesIgnore.value, hboxesIgnore, polysIgnore,
                       ds.classes, (width, height), (width, height),
                       1.0, info.filename, imgPath);
    assert ann.Describes(info, ds.imagesDir, ds.classes, convert) && SizeMatches(ds, j, imageSize);
    r := Success(ann);
  }

  /** Why reading record `j` fails: the size check comes first, then the
      lookup of the ignore boxes. */
  ghost predicate ReadFails(ds: CustomDataset, j: nat, imageSize: string -> (int, int), e: ReadError)
    requires j < |ds.imgInfos|
  {
    var info := ds.imgInfos[j];
    var sizeOk := imageSize(Join(ds.imagesDir, info.filename)) == (info.width, info.height);
    match e
    case SizeMismatch => !sizeOk
    case MissingIgnoreBoxes => sizeOk && info.ann.bboxesIgnore.None?
    case NoRecordWithBoxes => false
    case BlendSizeMismatch => false
  }

  /** What reading from index `idx` with retry draws `draws` yields: no
      result iff no candidate has boxes; otherwise an error raised for, or a
      dictionary describing, the first candidate with boxes. */
  ghost predicate ReadOutcome(ds: CustomDataset, idx: nat, draws: seq<nat>,
                              imageSize: string -> (int, int),
                              convert: seq<Row> -> (seq<Row>, seq<Row>),
                              r: Result<Ann, ReadError>)
    requires ds.Valid() && idx < ds.totalLen && IndicesIn(draws, ds.totalLen)
    reads if r.Success? then {r.value} else {}
  {
    && (r == Failure(NoRecordWithBoxes) <==>
          forall p :: 0 <= p < |draws| + 1 ==> !HasBoxes(ds.imgInfos[([idx] + draws)[p]]))
    && (r.Failure? && r.error != NoRecordWithBoxes ==>
          exists j: nat :: j < |ds.imgInfos| && IsFirstWithBoxes(ds.imgInfos, [idx] + draws, j)
            && ReadFails(ds, j, imageSize, r.error))
    && (r.Success? ==>
          exists j: nat :: j < |ds.imgInfos| && IsFirstWithBoxes(ds.imgInfos, [idx] + draws, j)
            && SizeMatches(ds, j, imageSize)
            && r.value.Describes(ds.imgInfos[j], ds.imagesDir, ds.classes, convert))
  }

  /** The image file of record `j` has the recorded width and height. */
  ghost predicate SizeMatches(ds: CustomDataset, j: nat, imageSize: string -> (int, int))
    requires j < |ds.imgInfos|
  {
    imageSize(Join(ds.imagesDir, ds.imgInfos[j].filename)) == (ds.imgInfos[j].width, ds.imgInfos[j].height)
  }

  /** Record `j` can be read: its image has the recorded size and it has
      an ignore set. */
  ghost predicate Readable(ds: CustomDataset, j: nat, imageSize: string -> (int, int))
    requires j < |ds.imgInfos|
  {
    SizeMatches(ds, j, imageSize) && ds.imgInfos[j].ann.bboxesIgnore.Some?
  }

  /** Reading from index `idx` succeeds: the first candidate with boxes is
      readable. */
  ghost predicate ReadSucceeds(ds: CustomDataset, idx: nat, draws: seq<nat>, imageSize: string -> (int, int))
    requires ds.Valid() && idx < ds.totalLen && IndicesIn(draws, ds.totalLen)
  {
    exists j: nat :: j < |ds.imgInfos| && IsFirstWithBoxes(ds.imgInfos, [idx] + draws, j)
      && Readable(ds, j, imageSize)
  }

  /** The recorded (width, height) of record `j`, which is the size of the
      image read for it. */
  function RecordSize(ds: CustomDataset, j: nat): (wh: (int, int))
    requires j < |ds.imgInfos|
  {
    (ds.imgInfos[j].width, ds.imgInfos[j].height)
  }

  /** Both reads of a mix-up succeed but the two records differ in size, so
      `Image.blend` cannot blend their images. */
  ghost predicate BlendSizesDiffer(ds: CustomDataset, id1: nat, draws1: seq<nat>, id2: nat, draws2: seq<nat>,
                                   imageSize: string -> (int, int))
    requires ds.Valid() && id1 < ds.totalLen && id2 < ds.totalLen
    requires IndicesIn(draws1, ds.totalLen) && IndicesIn(draws2, ds.totalLen)
  {
    exists j1: nat, j2: nat ::
      && j1 < |ds.imgInfos| && j2 < |ds.imgInfos|
      && IsFirstWithBoxes(ds.imgInfos, [id1] + draws1, j1) && Readable(ds, j1, imageSize)
      && IsFirstWithBoxes(ds.imgInfos, [id2] + draws2, j2) && Readable(ds, j2, imageSize)
      && RecordSize(ds, j1) != RecordSize(ds, j2)
  }

  /** A dictionary read for a record whose image has the recorded size
      shows the record readable, and carries the record's size. */
  lemma DescribedIsReadable(ds: CustomDataset, j: nat, imageSize: string -> (int, int),
                            convert: seq<Row> -> (seq<Row>, seq<Row>), ann: Ann)
    requires j < |ds.imgInfos| && SizeMatches(ds, j, imageSize)
    requires ann.Describes(ds.imgInfos[j], ds.imagesDir, ds.classes, convert)
    ensures Readable(ds, j, imageSize) && ann.imgSize == RecordSize(ds, j)
  {
  }

  /** The candidate list has only one first index with boxes. */
  lemma FirstWithBoxesUnique(infos: seq<Record>, cands: seq<nat>, j: nat, k: nat)
    requires IndicesIn(cands, |infos|)
    requires IsFirstWithBoxes(infos, cands, j) && IsFirstWithBoxes(infos, cands, k)
    ensures j == k
  {
    var p :| 0 <= p < |cands| && cands[p] == j && HasBoxes(infos[j])
      && forall q :: 0 <= q < p ==> !HasBoxes(infos[cands[q]]);
    var p' :| 0 <= p' < |cands| && cands[p'] == k && HasBoxes(infos[k])
      && forall q :: 0 <= q < p' ==> !HasBoxes(infos[cands[q]]);
    // each witness position rules out the other one coming first
    assert HasBoxes(infos[cands[p]]) && HasBoxes(infos[cands[p']]);
  }

  /** A read that ends in an error is not a successful read. */
  lemma FailedReadDoesNotSucceed(ds: CustomDataset, idx: nat, draws: seq<nat>,
                                 imageSize: string -> (int, int), e: ReadError)
    requires ds.Valid() && idx < ds.totalLen && IndicesIn(draws, ds.totalLen)
    requires e == NoRecordWithBoxes ==>
      forall p :: 0 <= p < |draws| + 1 ==> !HasBoxes(ds.imgInfos[([idx] + draws)[p]])
    requires e != NoRecordWithBoxes ==>
      exists j: nat :: j < |ds.imgInfos| && IsFirstWithBoxes(ds.imgInfos, [idx] + draws, j)
        && ReadFails(ds, j, imageSize, e)
    ensures !ReadSucceeds(ds, idx, draws, imageSize)
  {
    CandidatesInRange(idx, draws, ds.totalLen);
    var cands := [idx] + draws;
    forall j: nat | j < |ds.imgInfos| && IsFirstWithBoxes(ds.imgInfos, cands, j)
      ensures !Readable(ds, j, imageSize)
    {
      var p :| 0 <= p < |cands| && cands[p] == j && HasBoxes(ds.imgInfos[j])
        && forall q :: 0 <= q < p ==> !HasBoxes(ds.imgInfos[cands[q]]);
      // so the read did not end in NoRecordWithBoxes
      assert HasBoxes(ds.imgInfos[cands[p]]);
      var k: nat :| k < |ds.imgInfos| && IsFirstWithBoxes(ds.imgInfos, cands, k) && ReadFails(ds, k, imageSize, e);
      FirstWithBoxesUnique(ds.imgInfos, cands, j, k);
    }
  }

  /** When the two first candidates have equal sizes, the blend does not
      fail. */
  lemma SameSizesBlend(ds: CustomDataset, id1: nat, draws1: seq<nat>, id2: nat, draws2: seq<nat>,
                       imageSize: string -> (int, int), j1: nat, j2: nat)
    requires ds.Valid() && id1 < ds.totalLen && id2 < ds.totalLen
    requires IndicesIn(draws1, ds.totalLen) && IndicesIn(draws2, ds.totalLen)
    requires j1 < |ds.imgInfos| && j2 < |ds.imgInfos|
    requires IsFirstWithBoxes(ds.imgInfos, [id1] + draws1, j1) && IsFirstWithBoxes(ds.imgInfos, [id2] + draws2, j2)
    requires RecordSize(ds, j1) == RecordSize(ds, j2)
    ensures !BlendSizesDiffer(ds, id1, draws1, id2, draws2, imageSize)
  {
    CandidatesInRange(id1, draws1, ds.totalLen);
    CandidatesInRange(id2, draws2, ds.totalLen);
    forall k1: nat, k2: nat | k1 < |ds.imgInfos| && k2 < |ds.imgInfos|
        && IsFirstWithBoxes(ds.imgInfos, [id1] + draws1, k1) && IsFirstWithBoxes(ds.imgInfos, [id2] + draws2, k2)
      ensures RecordSize(ds, k1) == RecordSize(ds, k2)
    {
      FirstWithBoxesUnique(ds.imgInfos, [id1] + draws1, j1, k1);
      FirstWithBoxesUnique(ds.imgInfos, [id2] + draws2, j2, k2);
    }
  }

  /** `mix_ann(anno1, anno2)`: row-concatenate the boxes, polygons and
      labels of `anno2` onto those of `anno1`, in place, and return `anno1`.
      Nothing else of `anno1` changes, the ignore sets included. */
  method MixAnn(anno1: Ann, anno2: Ann) returns (r: Ann)
    modifies anno1`rboxes, anno1`hboxes, anno1`polys, anno1`labels
    ensures r == anno1
    ensures anno1.rboxes == old(anno1.rboxes) + old(anno2.rboxes)
    ensures anno1.hboxes == old(anno1.hboxes) + old(anno2.hboxes)
    ensures anno1.polys == old(anno1.polys) + old(anno2.polys)
    ensures anno1.labels == old(anno1.labels) + old(anno2.labels)
    ensures |anno1.labels| == old(|anno1.labels|) + old(|anno2.labels|)
    ensures unchanged(anno1`rboxesIgnore, anno1`hboxesIgnore, anno1`polysIgnore, anno1`classes)
    ensures unchanged(anno1`oriImgSize, anno1`imgSize, anno1`scaleFactor, anno1`filename, anno1`imgFile)
    ensures anno2 != anno1 ==> unchanged(anno2)
  {
    anno1.rboxes := anno1.rboxes + anno2.rboxes;
    anno1.hboxes := anno1.hboxes + anno2.hboxes;
    anno1.polys := anno1.polys + anno2.polys;
    anno1.labels := anno1.labels + anno2.labels;
    r := anno1;
  }

  /** The test of `Mix_Up_im`: the two samples are blended unless the
      uniform draw `u` from [0, 1) exceeds `prob`. A probability of 1 or more
      always blends, a negative one never does, and a probability of 0
      blends only on a draw of exactly 0. */
  function Blends(u: real, prob: real): (b: bool)
    ensures 0.0 <= u < 1.0 && 1.0 <= prob ==> b
    ensures 0.0 <= u && prob < 0.0 ==> !b
    ensures 0.0 <= u && prob == 0.0 ==> (b <==> u == 0.0)
  {
    !(u > prob)
  }

  /** The outcome of reading `id1` and `id2` and blending them: the blend
      fails exactly when both reads succeed on records of different sizes;
      any other error is that of the first read, or of the second after the
      first succeeded; a success merges the two records' dictionaries. */
  ghost predicate BlendOutcome(ds: CustomDataset, id1: nat, draws1: seq<nat>, id2: nat, draws2: seq<nat>,
                               imageSize: string -> (int, int),
                               convert: seq<Row> -> (seq<Row>, seq<Row>),
                               r: Result<Ann, ReadError>)
    requires ds.Valid() && id1 < ds.totalLen && id2 < ds.totalLen
    requires IndicesIn(draws1, ds.totalLen) && IndicesIn(draws2, ds.totalLen)
    reads if r.Success? then {r.value} else {}
  {
    CandidatesInRange(id1, draws1, |ds.imgInfos|);
    CandidatesInRange(id2, draws2, |ds.imgInfos|);
    && (r == Failure(BlendSizeMismatch) <==> BlendSizesDiffer(ds, id1, draws1, id2, draws2, imageSize))
    && (r.Failure? && r.error != BlendSizeMismatch ==>
          || ReadOutcome(ds, id1, draws1, imageSize, convert, r)
          || (ReadSucceeds(ds, id1, draws1, imageSize) && ReadOutcome(ds, id2, draws2, imageSize, convert, r)))
    && (r.Success? ==>
          exists j1: nat, j2: nat ::
            && j1 < |ds.imgInfos| && j2 < |ds.imgInfos|
            && IsFirstWithBoxes(ds.imgInfos, [id1] + draws1, j1)
            && IsFirstWithBoxes(ds.imgInfos, [id2] + draws2, j2)
            && SizeMatches(ds, j1, imageSize) && SizeMatches(ds, j2, imageSize)
            && RecordSize(ds, j1) == RecordSize(ds, j2)
            && r.value.DescribesMix(ds.imgInfos[j1], ds.imgInfos[j2], ds.imagesDir, ds.classes, convert))
  }

  /** A failed first read is the outcome of the blend. */
  lemma FirstReadFailsBlend(ds: CustomDataset, id1: nat, draws1: seq<nat>, id2: nat, draws2: seq<nat>,
                            imageSize: string -> (int, int),
                            convert: seq<Row> -> (seq<Row>, seq<Row>),
                            r: Result<Ann, ReadError>)
    requires ds.Valid() && id1 < ds.totalLen && id2 < ds.totalLen
    requires IndicesIn(draws1, ds.totalLen) && IndicesIn(draws2, ds.totalLen)
    requires r.Failure? && ReadOutcome(ds, id1, draws1, imageSize, convert, r)
    ensures BlendOutcome(ds, id1, draws1, id2, draws2, imageSize, convert, r)
  {
    FailedReadDoesNotSucceed(ds, id1, draws1, imageSize, r.error);
  }

  /** A failed second read after a successful first one is the outcome of
      the blend. */
  lemma SecondReadFailsBlend(ds: CustomDataset, id1: nat, draws1: seq<nat>, id2: nat, draws2: seq<nat>,
                             imageSize: string -> (int, int),
                             convert: seq<Row> -> (seq<Row>, seq<Row>),
                             r: Result<Ann, ReadError>)
    requires ds.Valid() && id1 < ds.totalLen && id2 < ds.totalLen
    requires IndicesIn(draws1, ds.totalLen) && IndicesIn(draws2, ds.totalLen)
    requires ReadSucceeds(ds, id1, draws1, imageSize)
    requires r.Failure? && ReadOutcome(ds, id2, draws2, imageSize, convert, r)
    ensures BlendOutcome(ds, id1, draws1, id2, draws2, imageSize, convert, r)
  {
    FailedReadDoesNotSucceed(ds, id2, draws2, imageSize, r.error);
  }

  /** Two readable first candidates of different sizes make the blend fail. */
  lemma SizesDifferBlend(ds: CustomDataset, id1: nat, draws1: seq<nat>, id2: nat, draws2: seq<nat>,
                         imageSize: string -> (int, int),
                         convert: seq<Row> -> (seq<Row>, seq<Row>), j1: nat, j2: nat)
    requires ds.Valid() && id1 < ds.totalLen && id2 < ds.totalLen
    requires IndicesIn(draws1, ds.totalLen) && IndicesIn(draws2, ds.totalLen)
    requires j1 < |ds.imgInfos| && j2 < |ds.imgInfos|
    requires IsFirstWithBoxes(ds.imgInfos, [id1] + draws1, j1) && Readable(ds, j1, imageSize)
    requires IsFirstWithBoxes(ds.imgInfos, [id2] + draws2, j2) && Readable(ds, j2, imageSize)
    requires RecordSize(ds, j1) != RecordSize(ds, j2)
    ensures BlendOutcome(ds, id1, draws1, id2, draws2, imageSize, convert, Failure(BlendSizeMismatch))
  {
    assert BlendSizesDiffer(ds, id1, draws1, id2, draws2, imageSize);
  }

  /** The annotation side of `Mix_Up_im(id1, id2, prob)`, where `u` is the
      uniform draw. Without blending only `id1` is read. With blending see
      `BlendReads`. */
  method MixUpIm(ds: CustomDataset, id1: nat, id2: nat, prob: real, u: real,
                 draws1: seq<nat>, draws2: seq<nat>,
                 imageSize: string -> (int, int),
                 convert: seq<Row> -> (seq<Row>, seq<Row>))
    returns (r: Result<Ann, ReadError>)
    requires ds.Valid() && id1 < ds.totalLen && id2 < ds.totalLen
    requires IndicesIn(draws1, ds.totalLen) && IndicesIn(draws2, ds.totalLen)
    ensures r.Success? ==> fresh(r.value)
    ensures !Blends(u, prob) ==> ReadOutcome(ds, id1, draws1, imageSize, convert, r)
    ensures Blends(u, prob) ==> BlendOutcome(ds, id1, draws1, id2, draws2, imageSize, convert, r)
  {
    if u > prob {
      r := ReadAnnInfo(ds, id1, draws1, imageSize, convert);
    } else {
      r := BlendReads(ds, id1, draws1, id2, draws2, imageSize, convert);
    }
  }

  /** The blending branch of `Mix_Up_im`: `id1` and then `id2` are read,
      each with its own retry draws; the images must have the same size for
      `Image.blend`, and the second dictionary is merged into the first. The
      first failure stops it there. */
  method BlendReads(ds: CustomDataset, id1: nat, draws1: seq<nat>, id2: nat, draws2: seq<nat>,
                    imageSize: string -> (int, int),
                    convert: seq<Row> -> (seq<Row>, seq<Row>))
    returns (r: Result<Ann, ReadError>)
    requires ds.Valid() && id1 < ds.totalLen && id2 < ds.totalLen
    requires IndicesIn(draws1, ds.totalLen) && IndicesIn(draws2, ds.totalLen)
    ensures r.Success? ==> fresh(r.value)
    ensures BlendOutcome(ds, id1, draws1, id2, draws2, imageSize, convert, r)
  {
    CandidatesInRange(id1, draws1, |ds.imgInfos|);
    CandidatesInRange(id2, draws2, |ds.imgInfos|);
    var r1 := ReadAnnInfo(ds, id1, draws1, imageSize, convert);
    if r1.Failure? {
      FirstReadFailsBlend(ds, id1, draws1, id2, draws2, imageSize, convert, r1);
      return r1;
    }
    ghost var j1: nat :| j1 < |ds.imgInfos| && IsFirstWithBoxes(ds.imgInfos, [id1] + draws1, j1)
      && SizeMatches(ds, j1, imageSize)
      && r1.value.Describes(ds.imgInfos[j1], ds.imagesDir, ds.classes, convert);
    DescribedIsReadable(ds, j1, imageSize, convert, r1.value);
    assert ReadSucceeds(ds, id1, draws1, imageSize);
    var size1 := r1.value.imgSize;
    var r2 := ReadAnnInfo(ds, id2, draws2, imageSize, convert);
    if r2.Failure? {
      SecondReadFailsBlend(ds, id1, draws1, id2, draws2, imageSize, convert, r2);
      return r2;
    }
    ghost var j2: nat :| j2 < |ds.imgInfos| && IsFirstWithBoxes(ds.imgInfos, [id2] + draws2, j2)
      && SizeMatches(ds, j2, imageSize)
      && r2.value.Describes(ds.imgInfos[j2], ds.imagesDir, ds.classes, convert);
    DescribedIsReadable(ds, j2, imageSize, convert, r2.value);
    var size2 := r2.value.imgSize;
    if size1 != size2 {
      SizesDifferBlend(ds, id1, draws1, id2, draws2, imageSize, convert, j1, j2);
      return Failure(BlendSizeMismatch);
    }
    SameSizesBlend(ds, id1, draws1, id2, draws2, imageSize, j1, j2);
    var anno := MergeReads(r1.value, r2.value, ds.imgInfos[j1], ds.imgInfos[j2], ds.imagesDir, ds.classes, convert);
    r := Success(anno);
    assert IsFirstWithBoxes(ds.imgInfos, [id1] + draws1, j1) && IsFirstWithBoxes(ds.imgInfos, [id2] + draws2, j2);
    assert SizeMatches(ds, j1, imageSize) && SizeMatches(ds, j2, imageSize);
  }

  /** `mix_ann` applied to two dictionaries freshly read for `info1` and
      `info2` gives the merged description. */
  method MergeReads(anno1: Ann, anno2: Ann, ghost info1: Record, ghost info2: Record, ghost imagesDir: string,
                    ghost classes: Option<seq<string>>, ghost convert: seq<Row> -> (seq<Row>, seq<Row>))
    returns (r: Ann)
    requires anno1 != anno2
    requires anno1.Describes(info1, imagesDir, classes, convert)
    requires anno2.Describes(info2, imagesDir, classes, convert)
    modifies anno1`rboxes, anno1`hboxes, anno1`polys, anno1`labels
    ensures r == anno1
    ensures r.DescribesMix(info1, info2, imagesDir, classes, convert)
  {
    r := MixAnn(anno1, anno2);
  }
}
