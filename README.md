# Dataset adapter for oriented-box detection: a verified model

`custom.py` defines `CustomDataset`, the dataset class of an object-detection
training framework for oriented (rotated) boxes. It loads a list of
per-image annotation records, drops the records without ground-truth boxes
or below a minimum size, rebuilds an annotation dictionary for each sample
it reads, can merge two samples for mix-up augmentation, and stacks samples
into zero-padded mini-batches. This project models the parts of that file
that compute something:

- `Annotations`: the annotation record and `_filter_imgs`, with the
  filter's characterisation (exactly the passing records, in order).
- `Paths`: the constructor's choice between a single `dataset_dir`
  (giving `dataset_dir/images` and `dataset_dir/labels.pkl`) and an explicit
  `images_dir` / `annotations_file` pair, with its four assertion failures.
- `Transforms`: `need_mix` over a list of transform configurations.
- `Collate`: `collate_batch`, over `array3` images and a fresh `array4`
  buffer. A scan loop computes the maxima. The slots are then filled by
  slice assignment, modelled as a `forall` statement.
- `Dataset`: the constructor, the index-retry loop and the dictionary
  assembly of `_read_ann_info`, the annotation dictionary as a class,
  `mix_ann` updating it in place, and the annotation side of `Mix_Up_im`
  (its draw test, the reads it makes and their order).
- `Wrappers`: `Option` and `Result`. Raised exceptions and assertion
  failures become `Failure` values.

The dataset's fields are only assigned while the constructor runs, so
the dataset is a datatype value. The annotation dictionary is changed in
place by `mix_ann`, so it is a class with one field per key.

Points where the code's behaviour is easy to misread:

- The class docstring calls `bboxes_ignore` an optional field
  (`custom.py:26-27`). The code reads that key without a default
  (`custom.py:74,81`), so a record without it makes the read fail
  (`MissingIgnoreBoxes`).
- Mix-up is skipped only when `uniform(0, 1) > prob` (`custom.py:129`).
  With `prob == 0`, a draw of exactly 0.0 therefore still blends
  (`Dataset.Blends`).
- `_read_ann_info` never puts `labels_ignore` into the dictionary it builds.
  The model's `Ann` class has no such field either.

## Model

| member | source | states |
|---|---|---|
| Annotations.FilterImgs | custom.py:55-57 | every returned record has at least one box and min(width, height) >= min_size; a record is in the result iff it is in the input and passes that test; the result is no longer than the input |
| Annotations.KeptPositions | custom.py:56-57 | the positions of the input whose records pass the test, strictly increasing; the filter's result is the input read at exactly these positions |
| Annotations.FilterIsOrderedSubsequence | custom.py:56-57 | the result is an order-preserving subsequence of the input, and every input record that passes the test is in it at its place |
| Annotations.FilterAppend | custom.py:56-57 | filtering a concatenation is the concatenation of the filtered parts |
| Annotations.FilterIsIdentityIff | custom.py:56-57 | the filter returns its input unchanged iff every record passes |
| Annotations.FilterIdempotent | custom.py:51-52 | filtering an already filtered list with the same min_size changes nothing |
| Annotations.FilterStricter | custom.py:55-57 | filtering with a looser min_size and then a stricter one equals filtering with the stricter one alone |
| Paths.Join | custom.py:39-40 | the joined path ends with the second component; an absolute second component replaces the first; otherwise it is the first followed by the second, with exactly one `/` inserted when the first is non-empty and does not already end in one |
| Paths.ResolvePaths | custom.py:36-45 | succeeds iff exactly one mode is given (dataset_dir alone, or both images_dir and annotations_file); each other combination fails with the assertion that fires first; the paths are dataset_dir/images and dataset_dir/labels.pkl, or the two given paths |
| Paths.DerivedPathsUnderDatasetDir | custom.py:39-40 | in dataset-directory mode both derived paths start with the directory, differ, and end in `images` and `labels.pkl` |
| Transforms.NeedMix | custom.py:145-151 | true iff some configuration in the list has some value equal to 'Mix_Up', 'copypaste' or 'RMosaic'; false for the empty list |
| Transforms.NeedMixAppend | custom.py:146-151 | need_mix of a concatenation is the disjunction of need_mix of the parts |
| Transforms.MosaicNeedsMix | custom.py:145-151 | a list holding a configuration whose type is 'RMosaic' needs mixing wherever that configuration stands |
| Collate.ScanBatch | custom.py:93-102 | images and annotations are collected in batch order; the heights' and widths' maxima are bounds on every image and attained by one, or 0 for an empty batch |
| Collate.CollateBatch | custom.py:92-108 | the buffer is new with shape (N, 3, max height, max width); slot i holds image i in rows below h_i and columns below w_i in every channel and 0 elsewhere; the annotations are the input's, in order; it fails, at the first such image, iff some image has a channel count other than 1 or 3 |
| Collate.ExampleShape | custom.py:98-104 | images of heights/widths 4x6 and 5x5 give a buffer of height 5 and width 6 |
| Dataset.NewDataset | custom.py:33-53 | fails exactly with the path check's error; otherwise the recorded length is the list's length, the paths are the resolved ones, CLASSES is None, and the list is the loaded one, or with filter_empty_gt exactly the filter's result on it (so order and multiplicity follow KeptPositions) |
| Dataset.FilteredDatasetHasBoxes | custom.py:51-52 | with filter_empty_gt every record of the constructed dataset has boxes |
| Dataset.ChooseIndex | custom.py:60-64 | a record with boxes at the requested index is kept; otherwise the result is the first drawn index whose record has boxes; no result iff neither the index nor any supplied draw has boxes |
| Dataset.Ann.constructor | custom.py:76-89 | the new dictionary holds exactly the given values |
| Dataset.ReadAnnInfo | custom.py:59-90 | the dictionary describes the first candidate record with boxes: the record's boxes and labels, the converted boxes and polygons, its ignore boxes, the recorded size as both original and current size, scale 1.0, the filename and the joined path; it fails with a size mismatch when the image is not the recorded size, and with a missing-key error when the ignore boxes are absent |
| Dataset.MixAnn | custom.py:137-142 | rboxes, hboxes, polys and labels become anno1's rows followed by anno2's, so the label count is the sum; every other key of anno1 keeps its value, the ignore sets included; anno2 is untouched; anno1 itself is returned |
| Dataset.Blends | custom.py:129 | a probability of 1 or more always blends for a draw in [0, 1); a negative one never blends; a probability of 0 blends only on a draw of exactly 0 |
| Dataset.MixUpIm | custom.py:128-136 | without blending the result is the read of id1 alone (id2 is never read); with blending it is the outcome of `BlendReads` |
| Dataset.BlendReads | custom.py:132-136 | id1 is read first and a failure there is the result, then id2 and a failure there is the result; the blend fails with a size mismatch exactly when both reads succeed on records of different (width, height); on success the two records have the same size and the dictionary is id1's with id2's oriented boxes, converted boxes, polygons and labels appended, every other key being id1's |
| Dataset.FirstWithBoxesUnique | custom.py:60-64 | the index the retry loop settles on is unique: two first candidates with boxes are the same record |
| Dataset.FailedReadDoesNotSucceed | custom.py:60-81 | a read that ends in an error leaves no readable first candidate with boxes |

## Left out

- Image I/O: opening and decoding images, RGB conversion and the pixel
  blend (`custom.py:68,134`) use the file system and PIL. `ReadAnnInfo`
  takes the image size of a path as a function parameter. Read errors are
  not modelled. Of the blend only its size test is modelled: both images
  are RGB after conversion, so `Image.blend` fails only when their sizes
  differ.
- The annotation store is read by a foreign deserialiser (`custom.py:50`).
  `NewDataset` takes it as a function from path to record list.
- `os.path.abspath` is not modelled, because it depends on the working
  directory (`custom.py:39-45`).
- The box conversion `rotated_box_to_bbox_np` (`custom.py:73-74`) is
  floating-point geometry in another module. It is a function parameter
  and its output rows are opaque.
- Randomness (`custom.py:64,115,129`): the retry loop's draws are a
  sequence parameter, and the mix-up draw is a real parameter. Float
  rounding is not modelled.
- Dataset.ChooseIndex: the source's `while True` can run for ever. The
  model consumes a finite sequence of draws and returns `None` once they
  run out, so it does not capture non-termination.
- `__getitem__` (`custom.py:110-123`) only puts the above together with
  two outside inputs. The `BATCH_IDX` override reads the process
  environment. The composed transform pipeline is an external framework.
  Neither is modelled.
- The jittor `Dataset` base class and its options (batch size, workers,
  shuffling, dropping the last batch) are an external framework.
- The `astype` casts to float32 and int32 are not modelled. Pixels are
  integers and box coordinates are reals.
- `evaluate` (`custom.py:125-126`) only raises "not implemented".
- Dataset.MixAnn: `np.r_` fails when the two arrays have different column
  counts. Rows are opaque here, so that error is not modelled.
- Collate.CollateBatch: images are three-dimensional. The numpy
  broadcasting of two-dimensional images into a slot is not modelled.
- Dataset.ReadAnnInfo: Python's negative list indices are not modelled.
  The requested index must be in range.
- Transforms.NeedMix: a `trans_list` of `None` (the default `transforms`)
  and entries that are not dictionaries raise a `TypeError` or an
  `AttributeError` in the source. The model's list holds only
  dictionaries.
