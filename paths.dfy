/**
 * Path derivation in the dataset constructor: the choice between a single
 * dataset directory and an explicit images-directory / annotations-file pair.
 */
module Paths {
  import opened Wrappers

  /** The four assertions of the constructor, in the order they are checked. */
  datatype ConfigError =
    | DatasetDirWithImagesDir
    | DatasetDirWithAnnotationsFile
    | MissingImagesDir
    | MissingAnnotationsFile

  /** POSIX `os.path.join(a, b)` for two components: an absolute `b` replaces
      `a`; otherwise `b` is appended, with a separator unless `a` is empty or
      already ends in one. */
  function Join(a: string, b: string): (r: string)
    ensures |r| >= |b| && r[|r| - |b|..] == b
    ensures |b| > 0 && b[0] == '/' ==> r == b
    ensures (|b| == 0 || b[0] != '/') ==> a <= r
    ensures (|b| == 0 || b[0] != '/') && (a == [] || a[|a| - 1] == '/') ==> r == a + b
    ensures (|b| == 0 || b[0] != '/') && a != [] && a[|a| - 1] != '/' ==> |r| == |a| + 1 + |b| && r[|a|] == '/'
  {
    if |b| > 0 && b[0] == '/' then b
    else if a == [] || a[|a| - 1] == '/' then a + b
    else a + "/" + b
  }

  /** The constructor's path mode check: with `dataset_dir` set, neither
      explicit path may be given and both are derived from it; without it,
      both explicit paths are required. The result is (images dir,
      annotations file). */
  function ResolvePaths(imagesDir: Option<string>, annotationsFile: Option<string>, datasetDir: Option<string>)
    : (r: Result<(string, string), ConfigError>)
    ensures r.Success? <==>
      || (datasetDir.Some? && imagesDir.None? && annotationsFile.None?)
      || (datasetDir.None? && imagesDir.Some? && annotationsFile.Some?)
    ensures datasetDir.Some? && imagesDir.Some? ==> r == Failure(DatasetDirWithImagesDir)
    ensures datasetDir.Some? && imagesDir.None? && annotationsFile.Some? ==> r == Failure(DatasetDirWithAnnotationsFile)
    ensures datasetDir.None? && imagesDir.None? ==> r == Failure(MissingImagesDir)
    ensures datasetDir.None? && imagesDir.Some? && annotationsFile.None? ==> r == Failure(MissingAnnotationsFile)
    ensures r.Success? && datasetDir.Some? ==>
      r.value == (Join(datasetDir.value, "images"), Join(datasetDir.value, "labels.pkl"))
    ensures r.Success? && datasetDir.None? ==> r.value == (imagesDir.value, annotationsFile.value)
  {
    if datasetDir.Some? then
      if imagesDir.Some? then Failure(DatasetDirWithImagesDir)
      else if annotationsFile.Some? then Failure(DatasetDirWithAnnotationsFile)
      else Success((Join(datasetDir.value, "images"), Join(datasetDir.value, "labels.pkl")))
    else
      if imagesDir.None? then Failure(MissingImagesDir)
      else if annotationsFile.None? then Failure(MissingAnnotationsFile)
      else Success((imagesDir.value, annotationsFile.value))
  }

  /** In dataset-directory mode the two derived paths are distinct, both lie
      under the directory, and end in `images` and `labels.pkl`. */
  lemma DerivedPathsUnderDatasetDir(d: string)
    ensures var r := ResolvePaths(None, None, Some(d));
      && r.Success?
      && d <= r.value.0 && d <= r.value.1
      && r.value.0 != r.value.1
      && |r.value.0| >= 6 && r.value.0[|r.value.0| - 6..] == "images"
      && |r.value.1| >= 10 && r.value.1[|r.value.1| - 10..] == "labels.pkl"
  {
    var r := ResolvePaths(None, None, Some(d));
    var images, labels := r.value.0, r.value.1;
    if d == [] || d[|d| - 1] == '/' {
      assert |images| == |d| + 6 && |labels| == |d| + 10;
    } else {
      assert |images| == |d| + 7 && |labels| == |d| + 11;
    }
  }
}
