/** The deterministic shell of the `segmenter_tumor_from_image` tool: the
    missing-file guard, the three PNG names `showPredicts` derives from the FLAIR
    path, the slice arithmetic, and the shape of the JSON it answers with. The
    network, the volume files and the plotting are abstract: whether a path is a
    file is a parameter, and so is the message of an exception raised after the
    guard. */
module SegmenterTool {
  import opened Wrappers
  import opened Strings
  import opened PyJson

  const OutInputDir := "data/segmentations/"
  const VolumeSlices: nat := 100
  const VolumeStartAt: nat := 22
  const SelectedSliceIdx: nat := 60
  const FlairSuffix := "_flair.nii"
  const PngSuffix := ".png"
  const InputPrefix := "Imagen_Cerebral_slice_" + Decimal(SelectedSliceIdx) + "_"
  const MaskPrefix := "Aleatorio_"
  const OverlayPrefix := "Resultado_segmentacion_superpuesto_"

  /** `os.path.basename(path)`: what follows the last `/`, the whole path
      when it has none. */
  function Basename(path: string): (r: string)
    ensures '/' !in r
    ensures |r| <= |path| && r == path[|path| - |r|..]
    ensures r == path || path[|path| - |r| - 1] == '/'
    decreases |path|
  {
    if path == [] || path[|path| - 1] == '/' then []
    else
      var front := path[..|path| - 1];
      var last := path[|path| - 1];
      var init := Basename(front);
      assert path == front + [last];
      assert path[|path| - 1 - |init|..] == front[|front| - |init|..] + [last];
      assert init != front ==> path[|path| - |init| - 2] == front[|front| - |init| - 1];
      init + [last]
  }

  /** `os.path.basename(flair_path).replace("_flair.nii", ".png")`. */
  function PngName(flairPath: string): string {
    Replace(Basename(flairPath), FlairSuffix, PngSuffix)
  }

  /** The tuple `showPredicts` returns: `(png_input, png_mask, png_overlay)`. */
  datatype Outputs = Outputs(inputSlice: string, maskFile: string, overlayFile: string)

  /** The three names built in `showPredicts`. */
  function ShowPredicts(flairPath: string): Outputs {
    Outputs(OutInputDir + InputPrefix + PngName(flairPath),
            OutInputDir + MaskPrefix + PngName(flairPath),
            OutInputDir + OverlayPrefix + PngName(flairPath))
  }

  /** The JSON the tool answers with after a successful segmentation. */
  function OutputDoc(o: Outputs): Json {
    JObj([("input_slice", JStr(o.inputSlice)), ("mask_file", JStr(o.maskFile)), ("overlay_file", JStr(o.overlayFile))])
  }

  function NotFound(path: string): string {
    "Image file not found: " + path
  }

  /** The answer of `segmenter_tumor_from_image(flairPath, t1cePath)` when
      `isFile` says which paths are files and `failure` is the message of the
      exception raised after the guard, if any. */
  function SegmentSpec(flairPath: string, t1cePath: string, isFile: string -> bool, failure: Option<string>): Json {
    if !isFile(flairPath) then ErrorDoc(NotFound(flairPath))
    else if !isFile(t1cePath) then ErrorDoc(NotFound(t1cePath))
    else match failure
      case Some(m) => ErrorDoc(m)
      case None => OutputDoc(ShowPredicts(flairPath))
  }

  /** The guard loop over `(flair_path, t1ce_path)` and what follows it. */
  method Segment(flairPath: string, t1cePath: string, isFile: string -> bool, failure: Option<string>)
    returns (r: Json)
    ensures r == SegmentSpec(flairPath, t1cePath, isFile, failure)
  {
    var paths := [flairPath, t1cePath];
    var i := 0;
    while i < |paths|
      invariant 0 <= i <= |paths|
      invariant forall k :: 0 <= k < i ==> isFile(paths[k])
    {
      if !isFile(paths[i]) {
        assert i == 1 ==> isFile(paths[0]);
        return ErrorDoc(NotFound(paths[i]));
      }
      i := i + 1;
    }
    assert isFile(paths[0]) && isFile(paths[1]);
    if failure.Some? {
      return ErrorDoc(failure.value);
    }
    return OutputDoc(ShowPredicts(flairPath));
  }

  /** The volume slices the input loop reads: `j + VOLUME_START_AT` for
      `j in range(VOLUME_SLICES)`. */
  function ReadSlices(): (r: seq<nat>)
    ensures |r| == VolumeSlices
  {
    seq(VolumeSlices, j requires 0 <= j < VolumeSlices => j + VolumeStartAt)
  }

  /** The volume slice `showPredicts` displays for a given prediction slice. */
  function ShownSlice(startSlice: nat): nat {
    startSlice + VolumeStartAt
  }

  /** The FLAIR path is checked first: a missing FLAIR file is reported whether
      or not the T1CE file exists; a missing T1CE file only when the FLAIR file
      exists. A missing file's answer does not depend on `failure`: the guard
      answers before the segmentation can raise. Past the guard the answer is
      the three names or the exception. */
  lemma GuardOrder(flairPath: string, t1cePath: string, isFile: string -> bool, failure: Option<string>)
    ensures !isFile(flairPath) ==>
              SegmentSpec(flairPath, t1cePath, isFile, failure) == ErrorDoc(NotFound(flairPath))
    ensures isFile(flairPath) && !isFile(t1cePath) ==>
              SegmentSpec(flairPath, t1cePath, isFile, failure) == ErrorDoc(NotFound(t1cePath))
    ensures isFile(flairPath) && isFile(t1cePath) && failure.None? ==>
              SegmentSpec(flairPath, t1cePath, isFile, failure) == OutputDoc(ShowPredicts(flairPath))
    ensures isFile(flairPath) && isFile(t1cePath) && failure.Some? ==>
              SegmentSpec(flairPath, t1cePath, isFile, failure) == ErrorDoc(failure.value)
  {
  }

  /** The input prefix carries the selected slice index 60. */
  lemma InputPrefixValue()
    ensures InputPrefix == "Imagen_Cerebral_slice_60_"
  {
    assert Decimal(60) == Decimal(6) + Decimal(0);
  }

  /** The three names share the directory and the PNG name and differ in their
      prefix, so they are pairwise distinct. */
  lemma NamesDistinct(flairPath: string)
    ensures var o := ShowPredicts(flairPath);
            o.inputSlice != o.maskFile && o.maskFile != o.overlayFile && o.inputSlice != o.overlayFile
  {
    var o := ShowPredicts(flairPath);
    var d := |OutInputDir|;
    InputPrefixValue();
    assert o.inputSlice[d] == 'I';
    assert o.maskFile[d] == 'A';
    assert o.overlayFile[d] == 'R';
  }

  /** The base name of `dir/name` is `name` when `name` has no `/`. */
  lemma {:induction false} BasenameOfPath(dir: string, name: string)
    requires '/' !in name
    ensures Basename(dir + "/" + name) == name
    decreases |name|
  {
    if name != [] {
      var init := name[..|name| - 1];
      BasenameOfPath(dir, init);
      assert (dir + "/" + name)[..|dir + "/" + name| - 1] == dir + "/" + init;
    }
  }

  /** `_`, the first character of `"_flair.nii"`, does not occur again in it. */
  lemma FlairSuffixHeadUnique()
    ensures forall k :: 1 <= k < |FlairSuffix| ==> FlairSuffix[k] != FlairSuffix[0]
  {
  }

  /** A FLAIR file named the way the dataset names them, `<dir>/<name>_flair.nii`,
      gives the PNG name `<name>.png` when `<name>` itself does not contain the
      suffix. */
  lemma PngNameOfFlairFile(dir: string, name: string)
    requires '/' !in name && !Contains(name, FlairSuffix)
    ensures PngName(dir + "/" + name + FlairSuffix) == name + PngSuffix
  {
    assert dir + "/" + name + FlairSuffix == dir + "/" + (name + FlairSuffix);
    assert '/' !in FlairSuffix;
    BasenameOfPath(dir, name + FlairSuffix);
    FlairSuffixHeadUnique();
    ReplaceAppended(name, FlairSuffix, PngSuffix);
  }

  /** The input loop reads 100 consecutive slices starting at 22, and the slice
      shown for the default prediction slice 60 is volume slice 82, one of them. */
  lemma SliceWindow()
    ensures ReadSlices()[0] == 22 && ReadSlices()[|ReadSlices()| - 1] == 121
    ensures forall j :: 0 <= j < |ReadSlices()| - 1 ==> ReadSlices()[j + 1] == ReadSlices()[j] + 1
    ensures ShownSlice(SelectedSliceIdx) == 82 && ReadSlices()[SelectedSliceIdx] == 82
  {
  }

  /** The tool reports the mask under `mask_file` and never under `saved_mask`,
      the key the report validator looks for. */
  lemma NoSavedMaskKey(flairPath: string, t1cePath: string, isFile: string -> bool, failure: Option<string>)
    ensures !HasKey(SegmentSpec(flairPath, t1cePath, isFile, failure), "saved_mask")
    ensures isFile(flairPath) && isFile(t1cePath) && failure.None? ==>
              HasKey(SegmentSpec(flairPath, t1cePath, isFile, failure), "mask_file")
  {
    var r := SegmentSpec(flairPath, t1cePath, isFile, failure);
    LookupAbsent(r.fields, "saved_mask");
  }
}
