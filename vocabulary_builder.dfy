/** The vocabulary builder's descriptor pass: it computes every training
    image's SURF descriptors, writes them to the descriptors file under
    names derived from the image's stem, and accumulates them all in one
    matrix for clustering. SURF detection is OpenCV's and enters as each
    image's descriptor matrix. */
module Vocabulary {
  import opened CppStd
  import opened OpenCvMat
  import opened LabelledImages

  /** A value written to a `cv::FileStorage`. */
  datatype StorageValue = Text(text: string) | Matrix(mat: Mat) | TextList(texts: seq<string>)

  /** The key of the image list in the descriptors file. */
  const ImageFileListKey := "imagefile_list"

  /** The three entries written for one image, keyed by its stem. */
  function ImageEntries(imgLabel: string, imgFile: string, imgDescriptors: Mat): (entries: seq<(string, StorageValue)>)
    requires FitsString(imgFile)
    ensures |entries| == 3
  {
    var imgFilename := Stem(imgFile);
    [("name_" + imgFilename, Text(imgFile)),
     ("label_" + imgFilename, Text(imgLabel)),
     ("descriptors_" + imgFilename, Matrix(imgDescriptors))]
  }

  predicate AllFit(imgWithLabels: seq<(string, string)>) {
    forall i :: 0 <= i < |imgWithLabels| ==> FitsString(imgWithLabels[i].1)
  }

  /** The per-image entries of all images, in order. */
  function AllImageEntries(imgWithLabels: seq<(string, string)>, imgDescriptors: seq<Mat>): (entries: seq<(string, StorageValue)>)
    requires |imgDescriptors| == |imgWithLabels| && AllFit(imgWithLabels)
    ensures |entries| == 3 * |imgWithLabels|
  {
    if imgWithLabels == [] then []
    else
      var n := |imgWithLabels| - 1;
      AllImageEntries(imgWithLabels[..n], imgDescriptors[..n])
        + ImageEntries(imgWithLabels[n].0, imgWithLabels[n].1, imgDescriptors[n])
  }

  /** The filenames of the images, one per image, in order. */
  function Filenames(imgWithLabels: seq<(string, string)>): (files: seq<string>)
    ensures |files| == |imgWithLabels|
    ensures forall i :: 0 <= i < |files| ==> files[i] == imgWithLabels[i].1
  {
    seq(|imgWithLabels|, i requires 0 <= i < |imgWithLabels| => imgWithLabels[i].1)
  }

  /** All the matrices' rows, one matrix after the other. */
  function Concat(mats: seq<Mat>): Mat {
    if mats == [] then [] else Concat(mats[..|mats| - 1]) + mats[|mats| - 1]
  }

  function RowCount(mats: seq<Mat>): nat {
    if mats == [] then 0 else RowCount(mats[..|mats| - 1]) + |mats[|mats| - 1]|
  }

  /** The accumulated matrix has as many rows as all the images together. */
  lemma {:induction false} ConcatRowCount(mats: seq<Mat>)
    ensures |Concat(mats)| == RowCount(mats)
  {
    if mats != [] {
      ConcatRowCount(mats[..|mats| - 1]);
    }
  }

  /** An image's entries are named by its stem alone: the same filename
      under two labels, or two files differing only in extension, get the
      same three keys. */
  lemma KeysIgnoreLabelAndExtension(label1: string, file1: string, d1: Mat, label2: string, file2: string, d2: Mat)
    requires FitsString(file1) && FitsString(file2) && Stem(file1) == Stem(file2)
    ensures forall k :: 0 <= k < 3 ==> ImageEntries(label1, file1, d1)[k].0 == ImageEntries(label2, file2, d2)[k].0
  {
  }

  /** Example: "a.jpg" under "cat" and "a.png" under "dog" share the
      key `descriptors_a`. */
  lemma SameNameDifferentLabels()
    ensures ImageEntries("cat", "a.jpg", [])[2].0 == ImageEntries("dog", "a.png", [])[2].0 == "descriptors_a"
  {
    SplitAtLastDot("a.jpg");
    SplitAtLastDot("a.png");
    assert FindLastOf("a.jpg", '.') == 1 && FindLastOf("a.png", '.') == 1;
  }

  /** No entry of a descriptors file written here is named
      `image_label_list`, the key the SVM trainer reads its image list
      from: every per-image key starts with `name_`, `label_` or
      `descriptors_`, and the image list is under `imagefile_list`. */
  lemma {:induction false} NoImageLabelList(imgWithLabels: seq<(string, string)>, imgDescriptors: seq<Mat>, k: nat)
    requires |imgDescriptors| == |imgWithLabels| && AllFit(imgWithLabels)
    requires k < |AllImageEntries(imgWithLabels, imgDescriptors) + [(ImageFileListKey, TextList(Filenames(imgWithLabels)))]|
    ensures (AllImageEntries(imgWithLabels, imgDescriptors) + [(ImageFileListKey, TextList(Filenames(imgWithLabels)))])[k].0 != "image_label_list"
  {
    var entries := AllImageEntries(imgWithLabels, imgDescriptors);
    if k < |entries| {
      var n := |imgWithLabels| - 1;
      var front := AllImageEntries(imgWithLabels[..n], imgDescriptors[..n]);
      if k < |front| {
        assert AllFit(imgWithLabels[..n]);
        NoImageLabelList(imgWithLabels[..n], imgDescriptors[..n], k);
        assert entries[k] == (front + [(ImageFileListKey, TextList(Filenames(imgWithLabels[..n])))])[k];
      } else {
        var key := entries[k].0;
        assert key[0] in {'n', 'l', 'd'};
      }
    } else {
      assert ImageFileListKey[5] != "image_label_list"[5];
    }
  }

  class VocabularyBuilder {
    var imgBasePath: string
    var descriptorsFile: string
    var vocabularyFile: string
    var cntBowClusters: int
    var surfMinHessian: int
    var descriptors: Mat
    var vocabulary: Mat

    /** Everything but the two matrices. */
    function Settings(): (string, string, string, int, int)
      reads this
    {
      (imgBasePath, descriptorsFile, vocabularyFile, cntBowClusters, surfMinHessian)
    }

    /** The default constructor: empty paths and matrices, 0 clusters and
        hessian 0. */
    constructor Default()
      ensures Settings() == ("", "", "", 0, 0)
      ensures descriptors == [] && vocabulary == []
    {
      imgBasePath, descriptorsFile, vocabularyFile := "", "", "";
      cntBowClusters, surfMinHessian := 0, 0;
      descriptors, vocabulary := [], [];
    }

    /** 1000 clusters and hessian 400. */
    constructor (imgBasePath: string, descriptorsFile: string, vocabularyFile: string)
      ensures Settings() == (imgBasePath, descriptorsFile, vocabularyFile, 1000, 400)
      ensures descriptors == [] && vocabulary == []
    {
      this.imgBasePath := imgBasePath;
      this.descriptorsFile := descriptorsFile;
      this.vocabularyFile := vocabularyFile;
      cntBowClusters, surfMinHessian := 1000, 400;
      descriptors, vocabulary := [], [];
    }

    /** Sets the three paths and releases both matrices. */
    method Reset(imgBasePath: string, descriptorsFile: string, vocabularyFile: string)
      modifies this
      ensures Settings() == (imgBasePath, descriptorsFile, vocabularyFile, old(cntBowClusters), old(surfMinHessian))
      ensures descriptors == [] && vocabulary == []
    {
      this.imgBasePath := imgBasePath;
      this.descriptorsFile := descriptorsFile;
      this.vocabularyFile := vocabularyFile;
      descriptors := [];
      vocabulary := [];
    }

    /** For each (label, file) pair, writes the image's name, label and
        descriptors under its stem and appends its descriptors to
        `descriptors`, which is not cleared first; then writes the list of
        filenames. Returns what it writes and the accumulated matrix.
        `GetImagesWithLabels` and SURF detection are inputs: the pairs and
        each image's descriptors. */
    method ComputeDescriptors(imgWithLabels: seq<(string, string)>, imgDescriptors: seq<Mat>)
      returns (written: seq<(string, StorageValue)>, allImgs: seq<string>, descriptorsOut: Mat)
      requires |imgDescriptors| == |imgWithLabels| && AllFit(imgWithLabels)
      modifies this
      ensures Settings() == old(Settings()) && vocabulary == old(vocabulary)
      ensures descriptors == old(descriptors) + Concat(imgDescriptors)
      ensures allImgs == Filenames(imgWithLabels)
      ensures written == AllImageEntries(imgWithLabels, imgDescriptors) + [(ImageFileListKey, TextList(allImgs))]
      ensures descriptorsOut == descriptors
    {
      var accumulated := descriptors;
      written := [];
      allImgs := [];
      for i := 0 to |imgWithLabels|
        invariant AllFit(imgWithLabels[..i])
        invariant accumulated == old(descriptors) + Concat(imgDescriptors[..i])
        invariant allImgs == Filenames(imgWithLabels[..i])
        invariant written == AllImageEntries(imgWithLabels[..i], imgDescriptors[..i])
      {
        var imgLabel := imgWithLabels[i].0;
        var imgFile := imgWithLabels[i].1;
        allImgs := allImgs + [imgFile];

        var dotPos := FindLastOf(imgFile, '.');
        var imgFilename := Substr(imgFile, 0, dotPos).value;
        // The extension is computed as in the C++ code, which never uses it.
        var imgFileExtension := Substr(imgFile, SizeAdd(dotPos, 1)).value;

        written := written + [("name_" + imgFilename, Text(imgFile)),
                              ("label_" + imgFilename, Text(imgLabel)),
                              ("descriptors_" + imgFilename, Matrix(imgDescriptors[i]))];
        accumulated := accumulated + imgDescriptors[i];

        assert imgWithLabels[..i + 1][..i] == imgWithLabels[..i];
        assert imgDescriptors[..i + 1][..i] == imgDescriptors[..i];
      }
      assert imgWithLabels[..|imgWithLabels|] == imgWithLabels;
      assert imgDescriptors[..|imgDescriptors|] == imgDescriptors;
      written := written + [(ImageFileListKey, TextList(allImgs))];
      descriptors := accumulated;
      descriptorsOut := descriptors;
    }
  }

  /** The accumulated matrix ends with the prior rows plus every image's
      rows. */
  lemma DescriptorRowCount(prior: Mat, imgDescriptors: seq<Mat>)
    ensures |prior + Concat(imgDescriptors)| == |prior| + RowCount(imgDescriptors)
  {
    ConcatRowCount(imgDescriptors);
  }
}
