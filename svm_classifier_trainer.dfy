/** The bag-of-words trainer: it reads every training image's descriptors,
    turns them into one bag-of-words (BOW) row per image, groups the rows by
    label, and fits one one-vs-all SVM per label. BOW extraction and SVM
    fitting are OpenCV's and enter only as the matrices they consume and
    produce. */
module SvmTraining {
  import opened CppStd
  import opened OpenCvMat
  import opened LabelledImages
  import StdMap

  /** The `image_label_list` node of a descriptors file: a sequence of
      strings, or a node of any other type (a missing key reads as a node of
      type NONE). */
  datatype ListNode = SeqNode(items: seq<string>) | OtherNode

  /** A descriptors file as the trainer sees it: the image list node and the
      matrices stored under their keys. */
  datatype DescriptorsFile = DescriptorsFile(imageLabelList: ListNode, mats: map<string, Mat>)

  /** One SVM the trainer fits and saves: the class it recognises, the file
      it is saved to, and its training samples with one response each. */
  datatype SvmTrainingSet = SvmTrainingSet(className: string, classifierFilename: string, samples: Mat, responses: seq<int>)

  // -----------------------------------------------------------------------
  // The image list and the descriptor keys.

  /** The flat node a list of (filename, label) pairs is written as: the
      filename, then the label, pair after pair. */
  function Flatten(pairs: seq<(string, string)>): (flat: seq<string>)
    ensures |flat| == 2 * |pairs|
  {
    if pairs == [] then [] else [pairs[0].0, pairs[0].1] + Flatten(pairs[1..])
  }

  /** The flat node read back two entries at a time. */
  function Unflatten(flat: seq<string>): (pairs: seq<(string, string)>)
    requires |flat| % 2 == 0
    ensures 2 * |pairs| == |flat|
    ensures forall i :: 0 <= i < |pairs| ==> pairs[i] == (flat[2 * i], flat[2 * i + 1])
  {
    if flat == [] then [] else [(flat[0], flat[1])] + Unflatten(flat[2..])
  }

  lemma {:induction false} FlattenAppend(pairs: seq<(string, string)>, p: (string, string))
    ensures Flatten(pairs + [p]) == Flatten(pairs) + [p.0, p.1]
  {
    if pairs != [] {
      assert (pairs + [p])[1..] == pairs[1..] + [p];
      FlattenAppend(pairs[1..], p);
    }
  }

  /** Decoding what was encoded gives back the list. */
  lemma {:induction false} UnflattenFlatten(pairs: seq<(string, string)>)
    ensures Unflatten(Flatten(pairs)) == pairs
  {
    if pairs != [] {
      UnflattenFlatten(pairs[1..]);
      assert Flatten(pairs)[2..] == Flatten(pairs[1..]);
    }
  }

  /** Encoding what was decoded gives back the node. */
  lemma {:induction false} FlattenUnflatten(flat: seq<string>)
    requires |flat| % 2 == 0
    ensures Flatten(Unflatten(flat)) == flat
  {
    if flat != [] {
      FlattenUnflatten(flat[2..]);
      assert Unflatten(flat)[1..] == Unflatten(flat[2..]);
    }
  }

  /** The (filename, label) pairs of a descriptors file. */
  function ImageLabelPairs(file: DescriptorsFile): seq<(string, string)>
    requires file.imageLabelList.SeqNode? && |file.imageLabelList.items| % 2 == 0
  {
    Unflatten(file.imageLabelList.items)
  }

  /** The key of the `imgIndex`-th image's descriptors. */
  function DescriptorsKey(imgIndex: nat): (key: string)
    ensures |key| > 12 && key[..12] == "descriptors_"
    ensures forall k :: 12 <= k < |key| ==> '0' <= key[k] <= '9'
  {
    "descriptors_" + ToString(imgIndex)
  }

  /** Different positions never share a descriptors key. */
  lemma DescriptorsKeyInjective(i: nat, j: nat)
    requires DescriptorsKey(i) == DescriptorsKey(j)
    ensures i == j
  {
    PrependCancel("descriptors_", ToString(i), ToString(j));
    ToStringInjective(i, j);
  }

  /** The matcher's image list: `GetImagesWithLabels` gives (label, file)
      pairs, and each is written file first. */
  function FileFirst(labelledImgs: seq<(string, string)>): (pairs: seq<(string, string)>)
    ensures |pairs| == |labelledImgs|
    ensures forall i :: 0 <= i < |pairs| ==> pairs[i] == (labelledImgs[i].1, labelledImgs[i].0)
  {
    seq(|labelledImgs|, i requires 0 <= i < |labelledImgs| => (labelledImgs[i].1, labelledImgs[i].0))
  }

  /** What the matcher descriptors file holds once written: the image list,
      file first, and the `i`-th image's descriptors under
      `descriptors_<i>`, and no other matrix. */
  predicate WritesMatcherDescriptors(written: DescriptorsFile, labelledImgs: seq<(string, string)>, descriptors: seq<Mat>)
    requires |descriptors| == |labelledImgs|
  {
    && written.imageLabelList == SeqNode(Flatten(FileFirst(labelledImgs)))
    && (forall i :: 0 <= i < |descriptors| ==> DescriptorsKey(i) in written.mats && written.mats[DescriptorsKey(i)] == descriptors[i])
    && (forall k :: k in written.mats ==> exists i :: 0 <= i < |descriptors| && k == DescriptorsKey(i))
  }

  /** Reading a written matcher descriptors file back recovers, position by
      position, each image's filename, label and descriptors. */
  lemma MatcherDescriptorsRoundTrip(written: DescriptorsFile, labelledImgs: seq<(string, string)>, descriptors: seq<Mat>)
    requires |descriptors| == |labelledImgs|
    requires WritesMatcherDescriptors(written, labelledImgs, descriptors)
    ensures written.imageLabelList.SeqNode? && |written.imageLabelList.items| % 2 == 0
    ensures ImageLabelPairs(written) == FileFirst(labelledImgs)
    ensures forall i :: 0 <= i < |descriptors| ==> MatOrEmpty(written.mats, DescriptorsKey(i)) == descriptors[i]
  {
    UnflattenFlatten(FileFirst(labelledImgs));
  }

  // -----------------------------------------------------------------------
  // Descriptors and BOW rows per image, grouped by label.

  /** What the first loop of `ComputeBowDescriptors` inserts, in order: the
      `i`-th image's descriptors under its label-qualified key. */
  function DescriptorEntries(pairs: seq<(string, string)>, file: DescriptorsFile): (entries: seq<(string, Mat)>)
    ensures |entries| == |pairs|
    ensures forall i :: 0 <= i < |pairs| ==> entries[i] == (ImageMapKey(pairs[i].1, pairs[i].0), MatOrEmpty(file.mats, DescriptorsKey(i)))
  {
    seq(|pairs|, i requires 0 <= i < |pairs| => (ImageMapKey(pairs[i].1, pairs[i].0), MatOrEmpty(file.mats, DescriptorsKey(i))))
  }

  /** What the second loop groups, in order: each image's label with the BOW
      rows computed from the descriptors stored under its key. */
  function BowEntries(pairs: seq<(string, string)>, img2Descriptors: map<string, Mat>, bowCompute: Mat -> Mat): (entries: seq<(string, Mat)>)
    ensures |entries| == |pairs|
    ensures forall i :: 0 <= i < |pairs| ==> entries[i] == (pairs[i].1, bowCompute(MatOrEmpty(img2Descriptors, ImageMapKey(pairs[i].1, pairs[i].0))))
  {
    seq(|pairs|, i requires 0 <= i < |pairs| => (pairs[i].1, bowCompute(MatOrEmpty(img2Descriptors, ImageMapKey(pairs[i].1, pairs[i].0)))))
  }

  /** Files one image's BOW rows under its label: the first image of a
      label inserts them, later ones append to them. */
  function AddBowRows(groups: map<string, Mat>, imgLabel: string, bowDescriptor: Mat): (r: map<string, Mat>)
    ensures r.Keys == groups.Keys + {imgLabel}
    ensures r[imgLabel] == MatOrEmpty(groups, imgLabel) + bowDescriptor
    ensures forall l :: l in groups && l != imgLabel ==> r[l] == groups[l]
  {
    if imgLabel in groups then groups[imgLabel := groups[imgLabel] + bowDescriptor]
    else groups[imgLabel := bowDescriptor]
  }

  /** `AddBowRows` for every entry, in order. */
  function Grouped(groups: map<string, Mat>, entries: seq<(string, Mat)>): map<string, Mat> {
    if entries == [] then groups
    else
      var last := entries[|entries| - 1];
      AddBowRows(Grouped(groups, entries[..|entries| - 1]), last.0, last.1)
  }

  /** The rows of every entry labelled `l`, in entry order. */
  function RowsOf(entries: seq<(string, Mat)>, l: string): Mat {
    if entries == [] then []
    else
      var last := entries[|entries| - 1];
      RowsOf(entries[..|entries| - 1], l) + (if last.0 == l then last.1 else [])
  }

  /** How many entries carry label `l`. */
  function ImageCount(entries: seq<(string, Mat)>, l: string): nat {
    if entries == [] then 0
    else ImageCount(entries[..|entries| - 1], l) + (if entries[|entries| - 1].0 == l then 1 else 0)
  }

  /** After grouping, a label is present exactly when it was before or some
      entry carries it; its matrix is what it held before followed by the
      rows of its entries in order; a label no entry carries is unchanged. */
  lemma {:induction false} GroupedSpec(groups: map<string, Mat>, entries: seq<(string, Mat)>, l: string)
    ensures l in Grouped(groups, entries) <==> l in groups || StdMap.HasKey(entries, l)
    ensures l in Grouped(groups, entries) ==> Grouped(groups, entries)[l] == MatOrEmpty(groups, l) + RowsOf(entries, l)
    ensures !StdMap.HasKey(entries, l) ==> RowsOf(entries, l) == []
  {
    if entries != [] {
      var n := |entries| - 1;
      var prefix := entries[..n];
      GroupedSpec(groups, prefix, l);
      StdMap.HasKeyStep(entries, l);
      var g := Grouped(groups, prefix);
      assert Grouped(groups, entries) == AddBowRows(g, entries[n].0, entries[n].1);
      assert RowsOf(entries, l) == RowsOf(prefix, l) + (if entries[n].0 == l then entries[n].1 else []);
    }
  }

  /** With one BOW row per image, a label's rows are as many as its images. */
  lemma {:induction false} RowsOfCount(entries: seq<(string, Mat)>, l: string)
    requires forall i :: 0 <= i < |entries| ==> |entries[i].1| == 1
    ensures |RowsOf(entries, l)| == ImageCount(entries, l)
  {
    if entries != [] {
      RowsOfCount(entries[..|entries| - 1], l);
    }
  }

  /** With one BOW row per image, grouping adds to each label as many rows
      as it has images. */
  lemma BowRowCount(groups: map<string, Mat>, entries: seq<(string, Mat)>, l: string)
    requires forall i :: 0 <= i < |entries| ==> |entries[i].1| == 1
    requires l in Grouped(groups, entries)
    ensures |Grouped(groups, entries)[l]| == |MatOrEmpty(groups, l)| + ImageCount(entries, l)
  {
    GroupedSpec(groups, entries, l);
    RowsOfCount(entries, l);
  }

  // -----------------------------------------------------------------------
  // One-vs-all training sets.

  predicate AllIn(order: seq<string>, m: map<string, Mat>) {
    forall i :: 0 <= i < |order| ==> order[i] in m
  }

  predicate Distinct(order: seq<string>) {
    forall i, j :: 0 <= i < j < |order| ==> order[i] != order[j]
  }

  /** The rows of every class of `order` other than `c`, in that order. */
  function OtherRows(m: map<string, Mat>, order: seq<string>, c: string): Mat
    requires AllIn(order, m)
  {
    if order == [] then []
    else
      var last := order[|order| - 1];
      OtherRows(m, order[..|order| - 1], c) + (if last != c then m[last] else [])
  }

  /** The rows of all the classes of `order`. */
  function TotalRows(m: map<string, Mat>, order: seq<string>): nat
    requires AllIn(order, m)
  {
    if order == [] then 0 else TotalRows(m, order[..|order| - 1]) + |m[order[|order| - 1]]|
  }

  /** `prefix + "_" + className + ".yml"`. */
  function ClassifierFilename(prefix: string, className: string): (f: string)
    ensures |f| == |prefix| + |className| + 5
    ensures f[..|prefix|] == prefix && f[|prefix|] == '_'
    ensures f[|prefix| + 1..|f| - 4] == className && f[|f| - 4..] == ".yml"
  {
    prefix + "_" + className + ".yml"
  }

  /** Class `c`'s training set: its own rows answered 1, then the other
      classes' rows answered 0. */
  function TrainingSet(m: map<string, Mat>, order: seq<string>, c: string, prefix: string): SvmTrainingSet
    requires AllIn(order, m) && c in m
  {
    var others := OtherRows(m, order, c);
    SvmTrainingSet(c, ClassifierFilename(prefix, c), m[c] + others, Ones(|m[c]|) + Zeros(|others|))
  }

  /** The training sets of `classes`, in order, leaving out those with no
      rows. */
  function TrainingSets(m: map<string, Mat>, order: seq<string>, classes: seq<string>, prefix: string): seq<SvmTrainingSet>
    requires AllIn(order, m) && AllIn(classes, m)
  {
    if classes == [] then []
    else
      var c := classes[|classes| - 1];
      var rest := TrainingSets(m, order, classes[..|classes| - 1], prefix);
      var trainingSet := TrainingSet(m, order, c, prefix);
      if |trainingSet.samples| == 0 then rest else rest + [trainingSet]
  }

  /** One more class visited: its training set is saved after those of the
      classes before it, unless it has no rows. */
  lemma TrainingSetsStep(m: map<string, Mat>, order: seq<string>, i: nat, prefix: string)
    requires AllIn(order, m) && i < |order|
    ensures AllIn(order[..i], m) && AllIn(order[..i + 1], m)
    ensures var s := TrainingSet(m, order, order[i], prefix);
      TrainingSets(m, order, order[..i + 1], prefix)
        == if |s.samples| == 0 then TrainingSets(m, order, order[..i], prefix) else TrainingSets(m, order, order[..i], prefix) + [s]
  {
    assert order[..i + 1][..i] == order[..i] && order[..i + 1][i] == order[i];
  }

  /** Over distinct classes, the other classes' rows plus `c`'s own rows (if
      `c` is among them) are all the rows. */
  lemma {:induction false} OtherRowsCount(m: map<string, Mat>, order: seq<string>, c: string)
    requires AllIn(order, m) && Distinct(order)
    ensures |OtherRows(m, order, c)| + (if c in order then |m[c]| else 0) == TotalRows(m, order)
  {
    if order != [] {
      var n := |order| - 1;
      var prefix := order[..n];
      OtherRowsCount(m, prefix, c);
      assert order == prefix + [order[n]];
    }
  }

  /** The visiting order of the class map names each class once. */
  lemma ClassOrder(m: map<string, Mat>)
    ensures AllIn(StdMap.SortedKeys(m.Keys), m) && Distinct(StdMap.SortedKeys(m.Keys))
    ensures forall c :: c in m <==> c in StdMap.SortedKeys(m.Keys)
  {
    StdMap.SortedKeysSpec(m.Keys);
    forall i, j | 0 <= i < j < |StdMap.SortedKeys(m.Keys)|
      ensures StdMap.SortedKeys(m.Keys)[i] != StdMap.SortedKeys(m.Keys)[j]
    {
      StdMap.SortedKeysDistinct(m.Keys, i, j);
    }
  }

  /** Class `c`'s training set has as many samples as responses, namely all
      rows of all classes: first `c`'s own rows, answered 1, then the other
      classes' rows in map order, answered 0. */
  lemma TrainingSetShape(m: map<string, Mat>, c: string, prefix: string)
    requires c in m
    ensures AllIn(StdMap.SortedKeys(m.Keys), m)
    ensures var s := TrainingSet(m, StdMap.SortedKeys(m.Keys), c, prefix);
      && |s.samples| == |s.responses| == TotalRows(m, StdMap.SortedKeys(m.Keys))
      && s.samples[..|m[c]|] == m[c]
      && s.samples[|m[c]|..] == OtherRows(m, StdMap.SortedKeys(m.Keys), c)
      && (forall k :: 0 <= k < |m[c]| ==> s.responses[k] == 1)
      && (forall k :: |m[c]| <= k < |s.responses| ==> s.responses[k] == 0)
  {
    ClassOrder(m);
    OtherRowsCount(m, StdMap.SortedKeys(m.Keys), c);
  }

  /** Each saved classifier is trained on its own class's training set,
      which has rows. */
  lemma {:induction false} TrainingSetsAreTrainingSets(m: map<string, Mat>, order: seq<string>, classes: seq<string>, prefix: string)
    requires AllIn(order, m) && AllIn(classes, m)
    ensures forall i :: 0 <= i < |TrainingSets(m, order, classes, prefix)| ==>
      var s := TrainingSets(m, order, classes, prefix)[i];
      s.className in m && s == TrainingSet(m, order, s.className, prefix) && |s.samples| > 0
  {
    if classes != [] {
      var n := |classes| - 1;
      assert AllIn(classes[..n], m);
      TrainingSetsAreTrainingSets(m, order, classes[..n], prefix);
    }
  }

  /** The class names of saved training sets, in order. */
  function ClassNames(sets: seq<SvmTrainingSet>): seq<string> {
    if sets == [] then [] else ClassNames(sets[..|sets| - 1]) + [sets[|sets| - 1].className]
  }

  /** A class gets a classifier exactly when it is one of `classes` and its
      training set has rows. */
  lemma {:induction false} TrainingSetsCover(m: map<string, Mat>, order: seq<string>, classes: seq<string>, prefix: string, c: string)
    requires AllIn(order, m) && AllIn(classes, m)
    ensures c in ClassNames(TrainingSets(m, order, classes, prefix))
      <==> c in classes && c in m && |TrainingSet(m, order, c, prefix).samples| > 0
  {
    if classes != [] {
      var n := |classes| - 1;
      var front := classes[..n];
      assert AllIn(front, m);
      TrainingSetsCover(m, order, front, prefix, c);
      assert classes == front + [classes[n]];
      assert c in classes <==> c in front || c == classes[n];
      var rest := TrainingSets(m, order, front, prefix);
      var last := TrainingSet(m, order, classes[n], prefix);
      var sets := TrainingSets(m, order, classes, prefix);
      if |last.samples| == 0 {
        assert sets == rest;
      } else {
        assert sets == rest + [last];
        assert sets[..|sets| - 1] == rest;
        assert ClassNames(sets) == ClassNames(rest) + [classes[n]];
      }
    }
  }

  /** A class is skipped, and no classifier is saved for it, exactly when
      there are no BOW rows at all, its own or any other class's. */
  lemma SkippedIffNoRows(m: map<string, Mat>, prefix: string, c: string)
    requires c in m
    ensures AllIn(StdMap.SortedKeys(m.Keys), m)
    ensures var order := StdMap.SortedKeys(m.Keys);
      c in ClassNames(TrainingSets(m, order, order, prefix)) <==> TotalRows(m, order) > 0
  {
    ClassOrder(m);
    TrainingSetShape(m, c, prefix);
    TrainingSetsCover(m, StdMap.SortedKeys(m.Keys), StdMap.SortedKeys(m.Keys), prefix, c);
  }

  /** Example: the other classes' rows for a "cat" class with no rows and
      a "dog" class with one. */
  lemma ExampleOtherRows(m: map<string, Mat>)
    requires m == map["cat" := [], "dog" := [[1.0]]]
    ensures AllIn(["cat", "dog"], m)
    ensures OtherRows(m, ["cat", "dog"], "cat") == [[1.0]]
    ensures OtherRows(m, ["cat", "dog"], "dog") == []
  {
    var order := ["cat", "dog"];
    assert order[..1] == ["cat"] && ["cat"][..0] == [];
    assert OtherRows(m, [], "cat") == [] && OtherRows(m, [], "dog") == [];
    assert OtherRows(m, ["cat"], "cat") == [] && OtherRows(m, ["cat"], "dog") == [];
    assert OtherRows(m, order, "cat") == [] + [[1.0]];
    assert OtherRows(m, order, "dog") == [] + [];
  }

  /** Example: the two training sets of that class map. */
  lemma EmptyClassTrainingSets(m: map<string, Mat>)
    requires m == map["cat" := [], "dog" := [[1.0]]]
    ensures AllIn(["cat", "dog"], m)
    ensures TrainingSet(m, ["cat", "dog"], "cat", "svm") == SvmTrainingSet("cat", "svm_cat.yml", [[1.0]], [0])
    ensures TrainingSet(m, ["cat", "dog"], "dog", "svm") == SvmTrainingSet("dog", "svm_dog.yml", [[1.0]], [1])
  {
    ExampleOtherRows(m);
    assert Ones(0) == [] && Ones(1) == [1] && Zeros(0) == [] && Zeros(1) == [0];
    assert ClassifierFilename("svm", "cat") == "svm_cat.yml";
    assert ClassifierFilename("svm", "dog") == "svm_dog.yml";
  }

  /** Example: a class with no rows of its own still gets a classifier,
      trained on responses that are all 0, when another class has rows. */
  lemma EmptyClassStillTrained(m: map<string, Mat>)
    requires m == map["cat" := [], "dog" := [[1.0]]]
    ensures AllIn(["cat", "dog"], m)
    ensures TrainingSets(m, ["cat", "dog"], ["cat", "dog"], "svm") ==
      [SvmTrainingSet("cat", "svm_cat.yml", [[1.0]], [0]), SvmTrainingSet("dog", "svm_dog.yml", [[1.0]], [1])]
  {
    EmptyClassTrainingSets(m);
    var order := ["cat", "dog"];
    assert order[..1] == ["cat"] && ["cat"][..0] == [];
    assert TrainingSets(m, order, ["cat"], "svm") == [SvmTrainingSet("cat", "svm_cat.yml", [[1.0]], [0])];
  }

  // -----------------------------------------------------------------------
  // The trainer.

  class SvmClassifierTrainer {
    var vocabularyFile: string
    var descriptorsFile: string
    var imgBasePath: string
    var matcherDescriptorsFile: string
    var classifierFilePrefix: string
    var surfMinHessian: int
    var img2DescriptorsMap: map<string, Mat>
    var label2BowDescriptorsMap: map<string, Mat>

    /** Everything but the two maps. */
    function Settings(): (string, string, string, string, string, int)
      reads this
    {
      (vocabularyFile, descriptorsFile, imgBasePath, matcherDescriptorsFile, classifierFilePrefix, surfMinHessian)
    }

    /** The default constructor: empty paths and maps. It leaves
        `m_surfMinHessian` uninitialised, so nothing is promised about it. */
    constructor Default()
      ensures vocabularyFile == "" && descriptorsFile == "" && imgBasePath == ""
      ensures matcherDescriptorsFile == "" && classifierFilePrefix == ""
      ensures img2DescriptorsMap == map[] && label2BowDescriptorsMap == map[]
    {
      vocabularyFile, descriptorsFile, imgBasePath := "", "", "";
      matcherDescriptorsFile, classifierFilePrefix := "", "";
      img2DescriptorsMap, label2BowDescriptorsMap := map[], map[];
    }

    constructor (vocabularyFile: string, descriptorsFile: string, imgBasePath: string,
                 matcherDescriptorsFile: string, classifierFilePrefix: string)
      ensures Settings() == (vocabularyFile, descriptorsFile, imgBasePath, matcherDescriptorsFile, classifierFilePrefix, 400)
      ensures img2DescriptorsMap == map[] && label2BowDescriptorsMap == map[]
    {
      this.vocabularyFile := vocabularyFile;
      this.descriptorsFile := descriptorsFile;
      this.imgBasePath := imgBasePath;
      this.matcherDescriptorsFile := matcherDescriptorsFile;
      this.classifierFilePrefix := classifierFilePrefix;
      surfMinHessian := 400;
      img2DescriptorsMap, label2BowDescriptorsMap := map[], map[];
    }

    /** Overwrites all five paths and empties both maps. */
    method Reset(vocabularyFile: string, descriptorsFile: string, imgBasePath: string,
                 matcherDescriptorsFile: string, classifierFilePrefix: string)
      modifies this
      ensures Settings() == (vocabularyFile, descriptorsFile, imgBasePath, matcherDescriptorsFile, classifierFilePrefix, old(surfMinHessian))
      ensures img2DescriptorsMap == map[] && label2BowDescriptorsMap == map[]
    {
      this.vocabularyFile := vocabularyFile;
      this.descriptorsFile := descriptorsFile;
      this.imgBasePath := imgBasePath;
      this.matcherDescriptorsFile := matcherDescriptorsFile;
      this.classifierFilePrefix := classifierFilePrefix;
      img2DescriptorsMap := map[];
      label2BowDescriptorsMap := map[];
    }

    /** The loop that reads the flat image list two entries at a time. */
    static method ReadImageLabelList(items: seq<string>) returns (pairs: seq<(string, string)>)
      requires |items| % 2 == 0
      ensures pairs == Unflatten(items)
    {
      pairs := [];
      var itNode := 0;
      while itNode != |items|
        invariant 0 <= itNode <= |items| && itNode % 2 == 0 && 2 * |pairs| == itNode
        invariant forall j :: 0 <= j < |pairs| ==> pairs[j] == (items[2 * j], items[2 * j + 1])
        decreases |items| - itNode
      {
        var imgFullFilename := items[itNode];
        itNode := itNode + 1;
        var imgLabel := items[itNode];
        pairs := pairs + [(imgFullFilename, imgLabel)];
        itNode := itNode + 1;
      }
    }

    /** The first loop of `ComputeBowDescriptors`: the `i`-th image's
        `descriptors_<i>` matrix inserted under its label-qualified key. */
    static method ReadDescriptors(img2Descriptors: map<string, Mat>, imgFullFilename2LabelList: seq<(string, string)>, file: DescriptorsFile)
      returns (r: map<string, Mat>)
      ensures r == StdMap.InsertAll(img2Descriptors, DescriptorEntries(imgFullFilename2LabelList, file))
    {
      r := img2Descriptors;
      for imgIndex := 0 to |imgFullFilename2LabelList|
        invariant r == StdMap.InsertAll(img2Descriptors, DescriptorEntries(imgFullFilename2LabelList, file)[..imgIndex])
      {
        var imgFullFilename := imgFullFilename2LabelList[imgIndex].0;
        var imgLabel := imgFullFilename2LabelList[imgIndex].1;
        var descriptorsKey := DescriptorsKey(imgIndex);
        var descriptors := MatOrEmpty(file.mats, descriptorsKey);
        assert DescriptorEntries(imgFullFilename2LabelList, file)[..imgIndex + 1][..imgIndex]
            == DescriptorEntries(imgFullFilename2LabelList, file)[..imgIndex];
        r := StdMap.Insert(r, ImageMapKey(imgLabel, imgFullFilename), descriptors);
      }
      assert DescriptorEntries(imgFullFilename2LabelList, file)[..|imgFullFilename2LabelList|]
          == DescriptorEntries(imgFullFilename2LabelList, file);
    }

    /** The second loop of `ComputeBowDescriptors`: each image's BOW rows
        filed under its label, in list order. Every image's key is in
        `img2Descriptors`, so the lookup never adds an entry. */
    static method GroupBowDescriptors(label2Bow: map<string, Mat>, imgFullFilename2LabelList: seq<(string, string)>,
                                      img2Descriptors: map<string, Mat>, bowCompute: Mat -> Mat)
      returns (r: map<string, Mat>)
      requires forall i :: 0 <= i < |imgFullFilename2LabelList| ==>
        ImageMapKey(imgFullFilename2LabelList[i].1, imgFullFilename2LabelList[i].0) in img2Descriptors
      ensures r == Grouped(label2Bow, BowEntries(imgFullFilename2LabelList, img2Descriptors, bowCompute))
    {
      ghost var entries := BowEntries(imgFullFilename2LabelList, img2Descriptors, bowCompute);
      r := label2Bow;
      for i := 0 to |imgFullFilename2LabelList|
        invariant r == Grouped(label2Bow, entries[..i])
      {
        var (imgFullFilename, imgLabel) := imgFullFilename2LabelList[i];
        var imgMapKey := ImageMapKey(imgLabel, imgFullFilename);
        var bowDescriptor := bowCompute(img2Descriptors[imgMapKey]);
        assert entries[..i + 1][..i] == entries[..i];
        r := AddBowRows(r, imgLabel, bowDescriptor);
      }
      assert entries[..|imgFullFilename2LabelList|] == entries;
    }

    /** Reads each image's descriptors into `img2DescriptorsMap` (the first
        insert of a key wins) and files each image's BOW rows under its
        label. Fails, touching nothing, when the image list is not a
        sequence. `bowCompute` stands for the vocabulary-backed BOW
        extractor. */
    method ComputeBowDescriptors(file: DescriptorsFile, bowCompute: Mat -> Mat) returns (ok: bool)
      requires file.imageLabelList.SeqNode? ==> |file.imageLabelList.items| % 2 == 0
      modifies this
      ensures Settings() == old(Settings())
      ensures ok <==> file.imageLabelList.SeqNode?
      ensures !ok ==> img2DescriptorsMap == old(img2DescriptorsMap) && label2BowDescriptorsMap == old(label2BowDescriptorsMap)
      ensures ok ==> img2DescriptorsMap == StdMap.InsertAll(old(img2DescriptorsMap), DescriptorEntries(ImageLabelPairs(file), file))
      ensures ok ==> label2BowDescriptorsMap == Grouped(old(label2BowDescriptorsMap), BowEntries(ImageLabelPairs(file), img2DescriptorsMap, bowCompute))
    {
      if !file.imageLabelList.SeqNode? {
        return false;
      }
      var imgFullFilename2LabelList := ReadImageLabelList(file.imageLabelList.items);
      var img2Descriptors := ReadDescriptors(img2DescriptorsMap, imgFullFilename2LabelList, file);
      forall i | 0 <= i < |imgFullFilename2LabelList|
        ensures ImageMapKey(imgFullFilename2LabelList[i].1, imgFullFilename2LabelList[i].0) in img2Descriptors
      {
        var entries := DescriptorEntries(imgFullFilename2LabelList, file);
        StdMap.InsertAllSpec(img2DescriptorsMap, entries, entries[i].0);
      }
      var label2Bow := GroupBowDescriptors(label2BowDescriptorsMap, imgFullFilename2LabelList, img2Descriptors, bowCompute);
      img2DescriptorsMap := img2Descriptors;
      label2BowDescriptorsMap := label2Bow;
      ok := true;
    }

    /** The inner loop of `TrainAndSaveSvms`: class `className`'s rows
        answered 1, then every other class's rows, in `order`, answered 0. */
    static method AssembleTrainingSet(classes: map<string, Mat>, order: seq<string>, className: string)
      returns (trainingBowDescriptors: Mat, trainingLabels: seq<int>)
      requires AllIn(order, classes) && className in classes
      ensures trainingBowDescriptors == classes[className] + OtherRows(classes, order, className)
      ensures trainingLabels == Ones(|classes[className]|) + Zeros(|OtherRows(classes, order, className)|)
    {
      var classBowDescriptors := classes[className];
      trainingBowDescriptors := classBowDescriptors;
      trainingLabels := Ones(|classBowDescriptors|);
      for j := 0 to |order|
        invariant trainingBowDescriptors == classBowDescriptors + OtherRows(classes, order[..j], className)
        invariant trainingLabels == Ones(|classBowDescriptors|) + Zeros(|OtherRows(classes, order[..j], className)|)
      {
        assert order[..j + 1][..j] == order[..j];
        if order[j] != className {
          var nonClassBowDescriptors := classes[order[j]];
          ZerosAppend(|OtherRows(classes, order[..j], className)|, |nonClassBowDescriptors|);
          trainingBowDescriptors := trainingBowDescriptors + nonClassBowDescriptors;
          trainingLabels := trainingLabels + Zeros(|nonClassBowDescriptors|);
        }
      }
      assert order[..|order|] == order;
    }

    /** Trains one one-vs-all SVM per class, visiting the classes in
        ascending order, and returns what it trains and saves. */
    method TrainAndSaveSvms() returns (saved: seq<SvmTrainingSet>)
      ensures AllIn(StdMap.SortedKeys(label2BowDescriptorsMap.Keys), label2BowDescriptorsMap)
      ensures saved == TrainingSets(label2BowDescriptorsMap, StdMap.SortedKeys(label2BowDescriptorsMap.Keys),
                                    StdMap.SortedKeys(label2BowDescriptorsMap.Keys), classifierFilePrefix)
    {
      var classes := label2BowDescriptorsMap;
      var order := StdMap.KeysInOrder(classes);
      ClassOrder(classes);
      assert AllIn(order[..0], classes);
      saved := [];
      for i := 0 to |order|
        invariant AllIn(order[..i], classes)
        invariant saved == TrainingSets(classes, order, order[..i], classifierFilePrefix)
      {
        var className := order[i];
        var trainingBowDescriptors, trainingLabels := AssembleTrainingSet(classes, order, className);
        TrainingSetsStep(classes, order, i, classifierFilePrefix);
        if |trainingBowDescriptors| != 0 {
          var classifierFilename := ClassifierFilename(classifierFilePrefix, className);
          saved := saved + [SvmTrainingSet(className, classifierFilename, trainingBowDescriptors, trainingLabels)];
        }
      }
      assert order[..|order|] == order;
    }

    /** Writes the matcher descriptors file: the image list, file first,
        then each image's descriptors under `descriptors_<i>`.
        `GetImagesWithLabels` and SURF detection are inputs: the (label,
        file) pairs and each image's descriptors. */
    method ComputeAndSaveMatcherDescriptors(matcherImgWithLabels: seq<(string, string)>, imgDescriptors: seq<Mat>)
      returns (written: DescriptorsFile)
      requires |imgDescriptors| == |matcherImgWithLabels|
      ensures WritesMatcherDescriptors(written, matcherImgWithLabels, imgDescriptors)
    {
      var imageLabelList: seq<string> := [];
      for i := 0 to |matcherImgWithLabels|
        invariant imageLabelList == Flatten(FileFirst(matcherImgWithLabels[..i]))
      {
        var (imgLabel, imgFile) := matcherImgWithLabels[i];
        assert FileFirst(matcherImgWithLabels[..i + 1]) == FileFirst(matcherImgWithLabels[..i]) + [(imgFile, imgLabel)];
        FlattenAppend(FileFirst(matcherImgWithLabels[..i]), (imgFile, imgLabel));
        imageLabelList := imageLabelList + [imgFile, imgLabel];
      }
      assert matcherImgWithLabels[..|matcherImgWithLabels|] == matcherImgWithLabels;

      var mats: map<string, Mat> := map[];
      for imgIndex := 0 to |imgDescriptors|
        invariant forall i :: 0 <= i < imgIndex ==> DescriptorsKey(i) in mats && mats[DescriptorsKey(i)] == imgDescriptors[i]
        invariant forall k :: k in mats ==> exists i :: 0 <= i < imgIndex && k == DescriptorsKey(i)
      {
        forall i | 0 <= i < imgIndex
          ensures DescriptorsKey(i) != DescriptorsKey(imgIndex)
        {
          if DescriptorsKey(i) == DescriptorsKey(imgIndex) {
            DescriptorsKeyInjective(i, imgIndex);
          }
        }
        mats := mats[DescriptorsKey(imgIndex) := imgDescriptors[imgIndex]];
      }
      written := DescriptorsFile(SeqNode(imageLabelList), mats);
    }

    /** BOW grouping, then, only when it succeeds, SVM training and the
        matcher descriptors file. */
    method Train(file: DescriptorsFile, bowCompute: Mat -> Mat,
                 matcherImgWithLabels: seq<(string, string)>, matcherImgDescriptors: seq<Mat>)
      returns (saved: seq<SvmTrainingSet>, matcherFile: Option<DescriptorsFile>)
      requires file.imageLabelList.SeqNode? ==> |file.imageLabelList.items| % 2 == 0
      requires |matcherImgDescriptors| == |matcherImgWithLabels|
      modifies this
      ensures Settings() == old(Settings())
      ensures !file.imageLabelList.SeqNode? ==>
        && img2DescriptorsMap == old(img2DescriptorsMap) && label2BowDescriptorsMap == old(label2BowDescriptorsMap)
        && saved == [] && matcherFile == None
      ensures file.imageLabelList.SeqNode? ==>
        && img2DescriptorsMap == StdMap.InsertAll(old(img2DescriptorsMap), DescriptorEntries(ImageLabelPairs(file), file))
        && label2BowDescriptorsMap == Grouped(old(label2BowDescriptorsMap), BowEntries(ImageLabelPairs(file), img2DescriptorsMap, bowCompute))
        && AllIn(StdMap.SortedKeys(label2BowDescriptorsMap.Keys), label2BowDescriptorsMap)
        && saved == TrainingSets(label2BowDescriptorsMap, StdMap.SortedKeys(label2BowDescriptorsMap.Keys),
                                 StdMap.SortedKeys(label2BowDescriptorsMap.Keys), classifierFilePrefix)
        && matcherFile.Some? && WritesMatcherDescriptors(matcherFile.value, matcherImgWithLabels, matcherImgDescriptors)
    {
      saved, matcherFile := [], None;
      var ok := ComputeBowDescriptors(file, bowCompute);
      if ok {
        saved := TrainAndSaveSvms();
        var written := ComputeAndSaveMatcherDescriptors(matcherImgWithLabels, matcherImgDescriptors);
        matcherFile := Some(written);
      }
    }
  }
}
