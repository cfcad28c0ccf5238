# Image classifier decision core, in Dafny

This project models the bookkeeping and decision logic of two OpenCV image
classifiers:

- **The FLANN k-nearest-neighbour matcher.** It works in three steps:
  - Each query descriptor's two nearest neighbours go through the
    distance-ratio test (0.8). A descriptor that passes votes for the
    reference image of its best neighbour.
  - Every reference image with more than 10 votes competes on two
    percentages: its votes against the query's descriptor count, and its
    votes against its own descriptor count.
  - Each side keeps its own running maximum above 4.499 %. The larger
    maximum decides, and a tie goes to the query side. If neither side
    has a winner, the image is labelled `"unknown"`.

  Around this sit the batch steps: the `label_filename` keys, the initial
  records, the error set, the error rate and the result-file key.
- **The bag-of-words SVM pipeline.** It has three parts:
  - The vocabulary builder accumulates every training image's descriptors
    and writes them under names derived from the image's stem.
  - The trainer reads a descriptors file. It keys each image's descriptors
    by `label_filename`, with the first insert winning. It groups one
    bag-of-words row per image by label. Then it assembles a one-vs-all
    training set per class, in ascending class order, and writes the
    matcher descriptors file.
  - The tester's header has a score comparator and `ClassifierResult::read`.

OpenCV's own algorithms enter only as inputs:
- SURF detection,
- the FLANN index's `knnMatch`,
- bag-of-words extraction,
- k-means clustering,
- SVM training.

The inputs are knn results, descriptor counts, descriptor matrices and a
bag-of-words function. A `cv::Mat` is its sequence of rows. Three C++
library behaviours are modelled exactly:
- `size_t` wrap-around,
- `find_last_of`/`substr`/`to_string`,
- `std::map` first-wins `insert` and ascending iteration order.

Modules:
- `CppStd` in `cpp_std.dfy`;
- `StdMap` in `std_map.dfy`;
- `OpenCvMat` in `opencv_mat.dfy`;
- `LabelledImages` in `labelled_images.dfy`;
- `FlannKnnMatching` in `flann_knn_matching.dfy` (for `main.cpp`);
- `SvmTraining` in `svm_classifier_trainer.dfy`;
- `SvmTesting` in `svm_classifier_tester.dfy`;
- `Vocabulary` in `vocabulary_builder.dfy`.

Where the written design description and the code disagree, the model
follows the code:
- **Worked example of the design.** The design's example has a
  200-descriptor query. "dog" gets 11 votes; "cat" gets 15 votes and has
  500 reference descriptors (3 %). The design expects "dog" to win. It
  gives no reference-descriptor count for "dog".
  - Under the code, cat's 7.5 % against the query beats dog's 5.5 %.
  - Dog's reference side, 1100 / n % for n reference descriptors, beats
    7.5 % only when n is between 1 and 146.
  - So the code gives "dog" only for 1 to 146 reference descriptors, and
    "cat" for 0 or for at least 147 (`FlannKnnMatching.QuerySideThreshold`).
  - `FlannKnnMatching.QuerySideOutvotesReferenceSide` is the instance
    with 1000, a count this model chooses.
- **Range of the reference-side percentage.** The design bounds it to
  [0, 100]. The code does not, since an image with few descriptors can
  collect more votes than it has descriptors
  (`FlannKnnMatching.TrainingPercentCanExceedHundred`).
- **Duplicate batch keys.** The design treats them as an error. The code
  silently keeps the first record (`FlannKnnMatching.BatchRecords`).

The two halves of the SVM pipeline do not agree on the descriptors file:
- The vocabulary builder writes `name_<stem>`, `label_<stem>`,
  `descriptors_<stem>` and `imagefile_list`.
- The trainer reads `image_label_list` and `descriptors_<index>`.
- `Vocabulary.NoImageLabelList` proves that no entry the builder writes is
  named `image_label_list`.
- So a trainer given that file reads a node that is not a sequence. It
  fails without training anything (`SvmTraining.SvmClassifierTrainer.Train`).
- The trainer's own `ComputeAndSaveMatcherDescriptors` does write the
  format the trainer reads: the flat `image_label_list`, file first, and
  `descriptors_<i>` (`SvmTraining.MatcherDescriptorsRoundTrip`). So the
  file the trainer can read is the one it writes for the matcher, not the
  vocabulary builder's.

## Model

| member | source | states |
|---|---|---|
| CppStd.SizeAdd | BowSvmClassifier/src/VocabularyBuilder.cpp:82 | `size_t` addition wraps around modulo 2^64 |
| CppStd.FindLastOf | BowSvmClassifier/src/VocabularyBuilder.cpp:80 | returns `npos` exactly when the character is absent; otherwise an index holding it, with no occurrence after it |
| CppStd.Substr | BowSvmClassifier/src/VocabularyBuilder.cpp:81-82 | defined exactly when `pos <= size`, with `min(count, size - pos)` characters starting at `pos` |
| CppStd.ToString | BowSvmClassifier/src/SvmClassifierTrainer.cpp:97 | decimal digits only, at least one, at least two from 10 on |
| CppStd.ToStringInjective | BowSvmClassifier/src/SvmClassifierTrainer.cpp:97 | distinct indices have distinct decimal strings |
| StdMap.Insert | BowSvmClassifier/src/SvmClassifierTrainer.cpp:106 | `insert` adds a missing key with the value and leaves a present key's value untouched |
| StdMap.InsertAllSpec | BowSvmClassifier/src/SvmClassifierTrainer.cpp:92-107 | after a loop of inserts a key is present iff it was before or some entry has it; old keys keep their values; a new key holds its first entry's value |
| StdMap.InsertAllFresh | BowSvmClassifier/includes/SvmClassifierTester.h:73-82 | inserting into an empty map holds exactly the entries' keys, each with its first value |
| StdMap.InsertEach | BowSvmClassifier/includes/SvmClassifierTester.h:76-82 | the insert loop leaves the map the fold of first-wins inserts describes |
| StdMap.LeastExists | BowSvmClassifier/src/SvmClassifierTrainer.cpp:169 | every non-empty key set has a smallest key under string `<` |
| StdMap.SortedKeysSpec | BowSvmClassifier/src/SvmClassifierTrainer.cpp:169 | the map's visiting order names every key once and nothing else, in strictly ascending order |
| StdMap.KeysInOrder | BowSvmClassifier/src/SvmClassifierTrainer.cpp:169 | lists the keys in the visiting order, smallest first |
| StdMap.StringLessTotal | BowSvmClassifier/src/SvmClassifierTrainer.cpp:169 | of two distinct strings one is less than the other |
| StdMap.StringLessTransitive | BowSvmClassifier/src/SvmClassifierTrainer.cpp:169 | string `<` is transitive |
| LabelledImages.ImageMapKey | FlannKnnSavableMatchingM2N/src/main.cpp:428 | the key is the label, an underscore, then the filename |
| LabelledImages.ImageMapKeySeparatesLabels | BowSvmClassifier/src/SvmClassifierTrainer.cpp:105-106 | the same filename under different labels gets different keys |
| LabelledImages.ImageMapKeyAmbiguous | FlannKnnSavableMatchingM2N/src/main.cpp:428 | the key does not determine the pair when names contain `_` |
| LabelledImages.Stem | BowSvmClassifier/src/VocabularyBuilder.cpp:80-81 | the text before the last dot, or the whole name without a dot |
| LabelledImages.Extension | BowSvmClassifier/src/VocabularyBuilder.cpp:80-82 | the text after the last dot; without a dot `npos + 1` wraps to 0 and it is the whole name |
| LabelledImages.SplitAtLastDot | BowSvmClassifier/src/VocabularyBuilder.cpp:80-82 | with a dot, `stem + "." + ext` is the filename and `ext` has no dot |
| LabelledImages.SplitWithoutDot | BowSvmClassifier/src/VocabularyBuilder.cpp:80-82 | without a dot, stem and extension are both the whole filename |
| FlannKnnMatching.VotesFor | FlannKnnSavableMatchingM2N/src/main.cpp:116-123 | an image's votes: the good matches whose best neighbour lies in it, never more than the query's descriptors (one vote each in `OneMatchOneVote`) |
| FlannKnnMatching.Tally | FlannKnnSavableMatchingM2N/src/main.cpp:116-123 | one vote count per reference image, each that image's votes |
| FlannKnnMatching.OneMatchOneVote | FlannKnnSavableMatchingM2N/src/main.cpp:117-123 | a descriptor adds one vote to its best neighbour's image only when it passes the ratio test; no other count changes |
| FlannKnnMatching.CountGoodMatches | FlannKnnSavableMatchingM2N/src/main.cpp:116-123 | one counter per reference image equal to its votes; the counts sum to the good matches, at most one per query descriptor |
| FlannKnnMatching.TallySum | FlannKnnSavableMatchingM2N/src/main.cpp:116-123 | the vote counts never sum to more than the good matches |
| FlannKnnMatching.GoodMatchPercent | FlannKnnSavableMatchingM2N/src/main.cpp:141-153 | 0 with no descriptors, else `pct * rows == 100 * cnt`; never negative, at most 100 when `cnt <= rows` |
| FlannKnnMatching.QueryPercentBounded | FlannKnnSavableMatchingM2N/src/main.cpp:141-146 | with one neighbour list per query descriptor the reported query-side maximum lies in [0, 100] |
| FlannKnnMatching.TrainingPercentCanExceedHundred | FlannKnnSavableMatchingM2N/src/main.cpp:148-153 | the reference-side percentage can exceed 100 |
| FlannKnnMatching.BestIndex | FlannKnnSavableMatchingM2N/src/main.cpp:155-169 | -1 iff no image has more than 10 votes and a percentage above 4.499; otherwise the earliest such image with the strictly largest percentage |
| FlannKnnMatching.SideOf | FlannKnnSavableMatchingM2N/src/main.cpp:127-169 | a side's report: no winner with 0 and 0, or the side's winner with its percentage and vote count |
| FlannKnnMatching.SideWinnerUnique | FlannKnnSavableMatchingM2N/src/main.cpp:155-169 | at most one image is a side's winner |
| FlannKnnMatching.SideOfStep | FlannKnnSavableMatchingM2N/src/main.cpp:133-170 | one more image replaces a side's running maximum only when it competes with a strictly larger percentage |
| FlannKnnMatching.FindBestMatches | FlannKnnSavableMatchingM2N/src/main.cpp:127-170 | the loop's six running variables end as the two sides' winners, maxima and counts |
| FlannKnnMatching.ChosenIndex | FlannKnnSavableMatchingM2N/src/main.cpp:172-179 | the chosen image is -1 or a reference image; which side decides is stated by `DecideSides` |
| FlannKnnMatching.Decide | FlannKnnSavableMatchingM2N/src/main.cpp:172-197 | keeps the expected label; the evaluated label is `"unknown"` or the label of a reference image (the full outcome is `DecideOutcome`) |
| FlannKnnMatching.LowVoteCountNeverWins | FlannKnnSavableMatchingM2N/src/main.cpp:135-139 | an image with 10 votes or fewer is never chosen |
| FlannKnnMatching.DecideOutcome | FlannKnnSavableMatchingM2N/src/main.cpp:173-197 | `"unknown"` with zeros iff no image competes on either side; otherwise the label and count of the chosen image, which has more than 10 votes |
| FlannKnnMatching.DecideSides | FlannKnnSavableMatchingM2N/src/main.cpp:172-179 | both side maxima are reported; the reference side decides iff its maximum is strictly larger, otherwise the query side |
| FlannKnnMatching.ReportedMaximumBoundsCompetitors | FlannKnnSavableMatchingM2N/src/main.cpp:155-179 | no competing percentage on either side exceeds the larger reported maximum |
| FlannKnnMatching.FlannBasedKnnMatch | FlannKnnSavableMatchingM2N/src/main.cpp:101-198 | the result is the decision on the tallied votes, with the expected label kept |
| FlannKnnMatching.OneReferenceImage | FlannKnnSavableMatchingM2N/src/main.cpp:101-198 | 40 votes, 50 query and 100 reference descriptors give "cat" at 80 % and 40 % |
| FlannKnnMatching.NoVotes | FlannKnnSavableMatchingM2N/src/main.cpp:181-197 | no votes give `"unknown"` with zeros |
| FlannKnnMatching.QuerySideOutvotesReferenceSide | FlannKnnSavableMatchingM2N/src/main.cpp:155-183 | 15 of a 200-descriptor query for "cat" beat 11 for "dog" |
| FlannKnnMatching.QuerySideThreshold | FlannKnnSavableMatchingM2N/src/main.cpp:141-183 | with 11 votes for "dog", 15 for "cat" over 500 descriptors and a 200-descriptor query, "dog" wins iff it has 1 to 146 reference descriptors |
| FlannKnnMatching.SidesDisagree | FlannKnnSavableMatchingM2N/src/main.cpp:155-197 | the sides pick different images, both maxima are reported and the larger decides |
| FlannKnnMatching.TieGoesToQuerySide | FlannKnnSavableMatchingM2N/src/main.cpp:172-179 | equal maxima from different images: the query side's image wins |
| FlannKnnMatching.InitBatch | FlannKnnSavableMatchingM2N/src/main.cpp:419-439 | the batch map is the first-wins fold of one initial record per image under `label_filename` |
| FlannKnnMatching.BatchRecords | FlannKnnSavableMatchingM2N/src/main.cpp:422-439 | every image has a record starting as `"unknown"` with zeros; a repeated key keeps the first expected label |
| FlannKnnMatching.CollectErrors | FlannKnnSavableMatchingM2N/src/main.cpp:208-214 | the error map holds exactly the records whose evaluated label differs from the expected one, unchanged |
| FlannKnnMatching.ErrorRate | FlannKnnSavableMatchingM2N/src/main.cpp:224 | undefined iff the batch is empty; `rate * total == 100 * errors`, within [0, 100] |
| FlannKnnMatching.BatchErrorRate | FlannKnnSavableMatchingM2N/src/main.cpp:208-224 | the printed rate is 100 times the number of wrong records over the number of records, undefined for an empty batch, within [0, 100] |
| FlannKnnMatching.TenRecordsThreeWrong | FlannKnnSavableMatchingM2N/src/main.cpp:224 | 3 wrong of 10 is 30 % |
| FlannKnnMatching.ResultFsKey | FlannKnnSavableMatchingM2N/src/main.cpp:243-244 | `classifier_result_` followed by a prefix of the image key |
| FlannKnnMatching.ResultFsKeyDropsExtension | FlannKnnSavableMatchingM2N/src/main.cpp:243-244 | the result-file key is `classifier_result_` and the image key up to its last dot |
| FlannKnnMatching.ResultFsKeysCollide | FlannKnnSavableMatchingM2N/src/main.cpp:243-246 | two images differing only in extension share a result-file key |
| SvmTraining.Flatten | BowSvmClassifier/src/SvmClassifierTrainer.cpp:229-235 | two entries per pair, filename then label; inverse of `Unflatten` by `UnflattenFlatten` and `FlattenUnflatten` |
| SvmTraining.Unflatten | BowSvmClassifier/src/SvmClassifierTrainer.cpp:79-85 | an even-length flat list is read as consecutive (filename, label) pairs |
| SvmTraining.UnflattenFlatten | BowSvmClassifier/src/SvmClassifierTrainer.cpp:229-235 | decoding an encoded pair list gives the list back |
| SvmTraining.FlattenUnflatten | BowSvmClassifier/src/SvmClassifierTrainer.cpp:79-85 | encoding a decoded flat list gives the list back |
| SvmTraining.DescriptorsKey | BowSvmClassifier/src/SvmClassifierTrainer.cpp:97 | `descriptors_` followed by decimal digits only |
| SvmTraining.DescriptorsKeyInjective | BowSvmClassifier/src/SvmClassifierTrainer.cpp:97 | different positions never share a `descriptors_<i>` key |
| SvmTraining.FileFirst | BowSvmClassifier/src/SvmClassifierTrainer.cpp:229-235 | each (label, file) pair is written file first |
| SvmTraining.MatcherDescriptorsRoundTrip | BowSvmClassifier/src/SvmClassifierTrainer.cpp:229-261 | reading back the matcher file recovers each image's filename, label and descriptors by position |
| SvmTraining.AddBowRows | BowSvmClassifier/src/SvmClassifierTrainer.cpp:141-149 | a label's first image inserts its rows, later ones append; other labels are unchanged |
| SvmTraining.Grouped | BowSvmClassifier/src/SvmClassifierTrainer.cpp:129-153 | the label-to-rows map after the grouping loop, one `AddBowRows` per image in list order; its contents are stated by `GroupedSpec` |
| SvmTraining.GroupedSpec | BowSvmClassifier/src/SvmClassifierTrainer.cpp:129-153 | after grouping, a label holds its old rows followed by its images' rows, in list order; other labels are unchanged |
| SvmTraining.RowsOfCount | BowSvmClassifier/src/SvmClassifierTrainer.cpp:141-149 | with one row per image, a label's rows are as many as its images |
| SvmTraining.BowRowCount | BowSvmClassifier/src/SvmClassifierTrainer.cpp:129-153 | grouping adds one row per image to its label's count |
| SvmTraining.OtherRows | BowSvmClassifier/src/SvmClassifierTrainer.cpp:181-189 | the rows of every other class in visiting order; their count is stated by `OtherRowsCount` |
| SvmTraining.TrainingSet | BowSvmClassifier/src/SvmClassifierTrainer.cpp:176-189 | a class's samples and responses; their shape is stated by `TrainingSetShape` |
| SvmTraining.TrainingSets | BowSvmClassifier/src/SvmClassifierTrainer.cpp:169-212 | the saved training sets in visiting order; stated by `TrainingSetsAreTrainingSets` and `TrainingSetsCover` |
| SvmTraining.ClassifierFilename | BowSvmClassifier/src/SvmClassifierTrainer.cpp:210 | the prefix, an underscore, the class name, then `.yml` |
| SvmTraining.TrainingSetsStep | BowSvmClassifier/src/SvmClassifierTrainer.cpp:169-212 | visiting one more class saves its training set last, unless it has no rows |
| SvmTraining.OtherRowsCount | BowSvmClassifier/src/SvmClassifierTrainer.cpp:181-189 | the other classes' rows plus the class's own rows are all the rows |
| SvmTraining.ClassOrder | BowSvmClassifier/src/SvmClassifierTrainer.cpp:169-181 | the class map's visiting order names each class exactly once |
| SvmTraining.TrainingSetShape | BowSvmClassifier/src/SvmClassifierTrainer.cpp:176-189 | samples and responses have the total row count; the class's own rows come first with response 1, the others' follow with 0 |
| SvmTraining.TrainingSetsAreTrainingSets | BowSvmClassifier/src/SvmClassifierTrainer.cpp:169-212 | every saved classifier is trained on its class's own training set, which has rows |
| SvmTraining.TrainingSetsCover | BowSvmClassifier/src/SvmClassifierTrainer.cpp:191-195 | a class gets a classifier iff it is visited and its training set has rows |
| SvmTraining.SkippedIffNoRows | BowSvmClassifier/src/SvmClassifierTrainer.cpp:191-195 | a class is skipped iff no class at all has rows |
| SvmTraining.EmptyClassStillTrained | BowSvmClassifier/src/SvmClassifierTrainer.cpp:176-195 | a class with no rows of its own is still trained, on all-zero responses |
| SvmTraining.SvmClassifierTrainer.Default | BowSvmClassifier/src/SvmClassifierTrainer.cpp:18-20 | empty paths and maps |
| SvmTraining.SvmClassifierTrainer.constructor | BowSvmClassifier/src/SvmClassifierTrainer.cpp:22-36 | the five paths as given, hessian 400, empty maps |
| SvmTraining.SvmClassifierTrainer.Reset | BowSvmClassifier/src/SvmClassifierTrainer.cpp:42-57 | all five paths overwritten, both maps empty, hessian kept |
| SvmTraining.SvmClassifierTrainer.ReadImageLabelList | BowSvmClassifier/src/SvmClassifierTrainer.cpp:79-85 | the two-at-a-time loop decodes the flat list |
| SvmTraining.SvmClassifierTrainer.ReadDescriptors | BowSvmClassifier/src/SvmClassifierTrainer.cpp:91-107 | the i-th image's `descriptors_<i>` matrix is inserted, first wins, under its label-qualified key |
| SvmTraining.SvmClassifierTrainer.GroupBowDescriptors | BowSvmClassifier/src/SvmClassifierTrainer.cpp:129-153 | each image's bag-of-words rows are filed under its label in list order |
| SvmTraining.SvmClassifierTrainer.ComputeBowDescriptors | BowSvmClassifier/src/SvmClassifierTrainer.cpp:59-162 | false, changing nothing, iff the image list is not a sequence; otherwise both maps as the two loops leave them |
| SvmTraining.SvmClassifierTrainer.AssembleTrainingSet | BowSvmClassifier/src/SvmClassifierTrainer.cpp:176-189 | the class's rows with ones, then the others' rows in map order with zeros |
| SvmTraining.SvmClassifierTrainer.TrainAndSaveSvms | BowSvmClassifier/src/SvmClassifierTrainer.cpp:165-212 | one training set per class in ascending order, those with no rows left out |
| SvmTraining.SvmClassifierTrainer.ComputeAndSaveMatcherDescriptors | BowSvmClassifier/src/SvmClassifierTrainer.cpp:221-267 | the file holds the list file first and each image's descriptors under `descriptors_<i>`, nothing else |
| SvmTraining.SvmClassifierTrainer.Train | BowSvmClassifier/src/SvmClassifierTrainer.cpp:269-276 | training and the matcher file happen only when the bag-of-words step succeeds |
| SvmTesting.NewComparison | BowSvmClassifier/includes/SvmClassifierTester.h:116-119 | the mode is the argument, non-reverse by default |
| SvmTesting.ClassDecFuncComparison.Less | BowSvmClassifier/includes/SvmClassifierTester.h:121-133 | `operator()` on (class, score) pairs; a strict weak order by `StrictWeakOrder` |
| SvmTesting.DefaultIsAscending | BowSvmClassifier/includes/SvmClassifierTester.h:116-132 | a default comparator orders by ascending score |
| SvmTesting.ReverseSwapsArguments | BowSvmClassifier/includes/SvmClassifierTester.h:125-132 | reverse mode is ascending mode with the arguments swapped |
| SvmTesting.LabelIgnored | BowSvmClassifier/includes/SvmClassifierTester.h:121-133 | the class names never change the result |
| SvmTesting.EqualScoresIncomparable | BowSvmClassifier/includes/SvmClassifierTester.h:121-133 | equal scores are mutually not-less in both modes |
| SvmTesting.StrictWeakOrder | BowSvmClassifier/includes/SvmClassifierTester.h:121-133 | irreflexive, asymmetric, transitive, and incomparable exactly on equal scores, which is transitive |
| SvmTesting.ReverseSortedStartsWithMaximum | BowSvmClassifier/includes/SvmClassifierTester.h:125-128 | a list sorted with the reverse comparator starts with a highest score |
| SvmTesting.ClassifierResult.constructor | BowSvmClassifier/includes/SvmClassifierTester.h:31-33 | empty class names and maps |
| SvmTesting.ClassifierResult.Read | BowSvmClassifier/includes/SvmClassifierTester.h:68-105 | class names from the node; each map cleared, then the first-wins fold of the node's items |
| SvmTesting.ReadMaps | BowSvmClassifier/includes/SvmClassifierTester.h:73-104 | after `read` each map holds exactly the node's names with their first values |
| SvmTesting.DuplicateScoreKeepsFirst | BowSvmClassifier/includes/SvmClassifierTester.h:76-82 | a name repeated in a node keeps its first score |
| Vocabulary.ImageEntries | BowSvmClassifier/src/VocabularyBuilder.cpp:80-90 | three entries per image, keyed by its stem (`KeysIgnoreLabelAndExtension`) |
| Vocabulary.Filenames | BowSvmClassifier/src/VocabularyBuilder.cpp:66-73 | one filename per image, in order |
| Vocabulary.ConcatRowCount | BowSvmClassifier/src/VocabularyBuilder.cpp:94-99 | the accumulated matrix has as many rows as all images together |
| Vocabulary.DescriptorRowCount | BowSvmClassifier/src/VocabularyBuilder.cpp:94-99 | the final row count is the prior count plus every image's rows |
| Vocabulary.KeysIgnoreLabelAndExtension | BowSvmClassifier/src/VocabularyBuilder.cpp:80-90 | the three per-image keys depend on the stem only |
| Vocabulary.SameNameDifferentLabels | BowSvmClassifier/src/VocabularyBuilder.cpp:80-90 | "a.jpg" under "cat" and "a.png" under "dog" share `descriptors_a` |
| Vocabulary.NoImageLabelList | BowSvmClassifier/src/VocabularyBuilder.cpp:88-103 | no written entry is named `image_label_list` |
| Vocabulary.VocabularyBuilder.Default | BowSvmClassifier/src/VocabularyBuilder.cpp:17-21 | empty paths and matrices, 0 clusters, hessian 0 |
| Vocabulary.VocabularyBuilder.constructor | BowSvmClassifier/src/VocabularyBuilder.cpp:23-34 | the three paths as given, 1000 clusters, hessian 400, empty matrices |
| Vocabulary.VocabularyBuilder.Reset | BowSvmClassifier/src/VocabularyBuilder.cpp:40-51 | the three paths set, both matrices released, counts kept |
| Vocabulary.VocabularyBuilder.ComputeDescriptors | BowSvmClassifier/src/VocabularyBuilder.cpp:53-113 | the three entries per image in order, then `imagefile_list`; the filenames; every image's rows appended to `m_descriptors` without clearing |

## Left out

- **OpenCV's algorithms** are inputs, not models:
  - SURF detection, FLANN training, `knnMatch`, save and load;
  - `BOWImgDescriptorExtractor::compute`, which becomes the `bowCompute` parameter;
  - `BOWKMeansTrainer::cluster` and `SVM::train`/`save`.
  So `VocabularyBuilder::BuildVocabulary` is not modelled: it only clusters and writes the result.
- **`cv::FileStorage`'s YAML format is not modelled.** Files appear as key/value structures:
  - `FnnMatchResult::write`/`read`, `ClassifierResult::write` and the static wrappers are left out;
  - a missing string or node reads as empty;
  - a node is read as strings without checking their types.
- **The command line and I/O are left out:** `main`'s option parsing and dispatch, `imread` with its early `return -1`, `cout`/`cerr` logging and timing.
- **Floating point is modelled as reals.** Rounding and NaN are not modelled.
  - An empty batch's error rate, which prints NaN, is `None`.
  - The comparator's strict weak order ignores NaN scores.
- **`cv::Mat` columns, element types and `convertTo` are not modelled.**
  - Rows are plain sequences.
  - Header sharing, where `trainingBowDescriptors` starts as a shallow copy, is not modelled; it does not change the visible rows.
- **Strings are Dafny characters.** String `<` compares them by code point, while `std::string` compares bytes; the two orders agree on ASCII names.
- **`BowSvmClassifier/includes/VocabularyBuilder.h` is not modelled.** It declares a four-argument constructor, `SaveKnnMatchers` and two unused fields that `VocabularyBuilder.cpp` does not define.
- **`SvmClassifierTester.cpp`, which holds the tester's score-based decision, is not part of this model.**
- **Some loops have been pulled out of their method into helper methods next to it:**
  - `FlannKnnMatching.FindBestMatches` is the reference-image loop of `FlannBasedKnnMatch`;
  - `ReadDescriptors` and `GroupBowDescriptors` are the two loops of `ComputeBowDescriptors`;
  - `AssembleTrainingSet` is the inner loop of `TrainAndSaveSvms`.

  The statements are unchanged. `ComputeBowDescriptors` fills local copies of the maps and assigns them at the end, with the same final state.
- **Iteration order.**
  - `FlannKnnMatching.CollectErrors` walks the map keys in any order. Its result does not depend on the order.
  - `StdMap.KeysInOrder` supplies `std::map`'s ascending order where the order matters, in `TrainAndSaveSvms`.
- FlannKnnMatching.FlannBasedKnnMatch: requires every good match's `imgIdx` to be a valid index and at most one descriptor count per label. Outside that, the code indexes out of range.
- SvmTraining.SvmClassifierTrainer.ReadImageLabelList: requires an even-length list. With an odd length, the code dereferences the end iterator.
- SvmTraining.SvmClassifierTrainer.Default: nothing is promised about `m_surfMinHessian`, which the C++ constructor leaves uninitialised.
- SvmTraining.RowsOfCount: assumes one bag-of-words row per image, which OpenCV's extractor produces (an empty image gives none).
- Vocabulary.VocabularyBuilder.ComputeDescriptors: always returns the accumulated matrix. The code copies it only when the caller's `OutputArray` is needed.
