/** The parts of the SVM tester's header with behaviour of their own: the
    comparator that orders (class, score) pairs, and the deserialisation of
    one image's classifier result. */
module SvmTesting {
  import StdMap

  /** The comparator on (class, score) pairs: by score, ascending, or
      descending in reverse mode. Scores are `float`s, here reals. */
  datatype ClassDecFuncComparison = ClassDecFuncComparison(reverse: bool) {

    predicate Less(lhs: (string, real), rhs: (string, real)) {
      if reverse then lhs.1 > rhs.1 else lhs.1 < rhs.1
    }
  }

  /** `ClassDecFuncComparison(const bool reverse = false)`. */
  function NewComparison(reverse: bool := false): (cmp: ClassDecFuncComparison)
    ensures cmp.reverse == reverse
  {
    ClassDecFuncComparison(reverse)
  }

  /** A default-constructed comparator orders by ascending score. */
  lemma DefaultIsAscending(lhs: (string, real), rhs: (string, real))
    ensures !NewComparison().reverse
    ensures NewComparison().Less(lhs, rhs) <==> lhs.1 < rhs.1
  {
  }

  /** Reverse mode is ascending mode with the arguments swapped. */
  lemma ReverseSwapsArguments(lhs: (string, real), rhs: (string, real))
    ensures NewComparison(true).Less(lhs, rhs) <==> NewComparison(false).Less(rhs, lhs)
  {
  }

  /** The class name never matters: only the scores are compared. */
  lemma LabelIgnored(cmp: ClassDecFuncComparison, lhs: (string, real), rhs: (string, real), lhsClass: string, rhsClass: string)
    ensures cmp.Less(lhs, rhs) <==> cmp.Less((lhsClass, lhs.1), (rhsClass, rhs.1))
  {
  }

  /** Pairs with equal scores are not less than each other, in either
      mode. */
  lemma EqualScoresIncomparable(cmp: ClassDecFuncComparison, lhs: (string, real), rhs: (string, real))
    requires lhs.1 == rhs.1
    ensures !cmp.Less(lhs, rhs) && !cmp.Less(rhs, lhs)
  {
  }

  /** In both modes the comparator is a strict weak order: irreflexive,
      asymmetric, transitive, and with transitive incomparability (two
      pairs are incomparable exactly when their scores are equal). */
  lemma StrictWeakOrder(cmp: ClassDecFuncComparison, a: (string, real), b: (string, real), c: (string, real))
    ensures !cmp.Less(a, a)
    ensures cmp.Less(a, b) ==> !cmp.Less(b, a)
    ensures cmp.Less(a, b) && cmp.Less(b, c) ==> cmp.Less(a, c)
    ensures (!cmp.Less(a, b) && !cmp.Less(b, a)) <==> a.1 == b.1
    ensures !cmp.Less(a, b) && !cmp.Less(b, a) && !cmp.Less(b, c) && !cmp.Less(c, b) ==> !cmp.Less(a, c) && !cmp.Less(c, a)
  {
  }

  /** A sequence sorted with the reverse comparator starts with a highest
      score: the class it names is the best-scoring one. */
  lemma {:induction false} ReverseSortedStartsWithMaximum(s: seq<(string, real)>, i: nat)
    requires forall j :: 0 <= j < |s| - 1 ==> !NewComparison(true).Less(s[j + 1], s[j])
    requires i < |s|
    ensures s[i].1 <= s[0].1
  {
    if i > 0 {
      ReverseSortedStartsWithMaximum(s, i - 1);
      assert !NewComparison(true).Less(s[i], s[i - 1]);
    }
  }

  /** A result node as `read` sees it: the two class names, and the named
      items of the three map nodes in node order. A missing string reads
      as "" and a missing map node has no items. */
  datatype ResultNode = ResultNode(
    expectedClass: string,
    evaluatedClass: string,
    scores: seq<(string, real)>,
    matchPercents: seq<(string, (real, real))>,
    matchCnts: seq<(string, int)>)

  /** One image's result on the SVM path: the expected and evaluated class
      and, per class, its SVM score, its (test, training) match percents
      and its match count. */
  class ClassifierResult {
    var expectedClass: string
    var evaluatedClass: string
    var class2ScoresMap: map<string, real>
    var class2MatchPercentsMap: map<string, (real, real)>
    var class2MatchCntMap: map<string, int>

    constructor ()
      ensures expectedClass == "" && evaluatedClass == ""
      ensures class2ScoresMap == map[] && class2MatchPercentsMap == map[] && class2MatchCntMap == map[]
    {
      expectedClass, evaluatedClass := "", "";
      class2ScoresMap, class2MatchPercentsMap, class2MatchCntMap := map[], map[], map[];
    }

    /** Takes both class names from the node, then empties each map and
        fills it with the node's items, one `insert` each, so that a
        name repeated inside a node keeps its first value. */
    method Read(node: ResultNode)
      modifies this
      ensures expectedClass == node.expectedClass && evaluatedClass == node.evaluatedClass
      ensures class2ScoresMap == StdMap.InsertAll(map[], node.scores)
      ensures class2MatchPercentsMap == StdMap.InsertAll(map[], node.matchPercents)
      ensures class2MatchCntMap == StdMap.InsertAll(map[], node.matchCnts)
    {
      expectedClass := node.expectedClass;
      evaluatedClass := node.evaluatedClass;

      class2ScoresMap := map[];
      class2ScoresMap := StdMap.InsertEach(class2ScoresMap, node.scores);

      class2MatchPercentsMap := map[];
      class2MatchPercentsMap := StdMap.InsertEach(class2MatchPercentsMap, node.matchPercents);

      class2MatchCntMap := map[];
      class2MatchCntMap := StdMap.InsertEach(class2MatchCntMap, node.matchCnts);
    }
  }

  /** After `Read`, each map holds a class exactly when the node names it,
      with the value of its first item; nothing from before survives. */
  lemma ReadMaps(node: ResultNode, className: string)
    ensures className in StdMap.InsertAll(map[], node.scores) <==> StdMap.HasKey(node.scores, className)
    ensures StdMap.HasKey(node.scores, className) ==>
      StdMap.InsertAll(map[], node.scores)[className] == node.scores[StdMap.FirstIndex(node.scores, className)].1
    ensures className in StdMap.InsertAll(map[], node.matchPercents) <==> StdMap.HasKey(node.matchPercents, className)
    ensures StdMap.HasKey(node.matchPercents, className) ==>
      StdMap.InsertAll(map[], node.matchPercents)[className] == node.matchPercents[StdMap.FirstIndex(node.matchPercents, className)].1
    ensures className in StdMap.InsertAll(map[], node.matchCnts) <==> StdMap.HasKey(node.matchCnts, className)
    ensures StdMap.HasKey(node.matchCnts, className) ==>
      StdMap.InsertAll(map[], node.matchCnts)[className] == node.matchCnts[StdMap.FirstIndex(node.matchCnts, className)].1
  {
    StdMap.InsertAllFresh(node.scores, className);
    StdMap.InsertAllFresh(node.matchPercents, className);
    StdMap.InsertAllFresh(node.matchCnts, className);
  }

  /** Example: a class named twice in the score node keeps its first score. */
  lemma DuplicateScoreKeepsFirst()
    ensures StdMap.InsertAll(map[], [("cat", 0.9), ("cat", 0.1)]) == map["cat" := 0.9]
  {
    var entries := [("cat", 0.9), ("cat", 0.1)];
    assert entries[..1] == [("cat", 0.9)] && [("cat", 0.9)][..0] == [];
  }
}
