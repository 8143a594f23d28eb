/** Stand-ins for the scikit-learn and joblib objects the pipeline uses.
    A fitted estimator is opaque except for what scikit-learn guarantees
    about it: it remembers how many feature columns it was fitted on and
    rejects an input of another width, a classifier's `predict_proba`
    columns follow `classes_` (the sorted distinct training labels), and
    `predict` returns the class of the first largest probability. */
module Estimators {
  import opened Outcomes
  import opened Text

  // ---------------------------------------------------------------------
  // Fitted estimators

  datatype Classifier<L> = Classifier(nFeatures: nat, classes: seq<L>, proba: seq<real> -> seq<real>)

  datatype Regressor = Regressor(nFeatures: nat, predict: seq<real> -> real)

  /** A fitted StandardScaler: per-column mean and scale. */
  datatype Scaler = Scaler(mean: seq<real>, scale: seq<real>)

  /** The fitted-width check every estimator applies to its input. */
  function CheckWidth(nFeatures: nat, x: seq<real>): (r: Result<seq<real>>)
    ensures r.Ok? <==> |x| == nFeatures
    ensures r.Ok? ==> r.value == x
    ensures r.Err? ==> r.fault == FeatureCount(|x|, nFeatures)
  {
    if |x| == nFeatures then Ok(x) else Err(FeatureCount(|x|, nFeatures))
  }

  /** `model.predict_proba([x])[0]`. */
  function PredictProba<L>(m: Classifier<L>, x: seq<real>): (r: Result<seq<real>>)
    ensures r.Ok? <==> |x| == m.nFeatures
    ensures r.Ok? ==> r.value == m.proba(x)
    ensures r.Err? ==> r.fault == FeatureCount(|x|, m.nFeatures)
  {
    var checked :- CheckWidth(m.nFeatures, x);
    Ok(m.proba(checked))
  }

  /** `numpy.argmax`: the first position of a largest entry. */
  function ArgMax(ps: seq<real>): (k: nat)
    requires |ps| > 0
    ensures k < |ps|
    ensures forall j :: 0 <= j < |ps| ==> ps[j] <= ps[k]
    ensures forall j :: 0 <= j < k ==> ps[j] < ps[k]
  {
    if |ps| == 1 then 0
    else
      var k := ArgMax(ps[..|ps| - 1]);
      if ps[|ps| - 1] > ps[k] then |ps| - 1 else k
  }

  /** Python's `max` over a non-empty sequence. */
  function Max(ps: seq<real>): (m: real)
    requires |ps| > 0
    ensures m in ps
    ensures forall j :: 0 <= j < |ps| ==> ps[j] <= m
  {
    if |ps| == 1 then ps[0]
    else
      var rest := Max(ps[1..]);
      if ps[0] >= rest then ps[0] else rest
  }

  /** The largest probability is the one of the predicted class. */
  lemma MaxIsAtArgMax(ps: seq<real>)
    requires |ps| > 0
    ensures Max(ps) == ps[ArgMax(ps)]
  {
  }

  /** `model.predict([x])[0]` of a classifier: the class of the first
      largest probability. */
  function Predict<L>(m: Classifier<L>, x: seq<real>): (r: Result<L>)
    ensures r.Ok? <==> |x| == m.nFeatures && |m.proba(x)| > 0 && ArgMax(m.proba(x)) < |m.classes|
    ensures r.Ok? ==> r.value == m.classes[ArgMax(m.proba(x))]
    ensures |x| != m.nFeatures ==> r == Err(FeatureCount(|x|, m.nFeatures))
  {
    var ps :- PredictProba(m, x);
    if |ps| == 0 then Err(EmptySequence)
    else
      var k := ArgMax(ps);
      if k < |m.classes| then Ok(m.classes[k]) else Err(IndexOutOfRange(k))
  }

  /** `model.predict([x])[0]` of a regressor. */
  function PredictValue(m: Regressor, x: seq<real>): (r: Result<real>)
    ensures r.Ok? <==> |x| == m.nFeatures
    ensures r.Ok? ==> r.value == m.predict(x)
    ensures r.Err? ==> r.fault == FeatureCount(|x|, m.nFeatures)
  {
    var checked :- CheckWidth(m.nFeatures, x);
    Ok(m.predict(checked))
  }

  /** `scaler.transform([x])[0]`: each column centred and divided by its
      scale (a zero scale counts as 1, as StandardScaler stores it). */
  function Transform(s: Scaler, x: seq<real>): (r: Result<seq<real>>)
    ensures r.Ok? <==> |x| == |s.mean| && |s.scale| == |s.mean|
    ensures r.Ok? ==> |r.value| == |x|
    ensures r.Ok? ==> forall k :: 0 <= k < |x| ==>
      r.value[k] == (x[k] - s.mean[k]) / (if s.scale[k] == 0.0 then 1.0 else s.scale[k])
  {
    if |s.scale| != |s.mean| then Err(FeatureCount(|s.scale|, |s.mean|))
    else
      var checked :- CheckWidth(|s.mean|, x);
      Ok(seq(|x|, k requires 0 <= k < |x| =>
        (x[k] - s.mean[k]) / (if s.scale[k] == 0.0 then 1.0 else s.scale[k])))
  }

  // ---------------------------------------------------------------------
  // Label encoding: numpy.unique and LabelEncoder

  /** `less` is a strict total order: Python's `<` on strings and on
      numbers are both of this kind. */
  ghost predicate StrictOrder<T(!new)>(less: (T, T) -> bool) {
    (forall a :: !less(a, a))
    && (forall a, b, c :: less(a, b) && less(b, c) ==> less(a, c))
    && (forall a, b :: a != b ==> less(a, b) || less(b, a))
  }

  predicate StrictlySorted<T>(xs: seq<T>, less: (T, T) -> bool) {
    forall i, j :: 0 <= i < j < |xs| ==> less(xs[i], xs[j])
  }

  /** Insert `x` into an increasing sequence, keeping it free of repeats. */
  function InsertSorted<T(==,!new)>(x: T, xs: seq<T>, less: (T, T) -> bool): (r: seq<T>)
    ensures forall y :: y in r <==> y in xs || y == x
    decreases |xs|
  {
    if |xs| == 0 then [x]
    else if x == xs[0] then xs
    else if less(x, xs[0]) then [x] + xs
    else [xs[0]] + InsertSorted(x, xs[1..], less)
  }

  lemma {:induction false} InsertSortedKeepsOrder<T(!new)>(x: T, xs: seq<T>, less: (T, T) -> bool)
    requires StrictOrder(less) && StrictlySorted(xs, less)
    ensures StrictlySorted(InsertSorted(x, xs, less), less)
    decreases |xs|
  {
    if |xs| > 0 && x != xs[0] && !less(x, xs[0]) {
      InsertSortedKeepsOrder(x, xs[1..], less);
      var rest := InsertSorted(x, xs[1..], less);
      forall j | 0 <= j < |rest|
        ensures less(xs[0], rest[j])
      {
        assert rest[j] in rest;
        if rest[j] != x {
          assert rest[j] in xs[1..];
          var i :| 0 <= i < |xs[1..]| && xs[1..][i] == rest[j];
          assert xs[i + 1] == rest[j];
        }
      }
    }
  }

  /** `numpy.unique(labels)`: the distinct labels in increasing order. This
      is what `LabelEncoder.fit` stores, and what a classifier stores as
      `classes_`, the order of its probability columns. */
  function Unique<T(==,!new)>(labels: seq<T>, less: (T, T) -> bool): (classes: seq<T>)
    ensures forall y :: y in classes <==> y in labels
  {
    if |labels| == 0 then []
    else InsertSorted(labels[|labels| - 1], Unique(labels[..|labels| - 1], less), less)
  }

  /** Under a strict order the classes are increasing, hence free of
      repeats. */
  lemma {:induction false} UniqueIsSorted<T(!new)>(labels: seq<T>, less: (T, T) -> bool)
    requires StrictOrder(less)
    ensures StrictlySorted(Unique(labels, less), less)
  {
    if |labels| > 0 {
      UniqueIsSorted(labels[..|labels| - 1], less);
      InsertSortedKeepsOrder(labels[|labels| - 1], Unique(labels[..|labels| - 1], less), less);
    }
  }

  /** An increasing sequence is checked by its neighbours alone. */
  lemma {:induction false} NeighboursSorted<T(!new)>(xs: seq<T>, less: (T, T) -> bool)
    requires StrictOrder(less)
    requires forall i :: 0 <= i < |xs| - 1 ==> less(xs[i], xs[i + 1])
    ensures StrictlySorted(xs, less)
  {
    if |xs| > 1 {
      NeighboursSorted(xs[1..], less);
      forall j | 1 < j < |xs|
        ensures less(xs[0], xs[j])
      {
        assert less(xs[1], xs[j]) by {
          assert xs[1..][0] == xs[1] && xs[1..][j - 1] == xs[j];
        }
      }
    }
  }

  /** A set of labels has exactly one increasing arrangement, so `Unique`
      is fixed by which labels occur and not by their order or repeats. */
  lemma {:induction false} SortedArrangementUnique<T(!new)>(a: seq<T>, b: seq<T>, less: (T, T) -> bool)
    requires StrictOrder(less)
    requires StrictlySorted(a, less) && StrictlySorted(b, less)
    requires forall y :: y in a <==> y in b
    ensures a == b
    decreases |a|
  {
    if |a| > 0 {
      assert a[0] in a;
    }
    if |b| > 0 {
      assert b[0] in b;
    }
    if |a| > 0 && |b| > 0 {
      assert a[0] == b[0];
      forall y
        ensures y in a[1..] <==> y in b[1..]
      {
        if y in a[1..] {
          var i :| 0 <= i < |a[1..]| && a[1..][i] == y;
          assert less(a[0], a[i + 1]);
          assert y in a && y in b;
          var k :| 0 <= k < |b| && b[k] == y;
          assert k != 0;
          assert b[1..][k - 1] == y;
        }
        if y in b[1..] {
          var i :| 0 <= i < |b[1..]| && b[1..][i] == y;
          assert less(b[0], b[i + 1]);
          assert y in b && y in a;
          var k :| 0 <= k < |a| && a[k] == y;
          assert k != 0;
          assert a[1..][k - 1] == y;
        }
      }
      SortedArrangementUnique(a[1..], b[1..], less);
    }
  }

  /** The classes of a label column are the increasing arrangement of the
      labels that occur in it. */
  lemma UniqueIs<T(!new)>(labels: seq<T>, classes: seq<T>, less: (T, T) -> bool)
    requires StrictOrder(less) && StrictlySorted(classes, less)
    requires forall y :: y in classes <==> y in labels
    ensures Unique(labels, less) == classes
  {
    UniqueIsSorted(labels, less);
    SortedArrangementUnique(Unique(labels, less), classes, less);
  }

  /** `LabelEncoder.transform([x])[0]`: the position of `x` among the
      fitted classes; a label not seen at fit time is rejected. */
  function Encode<T(==)>(classes: seq<T>, x: T, describe: T -> string): (r: Result<nat>)
    ensures r.Ok? <==> x in classes
    ensures r.Ok? ==> r.value < |classes| && classes[r.value] == x
    ensures r.Err? ==> r.fault == UnseenLabel(describe(x))
  {
    if x in classes then Ok(Position(classes, x)) else Err(UnseenLabel(describe(x)))
  }

  /** On sorted classes, codes follow the order of the labels; in
      particular distinct labels get distinct codes. */
  lemma EncodeFollowsOrder<T(!new)>(classes: seq<T>, x: T, y: T, less: (T, T) -> bool, describe: T -> string)
    requires StrictOrder(less) && StrictlySorted(classes, less)
    requires x in classes && y in classes && less(x, y)
    ensures Encode(classes, x, describe).value < Encode(classes, y, describe).value
  {
  }

  /** `LabelEncoder.fit_transform(column)`: the fitted classes and the code
      of every entry; every entry was seen, so every code exists. */
  function FitTransform<T(==,!new)>(column: seq<T>, less: (T, T) -> bool): (r: (seq<T>, seq<nat>))
    ensures r.0 == Unique(column, less)
    ensures |r.1| == |column|
    ensures forall i :: 0 <= i < |column| ==> r.1[i] < |r.0| && r.0[r.1[i]] == column[i]
    ensures forall i :: 0 <= i < |column| ==> column[i] in r.0 && r.1[i] == Position(r.0, column[i])
  {
    var classes := Unique(column, less);
    (classes, seq(|column|, i requires 0 <= i < |column| => Position(classes, column[i])))
  }

  /** The position of a member of a sequence. */
  function Position<T(==)>(xs: seq<T>, x: T): (k: nat)
    requires x in xs
    ensures k < |xs| && xs[k] == x
  {
    if xs[0] == x then 0 else Position(xs[1..], x) + 1
  }

  /** The two orders the pipeline encodes with. */
  predicate RealLess(a: real, b: real) {
    a < b
  }

  lemma StringOrder()
    ensures StrictOrder(LexLess)
  {
    forall a
      ensures !LexLess(a, a)
    {
      LexLessIrreflexive(a);
    }
    forall a, b, c | LexLess(a, b) && LexLess(b, c)
      ensures LexLess(a, c)
    {
      LexLessTransitive(a, b, c);
    }
    forall a, b | a != b
      ensures LexLess(a, b) || LexLess(b, a)
    {
      LexLessTotal(a, b);
    }
  }

  lemma NumberOrder()
    ensures StrictOrder(RealLess)
  {
  }

  // ---------------------------------------------------------------------
  // train_test_split

  /** `ceil(0.2 * n)`, the test-set size for `test_size=0.2`. */
  function TestCount(n: nat): (t: nat)
    ensures 5 * t >= n && 5 * t < n + 5
  {
    (n + 4) / 5
  }

  function Iota(n: nat): (s: seq<nat>)
    ensures |s| == n && forall i :: 0 <= i < n ==> s[i] == i
  {
    seq(n, i requires 0 <= i < n => i)
  }

  /** The shuffled order the seeded generator produces: every row index
      exactly once. */
  predicate IsPermutation(perm: seq<nat>, n: nat) {
    multiset(perm) == multiset(Iota(n))
  }

  datatype TrainTest = TrainTest(train: seq<nat>, test: seq<nat>)

  /** The row indices of the two sides: the first `ceil(0.2 n)` shuffled
      indices are the test side, the rest the training side. An empty side
      is rejected, as scikit-learn rejects it. */
  function SplitIndices(n: nat, perm: seq<nat>): (r: Result<TrainTest>)
    requires IsPermutation(perm, n)
    ensures r.Ok? <==> n >= 2
    ensures r.Ok? ==> |r.value.test| == TestCount(n) && |r.value.train| == n - TestCount(n)
    ensures r.Ok? ==> r.value.test + r.value.train == perm
  {
    var t := TestCount(n);
    assert |perm| == n by {
      assert |multiset(perm)| == |multiset(Iota(n))|;
    }
    if t == 0 || t >= n then Err(TooFewSamples(n))
    else Ok(TrainTest(perm[t..], perm[..t]))
  }

  /** What a stratified `train_test_split` demands of its labels: every
      class has at least two members, and each side has room for one row of
      every class. */
  predicate Stratifiable<T(==,!new)>(labels: seq<T>, less: (T, T) -> bool) {
    && (forall i :: 0 <= i < |labels| ==> multiset(labels)[labels[i]] >= 2)
    && TestCount(|labels|) >= |Unique(labels, less)|
    && |labels| - TestCount(|labels|) >= |Unique(labels, less)|
  }

  lemma {:induction false} IotaCounts(n: nat, x: nat)
    ensures multiset(Iota(n))[x] == if x < n then 1 else 0
  {
    if n > 0 {
      assert Iota(n) == Iota(n - 1) + [n - 1];
      IotaCounts(n - 1, x);
    }
  }

  /** The two sides of a split are disjoint, hold only row indices, and
      together hold every row. */
  lemma SplitPartitionsRows(n: nat, perm: seq<nat>)
    requires IsPermutation(perm, n) && SplitIndices(n, perm).Ok?
    ensures forall x :: x in SplitIndices(n, perm).value.train ==> x !in SplitIndices(n, perm).value.test
    ensures forall x :: x in SplitIndices(n, perm).value.train ==> x < n
    ensures forall x :: x in SplitIndices(n, perm).value.test ==> x < n
    ensures forall x :: 0 <= x < n ==> x in SplitIndices(n, perm).value.train || x in SplitIndices(n, perm).value.test
  {
    var s := SplitIndices(n, perm).value;
    assert multiset(s.test) + multiset(s.train) == multiset(Iota(n)) by {
      assert s.test + s.train == perm;
    }
    forall x | x in s.train
      ensures x !in s.test && x < n
    {
      IotaCounts(n, x);
    }
    forall x | x in s.test
      ensures x < n
    {
      IotaCounts(n, x);
    }
    forall x | 0 <= x < n
      ensures x in s.train || x in s.test
    {
      IotaCounts(n, x);
      assert x in multiset(s.test) + multiset(s.train);
    }
  }

  // ---------------------------------------------------------------------
  // Persisted artefacts

  /** A `.pkl` file as `joblib.load` finds it. */
  datatype Artifact<M> = Absent | Unreadable | Stored(model: M)

  /** `joblib.load(path)`: fails unless the file holds a stored object. */
  function Load<M>(a: Artifact<M>): (r: Result<M>)
    ensures r.Ok? <==> a.Stored?
    ensures r.Ok? ==> r.value == a.model
  {
    match a
    case Stored(m) => Ok(m)
    case _ => Err(MissingArtifact)
  }
}
