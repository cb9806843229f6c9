/**
  The distance reporter: sums of the absolute distances an unsupervised
  model writes under OUTPUT_DISTANCE, grouped by model, label and
  (optionally) feature, with a sample count per model and label, and a
  summary of the average distance of every group.
 */
module DistanceReporter {
  import opened Wrappers
  import opened FeatureKeys
  import opened Errors
  import opened Features

  /** The keys the reporter declares it needs (OUTPUT_DISTANCE, which `report` reads, is not among them). */
  const InputSignature: seq<FeatureKey> :=
    [Prediction(ModelName), Prediction(OutputBinary), Prediction(GroundTruth)]

  /** A key of the distance sums: (model, label, feature name), the feature None without a feature list. */
  datatype SumKey = SumKey(model: Value, truth: Value, feature: Option<string>)

  /**
    A key of the sample counts: the pair (model, label) with a feature list,
    and the triple (model, label, None) without one.
   */
  datatype CountKey = Pair(model: Value, truth: Value) | Triple(model: Value, truth: Value)

  /**
    The reporter's two defaultdicts; `order` is the insertion order of the
    distance sums, which the summary iterates. A sum starts as the
    defaultdict's int 0; `numpy` holds the keys whose sum has had a numpy
    scalar added to it (an element of the distance array, or the `sum` of
    a non-empty one), and so is a numpy scalar itself.
   */
  datatype Distances = Distances(sums: map<SumKey, real>, order: seq<SumKey>, counts: map<CountKey, nat>, numpy: set<SumKey>)

  const InitialDistances := Distances(map[], [], map[], {})

  /** `d[k]` on the defaultdict of distance sums. */
  function SumOf(sums: map<SumKey, real>, k: SumKey): real
  {
    if k in sums then sums[k] else 0.0
  }

  /** Python's `abs` on a number. */
  function Abs(v: Value): (r: real)
    requires IsNumber(v)
    ensures r >= 0.0 && (r == NumberValue(v) || r == -NumberValue(v))
  {
    if NumberValue(v) < 0.0 then -NumberValue(v) else NumberValue(v)
  }

  /** `sum` of the absolute values of a sequence of numbers. */
  function SumAbs(xs: seq<Value>): (r: real)
    requires forall i :: 0 <= i < |xs| ==> IsNumber(xs[i])
    ensures r >= 0.0
    ensures xs != [] ==> r >= Abs(xs[0])
  {
    if xs == [] then 0.0 else Abs(xs[0]) + SumAbs(xs[1..])
  }

  /**
    What `enumerate` walks: the elements of an array, the one-character
    strings of a string; anything else raises TypeError.
   */
  function Elements(v: Value): (r: Result<seq<Value>>)
    ensures r.Ok? <==> v.List? || v.Str?
    ensures v.List? ==> r == Ok(v.items)
    ensures v.Str? ==> r.Ok? && |r.value| == |v.s| && forall i :: 0 <= i < |v.s| ==> r.value[i] == Str([v.s[i]])
  {
    match v
    case List(xs) => Ok(xs)
    case Str(cs) => Ok(seq(|cs|, i requires 0 <= i < |cs| => Str([cs[i]])))
    case _ => Err(TypeError)
  }

  /**
    `sum(abs(d))` on the distance array: abs applies element-wise and sum
    adds the results; a non-number element, or a distance that is not an
    array, raises TypeError.
   */
  function AbsSum(v: Value): (r: Result<real>)
    ensures r.Ok? <==> v.List? && forall i :: 0 <= i < |v.items| ==> IsNumber(v.items[i])
    ensures r.Ok? ==> r.value >= 0.0
    ensures r.Err? ==> r.error == TypeError
  {
    match v
    case List(xs) =>
      if forall i :: 0 <= i < |xs| ==> IsNumber(xs[i]) then Ok(SumAbs(xs)) else Err(TypeError)
    case _ => Err(TypeError)
  }

  /** The model name and the label of a record, raising at the first one it lacks. */
  function Names(features: Record): Result<(Value, Value)>
  {
    var m :- features.Get(Prediction(ModelName));
    var l :- features.Get(Prediction(GroundTruth));
    Ok((m, l))
  }

  /** `d[k]` on the defaultdict of sums reads a missing key as 0 and inserts it. */
  function Touch(s: Distances, k: SumKey): Distances
  {
    if k in s.sums then s else s.(sums := s.sums[k := 0.0], order := s.order + [k])
  }

  /** `d[k] += x` once the key is present; adding a numpy scalar makes the sum one. */
  function Add(s: Distances, k: SumKey, x: real, scalar: bool): Distances
  {
    s.(sums := s.sums[k := SumOf(s.sums, k) + x], numpy := if scalar then s.numpy + {k} else s.numpy)
  }

  /** Whether `sum(abs(d))` is a numpy scalar: Python's `sum` starts from the int 0 and returns it for an empty array. */
  predicate NonEmptyArray(v: Value)
  {
    v.List? && |v.items| > 0
  }

  /** `samples[c] += 1`. */
  function Counted(s: Distances, c: CountKey): Distances
  {
    s.(counts := s.counts[c := Count(s.counts, c) + 1])
  }

  /**
    One iteration of `report`'s `for i, f in enumerate(...)` loop, element i of the distance vector: the key
    takes feature_list[i], raising IndexError past its end; the sum is read
    (inserting a 0) before abs raises TypeError on a non-number.
   */
  function ElementStep(s: Distances, m: Value, l: Value, fl: seq<string>, i: nat, d: Value): (Distances, Result<()>)
  {
    if i >= |fl| then (s, Err(IndexError))
    else
      var k := SumKey(m, l, Some(fl[i]));
      if !IsNumber(d) then (Touch(s, k), Err(TypeError))
      else (Add(Touch(s, k), k, Abs(d), true), Ok(()))
  }

  /** `report`'s `enumerate` loop over the first n elements, stopping at the first that raises. */
  function FeatureSums(s: Distances, m: Value, l: Value, fl: seq<string>, ds: seq<Value>, n: nat): (Distances, Result<()>)
    requires n <= |ds|
    decreases n
  {
    if n == 0 then (s, Ok(()))
    else
      var (s1, r) := FeatureSums(s, m, l, fl, ds, n - 1);
      if r.Err? then (s1, r) else ElementStep(s1, m, l, fl, n - 1, ds[n - 1])
  }

  /**
    `report`. With a (non-empty) feature list, the distance vector is read
    first, then every element is added under its feature, then the pair
    count rises. The model name and label are read by the loop's first
    iteration, or after the loop for an empty vector; as neither read
    changes anything, reading them once before the loop raises the same
    error in the same state. Without a feature list, the sum under
    (model, label, None) is read (inserting a 0) before the distance is, and
    the count is kept under that same triple.
   */
  function ReportStep(s: Distances, fl: seq<string>, features: Record): (Distances, Result<()>)
  {
    if fl != [] then
      var dv := features.Get(Prediction(OutputDistance));
      if dv.Err? then (s, Err(dv.error))
      else
        var ds := Elements(dv.value);
        if ds.Err? then (s, Err(ds.error))
        else
          var names := Names(features);
          if names.Err? then (s, Err(names.error))
          else
            var (m, l) := names.value;
            var (s1, r) := FeatureSums(s, m, l, fl, ds.value, |ds.value|);
            if r.Err? then (s1, r) else (Counted(s1, Pair(m, l)), Ok(()))
    else
      var names := Names(features);
      if names.Err? then (s, Err(names.error))
      else
        var (m, l) := names.value;
        var k := SumKey(m, l, None);
        var s1 := Touch(s, k);
        var dv := features.Get(Prediction(OutputDistance));
        if dv.Err? then (s1, Err(dv.error))
        else
          var total := AbsSum(dv.value);
          if total.Err? then (s1, Err(total.error))
          else (Counted(Add(s1, k, total.value, NonEmptyArray(dv.value)), Triple(m, l)), Ok(()))
  }

  /** A float average: a finite value, or what a numpy float division by zero gives. */
  datatype Average = Finite(value: real) | PosInf | NegInf | NaN

  /**
    `x / c` for a numpy scalar x and an int count c: the quotient for a
    positive count; for 0, numpy warns and gives inf, -inf or nan by the
    sign of x rather than raising.
   */
  function NumpyDivide(x: real, c: nat): (a: Average)
    ensures c > 0 ==> a == Finite(x / c as real)
    ensures c == 0 ==> (a == PosInf <==> x > 0.0) && (a == NegInf <==> x < 0.0) && (a == NaN <==> x == 0.0)
  {
    if c > 0 then Finite(x / c as real)
    else if x > 0.0 then PosInf
    else if x < 0.0 then NegInf
    else NaN
  }

  /** One line of the summary: the group, its sample count and its average distance (rounding left out). */
  datatype DistanceLine = DistanceLine(key: SumKey, samples: nat, average: Average)

  /**
    One group of `end_processing`: the pair count is read through the
    defaultdict, which inserts a 0 for a pair never counted, and the sum is
    divided by it. A zero count raises ZeroDivisionError only for a sum
    that is still the int 0; a numpy sum gives inf or nan.
   */
  function EndStep(s: Distances, k: SumKey): (Distances, Result<DistanceLine>)
  {
    var c := Count(s.counts, Pair(k.model, k.truth));
    var s1 := s.(counts := s.counts[Pair(k.model, k.truth) := c]);
    if c == 0 && k !in s.numpy then (s1, Err(ZeroDivisionError))
    else (s1, Ok(DistanceLine(k, c, NumpyDivide(SumOf(s.sums, k), c))))
  }

  /** `end_processing` over the first n sums, in insertion order. */
  function Summarize(s: Distances, n: nat): (r: (Distances, Result<seq<DistanceLine>>))
    requires n <= |s.order|
    ensures r.0.sums == s.sums && r.0.order == s.order && r.0.numpy == s.numpy
    decreases n
  {
    if n == 0 then (s, Ok([]))
    else
      var (s', lines) := Summarize(s, n - 1);
      if lines.Err? then (s', lines)
      else
        var (s1, line) := EndStep(s', s.order[n - 1]);
        if line.Err? then (s1, Err(line.error)) else (s1, Ok(lines.value + [line.value]))
  }

  /** The reporter object: the feature list it was built with and its two dicts, updated in place. */
  class DistanceReporter {
    const featureList: seq<string>
    var distanceSumPerModelLabelFeature: map<SumKey, real>
    var sumOrder: seq<SumKey>
    var samplesPerModelAndLabel: map<CountKey, nat>
    var numpySums: set<SumKey>

    function State(): Distances
      reads this
    {
      Distances(distanceSumPerModelLabelFeature, sumOrder, samplesPerModelAndLabel, numpySums)
    }

    /** A missing feature list is the empty one: both are false in Python's sense. */
    constructor(featureList: seq<string>)
      ensures this.featureList == featureList && State() == InitialDistances
    {
      this.featureList := featureList;
      distanceSumPerModelLabelFeature := map[];
      sumOrder := [];
      samplesPerModelAndLabel := map[];
      numpySums := {};
    }

    /** `report`: the record's distances added to their sums, and one more sample counted. */
    method Report(features: Record) returns (r: Result<()>)
      modifies this
      ensures (State(), r) == ReportStep(old(State()), featureList, features)
    {
      if featureList != [] {
        var dv := features.Get(Prediction(OutputDistance));
        if dv.Err? {
          return Err(dv.error);
        }
        var ds := Elements(dv.value);
        if ds.Err? {
          return Err(ds.error);
        }
        var names := Names(features);
        if names.Err? {
          return Err(names.error);
        }
        var (m, l) := names.value;
        var i := 0;
        while i < |ds.value|
          invariant 0 <= i <= |ds.value|
          invariant (State(), Ok(())) == FeatureSums(old(State()), m, l, featureList, ds.value, i)
        {
          if i >= |featureList| {
            FeatureSumsStops(old(State()), m, l, featureList, ds.value, i + 1, |ds.value|);
            return Err(IndexError);
          }
          var k := SumKey(m, l, Some(featureList[i]));
          TouchSum(k);
          if !IsNumber(ds.value[i]) {
            FeatureSumsStops(old(State()), m, l, featureList, ds.value, i + 1, |ds.value|);
            return Err(TypeError);
          }
          AddSum(k, Abs(ds.value[i]), true);
          i := i + 1;
        }
        CountSample(Pair(m, l));
      } else {
        var names := Names(features);
        if names.Err? {
          return Err(names.error);
        }
        var (m, l) := names.value;
        var k := SumKey(m, l, None);
        TouchSum(k);
        var dv := features.Get(Prediction(OutputDistance));
        if dv.Err? {
          return Err(dv.error);
        }
        var total := AbsSum(dv.value);
        if total.Err? {
          return Err(total.error);
        }
        AddSum(k, total.value, NonEmptyArray(dv.value));
        CountSample(Triple(m, l));
      }
      r := Ok(());
    }

    /** Reading a sum through the defaultdict. */
    method TouchSum(k: SumKey)
      modifies this
      ensures State() == Touch(old(State()), k)
    {
      if k !in distanceSumPerModelLabelFeature {
        distanceSumPerModelLabelFeature := distanceSumPerModelLabelFeature[k := 0.0];
        sumOrder := sumOrder + [k];
      }
    }

    /** Adding to a sum, which a numpy scalar turns into one. */
    method AddSum(k: SumKey, x: real, scalar: bool)
      modifies this
      ensures State() == Add(old(State()), k, x, scalar)
    {
      distanceSumPerModelLabelFeature :=
        distanceSumPerModelLabelFeature[k := SumOf(distanceSumPerModelLabelFeature, k) + x];
      if scalar {
        numpySums := numpySums + {k};
      }
    }

    /** Counting one more sample. */
    method CountSample(c: CountKey)
      modifies this
      ensures State() == Counted(old(State()), c)
    {
      samplesPerModelAndLabel := samplesPerModelAndLabel[c := Count(samplesPerModelAndLabel, c) + 1];
    }

    /** `end_processing`: the average distance of every group, in insertion order. */
    method EndProcessing() returns (r: Result<seq<DistanceLine>>)
      modifies this
      ensures (State(), r) == Summarize(old(State()), |old(sumOrder)|)
    {
      var lines: seq<DistanceLine> := [];
      var i := 0;
      while i < |sumOrder|
        invariant 0 <= i <= |sumOrder| && sumOrder == old(sumOrder)
        invariant (State(), Ok(lines)) == Summarize(old(State()), i)
      {
        var line := AverageOf(sumOrder[i]);
        if line.Err? {
          SummarizeStops(old(State()), i + 1, |sumOrder|);
          return Err(line.error);
        }
        lines := lines + [line.value];
        i := i + 1;
      }
      r := Ok(lines);
    }

    /** One iteration of `end_processing`'s loop over the sums: one group's average distance. */
    method AverageOf(k: SumKey) returns (line: Result<DistanceLine>)
      modifies this
      ensures (State(), line) == EndStep(old(State()), k)
    {
      var pair := Pair(k.model, k.truth);
      var c := Count(samplesPerModelAndLabel, pair);
      samplesPerModelAndLabel := samplesPerModelAndLabel[pair := c];
      if c == 0 && k !in numpySums {
        return Err(ZeroDivisionError);
      }
      line := Ok(DistanceLine(k, c, NumpyDivide(SumOf(distanceSumPerModelLabelFeature, k), c)));
    }
  }

  /** Once the feature loop raises, it raises with the same error and state however many elements remain. */
  lemma {:induction false} FeatureSumsStops(s: Distances, m: Value, l: Value, fl: seq<string>, ds: seq<Value>, k: nat, n: nat)
    requires k <= n <= |ds| && FeatureSums(s, m, l, fl, ds, k).1.Err?
    ensures FeatureSums(s, m, l, fl, ds, n) == FeatureSums(s, m, l, fl, ds, k)
    decreases n
  {
    if k < n {
      FeatureSumsStops(s, m, l, fl, ds, k, n - 1);
    }
  }

  /** Once the summary raises, it raises with the same error and state however many groups remain. */
  lemma {:induction false} SummarizeStops(s: Distances, k: nat, n: nat)
    requires k <= n <= |s.order| && Summarize(s, k).1.Err?
    ensures Summarize(s, n) == Summarize(s, k)
    decreases n
  {
    if k < n {
      SummarizeStops(s, k, n - 1);
    }
  }

  /** The sums are non-negative, and `order` lists every summed key exactly once. */
  ghost predicate Inv(s: Distances)
  {
    && (forall k :: k in s.sums ==> s.sums[k] >= 0.0)
    && (forall i, j :: 0 <= i < j < |s.order| ==> s.order[i] != s.order[j])
    && (forall k :: k in s.sums <==> k in s.order)
  }

  /** Every sum of s1 is still there in s2, and none is smaller. */
  ghost predicate Grows(s1: Distances, s2: Distances)
  {
    forall k :: k in s1.sums ==> k in s2.sums && s2.sums[k] >= s1.sums[k]
  }

  /** Reading a sum keeps the invariant, adds its key, and lowers nothing. */
  lemma TouchKeepsInv(s: Distances, k: SumKey)
    requires Inv(s)
    ensures Inv(Touch(s, k)) && Grows(s, Touch(s, k)) && k in Touch(s, k).sums
    ensures Touch(s, k).counts == s.counts
  {
    if k !in s.sums {
      var s' := Touch(s, k);
      forall i, j | 0 <= i < j < |s'.order|
        ensures s'.order[i] != s'.order[j]
      {
        if j == |s.order| {
          assert s.order[i] in s.sums;
        }
      }
    }
  }

  /** Adding a non-negative amount to a present sum keeps the invariant and lowers nothing. */
  lemma AddKeepsInv(s: Distances, k: SumKey, x: real, scalar: bool)
    requires Inv(s) && k in s.sums && x >= 0.0
    ensures var s' := Add(s, k, x, scalar); Inv(s') && Grows(s, s') && s'.counts == s.counts
  {
  }

  /** One element keeps the invariant, lowers no sum, leaves the counts alone and adds only a key of its model and label. */
  lemma ElementStepKeepsInv(s: Distances, m: Value, l: Value, fl: seq<string>, i: nat, d: Value)
    requires Inv(s)
    ensures var s' := ElementStep(s, m, l, fl, i, d).0;
      Inv(s') && Grows(s, s') && s'.counts == s.counts
  {
    if i < |fl| {
      var k := SumKey(m, l, Some(fl[i]));
      TouchKeepsInv(s, k);
      if IsNumber(d) {
        AddKeepsInv(Touch(s, k), k, Abs(d), true);
      }
    }
  }

  /** The feature loop keeps the invariant, whether or not it raises. */
  lemma {:induction false} FeatureSumsKeepsInv(s: Distances, m: Value, l: Value, fl: seq<string>, ds: seq<Value>, n: nat)
    requires Inv(s) && n <= |ds|
    ensures Inv(FeatureSums(s, m, l, fl, ds, n).0)
    decreases n
  {
    if n > 0 {
      FeatureSumsKeepsInv(s, m, l, fl, ds, n - 1);
      var prev := FeatureSums(s, m, l, fl, ds, n - 1);
      if prev.1.Ok? {
        ElementStepKeepsInv(prev.0, m, l, fl, n - 1, ds[n - 1]);
        assert FeatureSums(s, m, l, fl, ds, n) == ElementStep(prev.0, m, l, fl, n - 1, ds[n - 1]);
      }
    }
  }

  /** One element lowers no sum. */
  lemma ElementStepGrows(s: Distances, m: Value, l: Value, fl: seq<string>, i: nat, d: Value, k: SumKey)
    requires k in s.sums
    ensures var s' := ElementStep(s, m, l, fl, i, d).0;
      k in s'.sums && s'.sums[k] >= s.sums[k]
  {
  }

  /** The feature loop lowers no sum, whether or not it raises. */
  lemma {:induction false} FeatureSumsGrows(s: Distances, m: Value, l: Value, fl: seq<string>, ds: seq<Value>, n: nat, k: SumKey)
    requires n <= |ds| && k in s.sums
    ensures var s' := FeatureSums(s, m, l, fl, ds, n).0;
      k in s'.sums && s'.sums[k] >= s.sums[k]
    decreases n
  {
    if n > 0 {
      FeatureSumsGrows(s, m, l, fl, ds, n - 1, k);
      var prev := FeatureSums(s, m, l, fl, ds, n - 1);
      if prev.1.Ok? {
        ElementStepGrows(prev.0, m, l, fl, n - 1, ds[n - 1], k);
        assert FeatureSums(s, m, l, fl, ds, n) == ElementStep(prev.0, m, l, fl, n - 1, ds[n - 1]);
      }
    }
  }

  /**
    A report keeps the invariant: every sum stays non-negative and none
    ever decreases, whether the report succeeds or raises.
   */
  lemma ReportKeepsInv(s: Distances, fl: seq<string>, features: Record)
    requires Inv(s)
    ensures Inv(ReportStep(s, fl, features).0) && Grows(s, ReportStep(s, fl, features).0)
  {
    var names := Names(features);
    if fl != [] {
      var dv := features.Get(Prediction(OutputDistance));
      if dv.Ok? && Elements(dv.value).Ok? && names.Ok? {
        var ds := Elements(dv.value).value;
        FeatureSumsKeepsInv(s, names.value.0, names.value.1, fl, ds, |ds|);
        forall k | k in s.sums
          ensures k in ReportStep(s, fl, features).0.sums && ReportStep(s, fl, features).0.sums[k] >= s.sums[k]
        {
          FeatureSumsGrows(s, names.value.0, names.value.1, fl, ds, |ds|, k);
        }
      }
    } else if names.Ok? {
      var k := SumKey(names.value.0, names.value.1, None);
      TouchKeepsInv(s, k);
      var dv := features.Get(Prediction(OutputDistance));
      if dv.Ok? && AbsSum(dv.value).Ok? {
        AddKeepsInv(Touch(s, k), k, AbsSum(dv.value).value, NonEmptyArray(dv.value));
      }
    }
  }

  /** The feature loop succeeds exactly when every element has a feature name and is a number. */
  lemma {:induction false} FeatureSumsOk(s: Distances, m: Value, l: Value, fl: seq<string>, ds: seq<Value>, n: nat)
    requires n <= |ds|
    ensures FeatureSums(s, m, l, fl, ds, n).1.Ok? <==> n <= |fl| && forall i :: 0 <= i < n ==> IsNumber(ds[i])
    decreases n
  {
    if n > 0 {
      FeatureSumsOk(s, m, l, fl, ds, n - 1);
    }
  }

  /** The total the first n elements add to key k: the absolute values of those whose feature key is k. */
  function Added(m: Value, l: Value, fl: seq<string>, ds: seq<Value>, k: SumKey, n: nat): real
    requires n <= |ds| && n <= |fl| && forall i :: 0 <= i < n ==> IsNumber(ds[i])
    decreases n
  {
    if n == 0 then 0.0
    else Added(m, l, fl, ds, k, n - 1) + (if k == SumKey(m, l, Some(fl[n - 1])) then Abs(ds[n - 1]) else 0.0)
  }

  /** A feature loop that does not raise adds to each key the absolute distances of the elements under it. */
  lemma {:induction false} FeatureSumsAdds(s: Distances, m: Value, l: Value, fl: seq<string>, ds: seq<Value>, n: nat, k: SumKey)
    requires n <= |ds| && n <= |fl| && forall i :: 0 <= i < n ==> IsNumber(ds[i])
    ensures SumOf(FeatureSums(s, m, l, fl, ds, n).0.sums, k) == SumOf(s.sums, k) + Added(m, l, fl, ds, k, n)
    decreases n
  {
    if n > 0 {
      FeatureSumsAdds(s, m, l, fl, ds, n - 1, k);
      FeatureSumsOk(s, m, l, fl, ds, n - 1);
    }
  }

  /** With distinct feature names, each element's key receives exactly that element's absolute distance. */
  lemma {:induction false} AddedDistinct(m: Value, l: Value, fl: seq<string>, ds: seq<Value>, n: nat, j: nat)
    requires n <= |ds| && n <= |fl| && forall i :: 0 <= i < n ==> IsNumber(ds[i])
    requires forall i, i' :: 0 <= i < i' < n ==> fl[i] != fl[i']
    requires j < n
    ensures Added(m, l, fl, ds, SumKey(m, l, Some(fl[j])), n) == Abs(ds[j])
    decreases n
  {
    if j < n - 1 {
      AddedDistinct(m, l, fl, ds, n - 1, j);
    } else {
      AddedNone(m, l, fl, ds, SumKey(m, l, Some(fl[j])), n - 1);
    }
  }

  /** A key no element of the first n falls under receives nothing. */
  lemma {:induction false} AddedNone(m: Value, l: Value, fl: seq<string>, ds: seq<Value>, k: SumKey, n: nat)
    requires n <= |ds| && n <= |fl| && forall i :: 0 <= i < n ==> IsNumber(ds[i])
    requires forall i :: 0 <= i < n ==> k != SumKey(m, l, Some(fl[i]))
    ensures Added(m, l, fl, ds, k, n) == 0.0
    decreases n
  {
    if n > 0 {
      AddedNone(m, l, fl, ds, k, n - 1);
    }
  }

  /** One element adds only a key of its model and label. */
  lemma ElementStepKeys(s: Distances, m: Value, l: Value, fl: seq<string>, i: nat, d: Value, k: SumKey)
    requires k in ElementStep(s, m, l, fl, i, d).0.sums
    ensures k in s.sums || (k.model == m && k.truth == l)
  {
  }

  /** The feature loop leaves the counts alone. */
  lemma {:induction false} FeatureSumsCounts(s: Distances, m: Value, l: Value, fl: seq<string>, ds: seq<Value>, n: nat)
    requires n <= |ds|
    ensures FeatureSums(s, m, l, fl, ds, n).0.counts == s.counts
    decreases n
  {
    if n > 0 {
      FeatureSumsCounts(s, m, l, fl, ds, n - 1);
    }
  }

  /** The feature loop adds only keys of its own model and label. */
  lemma {:induction false} FeatureSumsKeys(s: Distances, m: Value, l: Value, fl: seq<string>, ds: seq<Value>, n: nat, k: SumKey)
    requires n <= |ds| && k in FeatureSums(s, m, l, fl, ds, n).0.sums
    ensures k in s.sums || (k.model == m && k.truth == l)
    decreases n
  {
    if n > 0 {
      var prev := FeatureSums(s, m, l, fl, ds, n - 1);
      if prev.1.Ok? {
        assert FeatureSums(s, m, l, fl, ds, n) == ElementStep(prev.0, m, l, fl, n - 1, ds[n - 1]);
        ElementStepKeys(prev.0, m, l, fl, n - 1, ds[n - 1], k);
      }
      if k in prev.0.sums {
        FeatureSumsKeys(s, m, l, fl, ds, n - 1, k);
      }
    }
  }

  /** The count a successful report raises: the pair with a feature list, the triple without one. */
  function SampleKey(fl: seq<string>, names: (Value, Value)): CountKey
  {
    if fl != [] then Pair(names.0, names.1) else Triple(names.0, names.1)
  }

  /** A successful report adds exactly one to exactly one count: its sample key's. */
  lemma ReportCountsOnce(s: Distances, fl: seq<string>, features: Record, c: CountKey)
    requires ReportStep(s, fl, features).1.Ok?
    ensures Names(features).Ok?
    ensures Count(ReportStep(s, fl, features).0.counts, c)
      == Count(s.counts, c) + (if c == SampleKey(fl, Names(features).value) then 1 else 0)
  {
    if fl != [] {
      var ds := Elements(features.fields[Prediction(OutputDistance)]).value;
      FeatureSumsCounts(s, Names(features).value.0, Names(features).value.1, fl, ds, |ds|);
    }
  }

  /**
    With a feature list, a successful report adds to each (model, label,
    feature) sum the absolute distances of the elements under that
    feature; every element had a feature name and was a number.
   */
  lemma ReportAddsDistances(s: Distances, fl: seq<string>, features: Record, k: SumKey)
    requires fl != [] && ReportStep(s, fl, features).1.Ok?
    ensures Prediction(OutputDistance) in features.fields && Names(features).Ok?
    ensures Elements(features.fields[Prediction(OutputDistance)]).Ok?
    ensures var ds := Elements(features.fields[Prediction(OutputDistance)]).value;
      && |ds| <= |fl| && (forall i :: 0 <= i < |ds| ==> IsNumber(ds[i]))
      && SumOf(ReportStep(s, fl, features).0.sums, k)
         == SumOf(s.sums, k) + Added(Names(features).value.0, Names(features).value.1, fl, ds, k, |ds|)
  {
    var ds := Elements(features.fields[Prediction(OutputDistance)]).value;
    var m, l := Names(features).value.0, Names(features).value.1;
    FeatureSumsOk(s, m, l, fl, ds, |ds|);
    FeatureSumsAdds(s, m, l, fl, ds, |ds|, k);
  }

  /**
    A distance vector longer than the feature list raises IndexError at
    the first element without a name, after the elements before it were
    added: the sums keep those additions.
   */
  lemma ReportOverlongRaises(s: Distances, fl: seq<string>, features: Record)
    requires fl != [] && Names(features).Ok? && Prediction(OutputDistance) in features.fields
    requires Elements(features.fields[Prediction(OutputDistance)]).Ok?
    requires var ds := Elements(features.fields[Prediction(OutputDistance)]).value;
      |ds| > |fl| && forall i :: 0 <= i < |fl| ==> IsNumber(ds[i])
    ensures var ds := Elements(features.fields[Prediction(OutputDistance)]).value;
      ReportStep(s, fl, features)
        == (FeatureSums(s, Names(features).value.0, Names(features).value.1, fl, ds, |fl|).0, Err(IndexError))
  {
    var ds := Elements(features.fields[Prediction(OutputDistance)]).value;
    var m, l := Names(features).value.0, Names(features).value.1;
    FeatureSumsOk(s, m, l, fl, ds, |fl|);
    assert FeatureSums(s, m, l, fl, ds, |fl| + 1) == (FeatureSums(s, m, l, fl, ds, |fl|).0, Err(IndexError));
    FeatureSumsStops(s, m, l, fl, ds, |fl| + 1, |ds|);
  }

  /**
    Without a feature list, a successful report adds the sum of the
    absolute distances to the (model, label, None) sum and changes no other
    sum; that sum becomes a numpy scalar when the array is non-empty.
   */
  lemma NoListReportAdds(s: Distances, features: Record, k: SumKey)
    requires ReportStep(s, [], features).1.Ok?
    ensures Names(features).Ok? && Prediction(OutputDistance) in features.fields
    ensures AbsSum(features.fields[Prediction(OutputDistance)]).Ok?
    ensures SumOf(ReportStep(s, [], features).0.sums, k)
      == SumOf(s.sums, k)
         + (if k == SumKey(Names(features).value.0, Names(features).value.1, None)
            then AbsSum(features.fields[Prediction(OutputDistance)]).value else 0.0)
    ensures k in ReportStep(s, [], features).0.numpy
      <==> k in s.numpy
           || (k == SumKey(Names(features).value.0, Names(features).value.1, None)
               && NonEmptyArray(features.fields[Prediction(OutputDistance)]))
  {
  }

  /** No count is kept under a (model, label) pair: what reports without a feature list leave behind. */
  ghost predicate NoPairCounts(s: Distances)
  {
    forall c :: c in s.counts ==> c.Triple?
  }

  /** Reports without a feature list never count a pair. */
  lemma NoListKeepsNoPairCounts(s: Distances, features: Record)
    requires NoPairCounts(s)
    ensures NoPairCounts(ReportStep(s, [], features).0)
  {
  }

  /**
    Without a pair count, every group of the summary divides by a count of
    0: a numpy sum gives inf or nan on a line with 0 samples, and the first
    sum that is still the int 0 raises ZeroDivisionError.
   */
  lemma {:induction false} NoListSummary(s: Distances, n: nat)
    requires NoPairCounts(s) && n <= |s.order|
    ensures var r := Summarize(s, n).1;
      && (r.Ok? <==> forall i :: 0 <= i < n ==> s.order[i] in s.numpy)
      && (r.Err? ==> r.error == ZeroDivisionError)
      && (r.Ok? ==> |r.value| == n && forall i :: 0 <= i < n ==>
           r.value[i] == DistanceLine(s.order[i], 0, NumpyDivide(SumOf(s.sums, s.order[i]), 0)))
    decreases n
  {
    if n > 0 {
      NoListSummary(s, n - 1);
      var k := s.order[n - 1];
      SummaryKeepsCounts(s, n - 1, Pair(k.model, k.truth));
      assert Pair(k.model, k.truth) !in s.counts;
    }
  }

  /** Every summed (model, label) has a pair count of at least one. */
  ghost predicate Covered(s: Distances)
  {
    forall k :: k in s.sums ==> Count(s.counts, Pair(k.model, k.truth)) >= 1
  }

  /** A successful report with a feature list keeps every summed pair counted. */
  lemma ListReportKeepsCovered(s: Distances, fl: seq<string>, features: Record)
    requires fl != [] && Covered(s) && ReportStep(s, fl, features).1.Ok?
    ensures Covered(ReportStep(s, fl, features).0)
  {
    var ds := Elements(features.fields[Prediction(OutputDistance)]).value;
    var m, l := Names(features).value.0, Names(features).value.1;
    FeatureSumsCounts(s, m, l, fl, ds, |ds|);
    var s' := ReportStep(s, fl, features).0;
    forall k | k in s'.sums
      ensures Count(s'.counts, Pair(k.model, k.truth)) >= 1
    {
      FeatureSumsKeys(s, m, l, fl, ds, |ds|, k);
    }
  }

  /** Reports over a stream of records, stopping at the first that raises. */
  function ReportAll(s: Distances, fl: seq<string>, fs: seq<Record>): (Distances, Result<()>)
    decreases |fs|
  {
    if fs == [] then (s, Ok(()))
    else
      var (s1, r) := ReportStep(s, fl, fs[0]);
      if r.Err? then (s1, r) else ReportAll(s1, fl, fs[1..])
  }

  /** A stream of reports keeps the invariant, whether or not one raises. */
  lemma {:induction false} ReportAllKeepsInv(s: Distances, fl: seq<string>, fs: seq<Record>)
    requires Inv(s)
    ensures Inv(ReportAll(s, fl, fs).0)
    decreases |fs|
  {
    if fs != [] {
      ReportKeepsInv(s, fl, fs[0]);
      if ReportStep(s, fl, fs[0]).1.Ok? {
        ReportAllKeepsInv(ReportStep(s, fl, fs[0]).0, fl, fs[1..]);
      }
    }
  }

  /** A stream of reports without a feature list never counts a pair, whether or not one raises. */
  lemma {:induction false} NoListReportAllKeepsNoPairCounts(s: Distances, fs: seq<Record>)
    requires NoPairCounts(s)
    ensures NoPairCounts(ReportAll(s, [], fs).0)
    decreases |fs|
  {
    if fs != [] {
      NoListKeepsNoPairCounts(s, fs[0]);
      if ReportStep(s, [], fs[0]).1.Ok? {
        NoListReportAllKeepsNoPairCounts(ReportStep(s, [], fs[0]).0, fs[1..]);
      }
    }
  }

  /** A stream of successful reports with a feature list keeps the invariant and every summed pair counted. */
  lemma {:induction false} ListReportAllKeepsCovered(s: Distances, fl: seq<string>, fs: seq<Record>)
    requires fl != [] && Inv(s) && Covered(s) && ReportAll(s, fl, fs).1.Ok?
    ensures Inv(ReportAll(s, fl, fs).0) && Covered(ReportAll(s, fl, fs).0)
    decreases |fs|
  {
    if fs != [] {
      ReportKeepsInv(s, fl, fs[0]);
      ListReportKeepsCovered(s, fl, fs[0]);
      ListReportAllKeepsCovered(ReportStep(s, fl, fs[0]).0, fl, fs[1..]);
    }
  }

  /** The summary changes no count: it only inserts a pair count of 0 for each pair never counted. */
  lemma {:induction false} SummaryKeepsCounts(s: Distances, n: nat, c: CountKey)
    requires n <= |s.order|
    ensures Count(Summarize(s, n).0.counts, c) == Count(s.counts, c)
    decreases n
  {
    if n > 0 {
      SummaryKeepsCounts(s, n - 1, c);
    }
  }

  /** Every group of the order has a pair count of at least one. */
  ghost predicate GroupsCounted(s: Distances)
  {
    forall i :: 0 <= i < |s.order| ==> Count(s.counts, Pair(s.order[i].model, s.order[i].truth)) >= 1
  }

  /**
    Line i of the summary reports group i of the order with its pair count
    (at least one) and its average: the group's sum over that count.
   */
  ghost predicate ListsGroup(s: Distances, i: nat, line: DistanceLine)
    requires i < |s.order|
  {
    && line.key == s.order[i]
    && line.samples == Count(s.counts, Pair(s.order[i].model, s.order[i].truth)) >= 1
    && line.average == Finite(SumOf(s.sums, s.order[i]) / line.samples as real)
  }

  /** With every group counted, the summary never raises and has one line per group. */
  lemma {:induction false} SummaryOk(s: Distances, n: nat)
    requires GroupsCounted(s) && n <= |s.order|
    ensures Summarize(s, n).1.Ok? && |Summarize(s, n).1.value| == n
    decreases n
  {
    if n > 0 {
      SummaryOk(s, n - 1);
      var k := s.order[n - 1];
      SummaryKeepsCounts(s, n - 1, Pair(k.model, k.truth));
    }
  }

  /** The last line of the summary of the first n groups reports group n - 1. */
  lemma SummaryLastLine(s: Distances, n: nat)
    requires GroupsCounted(s) && 0 < n <= |s.order|
    ensures Summarize(s, n).1.Ok? && |Summarize(s, n).1.value| == n
    ensures ListsGroup(s, n - 1, Summarize(s, n).1.value[n - 1])
  {
    SummaryOk(s, n - 1);
    var k := s.order[n - 1];
    var c := Count(s.counts, Pair(k.model, k.truth));
    SummaryKeepsCounts(s, n - 1, Pair(k.model, k.truth));
    var prev := Summarize(s, n - 1);
    var line := DistanceLine(k, c, Finite(SumOf(s.sums, k) / c as real));
    assert EndStep(prev.0, k).1 == Ok(line);
    assert Summarize(s, n).1.value == prev.1.value + [line];
  }

  /** Extending the summary to more groups keeps its earlier lines. */
  lemma {:induction false} SummaryKeepsLine(s: Distances, k: nat, n: nat, j: nat)
    requires GroupsCounted(s) && j < k <= n <= |s.order|
    ensures Summarize(s, k).1.Ok? && Summarize(s, n).1.Ok?
    ensures |Summarize(s, k).1.value| == k && |Summarize(s, n).1.value| == n
    ensures Summarize(s, k).1.value[j] == Summarize(s, n).1.value[j]
    decreases n
  {
    SummaryOk(s, k);
    SummaryOk(s, n);
    if k < n {
      SummaryKeepsLine(s, k, n - 1, j);
      SummaryLastLine(s, n);
      var prev := Summarize(s, n - 1).1.value;
      var lines := Summarize(s, n).1.value;
      assert lines == prev + [lines[n - 1]];
      assert lines[j] == prev[j];
    }
  }

  /** A non-negative sum over a positive count is a finite, non-negative average. */
  lemma AverageNonNegative(sum: real, c: nat)
    requires sum >= 0.0 && c >= 1
    ensures NumpyDivide(sum, c).Finite? && NumpyDivide(sum, c).value >= 0.0
  {
  }

  /**
    With every summed pair counted, `end_processing` never raises, and
    lists each group once, in insertion order, with a non-negative
    average distance.
   */
  lemma SummaryAverages(s: Distances)
    requires Inv(s) && Covered(s)
    ensures var lines := Summarize(s, |s.order|).1;
      && lines.Ok? && |lines.value| == |s.order|
      && forall i :: 0 <= i < |s.order| ==>
           ListsGroup(s, i, lines.value[i]) && lines.value[i].average.Finite? && lines.value[i].average.value >= 0.0
  {
    forall i | 0 <= i < |s.order|
      ensures Count(s.counts, Pair(s.order[i].model, s.order[i].truth)) >= 1
    {
      assert s.order[i] in s.order;
    }
    SummaryOk(s, |s.order|);
    var lines := Summarize(s, |s.order|).1.value;
    forall i | 0 <= i < |s.order|
      ensures ListsGroup(s, i, lines[i]) && lines[i].average.Finite? && lines[i].average.value >= 0.0
    {
      SummaryLastLine(s, i + 1);
      SummaryKeepsLine(s, i + 1, |s.order|, i);
      assert s.order[i] in s.order;
      AverageNonNegative(SumOf(s.sums, s.order[i]), lines[i].samples);
    }
  }

  /**
    With a feature list, a stream of reports that all succeed is followed
    by an `end_processing` that never divides by zero.
   */
  lemma ListModeSummarizes(fl: seq<string>, fs: seq<Record>)
    requires fl != [] && ReportAll(InitialDistances, fl, fs).1.Ok?
    ensures var s := ReportAll(InitialDistances, fl, fs).0;
      && Summarize(s, |s.order|).1.Ok? && |Summarize(s, |s.order|).1.value| == |s.order|
      && forall i :: 0 <= i < |s.order| ==>
           Summarize(s, |s.order|).1.value[i].average.Finite? && Summarize(s, |s.order|).1.value[i].average.value >= 0.0
  {
    ListReportAllKeepsCovered(InitialDistances, fl, fs);
    SummaryAverages(ReportAll(InitialDistances, fl, fs).0);
  }

  /**
    Without a feature list, `end_processing` after any stream of reports
    raises ZeroDivisionError exactly when some sum is still the int 0 (it
    only ever received empty arrays, or the report raised after reading
    it); otherwise every group is reported with 0 samples and an average
    of inf, or nan for a zero sum.
   */
  lemma NoListModeSummary(fs: seq<Record>)
    ensures var s := ReportAll(InitialDistances, [], fs).0;
      var r := Summarize(s, |s.order|).1;
      && (r.Err? <==> exists i :: 0 <= i < |s.order| && s.order[i] !in s.numpy)
      && (r.Err? ==> r.error == ZeroDivisionError)
      && (r.Ok? ==> |r.value| == |s.order| && forall i :: 0 <= i < |s.order| ==>
           && r.value[i].key == s.order[i] && r.value[i].samples == 0
           && (r.value[i].average == PosInf || r.value[i].average == NaN))
  {
    NoListReportAllKeepsNoPairCounts(InitialDistances, fs);
    ReportAllKeepsInv(InitialDistances, [], fs);
    var s := ReportAll(InitialDistances, [], fs).0;
    NoListSummary(s, |s.order|);
    forall i | 0 <= i < |s.order|
      ensures SumOf(s.sums, s.order[i]) >= 0.0
    {
      assert s.order[i] in s.order;
    }
  }
}
