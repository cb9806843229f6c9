/**
  The accuracy reporter: per model name, a count of predictions that matched
  the ground truth and a count of those that did not, and a summary listing
  each model's accuracy.
 */
module AccuracyReporter {
  import opened Wrappers
  import opened FeatureKeys
  import opened Errors
  import opened Features

  /** The keys every reported record must carry. */
  const InputSignature: seq<FeatureKey> :=
    [Prediction(ModelName), Prediction(OutputBinary), Prediction(GroundTruth)]

  /**
    The reporter's two defaultdicts of counters; `models` is the insertion
    order of the dict of correct counts, which the summary iterates.
   */
  datatype Tallies = Tallies(correct: map<Value, nat>, wrong: map<Value, nat>, models: seq<Value>)

  const InitialTallies := Tallies(map[], map[], [])

  /**
    The order lists every model of the correct counts once, and a model only
    enters those counts through an increment, so each of its counts is at
    least one.
   */
  ghost predicate TalliesInv(t: Tallies)
  {
    && (forall i, j :: 0 <= i < j < |t.models| ==> t.models[i] != t.models[j])
    && (forall m :: m in t.correct ==> m in t.models)
    && ModelsCounted(t)
  }

  /** Every model of the order has a correct count of at least one. */
  ghost predicate ModelsCounted(t: Tallies)
  {
    forall i :: 0 <= i < |t.models| ==> t.models[i] in t.correct && t.correct[t.models[i]] >= 1
  }

  /**
    The reads at the start of `report`: the model name and whether the prediction
    matched, raising at the first of the three keys the record lacks.
   */
  function Classify(features: Record): Result<(Value, bool)>
  {
    var name :- features.Get(Prediction(ModelName));
    var binary :- features.Get(Prediction(OutputBinary));
    var truth :- features.Get(Prediction(GroundTruth));
    Ok((name, PyEq(binary, truth)))
  }

  /** `report`'s `+= 1` on `correct_classifications_per_model` or `false_classifications_per_model`: one more correct or one more false classification for the model. */
  function Counted(t: Tallies, name: Value, correct: bool): Tallies
  {
    if correct then
      t.(correct := t.correct[name := Count(t.correct, name) + 1],
         models := if name in t.correct then t.models else t.models + [name])
    else
      t.(wrong := t.wrong[name := Count(t.wrong, name) + 1])
  }

  /** `report`: the counters afterwards and whether the call raised; a raising call changes nothing. */
  function ReportStep(t: Tallies, features: Record): (Tallies, Result<()>)
  {
    match Classify(features)
    case Err(e) => (t, Err(e))
    case Ok((name, correct)) => (Counted(t, name, correct), Ok(()))
  }

  /** Reports over a stream of records, stopping at the first that raises. */
  function ReportAll(t: Tallies, fs: seq<Record>): (Tallies, Result<()>)
    decreases |fs|
  {
    if fs == [] then (t, Ok(()))
    else
      var (t1, r) := ReportStep(t, fs[0]);
      if r.Err? then (t1, r) else ReportAll(t1, fs[1..])
  }

  /** The number of records of a stream naming model m whose prediction matched (or, with correct false, did not). */
  function Reports(fs: seq<Record>, m: Value, correct: bool): nat
    decreases |fs|
  {
    if fs == [] then 0
    else
      (if Classify(fs[0]) == Ok((m, correct)) then 1 else 0) + Reports(fs[1..], m, correct)
  }

  /** One line of the summary: the model, its two counts and its accuracy (a float, kept as an exact ratio). */
  datatype AccuracyLine = AccuracyLine(model: Value, correct: nat, wrong: nat, accuracy: Value)

  /**
    One model of `end_processing`: its false count is read through the
    defaultdict, which inserts a 0 for a model without false
    classifications, and its accuracy divides its correct count by the sum
    of both, raising on a zero sum.
   */
  function SummaryStep(t: Tallies, m: Value): (Tallies, Result<AccuracyLine>)
  {
    var t1 := t.(wrong := t.wrong[m := Count(t.wrong, m)]);
    var c, w := Count(t1.correct, m), Count(t1.wrong, m);
    if c + w == 0 then (t1, Err(ZeroDivisionError))
    else (t1, Ok(AccuracyLine(m, c, w, Ratio(c, c + w))))
  }

  /** `end_processing` over the first n models of the correct counts, in insertion order. */
  function Summarize(t: Tallies, n: nat): (r: (Tallies, Result<seq<AccuracyLine>>))
    requires n <= |t.models|
    ensures r.0.correct == t.correct && r.0.models == t.models
    decreases n
  {
    if n == 0 then (t, Ok([]))
    else
      var (t', lines) := Summarize(t, n - 1);
      if lines.Err? then (t', lines)
      else
        var (t1, line) := SummaryStep(t', t.models[n - 1]);
        if line.Err? then (t1, Err(line.error)) else (t1, Ok(lines.value + [line.value]))
  }

  /** The reporter object: the two counter dicts, updated in place. */
  class AccuracyReporter {
    var correctClassificationsPerModel: map<Value, nat>
    var falseClassificationsPerModel: map<Value, nat>
    var models: seq<Value>

    function State(): Tallies
      reads this
    {
      Tallies(correctClassificationsPerModel, falseClassificationsPerModel, models)
    }

    constructor()
      ensures State() == InitialTallies
    {
      correctClassificationsPerModel := map[];
      falseClassificationsPerModel := map[];
      models := [];
    }

    /** `report`: one more correct or false classification for the record's model. */
    method Report(features: Record) returns (r: Result<()>)
      modifies this
      ensures (State(), r) == ReportStep(old(State()), features)
    {
      var c := Classify(features);
      if c.Err? {
        return Err(c.error);
      }
      var (name, correct) := c.value;
      if correct {
        if name !in correctClassificationsPerModel {
          models := models + [name];
        }
        correctClassificationsPerModel :=
          correctClassificationsPerModel[name := Count(correctClassificationsPerModel, name) + 1];
      } else {
        falseClassificationsPerModel :=
          falseClassificationsPerModel[name := Count(falseClassificationsPerModel, name) + 1];
      }
      r := Ok(());
    }

    /** `end_processing`: the accuracy of every model with a correct classification, in insertion order. */
    method EndProcessing() returns (r: Result<seq<AccuracyLine>>)
      modifies this
      ensures (State(), r) == Summarize(old(State()), |old(models)|)
    {
      var lines: seq<AccuracyLine> := [];
      var i := 0;
      while i < |models|
        invariant 0 <= i <= |models| && models == old(models)
        invariant (State(), Ok(lines)) == Summarize(old(State()), i)
      {
        var line := SummarizeModel(models[i]);
        if line.Err? {
          SummarizeStops(old(State()), i + 1, |models|);
          return Err(line.error);
        }
        lines := lines + [line.value];
        i := i + 1;
      }
      r := Ok(lines);
    }

    /** One iteration of `end_processing`'s loop over the models: one model's accuracy line. */
    method SummarizeModel(m: Value) returns (line: Result<AccuracyLine>)
      modifies this
      ensures (State(), line) == SummaryStep(old(State()), m)
    {
      falseClassificationsPerModel :=
        falseClassificationsPerModel[m := Count(falseClassificationsPerModel, m)];
      var c, w := Count(correctClassificationsPerModel, m), Count(falseClassificationsPerModel, m);
      if c + w == 0 {
        return Err(ZeroDivisionError);
      }
      line := Ok(AccuracyLine(m, c, w, Ratio(c, c + w)));
    }
  }

  /** A report succeeds exactly when the record carries the whole input signature. */
  lemma ReportNeedsSignature(t: Tallies, features: Record)
    ensures ReportStep(t, features).1.Ok? <==> forall k :: k in InputSignature ==> k in features.fields
  {
  }

  /** Key i of the input signature is the first one the record lacks. */
  predicate FirstMissing(features: Record, i: int)
  {
    && 0 <= i < |InputSignature|
    && InputSignature[i] !in features.fields
    && forall j :: 0 <= j < i ==> InputSignature[j] in features.fields
  }

  /** A report that raises names the first key of the input signature the record lacks. */
  lemma ReportFailsOnFirstMissing(t: Tallies, features: Record)
    requires ReportStep(t, features).1.Err?
    ensures exists i :: FirstMissing(features, i) && ReportStep(t, features).1.error == MissingKey(InputSignature[i])
  {
    if Prediction(ModelName) !in features.fields {
      assert InputSignature[0] == Prediction(ModelName);
    } else if Prediction(OutputBinary) !in features.fields {
      assert InputSignature[1] == Prediction(OutputBinary);
    } else {
      assert InputSignature[2] == Prediction(GroundTruth);
    }
  }

  /**
    A successful report adds exactly one to exactly one counter of the
    record's model: the correct one when OUTPUT_BINARY equals GROUND_TRUTH,
    the false one otherwise; every other model's counters are unchanged.
   */
  lemma ReportCountsOnce(t: Tallies, features: Record, m: Value)
    requires ReportStep(t, features).1.Ok?
    ensures var t' := ReportStep(t, features).0;
      var name := features.fields[Prediction(ModelName)];
      var correct := PyEq(features.fields[Prediction(OutputBinary)], features.fields[Prediction(GroundTruth)]);
      && Count(t'.correct, m) == Count(t.correct, m) + (if m == name && correct then 1 else 0)
      && Count(t'.wrong, m) == Count(t.wrong, m) + (if m == name && !correct then 1 else 0)
  {
  }

  /** Reporting keeps the order of the correct counts exact and every correct count positive. */
  lemma ReportKeepsInv(t: Tallies, features: Record)
    requires TalliesInv(t)
    ensures TalliesInv(ReportStep(t, features).0)
  {
    if Classify(features).Ok? {
      var (name, correct) := Classify(features).value;
      if correct && name !in t.correct {
        var t' := ReportStep(t, features).0;
        assert t'.models == t.models + [name];
        assert forall i :: 0 <= i < |t.models| ==> t'.models[i] == t.models[i];
      }
    }
  }

  /**
    Over a stream that raises nowhere, each model's correct and false counts
    grow by its matching and non-matching reports, so their sum grows by
    the number of its reports.
   */
  lemma {:induction false} ReportAllCounts(t: Tallies, fs: seq<Record>, m: Value)
    requires ReportAll(t, fs).1.Ok?
    ensures Count(ReportAll(t, fs).0.correct, m) == Count(t.correct, m) + Reports(fs, m, true)
    ensures Count(ReportAll(t, fs).0.wrong, m) == Count(t.wrong, m) + Reports(fs, m, false)
    decreases |fs|
  {
    if fs != [] {
      ReportCountsOnce(t, fs[0], m);
      ReportAllCounts(ReportStep(t, fs[0]).0, fs[1..], m);
    }
  }

  /** Reporting a whole stream keeps the invariant. */
  lemma {:induction false} ReportAllKeepsInv(t: Tallies, fs: seq<Record>)
    requires TalliesInv(t)
    ensures TalliesInv(ReportAll(t, fs).0)
    decreases |fs|
  {
    if fs != [] {
      ReportKeepsInv(t, fs[0]);
      if ReportStep(t, fs[0]).1.Ok? {
        ReportAllKeepsInv(ReportStep(t, fs[0]).0, fs[1..]);
      }
    }
  }

  /** Once the summary raises, it raises with the same error and state however many models remain. */
  lemma {:induction false} SummarizeStops(t: Tallies, k: nat, n: nat)
    requires k <= n <= |t.models| && Summarize(t, k).1.Err?
    ensures Summarize(t, n) == Summarize(t, k)
    decreases n
  {
    if k < n {
      SummarizeStops(t, k, n - 1);
    }
  }

  /** A correct count of at least one gives an accuracy strictly above 0 and at most 1. */
  lemma AccuracyBounds(c: nat, w: nat)
    requires c >= 1
    ensures IsNumber(Ratio(c, c + w)) && 0.0 < NumberValue(Ratio(c, c + w)) <= 1.0
  {
    assert c as real <= (c + w) as real;
  }

  /**
    The summary changes no count: it only inserts a false count of 0 for
    each listed model that had none.
   */
  lemma {:induction false} SummaryKeepsCounts(t: Tallies, n: nat, m: Value)
    requires n <= |t.models|
    ensures var t' := Summarize(t, n).0;
      && Count(t'.wrong, m) == Count(t.wrong, m)
      && (m in t.wrong ==> m in t'.wrong)
    decreases n
  {
    if n > 0 {
      SummaryKeepsCounts(t, n - 1, m);
    }
  }

  /**
    Line i of the summary lists model i of the correct counts with its
    correct count (at least one), its false count (0 when it had none), and
    its accuracy: the correct count over the sum of both.
   */
  ghost predicate ListsModel(t: Tallies, i: nat, line: AccuracyLine)
    requires i < |t.models|
  {
    && line.model == t.models[i]
    && t.models[i] in t.correct
    && line.correct == t.correct[t.models[i]] >= 1
    && line.wrong == Count(t.wrong, t.models[i])
    && line.accuracy == Ratio(line.correct, line.correct + line.wrong)
  }

  /** The summary never raises, and has one line per model. */
  lemma {:induction false} SummaryOk(t: Tallies, n: nat)
    requires ModelsCounted(t) && n <= |t.models|
    ensures Summarize(t, n).1.Ok? && |Summarize(t, n).1.value| == n
    decreases n
  {
    if n > 0 {
      SummaryOk(t, n - 1);
      assert t.models[n - 1] in t.correct;
    }
  }

  /** The last line of the summary of the first n models lists model n - 1. */
  lemma SummaryLastLine(t: Tallies, n: nat)
    requires ModelsCounted(t) && 0 < n <= |t.models|
    ensures Summarize(t, n).1.Ok? && |Summarize(t, n).1.value| == n
    ensures ListsModel(t, n - 1, Summarize(t, n).1.value[n - 1])
  {
    SummaryOk(t, n - 1);
    var m := t.models[n - 1];
    assert m in t.correct && t.correct[m] >= 1;
    SummaryKeepsCounts(t, n - 1, m);
    var prev := Summarize(t, n - 1);
    var c, w := t.correct[m], Count(t.wrong, m);
    var line := AccuracyLine(m, c, w, Ratio(c, c + w));
    assert SummaryStep(prev.0, m) == (prev.0.(wrong := prev.0.wrong[m := w]), Ok(line));
    assert Summarize(t, n).1.value == prev.1.value + [line];
  }

  /** Extending the summary to more models keeps its earlier lines. */
  lemma {:induction false} SummaryKeepsLine(t: Tallies, k: nat, n: nat, j: nat)
    requires ModelsCounted(t) && j < k <= n <= |t.models|
    ensures Summarize(t, k).1.Ok? && Summarize(t, n).1.Ok?
    ensures |Summarize(t, k).1.value| == k && |Summarize(t, n).1.value| == n
    ensures Summarize(t, k).1.value[j] == Summarize(t, n).1.value[j]
    decreases n
  {
    SummaryOk(t, k);
    SummaryOk(t, n);
    if k < n {
      SummaryKeepsLine(t, k, n - 1, j);
      SummaryLastLine(t, n);
      var prev := Summarize(t, n - 1).1.value;
      var lines := Summarize(t, n).1.value;
      assert lines == prev + [lines[n - 1]];
      assert lines[j] == prev[j];
    }
  }

  /** Line i of the summary lists model i. */
  lemma SummaryLine(t: Tallies, n: nat, i: nat)
    requires ModelsCounted(t) && i < n <= |t.models|
    ensures Summarize(t, n).1.Ok? && |Summarize(t, n).1.value| == n
    ensures ListsModel(t, i, Summarize(t, n).1.value[i])
  {
    SummaryLastLine(t, i + 1);
    SummaryKeepsLine(t, i + 1, n, i);
  }

  /** The summary never raises, and lists every model of the correct counts in order. */
  lemma SummaryAccuracy(t: Tallies, n: nat)
    requires ModelsCounted(t) && n <= |t.models|
    ensures var lines := Summarize(t, n).1;
      && lines.Ok? && |lines.value| == n
      && forall i :: 0 <= i < n ==> ListsModel(t, i, lines.value[i])
  {
    SummaryOk(t, n);
    forall i | 0 <= i < n
      ensures ListsModel(t, i, Summarize(t, n).1.value[i])
    {
      SummaryLine(t, n, i);
    }
  }

  /** Every accuracy the summary lists lies strictly above 0 and at most at 1. */
  lemma SummaryAccuracyInRange(t: Tallies)
    requires TalliesInv(t)
    ensures var lines := Summarize(t, |t.models|).1;
      lines.Ok? && forall i :: 0 <= i < |lines.value| ==>
        IsNumber(lines.value[i].accuracy) && 0.0 < NumberValue(lines.value[i].accuracy) <= 1.0
  {
    SummaryAccuracy(t, |t.models|);
    var lines := Summarize(t, |t.models|).1.value;
    forall i | 0 <= i < |lines|
      ensures IsNumber(lines[i].accuracy) && 0.0 < NumberValue(lines[i].accuracy) <= 1.0
    {
      var line := lines[i];
      assert ListsModel(t, i, line);
      AccuracyBounds(line.correct, line.wrong);
      assert line.accuracy == Ratio(line.correct, line.correct + line.wrong);
    }
  }

  /** Afterwards every listed model has a false count in the dict. */
  lemma {:induction false} SummaryInsertsFalseCounts(t: Tallies, n: nat, i: nat)
    requires i < n <= |t.models|
    ensures Summarize(t, n).1.Ok? ==> t.models[i] in Summarize(t, n).0.wrong
    decreases n
  {
    if i < n - 1 {
      SummaryInsertsFalseCounts(t, n - 1, i);
      SummaryKeepsCounts(t, n - 1, t.models[i]);
    }
  }
}
