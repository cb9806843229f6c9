/**
  The multi-sample encoder: every record of the stream becomes one row of a
  single array, its columns the feature filter's entries in order, and the
  records and the array are handed on together once the stream ends.
 */
module MultiSampleEncoder {
  import opened Wrappers
  import opened FeatureKeys
  import opened Errors
  import opened Features

  /**
    The key among keys whose string value is f, if any: a dict whose keys
    are string-valued enumeration members is looked up by string equality.
   */
  function FindKey(keys: seq<FeatureKey>, f: string): Option<FeatureKey>
    decreases |keys|
  {
    if keys == [] then None
    else if KeyName(keys[0]) == f then Some(keys[0])
    else FindKey(keys[1..], f)
  }

  /** The key found carries the name looked up; no key is found only when none carries it. */
  lemma {:induction false} FindKeySound(keys: seq<FeatureKey>, f: string)
    ensures var r := FindKey(keys, f);
      && (r.Some? ==> r.value in keys && KeyName(r.value) == f)
      && (r.None? ==> forall i :: 0 <= i < |keys| ==> KeyName(keys[i]) != f)
    decreases |keys|
  {
    if keys != [] && KeyName(keys[0]) != f {
      FindKeySound(keys[1..], f);
      assert forall i :: 1 <= i < |keys| ==> keys[i] == keys[1..][i - 1];
    }
  }

  /** `sample[f]` for a filter entry: the value of the key named f, or KeyError(f) when the record has no such key. */
  function Column(sample: Record, f: string): Result<Value>
  {
    match FindKey(sample.order, f)
    case None => Err(KeyError(f))
    case Some(k) => if k in sample.fields then Ok(sample.fields[k]) else Err(KeyError(f))
  }

  /**
    `[sample[f] for f in filter]`: one value per filter entry, in order, or
    the KeyError of the first entry the record lacks.
   */
  function Row(sample: Record, filter: seq<string>): Result<seq<Value>>
    decreases |filter|
  {
    if filter == [] then Ok([])
    else
      match Column(sample, filter[0])
      case Err(e) => Err(e)
      case Ok(v) =>
        match Row(sample, filter[1..])
        case Err(e) => Err(e)
        case Ok(vs) => Ok([v] + vs)
  }

  /**
    A row holds one value per filter entry, entry j's column at place j; it
    fails exactly when some column does, with the KeyError of the first
    such column.
   */
  lemma {:induction false} RowColumns(sample: Record, filter: seq<string>)
    ensures var r := Row(sample, filter);
      && (r.Ok? <==> forall j :: 0 <= j < |filter| ==> Column(sample, filter[j]).Ok?)
      && (r.Ok? ==> |r.value| == |filter| && forall j :: 0 <= j < |filter| ==> Column(sample, filter[j]) == Ok(r.value[j]))
      && (r.Err? ==> exists j :: 0 <= j < |filter| && Column(sample, filter[j]) == Err(r.error)
                                 && forall j' :: 0 <= j' < j ==> Column(sample, filter[j']).Ok?)
    decreases |filter|
  {
    if filter != [] {
      var rest := filter[1..];
      RowColumns(sample, rest);
      assert forall j :: 1 <= j < |filter| ==> filter[j] == rest[j - 1];
      var r := Row(sample, filter);
      if Column(sample, filter[0]).Ok? && Row(sample, rest).Ok? {
        var v := Column(sample, filter[0]).value;
        var vs := Row(sample, rest).value;
        assert r.value == [v] + vs;
        forall j | 0 <= j < |filter|
          ensures Column(sample, filter[j]) == Ok(r.value[j])
        {
          if j > 0 {
            assert r.value[j] == vs[j - 1];
          }
        }
      } else if Column(sample, filter[0]).Ok? {
        var j :| 0 <= j < |rest| && Column(sample, rest[j]) == Err(r.error)
                 && forall j' :: 0 <= j' < j ==> Column(sample, rest[j']).Ok?;
        assert Column(sample, filter[j + 1]) == Err(r.error);
        forall j' | 0 <= j' < j + 1
          ensures Column(sample, filter[j']).Ok?
        {
          if j' > 0 {
            assert filter[j'] == rest[j' - 1];
          }
        }
      }
    }
  }

  /** The values of a list of results in order, or the error of the first that failed. */
  function Collect<T>(rs: seq<Result<T>>): Result<seq<T>>
    decreases |rs|
  {
    if rs == [] then Ok([])
    else
      match Collect(rs[..|rs| - 1])
      case Err(e) => Err(e)
      case Ok(vs) =>
        match rs[|rs| - 1]
        case Err(e) => Err(e)
        case Ok(v) => Ok(vs + [v])
  }

  /** Each sample's row, or its KeyError, in order. */
  function RowResults(samples: seq<Record>, filter: seq<string>): seq<Result<seq<Value>>>
  {
    seq(|samples|, i requires 0 <= i < |samples| => Row(samples[i], filter))
  }

  /** The rows of samples in order, or the KeyError of the first sample that lacks a filter entry. */
  function Rows(samples: seq<Record>, filter: seq<string>): Result<seq<seq<Value>>>
  {
    Collect(RowResults(samples, filter))
  }

  /** `list(sample.keys())`: the names of the record's keys, in the record's order. */
  function SchemaOf(sample: Record): seq<string>
  {
    seq(|sample.order|, j requires 0 <= j < |sample.order| => KeyName(sample.order[j]))
  }

  /** A filter that Python treats as false: none, or empty. */
  predicate NoFilter(filter: Option<seq<string>>)
  {
    filter.None? || filter.value == []
  }

  /** The filter in force once the first sample is seen: the given one, or that sample's schema when none is given. */
  function ChosenFilter(filter: Option<seq<string>>, first: Record): seq<string>
  {
    if NoFilter(filter) then SchemaOf(first) else filter.value
  }

  /**
    `encode` over a whole stream: the records and the array handed on, or
    the exception raised, and the encoder's filter afterwards, which the
    first sample fixes even when a row then fails.
   */
  function Encoded(filter: Option<seq<string>>, samples: seq<Record>)
    : (Result<(seq<Record>, Option<seq<seq<Value>>>)>, Option<seq<string>>)
  {
    if samples == [] then (Ok(([], None)), filter)
    else
      var f := ChosenFilter(filter, samples[0]);
      match Rows(samples, f)
      case Err(e) => (Err(e), Some(f))
      case Ok(rows) => (Ok((samples, Some(rows))), Some(f))
  }

  /** The encoder object; the array size and time window are stored but never consulted. */
  class MultiSampleEncoder {
    var featureFilter: Option<seq<string>>
    var maxArraySize: int
    var maxTimeWindowMs: int

    constructor(featureFilter: Option<seq<string>>, maxArraySize: int, maxTimeWindowMs: int)
      ensures this.featureFilter == featureFilter
      ensures this.maxArraySize == maxArraySize && this.maxTimeWindowMs == maxTimeWindowMs
    {
      this.featureFilter := featureFilter;
      this.maxArraySize := maxArraySize;
      this.maxTimeWindowMs := maxTimeWindowMs;
    }

    /**
      `encode`: appends each sample to the list of records and its row to
      the array, fixing the filter on the first sample, and hands on the
      single pair once every sample is consumed.
     */
    method Encode(samples: seq<Record>) returns (r: Result<(seq<Record>, Option<seq<seq<Value>>>)>)
      modifies this
      ensures (r, featureFilter) == Encoded(old(featureFilter), samples)
      ensures maxArraySize == old(maxArraySize) && maxTimeWindowMs == old(maxTimeWindowMs)
    {
      var first := true;
      var featureDicts: seq<Record> := [];
      var encoding: Option<seq<seq<Value>>> := None;
      var i := 0;
      while i < |samples|
        invariant 0 <= i <= |samples|
        invariant featureDicts == samples[..i]
        invariant first <==> i == 0
        invariant maxArraySize == old(maxArraySize) && maxTimeWindowMs == old(maxTimeWindowMs)
        invariant i == 0 ==> encoding == None && featureFilter == old(featureFilter)
        invariant i > 0 ==> featureFilter == Some(ChosenFilter(old(featureFilter), samples[0]))
        invariant i > 0 ==> encoding.Some? && Rows(samples[..i], featureFilter.value) == Ok(encoding.value)
      {
        var sample := samples[i];
        featureDicts := featureDicts + [sample];
        assert samples[..i + 1] == samples[..i] + [sample];
        RowsSnoc(samples, ChosenFilter(old(featureFilter), samples[0]), i);
        if first {
          first := false;
          if NoFilter(featureFilter) {
            featureFilter := Some(SchemaOf(sample));
          }
          var row := Row(sample, featureFilter.value);
          if row.Err? {
            EncodedStops(old(featureFilter), samples, i);
            return Err(row.error);
          }
          assert featureFilter.value == ChosenFilter(old(featureFilter), samples[0]);
          assert RowResults(samples[..0], featureFilter.value) == [];
          assert [] + [row.value] == [row.value];
          encoding := Some([row.value]);
        } else {
          var row := Row(sample, featureFilter.value);
          if row.Err? {
            EncodedStops(old(featureFilter), samples, i);
            return Err(row.error);
          }
          encoding := Some(encoding.value + [row.value]);
        }
        i := i + 1;
      }
      assert samples[..i] == samples;
      r := Ok((featureDicts, encoding));
    }
  }

  /** A row that fails at sample i stops the whole stream with its error. */
  lemma EncodedStops(filter: Option<seq<string>>, samples: seq<Record>, i: nat)
    requires i < |samples|
    requires var f := ChosenFilter(filter, samples[0]);
      && (i > 0 ==> Rows(samples[..i], f).Ok?)
      && Row(samples[i], f).Err?
    ensures Encoded(filter, samples) == (Err(Row(samples[i], ChosenFilter(filter, samples[0])).error),
                                         Some(ChosenFilter(filter, samples[0])))
  {
    var f := ChosenFilter(filter, samples[0]);
    var rs := RowResults(samples, f);
    assert rs[i] == Row(samples[i], f);
    CollectOkIff(rs);
    if i > 0 {
      var prefix := RowResults(samples[..i], f);
      CollectOkIff(prefix);
      assert forall j :: 0 <= j < i ==> prefix[j] == rs[j];
    }
    var k := CollectErr(rs);
    assert k == i;
  }

  /** One more sample adds its row to the rows, or stops them with its error. */
  lemma RowsSnoc(samples: seq<Record>, filter: seq<string>, i: nat)
    requires i < |samples|
    ensures var prefix := Rows(samples[..i], filter);
      var row := Row(samples[i], filter);
      Rows(samples[..i + 1], filter) ==
        if prefix.Err? then Err(prefix.error)
        else if row.Err? then Err(row.error)
        else Ok(prefix.value + [row.value])
  {
    var rs := RowResults(samples[..i + 1], filter);
    assert rs[..i] == RowResults(samples[..i], filter);
    assert rs[i] == Row(samples[i], filter);
  }

  /** A successful collection holds every result's value, in order. */
  lemma {:induction false} CollectOk<T>(rs: seq<Result<T>>)
    requires Collect(rs).Ok?
    ensures |Collect(rs).value| == |rs|
    ensures forall i :: 0 <= i < |rs| ==> rs[i] == Ok(Collect(rs).value[i])
    decreases |rs|
  {
    if rs != [] {
      var n := |rs| - 1;
      var init := rs[..n];
      CollectOk(init);
      var vs := Collect(init).value;
      var all := Collect(rs).value;
      assert all == vs + [rs[n].value];
      forall i | 0 <= i < |rs|
        ensures rs[i] == Ok(all[i])
      {
        if i < n {
          assert init[i] == rs[i] && all[i] == vs[i];
        }
      }
    }
  }

  /** A collection succeeds exactly when every result does. */
  lemma {:induction false} CollectOkIff<T>(rs: seq<Result<T>>)
    ensures Collect(rs).Ok? <==> forall i :: 0 <= i < |rs| ==> rs[i].Ok?
    decreases |rs|
  {
    if Collect(rs).Ok? {
      CollectOk(rs);
    } else if rs != [] {
      var n := |rs| - 1;
      var init := rs[..n];
      CollectOkIff(init);
      if Collect(init).Err? {
        var i :| 0 <= i < n && !init[i].Ok?;
        assert init[i] == rs[i];
      }
    }
  }

  /** A failed collection fails with the error of the first result that failed. */
  lemma {:induction false} CollectErr<T>(rs: seq<Result<T>>) returns (i: nat)
    requires Collect(rs).Err?
    ensures i < |rs| && rs[i] == Err(Collect(rs).error)
    ensures forall i' :: 0 <= i' < i ==> rs[i'].Ok?
    decreases |rs|
  {
    var n := |rs| - 1;
    var init := rs[..n];
    if Collect(init).Err? {
      i := CollectErr(init);
      assert init[i] == rs[i];
      forall i' | 0 <= i' < i
        ensures rs[i'].Ok?
      {
        assert init[i'] == rs[i'];
      }
    } else {
      CollectOkIff(init);
      i := n;
      forall i' | 0 <= i' < n
        ensures rs[i'].Ok?
      {
        assert init[i'] == rs[i'];
      }
    }
  }

  /**
    An empty stream hands on no records and no array, and leaves the filter
    as it was.
   */
  lemma EncodeEmpty(filter: Option<seq<string>>)
    ensures Encoded(filter, []) == (Ok(([], None)), filter)
  {
  }

  /**
    A non-empty stream hands on the records exactly as they came, and an
    array with one row per record and one column per filter entry, row i
    holding record i's values for the filter's entries in order.
   */
  lemma EncodeRowsAndColumns(filter: Option<seq<string>>, samples: seq<Record>)
    requires samples != [] && Encoded(filter, samples).0.Ok?
    ensures var (records, rows) := Encoded(filter, samples).0.value;
      var f := ChosenFilter(filter, samples[0]);
      && records == samples
      && rows.Some? && |rows.value| == |samples|
      && (forall i :: 0 <= i < |samples| ==> |rows.value[i]| == |f|)
      && forall i, j :: 0 <= i < |samples| && 0 <= j < |f| ==> Column(samples[i], f[j]) == Ok(rows.value[i][j])
  {
    var f := ChosenFilter(filter, samples[0]);
    var rs := RowResults(samples, f);
    CollectOk(rs);
    forall i | 0 <= i < |samples|
      ensures |Rows(samples, f).value[i]| == |f|
      ensures forall j :: 0 <= j < |f| ==> Column(samples[i], f[j]) == Ok(Rows(samples, f).value[i][j])
    {
      assert rs[i] == Row(samples[i], f);
      RowColumns(samples[i], f);
    }
  }

  /**
    Without a filter, or with an empty one, the filter becomes the first
    record's key order and is kept on the encoder; a given filter is kept
    as it was.
   */
  lemma EncodeFixesFilter(filter: Option<seq<string>>, samples: seq<Record>)
    requires samples != []
    ensures NoFilter(filter) ==> Encoded(filter, samples).1 == Some(SchemaOf(samples[0]))
    ensures !NoFilter(filter) ==> Encoded(filter, samples).1 == filter
  {
  }

  /**
    The stream fails exactly when some record lacks a filter entry, with
    the KeyError of an entry the first such record lacks.
   */
  lemma EncodeFails(filter: Option<seq<string>>, samples: seq<Record>)
    requires samples != []
    ensures var f := ChosenFilter(filter, samples[0]);
      && (Encoded(filter, samples).0.Err? <==> exists i, j :: 0 <= i < |samples| && 0 <= j < |f| && Column(samples[i], f[j]).Err?)
      && (Encoded(filter, samples).0.Err? ==> exists j :: 0 <= j < |f| && Encoded(filter, samples).0.error == KeyError(f[j]))
  {
    var f := ChosenFilter(filter, samples[0]);
    var rs := RowResults(samples, f);
    CollectOkIff(rs);
    if Rows(samples, f).Err? {
      var i := CollectErr(rs);
      assert rs[i] == Row(samples[i], f);
      RowColumns(samples[i], f);
      var j :| 0 <= j < |f| && Column(samples[i], f[j]) == Err(Rows(samples, f).error);
      assert Column(samples[i], f[j]).Err?;
    } else {
      forall i, j | 0 <= i < |samples| && 0 <= j < |f|
        ensures Column(samples[i], f[j]).Ok?
      {
        assert rs[i] == Row(samples[i], f);
        RowColumns(samples[i], f);
      }
    }
  }

  /** Looking up a key's own name among keys that hold it finds that key, the names being pairwise distinct. */
  lemma FindKeyOwnName(keys: seq<FeatureKey>, j: nat)
    requires j < |keys|
    ensures FindKey(keys, KeyName(keys[j])) == Some(keys[j])
  {
    var r := FindKey(keys, KeyName(keys[j]));
    FindKeySound(keys, KeyName(keys[j]));
    if r.Some? && r.value != keys[j] {
      KeyNamesDistinct(r.value, keys[j]);
    }
  }

  /** The first record always fits its own schema: its row holds its values in its own key order. */
  lemma SchemaRowOfFirst(sample: Record)
    requires sample.Valid()
    ensures var r := Row(sample, SchemaOf(sample));
      && r.Ok? && |r.value| == |sample.order|
      && forall j :: 0 <= j < |sample.order| ==> r.value[j] == sample.fields[sample.order[j]]
  {
    var names := SchemaOf(sample);
    forall j | 0 <= j < |names|
      ensures Column(sample, names[j]) == Ok(sample.fields[sample.order[j]])
    {
      FindKeyOwnName(sample.order, j);
    }
    RowColumns(sample, names);
  }

  /** Keys outside the filter are ignored: records that agree on the filter's keys give the same row. */
  lemma {:induction false} RowIgnoresOtherKeys(a: Record, b: Record, filter: seq<string>)
    requires forall j :: 0 <= j < |filter| ==> Column(a, filter[j]) == Column(b, filter[j])
    ensures Row(a, filter) == Row(b, filter)
    decreases |filter|
  {
    if filter != [] {
      assert forall j :: 1 <= j < |filter| ==> filter[j] == filter[1..][j - 1];
      RowIgnoresOtherKeys(a, b, filter[1..]);
    }
  }
}
