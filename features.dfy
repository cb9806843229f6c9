/**
  The values records carry, the records themselves (ordered mappings from
  key to value, as Python dicts are) and the directional flow identifier
  derived from a record.
 */
module Features {
  import opened Wrappers
  import opened FeatureKeys
  import opened Errors

  /** A Python value as the pipeline's records carry it. */
  datatype Value =
    | Null
    | Bool(b: bool)
    | Int(i: int)
    | Real(r: real)
    | Ratio(num: int, den: int)  // a float computed as num / den, kept exact
    | Str(s: string)
    | Time(ns: int)            // a pandas Timestamp, in nanoseconds since the epoch
    | List(items: seq<Value>)

  /** Python truthiness. */
  predicate Truthy(v: Value)
  {
    match v
    case Null => false
    case Bool(b) => b
    case Int(i) => i != 0
    case Real(r) => r != 0.0
    case Ratio(n, _) => n != 0
    case Str(s) => s != []
    case Time(_) => true
    case List(xs) => xs != []
  }

  predicate IsNumber(v: Value)
  {
    v.Bool? || v.Int? || v.Real? || (v.Ratio? && v.den != 0)
  }

  /** The numeric value of a bool, int or float (bool is a subclass of int). */
  function NumberValue(v: Value): real
    requires IsNumber(v)
  {
    match v
    case Bool(b) => if b then 1.0 else 0.0
    case Int(i) => i as real
    case Real(r) => r
    case Ratio(n, d) => n as real / d as real
  }

  /** Python's `==` on the values above: numbers compare by value across types. */
  predicate PyEq(a: Value, b: Value)
    decreases a
  {
    if IsNumber(a) && IsNumber(b) then NumberValue(a) == NumberValue(b)
    else match (a, b)
      case (Null, Null) => true
      case (Ratio(n1, d1), Ratio(n2, d2)) => n1 == n2 && d1 == d2
      case (Str(x), Str(y)) => x == y
      case (Time(x), Time(y)) => x == y
      case (List(xs), List(ys)) =>
        |xs| == |ys| && forall i :: 0 <= i < |xs| ==> PyEq(xs[i], ys[i])
      case _ => false
  }

  /** Every value equals itself under Python's `==`. */
  lemma {:induction false} PyEqReflexive(a: Value)
    ensures PyEq(a, a)
    decreases a
  {
    match a
    case List(xs) =>
      forall i | 0 <= i < |xs|
        ensures PyEq(xs[i], xs[i])
      {
        PyEqReflexive(xs[i]);
      }
    case _ =>
  }

  /** Python's `==` on these values is symmetric. */
  lemma {:induction false} PyEqSymmetric(a: Value, b: Value)
    ensures PyEq(a, b) == PyEq(b, a)
    decreases a
  {
    match (a, b)
    case (List(xs), List(ys)) =>
      if |xs| == |ys| {
        forall i | 0 <= i < |xs|
          ensures PyEq(xs[i], ys[i]) == PyEq(ys[i], xs[i])
        {
          PyEqSymmetric(xs[i], ys[i]);
        }
      }
    case _ =>
  }

  /**
    A feature record: a Python dict from key to value. `order` is the
    insertion order of the keys, which `list(d.keys())` returns.
   */
  datatype Record = Record(order: seq<FeatureKey>, fields: map<FeatureKey, Value>) {

    /** The order lists every key of the dict once. */
    ghost predicate Valid()
    {
      && (forall i, j :: 0 <= i < j < |order| ==> order[i] != order[j])
      && (forall k :: k in fields <==> k in order)
    }

    /** `d[k]`: raises KeyError when the key is absent. */
    function Get(k: FeatureKey): Result<Value>
    {
      if k in fields then Ok(fields[k]) else Err(MissingKey(k))
    }

    /** `d[k] = v`: a new key goes to the end of the order, an old one keeps its place. */
    function Set(k: FeatureKey, v: Value): Record
    {
      Record(if k in fields then order else order + [k], fields[k := v])
    }
  }

  const EmptyRecord := Record([], map[])

  /** No key occurs twice in keys. */
  predicate Distinct(keys: seq<FeatureKey>)
  {
    forall i, j :: 0 <= i < j < |keys| ==> keys[i] != keys[j]
  }

  /** `d[keys[0]] = vs[0]`, then `d[keys[1]] = vs[1]`, and so on. */
  function SetAll(r: Record, keys: seq<FeatureKey>, vs: seq<Value>): Record
    requires |keys| == |vs|
    decreases |keys|
  {
    if keys == [] then r else SetAll(r.Set(keys[0], vs[0]), keys[1..], vs[1..])
  }

  /** Writing a key keeps the order listing every key once. */
  lemma SetValid(r: Record, k: FeatureKey, v: Value)
    requires r.Valid()
    ensures r.Set(k, v).Valid()
  {
  }

  /** Writing keys in turn keeps the order listing every key once. */
  lemma {:induction false} SetAllValid(r: Record, keys: seq<FeatureKey>, vs: seq<Value>)
    requires |keys| == |vs| && r.Valid()
    ensures SetAll(r, keys, vs).Valid()
    decreases |keys|
  {
    if keys != [] {
      SetValid(r, keys[0], vs[0]);
      SetAllValid(r.Set(keys[0], vs[0]), keys[1..], vs[1..]);
    }
  }

  /** Writing keys in turn adds exactly those keys. */
  lemma {:induction false} SetAllKeys(r: Record, keys: seq<FeatureKey>, vs: seq<Value>)
    requires |keys| == |vs|
    ensures SetAll(r, keys, vs).fields.Keys == r.fields.Keys + (set k | k in keys)
    decreases |keys|
  {
    if keys != [] {
      SetAllKeys(r.Set(keys[0], vs[0]), keys[1..], vs[1..]);
      assert (set k | k in keys) == {keys[0]} + (set k | k in keys[1..]);
    }
  }

  /** Writing keys in turn leaves the value of every other key as it was. */
  lemma {:induction false} SetAllUnchanged(r: Record, keys: seq<FeatureKey>, vs: seq<Value>, k: FeatureKey)
    requires |keys| == |vs| && k in r.fields && k !in keys
    ensures k in SetAll(r, keys, vs).fields && SetAll(r, keys, vs).fields[k] == r.fields[k]
    decreases |keys|
  {
    if keys != [] {
      assert k != keys[0] && k !in keys[1..];
      SetAllUnchanged(r.Set(keys[0], vs[0]), keys[1..], vs[1..], k);
    }
  }

  /** Writing distinct keys in turn leaves each holding the value written to it. */
  lemma {:induction false} SetAllValue(r: Record, keys: seq<FeatureKey>, vs: seq<Value>, i: nat)
    requires |keys| == |vs| && Distinct(keys) && i < |keys|
    ensures keys[i] in SetAll(r, keys, vs).fields && SetAll(r, keys, vs).fields[keys[i]] == vs[i]
    decreases |keys|
  {
    var r1 := r.Set(keys[0], vs[0]);
    assert Distinct(keys[1..]) by {
      forall a, b | 0 <= a < b < |keys[1..]|
        ensures keys[1..][a] != keys[1..][b]
      {
        assert keys[1..][a] == keys[a + 1] && keys[1..][b] == keys[b + 1];
      }
    }
    if i == 0 {
      assert keys[0] in r1.fields && r1.fields[keys[0]] == vs[0];
      assert keys[0] !in keys[1..] by {
        forall j | 0 <= j < |keys[1..]|
          ensures keys[1..][j] != keys[0]
        {
          assert keys[1..][j] == keys[j + 1];
        }
      }
      SetAllUnchanged(r1, keys[1..], vs[1..], keys[0]);
    } else {
      assert keys[i] == keys[1..][i - 1] && vs[i] == vs[1..][i - 1];
      SetAllValue(r1, keys[1..], vs[1..], i - 1);
    }
  }

  /**
    Writing distinct keys in turn adds exactly those keys, each holding its
    value, and leaves every other key's value as it was.
   */
  lemma SetAllFields(r: Record, keys: seq<FeatureKey>, vs: seq<Value>)
    requires |keys| == |vs| && Distinct(keys)
    ensures SetAll(r, keys, vs).fields.Keys == r.fields.Keys + (set k | k in keys)
    ensures forall i :: 0 <= i < |keys| ==> keys[i] in SetAll(r, keys, vs).fields && SetAll(r, keys, vs).fields[keys[i]] == vs[i]
    ensures forall k :: k in r.fields && k !in keys ==> k in SetAll(r, keys, vs).fields && SetAll(r, keys, vs).fields[k] == r.fields[k]
  {
    SetAllKeys(r, keys, vs);
    forall i | 0 <= i < |keys|
      ensures keys[i] in SetAll(r, keys, vs).fields && SetAll(r, keys, vs).fields[keys[i]] == vs[i]
    {
      SetAllValue(r, keys, vs, i);
    }
    forall k | k in r.fields && k !in keys
      ensures k in SetAll(r, keys, vs).fields && SetAll(r, keys, vs).fields[k] == r.fields[k]
    {
      SetAllUnchanged(r, keys, vs, k);
    }
  }

  /** A dict built from a literal: keys[i] maps to vs[i], the keys in that order. */
  function FreshRecord(keys: seq<FeatureKey>, vs: seq<Value>): (r: Record)
    requires |keys| == |vs| && Distinct(keys)
    ensures r.order == keys && r.Valid()
    ensures r.fields.Keys == set k | k in keys
    ensures forall i :: 0 <= i < |keys| ==> keys[i] in r.fields && r.fields[keys[i]] == vs[i]
  {
    Record(keys, map i | 0 <= i < |keys| :: keys[i] := vs[i])
  }

  /** `d[k]` on a `defaultdict(lambda: 0)`: a missing key reads as 0. */
  function Lookup<K>(m: map<K, int>, k: K): int
  {
    if k in m then m[k] else 0
  }

  /** `d[k]` on a `defaultdict(lambda: 0)` of counters. */
  function Count<K>(m: map<K, nat>, k: K): nat
  {
    if k in m then m[k] else 0
  }

  /** A bool or an int: Python adds and divides a bool as the int 0 or 1. */
  predicate IsInteger(v: Value)
  {
    v.Int? || v.Bool?
  }

  function IntegerValue(v: Value): (i: int)
    requires IsInteger(v)
    ensures i as real == NumberValue(v)
  {
    if v.Int? then v.i else if v.b then 1 else 0
  }

  /** A value Python's `+` and `/` take as a number: a bool, an int or a float. */
  type Number = v: Value | IsNumber(v) witness Int(0)

  /**
    Python's `a + b` on two numbers: the sum of their values, an int when
    both are ints or bools (so `0 + True` is 1), a float otherwise.
   */
  function Plus(a: Number, b: Number): (c: Number)
    ensures NumberValue(c) == NumberValue(a) + NumberValue(b)
    ensures c.Int? <==> IsInteger(a) && IsInteger(b)
    ensures !c.Int? ==> c.Real?
  {
    if IsInteger(a) && IsInteger(b) then Int(IntegerValue(a) + IntegerValue(b))
    else Real(NumberValue(a) + NumberValue(b))
  }

  /**
    The value Python's `a += b` leaves in a: numbers add, strings
    concatenate, a list is extended by a list or by the characters of a
    string, and every other pair raises TypeError.
   */
  function InPlaceAdd(a: Value, b: Value): (r: Result<Value>)
    ensures r.Ok? <==> (IsNumber(a) && IsNumber(b)) || (a.Str? && b.Str?) || (a.List? && (b.List? || b.Str?))
    ensures IsNumber(a) && IsNumber(b) ==> r == Ok(Plus(a, b))
    ensures a.Str? && b.Str? ==> r == Ok(Str(a.s + b.s))
    ensures a.List? && b.List? ==> r == Ok(List(a.items + b.items))
    ensures a.List? && b.Str? ==>
      && r.Ok? && r.value.List? && |r.value.items| == |a.items| + |b.s|
      && r.value.items[..|a.items|] == a.items
      && forall i :: 0 <= i < |b.s| ==> r.value.items[|a.items| + i] == Str([b.s[i]])
    ensures r.Err? ==> r.error == TypeError
  {
    if IsNumber(a) && IsNumber(b) then Ok(Plus(a, b))
    else match (a, b)
      case (Str(x), Str(y)) => Ok(Str(x + y))
      case (List(xs), List(ys)) => Ok(List(xs + ys))
      case (List(xs), Str(y)) => Ok(List(xs + seq(|y|, i requires 0 <= i < |y| => Str([y[i]]))))
      case _ => Err(TypeError)
  }

  /** Python's true division `a / n` of a number by a non-zero int: a float of value a / n. */
  function Divide(a: Number, n: int): (q: Number)
    requires n != 0
    ensures NumberValue(q) == NumberValue(a) / (n as real)
    ensures !q.Int?
  {
    if IsInteger(a) then Ratio(IntegerValue(a), n) else Real(NumberValue(a) / (n as real))
  }

  /**
    Python's `a / n` on any value and an int: a number divides unless n is
    0, which raises ZeroDivisionError; any other value raises TypeError.
   */
  function PyDivide(a: Value, n: int): (r: Result<Value>)
    ensures r.Ok? <==> IsNumber(a) && n != 0
    ensures r.Ok? ==> IsNumber(a) && n != 0 && r.value == Divide(a, n)
    ensures r.Err? ==> r.error == if IsNumber(a) then ZeroDivisionError else TypeError
  {
    if !IsNumber(a) then Err(TypeError)
    else if n == 0 then Err(ZeroDivisionError)
    else Ok(Divide(a, n))
  }

  /** `d[k]` on a `defaultdict(lambda: 0)` of numbers: a missing key reads as the int 0. */
  function NumberAt<K>(m: map<K, Number>, k: K): Number
  {
    if k in m then m[k] else Int(0)
  }

  /** `d[k]` on a `defaultdict(lambda: 0)` that may hold any value. */
  function ValueAt<K>(m: map<K, Value>, k: K): Value
  {
    if k in m then m[k] else Int(0)
  }

  /** `d[k]` where the value is added to a number: anything but a number makes `+` raise TypeError. */
  function GetNumber(r: Record, k: FeatureKey): Result<Number>
  {
    var v :- r.Get(k);
    if IsNumber(v) then Ok(v) else Err(TypeError)
  }

  /** `d[k]` where the value takes part in timestamp arithmetic (nanoseconds). */
  function GetTime(r: Record, k: FeatureKey): Result<int>
  {
    var v :- r.Get(k);
    if v.Time? then Ok(v.ns) else Err(TypeError)
  }

  /** The inter-arrival times and connection duration a step computes, in nanoseconds. */
  datatype Timing = Timing(lastIat: int, avgIat: Value, duration: int)

  /** A lazily produced stream of records, modelled as a finite sequence. */
  type FeatureGenerator = seq<Record>

  /** (source address, destination address, source port, destination port, protocol) */
  type FlowIdentifier = (Value, Value, Value, Value, Value)

  /** The five keys a flow identifier is read from, in the order they are read. */
  const FlowKeys: seq<FeatureKey> := [
    Packet(IpSourceAddress),
    Packet(IpDestinationAddress),
    Packet(IpSourcePort),
    Packet(IpDestinationPort),
    Packet(Protocol)
  ]

  /** The i-th component of a flow identifier. */
  function Component(id: FlowIdentifier, i: nat): Value
    requires i < 5
  {
    match i
    case 0 => id.0
    case 1 => id.1
    case 2 => id.2
    case 3 => id.3
    case 4 => id.4
  }

  /** `flow_identifier`: the directional 5-tuple of a record. */
  function FlowIdentifierOf(r: Record): Result<FlowIdentifier>
  {
    var src :- r.Get(Packet(IpSourceAddress));
    var dst :- r.Get(Packet(IpDestinationAddress));
    var sport :- r.Get(Packet(IpSourcePort));
    var dport :- r.Get(Packet(IpDestinationPort));
    var proto :- r.Get(Packet(Protocol));
    Ok((src, dst, sport, dport, proto))
  }

  /**
    The identifier is read exactly from the five flow keys, in order: it exists
    iff all five are present, and its i-th component is the value of the i-th key.
   */
  lemma FlowIdentifierExact(r: Record)
    ensures FlowIdentifierOf(r).Ok? <==> forall i :: 0 <= i < 5 ==> FlowKeys[i] in r.fields
    ensures FlowIdentifierOf(r).Ok? ==>
      forall i :: 0 <= i < 5 ==> Component(FlowIdentifierOf(r).value, i) == r.fields[FlowKeys[i]]
  {
    if forall i :: 0 <= i < 5 ==> FlowKeys[i] in r.fields {
      assert FlowKeys[0] in r.fields && FlowKeys[1] in r.fields && FlowKeys[2] in r.fields;
      assert FlowKeys[3] in r.fields && FlowKeys[4] in r.fields;
    }
    if FlowIdentifierOf(r).Ok? {
      forall i | 0 <= i < 5
        ensures FlowKeys[i] in r.fields
        ensures Component(FlowIdentifierOf(r).value, i) == r.fields[FlowKeys[i]]
      {
      }
    }
  }

  /** A record missing a flow key raises KeyError for the first missing key, in reading order. */
  lemma FlowIdentifierMissingKey(r: Record, j: nat)
    requires j < 5 && FlowKeys[j] !in r.fields
    requires forall i :: 0 <= i < j ==> FlowKeys[i] in r.fields
    ensures FlowIdentifierOf(r) == Err(MissingKey(FlowKeys[j]))
  {
    if j > 0 { assert FlowKeys[0] in r.fields; }
    if j > 1 { assert FlowKeys[1] in r.fields; }
    if j > 2 { assert FlowKeys[2] in r.fields; }
    if j > 3 { assert FlowKeys[3] in r.fields; }
  }

  /** Two records that agree on the five flow keys have the same identifier. */
  lemma FlowIdentifierDependsOnlyOnFlowKeys(r1: Record, r2: Record)
    requires forall k :: k in FlowKeys ==> (k in r1.fields <==> k in r2.fields)
    requires forall k :: k in FlowKeys && k in r1.fields ==> r1.fields[k] == r2.fields[k]
    ensures FlowIdentifierOf(r1) == FlowIdentifierOf(r2)
  {
    assert FlowKeys[0] in FlowKeys && FlowKeys[1] in FlowKeys && FlowKeys[2] in FlowKeys;
    assert FlowKeys[3] in FlowKeys && FlowKeys[4] in FlowKeys;
  }

  /** Writing any key other than the five flow keys leaves the identifier unchanged. */
  lemma FlowIdentifierIgnoresOtherKeys(r: Record, k: FeatureKey, v: Value)
    requires k !in FlowKeys
    ensures FlowIdentifierOf(r.Set(k, v)) == FlowIdentifierOf(r)
  {
    FlowIdentifierDependsOnlyOnFlowKeys(r.Set(k, v), r);
  }

  /** Writing keys other than the five flow keys, in turn, leaves the identifier unchanged. */
  lemma FlowIdentifierSetAll(r: Record, keys: seq<FeatureKey>, vs: seq<Value>)
    requires |keys| == |vs| && forall k :: k in keys ==> k !in FlowKeys
    ensures FlowIdentifierOf(SetAll(r, keys, vs)) == FlowIdentifierOf(r)
  {
    SetAllKeys(r, keys, vs);
    forall k | k in FlowKeys && k in r.fields
      ensures k in SetAll(r, keys, vs).fields && SetAll(r, keys, vs).fields[k] == r.fields[k]
    {
      SetAllUnchanged(r, keys, vs, k);
    }
    FlowIdentifierDependsOnlyOnFlowKeys(SetAll(r, keys, vs), r);
  }

  /** The number of records in recs of flow f. */
  function CountOfFlow(recs: seq<Record>, f: FlowIdentifier): nat
  {
    if recs == [] then 0
    else (if FlowIdentifierOf(recs[0]) == Ok(f) then 1 else 0) + CountOfFlow(recs[1..], f)
  }

  /** The record of the reverse direction: source and destination exchanged. */
  function Reverse(r: Record): Record
    requires Packet(IpSourceAddress) in r.fields && Packet(IpDestinationAddress) in r.fields
    requires Packet(IpSourcePort) in r.fields && Packet(IpDestinationPort) in r.fields
  {
    r.Set(Packet(IpSourceAddress), r.fields[Packet(IpDestinationAddress)])
     .Set(Packet(IpDestinationAddress), r.fields[Packet(IpSourceAddress)])
     .Set(Packet(IpSourcePort), r.fields[Packet(IpDestinationPort)])
     .Set(Packet(IpDestinationPort), r.fields[Packet(IpSourcePort)])
  }

  /**
    Flow identifiers are directional: the reverse direction has the swapped
    tuple, which equals the original exactly when the swapped values are equal.
   */
  lemma FlowIdentifierDirectional(r: Record)
    requires FlowIdentifierOf(r).Ok?
    ensures Packet(IpSourceAddress) in r.fields && Packet(IpDestinationAddress) in r.fields
    ensures Packet(IpSourcePort) in r.fields && Packet(IpDestinationPort) in r.fields
    ensures var id := FlowIdentifierOf(r).value;
      FlowIdentifierOf(Reverse(r)) == Ok((id.1, id.0, id.3, id.2, id.4))
    ensures FlowIdentifierOf(Reverse(r)) == FlowIdentifierOf(r) <==>
      var id := FlowIdentifierOf(r).value; id.0 == id.1 && id.2 == id.3
  {
    FlowIdentifierExact(r);
  }
}
