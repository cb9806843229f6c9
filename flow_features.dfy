/**
  Cumulative per-flow statistics over a packet stream. Packets are grouped by
  their directional 5-tuple flow identifier; each packet's record gets the six
  flow features written into it.
 */
module FlowFeatures {
  import opened Wrappers
  import opened FeatureKeys
  import opened Errors
  import opened Features

  /** The keys the processor writes, in the order it writes them. */
  const OutputSignature: seq<FeatureKey> := [
    Flow(FlowReceivedPacketCount),
    Flow(FlowSumPacketSize),
    Flow(FlowAvgPacketSize),
    Flow(FlowLastInterArrivalTime),
    Flow(FlowAvgInterArrivalTime),
    Flow(FlowConnectionDuration)
  ]

  /** The keys the processor declares it needs. */
  const InputSignature: seq<FeatureKey> := [
    Packet(IpPacketSize),
    Packet(TcpCwrFlag),
    Packet(TcpEceFlag),
    Packet(TcpUrgFlag),
    Packet(TcpAckFlag),
    Packet(TcpPshFlag),
    Packet(TcpRstFlag),
    Packet(TcpSynFlag),
    Packet(TcpFinFlag)
  ]

  /**
    The processor's flow-keyed dicts. Counters, sums and last timestamps are
    defaultdicts (a missing last timestamp reads as the epoch, 0 ns; a size
    sum is whatever number `+=` has made of the sizes added); first
    timestamps are a plain dict. Times are in nanoseconds.
   */
  datatype FlowState = FlowState(
    packetCountByFlow: map<FlowIdentifier, nat>,
    packetSizeSumByFlow: map<FlowIdentifier, Number>,
    firstTimestampByFlow: map<FlowIdentifier, int>,
    lastTimestampByFlow: map<FlowIdentifier, int>,
    sumInterArrivalTimesByFlow: map<FlowIdentifier, int>)

  const InitialFlowState := FlowState(map[], map[], map[], map[], map[])

  /**
    What the processor keeps true between packets: a flow with a last
    timestamp has a first one, a flow with a first timestamp has been counted,
    and, because the second packet's gap is measured from the epoch, a flow's
    summed inter-arrival times equal its last timestamp (0 while it has none).
   */
  ghost predicate Inv(s: FlowState)
  {
    && (forall f :: f in s.lastTimestampByFlow ==> f in s.firstTimestampByFlow)
    && (forall f :: f in s.firstTimestampByFlow ==> Count(s.packetCountByFlow, f) >= 1)
    && (forall f :: f in s.lastTimestampByFlow ==>
          Lookup(s.sumInterArrivalTimesByFlow, f) == s.lastTimestampByFlow[f])
    && (forall f :: f !in s.lastTimestampByFlow ==> Lookup(s.sumInterArrivalTimesByFlow, f) == 0)
  }

  /** What one flow looks like through the dicts' reads: counters and sums default to 0, the last timestamp to the epoch. */
  datatype FlowView = FlowView(count: nat, sizeSum: Number, first: Option<int>, last: int, iatSum: int)

  function ViewOf(s: FlowState, f: FlowIdentifier): FlowView
  {
    FlowView(Count(s.packetCountByFlow, f), NumberAt(s.packetSizeSumByFlow, f),
             if f in s.firstTimestampByFlow then Some(s.firstTimestampByFlow[f]) else None,
             Lookup(s.lastTimestampByFlow, f), Lookup(s.sumInterArrivalTimesByFlow, f))
  }

  /** A record carrying what `process` reads: the five flow keys, a size `+=` can add (a bool, int or float) and a timestamp. */
  predicate FlowInput(rec: Record)
  {
    && FlowIdentifierOf(rec).Ok?
    && Packet(IpPacketSize) in rec.fields && IsNumber(rec.fields[Packet(IpPacketSize)])
    && Packet(Timestamp) in rec.fields && rec.fields[Packet(Timestamp)].Time?
  }

  /** The six values written, in signature order, from the flow's count and size sum and its timing; the average size is a float division. */
  function FlowValues(count: nat, sizeSum: Number, t: Timing): (vs: seq<Value>)
    requires count >= 1
    ensures |vs| == |OutputSignature|
  {
    [Int(count), sizeSum, Divide(sizeSum, count), Int(t.lastIat), t.avgIat, Int(t.duration)]
  }

  /** `packet_count_by_flow[flow_id] += 1`: one more packet of the flow. */
  function CountPacket(s: FlowState, id: FlowIdentifier): (s': FlowState)
    ensures Count(s'.packetCountByFlow, id) >= 1
  {
    s.(packetCountByFlow := s.packetCountByFlow[id := Count(s.packetCountByFlow, id) + 1])
  }

  /** `packet_size_sum_by_flow[flow_id] += size`: the packet's size added to the flow's sum by Python's `+`. */
  function AddSize(s: FlowState, id: FlowIdentifier, size: Number): FlowState
  {
    s.(packetSizeSumByFlow := s.packetSizeSumByFlow[id := Plus(NumberAt(s.packetSizeSumByFlow, id), size)])
  }

  /**
    The timing part of `process`: the first packet of a flow records its first timestamp only;
    a later one adds the gap to the flow's last timestamp (the epoch if none
    was recorded) to the flow's sum, averages the sum over the count less one,
    and records its time as the flow's last.
   */
  function FlowTiming(s: FlowState, id: FlowIdentifier, ts: int): (r: (FlowState, Result<Timing>))
    ensures r.0.packetCountByFlow == s.packetCountByFlow && r.0.packetSizeSumByFlow == s.packetSizeSumByFlow
    ensures r.1.Ok? ==> id in r.0.firstTimestampByFlow && r.1.value.duration == ts - r.0.firstTimestampByFlow[id]
  {
    if id !in s.firstTimestampByFlow then
      (s.(firstTimestampByFlow := s.firstTimestampByFlow[id := ts]), Ok(Timing(0, Int(0), 0)))
    else
      var iat := ts - Lookup(s.lastTimestampByFlow, id);
      var sum := Lookup(s.sumInterArrivalTimesByFlow, id) + iat;
      var s1 := s.(sumInterArrivalTimesByFlow := s.sumInterArrivalTimesByFlow[id := sum]);
      var gaps := Count(s.packetCountByFlow, id) - 1;
      if gaps == 0 then (s1, Err(ZeroDivisionError))
      else
        var s' := s1.(lastTimestampByFlow := s1.lastTimestampByFlow[id := ts]);
        (s', Ok(Timing(iat, Ratio(sum, gaps), ts - s.firstTimestampByFlow[id])))
  }

  /**
    `process` on one record, up to the values it writes: the state afterwards
    and the six feature values or the exception raised. A step that raises
    keeps the updates made before the failing line.
   */
  function FlowUpdate(s: FlowState, rec: Record): (r: (FlowState, Result<seq<Value>>))
    ensures r.1.Ok? ==> |r.1.value| == |OutputSignature|
  {
    if FlowInput(rec) then FlowAccept(s, rec)
    else
      var (s', e) := FlowReject(s, rec);
      (s', Err(e))
  }

  /** The state a well-formed record reaches before its timing part. */
  function Counted(s: FlowState, rec: Record): (s': FlowState)
    requires FlowInput(rec)
    ensures Count(s'.packetCountByFlow, FlowIdentifierOf(rec).value) >= 1
  {
    var id := FlowIdentifierOf(rec).value;
    AddSize(CountPacket(s, id), id, rec.fields[Packet(IpPacketSize)])
  }

  /**
    `process` on a record holding the flow keys, a numeric size and a
    timestamp: count the packet, add its size, then the timing part, which
    yields the six values unless it raises.
   */
  function FlowAccept(s: FlowState, rec: Record): (r: (FlowState, Result<seq<Value>>))
    requires FlowInput(rec)
  {
    var id := FlowIdentifierOf(rec).value;
    var c := Counted(s, rec);
    var (s', t) := FlowTiming(c, id, rec.fields[Packet(Timestamp)].ns);
    if t.Err? then (s', Err(t.error))
    else (s', Ok(FlowValues(Count(c.packetCountByFlow, id), NumberAt(c.packetSizeSumByFlow, id), t.value)))
  }

  /**
    `process` on a record lacking one of those: the exception raised at the
    first missing value, or the TypeError of a size `+=` cannot add to a
    number, or of a timestamp that is not a Timestamp; and the state with
    the updates made before that line.
   */
  function FlowReject(s: FlowState, rec: Record): (r: (FlowState, Error))
    requires !FlowInput(rec)
  {
    var idR := FlowIdentifierOf(rec);
    if idR.Err? then (s, idR.error)
    else
      var s1 := CountPacket(s, idR.value);
      if Packet(IpPacketSize) !in rec.fields then (s1, MissingKey(Packet(IpPacketSize)))
      else if !IsNumber(rec.fields[Packet(IpPacketSize)]) then (s1, TypeError)
      else
        var s2 := AddSize(s1, idR.value, rec.fields[Packet(IpPacketSize)]);
        if Packet(Timestamp) !in rec.fields then (s2, MissingKey(Packet(Timestamp)))
        else (s2, TypeError)
  }

  /** `process` on one record: the state afterwards and the returned record or the exception raised. */
  function FlowStep(s: FlowState, rec: Record): (FlowState, Result<Record>)
  {
    var (s', r) := FlowUpdate(s, rec);
    (s', if r.Err? then Err(r.error) else Ok(SetAll(rec, OutputSignature, r.value)))
  }

  /** A step on a record carrying what `process` reads is the accepting path. */
  lemma FlowUpdateAccept(s: FlowState, rec: Record)
    requires FlowInput(rec)
    ensures FlowUpdate(s, rec) == FlowAccept(s, rec)
  {
  }

  /** A step on any other record is the rejecting path. */
  lemma FlowUpdateReject(s: FlowState, rec: Record)
    requires !FlowInput(rec)
    ensures FlowUpdate(s, rec) == (FlowReject(s, rec).0, Err(FlowReject(s, rec).1))
  {
  }

  /** What counting and size summing do, for any flow f. */
  lemma CountedCounts(s: FlowState, rec: Record, f: FlowIdentifier)
    requires FlowInput(rec)
    ensures var c, id := Counted(s, rec), FlowIdentifierOf(rec).value;
      var size: Number := rec.fields[Packet(IpPacketSize)];
      && Count(c.packetCountByFlow, f) == Count(s.packetCountByFlow, f) + (if id == f then 1 else 0)
      && NumberAt(c.packetSizeSumByFlow, f)
         == (if id == f then Plus(NumberAt(s.packetSizeSumByFlow, f), size) else NumberAt(s.packetSizeSumByFlow, f))
      && c.firstTimestampByFlow == s.firstTimestampByFlow
      && c.lastTimestampByFlow == s.lastTimestampByFlow
      && c.sumInterArrivalTimesByFlow == s.sumInterArrivalTimesByFlow
  {
  }

  /** The values of the accepting path, in terms of the state before the step: the flow's count and size include this packet. */
  lemma FlowAcceptValues(s: FlowState, rec: Record)
    requires FlowInput(rec) && FlowAccept(s, rec).1.Ok?
    ensures var id := FlowIdentifierOf(rec).value;
      var t := FlowTiming(Counted(s, rec), id, rec.fields[Packet(Timestamp)].ns).1;
      && t.Ok?
      && FlowAccept(s, rec).1.value
         == FlowValues(Count(s.packetCountByFlow, id) + 1,
                       Plus(NumberAt(s.packetSizeSumByFlow, id), rec.fields[Packet(IpPacketSize)]), t.value)
  {
    CountedCounts(s, rec, FlowIdentifierOf(rec).value);
  }

  /** The initial state keeps the invariant. */
  lemma InitialFlowStateInv()
    ensures Inv(InitialFlowState)
  {
  }

  /**
    The timing part keeps the invariant, and never raises, when the flow's
    count already includes this packet.
   */
  lemma FlowTimingInv(s: FlowState, id: FlowIdentifier, ts: int)
    requires Inv(s) && Count(s.packetCountByFlow, id) >= 1
    requires id in s.firstTimestampByFlow ==> Count(s.packetCountByFlow, id) >= 2
    ensures Inv(FlowTiming(s, id, ts).0)
    ensures FlowTiming(s, id, ts).1.Ok?
  {
    var s' := FlowTiming(s, id, ts).0;
    if id in s.firstTimestampByFlow {
      assert s'.lastTimestampByFlow[id] == ts;
      assert Lookup(s'.sumInterArrivalTimesByFlow, id)
        == Lookup(s.sumInterArrivalTimesByFlow, id) + (ts - Lookup(s.lastTimestampByFlow, id));
    }
  }

  /** Counting and size summing keep the invariant, and count this packet for its flow. */
  lemma CountedInv(s: FlowState, rec: Record)
    requires Inv(s) && FlowInput(rec)
    ensures Inv(Counted(s, rec))
    ensures var id := FlowIdentifierOf(rec).value;
      id in s.firstTimestampByFlow ==> Count(Counted(s, rec).packetCountByFlow, id) >= 2
  {
  }

  /** The rejecting path raises before it reaches the flow's first timestamp, ... */
  lemma FlowRejectFirst(s: FlowState, rec: Record)
    requires !FlowInput(rec)
    ensures FlowReject(s, rec).0.firstTimestampByFlow == s.firstTimestampByFlow
  {
  }

  /** ... its last timestamp ... */
  lemma FlowRejectLast(s: FlowState, rec: Record)
    requires !FlowInput(rec)
    ensures FlowReject(s, rec).0.lastTimestampByFlow == s.lastTimestampByFlow
  {
  }

  /** ... and its sum of inter-arrival times. */
  lemma FlowRejectSum(s: FlowState, rec: Record)
    requires !FlowInput(rec)
    ensures FlowReject(s, rec).0.sumInterArrivalTimesByFlow == s.sumInterArrivalTimesByFlow
  {
  }

  /** The rejecting path raises KeyError or TypeError, never an error of the processor's own state. */
  lemma FlowRejectErrors(s: FlowState, rec: Record)
    requires !FlowInput(rec)
    ensures FlowReject(s, rec).1.MissingKey? || FlowReject(s, rec).1 == TypeError
  {
    FlowIdentifierErrors(rec);
  }

  /** Reading the flow identifier raises only KeyError. */
  lemma FlowIdentifierErrors(rec: Record)
    ensures FlowIdentifierOf(rec).Err? ==> FlowIdentifierOf(rec).error.MissingKey?
  {
  }

  /** Every step keeps the invariant, whether it returns or raises. */
  lemma FlowStepInv(s: FlowState, rec: Record)
    requires Inv(s)
    ensures Inv(FlowStep(s, rec).0)
  {
    if !FlowInput(rec) {
      FlowUpdateReject(s, rec);
      FlowRejectFirst(s, rec);
      FlowRejectLast(s, rec);
      FlowRejectSum(s, rec);
    } else {
      FlowUpdateAccept(s, rec);
      CountedInv(s, rec);
      FlowTimingInv(Counted(s, rec), FlowIdentifierOf(rec).value, rec.fields[Packet(Timestamp)].ns);
    }
  }

  /**
    From a state keeping the invariant, a step never divides by zero: it
    raises only for a record missing a key, holding a size that is not a
    number or a timestamp that is not a Timestamp, and succeeds on every
    record carrying what it reads.
   */
  lemma FlowStepFailsOnlyOnInput(s: FlowState, rec: Record)
    requires Inv(s)
    ensures FlowStep(s, rec).1.Err? ==> FlowStep(s, rec).1.error.MissingKey? || FlowStep(s, rec).1.error == TypeError
    ensures FlowStep(s, rec).1.Ok? <==> FlowInput(rec)
  {
    if FlowInput(rec) {
      FlowUpdateAccept(s, rec);
      CountedInv(s, rec);
      FlowTimingInv(Counted(s, rec), FlowIdentifierOf(rec).value, rec.fields[Packet(Timestamp)].ns);
    } else {
      FlowUpdateReject(s, rec);
      FlowRejectErrors(s, rec);
    }
  }

  /** A record missing a flow key raises KeyError for it before any dict is touched. */
  lemma FlowStepMissingFlowKey(s: FlowState, rec: Record)
    requires FlowIdentifierOf(rec).Err?
    ensures FlowStep(s, rec) == (s, Err(FlowIdentifierOf(rec).error))
  {
    FlowUpdateReject(s, rec);
  }

  /** A record with its flow keys but no size raises KeyError after counting the packet for its flow. */
  lemma FlowStepMissingSize(s: FlowState, rec: Record)
    requires FlowIdentifierOf(rec).Ok? && Packet(IpPacketSize) !in rec.fields
    ensures var id := FlowIdentifierOf(rec).value;
      FlowStep(s, rec) == (s.(packetCountByFlow := s.packetCountByFlow[id := Count(s.packetCountByFlow, id) + 1]),
                           Err(MissingKey(Packet(IpPacketSize))))
  {
    FlowUpdateReject(s, rec);
  }

  /** The rejecting path leaves every flow but the record's own as it was. */
  lemma FlowRejectOtherFlows(s: FlowState, rec: Record, f: FlowIdentifier)
    requires !FlowInput(rec) && FlowIdentifierOf(rec) != Ok(f)
    ensures ViewOf(FlowReject(s, rec).0, f) == ViewOf(s, f)
  {
    FlowRejectFirst(s, rec);
    FlowRejectLast(s, rec);
    FlowRejectSum(s, rec);
  }

  /** The accepting path leaves every flow but the record's own as it was. */
  lemma FlowAcceptOtherFlows(s: FlowState, rec: Record, f: FlowIdentifier)
    requires FlowInput(rec) && FlowIdentifierOf(rec).value != f
    ensures ViewOf(FlowAccept(s, rec).0, f) == ViewOf(s, f)
  {
    CountedCounts(s, rec, f);
  }

  /** Processing a record of one flow leaves every other flow as it was, whether the step returns or raises. */
  lemma FlowStepOtherFlows(s: FlowState, rec: Record, f: FlowIdentifier)
    requires FlowIdentifierOf(rec) != Ok(f)
    ensures ViewOf(FlowStep(s, rec).0, f) == ViewOf(s, f)
  {
    if FlowInput(rec) {
      FlowUpdateAccept(s, rec);
      FlowAcceptOtherFlows(s, rec, f);
    } else {
      FlowUpdateReject(s, rec);
      FlowRejectOtherFlows(s, rec, f);
    }
  }

  /**
    Traffic in the reverse direction is a separate flow: unless its swapped
    addresses and ports are equal, processing the reversed record leaves the
    original record's flow as it was.
   */
  lemma FlowStepReverseSeparate(s: FlowState, rec: Record)
    requires FlowIdentifierOf(rec).Ok?
    requires var id := FlowIdentifierOf(rec).value; id.0 != id.1 || id.2 != id.3
    ensures Packet(IpSourceAddress) in rec.fields && Packet(IpDestinationAddress) in rec.fields
    ensures Packet(IpSourcePort) in rec.fields && Packet(IpDestinationPort) in rec.fields
    ensures ViewOf(FlowStep(s, Reverse(rec)).0, FlowIdentifierOf(rec).value) == ViewOf(s, FlowIdentifierOf(rec).value)
  {
    FlowIdentifierDirectional(rec);
    FlowStepOtherFlows(s, Reverse(rec), FlowIdentifierOf(rec).value);
  }

  lemma FlowSignatureDistinct()
    ensures Distinct(OutputSignature)
  {
  }

  /**
    The written record keeps every key and value of the input except the six
    flow features, which it adds, each holding the value computed for it; a
    valid record stays valid.
   */
  lemma FlowStepWrites(s: FlowState, rec: Record)
    requires FlowStep(s, rec).1.Ok?
    ensures FlowInput(rec) && FlowUpdate(s, rec).1.Ok?
    ensures var out, vs := FlowStep(s, rec).1.value, FlowUpdate(s, rec).1.value;
      && out.fields.Keys == rec.fields.Keys + (set k | k in OutputSignature)
      && (forall k :: k in rec.fields && k !in OutputSignature ==> out.fields[k] == rec.fields[k])
      && (forall i :: 0 <= i < |OutputSignature| ==>
            OutputSignature[i] in out.fields && out.fields[OutputSignature[i]] == vs[i])
      && (rec.Valid() ==> out.Valid())
  {
    if !FlowInput(rec) {
      FlowUpdateReject(s, rec);
    }
    var vs := FlowUpdate(s, rec).1.value;
    FlowSignatureDistinct();
    SetAllFields(rec, OutputSignature, vs);
    if rec.Valid() {
      SetAllValid(rec, OutputSignature, vs);
    }
  }

  /** The size features of a step: the flow's count and summed size including this packet, and their average, a float. */
  lemma FlowStepSizes(s: FlowState, rec: Record)
    requires FlowInput(rec) && FlowUpdate(s, rec).1.Ok?
    ensures var vs, id := FlowUpdate(s, rec).1.value, FlowIdentifierOf(rec).value;
      var count := Count(s.packetCountByFlow, id) + 1;
      var sizeSum := Plus(NumberAt(s.packetSizeSumByFlow, id), rec.fields[Packet(IpPacketSize)]);
      && OutputSignature[0] == Flow(FlowReceivedPacketCount) && vs[0] == Int(count)
      && OutputSignature[1] == Flow(FlowSumPacketSize) && vs[1] == sizeSum
      && OutputSignature[2] == Flow(FlowAvgPacketSize) && vs[2] == Divide(sizeSum, count)
      && NumberValue(vs[2]) == NumberValue(sizeSum) / (count as real)
  {
    FlowUpdateAccept(s, rec);
    FlowAcceptValues(s, rec);
  }

  /**
    The first packet of a flow has zero inter-arrival times and duration and
    records the flow's first timestamp, but not its last one.
   */
  lemma FlowStepFirstPacket(s: FlowState, rec: Record)
    requires FlowInput(rec) && FlowIdentifierOf(rec).value !in s.firstTimestampByFlow
    ensures FlowUpdate(s, rec).1.Ok?
    ensures var vs, s' := FlowUpdate(s, rec).1.value, FlowUpdate(s, rec).0;
      var id, ts := FlowIdentifierOf(rec).value, rec.fields[Packet(Timestamp)].ns;
      && OutputSignature[3] == Flow(FlowLastInterArrivalTime) && vs[3] == Int(0)
      && OutputSignature[4] == Flow(FlowAvgInterArrivalTime) && vs[4] == Int(0)
      && OutputSignature[5] == Flow(FlowConnectionDuration) && vs[5] == Int(0)
      && s'.firstTimestampByFlow == s.firstTimestampByFlow[id := ts]
      && s'.lastTimestampByFlow == s.lastTimestampByFlow
  {
    FlowUpdateAccept(s, rec);
    CountedCounts(s, rec, FlowIdentifierOf(rec).value);
  }

  /**
    A later packet of a flow: the last inter-arrival time is the gap to the
    flow's last timestamp (the epoch if none is recorded), the average is the
    flow's new inter-arrival sum over its count less one, which sum is this
    packet's own timestamp, and the duration is the time since the flow's
    first packet; the packet's time becomes the flow's last.
   */
  lemma FlowStepLaterPacket(s: FlowState, rec: Record)
    requires Inv(s) && FlowInput(rec) && FlowIdentifierOf(rec).value in s.firstTimestampByFlow
    ensures FlowUpdate(s, rec).1.Ok?
    ensures var vs, s' := FlowUpdate(s, rec).1.value, FlowUpdate(s, rec).0;
      var id, ts := FlowIdentifierOf(rec).value, rec.fields[Packet(Timestamp)].ns;
      && Count(s'.packetCountByFlow, id) >= 2
      && Lookup(s'.sumInterArrivalTimesByFlow, id) == ts
      && OutputSignature[3] == Flow(FlowLastInterArrivalTime) && vs[3] == Int(ts - Lookup(s.lastTimestampByFlow, id))
      && OutputSignature[4] == Flow(FlowAvgInterArrivalTime)
      && vs[4] == Ratio(Lookup(s'.sumInterArrivalTimesByFlow, id), Count(s'.packetCountByFlow, id) - 1)
      && OutputSignature[5] == Flow(FlowConnectionDuration) && vs[5] == Int(ts - s.firstTimestampByFlow[id])
      && s'.firstTimestampByFlow == s.firstTimestampByFlow
      && s'.lastTimestampByFlow == s.lastTimestampByFlow[id := ts]
  {
    FlowUpdateAccept(s, rec);
    CountedCounts(s, rec, FlowIdentifierOf(rec).value);
  }

  /**
    The epoch quirk over two packets: when a flow's first packet is followed
    by a second one of the same flow, the second packet's last inter-arrival
    time is its whole timestamp, measured from the epoch rather than from the
    first packet.
   */
  lemma FlowSecondPacketFromEpoch(s: FlowState, r1: Record, r2: Record)
    requires Inv(s) && FlowInput(r1) && FlowInput(r2)
    requires FlowIdentifierOf(r1) == FlowIdentifierOf(r2)
    requires FlowIdentifierOf(r1).value !in s.firstTimestampByFlow
    ensures var s1 := FlowUpdate(s, r1).0;
      && FlowUpdate(s1, r2).1.Ok?
      && FlowUpdate(s1, r2).1.value[3] == Int(r2.fields[Packet(Timestamp)].ns)
  {
    var id := FlowIdentifierOf(r1).value;
    FlowStepFirstPacket(s, r1);
    FlowStepInv(s, r1);
    var s1 := FlowUpdate(s, r1).0;
    assert id !in s1.lastTimestampByFlow;
    FlowStepLaterPacket(s1, r2);
  }

  /** One well-formed record adds itself to its flow's count and size sum. */
  lemma FlowStepCounts(s: FlowState, rec: Record, f: FlowIdentifier)
    requires FlowInput(rec)
    ensures var s', id := FlowUpdate(s, rec).0, FlowIdentifierOf(rec).value;
      var size: Number := rec.fields[Packet(IpPacketSize)];
      && Count(s'.packetCountByFlow, f) == Count(s.packetCountByFlow, f) + (if id == f then 1 else 0)
      && NumberAt(s'.packetSizeSumByFlow, f)
         == (if id == f then Plus(NumberAt(s.packetSizeSumByFlow, f), size) else NumberAt(s.packetSizeSumByFlow, f))
  {
    FlowUpdateAccept(s, rec);
    CountedCounts(s, rec, f);
  }

  /** The state after a stream of records, each processed in turn. */
  function FlowRun(s: FlowState, recs: seq<Record>): FlowState
    decreases |recs|
  {
    if recs == [] then s else FlowRun(FlowUpdate(s, recs[0]).0, recs[1..])
  }

  /** The summed values of the packet sizes of the records in recs of flow f. */
  function SizeOfFlow(recs: seq<Record>, f: FlowIdentifier): real
    requires forall i :: 0 <= i < |recs| ==> FlowInput(recs[i])
  {
    if recs == [] then 0.0
    else
      assert FlowInput(recs[0]);
      (if FlowIdentifierOf(recs[0]) == Ok(f) then NumberValue(recs[0].fields[Packet(IpPacketSize)]) else 0.0)
      + SizeOfFlow(recs[1..], f)
  }

  /**
    After a stream of well-formed records, each flow's count and size sum are
    those of the packets of that flow (sizes by their numeric value, whether
    ints, bools or floats).
   */
  lemma {:induction false} FlowRunCounts(s: FlowState, recs: seq<Record>, f: FlowIdentifier)
    requires forall i :: 0 <= i < |recs| ==> FlowInput(recs[i])
    ensures var s' := FlowRun(s, recs);
      && Count(s'.packetCountByFlow, f) == Count(s.packetCountByFlow, f) + CountOfFlow(recs, f)
      && NumberValue(NumberAt(s'.packetSizeSumByFlow, f)) == NumberValue(NumberAt(s.packetSizeSumByFlow, f)) + SizeOfFlow(recs, f)
    decreases |recs|
  {
    if recs != [] {
      assert FlowInput(recs[0]);
      FlowStepCounts(s, recs[0], f);
      FlowRunCounts(FlowUpdate(s, recs[0]).0, recs[1..], f);
    }
  }
}
