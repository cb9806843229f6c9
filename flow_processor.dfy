/**
  The flow feature processor as an object whose dicts are updated in place,
  proved to follow the step function of module FlowFeatures.
 */
module FlowProcessor {
  import opened Wrappers
  import opened FeatureKeys
  import opened Errors
  import opened Features
  import opened FlowFeatures

  /**
    The processor object. The two packet counters and the per-host last
    timestamps are initialised but never touched by `process`.
   */
  class FlowFeatureProcessor {
    var overallPacketCounter: nat
    var validPacketCounter: nat
    var packetCountByFlow: map<FlowIdentifier, nat>
    var packetSizeSumByFlow: map<FlowIdentifier, Number>
    var firstTimestampByFlow: map<FlowIdentifier, int>
    var lastTimestampFromHost: map<Value, int>
    var lastTimestampByFlow: map<FlowIdentifier, int>
    var sumInterArrivalTimesByFlow: map<FlowIdentifier, int>

    function State(): FlowState
      reads this
    {
      FlowState(packetCountByFlow, packetSizeSumByFlow, firstTimestampByFlow,
                lastTimestampByFlow, sumInterArrivalTimesByFlow)
    }

    constructor()
      ensures State() == InitialFlowState
      ensures overallPacketCounter == 0 && validPacketCounter == 0 && lastTimestampFromHost == map[]
    {
      overallPacketCounter := 0;
      validPacketCounter := 0;
      packetCountByFlow := map[];
      packetSizeSumByFlow := map[];
      firstTimestampByFlow := map[];
      lastTimestampFromHost := map[];
      lastTimestampByFlow := map[];
      sumInterArrivalTimesByFlow := map[];
    }

    /** `process`: updates the flow dicts and returns the record with the flow features. */
    method Process(features: Record) returns (r: Result<Record>)
      modifies this
      ensures (State(), r) == FlowStep(old(State()), features)
      ensures overallPacketCounter == old(overallPacketCounter) && validPacketCounter == old(validPacketCounter)
      ensures lastTimestampFromHost == old(lastTimestampFromHost)
    {
      ghost var s0 := State();
      var read := CountRecord(features);
      if read.Err? {
        FlowUpdateReject(s0, features);
        return Err(read.error);
      }
      FlowUpdateAccept(s0, features);
      var (id, ts) := read.value;
      var t := UpdateTiming(id, ts);
      if t.Err? {
        return Err(t.error);
      }
      var vs := FlowValues(Count(packetCountByFlow, id), NumberAt(packetSizeSumByFlow, id), t.value);
      assert FlowUpdate(s0, features) == (State(), Ok(vs));
      r := Ok(SetAll(features, OutputSignature, vs));
    }

    /**
      The counting part of `process`: reads the flow identifier, counts the packet,
      adds its size and reads the timestamp, raising at the first key that is
      missing or holds a value of the wrong type.
     */
    method CountRecord(features: Record) returns (read: Result<(FlowIdentifier, int)>)
      modifies this
      ensures FlowInput(features) ==>
        && read == Ok((FlowIdentifierOf(features).value, features.fields[Packet(Timestamp)].ns))
        && State() == Counted(old(State()), features)
      ensures !FlowInput(features) ==>
        (State(), read) == (FlowReject(old(State()), features).0, Err(FlowReject(old(State()), features).1))
      ensures overallPacketCounter == old(overallPacketCounter) && validPacketCounter == old(validPacketCounter)
      ensures lastTimestampFromHost == old(lastTimestampFromHost)
    {
      var idR := FlowIdentifierOf(features);
      if idR.Err? {
        return Err(idR.error);
      }
      var id := idR.value;
      CountPacketOf(id);
      var sizeR := GetNumber(features, Packet(IpPacketSize));
      if sizeR.Err? {
        return Err(sizeR.error);
      }
      AddSizeOf(id, sizeR.value);
      var tsR := GetTime(features, Packet(Timestamp));
      if tsR.Err? {
        return Err(tsR.error);
      }
      read := Ok((id, tsR.value));
    }

    /** `packet_count_by_flow[flow_id] += 1`: one more packet of the flow. */
    method CountPacketOf(id: FlowIdentifier)
      modifies this
      ensures State() == CountPacket(old(State()), id)
      ensures overallPacketCounter == old(overallPacketCounter) && validPacketCounter == old(validPacketCounter)
      ensures lastTimestampFromHost == old(lastTimestampFromHost)
    {
      packetCountByFlow := packetCountByFlow[id := Count(packetCountByFlow, id) + 1];
    }

    /** `packet_size_sum_by_flow[flow_id] += size`: the packet's size added to the flow's sum by Python's `+`. */
    method AddSizeOf(id: FlowIdentifier, size: Number)
      modifies this
      ensures State() == AddSize(old(State()), id, size)
      ensures overallPacketCounter == old(overallPacketCounter) && validPacketCounter == old(validPacketCounter)
      ensures lastTimestampFromHost == old(lastTimestampFromHost)
    {
      packetSizeSumByFlow := packetSizeSumByFlow[id := Plus(NumberAt(packetSizeSumByFlow, id), size)];
    }

    /** The timing part of `process`: the first/last timestamps and inter-arrival sum of the flow. */
    method UpdateTiming(id: FlowIdentifier, ts: int) returns (t: Result<Timing>)
      modifies this
      ensures (State(), t) == FlowTiming(old(State()), id, ts)
      ensures overallPacketCounter == old(overallPacketCounter) && validPacketCounter == old(validPacketCounter)
      ensures lastTimestampFromHost == old(lastTimestampFromHost)
    {
      if id !in firstTimestampByFlow {
        firstTimestampByFlow := firstTimestampByFlow[id := ts];
        return Ok(Timing(0, Int(0), 0));
      }
      var lastIat := ts - Lookup(lastTimestampByFlow, id);
      sumInterArrivalTimesByFlow :=
        sumInterArrivalTimesByFlow[id := Lookup(sumInterArrivalTimesByFlow, id) + lastIat];
      var gaps := Count(packetCountByFlow, id) - 1;
      if gaps == 0 {
        return Err(ZeroDivisionError);
      }
      var avgIat := Ratio(sumInterArrivalTimesByFlow[id], gaps);
      lastTimestampByFlow := lastTimestampByFlow[id := ts];
      t := Ok(Timing(lastIat, avgIat, lastTimestampByFlow[id] - firstTimestampByFlow[id]));
    }
  }
}
