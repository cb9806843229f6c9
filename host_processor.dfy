/**
  The host feature processor as an object whose dicts are updated in place,
  proved to follow the step function of module HostFeatures.
 */
module HostProcessor {
  import opened Wrappers
  import opened FeatureKeys
  import opened Errors
  import opened Features
  import opened HostFeatures

  /** The processor object: the dicts above as fields, updated by each call. */
  class HostFeatureProcessor {
    var overallPacketCounter: nat
    var packetCountFromHost: map<Value, nat>
    var packetCountToHost: map<Value, nat>
    var packetSizeSumFromHost: map<Value, Number>
    var packetSizeSumToHost: map<Value, Number>
    var firstTimestampFromHost: map<Value, int>
    var lastTimestampFromHost: map<Value, int>
    var sumInterArrivalTimesFromHost: map<Value, int>

    function State(): HostState
      reads this
    {
      HostState(overallPacketCounter, packetCountFromHost, packetCountToHost,
                packetSizeSumFromHost, packetSizeSumToHost,
                firstTimestampFromHost, lastTimestampFromHost, sumInterArrivalTimesFromHost)
    }

    constructor()
      ensures State() == InitialHostState
    {
      overallPacketCounter := 0;
      packetCountFromHost := map[];
      packetCountToHost := map[];
      packetSizeSumFromHost := map[];
      packetSizeSumToHost := map[];
      firstTimestampFromHost := map[];
      lastTimestampFromHost := map[];
      sumInterArrivalTimesFromHost := map[];
    }

    /** `process`: updates the dicts and returns the record with the host features. */
    method Process(features: Record) returns (r: Result<Record>)
      modifies this
      ensures (State(), r) == HostStep(old(State()), features)
    {
      ghost var s0 := State();
      var read := CountRecord(features);
      if read.Err? {
        HostUpdateReject(s0, features);
        return Err(read.error);
      }
      HostUpdateAccept(s0, features);
      var (src, dst, ts) := read.value;
      var t := UpdateTiming(src, ts);
      if t.Err? {
        return Err(t.error);
      }
      var vs := HostValues(Count(packetCountFromHost, src), NumberAt(packetSizeSumFromHost, src),
                           Count(packetCountToHost, dst), NumberAt(packetSizeSumToHost, dst), t.value);
      assert HostUpdate(s0, features) == (State(), Ok(vs));
      r := Ok(SetAll(features, OutputSignature, vs));
    }

    /**
      The counting part of `process`: counts the packet, reads the addresses, adds
      the size to both hosts and reads the timestamp, raising at the first
      key that is missing or holds a value of the wrong type.
     */
    method CountRecord(features: Record) returns (read: Result<(Value, Value, int)>)
      modifies this
      ensures HostInput(features) ==>
        && read == Ok((features.fields[Packet(IpSourceAddress)], features.fields[Packet(IpDestinationAddress)],
                       features.fields[Packet(Timestamp)].ns))
        && State() == Counted(old(State()), features)
      ensures !HostInput(features) ==>
        (State(), read) == (HostReject(old(State()), features).0, Err(HostReject(old(State()), features).1))
    {
      overallPacketCounter := overallPacketCounter + 1;
      var srcR := features.Get(Packet(IpSourceAddress));
      var dstR := features.Get(Packet(IpDestinationAddress));
      if srcR.Err? {
        return Err(srcR.error);
      }
      if dstR.Err? {
        return Err(dstR.error);
      }
      var src, dst := srcR.value, dstR.value;
      CountPacketOf(src, dst);
      var sizeR := GetNumber(features, Packet(IpPacketSize));
      if sizeR.Err? {
        return Err(sizeR.error);
      }
      AddSizeOf(src, dst, sizeR.value);
      var tsR := GetTime(features, Packet(Timestamp));
      if tsR.Err? {
        return Err(tsR.error);
      }
      read := Ok((src, dst, tsR.value));
    }

    /** The two `packet_count_..._host[...] += 1`: one more packet from src and to dst. */
    method CountPacketOf(src: Value, dst: Value)
      modifies this
      ensures State() == CountPacket(old(State()), src, dst)
    {
      packetCountFromHost := packetCountFromHost[src := Count(packetCountFromHost, src) + 1];
      packetCountToHost := packetCountToHost[dst := Count(packetCountToHost, dst) + 1];
    }

    /** The two `packet_size_sum_..._host[...] += size`: the packet's size added to the sums of src and dst. */
    method AddSizeOf(src: Value, dst: Value, size: Number)
      modifies this
      ensures State() == AddSize(old(State()), src, dst, size)
    {
      packetSizeSumFromHost := packetSizeSumFromHost[src := Plus(NumberAt(packetSizeSumFromHost, src), size)];
      packetSizeSumToHost := packetSizeSumToHost[dst := Plus(NumberAt(packetSizeSumToHost, dst), size)];
    }

    /** The timing part of `process`: the first/last timestamps and inter-arrival sum of the source host. */
    method UpdateTiming(src: Value, ts: int) returns (t: Result<Timing>)
      modifies this
      ensures (State(), t) == HostTiming(old(State()), src, ts)
    {
      var lastIat: int, avgIat: Value;
      if src !in firstTimestampFromHost {
        lastIat, avgIat := 0, Int(0);
        firstTimestampFromHost := firstTimestampFromHost[src := ts];
      } else {
        if src !in lastTimestampFromHost {
          return Err(StateKeyError);
        }
        lastIat := ts - lastTimestampFromHost[src];
        sumInterArrivalTimesFromHost :=
          sumInterArrivalTimesFromHost[src := Lookup(sumInterArrivalTimesFromHost, src) + lastIat];
        var gaps := Count(packetCountFromHost, src) - 1;
        if gaps == 0 {
          return Err(ZeroDivisionError);
        }
        avgIat := Ratio(sumInterArrivalTimesFromHost[src], gaps);
      }
      lastTimestampFromHost := lastTimestampFromHost[src := ts];
      t := Ok(Timing(lastIat, avgIat, ts - firstTimestampFromHost[src]));
    }
  }
}
