/**
  The combined host and flow statistics as an object whose counters and dicts
  are updated in place, proved to follow the step function of module
  PacketStatistics.
 */
module PacketProcessor {
  import opened Wrappers
  import opened FeatureKeys
  import opened Errors
  import opened Features
  import opened PacketLine
  import opened PacketStatistics

  /** The processor object: two counters and twelve dicts keyed by host or by flow. */
  class PacketProcessor {
    var overallPacketCounter: nat
    var validPacketCounter: nat
    var packetCountFromHost: map<string, nat>
    var packetCountToHost: map<string, nat>
    var packetCountByFlow: map<PacketFlow, nat>
    var packetSizeSumFromHost: map<string, Number>
    var packetSizeSumToHost: map<string, Number>
    var packetSizeSumByFlow: map<PacketFlow, Number>
    var firstTimestampFromHost: map<string, int>
    var firstTimestampByFlow: map<PacketFlow, int>
    var lastTimestampFromHost: map<string, int>
    var lastTimestampByFlow: map<PacketFlow, int>
    var sumInterArrivalTimesFromHost: map<string, int>
    var sumInterArrivalTimesByFlow: map<PacketFlow, int>

    function State(): PacketState
      reads this
    {
      PacketState(overallPacketCounter, validPacketCounter,
                  Tally(packetCountFromHost, packetSizeSumFromHost, firstTimestampFromHost,
                        lastTimestampFromHost, sumInterArrivalTimesFromHost),
                  packetCountToHost, packetSizeSumToHost,
                  Tally(packetCountByFlow, packetSizeSumByFlow, firstTimestampByFlow,
                        lastTimestampByFlow, sumInterArrivalTimesByFlow))
    }

    constructor()
      ensures State() == InitialPacketState
    {
      overallPacketCounter := 0;
      validPacketCounter := 0;
      packetCountFromHost := map[];
      packetCountToHost := map[];
      packetCountByFlow := map[];
      packetSizeSumFromHost := map[];
      packetSizeSumToHost := map[];
      packetSizeSumByFlow := map[];
      firstTimestampFromHost := map[];
      firstTimestampByFlow := map[];
      lastTimestampFromHost := map[];
      lastTimestampByFlow := map[];
      sumInterArrivalTimesFromHost := map[];
      sumInterArrivalTimesByFlow := map[];
    }

    /**
      `process`: counts the packet and, for a valid one, updates the dicts
      and returns the fresh record, or raises where the source would.
     */
    method Process(p: PacketData) returns (r: Result<Option<Record>>)
      modifies this
      ensures (State(), r) == PacketStep(old(State()), p)
    {
      ghost var s0 := State();
      overallPacketCounter := overallPacketCounter + 1;
      if !p.IsValid() {
        PacketStepReject(s0, p);
        return Ok(None);
      }
      CountPacket(p);
      if !IsNumber(p.ipSize) {
        PacketStepReject(s0, p);
        return Err(TypeError);
      }
      AddSizes(p, p.ipSize);
      PacketStepAccept(s0, p);
      assert State() == Tallied(s0, p);
      var host := HostTiming(p.sourceIp, p.timestamp);
      if host.Err? {
        return Err(host.error);
      }
      var flow := FlowTiming(p.flowIdentifier, p.timestamp);
      if flow.Err? {
        return Err(flow.error);
      }
      r := Ok(Some(OutputRecord(State(), p, host.value, flow.value)));
    }

    /** The `+= 1` on the valid counter and the three packet counts. */
    method CountPacket(p: PacketData)
      requires p.Valid?
      modifies this
      ensures State() == Counted(old(State()), p)
    {
      validPacketCounter := validPacketCounter + 1;
      CountFromHost(p.sourceIp);
      CountToHost(p.destinationIp);
      CountByFlow(p.flowIdentifier);
    }

    /** `packet_count_from_host[p.source_ip] += 1`. */
    method CountFromHost(src: string)
      modifies this
      ensures State() == old(State()).(fromHost := Tick(old(State()).fromHost, src))
    {
      packetCountFromHost := packetCountFromHost[src := Count(packetCountFromHost, src) + 1];
    }

    /** `packet_count_to_host[p.destination_ip] += 1`. */
    method CountToHost(dst: string)
      modifies this
      ensures State() == old(State()).(packetCountToHost := old(State()).packetCountToHost[dst := Count(old(State()).packetCountToHost, dst) + 1])
    {
      packetCountToHost := packetCountToHost[dst := Count(packetCountToHost, dst) + 1];
    }

    /** `packet_count_by_flow[p.flow_identifier] += 1`. */
    method CountByFlow(id: PacketFlow)
      modifies this
      ensures State() == old(State()).(byFlow := Tick(old(State()).byFlow, id))
    {
      packetCountByFlow := packetCountByFlow[id := Count(packetCountByFlow, id) + 1];
    }

    /** The three `packet_size_sum_...[...] += p.ip_size`: the packet's size added to the three sums by Python's `+`. */
    method AddSizes(p: PacketData, size: Number)
      requires p.Valid?
      modifies this
      ensures State() == Summed(old(State()), p, size)
    {
      AddSizeFromHost(p.sourceIp, size);
      AddSizeToHost(p.destinationIp, size);
      AddSizeByFlow(p.flowIdentifier, size);
    }

    /** `packet_size_sum_from_host[p.source_ip] += p.ip_size`. */
    method AddSizeFromHost(src: string, size: Number)
      modifies this
      ensures State() == old(State()).(fromHost := AddSize(old(State()).fromHost, src, size))
    {
      packetSizeSumFromHost := packetSizeSumFromHost[src := Plus(NumberAt(packetSizeSumFromHost, src), size)];
    }

    /** `packet_size_sum_to_host[p.destination_ip] += p.ip_size`. */
    method AddSizeToHost(dst: string, size: Number)
      modifies this
      ensures State() == old(State()).(packetSizeSumToHost := old(State()).packetSizeSumToHost[dst := Plus(NumberAt(old(State()).packetSizeSumToHost, dst), size)])
    {
      packetSizeSumToHost := packetSizeSumToHost[dst := Plus(NumberAt(packetSizeSumToHost, dst), size)];
    }

    /** `packet_size_sum_by_flow[p.flow_identifier] += p.ip_size`. */
    method AddSizeByFlow(id: PacketFlow, size: Number)
      modifies this
      ensures State() == old(State()).(byFlow := AddSize(old(State()).byFlow, id, size))
    {
      packetSizeSumByFlow := packetSizeSumByFlow[id := Plus(NumberAt(packetSizeSumByFlow, id), size)];
    }

    /** The host timing part of `process`: the source host's timestamps, inter-arrival sum and timing. */
    method HostTiming(src: string, ts: int) returns (t: Result<Timing>)
      modifies this
      ensures State() == old(State()).(fromHost := TallyTiming(old(State()).fromHost, src, ts).0)
      ensures t == TallyTiming(old(State()).fromHost, src, ts).1
    {
      if src !in firstTimestampFromHost {
        firstTimestampFromHost := firstTimestampFromHost[src := ts];
        return Ok(Timing(0, Int(0), 0));
      }
      var lastIat := ts - Lookup(lastTimestampFromHost, src);
      sumInterArrivalTimesFromHost :=
        sumInterArrivalTimesFromHost[src := Lookup(sumInterArrivalTimesFromHost, src) + lastIat];
      var gaps := Count(packetCountFromHost, src) - 1;
      if gaps == 0 {
        return Err(ZeroDivisionError);
      }
      var avgIat := Ratio(sumInterArrivalTimesFromHost[src], gaps);
      lastTimestampFromHost := lastTimestampFromHost[src := ts];
      t := Ok(Timing(lastIat, avgIat, lastTimestampFromHost[src] - firstTimestampFromHost[src]));
    }

    /** The flow timing part of `process`: the flow's timestamps, inter-arrival sum and timing. */
    method FlowTiming(id: PacketFlow, ts: int) returns (t: Result<Timing>)
      modifies this
      ensures State() == old(State()).(byFlow := TallyTiming(old(State()).byFlow, id, ts).0)
      ensures t == TallyTiming(old(State()).byFlow, id, ts).1
    {
      if id !in firstTimestampByFlow {
        firstTimestampByFlow := firstTimestampByFlow[id := ts];
        return Ok(Timing(0, Int(0), 0));
      }
      var lastIat := ts - Lookup(lastTimestampByFlow, id);
      sumInterArrivalTimesByFlow :=
        sumInterArrivalTimesByFlow[id := Lookup(sumInterArrivalTimesByFlow, id) + lastIat];
      var gaps := Count(packetCountByFlow, id) - 1;
      if gaps == 0 {
        return Err(ZeroDivisionError);
      }
      var avgIat := Ratio(sumInterArrivalTimesByFlow[id], gaps);
      lastTimestampByFlow := lastTimestampByFlow[id := ts];
      t := Ok(Timing(lastIat, avgIat, lastTimestampByFlow[id] - firstTimestampByFlow[id]));
    }
  }
}
