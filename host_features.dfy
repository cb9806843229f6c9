/**
  Per-host statistics over a packet stream. Packets are grouped by their
  source address for the "received" counters and timing, and by their
  destination address for the "sent" counters; each packet's record gets the
  nine host features written into it.
 */
module HostFeatures {
  import opened Wrappers
  import opened FeatureKeys
  import opened Errors
  import opened Features

  /** The keys the processor writes, in the order it writes them. */
  const OutputSignature: seq<FeatureKey> := [
    Host(HostReceivedPacketCount),
    Host(HostSumReceivedPacketSize),
    Host(HostAvgReceivedPacketSize),
    Host(HostSentPacketCount),
    Host(HostSumSentPacketSize),
    Host(HostAvgSentPacketSize),
    Host(HostLastInterArrivalTime),
    Host(HostAvgInterArrivalTime),
    Host(HostConnectionDuration)
  ]

  /** The keys the processor declares it needs. */
  const InputSignature: seq<FeatureKey> := [
    Packet(IpPacketSize),
    Packet(TcpCwrFlag),
    Packet(TcpEceFlag),
    Packet(TcpUrgFlag),
    Packet(TcpAckFlag),
    Packet(TcpPshFlag),
    Packet(TcpRstFlag),
    Packet(TcpSynFlag),
    Packet(TcpFinFlag)
  ]

  /**
    The processor's dicts, keyed by host address. Counters and size sums are
    defaultdicts reading 0 when absent (a size sum is whatever number `+=`
    has made of the sizes added); timestamps are plain dicts (in
    nanoseconds), inter-arrival sums are nanosecond durations.
   */
  datatype HostState = HostState(
    overallPacketCounter: nat,
    packetCountFromHost: map<Value, nat>,
    packetCountToHost: map<Value, nat>,
    packetSizeSumFromHost: map<Value, Number>,
    packetSizeSumToHost: map<Value, Number>,
    firstTimestampFromHost: map<Value, int>,
    lastTimestampFromHost: map<Value, int>,
    sumInterArrivalTimesFromHost: map<Value, int>)

  const InitialHostState := HostState(0, map[], map[], map[], map[], map[], map[], map[])

  /**
    What the processor keeps true between packets: a host has a first
    timestamp exactly when it has a last one, has been counted at least once,
    and its summed inter-arrival times are the time between its first and
    last packet; a host without timestamps has no inter-arrival sum.
   */
  ghost predicate Inv(s: HostState)
  {
    && (forall h :: h in s.firstTimestampFromHost <==> h in s.lastTimestampFromHost)
    && (forall h :: h in s.firstTimestampFromHost ==> Count(s.packetCountFromHost, h) >= 1)
    && (forall h :: h in s.firstTimestampFromHost ==>
          Lookup(s.sumInterArrivalTimesFromHost, h)
          == s.lastTimestampFromHost[h] - s.firstTimestampFromHost[h])
    && (forall h :: h !in s.firstTimestampFromHost ==> Lookup(s.sumInterArrivalTimesFromHost, h) == 0)
  }

  /** A record carrying what `process` reads: both addresses, a size `+=` can add (a bool, int or float) and a timestamp. */
  predicate HostInput(rec: Record)
  {
    && Packet(IpSourceAddress) in rec.fields
    && Packet(IpDestinationAddress) in rec.fields
    && Packet(IpPacketSize) in rec.fields && IsNumber(rec.fields[Packet(IpPacketSize)])
    && Packet(Timestamp) in rec.fields && rec.fields[Packet(Timestamp)].Time?
  }

  /**
    The nine values written, in signature order, from the source host's
    received count and size, the destination host's sent count and size, and
    the timing of the source host. Both averages are float divisions.
   */
  function HostValues(received: nat, receivedSize: Number, sent: nat, sentSize: Number, t: Timing): (vs: seq<Value>)
    requires received >= 1 && sent >= 1
    ensures |vs| == |OutputSignature|
  {
    [Int(received),
     receivedSize,
     Divide(receivedSize, received),
     Int(sent),
     sentSize,
     Divide(receivedSize, sent),
     Int(t.lastIat),
     t.avgIat,
     Int(t.duration)]
  }

  /** The two `packet_count_..._host[...] += 1`: one more packet from the source host and to the destination host. */
  function CountPacket(s: HostState, src: Value, dst: Value): (s': HostState)
    ensures Count(s'.packetCountFromHost, src) >= 1 && Count(s'.packetCountToHost, dst) >= 1
  {
    s.(packetCountFromHost := s.packetCountFromHost[src := Count(s.packetCountFromHost, src) + 1],
       packetCountToHost := s.packetCountToHost[dst := Count(s.packetCountToHost, dst) + 1])
  }

  /** The two `packet_size_sum_..._host[...] += size`: the packet's size added to both hosts' sums by Python's `+`. */
  function AddSize(s: HostState, src: Value, dst: Value, size: Number): HostState
  {
    s.(packetSizeSumFromHost := s.packetSizeSumFromHost[src := Plus(NumberAt(s.packetSizeSumFromHost, src), size)],
       packetSizeSumToHost := s.packetSizeSumToHost[dst := Plus(NumberAt(s.packetSizeSumToHost, dst), size)])
  }

  /**
    The timing part of `process`: the first packet from a host starts its clock; a later one
    adds the gap to its previous packet to the host's sum and averages the sum
    over the gaps so far. Either way the packet's time becomes the host's last.
   */
  function HostTiming(s: HostState, src: Value, ts: int): (r: (HostState, Result<Timing>))
    ensures r.0.packetCountFromHost == s.packetCountFromHost && r.0.packetCountToHost == s.packetCountToHost
    ensures r.0.packetSizeSumFromHost == s.packetSizeSumFromHost && r.0.packetSizeSumToHost == s.packetSizeSumToHost
    ensures r.1.Ok? ==> src in r.0.firstTimestampFromHost && r.0.lastTimestampFromHost == s.lastTimestampFromHost[src := ts]
    ensures r.1.Ok? ==> r.1.value.duration == ts - r.0.firstTimestampFromHost[src]
  {
    if src !in s.firstTimestampFromHost then
      var s' := s.(
        firstTimestampFromHost := s.firstTimestampFromHost[src := ts],
        lastTimestampFromHost := s.lastTimestampFromHost[src := ts]);
      (s', Ok(Timing(0, Int(0), 0)))
    else if src !in s.lastTimestampFromHost then (s, Err(StateKeyError))
    else
      var iat := ts - s.lastTimestampFromHost[src];
      var sum := Lookup(s.sumInterArrivalTimesFromHost, src) + iat;
      var s1 := s.(sumInterArrivalTimesFromHost := s.sumInterArrivalTimesFromHost[src := sum]);
      var gaps := Count(s.packetCountFromHost, src) - 1;
      if gaps == 0 then (s1, Err(ZeroDivisionError))
      else
        var s' := s1.(lastTimestampFromHost := s1.lastTimestampFromHost[src := ts]);
        (s', Ok(Timing(iat, Ratio(sum, gaps), ts - s.firstTimestampFromHost[src])))
  }

  /**
    `process` on one record, up to the values it writes: the state afterwards
    and the nine feature values or the exception raised. A step that raises
    keeps the updates made before the failing line.
   */
  function HostUpdate(s: HostState, rec: Record): (r: (HostState, Result<seq<Value>>))
    ensures r.1.Ok? ==> |r.1.value| == |OutputSignature|
  {
    if HostInput(rec) then HostAccept(s, rec)
    else
      var (s', e) := HostReject(s, rec);
      (s', Err(e))
  }

  /**
    `process` on a record holding both addresses, a numeric size and a
    timestamp: count the packet, add its size, then the timing part, which
    yields the nine values unless it raises.
   */
  function HostAccept(s: HostState, rec: Record): (r: (HostState, Result<seq<Value>>))
    requires HostInput(rec)
  {
    var src, dst := rec.fields[Packet(IpSourceAddress)], rec.fields[Packet(IpDestinationAddress)];
    var c := Counted(s, rec);
    var (s', t) := HostTiming(c, src, rec.fields[Packet(Timestamp)].ns);
    if t.Err? then (s', Err(t.error))
    else
      (s', Ok(HostValues(Count(c.packetCountFromHost, src), NumberAt(c.packetSizeSumFromHost, src),
                         Count(c.packetCountToHost, dst), NumberAt(c.packetSizeSumToHost, dst), t.value)))
  }

  /**
    `process` on a record lacking one of those: the exception raised at the
    first missing value, or the TypeError of a size `+=` cannot add to a
    number, or of a timestamp that is not a Timestamp; and the state with the
    updates made before that line.
   */
  function HostReject(s: HostState, rec: Record): (r: (HostState, Error))
    requires !HostInput(rec)
  {
    var s1 := s.(overallPacketCounter := s.overallPacketCounter + 1);
    if Packet(IpSourceAddress) !in rec.fields then (s1, MissingKey(Packet(IpSourceAddress)))
    else if Packet(IpDestinationAddress) !in rec.fields then (s1, MissingKey(Packet(IpDestinationAddress)))
    else
      var src, dst := rec.fields[Packet(IpSourceAddress)], rec.fields[Packet(IpDestinationAddress)];
      var s2 := CountPacket(s1, src, dst);
      if Packet(IpPacketSize) !in rec.fields then (s2, MissingKey(Packet(IpPacketSize)))
      else if !IsNumber(rec.fields[Packet(IpPacketSize)]) then (s2, TypeError)
      else
        var s3 := AddSize(s2, src, dst, rec.fields[Packet(IpPacketSize)]);
        if Packet(Timestamp) !in rec.fields then (s3, MissingKey(Packet(Timestamp)))
        else (s3, TypeError)
  }

  /** `process` on one record: the state afterwards and the returned record or the exception raised. */
  function HostStep(s: HostState, rec: Record): (HostState, Result<Record>)
  {
    var (s', r) := HostUpdate(s, rec);
    (s', if r.Err? then Err(r.error) else Ok(SetAll(rec, OutputSignature, r.value)))
  }

  /** The state a well-formed record reaches before its timing part. */
  function Counted(s: HostState, rec: Record): (s': HostState)
    requires HostInput(rec)
    ensures Count(s'.packetCountFromHost, rec.fields[Packet(IpSourceAddress)]) >= 1
    ensures Count(s'.packetCountToHost, rec.fields[Packet(IpDestinationAddress)]) >= 1
  {
    var src, dst := rec.fields[Packet(IpSourceAddress)], rec.fields[Packet(IpDestinationAddress)];
    AddSize(CountPacket(s.(overallPacketCounter := s.overallPacketCounter + 1), src, dst),
            src, dst, rec.fields[Packet(IpPacketSize)])
  }

  /** A step on a record carrying what `process` reads is the accepting path. */
  lemma HostUpdateAccept(s: HostState, rec: Record)
    requires HostInput(rec)
    ensures HostUpdate(s, rec) == HostAccept(s, rec)
  {
  }

  /** A step on any other record is the rejecting path. */
  lemma HostUpdateReject(s: HostState, rec: Record)
    requires !HostInput(rec)
    ensures HostUpdate(s, rec) == (HostReject(s, rec).0, Err(HostReject(s, rec).1))
  {
  }

  /**
    The values of the accepting path, in terms of the state before the step:
    both hosts' counts and sizes include this packet.
   */
  lemma HostAcceptValues(s: HostState, rec: Record)
    requires HostInput(rec) && HostAccept(s, rec).1.Ok?
    ensures var src, dst := rec.fields[Packet(IpSourceAddress)], rec.fields[Packet(IpDestinationAddress)];
      var size: Number := rec.fields[Packet(IpPacketSize)];
      var t := HostTiming(Counted(s, rec), src, rec.fields[Packet(Timestamp)].ns).1;
      && t.Ok?
      && HostAccept(s, rec).1.value
         == HostValues(Count(s.packetCountFromHost, src) + 1, Plus(NumberAt(s.packetSizeSumFromHost, src), size),
                       Count(s.packetCountToHost, dst) + 1, Plus(NumberAt(s.packetSizeSumToHost, dst), size), t.value)
  {
    CountedCounts(s, rec, rec.fields[Packet(IpSourceAddress)]);
    CountedCounts(s, rec, rec.fields[Packet(IpDestinationAddress)]);
  }

  /** The state after a stream of records, each processed in turn. */
  function HostRun(s: HostState, recs: seq<Record>): HostState
    decreases |recs|
  {
    if recs == [] then s else HostRun(HostUpdate(s, recs[0]).0, recs[1..])
  }

  /** The number of records in recs whose value at key k is v. */
  function CountWhere(recs: seq<Record>, k: FeatureKey, v: Value): nat
  {
    if recs == [] then 0
    else (if k in recs[0].fields && recs[0].fields[k] == v then 1 else 0) + CountWhere(recs[1..], k, v)
  }

  /** The summed values of the packet sizes of the records in recs whose value at key k is v. */
  function SizeWhere(recs: seq<Record>, k: FeatureKey, v: Value): real
    requires k == Packet(IpSourceAddress) || k == Packet(IpDestinationAddress)
    requires forall i :: 0 <= i < |recs| ==> HostInput(recs[i])
  {
    if recs == [] then 0.0
    else
      assert HostInput(recs[0]);
      (if recs[0].fields[k] == v then NumberValue(recs[0].fields[Packet(IpPacketSize)]) else 0.0)
      + SizeWhere(recs[1..], k, v)
  }

  /** The initial state keeps the invariant. */
  lemma InitialHostStateInv()
    ensures Inv(InitialHostState)
  {
  }

  /**
    The timing part keeps the invariant, and never raises, when the host's
    count already includes this packet.
   */
  lemma HostTimingInv(s: HostState, src: Value, ts: int)
    requires Inv(s) && Count(s.packetCountFromHost, src) >= 1
    requires src in s.firstTimestampFromHost ==> Count(s.packetCountFromHost, src) >= 2
    ensures Inv(HostTiming(s, src, ts).0)
    ensures HostTiming(s, src, ts).1.Ok?
  {
    var s' := HostTiming(s, src, ts).0;
    if src in s.firstTimestampFromHost {
      assert s'.lastTimestampFromHost[src] == ts;
      assert Lookup(s'.sumInterArrivalTimesFromHost, src)
        == s.lastTimestampFromHost[src] - s.firstTimestampFromHost[src] + (ts - s.lastTimestampFromHost[src]);
    }
  }

  /** What counting and size summing do to the counters, for any host h. */
  lemma CountedCounts(s: HostState, rec: Record, h: Value)
    requires HostInput(rec)
    ensures var c := Counted(s, rec);
      var src, dst := rec.fields[Packet(IpSourceAddress)], rec.fields[Packet(IpDestinationAddress)];
      var size: Number := rec.fields[Packet(IpPacketSize)];
      && c.overallPacketCounter == s.overallPacketCounter + 1
      && Count(c.packetCountFromHost, h) == Count(s.packetCountFromHost, h) + (if src == h then 1 else 0)
      && Count(c.packetCountToHost, h) == Count(s.packetCountToHost, h) + (if dst == h then 1 else 0)
      && NumberAt(c.packetSizeSumFromHost, h)
         == (if src == h then Plus(NumberAt(s.packetSizeSumFromHost, h), size) else NumberAt(s.packetSizeSumFromHost, h))
      && NumberAt(c.packetSizeSumToHost, h)
         == (if dst == h then Plus(NumberAt(s.packetSizeSumToHost, h), size) else NumberAt(s.packetSizeSumToHost, h))
      && c.firstTimestampFromHost == s.firstTimestampFromHost
      && c.lastTimestampFromHost == s.lastTimestampFromHost
      && c.sumInterArrivalTimesFromHost == s.sumInterArrivalTimesFromHost
  {
  }

  /** Counting and size summing keep the invariant, and count this packet for its source host. */
  lemma CountedInv(s: HostState, rec: Record)
    requires Inv(s) && HostInput(rec)
    ensures Inv(Counted(s, rec))
    ensures var src := rec.fields[Packet(IpSourceAddress)];
      src in s.firstTimestampFromHost ==> Count(Counted(s, rec).packetCountFromHost, src) >= 2
  {
  }

  /** The rejecting path counts the packet. */
  lemma HostRejectCounter(s: HostState, rec: Record)
    requires !HostInput(rec)
    ensures HostReject(s, rec).0.overallPacketCounter == s.overallPacketCounter + 1
  {
  }

  /** The rejecting path raises before it reaches the host's first timestamp, ... */
  lemma HostRejectFirst(s: HostState, rec: Record)
    requires !HostInput(rec)
    ensures HostReject(s, rec).0.firstTimestampFromHost == s.firstTimestampFromHost
  {
  }

  /** ... its last timestamp ... */
  lemma HostRejectLast(s: HostState, rec: Record)
    requires !HostInput(rec)
    ensures HostReject(s, rec).0.lastTimestampFromHost == s.lastTimestampFromHost
  {
  }

  /** ... and its sum of inter-arrival times. */
  lemma HostRejectSum(s: HostState, rec: Record)
    requires !HostInput(rec)
    ensures HostReject(s, rec).0.sumInterArrivalTimesFromHost == s.sumInterArrivalTimesFromHost
  {
  }

  /** The rejecting path leaves the timestamps and inter-arrival sums alone, having counted the packet. */
  lemma HostRejectClock(s: HostState, rec: Record)
    requires !HostInput(rec)
    ensures var s' := HostReject(s, rec).0;
      && s'.overallPacketCounter == s.overallPacketCounter + 1
      && s'.firstTimestampFromHost == s.firstTimestampFromHost
      && s'.lastTimestampFromHost == s.lastTimestampFromHost
      && s'.sumInterArrivalTimesFromHost == s.sumInterArrivalTimesFromHost
  {
    HostRejectCounter(s, rec);
    HostRejectFirst(s, rec);
    HostRejectLast(s, rec);
    HostRejectSum(s, rec);
  }

  /** The rejecting path at most counts the packet for its hosts. */
  lemma HostRejectCounts(s: HostState, rec: Record, h: Value)
    requires !HostInput(rec)
    ensures Count(HostReject(s, rec).0.packetCountFromHost, h) >= Count(s.packetCountFromHost, h)
  {
    if Packet(IpSourceAddress) in rec.fields && Packet(IpDestinationAddress) in rec.fields {
      var src, dst := rec.fields[Packet(IpSourceAddress)], rec.fields[Packet(IpDestinationAddress)];
      assert Count(CountPacket(s, src, dst).packetCountFromHost, h) >= Count(s.packetCountFromHost, h);
    }
  }

  /**
    A step on a record lacking what `process` reads raises before touching
    the timestamps, having at most counted the packet and added its size.
   */
  lemma HostStepEarlyError(s: HostState, rec: Record)
    requires !HostInput(rec)
    ensures var s' := HostStep(s, rec).0;
      && HostStep(s, rec).1.Err?
      && s'.firstTimestampFromHost == s.firstTimestampFromHost
      && s'.lastTimestampFromHost == s.lastTimestampFromHost
      && s'.sumInterArrivalTimesFromHost == s.sumInterArrivalTimesFromHost
      && forall h :: Count(s'.packetCountFromHost, h) >= Count(s.packetCountFromHost, h)
  {
    HostUpdateReject(s, rec);
    HostRejectClock(s, rec);
    forall h
      ensures Count(HostStep(s, rec).0.packetCountFromHost, h) >= Count(s.packetCountFromHost, h)
    {
      HostRejectCounts(s, rec, h);
    }
  }

  /** Every step keeps the invariant, whether it returns or raises. */
  lemma HostStepInv(s: HostState, rec: Record)
    requires Inv(s)
    ensures Inv(HostStep(s, rec).0)
  {
    if !HostInput(rec) {
      HostUpdateReject(s, rec);
      HostRejectClock(s, rec);
    } else {
      HostUpdateAccept(s, rec);
      CountedInv(s, rec);
      HostTimingInv(Counted(s, rec), rec.fields[Packet(IpSourceAddress)], rec.fields[Packet(Timestamp)].ns);
    }
  }

  /**
    From a state keeping the invariant, a step never fails on the processor's
    own dicts and never divides by zero: it raises only for a record missing
    a key, holding a size that is not a number or a timestamp that is not a
    Timestamp, and succeeds on every record carrying what it reads.
   */
  lemma HostStepFailsOnlyOnInput(s: HostState, rec: Record)
    requires Inv(s)
    ensures HostStep(s, rec).1.Err? ==> HostStep(s, rec).1.error != StateKeyError
    ensures HostStep(s, rec).1.Err? ==> HostStep(s, rec).1.error != ZeroDivisionError
    ensures HostStep(s, rec).1.Ok? <==> HostInput(rec)
  {
    if HostInput(rec) {
      HostUpdateAccept(s, rec);
      CountedInv(s, rec);
      HostTimingInv(Counted(s, rec), rec.fields[Packet(IpSourceAddress)], rec.fields[Packet(Timestamp)].ns);
    } else {
      HostUpdateReject(s, rec);
      HostRejectErrors(s, rec);
    }
  }

  /** The rejecting path raises KeyError or TypeError, never an error of the processor's own state. */
  lemma HostRejectErrors(s: HostState, rec: Record)
    requires !HostInput(rec)
    ensures HostReject(s, rec).1.MissingKey? || HostReject(s, rec).1 == TypeError
  {
  }

  /** Each step counts the packet, whether it returns or raises. */
  lemma HostStepCounter(s: HostState, rec: Record)
    ensures HostStep(s, rec).0.overallPacketCounter == s.overallPacketCounter + 1
  {
    if HostInput(rec) {
      HostUpdateAccept(s, rec);
      CountedCounts(s, rec, rec.fields[Packet(IpSourceAddress)]);
    } else {
      HostUpdateReject(s, rec);
      HostRejectClock(s, rec);
    }
  }

  /** After a stream of records the counter has counted every one of them. */
  lemma {:induction false} HostRunCounter(s: HostState, recs: seq<Record>)
    ensures HostRun(s, recs).overallPacketCounter == s.overallPacketCounter + |recs|
    decreases |recs|
  {
    if recs != [] {
      HostStepCounter(s, recs[0]);
      HostRunCounter(HostUpdate(s, recs[0]).0, recs[1..]);
    }
  }

  /** A record missing an address raises KeyError for it, having only counted the packet. */
  lemma HostStepMissingAddress(s: HostState, rec: Record)
    ensures Packet(IpSourceAddress) !in rec.fields ==>
      HostStep(s, rec) == (s.(overallPacketCounter := s.overallPacketCounter + 1), Err(MissingKey(Packet(IpSourceAddress))))
    ensures Packet(IpSourceAddress) in rec.fields && Packet(IpDestinationAddress) !in rec.fields ==>
      HostStep(s, rec) == (s.(overallPacketCounter := s.overallPacketCounter + 1), Err(MissingKey(Packet(IpDestinationAddress))))
  {
    if !HostInput(rec) {
      HostUpdateReject(s, rec);
    }
  }

  /** A record with both addresses but no size raises KeyError after counting the packet for both hosts. */
  lemma HostStepMissingSize(s: HostState, rec: Record)
    requires Packet(IpSourceAddress) in rec.fields && Packet(IpDestinationAddress) in rec.fields
    requires Packet(IpPacketSize) !in rec.fields
    ensures var src, dst := rec.fields[Packet(IpSourceAddress)], rec.fields[Packet(IpDestinationAddress)];
      var s' := HostStep(s, rec).0;
      && HostStep(s, rec).1 == Err(MissingKey(Packet(IpPacketSize)))
      && Count(s'.packetCountFromHost, src) == Count(s.packetCountFromHost, src) + 1
      && Count(s'.packetCountToHost, dst) == Count(s.packetCountToHost, dst) + 1
      && s'.packetSizeSumFromHost == s.packetSizeSumFromHost
      && s'.firstTimestampFromHost == s.firstTimestampFromHost
  {
    HostUpdateReject(s, rec);
  }

  lemma HostSignatureDistinct()
    ensures Distinct(OutputSignature)
  {
  }

  /**
    The written record keeps every key and value of the input except the nine
    host features, which it adds, each holding the value computed for it; a
    valid record stays valid.
   */
  lemma HostStepWrites(s: HostState, rec: Record)
    requires HostStep(s, rec).1.Ok?
    ensures HostInput(rec) && HostUpdate(s, rec).1.Ok?
    ensures var out, vs := HostStep(s, rec).1.value, HostUpdate(s, rec).1.value;
      && out.fields.Keys == rec.fields.Keys + (set k | k in OutputSignature)
      && (forall k :: k in rec.fields && k !in OutputSignature ==> out.fields[k] == rec.fields[k])
      && (forall i :: 0 <= i < |OutputSignature| ==>
            OutputSignature[i] in out.fields && out.fields[OutputSignature[i]] == vs[i])
      && (rec.Valid() ==> out.Valid())
  {
    if !HostInput(rec) {
      HostUpdateReject(s, rec);
    }
    var vs := HostUpdate(s, rec).1.value;
    HostSignatureDistinct();
    SetAllFields(rec, OutputSignature, vs);
    if rec.Valid() {
      SetAllValid(rec, OutputSignature, vs);
    }
  }

  /**
    The received features of a step: the count and summed size of the source
    host's packets including this one, and their average, a float.
   */
  lemma HostStepReceived(s: HostState, rec: Record)
    requires HostInput(rec) && HostUpdate(s, rec).1.Ok?
    ensures var vs := HostUpdate(s, rec).1.value;
      var src := rec.fields[Packet(IpSourceAddress)];
      var received := Count(s.packetCountFromHost, src) + 1;
      var receivedSize := Plus(NumberAt(s.packetSizeSumFromHost, src), rec.fields[Packet(IpPacketSize)]);
      && OutputSignature[0] == Host(HostReceivedPacketCount) && vs[0] == Int(received)
      && OutputSignature[1] == Host(HostSumReceivedPacketSize) && vs[1] == receivedSize
      && OutputSignature[2] == Host(HostAvgReceivedPacketSize) && vs[2] == Divide(receivedSize, received)
      && NumberValue(vs[2]) == NumberValue(receivedSize) / (received as real)
  {
    HostUpdateAccept(s, rec);
    HostAcceptValues(s, rec);
  }

  /**
    The sent features of a step: the count and summed size of the packets
    addressed to the destination host including this one; their "average"
    divides the source host's received size by the destination's sent count.
   */
  lemma HostStepSent(s: HostState, rec: Record)
    requires HostInput(rec) && HostUpdate(s, rec).1.Ok?
    ensures var vs := HostUpdate(s, rec).1.value;
      var src, dst := rec.fields[Packet(IpSourceAddress)], rec.fields[Packet(IpDestinationAddress)];
      var size: Number := rec.fields[Packet(IpPacketSize)];
      var sent := Count(s.packetCountToHost, dst) + 1;
      && OutputSignature[3] == Host(HostSentPacketCount) && vs[3] == Int(sent)
      && OutputSignature[4] == Host(HostSumSentPacketSize) && vs[4] == Plus(NumberAt(s.packetSizeSumToHost, dst), size)
      && OutputSignature[5] == Host(HostAvgSentPacketSize)
      && vs[5] == Divide(Plus(NumberAt(s.packetSizeSumFromHost, src), size), sent)
  {
    HostUpdateAccept(s, rec);
    HostAcceptValues(s, rec);
  }

  /** The first packet from a host has zero inter-arrival times and duration, and starts its clock. */
  lemma HostStepFirstPacket(s: HostState, rec: Record)
    requires HostInput(rec) && rec.fields[Packet(IpSourceAddress)] !in s.firstTimestampFromHost
    ensures HostUpdate(s, rec).1.Ok?
    ensures var vs := HostUpdate(s, rec).1.value;
      var src, ts := rec.fields[Packet(IpSourceAddress)], rec.fields[Packet(Timestamp)].ns;
      var s' := HostUpdate(s, rec).0;
      && OutputSignature[6] == Host(HostLastInterArrivalTime) && vs[6] == Int(0)
      && OutputSignature[7] == Host(HostAvgInterArrivalTime) && vs[7] == Int(0)
      && OutputSignature[8] == Host(HostConnectionDuration) && vs[8] == Int(0)
      && s'.firstTimestampFromHost == s.firstTimestampFromHost[src := ts]
      && s'.lastTimestampFromHost == s.lastTimestampFromHost[src := ts]
  {
    HostUpdateAccept(s, rec);
    CountedCounts(s, rec, rec.fields[Packet(IpSourceAddress)]);
  }

  /**
    A later packet from a host: the last inter-arrival time is the gap to the
    host's previous packet, the duration is the time since its first packet,
    and the average inter-arrival time is that duration spread over the gaps
    between the host's packets so far.
   */
  lemma HostStepLaterPacket(s: HostState, rec: Record)
    requires Inv(s) && HostInput(rec) && rec.fields[Packet(IpSourceAddress)] in s.firstTimestampFromHost
    ensures HostUpdate(s, rec).1.Ok?
    ensures var vs := HostUpdate(s, rec).1.value;
      var src, ts := rec.fields[Packet(IpSourceAddress)], rec.fields[Packet(Timestamp)].ns;
      var gaps := Count(s.packetCountFromHost, src);
      && gaps >= 1
      && src in s.lastTimestampFromHost
      && OutputSignature[6] == Host(HostLastInterArrivalTime) && vs[6] == Int(ts - s.lastTimestampFromHost[src])
      && OutputSignature[7] == Host(HostAvgInterArrivalTime)
      && vs[7] == Ratio(ts - s.firstTimestampFromHost[src], gaps)
      && OutputSignature[8] == Host(HostConnectionDuration) && vs[8] == Int(ts - s.firstTimestampFromHost[src])
      && HostUpdate(s, rec).0.firstTimestampFromHost == s.firstTimestampFromHost
      && HostUpdate(s, rec).0.lastTimestampFromHost == s.lastTimestampFromHost[src := ts]
  {
    HostUpdateAccept(s, rec);
    CountedCounts(s, rec, rec.fields[Packet(IpSourceAddress)]);
  }

  /** One well-formed record adds itself to its source's and destination's counters. */
  lemma HostStepCounts(s: HostState, rec: Record, h: Value)
    requires HostInput(rec)
    ensures var s' := HostUpdate(s, rec).0;
      var src, dst := rec.fields[Packet(IpSourceAddress)], rec.fields[Packet(IpDestinationAddress)];
      var size: Number := rec.fields[Packet(IpPacketSize)];
      && Count(s'.packetCountFromHost, h) == Count(s.packetCountFromHost, h) + (if src == h then 1 else 0)
      && Count(s'.packetCountToHost, h) == Count(s.packetCountToHost, h) + (if dst == h then 1 else 0)
      && NumberAt(s'.packetSizeSumFromHost, h)
         == (if src == h then Plus(NumberAt(s.packetSizeSumFromHost, h), size) else NumberAt(s.packetSizeSumFromHost, h))
      && NumberAt(s'.packetSizeSumToHost, h)
         == (if dst == h then Plus(NumberAt(s.packetSizeSumToHost, h), size) else NumberAt(s.packetSizeSumToHost, h))
  {
    HostUpdateAccept(s, rec);
    CountedCounts(s, rec, h);
  }

  /**
    After a stream of well-formed records, each host's received count and
    size are those of the packets it sent, and its sent count and size those
    of the packets addressed to it (sizes by their numeric value, whether
    ints, bools or floats).
   */
  lemma {:induction false} HostRunCounts(s: HostState, recs: seq<Record>, h: Value)
    requires forall i :: 0 <= i < |recs| ==> HostInput(recs[i])
    ensures var s' := HostRun(s, recs);
      && Count(s'.packetCountFromHost, h) == Count(s.packetCountFromHost, h) + CountWhere(recs, Packet(IpSourceAddress), h)
      && Count(s'.packetCountToHost, h) == Count(s.packetCountToHost, h) + CountWhere(recs, Packet(IpDestinationAddress), h)
      && NumberValue(NumberAt(s'.packetSizeSumFromHost, h))
         == NumberValue(NumberAt(s.packetSizeSumFromHost, h)) + SizeWhere(recs, Packet(IpSourceAddress), h)
      && NumberValue(NumberAt(s'.packetSizeSumToHost, h))
         == NumberValue(NumberAt(s.packetSizeSumToHost, h)) + SizeWhere(recs, Packet(IpDestinationAddress), h)
    decreases |recs|
  {
    if recs != [] {
      assert HostInput(recs[0]);
      HostStepCounts(s, recs[0], h);
      HostRunCounts(HostUpdate(s, recs[0]).0, recs[1..], h);
    }
  }
}
