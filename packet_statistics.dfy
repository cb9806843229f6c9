/**
  The combined host and flow statistics kept over parsed packets: every valid
  packet is counted for its source host, its destination host and its flow,
  and turned into a fresh record holding its size, its flags and the host and
  flow features.
 */
module PacketStatistics {
  import opened Wrappers
  import opened FeatureKeys
  import opened Errors
  import opened Features
  import opened PacketLine
  import HostFeatures
  import FlowFeatures

  /** `PacketData.flow_identifier`: the five leading tokens of the packet's line. */
  type PacketFlow = (string, string, string, string, string)

  /** The packet features of the output, in the order they are written. */
  const PacketSignature: seq<FeatureKey> := [
    Packet(IpPacketSize),
    Packet(TcpCwrFlag),
    Packet(TcpEceFlag),
    Packet(TcpUrgFlag),
    Packet(TcpAckFlag),
    Packet(TcpPshFlag),
    Packet(TcpRstFlag),
    Packet(TcpSynFlag),
    Packet(TcpFinFlag)
  ]

  /**
    `signature()`: the keys of every record returned, in the order they are
    written: the packet's size and flags, then the host features and the
    flow features in the order the per-host and per-flow processors use.
   */
  const Signature: seq<FeatureKey> := PacketSignature + HostFeatures.OutputSignature + FlowFeatures.OutputSignature

  /**
    The statistics kept per key (a host address or a flow): packet count and
    size sum (defaultdicts reading 0), first timestamp (a plain dict), last
    timestamp (a defaultdict reading the epoch, 0 ns) and inter-arrival sum.
   */
  datatype Tally<K> = Tally(
    count: map<K, nat>,
    sizeSum: map<K, Number>,
    first: map<K, int>,
    last: map<K, int>,
    iatSum: map<K, int>)

  /** A tally with no key yet. */
  function EmptyTally<K>(): (t: Tally<K>)
    ensures t.count == map[] && t.first == map[] && t.last == map[]
  {
    Tally(map[], map[], map[], map[], map[])
  }

  /**
    The processor's two counters and ten dicts: the statistics by source host
    and by flow, and the count and size sum by destination host.
   */
  datatype PacketState = PacketState(
    overallPacketCounter: nat,
    validPacketCounter: nat,
    fromHost: Tally<string>,
    packetCountToHost: map<string, nat>,
    packetSizeSumToHost: map<string, Number>,
    byFlow: Tally<PacketFlow>)

  const InitialPacketState := PacketState(0, 0, EmptyTally(), map[], map[], EmptyTally())

  /**
    What the per-key statistics keep true between packets: a key with a last
    timestamp has a first one, a key with a first timestamp has been counted,
    and, because the second packet's gap is measured from the epoch, the
    key's summed inter-arrival times equal its last timestamp (0 while it
    has none).
   */
  ghost predicate TallyInv<K(!new)>(t: Tally<K>)
  {
    && (forall k :: k in t.last ==> k in t.first)
    && (forall k :: k in t.first ==> Count(t.count, k) >= 1)
    && (forall k :: k in t.last ==> Lookup(t.iatSum, k) == t.last[k])
    && (forall k :: k !in t.last ==> Lookup(t.iatSum, k) == 0)
  }

  /** What the processor keeps true between packets: no more valid packets than packets, and both tallies' invariant. */
  ghost predicate Inv(s: PacketState)
  {
    && s.validPacketCounter <= s.overallPacketCounter
    && TallyInv(s.fromHost)
    && TallyInv(s.byFlow)
  }

  /** One more packet of key k. */
  function Tick<K>(t: Tally<K>, k: K): (t': Tally<K>)
    ensures Count(t'.count, k) == Count(t.count, k) + 1
  {
    t.(count := t.count[k := Count(t.count, k) + 1])
  }

  /** The packet's size added to key k's sum by Python's `+`. */
  function AddSize<K>(t: Tally<K>, k: K, size: Number): Tally<K>
  {
    t.(sizeSum := t.sizeSum[k := Plus(NumberAt(t.sizeSum, k), size)])
  }

  /**
    The timing part of `process`, for the source host and for the flow alike: the first packet of a key
    records its first timestamp only; a later one adds the gap to the key's
    last timestamp (the epoch if none was recorded) to the key's sum,
    averages the sum over the count less one, and records its time as the
    key's last.
   */
  function TallyTiming<K>(t: Tally<K>, k: K, ts: int): (r: (Tally<K>, Result<Timing>))
    ensures r.0.count == t.count && r.0.sizeSum == t.sizeSum
  {
    if k !in t.first then
      (t.(first := t.first[k := ts]), Ok(Timing(0, Int(0), 0)))
    else
      var iat := ts - Lookup(t.last, k);
      var sum := Lookup(t.iatSum, k) + iat;
      var t1 := t.(iatSum := t.iatSum[k := sum]);
      var gaps := Count(t.count, k) - 1;
      if gaps == 0 then (t1, Err(ZeroDivisionError))
      else
        var t' := t1.(last := t1.last[k := ts]);
        (t', Ok(Timing(iat, Ratio(sum, gaps), ts - t.first[k])))
  }

  /** The `+= 1` on the valid counter and the three packet counts: one more valid packet, counted for its source host, destination host and flow. */
  function Counted(s: PacketState, p: PacketData): (s': PacketState)
    requires p.Valid?
  {
    s.(validPacketCounter := s.validPacketCounter + 1,
       fromHost := Tick(s.fromHost, p.sourceIp),
       packetCountToHost := s.packetCountToHost[p.destinationIp := Count(s.packetCountToHost, p.destinationIp) + 1],
       byFlow := Tick(s.byFlow, p.flowIdentifier))
  }

  /** The three `packet_size_sum_...[...] += p.ip_size`: the packet's size added to its source host's, destination host's and flow's sums. */
  function Summed(s: PacketState, p: PacketData, size: Number): (s': PacketState)
    requires p.Valid?
  {
    s.(fromHost := AddSize(s.fromHost, p.sourceIp, size),
       packetSizeSumToHost := s.packetSizeSumToHost[p.destinationIp := Plus(NumberAt(s.packetSizeSumToHost, p.destinationIp), size)],
       byFlow := AddSize(s.byFlow, p.flowIdentifier, size))
  }

  /** The packet entries of the returned dict: the packet's own value written under a packet feature; only the size and the flags are written. */
  function PacketValue(p: PacketData, f: PacketFeature): Value
    requires p.Valid?
  {
    match f
    case IpPacketSize => p.ipSize
    case TcpCwrFlag => p.flagCwr
    case TcpEceFlag => p.flagEce
    case TcpUrgFlag => p.flagUrg
    case TcpAckFlag => p.flagAck
    case TcpPshFlag => p.flagPsh
    case TcpRstFlag => p.flagRst
    case TcpSynFlag => p.flagSyn
    case TcpFinFlag => p.flagFin
    case _ => Int(0)
  }

  /**
    The packet's source host, destination host and flow have been counted,
    as `process` does before any average is taken, so no average divides by
    zero.
   */
  predicate CountsPacket(s: PacketState, p: PacketData)
    requires p.Valid?
  {
    && Count(s.fromHost.count, p.sourceIp) >= 1
    && Count(s.packetCountToHost, p.destinationIp) >= 1
    && Count(s.byFlow.count, p.flowIdentifier) >= 1
  }

  /**
    The host entries of the returned dict: the host features, read from the state after the packet
    is counted and from the source host's timing. The averages are float
    divisions; the average sent size divides the source host's size sum by
    the destination host's count.
   */
  function HostValue(s: PacketState, p: PacketData, host: Timing, f: HostFeature): Value
    requires p.Valid? && CountsPacket(s, p)
  {
    var src, dst := p.sourceIp, p.destinationIp;
    match f
    case HostReceivedPacketCount => Int(Count(s.fromHost.count, src))
    case HostSumReceivedPacketSize => NumberAt(s.fromHost.sizeSum, src)
    case HostAvgReceivedPacketSize => Divide(NumberAt(s.fromHost.sizeSum, src), Count(s.fromHost.count, src))
    case HostSentPacketCount => Int(Count(s.packetCountToHost, dst))
    case HostSumSentPacketSize => NumberAt(s.packetSizeSumToHost, dst)
    case HostAvgSentPacketSize => Divide(NumberAt(s.fromHost.sizeSum, src), Count(s.packetCountToHost, dst))
    case HostLastInterArrivalTime => Int(host.lastIat)
    case HostAvgInterArrivalTime => host.avgIat
    case HostConnectionDuration => Int(host.duration)
  }

  /** The flow entries of the returned dict: the flow features, read from the state after the packet is counted and from the flow's timing; no window feature is written. */
  function FlowValue(s: PacketState, p: PacketData, flow: Timing, f: FlowFeature): Value
    requires p.Valid? && CountsPacket(s, p)
  {
    var id := p.flowIdentifier;
    match f
    case FlowReceivedPacketCount => Int(Count(s.byFlow.count, id))
    case FlowSumPacketSize => NumberAt(s.byFlow.sizeSum, id)
    case FlowAvgPacketSize => Divide(NumberAt(s.byFlow.sizeSum, id), Count(s.byFlow.count, id))
    case FlowLastInterArrivalTime => Int(flow.lastIat)
    case FlowAvgInterArrivalTime => flow.avgIat
    case FlowConnectionDuration => Int(flow.duration)
    case _ => Int(0)
  }

  /** The value written under key k. */
  function FieldValue(s: PacketState, p: PacketData, host: Timing, flow: Timing, k: FeatureKey): Value
    requires p.Valid? && CountsPacket(s, p)
  {
    match k
    case Packet(f) => PacketValue(p, f)
    case Host(f) => HostValue(s, p, host, f)
    case Flow(f) => FlowValue(s, p, flow, f)
    case Prediction(_) => Int(0)
  }

  /** The dict `process` returns: the fresh dict holding the signature's keys, in that order, each with its value. */
  function OutputRecord(s: PacketState, p: PacketData, host: Timing, flow: Timing): (r: Record)
    requires p.Valid? && CountsPacket(s, p)
    ensures r.order == Signature && r.Valid()
    ensures forall k :: r.Get(k) == if k in Signature then Ok(FieldValue(s, p, host, flow, k)) else Err(MissingKey(k))
  {
    SignatureDistinct();
    Record(Signature, map k | k in Signature :: FieldValue(s, p, host, flow, k))
  }

  /**
    `process` on one parsed packet: the state afterwards and the record
    returned (None for an invalid packet) or the exception raised. A call
    that raises keeps the updates made before the failing line.
   */
  function PacketStep(s: PacketState, p: PacketData): (PacketState, Result<Option<Record>>)
  {
    if p.Valid? && IsNumber(p.ipSize) then PacketAccept(s, p) else PacketReject(s, p)
  }

  /**
    `process` on an invalid packet, which returns None, or on a valid one
    whose size `+=` cannot add to a numeric sum, which raises TypeError once
    the packet is counted.
   */
  function PacketReject(s: PacketState, p: PacketData): (PacketState, Result<Option<Record>>)
    requires !(p.Valid? && IsNumber(p.ipSize))
  {
    var s1 := s.(overallPacketCounter := s.overallPacketCounter + 1);
    if !p.IsValid() then (s1, Ok(None)) else (Counted(s1, p), Err(TypeError))
  }

  /** The counting part of `process` on a valid packet with a numeric size: the packet counted and its size added everywhere. */
  function Tallied(s: PacketState, p: PacketData): PacketState
    requires p.Valid? && IsNumber(p.ipSize)
  {
    Summed(Counted(s.(overallPacketCounter := s.overallPacketCounter + 1), p), p, p.ipSize)
  }

  /**
    The timing parts of `process`: the source host's, then the flow's; the state
    afterwards and both timings, or the exception raised.
   */
  function Timed(s: PacketState, p: PacketData): (r: (PacketState, Result<(Timing, Timing)>))
    requires p.Valid?
    ensures r.0.overallPacketCounter == s.overallPacketCounter && r.0.validPacketCounter == s.validPacketCounter
    ensures r.0.fromHost.count == s.fromHost.count && r.0.fromHost.sizeSum == s.fromHost.sizeSum
    ensures r.0.packetCountToHost == s.packetCountToHost && r.0.packetSizeSumToHost == s.packetSizeSumToHost
    ensures r.0.byFlow.count == s.byFlow.count && r.0.byFlow.sizeSum == s.byFlow.sizeSum
  {
    var (host, ht) := TallyTiming(s.fromHost, p.sourceIp, p.timestamp);
    var s1 := s.(fromHost := host);
    if ht.Err? then (s1, Err(ht.error))
    else
      var (flow, ft) := TallyTiming(s1.byFlow, p.flowIdentifier, p.timestamp);
      var s2 := s1.(byFlow := flow);
      if ft.Err? then (s2, Err(ft.error)) else (s2, Ok((ht.value, ft.value)))
  }

  /** `process` on a valid packet with a numeric size: the counting, the timing parts, and the record built. */
  function PacketAccept(s: PacketState, p: PacketData): (PacketState, Result<Option<Record>>)
    requires p.Valid? && IsNumber(p.ipSize)
  {
    var (s', r) := Timed(Tallied(s, p), p);
    if r.Err? then (s', Err(r.error))
    else (s', Ok(Some(OutputRecord(s', p, r.value.0, r.value.1))))
  }

  /** `process` over a stream of packets: the state afterwards, the value returned for each packet, and the exception that stopped the stream, if any. */
  function PacketRun(s: PacketState, ps: seq<PacketData>): (r: (PacketState, seq<Option<Record>>, Option<Error>))
    ensures |r.1| <= |ps|
    decreases |ps|
  {
    if ps == [] then (s, [], None)
    else
      var (s1, r1) := PacketStep(s, ps[0]);
      if r1.Err? then (s1, [], Some(r1.error))
      else
        var (s', outs, e) := PacketRun(s1, ps[1..]);
        (s', [r1.value] + outs, e)
  }

  /** The number of valid packets in ps. */
  function ValidCount(ps: seq<PacketData>): nat
  {
    if ps == [] then 0 else (if ps[0].Valid? then 1 else 0) + ValidCount(ps[1..])
  }

  /** A packet whose size `+=` can add to a numeric sum. */
  predicate Summable(p: PacketData)
  {
    p.Valid? ==> IsNumber(p.ipSize)
  }

  /** What one key looks like through the dicts' reads: counters and sums default to 0, the last timestamp to the epoch. */
  datatype KeyView = KeyView(count: nat, sizeSum: Number, first: Option<int>, last: int, iatSum: int)

  function ViewOf<K>(t: Tally<K>, k: K): KeyView
  {
    KeyView(Count(t.count, k), NumberAt(t.sizeSum, k), if k in t.first then Some(t.first[k]) else None,
            Lookup(t.last, k), Lookup(t.iatSum, k))
  }

  /** A valid packet with a numeric size takes the accepting path. */
  lemma PacketStepAccept(s: PacketState, p: PacketData)
    requires p.Valid? && IsNumber(p.ipSize)
    ensures PacketStep(s, p) == PacketAccept(s, p)
  {
  }

  /** Any other packet takes the rejecting path. */
  lemma PacketStepReject(s: PacketState, p: PacketData)
    requires !(p.Valid? && IsNumber(p.ipSize))
    ensures PacketStep(s, p) == PacketReject(s, p)
  {
  }

  /** The initial state keeps the invariant. */
  lemma InitialPacketStateInv()
    ensures Inv(InitialPacketState)
  {
  }

  /** Counting a packet keeps a tally's invariant. */
  lemma TickInv<K(!new)>(t: Tally<K>, k: K)
    requires TallyInv(t)
    ensures TallyInv(Tick(t, k))
  {
  }

  /** Counting a packet and adding its size keep a tally's invariant. */
  lemma TickAddSizeInv<K(!new)>(t: Tally<K>, k: K, size: Number)
    requires TallyInv(t)
    ensures TallyInv(AddSize(Tick(t, k), k, size))
  {
  }

  /**
    The timing part keeps a tally's invariant, and never raises, when the
    key's count already includes this packet.
   */
  lemma TallyTimingInv<K(!new)>(t: Tally<K>, k: K, ts: int)
    requires TallyInv(t) && Count(t.count, k) >= 1
    requires k in t.first ==> Count(t.count, k) >= 2
    ensures TallyInv(TallyTiming(t, k, ts).0)
    ensures TallyTiming(t, k, ts).1.Ok?
  {
  }

  /**
    The first packet of a key gets zero inter-arrival times and duration and
    records its first timestamp; its last timestamp stays unset.
   */
  lemma TallyTimingFirst<K>(t: Tally<K>, k: K, ts: int)
    requires k !in t.first
    ensures TallyTiming(t, k, ts) == (t.(first := t.first[k := ts]), Ok(Timing(0, Int(0), 0)))
  {
  }

  /**
    A later packet of a key, its count including it: the gap is measured
    from the key's last timestamp, which is the epoch for the key's second
    packet; the summed gaps telescope to the packet's own time, averaged over
    the count less one; the duration runs from the key's first timestamp.
   */
  lemma TallyTimingLater<K(!new)>(t: Tally<K>, k: K, ts: int)
    requires TallyInv(t) && k in t.first && Count(t.count, k) >= 2
    ensures var (t', r) := TallyTiming(t, k, ts);
      && r == Ok(Timing(ts - Lookup(t.last, k), Ratio(ts, Count(t.count, k) - 1), ts - t.first[k]))
      && t'.first == t.first && t'.last == t.last[k := ts]
      && Lookup(t'.iatSum, k) == ts
  {
  }

  /** The timing part changes nothing for any other key. */
  lemma TallyTimingOtherKeys<K>(t: Tally<K>, k: K, ts: int, j: K)
    requires j != k
    ensures ViewOf(TallyTiming(t, k, ts).0, j) == ViewOf(t, j)
  {
  }

  /** Every call keeps the invariant, whether it returns or raises. */
  lemma PacketStepInv(s: PacketState, p: PacketData)
    requires Inv(s)
    ensures Inv(PacketStep(s, p).0)
  {
    if p.Valid? && IsNumber(p.ipSize) {
      PacketStepAccept(s, p);
      TalliedTimed(s, p);
    } else if p.Valid? {
      PacketStepReject(s, p);
      TickInv(s.fromHost, p.sourceIp);
      TickInv(s.byFlow, p.flowIdentifier);
    }
  }


  /**
    Every call raises the overall counter by one; only a valid packet raises
    the valid counter, also by one.
   */
  lemma PacketStepCounters(s: PacketState, p: PacketData)
    ensures PacketStep(s, p).0.overallPacketCounter == s.overallPacketCounter + 1
    ensures PacketStep(s, p).0.validPacketCounter == s.validPacketCounter + (if p.Valid? then 1 else 0)
  {
    if p.Valid? && IsNumber(p.ipSize) {
      PacketStepAccept(s, p);
    }
  }

  /** An invalid packet returns None and changes nothing but the overall counter. */
  lemma PacketStepInvalid(s: PacketState, p: PacketData)
    requires !p.IsValid()
    ensures PacketStep(s, p) == (s.(overallPacketCounter := s.overallPacketCounter + 1), Ok(None))
  {
  }

  /**
    Once the invariant holds, a call raises only for a valid packet whose
    size is not a number, and then raises TypeError; otherwise it returns a
    record exactly for a valid packet.
   */
  lemma PacketStepFailsOnlyOnSize(s: PacketState, p: PacketData)
    requires Inv(s)
    ensures var r := PacketStep(s, p).1;
      && (r.Err? <==> !Summable(p))
      && (r.Err? ==> r.error == TypeError)
      && (r.Ok? ==> (r.value.Some? <==> p.Valid?))
  {
    if p.Valid? && IsNumber(p.ipSize) {
      PacketStepAccept(s, p);
      TalliedTimed(s, p);
    } else {
      PacketStepReject(s, p);
    }
  }


  /**
    The timing a packet of key k gets, in closed form over the tally before
    the packet is counted: zeros for the key's first packet; otherwise the
    gap to the key's last timestamp (the epoch for its second packet), the
    packet's own time averaged over the gaps so far, and the time since the
    key's first packet.
   */
  function ExpectedTiming<K>(t: Tally<K>, k: K, ts: int): Timing
  {
    if k !in t.first then Timing(0, Int(0), 0)
    else Timing(ts - Lookup(t.last, k), Ratio(ts, Count(t.count, k)), ts - t.first[k])
  }

  /** After the packet is counted and its size added, the timing part yields the closed form. */
  lemma TallyTimingExpected<K(!new)>(t: Tally<K>, k: K, ts: int, size: Number)
    requires TallyInv(t)
    ensures TallyTiming(AddSize(Tick(t, k), k, size), k, ts).1 == Ok(ExpectedTiming(t, k, ts))
  {
    var t1 := AddSize(Tick(t, k), k, size);
    if k in t.first {
      TickAddSizeInv(t, k, size);
      TallyTimingLater(t1, k, ts);
    }
  }

  /** Counting a valid packet: one more packet and its size for its source host, its destination host and its flow, and no change for any other. */
  lemma TalliedCounts(s: PacketState, p: PacketData, h: string, f: PacketFlow)
    requires p.Valid? && IsNumber(p.ipSize)
    ensures var t := Tallied(s, p);
      var src, dst, id, size: Number := p.sourceIp, p.destinationIp, p.flowIdentifier, p.ipSize;
      && Count(t.fromHost.count, h) == Count(s.fromHost.count, h) + (if h == src then 1 else 0)
      && NumberAt(t.fromHost.sizeSum, h)
         == (if h == src then Plus(NumberAt(s.fromHost.sizeSum, h), size) else NumberAt(s.fromHost.sizeSum, h))
      && Count(t.packetCountToHost, h) == Count(s.packetCountToHost, h) + (if h == dst then 1 else 0)
      && NumberAt(t.packetSizeSumToHost, h)
         == (if h == dst then Plus(NumberAt(s.packetSizeSumToHost, h), size) else NumberAt(s.packetSizeSumToHost, h))
      && Count(t.byFlow.count, f) == Count(s.byFlow.count, f) + (if f == id then 1 else 0)
      && NumberAt(t.byFlow.sizeSum, f)
         == (if f == id then Plus(NumberAt(s.byFlow.sizeSum, f), size) else NumberAt(s.byFlow.sizeSum, f))
  {
  }

  /**
    Once a valid packet is counted, both timing parts keep the invariant,
    never raise, and yield the closed-form timings of its source host and
    its flow.
   */
  lemma TalliedTimed(s: PacketState, p: PacketData)
    requires Inv(s) && p.Valid? && IsNumber(p.ipSize)
    ensures var (s', r) := Timed(Tallied(s, p), p);
      && Inv(s')
      && r == Ok((ExpectedTiming(s.fromHost, p.sourceIp, p.timestamp),
                  ExpectedTiming(s.byFlow, p.flowIdentifier, p.timestamp)))
  {
    var t := Tallied(s, p);
    var size: Number := p.ipSize;
    assert t.fromHost == AddSize(Tick(s.fromHost, p.sourceIp), p.sourceIp, size);
    assert t.byFlow == AddSize(Tick(s.byFlow, p.flowIdentifier), p.flowIdentifier, size);
    TickAddSizeInv(s.fromHost, p.sourceIp, size);
    TickAddSizeInv(s.byFlow, p.flowIdentifier, size);
    TallyTimingExpected(s.fromHost, p.sourceIp, p.timestamp, size);
    TallyTimingExpected(s.byFlow, p.flowIdentifier, p.timestamp, size);
    TallyTimingInv(t.fromHost, p.sourceIp, p.timestamp);
    TallyTimingInv(t.byFlow, p.flowIdentifier, p.timestamp);
  }


  /**
    The value written under key k for a valid packet with a numeric size:
    read from the state after counting, with the closed-form timings of its
    source host and its flow.
   */
  function Written(s: PacketState, p: PacketData, k: FeatureKey): Value
    requires p.Valid? && IsNumber(p.ipSize)
  {
    FieldValue(Timed(Tallied(s, p), p).0, p, ExpectedTiming(s.fromHost, p.sourceIp, p.timestamp),
               ExpectedTiming(s.byFlow, p.flowIdentifier, p.timestamp), k)
  }

  /**
    A valid packet with a numeric size returns a fresh record holding
    exactly the keys of `signature()`, in that order, each with its written
    value; the packet's parsed addresses, ports and timestamp are not part
    of it.
   */
  lemma PacketStepRecord(s: PacketState, p: PacketData)
    requires Inv(s) && p.Valid? && IsNumber(p.ipSize)
    ensures PacketStep(s, p).1.Ok? && PacketStep(s, p).1.value.Some?
    ensures var out := PacketStep(s, p).1.value.value;
      && out.order == Signature && out.Valid()
      && forall k :: out.Get(k) == if k in Signature then Ok(Written(s, p, k)) else Err(MissingKey(k))
  {
    PacketStepAccept(s, p);
    TalliedTimed(s, p);
  }


  /** The source host's received count, size sum and average written include this packet. */
  lemma WrittenReceived(s: PacketState, p: PacketData)
    requires p.Valid? && IsNumber(p.ipSize)
    ensures var src := p.sourceIp;
      var received, receivedSize := Count(s.fromHost.count, src) + 1, Plus(NumberAt(s.fromHost.sizeSum, src), p.ipSize);
      && Written(s, p, Host(HostReceivedPacketCount)) == Int(received)
      && Written(s, p, Host(HostSumReceivedPacketSize)) == receivedSize
      && Written(s, p, Host(HostAvgReceivedPacketSize)) == Divide(receivedSize, received)
      && NumberValue(Written(s, p, Host(HostAvgReceivedPacketSize))) == NumberValue(receivedSize) / (received as real)
  {
    TalliedCounts(s, p, p.sourceIp, p.flowIdentifier);
  }

  /**
    The destination host's sent count and size sum written include this
    packet; the average sent size divides the source host's size sum by the
    destination host's count.
   */
  lemma WrittenSent(s: PacketState, p: PacketData)
    requires p.Valid? && IsNumber(p.ipSize)
    ensures var src, dst := p.sourceIp, p.destinationIp;
      var sent, sentSize := Count(s.packetCountToHost, dst) + 1, Plus(NumberAt(s.packetSizeSumToHost, dst), p.ipSize);
      && Written(s, p, Host(HostSentPacketCount)) == Int(sent)
      && Written(s, p, Host(HostSumSentPacketSize)) == sentSize
      && Written(s, p, Host(HostAvgSentPacketSize)) == Divide(Plus(NumberAt(s.fromHost.sizeSum, src), p.ipSize), sent)
  {
    TalliedCounts(s, p, p.sourceIp, p.flowIdentifier);
    TalliedCounts(s, p, p.destinationIp, p.flowIdentifier);
  }

  /** The flow count, size sum and average written include this packet. */
  lemma WrittenFlowSizes(s: PacketState, p: PacketData)
    requires p.Valid? && IsNumber(p.ipSize)
    ensures var id := p.flowIdentifier;
      var count, sizeSum := Count(s.byFlow.count, id) + 1, Plus(NumberAt(s.byFlow.sizeSum, id), p.ipSize);
      && Written(s, p, Flow(FlowReceivedPacketCount)) == Int(count)
      && Written(s, p, Flow(FlowSumPacketSize)) == sizeSum
      && Written(s, p, Flow(FlowAvgPacketSize)) == Divide(sizeSum, count)
      && NumberValue(Written(s, p, Flow(FlowAvgPacketSize))) == NumberValue(sizeSum) / (count as real)
  {
    TalliedCounts(s, p, p.sourceIp, p.flowIdentifier);
  }


  /**
    The second packet of a key never seen before: its gap is measured from
    the epoch rather than from the first packet, so the gap written is the
    packet's own timestamp, as is its average; only the duration runs from
    the first packet.
   */
  lemma SecondPacketFromEpoch<K(!new)>(t: Tally<K>, k: K, t1: int, size1: Number, t2: int)
    requires TallyInv(t) && k !in t.first && Count(t.count, k) == 0
    ensures var t' := TallyTiming(AddSize(Tick(t, k), k, size1), k, t1).0;
      ExpectedTiming(t', k, t2) == Timing(t2, Ratio(t2, 1), t2 - t1)
  {
    TallyTimingFirst(AddSize(Tick(t, k), k, size1), k, t1);
  }

  /**
    A packet leaves every other host's and every other flow's counts, sums
    and timestamps as they were.
   */
  lemma PacketStepOtherKeys(s: PacketState, p: PacketData, h: string, f: PacketFlow)
    requires p.Valid? && h != p.sourceIp && h != p.destinationIp && f != p.flowIdentifier
    ensures var s' := PacketStep(s, p).0;
      && ViewOf(s'.fromHost, h) == ViewOf(s.fromHost, h)
      && Count(s'.packetCountToHost, h) == Count(s.packetCountToHost, h)
      && NumberAt(s'.packetSizeSumToHost, h) == NumberAt(s.packetSizeSumToHost, h)
      && ViewOf(s'.byFlow, f) == ViewOf(s.byFlow, f)
  {
    if IsNumber(p.ipSize) {
      PacketStepAccept(s, p);
      var t := Tallied(s, p);
      TalliedCounts(s, p, h, f);
      TallyTimingOtherKeys(t.fromHost, p.sourceIp, p.timestamp, h);
      TallyTimingOtherKeys(t.byFlow, p.flowIdentifier, p.timestamp, f);
    } else {
      PacketStepReject(s, p);
    }
  }

  /**
    `process` over a stream in which every valid packet has a numeric size:
    nothing raises, one value is returned per packet, a record exactly for
    the valid ones, and the counters advance by the packets seen and the
    valid packets seen.
   */
  lemma {:induction false} PacketRunCounts(s: PacketState, ps: seq<PacketData>)
    requires Inv(s) && forall i :: 0 <= i < |ps| ==> Summable(ps[i])
    ensures var (s', outs, e) := PacketRun(s, ps);
      && e == None && |outs| == |ps| && Inv(s')
      && (forall i :: 0 <= i < |ps| ==> (outs[i].Some? <==> ps[i].Valid?))
      && s'.overallPacketCounter == s.overallPacketCounter + |ps|
      && s'.validPacketCounter == s.validPacketCounter + ValidCount(ps)
    decreases |ps|
  {
    if ps != [] {
      PacketStepInv(s, ps[0]);
      PacketStepCounters(s, ps[0]);
      PacketStepFailsOnlyOnSize(s, ps[0]);
      var (s1, r1) := PacketStep(s, ps[0]);
      PacketRunCounts(s1, ps[1..]);
      var (s', outs, e) := PacketRun(s1, ps[1..]);
      assert PacketRun(s, ps) == (s', [r1.value] + outs, e);
      forall i | 0 <= i < |ps| ensures (([r1.value] + outs)[i].Some? <==> ps[i].Valid?) {
        if i > 0 {
          assert ps[i] == ps[1..][i - 1];
        }
      }
    }
  }

  /**
    A stream stops only at a valid packet whose size is not a number, and
    then with TypeError, after every packet before it returned.
   */
  lemma {:induction false} PacketRunStops(s: PacketState, ps: seq<PacketData>)
    requires Inv(s)
    ensures var (_, outs, e) := PacketRun(s, ps);
      e.Some? ==> (&& e == Some(TypeError) && |outs| < |ps| && !Summable(ps[|outs|])
                   && forall i :: 0 <= i < |outs| ==> Summable(ps[i]))
    decreases |ps|
  {
    if ps != [] {
      PacketStepInv(s, ps[0]);
      PacketStepFailsOnlyOnSize(s, ps[0]);
      var (s1, r1) := PacketStep(s, ps[0]);
      if r1.Ok? {
        PacketRunStops(s1, ps[1..]);
        var (s', outs, e) := PacketRun(s1, ps[1..]);
        assert PacketRun(s, ps) == (s', [r1.value] + outs, e);
        if e.Some? {
          assert ps[1 + |outs|] == ps[1..][|outs|];
          forall i | 0 <= i < 1 + |outs| ensures Summable(ps[i]) {
            if i > 0 {
              assert ps[i] == ps[1..][i - 1];
            }
          }
        }
      }
    }
  }

  /** No key appears twice in a sequence of keys of one kind. */
  lemma PacketSignatureDistinct()
    ensures Distinct(PacketSignature)
  {
  }

  /** Keys of different kinds never collide, so joining distinct signatures keeps them distinct. */
  lemma DistinctJoin(a: seq<FeatureKey>, b: seq<FeatureKey>)
    requires Distinct(a) && Distinct(b)
    requires forall i, j :: 0 <= i < |a| && 0 <= j < |b| ==> a[i] != b[j]
    ensures Distinct(a + b)
  {
  }

  /**
    `signature()` names every key once: the packet's size and flags, then the
    host features and the flow features, each in the order the per-host and
    per-flow processors write them.
   */
  lemma SignatureDistinct()
    ensures Distinct(Signature)
  {
    PacketSignatureDistinct();
    HostFeatures.HostSignatureDistinct();
    FlowFeatures.FlowSignatureDistinct();
    var h, f := HostFeatures.OutputSignature, FlowFeatures.OutputSignature;
    assert forall i :: 0 <= i < |PacketSignature| ==> PacketSignature[i].Packet?;
    assert forall i :: 0 <= i < |h| ==> h[i].Host?;
    assert forall i :: 0 <= i < |f| ==> f[i].Flow?;
    DistinctJoin(PacketSignature, h);
    var ph := PacketSignature + h;
    assert forall i :: 0 <= i < |ph| ==> !ph[i].Flow?;
    DistinctJoin(ph, f);
  }
}
