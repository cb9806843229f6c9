/**
  Per-flow hard windows over a packet stream. Each flow's window is opened by
  its first packet; a later packet that arrives more than the window size
  after the window's start closes it: that packet is passed on carrying the
  closing window's statistics and starts the next window. Every other packet
  is absorbed into its flow's window and not passed on.
 */
module WindowFlowFeatures {
  import opened Wrappers
  import opened FeatureKeys
  import opened Errors
  import opened Features

  /** The keys written into a passed-on record, in the order they are written. */
  const OutputSignature: seq<FeatureKey> := [
    Flow(FlowWindowAvgPacketSize),
    Flow(FlowWindowAvgInterArrivalTime),
    Flow(FlowWindowReceivedPacketCount),
    Flow(FlowWindowSumPacketSize)
  ]

  /** The keys the processor declares it needs. */
  const InputSignature: seq<FeatureKey> := [
    Packet(IpPacketSize),
    Packet(IpSourceAddress),
    Packet(IpDestinationAddress),
    Packet(IpSourcePort),
    Packet(IpDestinationPort),
    Packet(Protocol),
    Packet(Timestamp)
  ]

  /** `Timedelta(window_size_ms, unit="milliseconds")`: the window size, given in milliseconds, as a duration in nanoseconds. */
  function WindowSizeNs(windowSizeMs: int): (w: int)
    ensures windowSizeMs >= 0 ==> w >= 0
    ensures windowSizeMs > 0 ==> w >= 1_000_000
  {
    windowSizeMs * 1_000_000
  }

  /**
    The processor's flow-keyed dicts, all defaultdicts: counters and sums read
    0 when absent, timestamps the epoch (0 ns). Times are in nanoseconds. A
    window's size sum holds whatever value the packet sizes made of it: the
    closing packet's size is stored as it is, and later sizes are added with
    `+=`.
   */
  datatype WindowState = WindowState(
    windowPacketCount: map<FlowIdentifier, nat>,
    windowPacketSizeSum: map<FlowIdentifier, Value>,
    firstTimestampAfterYield: map<FlowIdentifier, int>,
    lastTimestamp: map<FlowIdentifier, int>,
    windowSumInterArrivalTimes: map<FlowIdentifier, int>)

  const InitialWindowState := WindowState(map[], map[], map[], map[], map[])

  /**
    What the processor keeps true between packets when the window size is
    not negative: a flow whose window is open has at least one packet in it,
    and a flow not seen yet has nothing recorded.
   */
  ghost predicate Inv(s: WindowState)
  {
    && (forall f :: f in s.firstTimestampAfterYield ==> Count(s.windowPacketCount, f) >= 1)
    && (forall f :: f !in s.firstTimestampAfterYield ==>
          && Count(s.windowPacketCount, f) == 0
          && ValueAt(s.windowPacketSizeSum, f) == Int(0)
          && Lookup(s.windowSumInterArrivalTimes, f) == 0
          && f !in s.lastTimestamp)
  }

  /** A record carrying what `process` reads before the window comparison: the five flow keys and a timestamp. */
  predicate WindowInput(rec: Record)
  {
    && FlowIdentifierOf(rec).Ok?
    && Packet(Timestamp) in rec.fields && rec.fields[Packet(Timestamp)].Time?
  }

  /** A record carrying all the loop body reads, its size a number (a bool, int or float). */
  predicate NumericInput(rec: Record)
  {
    && WindowInput(rec)
    && Packet(IpPacketSize) in rec.fields && IsNumber(rec.fields[Packet(IpPacketSize)])
  }

  /** Every window's size sum is a number. */
  ghost predicate NumericSums(s: WindowState)
  {
    forall f :: f in s.windowPacketSizeSum ==> IsNumber(s.windowPacketSizeSum[f])
  }

  /** The test `timestamp - first_timestamp_after_yield[flow_id] > window_size`: the record arrives strictly more than w after the start of its flow's open window. */
  predicate Closes(s: WindowState, w: int, rec: Record)
    requires WindowInput(rec)
  {
    var id := FlowIdentifierOf(rec).value;
    id in s.firstTimestampAfterYield && rec.fields[Packet(Timestamp)].ns - s.firstTimestampAfterYield[id] > w
  }

  /** The four values written on closing a window of count packets, in signature order; the averages are float divisions. */
  function WindowValues(count: nat, sizeSum: Value, iatSum: int): (vs: seq<Value>)
    requires count >= 1 && IsNumber(sizeSum)
    ensures |vs| == |OutputSignature|
  {
    [Divide(sizeSum, count), Ratio(iatSum, count), Int(count), sizeSum]
  }

  /** `first_timestamp_after_yield[flow_id] = timestamp` for a new flow: a flow seen for the first time opens its window at the packet's time. */
  function Opened(s: WindowState, id: FlowIdentifier, ts: int): (s': WindowState)
    ensures id in s'.firstTimestampAfterYield
  {
    if id in s.firstTimestampAfterYield then s
    else s.(firstTimestampAfterYield := s.firstTimestampAfterYield[id := ts])
  }

  /**
    The closing branch's resets: after passing a packet on (its flow's count already written
    back to 1), the flow's window restarts with that packet alone: its size,
    the gap to the flow's last packet, and its time as the window's start and
    last time.
   */
  function Reset(s: WindowState, id: FlowIdentifier, ts: int, size: Value): WindowState
  {
    s.(windowPacketSizeSum := s.windowPacketSizeSum[id := size],
       windowSumInterArrivalTimes := s.windowSumInterArrivalTimes[id := ts - Lookup(s.lastTimestamp, id)],
       lastTimestamp := s.lastTimestamp[id := ts],
       firstTimestampAfterYield := s.firstTimestampAfterYield[id := ts])
  }

  /**
    The absorbing branch: an absorbed packet (its flow's count already raised and its
    size already added into sizeSum) joins its flow's window: the new size
    sum, the gap to the flow's last packet (from the epoch for the flow's
    first packet), and its time as the last.
   */
  function Absorb(s: WindowState, id: FlowIdentifier, ts: int, sizeSum: Value): WindowState
  {
    s.(windowPacketSizeSum := s.windowPacketSizeSum[id := sizeSum],
       windowSumInterArrivalTimes :=
         s.windowSumInterArrivalTimes[id := Lookup(s.windowSumInterArrivalTimes, id) + (ts - Lookup(s.lastTimestamp, id))],
       lastTimestamp := s.lastTimestamp[id := ts])
  }

  /**
    The loop body on one record, for a window of w nanoseconds: the state
    afterwards and the record passed on (None when it is absorbed) or the
    exception raised. A body that raises keeps the updates made before the
    failing line.
   */
  function WindowStep(s: WindowState, w: int, rec: Record): (WindowState, Result<Option<Record>>)
  {
    if WindowInput(rec) then WindowAccept(s, w, rec)
    else
      var (s', e) := WindowReject(s, w, rec);
      (s', Err(e))
  }

  /**
    The loop body of `process` on a record holding the flow keys and a timestamp: open the
    flow's window if needed, then either close it, passing the record on with
    the closing window's statistics and storing its size as the next
    window's sum, or absorb the record, adding its size with `+=`. A line
    that raises keeps the updates made before it: dividing a size sum that
    is not a number, or by a count of zero (the window average); a missing
    size, read after the count is written; a size `+=` cannot add.
   */
  function WindowAccept(s: WindowState, w: int, rec: Record): (r: (WindowState, Result<Option<Record>>))
    requires WindowInput(rec)
  {
    var id, ts := FlowIdentifierOf(rec).value, rec.fields[Packet(Timestamp)].ns;
    var s1 := Opened(s, id, ts);
    var s2 := Bumped(s, w, id, ts);
    if ts - s1.firstTimestampAfterYield[id] > w then
      var count, sizeSum := Count(s1.windowPacketCount, id), ValueAt(s1.windowPacketSizeSum, id);
      var avg := PyDivide(sizeSum, count);
      if avg.Err? then (s1, Err(avg.error))
      else
        var vs := WindowValues(count, sizeSum, Lookup(s1.windowSumInterArrivalTimes, id));
        if Packet(IpPacketSize) !in rec.fields then (s2, Err(MissingKey(Packet(IpPacketSize))))
        else (Reset(s2, id, ts, rec.fields[Packet(IpPacketSize)]), Ok(Some(SetAll(rec, OutputSignature, vs))))
    else if Packet(IpPacketSize) !in rec.fields then (s2, Err(MissingKey(Packet(IpPacketSize))))
    else
      var sizeSum := InPlaceAdd(ValueAt(s2.windowPacketSizeSum, id), rec.fields[Packet(IpPacketSize)]);
      if sizeSum.Err? then (s2, Err(sizeSum.error))
      else (Absorb(s2, id, ts, sizeSum.value), Ok(None))
  }

  /**
    The loop body on a record lacking one of those: the exception raised at the
    first missing key or at a timestamp that is not a Timestamp, with the
    state unchanged.
   */
  function WindowReject(s: WindowState, w: int, rec: Record): (r: (WindowState, Error))
    requires !WindowInput(rec)
  {
    var idR := FlowIdentifierOf(rec);
    if idR.Err? then (s, idR.error)
    else if Packet(Timestamp) !in rec.fields then (s, MissingKey(Packet(Timestamp)))
    else (s, TypeError)
  }

  /**
    Opening the window and writing the count: the flow's window opened if needed and its
    packet count written, 1 when the window closes and one more otherwise,
    as it stands when the size is read.
   */
  function Bumped(s: WindowState, w: int, id: FlowIdentifier, ts: int): WindowState
  {
    var s1 := Opened(s, id, ts);
    var count := Count(s1.windowPacketCount, id);
    s1.(windowPacketCount := s1.windowPacketCount[id := if ts - s1.firstTimestampAfterYield[id] > w then 1 else count + 1])
  }

  /**
    `process` over a whole stream: the state afterwards, the records passed
    on, in order, and the exception that stopped the stream, if any. Records
    passed on before an exception have already been delivered.
   */
  function WindowRun(s: WindowState, w: int, recs: seq<Record>): (r: (WindowState, seq<Record>, Option<Error>))
    ensures |r.1| <= |recs|
    decreases |recs|
  {
    if recs == [] then (s, [], None)
    else
      var (s1, r1) := WindowStep(s, w, recs[0]);
      if r1.Err? then (s1, [], Some(r1.error))
      else
        var (s2, out, e) := WindowRun(s1, w, recs[1..]);
        (s2, (if r1.value.Some? then [r1.value.value] else []) + out, e)
  }

  /** The records a step passes on: the one record, or none. */
  function PassedOnBy(r: Result<Option<Record>>): seq<Record>
    requires r.Ok?
  {
    if r.value.Some? then [r.value.value] else []
  }

  /** A run over a non-empty stream is its first step followed by the run over the rest, unless that step raises. */
  lemma WindowRunStep(s: WindowState, w: int, recs: seq<Record>)
    requires recs != []
    ensures var (s1, r1) := WindowStep(s, w, recs[0]);
      var rest := WindowRun(s1, w, recs[1..]);
      WindowRun(s, w, recs) == if r1.Err? then (s1, [], Some(r1.error)) else (rest.0, PassedOnBy(r1) + rest.1, rest.2)
  {
  }

  /**
    Walking a stream one record at a time: when the run from s0 is the
    records out passed on so far followed by the run from cur over the rest,
    a step that raises ends the run with its exception ...
   */
  lemma WindowRunAdvanceErr(s0: WindowState, w: int, recs: seq<Record>, i: nat, cur: WindowState, out: seq<Record>)
    requires i < |recs|
    requires var rest := WindowRun(cur, w, recs[i..]);
      WindowRun(s0, w, recs) == (rest.0, out + rest.1, rest.2)
    requires WindowStep(cur, w, recs[i]).1.Err?
    ensures var (next, r) := WindowStep(cur, w, recs[i]);
      WindowRun(s0, w, recs) == (next, out, Some(r.error))
  {
    assert recs[i..][0] == recs[i];
    assert out + [] == out;
  }

  /** ... and a step that returns moves the same split one record on. */
  lemma WindowRunAdvanceOk(s0: WindowState, w: int, recs: seq<Record>, i: nat, cur: WindowState, out: seq<Record>)
    requires i < |recs|
    requires var rest := WindowRun(cur, w, recs[i..]);
      WindowRun(s0, w, recs) == (rest.0, out + rest.1, rest.2)
    requires WindowStep(cur, w, recs[i]).1.Ok?
    ensures var (next, r) := WindowStep(cur, w, recs[i]);
      var rest := WindowRun(next, w, recs[i + 1..]);
      WindowRun(s0, w, recs) == (rest.0, (out + PassedOnBy(r)) + rest.1, rest.2)
  {
    assert recs[i..][0] == recs[i] && recs[i..][1..] == recs[i + 1..];
    var (next, r) := WindowStep(cur, w, recs[i]);
    var rest := WindowRun(next, w, recs[i + 1..]);
    assert out + (PassedOnBy(r) + rest.1) == (out + PassedOnBy(r)) + rest.1;
  }

  /** A step on a record carrying what the loop body reads is the accepting path. */
  lemma WindowStepAccept(s: WindowState, w: int, rec: Record)
    requires WindowInput(rec)
    ensures WindowStep(s, w, rec) == WindowAccept(s, w, rec)
  {
  }

  /** A step on any other record is the rejecting path. */
  lemma WindowStepReject(s: WindowState, w: int, rec: Record)
    requires !WindowInput(rec)
    ensures WindowStep(s, w, rec) == (WindowReject(s, w, rec).0, Err(WindowReject(s, w, rec).1))
  {
  }

  /** The initial state keeps the invariant. */
  lemma InitialWindowStateInv()
    ensures Inv(InitialWindowState)
  {
  }

  /**
    With a window size that is not negative, the accepting path keeps the
    invariant, and it never divides by zero: a flow's window closes only once
    the flow has been seen, so its count is at least one.
   */
  lemma WindowAcceptInv(s: WindowState, w: int, rec: Record)
    requires Inv(s) && w >= 0 && WindowInput(rec)
    ensures Inv(WindowAccept(s, w, rec).0)
    ensures WindowAccept(s, w, rec).1 != Err(ZeroDivisionError)
  {
    var id, ts := FlowIdentifierOf(rec).value, rec.fields[Packet(Timestamp)].ns;
    var s1 := Opened(s, id, ts);
    BumpedInv(s, w, id, ts);
    if ts - s1.firstTimestampAfterYield[id] > w {
      assert id in s.firstTimestampAfterYield && s1 == s;
    }
  }

  /** With a window size that is not negative, opening and counting keep the invariant. */
  lemma BumpedInv(s: WindowState, w: int, id: FlowIdentifier, ts: int)
    requires Inv(s) && w >= 0
    ensures Inv(Bumped(s, w, id, ts))
    ensures var s1 := Opened(s, id, ts);
      ts - s1.firstTimestampAfterYield[id] > w ==> Count(s1.windowPacketCount, id) >= 1
  {
  }

  /** With a window size that is not negative, every step keeps the invariant, whether it returns or raises. */
  lemma WindowStepInv(s: WindowState, w: int, rec: Record)
    requires Inv(s) && w >= 0
    ensures Inv(WindowStep(s, w, rec).0)
  {
    if WindowInput(rec) {
      WindowStepAccept(s, w, rec);
      WindowAcceptInv(s, w, rec);
    } else {
      WindowStepReject(s, w, rec);
    }
  }

  /** The rejecting path raises only for a record missing a key or holding a timestamp that is not a Timestamp. */
  lemma WindowRejectErrors(s: WindowState, w: int, rec: Record)
    requires !WindowInput(rec)
    ensures WindowReject(s, w, rec).1.MissingKey? || WindowReject(s, w, rec).1 == TypeError
  {
    FlowIdentifierErrors(rec);
  }

  /** Reading the flow identifier raises only KeyError. */
  lemma FlowIdentifierErrors(rec: Record)
    ensures FlowIdentifierOf(rec).Err? ==> FlowIdentifierOf(rec).error.MissingKey?
  {
  }

  /**
    With a window size that is not negative, a step never divides by zero:
    it raises only KeyError for a missing key or TypeError. When every size
    sum is a number, it returns exactly on a record carrying the flow keys, a
    timestamp and a size that is a number or, on a record that closes its
    flow's window, any size at all (the size is then stored, not added).
   */
  lemma WindowStepFailsOnlyOnInput(s: WindowState, w: int, rec: Record)
    requires Inv(s) && w >= 0
    ensures WindowStep(s, w, rec).1.Err? ==>
      WindowStep(s, w, rec).1.error.MissingKey? || WindowStep(s, w, rec).1.error == TypeError
    ensures NumericSums(s) ==>
      (WindowStep(s, w, rec).1.Ok? <==>
        && WindowInput(rec)
        && Packet(IpPacketSize) in rec.fields
        && (IsNumber(rec.fields[Packet(IpPacketSize)]) || Closes(s, w, rec)))
  {
    if WindowInput(rec) {
      WindowStepAccept(s, w, rec);
      WindowAcceptInv(s, w, rec);
      var id, ts := FlowIdentifierOf(rec).value, rec.fields[Packet(Timestamp)].ns;
      var s1 := Opened(s, id, ts);
      if NumericSums(s) {
        assert IsNumber(ValueAt(s.windowPacketSizeSum, id));
        BumpedInv(s, w, id, ts);
        if ts - s1.firstTimestampAfterYield[id] > w {
          assert Closes(s, w, rec);
        } else {
          assert !Closes(s, w, rec);
          assert ValueAt(Bumped(s, w, id, ts).windowPacketSizeSum, id) == ValueAt(s.windowPacketSizeSum, id);
        }
      }
    } else {
      WindowStepReject(s, w, rec);
      WindowRejectErrors(s, w, rec);
    }
  }

  /**
    A step leaves every size sum a number exactly unless it passes on a
    record whose size is not a number, which becomes the next window's sum.
   */
  lemma WindowStepNumeric(s: WindowState, w: int, rec: Record)
    requires NumericSums(s)
    ensures var (s', r) := WindowStep(s, w, rec);
      NumericSums(s') <==>
        !(r.Ok? && r.value.Some? && Packet(IpPacketSize) in rec.fields && !IsNumber(rec.fields[Packet(IpPacketSize)]))
  {
    if WindowInput(rec) {
      WindowStepAccept(s, w, rec);
      var id, ts := FlowIdentifierOf(rec).value, rec.fields[Packet(Timestamp)].ns;
      var s1 := Opened(s, id, ts);
      var (s', r) := WindowStep(s, w, rec);
      if r.Ok? && r.value.Some? && !IsNumber(rec.fields[Packet(IpPacketSize)]) {
        assert s'.windowPacketSizeSum[id] == rec.fields[Packet(IpPacketSize)];
      }
    } else {
      WindowStepReject(s, w, rec);
    }
  }

  /**
    Closing a window whose size sum is not a number (a string or list a
    previous closing record stored) raises TypeError at the average, before
    any update.
   */
  lemma WindowStepCloseNonNumber(s: WindowState, w: int, rec: Record)
    requires WindowInput(rec) && Closes(s, w, rec)
    requires !IsNumber(ValueAt(s.windowPacketSizeSum, FlowIdentifierOf(rec).value))
    ensures WindowStep(s, w, rec) == (s, Err(TypeError))
  {
    WindowStepAccept(s, w, rec);
  }

  /**
    With a negative window size the first packet of a flow closes the empty
    window it has just opened, and the average divides by a count of zero.
   */
  lemma WindowNegativeSizeFirstPacket(s: WindowState, w: int, rec: Record)
    requires Inv(s) && w < 0 && WindowInput(rec)
    requires FlowIdentifierOf(rec).value !in s.firstTimestampAfterYield
    ensures WindowStep(s, w, rec).1 == Err(ZeroDivisionError)
  {
    WindowStepAccept(s, w, rec);
  }

  /**
    The first packet of a flow opens the flow's window at its own time and,
    with a window size that is not negative, is absorbed, not passed on: the
    window then holds that packet alone, its size added to 0, with its whole
    timestamp as the gap from the epoch.
   */
  lemma WindowStepFirstPacket(s: WindowState, w: int, rec: Record)
    requires Inv(s) && w >= 0 && NumericInput(rec)
    requires FlowIdentifierOf(rec).value !in s.firstTimestampAfterYield
    ensures var (s', r) := WindowStep(s, w, rec);
      var id, ts := FlowIdentifierOf(rec).value, rec.fields[Packet(Timestamp)].ns;
      var size := rec.fields[Packet(IpPacketSize)];
      && r == Ok(None)
      && s'.firstTimestampAfterYield == s.firstTimestampAfterYield[id := ts]
      && Count(s'.windowPacketCount, id) == 1
      && ValueAt(s'.windowPacketSizeSum, id) == Plus(Int(0), size)
      && NumberValue(ValueAt(s'.windowPacketSizeSum, id)) == NumberValue(size)
      && Lookup(s'.windowSumInterArrivalTimes, id) == ts
      && s'.lastTimestamp == s.lastTimestamp[id := ts]
  {
    WindowStepAccept(s, w, rec);
  }

  /**
    With a window size that is not negative and numeric sizes, a record is
    passed on exactly when its flow's window is open and the record arrives
    strictly more than the window size after the window's start.
   */
  lemma WindowStepPassesOnIff(s: WindowState, w: int, rec: Record)
    requires Inv(s) && w >= 0 && NumericSums(s) && NumericInput(rec)
    ensures WindowStep(s, w, rec).1.Ok?
    ensures WindowStep(s, w, rec).1.value.Some? <==> Closes(s, w, rec)
  {
    WindowStepFailsOnlyOnInput(s, w, rec);
    WindowStepAccept(s, w, rec);
  }

  /**
    A record passed on carries the closing window's packet count, size sum,
    average size and average inter-arrival time, none of which include the
    record itself; the record then starts the flow's next window alone, its
    size, whatever it holds, stored as the window's sum.
   */
  lemma WindowStepClose(s: WindowState, w: int, rec: Record)
    requires WindowInput(rec) && Closes(s, w, rec) && Packet(IpPacketSize) in rec.fields
    requires Count(s.windowPacketCount, FlowIdentifierOf(rec).value) >= 1
    requires IsNumber(ValueAt(s.windowPacketSizeSum, FlowIdentifierOf(rec).value))
    ensures var (s', r) := WindowStep(s, w, rec);
      var id, ts := FlowIdentifierOf(rec).value, rec.fields[Packet(Timestamp)].ns;
      && r == Ok(Some(SetAll(rec, OutputSignature,
                             WindowValues(Count(s.windowPacketCount, id), ValueAt(s.windowPacketSizeSum, id),
                                          Lookup(s.windowSumInterArrivalTimes, id)))))
      && Count(s'.windowPacketCount, id) == 1
      && ValueAt(s'.windowPacketSizeSum, id) == rec.fields[Packet(IpPacketSize)]
      && Lookup(s'.windowSumInterArrivalTimes, id) == ts - Lookup(s.lastTimestamp, id)
      && s'.lastTimestamp[id] == ts && s'.firstTimestampAfterYield[id] == ts
  {
    WindowStepAccept(s, w, rec);
  }

  /**
    A record absorbed into its open window adds one packet and `+=` its size
    into the window's sum. When that addition succeeds the record also adds
    its gap to the flow's last packet and becomes the flow's last packet,
    the window's start staying; when it raises TypeError only the count has
    changed.
   */
  lemma WindowStepAbsorb(s: WindowState, w: int, rec: Record)
    requires WindowInput(rec) && Packet(IpPacketSize) in rec.fields
    requires var id := FlowIdentifierOf(rec).value;
      id in s.firstTimestampAfterYield && rec.fields[Packet(Timestamp)].ns - s.firstTimestampAfterYield[id] <= w
    ensures var (s', r) := WindowStep(s, w, rec);
      var id, ts := FlowIdentifierOf(rec).value, rec.fields[Packet(Timestamp)].ns;
      var sizeSum := InPlaceAdd(ValueAt(s.windowPacketSizeSum, id), rec.fields[Packet(IpPacketSize)]);
      && s'.windowPacketCount == s.windowPacketCount[id := Count(s.windowPacketCount, id) + 1]
      && s'.firstTimestampAfterYield == s.firstTimestampAfterYield
      && (sizeSum.Err? ==> r == Err(TypeError) && s' == s.(windowPacketCount := s'.windowPacketCount))
      && (sizeSum.Ok? ==>
            && r == Ok(None)
            && s'.windowPacketSizeSum == s.windowPacketSizeSum[id := sizeSum.value]
            && Lookup(s'.windowSumInterArrivalTimes, id)
               == Lookup(s.windowSumInterArrivalTimes, id) + (ts - Lookup(s.lastTimestamp, id))
            && s'.lastTimestamp == s.lastTimestamp[id := ts])
  {
    WindowStepAccept(s, w, rec);
  }

  lemma WindowSignatureDistinct()
    ensures Distinct(OutputSignature)
  {
  }

  /**
    out is rec with the four window features written into it: the same flow,
    every other key holding its value, and the window keys added.
   */
  predicate Annotates(out: Record, rec: Record)
  {
    && out.fields.Keys == rec.fields.Keys + (set k | k in OutputSignature)
    && (forall k :: k in rec.fields && k !in OutputSignature ==> out.fields[k] == rec.fields[k])
    && FlowIdentifierOf(out) == FlowIdentifierOf(rec)
  }
  /** The window features are flow features, none of them one of the five packet keys a flow identifier is read from. */
  lemma WindowKeysNotFlowKeys()
    ensures forall k :: k in OutputSignature ==> k !in FlowKeys
  {
    assert forall k :: k in FlowKeys ==> k.Packet?;
    assert forall k :: k in OutputSignature ==> k.Flow?;
  }

  /** Writing the four window values into a record annotates it, the count in third place. */
  lemma AnnotatesSetAll(rec: Record, vs: seq<Value>)
    requires |vs| == |OutputSignature|
    ensures var out := SetAll(rec, OutputSignature, vs);
      && Annotates(out, rec)
      && Flow(FlowWindowReceivedPacketCount) in out.fields
      && out.fields[Flow(FlowWindowReceivedPacketCount)] == vs[2]
  {
    WindowSignatureDistinct();
    SetAllFields(rec, OutputSignature, vs);
    assert OutputSignature[2] == Flow(FlowWindowReceivedPacketCount);
    WindowKeysNotFlowKeys();
    FlowIdentifierSetAll(rec, OutputSignature, vs);
  }

  /**
    The record the accepting path passes on, in terms of the state before the
    step: the closed window had at least one packet and a numeric size sum.
   */
  lemma WindowAcceptOutput(s: WindowState, w: int, rec: Record)
    requires WindowInput(rec) && WindowAccept(s, w, rec).1.Ok? && WindowAccept(s, w, rec).1.value.Some?
    ensures var id := FlowIdentifierOf(rec).value;
      && Count(s.windowPacketCount, id) >= 1 && IsNumber(ValueAt(s.windowPacketSizeSum, id))
      && WindowAccept(s, w, rec).1.value.value
         == SetAll(rec, OutputSignature, WindowValues(Count(s.windowPacketCount, id), ValueAt(s.windowPacketSizeSum, id),
                                                      Lookup(s.windowSumInterArrivalTimes, id)))
  {
  }

  /** A record passed on is the input record with the window features written into it, reporting the closed window's count. */
  lemma WindowStepAnnotates(s: WindowState, w: int, rec: Record)
    requires WindowStep(s, w, rec).1.Ok? && WindowStep(s, w, rec).1.value.Some?
    ensures WindowInput(rec)
    ensures var out := WindowStep(s, w, rec).1.value.value;
      && Annotates(out, rec)
      && Flow(FlowWindowReceivedPacketCount) in out.fields
      && out.fields[Flow(FlowWindowReceivedPacketCount)] == Int(Count(s.windowPacketCount, FlowIdentifierOf(rec).value))
  {
    if !WindowInput(rec) {
      WindowStepReject(s, w, rec);
    }
    WindowStepAccept(s, w, rec);
    WindowAcceptOutput(s, w, rec);
    var id := FlowIdentifierOf(rec).value;
    AnnotatesSetAll(rec, WindowValues(Count(s.windowPacketCount, id), ValueAt(s.windowPacketSizeSum, id),
                                      Lookup(s.windowSumInterArrivalTimes, id)));
  }

  /** Each position one further on. */
  function Shift(idx: seq<nat>): (r: seq<nat>)
    ensures |r| == |idx| && forall j :: 0 <= j < |idx| ==> r[j] == idx[j] + 1
  {
    seq(|idx|, j requires 0 <= j < |idx| => idx[j] + 1)
  }

  /**
    out is an in-order subsequence of recs, annotated: the j-th record of out
    is the record of recs at position idx[j] with the window features written
    into it, and the positions strictly increase.
   */
  ghost predicate IsSubsequence(out: seq<Record>, idx: seq<nat>, recs: seq<Record>)
  {
    && |idx| == |out|
    && (forall j :: 0 <= j < |idx| ==> idx[j] < |recs| && Annotates(out[j], recs[idx[j]]))
    && (forall j, k :: 0 <= j < k < |idx| ==> idx[j] < idx[k])
  }

  /** Skipping the first record keeps a subsequence of the rest a subsequence of the whole. */
  lemma SubsequenceSkip(out: seq<Record>, idx: seq<nat>, recs: seq<Record>)
    requires recs != [] && IsSubsequence(out, idx, recs[1..])
    ensures IsSubsequence(out, Shift(idx), recs)
  {
    forall j | 0 <= j < |idx|
      ensures Shift(idx)[j] < |recs| && Annotates(out[j], recs[Shift(idx)[j]])
    {
      assert recs[Shift(idx)[j]] == recs[1..][idx[j]];
    }
  }

  /** Passing the first record on, annotated, extends a subsequence of the rest to one of the whole. */
  lemma SubsequenceCons(x: Record, out: seq<Record>, idx: seq<nat>, recs: seq<Record>)
    requires recs != [] && Annotates(x, recs[0]) && IsSubsequence(out, idx, recs[1..])
    ensures IsSubsequence([x] + out, [0] + Shift(idx), recs)
  {
    SubsequenceSkip(out, idx, recs);
    var out', idx' := [x] + out, [0] + Shift(idx);
    forall j | 0 <= j < |idx'|
      ensures idx'[j] < |recs| && Annotates(out'[j], recs[idx'[j]])
    {
      if j > 0 {
        assert idx'[j] == Shift(idx)[j - 1] && out'[j] == out[j - 1];
      }
    }
  }

  /** The positions in recs of the records WindowRun passes on. */
  function PassedOn(s: WindowState, w: int, recs: seq<Record>): (idx: seq<nat>)
    decreases |recs|
  {
    if recs == [] then []
    else
      var (s1, r1) := WindowStep(s, w, recs[0]);
      if r1.Err? then []
      else (if r1.value.Some? then [0] else []) + Shift(PassedOn(s1, w, recs[1..]))
  }

  /**
    The output is an in-order subsequence of the input: the j-th record
    passed on is the input record at position PassedOn[j] with the window
    features written into it, and the positions strictly increase, so no
    record is passed on twice.
   */
  lemma {:induction false} WindowRunSubsequence(s: WindowState, w: int, recs: seq<Record>)
    ensures IsSubsequence(WindowRun(s, w, recs).1, PassedOn(s, w, recs), recs)
    decreases |recs|
  {
    if recs != [] {
      var (s1, r1) := WindowStep(s, w, recs[0]);
      if r1.Ok? {
        WindowRunSubsequence(s1, w, recs[1..]);
        var rest, out1 := PassedOn(s1, w, recs[1..]), WindowRun(s1, w, recs[1..]).1;
        if r1.value.Some? {
          WindowStepAnnotates(s, w, recs[0]);
          SubsequenceCons(r1.value.value, out1, rest, recs);
        } else {
          SubsequenceSkip(out1, rest, recs);
        }
      }
    }
  }

  /** The window packet counts reported by the passed-on records of flow f. */
  function ReportedCount(out: seq<Record>, f: FlowIdentifier): int
  {
    if out == [] then 0
    else
      var k := Flow(FlowWindowReceivedPacketCount);
      (if FlowIdentifierOf(out[0]) == Ok(f) && k in out[0].fields && out[0].fields[k].Int? then out[0].fields[k].i else 0)
      + ReportedCount(out[1..], f)
  }

  /**
    One step that returns, accounted for flow f: the record either joins f's
    open window or is passed on reporting the closed window's count and
    starts the next one.
   */
  lemma WindowStepAccounts(s: WindowState, w: int, rec: Record, f: FlowIdentifier)
    requires WindowStep(s, w, rec).1.Ok?
    ensures WindowInput(rec)
    ensures var (s', r) := WindowStep(s, w, rec);
      var out := if r.value.Some? then [r.value.value] else [];
      (if FlowIdentifierOf(rec) == Ok(f) then 1 else 0) + Count(s.windowPacketCount, f)
      == ReportedCount(out, f) + Count(s'.windowPacketCount, f)
  {
    if !WindowInput(rec) {
      WindowStepReject(s, w, rec);
    }
    var id, ts := FlowIdentifierOf(rec).value, rec.fields[Packet(Timestamp)].ns;
    var s1 := Opened(s, id, ts);
    WindowStepAccept(s, w, rec);
    var sb := Bumped(s, w, id, ts);
    var (s', r) := WindowStep(s, w, rec);
    BumpedCount(s, w, id, ts, f);
    if ts - s1.firstTimestampAfterYield[id] > w {
      assert s'.windowPacketCount == sb.windowPacketCount;
      WindowAcceptOutput(s, w, rec);
      WindowStepAnnotates(s, w, rec);
      ReportedCountOne(r.value.value, f);
    } else {
      assert s'.windowPacketCount == sb.windowPacketCount && r == Ok(None);
    }
  }

  /** Flow f's packet count once the window of flow id is opened and counted. */
  lemma BumpedCount(s: WindowState, w: int, id: FlowIdentifier, ts: int, f: FlowIdentifier)
    ensures var s1 := Opened(s, id, ts);
      Count(Bumped(s, w, id, ts).windowPacketCount, f)
      == (if f != id then Count(s.windowPacketCount, f)
          else if ts - s1.firstTimestampAfterYield[id] > w then 1
          else Count(s.windowPacketCount, f) + 1)
  {
  }

  /** The count one passed-on record reports for flow f. */
  lemma ReportedCountOne(out: Record, f: FlowIdentifier)
    ensures var k := Flow(FlowWindowReceivedPacketCount);
      ReportedCount([out], f)
      == (if FlowIdentifierOf(out) == Ok(f) && k in out.fields && out.fields[k].Int? then out.fields[k].i else 0)
  {
    assert [out][1..] == [];
  }

  /** Passed-on records report counts additively. */
  lemma {:induction false} ReportedCountAppend(a: seq<Record>, b: seq<Record>, f: FlowIdentifier)
    ensures ReportedCount(a + b, f) == ReportedCount(a, f) + ReportedCount(b, f)
    decreases |a|
  {
    if a == [] {
      assert a + b == b;
    } else {
      assert (a + b)[0] == a[0] && (a + b)[1..] == a[1..] + b;
      ReportedCountAppend(a[1..], b, f);
    }
  }

  /**
    There is no flush at the end of the stream: over a stream that raises
    nothing, every packet of flow f is either reported in the count of a
    window closed by a passed-on record or still sits in f's open window,
    which is never reported.
   */
  lemma {:induction false} WindowRunNoFlush(s: WindowState, w: int, recs: seq<Record>, f: FlowIdentifier)
    ensures var (s', out, e) := WindowRun(s, w, recs);
      e == None ==>
        CountOfFlow(recs, f) + Count(s.windowPacketCount, f) == ReportedCount(out, f) + Count(s'.windowPacketCount, f)
    decreases |recs|
  {
    if recs != [] {
      var (s1, r1) := WindowStep(s, w, recs[0]);
      if r1.Ok? {
        WindowStepAccounts(s, w, recs[0], f);
        WindowRunNoFlush(s1, w, recs[1..], f);
        ReportedCountAppend(if r1.value.Some? then [r1.value.value] else [], WindowRun(s1, w, recs[1..]).1, f);
      }
    }
  }

  /**
    With a window size that is not negative, a stream of records carrying
    the flow keys, a timestamp and a numeric size, read from a state whose
    size sums are numbers, raises nothing.
   */
  lemma {:induction false} WindowRunCompletes(s: WindowState, w: int, recs: seq<Record>)
    requires Inv(s) && w >= 0 && NumericSums(s)
    requires forall i :: 0 <= i < |recs| ==> NumericInput(recs[i])
    ensures WindowRun(s, w, recs).2 == None
    decreases |recs|
  {
    if recs != [] {
      assert NumericInput(recs[0]);
      WindowStepFailsOnlyOnInput(s, w, recs[0]);
      WindowStepInv(s, w, recs[0]);
      WindowStepNumeric(s, w, recs[0]);
      var (s1, r1) := WindowStep(s, w, recs[0]);
      WindowRunCompletes(s1, w, recs[1..]);
    }
  }
}
