/**
  The windowed flow processor as an object whose dicts are updated in place
  while it walks the stream, proved to follow module WindowFlowFeatures.
 */
module WindowProcessor {
  import opened Wrappers
  import opened FeatureKeys
  import opened Errors
  import opened Features
  import opened WindowFlowFeatures

  /** The window size the constructor takes when none is given, in milliseconds. */
  const DefaultWindowSizeMs := 1000

  /**
    The processor object. The two packet counters are initialised but never
    touched by `process`; the window size is kept in nanoseconds.
   */
  class WindowFlowFeatureProcessor {
    var overallPacketCounter: nat
    var validPacketCounter: nat
    var windowSize: int
    var windowPacketCount: map<FlowIdentifier, nat>
    var windowPacketSizeSum: map<FlowIdentifier, Value>
    var firstTimestampAfterYield: map<FlowIdentifier, int>
    var lastTimestamp: map<FlowIdentifier, int>
    var windowSumInterArrivalTimes: map<FlowIdentifier, int>

    function State(): WindowState
      reads this
    {
      WindowState(windowPacketCount, windowPacketSizeSum, firstTimestampAfterYield,
                  lastTimestamp, windowSumInterArrivalTimes)
    }

    constructor(windowSizeMs: int)
      ensures State() == InitialWindowState && windowSize == WindowSizeNs(windowSizeMs)
      ensures overallPacketCounter == 0 && validPacketCounter == 0
    {
      overallPacketCounter := 0;
      validPacketCounter := 0;
      windowSize := WindowSizeNs(windowSizeMs);
      windowPacketCount := map[];
      windowPacketSizeSum := map[];
      firstTimestampAfterYield := map[];
      lastTimestamp := map[];
      windowSumInterArrivalTimes := map[];
    }

    /**
      `process`: walks the stream, updating the dicts, and returns the records
      passed on, in order, with the exception that stopped the stream, if any.
     */
    method Process(features: seq<Record>) returns (out: seq<Record>, err: Option<Error>)
      modifies this
      ensures (State(), out, err) == WindowRun(old(State()), old(windowSize), features)
      ensures windowSize == old(windowSize)
      ensures overallPacketCounter == old(overallPacketCounter) && validPacketCounter == old(validPacketCounter)
    {
      ghost var s0 := State();
      out, err := [], None;
      var i := 0;
      assert features[0..] == features;
      assert [] + WindowRun(s0, windowSize, features).1 == WindowRun(s0, windowSize, features).1;
      while i < |features|
        invariant 0 <= i <= |features|
        invariant windowSize == old(windowSize)
        invariant overallPacketCounter == old(overallPacketCounter) && validPacketCounter == old(validPacketCounter)
        invariant var rest := WindowRun(State(), windowSize, features[i..]);
          WindowRun(s0, windowSize, features) == (rest.0, out + rest.1, rest.2)
        decreases |features| - i
      {
        ghost var si := State();
        var r := ProcessRecord(features[i]);
        if r.Err? {
          WindowRunAdvanceErr(s0, windowSize, features, i, si, out);
          return out, Some(r.error);
        }
        WindowRunAdvanceOk(s0, windowSize, features, i, si, out);
        out := out + PassedOnBy(r);
        i := i + 1;
      }
      assert features[i..] == [] && out + [] == out;
    }

    /** The loop body of `process` on one record. */
    method ProcessRecord(f: Record) returns (r: Result<Option<Record>>)
      modifies this
      ensures (State(), r) == WindowStep(old(State()), windowSize, f)
      ensures windowSize == old(windowSize)
      ensures overallPacketCounter == old(overallPacketCounter) && validPacketCounter == old(validPacketCounter)
    {
      ghost var s0 := State();
      var idR := FlowIdentifierOf(f);
      if idR.Err? {
        WindowStepReject(s0, windowSize, f);
        return Err(idR.error);
      }
      var id := idR.value;
      var tsR := GetTime(f, Packet(Timestamp));
      if tsR.Err? {
        WindowStepReject(s0, windowSize, f);
        return Err(tsR.error);
      }
      var ts := tsR.value;
      OpenWindow(id, ts);
      if ts - firstTimestampAfterYield[id] > windowSize {
        WindowStepAccept(s0, windowSize, f);
        var count, sizeSum := Count(windowPacketCount, id), ValueAt(windowPacketSizeSum, id);
        var avg := PyDivide(sizeSum, count);
        if avg.Err? {
          return Err(avg.error);
        }
        var vs := WindowValues(count, sizeSum, Lookup(windowSumInterArrivalTimes, id));
        windowPacketCount := windowPacketCount[id := 1];
        assert State() == Bumped(s0, windowSize, id, ts);
        var sizeR := f.Get(Packet(IpPacketSize));
        if sizeR.Err? {
          return Err(sizeR.error);
        }
        CloseWindow(id, ts, sizeR.value);
        r := Ok(Some(SetAll(f, OutputSignature, vs)));
      } else {
        WindowStepAccept(s0, windowSize, f);
        windowPacketCount := windowPacketCount[id := Count(windowPacketCount, id) + 1];
        assert State() == Bumped(s0, windowSize, id, ts);
        var sizeR := f.Get(Packet(IpPacketSize));
        if sizeR.Err? {
          return Err(sizeR.error);
        }
        var sizeSum := InPlaceAdd(ValueAt(windowPacketSizeSum, id), sizeR.value);
        if sizeSum.Err? {
          return Err(sizeSum.error);
        }
        AbsorbPacket(id, ts, sizeSum.value);
        r := Ok(None);
      }
    }

    /** `first_timestamp_after_yield[flow_id] = timestamp`: a flow seen for the first time opens its window. */
    method OpenWindow(id: FlowIdentifier, ts: int)
      modifies this
      ensures State() == Opened(old(State()), id, ts)
      ensures windowSize == old(windowSize)
      ensures overallPacketCounter == old(overallPacketCounter) && validPacketCounter == old(validPacketCounter)
    {
      if id !in firstTimestampAfterYield {
        firstTimestampAfterYield := firstTimestampAfterYield[id := ts];
      }
    }

    /** The closing branch of `process`, after the count is written back to 1: the window restarts with this packet. */
    method CloseWindow(id: FlowIdentifier, ts: int, size: Value)
      modifies this
      ensures State() == Reset(old(State()), id, ts, size)
      ensures windowSize == old(windowSize)
      ensures overallPacketCounter == old(overallPacketCounter) && validPacketCounter == old(validPacketCounter)
    {
      windowPacketSizeSum := windowPacketSizeSum[id := size];
      windowSumInterArrivalTimes := windowSumInterArrivalTimes[id := ts - Lookup(lastTimestamp, id)];
      lastTimestamp := lastTimestamp[id := ts];
      firstTimestampAfterYield := firstTimestampAfterYield[id := ts];
    }

    /** The absorbing branch of `process`, after the count is raised and the size added into sizeSum: the packet joins the window. */
    method AbsorbPacket(id: FlowIdentifier, ts: int, sizeSum: Value)
      modifies this
      ensures State() == Absorb(old(State()), id, ts, sizeSum)
      ensures windowSize == old(windowSize)
      ensures overallPacketCounter == old(overallPacketCounter) && validPacketCounter == old(validPacketCounter)
    {
      windowPacketSizeSum := windowPacketSizeSum[id := sizeSum];
      windowSumInterArrivalTimes :=
        windowSumInterArrivalTimes[id := Lookup(windowSumInterArrivalTimes, id) + (ts - Lookup(lastTimestamp, id))];
      lastTimestamp := lastTimestamp[id := ts];
    }
  }
}
