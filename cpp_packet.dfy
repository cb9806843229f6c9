/**
  The preprocessor that maps one line of the C++ feature extractor's output
  (five whitespace-separated tokens and a JSON object) to a packet record.
 */
module CppPacket {
  import opened Wrappers
  import opened FeatureKeys
  import opened Errors
  import opened Features
  import opened PacketLine

  /** The one key the preprocessor reads. */
  const InputSignature: seq<FeatureKey> := [Packet(CppFeatureString)]

  /** The keys of every record it produces, in the order they are written. */
  const OutputSignature: seq<FeatureKey> := [
    Packet(IpSourceAddress),
    Packet(IpDestinationAddress),
    Packet(IpSourcePort),
    Packet(IpDestinationPort),
    Packet(Protocol),
    Packet(Timestamp),
    Packet(IpPacketSize),
    Packet(TcpCwrFlag),
    Packet(TcpEceFlag),
    Packet(TcpUrgFlag),
    Packet(TcpAckFlag),
    Packet(TcpPshFlag),
    Packet(TcpRstFlag),
    Packet(TcpSynFlag),
    Packet(TcpFinFlag)
  ]

  /** No key appears twice in the output signature. */
  lemma OutputSignatureDistinct()
    ensures forall i, j :: 0 <= i < j < |OutputSignature| ==> OutputSignature[i] != OutputSignature[j]
  {
  }

  /** The feature string itself is not among the output keys. */
  lemma FeatureStringNotOutput()
    ensures forall i :: 0 <= i < |OutputSignature| ==> OutputSignature[i] != Packet(CppFeatureString)
  {
  }

  /** The values written under OutputSignature, position by position. */
  function OutputValues(m: LineMatch, d: Decoded): (vs: seq<Value>)
    requires |d.tcpFlags| == 8
    ensures |vs| == |OutputSignature|
  {
    [Str(m.srcIp), Str(m.dstIp), Str(m.srcPort), Str(m.dstPort), Str(m.proto),
     Time(d.timestamp), d.ipLen] + d.tcpFlags
  }

  /** The dict the preprocessor returns for a matched line, written in signature order. */
  function OutputRecord(m: LineMatch, d: Decoded): (r: Record)
    requires |d.tcpFlags| == 8
    ensures r.order == OutputSignature && r.Valid()
    ensures forall i :: 0 <= i < |OutputSignature| ==> r.fields[OutputSignature[i]] == OutputValues(m, d)[i]
    ensures Packet(CppFeatureString) !in r.fields
  {
    var vs := OutputValues(m, d);
    OutputSignatureDistinct();
    FeatureStringNotOutput();
    Record(OutputSignature, map i | 0 <= i < |OutputSignature| :: OutputSignature[i] := vs[i])
  }

  /**
    `process`: the record for a matching line, None for a line the pattern
    rejects. The result holds exactly the output signature's keys in that
    order, and none of the input's keys.
   */
  function Process(input: Record, decode: JsonDecoder): (r: Result<Option<Record>>)
    ensures r.Ok? && r.value.Some? ==>
      && r.value.value.order == OutputSignature
      && r.value.value.Valid()
      && Packet(CppFeatureString) !in r.value.value.fields
  {
    var line :- input.Get(Packet(CppFeatureString));
    if !line.Str? then Err(TypeError)
    else match MatchLine(line.s)
      case None => Ok(None)
      case Some(m) =>
        var d :- DecodeFeatures(decode, m.features);
        Ok(Some(OutputRecord(m, d)))
  }

  /** A record without the feature string raises KeyError; a non-string value raises TypeError. */
  lemma ProcessInputErrors(input: Record, decode: JsonDecoder)
    ensures Packet(CppFeatureString) !in input.fields ==>
      Process(input, decode) == Err(MissingKey(Packet(CppFeatureString)))
    ensures Packet(CppFeatureString) in input.fields && !input.fields[Packet(CppFeatureString)].Str? ==>
      Process(input, decode) == Err(TypeError)
  {
  }

  /** A valid packet's attributes, in output-signature order. */
  function Attributes(p: PacketData): seq<Value>
    requires p.IsValid()
  {
    [Str(p.sourceIp), Str(p.destinationIp), Str(p.sourcePort), Str(p.destinationPort), Str(p.protocol),
     Time(p.timestamp), p.ipSize,
     p.flagCwr, p.flagEce, p.flagUrg, p.flagAck, p.flagPsh, p.flagRst, p.flagSyn, p.flagFin]
  }

  /**
    The preprocessor reads a line exactly as the packet parser does: a line
    the parser finds invalid gives None, a parse error is the same error, and
    a valid packet gives a record whose i-th signature key holds the packet's
    i-th attribute.
   */
  lemma ProcessAgreesWithParse(input: Record, decode: JsonDecoder)
    requires Packet(CppFeatureString) in input.fields && input.fields[Packet(CppFeatureString)].Str?
    ensures var line := input.fields[Packet(CppFeatureString)].s;
      && (Parse(line, decode) == Ok(Invalid) <==> Process(input, decode) == Ok(None))
      && (Parse(line, decode).Err? ==> Process(input, decode) == Err(Parse(line, decode).error))
    ensures var line := input.fields[Packet(CppFeatureString)].s;
      Parse(line, decode).Ok? && Parse(line, decode).value.IsValid() ==>
        && Process(input, decode).Ok? && Process(input, decode).value.Some?
        && forall i :: 0 <= i < |OutputSignature| ==>
          Process(input, decode).value.value.fields[OutputSignature[i]] == Attributes(Parse(line, decode).value)[i]
  {
    var line := input.fields[Packet(CppFeatureString)].s;
    match MatchLine(line)
    case None =>
    case Some(m) =>
      var dr := DecodeFeatures(decode, m.features);
      if dr.Ok? {
        var d := dr.value;
        var p := Parse(line, decode).value;
        assert Process(input, decode) == Ok(Some(OutputRecord(m, d)));
        assert OutputValues(m, d) == Attributes(p);
      }
  }
}
