/**
  The feature keys of the pipeline: four string-valued enumerations, the
  string value of each member, and the lookup of a member by its value.
 */
module FeatureKeys {
  import opened Wrappers

  /** Features describing a single packet. */
  datatype PacketFeature =
    | Timestamp
    | IpSourceAddress
    | IpDestinationAddress
    | IpSourcePort
    | IpDestinationPort
    | Protocol
    | IpPacketSize
    | TcpCwrFlag
    | TcpEceFlag
    | TcpUrgFlag
    | TcpAckFlag
    | TcpPshFlag
    | TcpRstFlag
    | TcpSynFlag
    | TcpFinFlag
    | CppFeatureString
    | SourceFileName

  /** Features about one host (one address). */
  datatype HostFeature =
    | HostReceivedPacketCount
    | HostSumReceivedPacketSize
    | HostAvgReceivedPacketSize
    | HostSentPacketCount
    | HostSumSentPacketSize
    | HostAvgSentPacketSize
    | HostLastInterArrivalTime
    | HostAvgInterArrivalTime
    | HostConnectionDuration

  /** Features about one directional flow, cumulative or per time window. */
  datatype FlowFeature =
    | FlowReceivedPacketCount
    | FlowSumPacketSize
    | FlowAvgPacketSize
    | FlowLastInterArrivalTime
    | FlowAvgInterArrivalTime
    | FlowConnectionDuration
    | FlowWindowAvgPacketSize
    | FlowWindowAvgInterArrivalTime
    | FlowWindowReceivedPacketCount
    | FlowWindowSumPacketSize

  /** Fields written by models and label stages. */
  datatype PredictionField =
    | ModelName
    | OutputBinary
    | OutputConfidence
    | OutputMultilabel
    | GroundTruth
    | OutputDistance

  /** One key of a feature record: a member of one of the four enumerations. */
  datatype FeatureKey =
    | Packet(packet: PacketFeature)
    | Host(host: HostFeature)
    | Flow(flow: FlowFeature)
    | Prediction(prediction: PredictionField)

  /** The string value of a key (the keys are string-valued enumerations). */
  function KeyName(k: FeatureKey): string
  {
    match k
    case Packet(Timestamp) => "timestamp"
    case Packet(IpSourceAddress) => "ip_src_addr"
    case Packet(IpDestinationAddress) => "ip_dst_addr"
    case Packet(IpSourcePort) => "ip_src_port"
    case Packet(IpDestinationPort) => "ip_dst_port"
    case Packet(Protocol) => "proto"
    case Packet(IpPacketSize) => "ip_size"
    case Packet(TcpCwrFlag) => "tcp_cwr"
    case Packet(TcpEceFlag) => "tcp_ece"
    case Packet(TcpUrgFlag) => "tcp_urg"
    case Packet(TcpAckFlag) => "tcp_ack"
    case Packet(TcpPshFlag) => "tcp_psh"
    case Packet(TcpRstFlag) => "tcp_rst"
    case Packet(TcpSynFlag) => "tcp_syn"
    case Packet(TcpFinFlag) => "tcp_fin"
    case Packet(CppFeatureString) => "cpp_feature_string"
    case Packet(SourceFileName) => "source_file_name"
    case Host(HostReceivedPacketCount) => "host_rcv_pkt_count"
    case Host(HostSumReceivedPacketSize) => "host_sum_rcv_pkt_size"
    case Host(HostAvgReceivedPacketSize) => "host_avg_rcv_pkt_size"
    case Host(HostSentPacketCount) => "host_sent_pkt_count"
    case Host(HostSumSentPacketSize) => "host_sum_sent_pkt_size"
    case Host(HostAvgSentPacketSize) => "host_avg_sent_pkt_size"
    case Host(HostLastInterArrivalTime) => "host_inter_arrival_last"
    case Host(HostAvgInterArrivalTime) => "host_inter_arrival_avg"
    case Host(HostConnectionDuration) => "host_conn_timedelta"
    case Flow(FlowReceivedPacketCount) => "flow_pkt_count"
    case Flow(FlowSumPacketSize) => "flow_sum_pkt_size"
    case Flow(FlowAvgPacketSize) => "flow_avg_pkt_size"
    case Flow(FlowLastInterArrivalTime) => "flow_inter_arrival_last"
    case Flow(FlowAvgInterArrivalTime) => "flow_inter_arrival_avg"
    case Flow(FlowConnectionDuration) => "flow_conn_timedelta"
    case Flow(FlowWindowAvgPacketSize) => "flow_window_avg_pkt_size"
    case Flow(FlowWindowAvgInterArrivalTime) => "flow_window_inter_arrival_avg"
    case Flow(FlowWindowReceivedPacketCount) => "flow_window_pkt_count"
    case Flow(FlowWindowSumPacketSize) => "flow_window_sum_pkt_size"
    case Prediction(ModelName) => "model_name"
    case Prediction(OutputBinary) => "output_binary"
    case Prediction(OutputConfidence) => "output_confidence"
    case Prediction(OutputMultilabel) => "output_multilabel"
    case Prediction(GroundTruth) => "ground_truth"
    case Prediction(OutputDistance) => "output_distance"
  }

  /**
    Resolves a key from its string value, as configuration and dict lookups by
    string do. The four enumerations' values start with disjoint letters, so
    the first character selects the enumeration to search.
   */
  function KeyFromName(s: string): Option<FeatureKey>
  {
    if s == [] then None
    else match s[0]
      case 'h' => HostKeyFromName(s)
      case 'f' => FlowKeyFromName(s)
      case 'm' => PredictionKeyFromName(s)
      case 'o' => PredictionKeyFromName(s)
      case 'g' => PredictionKeyFromName(s)
      case _ => PacketKeyFromName(s)
  }

  /** The packet key with this string value, if any. */
  function PacketKeyFromName(s: string): Option<FeatureKey>
  {
    match s
    case "timestamp" => Some(Packet(Timestamp))
    case "ip_src_addr" => Some(Packet(IpSourceAddress))
    case "ip_dst_addr" => Some(Packet(IpDestinationAddress))
    case "ip_src_port" => Some(Packet(IpSourcePort))
    case "ip_dst_port" => Some(Packet(IpDestinationPort))
    case "proto" => Some(Packet(Protocol))
    case "ip_size" => Some(Packet(IpPacketSize))
    case "tcp_cwr" => Some(Packet(TcpCwrFlag))
    case "tcp_ece" => Some(Packet(TcpEceFlag))
    case "tcp_urg" => Some(Packet(TcpUrgFlag))
    case "tcp_ack" => Some(Packet(TcpAckFlag))
    case "tcp_psh" => Some(Packet(TcpPshFlag))
    case "tcp_rst" => Some(Packet(TcpRstFlag))
    case "tcp_syn" => Some(Packet(TcpSynFlag))
    case "tcp_fin" => Some(Packet(TcpFinFlag))
    case "cpp_feature_string" => Some(Packet(CppFeatureString))
    case "source_file_name" => Some(Packet(SourceFileName))
    case _ => None
  }

  /** The host key with this string value, if any. */
  function HostKeyFromName(s: string): Option<FeatureKey>
  {
    match s
    case "host_rcv_pkt_count" => Some(Host(HostReceivedPacketCount))
    case "host_sum_rcv_pkt_size" => Some(Host(HostSumReceivedPacketSize))
    case "host_avg_rcv_pkt_size" => Some(Host(HostAvgReceivedPacketSize))
    case "host_sent_pkt_count" => Some(Host(HostSentPacketCount))
    case "host_sum_sent_pkt_size" => Some(Host(HostSumSentPacketSize))
    case "host_avg_sent_pkt_size" => Some(Host(HostAvgSentPacketSize))
    case "host_inter_arrival_last" => Some(Host(HostLastInterArrivalTime))
    case "host_inter_arrival_avg" => Some(Host(HostAvgInterArrivalTime))
    case "host_conn_timedelta" => Some(Host(HostConnectionDuration))
    case _ => None
  }

  /** The flow key with this string value, if any. */
  function FlowKeyFromName(s: string): Option<FeatureKey>
  {
    match s
    case "flow_pkt_count" => Some(Flow(FlowReceivedPacketCount))
    case "flow_sum_pkt_size" => Some(Flow(FlowSumPacketSize))
    case "flow_avg_pkt_size" => Some(Flow(FlowAvgPacketSize))
    case "flow_inter_arrival_last" => Some(Flow(FlowLastInterArrivalTime))
    case "flow_inter_arrival_avg" => Some(Flow(FlowAvgInterArrivalTime))
    case "flow_conn_timedelta" => Some(Flow(FlowConnectionDuration))
    case "flow_window_avg_pkt_size" => Some(Flow(FlowWindowAvgPacketSize))
    case "flow_window_inter_arrival_avg" => Some(Flow(FlowWindowAvgInterArrivalTime))
    case "flow_window_pkt_count" => Some(Flow(FlowWindowReceivedPacketCount))
    case "flow_window_sum_pkt_size" => Some(Flow(FlowWindowSumPacketSize))
    case _ => None
  }

  /** The prediction field with this string value, if any. */
  function PredictionKeyFromName(s: string): Option<FeatureKey>
  {
    match s
    case "model_name" => Some(Prediction(ModelName))
    case "output_binary" => Some(Prediction(OutputBinary))
    case "output_confidence" => Some(Prediction(OutputConfidence))
    case "output_multilabel" => Some(Prediction(OutputMultilabel))
    case "ground_truth" => Some(Prediction(GroundTruth))
    case "output_distance" => Some(Prediction(OutputDistance))
    case _ => None
  }

  lemma PacketKeyNameRoundTrip(p: PacketFeature)
    ensures KeyFromName(KeyName(Packet(p))) == Some(Packet(p))
  {
  }

  lemma HostKeyNameRoundTrip(h: HostFeature)
    ensures KeyFromName(KeyName(Host(h))) == Some(Host(h))
  {
  }

  lemma FlowKeyNameRoundTrip(f: FlowFeature)
    ensures KeyFromName(KeyName(Flow(f))) == Some(Flow(f))
  {
  }

  lemma PredictionKeyNameRoundTrip(q: PredictionField)
    ensures KeyFromName(KeyName(Prediction(q))) == Some(Prediction(q))
  {
  }

  /** Every key is found again from its string value. */
  lemma KeyNameRoundTrip(k: FeatureKey)
    ensures KeyFromName(KeyName(k)) == Some(k)
  {
    match k
    case Packet(p) => PacketKeyNameRoundTrip(p);
    case Host(h) => HostKeyNameRoundTrip(h);
    case Flow(f) => FlowKeyNameRoundTrip(f);
    case Prediction(q) => PredictionKeyNameRoundTrip(q);
  }

  lemma PacketKeyFromNameSound(s: string, k: FeatureKey)
    requires PacketKeyFromName(s) == Some(k)
    ensures KeyName(k) == s
  {
  }

  lemma HostKeyFromNameSound(s: string, k: FeatureKey)
    requires HostKeyFromName(s) == Some(k)
    ensures KeyName(k) == s
  {
  }

  lemma FlowKeyFromNameSound(s: string, k: FeatureKey)
    requires FlowKeyFromName(s) == Some(k)
    ensures KeyName(k) == s
  {
  }

  lemma PredictionKeyFromNameSound(s: string, k: FeatureKey)
    requires PredictionKeyFromName(s) == Some(k)
    ensures KeyName(k) == s
  {
  }

  /** A name resolves only to the key that carries it. */
  lemma KeyFromNameSound(s: string, k: FeatureKey)
    requires KeyFromName(s) == Some(k)
    ensures KeyName(k) == s
  {
    if s[0] == 'h' {
      HostKeyFromNameSound(s, k);
    } else if s[0] == 'f' {
      FlowKeyFromNameSound(s, k);
    } else if s[0] == 'm' || s[0] == 'o' || s[0] == 'g' {
      PredictionKeyFromNameSound(s, k);
    } else {
      PacketKeyFromNameSound(s, k);
    }
  }

  /**
    The string values of all keys of all four enumerations are pairwise
    distinct, so keys never collide inside one dict.
   */
  lemma KeyNamesDistinct(a: FeatureKey, b: FeatureKey)
    requires a != b
    ensures KeyName(a) != KeyName(b)
  {
    KeyNameRoundTrip(a);
    KeyNameRoundTrip(b);
  }
}
