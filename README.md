# siuru feature pipeline, modelled in Dafny

This project models the streaming feature pipeline of siuru, an IoT anomaly
detection framework. It also proves properties of the model.

The pipeline reads captured packets as text lines of the form
`src dst sport dport proto {json}` and parses them into packet records.
Stateful preprocessors enrich each record with per-host, per-flow and
per-time-window statistics. A label stage writes the ground truth. An
encoder turns the stream into one batch of rows. Two reporters count
classification results and model distances. The base class of the
anomaly detection models derives where a model's state is stored.

Files, one module per source file of the pipeline:

- `wrappers.dfy`, `errors.dfy`: `Option`, and the exceptions the pipeline
  raises. `Result` is defined in `errors.dfy` and supports `:-`.
- `keys.dfy` (`FeatureKeys`): the four str-valued feature-key enumerations
  and their string values.
- `features.dfy` (`Features`):
  - Python values, with truthiness and `==`.
  - Records: insertion-ordered dicts from feature key to value.
  - `flow_identifier`.
- `packet_line.dfy` (`PacketLine`): the regular-expression grammar of a
  packet line, and the `PacketData` parse.
- `cpp_packet.dfy` (`CppPacket`): the preprocessor that maps a line to a
  fresh packet record.
- Host, flow and windowed-flow preprocessors, and the combined packet
  processor:
  - `host_features.dfy` / `host_processor.dfy`
  - `flow_features.dfy` / `flow_processor.dfy`
  - `window_features.dfy` / `window_processor.dfy`
  - `packet_statistics.dfy` / `packet_processor.dfy`

  Each first file holds a pure state record and a step function (the
  specification), with the lemmas about them. Each second file holds a
  class with the source's own fields, dicts as `map`s. The class's methods
  update those fields in place, and each method is proved to produce
  exactly the state and result of the step function.
- `file_label.dfy` (`FileLabel`): label selection and ground-truth tagging.
- `multi_sample_encoder.dfy` (`MultiSampleEncoder`): the encoder's
  accumulation loop as a class method, against a specification function.
- `accuracy_reporter.dfy`, `distance_reporter.dfy`: the reporters as
  classes, against pure step and summary functions.
- `anomaly_model.dfy` (`AnomalyModel`): `model_path` and the model base
  constructor's argument checks.

Python semantics that matter here are written out explicitly:

- **defaultdicts.** A read inserts the default. `Count`/`Lookup` give the
  value read. The step functions insert the key where Python does, with
  one exception: a packet-size sum that `d[k] += size` reads before the
  size raises (see "## Left out").
- **Errors.**
  - An exception keeps every update made before the failing line. The
    one exception is a timestamp that is not a Timestamp; see
    "## Left out".
  - A missing record key is `MissingKey(key)`.
  - `TypeError` is raised where Python raises it on a value of the wrong
    type. Examples: a packet size that `+=` cannot add to the running sum,
    or a window size sum that `/` cannot divide. A timestamp that is not a
    Timestamp is also modelled as `TypeError`, which is not always what the
    source does; see "## Left out".
  - A division by zero is `ZeroDivisionError`, except a numpy scalar
    divided by 0 in the distance reporter, which gives inf or nan (see
    `NumpyDivide`).
- **Dict order.** A dict keeps insertion order (`Record.order`,
  `sumOrder`, `models`).
- **Truthiness and `==`.** Python's truthiness decides the label and
  path choices. Python's `==` compares numbers by value across types.
- **Timestamps and durations** are integer nanoseconds. That is what
  `Timestamp.value` and `Timedelta.value` carry. A dict default of
  `Timestamp(0)` is the epoch, time 0.
- **Numbers.** A packet size is whatever the record holds. The host, flow
  and packet processors add it with `+=` onto a sum that starts at `0`,
  so every such sum is a Python number (`Number`: a bool, an int or a
  float). A size that is not a number raises `TypeError`.
  - `Plus` is Python's `+` on numbers: two integers (a bool counts as 0
    or 1) give an int, anything else a float.
  - The window's sum holds whatever value the closing assignment and
    `+=` (`InPlaceAdd`) make of the sizes.
  - Averages are true divisions, so always floats (`Divide`,
    `PyDivide`). For an integer numerator the value is the exact quotient
    `Ratio(num, den)`, otherwise a `Real`. The distance reporter's
  sums are `real`s. A sum becomes a numpy scalar once an element of the
  distance array, or the `sum` of a non-empty one, is added to it. Divided
  by a zero count it gives inf or nan (`NumpyDivide`) instead of raising.

Behaviours of the code that a reader may not expect, which the model
follows:

- **Encoder batching.** The docstring of `MultiSampleEncoder.__init__`
  (code/encoders/MultiSampleEncoder.py:34-37) describes `max_array_size`
  and `max_time_window_ms` as limits that make the encoder yield an array
  early. The code stores them and never reads them:
  `MultiSampleEncoder.encode` hands on exactly one pair, after the whole
  input is consumed. The model therefore has no bounded batches and no
  intermediate flushes.
- **Missing key strings.** Some keys are used by the code but not defined
  in `code/common/features.py`:
  - the four `Flow.WINDOW_*` keys;
  - `PacketFeature.SOURCE_FILE_NAME`;
  - `PredictionField.OUTPUT_DISTANCE`.

  The model gives them string values of its own choosing: for example
  `flow_window_pkt_count`, `source_file_name` and `output_distance`. They
  are chosen distinct from every other key's string.
- **Host last timestamp.** The host processor records a host's last
  timestamp on every packet. The flow processor and the combined packet
  processor record it only from a flow's (or host's) second packet on.
  So their second packet measures its inter-arrival time from the epoch.
  The model keeps that quirk where the code has it.

## Model

| member | source | states |
|---|---|---|
| FeatureKeys.PacketKeyNameRoundTrip | code/common/features.py:5-27 | every packet feature is found again from its string value |
| FeatureKeys.HostKeyNameRoundTrip | code/common/features.py:28-48 | every host feature is found again from its string value |
| FeatureKeys.FlowKeyNameRoundTrip | code/common/features.py:49-67 | every flow feature is found again from its string value |
| FeatureKeys.PredictionKeyNameRoundTrip | code/common/features.py:68-73 | every prediction field is found again from its string value |
| FeatureKeys.KeyNameRoundTrip | code/common/features.py:5-78 | every key of the four enumerations is found again from its string value |
| FeatureKeys.PacketKeyFromNameSound | code/common/features.py:5-27 | a string resolves only to the packet feature carrying it |
| FeatureKeys.HostKeyFromNameSound | code/common/features.py:28-48 | a string resolves only to the host feature carrying it |
| FeatureKeys.FlowKeyFromNameSound | code/common/features.py:49-67 | a string resolves only to the flow feature carrying it |
| FeatureKeys.PredictionKeyFromNameSound | code/common/features.py:68-73 | a string resolves only to the prediction field carrying it |
| FeatureKeys.KeyFromNameSound | code/common/features.py:5-78 | a name resolves only to the key that carries it |
| FeatureKeys.KeyNamesDistinct | code/common/features.py:5-73 | the string values of all keys of the four enumerations are pairwise distinct, so str-enum keys never collide in one dict |
| Features.PyEqReflexive | code/reporting/AccuracyReporter.py:16-19 | every value is `==` to itself |
| Features.PyEqSymmetric | code/reporting/AccuracyReporter.py:16-19 | `==` is symmetric |
| Features.SetValid | code/preprocessors/HostFeatureProcessor.py:70-85 | writing a key into a dict keeps its order listing every key once |
| Features.SetAllValid | code/preprocessors/HostFeatureProcessor.py:70-85 | writing keys in turn keeps the order listing every key once |
| Features.SetAllKeys | code/preprocessors/HostFeatureProcessor.py:70-85 | writing keys in turn adds exactly those keys |
| Features.SetAllUnchanged | code/preprocessors/HostFeatureProcessor.py:70-85 | writing keys in turn leaves every other key's value unchanged |
| Features.SetAllValue | code/preprocessors/HostFeatureProcessor.py:70-85 | writing distinct keys in turn leaves each holding the value written to it |
| Features.SetAllFields | code/preprocessors/HostFeatureProcessor.py:70-85 | writing distinct keys adds exactly those keys, each with its value, and leaves other keys' values unchanged |
| Features.FreshRecord | code/preprocessors/CppPacketProcessor.py:56-72 | a dict literal maps the i-th key to the i-th value, keys in literal order |
| Features.FlowIdentifierExact | code/common/features.py:81-88 | the identifier exists iff all five flow keys are present, and its components are source address, destination address, source port, destination port and protocol, in that order |
| Features.FlowIdentifierMissingKey | code/common/features.py:83-87 | a record missing a flow key raises KeyError for the first missing key, in reading order |
| Features.FlowIdentifierDependsOnlyOnFlowKeys | code/common/features.py:81-88 | records agreeing on the five flow keys have the same identifier |
| Features.FlowIdentifierIgnoresOtherKeys | code/common/features.py:81-88 | writing any other key leaves the identifier unchanged |
| Features.FlowIdentifierSetAll | code/common/features.py:81-88 | writing several other keys in turn leaves the identifier unchanged |
| Features.FlowIdentifierDirectional | code/common/features.py:81-88 | the reversed record's identifier is the swapped tuple, equal to the original exactly when the swapped values are equal |
| Features.Plus | code/preprocessors/HostFeatureProcessor.py:41-42 | Python's `+` on numbers: the value is the sum, and it is an int exactly when both are integers (bools count as 0 and 1), a float otherwise |
| Features.InPlaceAdd | code/preprocessors/WindowFlowFeatureProcessor.py:78 | Python's `+=`: numbers add as `Plus`, strings concatenate, a list is extended by a list or by a string's characters, and every other pair raises TypeError |
| Features.Divide | code/preprocessors/HostFeatureProcessor.py:73-75 | Python's true division of a number by a non-zero int: a float whose value is the quotient |
| Features.PyDivide | code/preprocessors/WindowFlowFeatureProcessor.py:55-58 | `/` on any value: the quotient for a number and a non-zero count, ZeroDivisionError for a number and 0, TypeError for anything else |
| Features.IntegerValue | code/preprocessors/HostFeatureProcessor.py:41-42 | the integer a bool or int stands for, equal to its numeric value |
| PacketLine.RunLength | code/preprocessors/common.py:75-82 | the length of the longest whitespace-free prefix (`\S+`): all characters before it are non-space and the next one is space or the end |
| PacketLine.LineEnd | code/preprocessors/common.py:81 | where `.` stops matching: the first newline, or the end |
| PacketLine.LastBrace | code/preprocessors/common.py:81 | the last `}` in a range, if any, with no `}` after it |
| PacketLine.Tokens | code/preprocessors/common.py:76-80 | `n` repetitions of `\S+\s`: when they match, exactly n groups are read |
| PacketLine.RunLengthOfToken | code/preprocessors/common.py:76-80 | `\S+` reads a whole token followed by whitespace |
| PacketLine.TokenOfLayout | code/preprocessors/common.py:76-80 | `\S+\s` reads exactly a token followed by one whitespace character |
| PacketLine.TokensOfJoined | code/preprocessors/common.py:76-80 | the five token groups are read back from a line laid out from them |
| PacketLine.LineEndOfPrefix | code/preprocessors/common.py:81 | a newline-free prefix does not end the line early |
| PacketLine.LastBraceAt | code/preprocessors/common.py:81 | the greedy `.+}` stops at the last `}` on the line |
| PacketLine.BlockOfLayout | code/preprocessors/common.py:81 | `{.+}` takes exactly a block when the rest of its line has no `}` |
| PacketLine.MatchLineComplete | code/preprocessors/common.py:75-87 | every well-formed line matches, with exactly the groups it was laid out from |
| PacketLine.TokenSound | code/preprocessors/common.py:76-80 | what one `\S+\s` reads: a token, one whitespace character and the rest |
| PacketLine.Separators | code/preprocessors/common.py:76-80 | the separators the token groups skip, one per group |
| PacketLine.TokensStep | code/preprocessors/common.py:76-80 | reading n groups is reading the first, then n - 1 groups of the rest |
| PacketLine.TokensAreTokens | code/preprocessors/common.py:76-80 | every group read is a non-empty whitespace-free token |
| PacketLine.SeparatorsAreSpaces | code/preprocessors/common.py:76-80 | every separator skipped is a whitespace character |
| PacketLine.TokensJoin | code/preprocessors/common.py:76-80 | tokens, separators and tail make up the whole input |
| PacketLine.TokensSound | code/preprocessors/common.py:76-80 | what the token groups read: tokens each followed by one whitespace character, making up the input with the tail |
| PacketLine.BlockSound | code/preprocessors/common.py:81 | what `{.+}` reads: a block of at least three characters from `{` to `}`, and a rest whose first line has no `}` |
| PacketLine.MatchLineSound | code/preprocessors/common.py:75-87 | every line the pattern matches is a well-formed layout of its groups; with MatchLineComplete, a line is valid iff it has that layout |
| PacketLine.FirstFlags | code/preprocessors/common.py:105-112 | `tcp_flags[0..7]` succeeds iff the value is a list or string of at least eight items, giving the first eight items or one-character strings; IndexError for a shorter one, TypeError for anything else |
| PacketLine.DecodeFeatures | code/preprocessors/common.py:100-112 | a successful decode yields exactly eight flags |
| PacketLine.ParseFields | code/preprocessors/common.py:84-114 | a non-matching line gives only `is_valid = False`; a matching one gives addresses, ports and protocol as the five tokens verbatim and the flow identifier as their 5-tuple |
| PacketLine.DecodeFeaturesFields | code/preprocessors/common.py:100-112 | the decoded timestamp is `ts` µs in ns, the size is `ip_len`, and the flags are the first eight `tcp_flags` |
| PacketLine.ParseDecodedFields | code/preprocessors/common.py:102-112 | flags cwr..fin are `tcp_flags[0]` to `tcp_flags[7]` in order; `ip_size` is `ip_len`; the timestamp is `ts` in microseconds |
| PacketLine.ParseStringFlags | code/preprocessors/common.py:102-112 | a string `tcp_flags` of at least eight characters gives a valid packet whose flag i is its i-th character as a one-character string |
| PacketLine.ParseErrors | code/preprocessors/common.py:100-112 | a matching line whose JSON lacks a field, or has a list or string of fewer than eight flags, raises (IndexError for the short ones); flags that cannot be indexed raise TypeError |
| CppPacket.OutputSignatureDistinct | code/preprocessors/CppPacketProcessor.py:20-38 | no key appears twice in the output signature |
| CppPacket.FeatureStringNotOutput | code/preprocessors/CppPacketProcessor.py:16-38 | the input key is not an output key |
| CppPacket.OutputValues | code/preprocessors/CppPacketProcessor.py:57-71 | one value per output-signature key |
| CppPacket.OutputRecord | code/preprocessors/CppPacketProcessor.py:56-72 | the returned dict holds exactly the output-signature keys, in order, each with its value |
| CppPacket.Process | code/preprocessors/CppPacketProcessor.py:49-72 | None exactly when the line does not match; otherwise a fresh dict with exactly the output signature's keys, in order, and none of the input's |
| CppPacket.ProcessInputErrors | code/preprocessors/CppPacketProcessor.py:50-52 | a record without the feature string raises KeyError; a non-string value raises TypeError |
| CppPacket.ProcessAgreesWithParse | code/preprocessors/CppPacketProcessor.py:40-72 | the grammar is PacketData's: an invalid line gives None, a decode error is the same error, a valid packet gives the record whose i-th key holds the packet's i-th attribute |
| HostFeatures.HostValues | code/preprocessors/HostFeatureProcessor.py:70-85 | one value per output-signature key |
| HostFeatures.CountPacket | code/preprocessors/HostFeatureProcessor.py:38-39 | the source's received and the destination's sent counts are at least one afterwards |
| HostFeatures.HostTiming | code/preprocessors/HostFeatureProcessor.py:44-68 | changes no count or size; records the host's first timestamp and sets its last to this packet's; the duration is time since the first packet |
| HostFeatures.HostUpdate | code/preprocessors/HostFeatureProcessor.py:32-87 | a successful step yields one value per output key |
| HostFeatures.Counted | code/preprocessors/HostFeatureProcessor.py:33-42 | a well-formed record has been counted for its source and destination |
| HostFeatures.HostUpdateAccept | code/preprocessors/HostFeatureProcessor.py:32-87 | a record with both addresses, a numeric size (bool, int or float) and a Timestamp takes the accepting path |
| HostFeatures.HostUpdateReject | code/preprocessors/HostFeatureProcessor.py:32-87 | any other record takes the rejecting path |
| HostFeatures.HostAcceptValues | code/preprocessors/HostFeatureProcessor.py:38-85 | the nine values in terms of the old state: both hosts' counts include this packet and their sums are the old sums plus its size, by Python's `+` |
| HostFeatures.InitialHostStateInv | code/preprocessors/HostFeatureProcessor.py:16-30 | the fresh processor satisfies the invariant (a host has a first timestamp only if counted; the inter-arrival sum equals last minus first) |
| HostFeatures.HostTimingInv | code/preprocessors/HostFeatureProcessor.py:44-68 | the timing part keeps the invariant and never raises once the packet is counted |
| HostFeatures.CountedCounts | code/preprocessors/HostFeatureProcessor.py:33-42 | for any host: counter +1, received/sent counts grow by one and sums by the size (Python `+`) only for its source/destination, timestamps unchanged |
| HostFeatures.CountedInv | code/preprocessors/HostFeatureProcessor.py:38-42 | counting keeps the invariant, and a host seen before now has count at least 2 |
| HostFeatures.HostRejectCounter | code/preprocessors/HostFeatureProcessor.py:33 | the rejecting path counts the packet |
| HostFeatures.HostRejectFirst | code/preprocessors/HostFeatureProcessor.py:35-48 | the rejecting path leaves first timestamps unchanged |
| HostFeatures.HostRejectLast | code/preprocessors/HostFeatureProcessor.py:35-48 | the rejecting path leaves last timestamps unchanged |
| HostFeatures.HostRejectSum | code/preprocessors/HostFeatureProcessor.py:35-48 | the rejecting path leaves inter-arrival sums unchanged |
| HostFeatures.HostRejectClock | code/preprocessors/HostFeatureProcessor.py:33-48 | the rejecting path counts the packet and leaves all timestamps and sums of gaps unchanged |
| HostFeatures.HostRejectCounts | code/preprocessors/HostFeatureProcessor.py:35-42 | the rejecting path never lowers a host's count |
| HostFeatures.HostStepEarlyError | code/preprocessors/HostFeatureProcessor.py:33-48 | a record lacking what is read raises before touching any timestamp, lowering no count |
| HostFeatures.HostStepInv | code/preprocessors/HostFeatureProcessor.py:32-87 | every step keeps the invariant, whether it returns or raises |
| HostFeatures.HostStepFailsOnlyOnInput | code/preprocessors/HostFeatureProcessor.py:32-87 | from the invariant a step never fails on its own dicts nor divides by zero, and succeeds iff the record carries what is read |
| HostFeatures.HostRejectErrors | code/preprocessors/HostFeatureProcessor.py:35-48 | the rejecting path raises only KeyError for a record key or TypeError for a non-numeric size or a non-Timestamp timestamp |
| HostFeatures.HostStepCounter | code/preprocessors/HostFeatureProcessor.py:33 | `overall_packet_counter` rises by exactly one per call |
| HostFeatures.HostRunCounter | code/preprocessors/HostFeatureProcessor.py:33 | after a stream the counter has risen by its length |
| HostFeatures.HostStepMissingAddress | code/preprocessors/HostFeatureProcessor.py:33-36 | a missing address raises KeyError for it, having only counted the packet |
| HostFeatures.HostStepMissingSize | code/preprocessors/HostFeatureProcessor.py:38-41 | a missing size raises KeyError after both hosts' counts rose, with sums and timestamps unchanged |
| HostFeatures.HostSignatureDistinct | code/preprocessors/HostFeatureProcessor.py:103-115 | the output signature lists nine distinct keys |
| HostFeatures.HostStepWrites | code/preprocessors/HostFeatureProcessor.py:70-87 | the same dict comes back with exactly the nine output keys added or overwritten, each holding its value; every other key unchanged |
| HostFeatures.HostStepReceived | code/preprocessors/HostFeatureProcessor.py:70-75 | received count and size are the source's totals including this packet, and the average is a float whose value is their quotient |
| HostFeatures.HostStepSent | code/preprocessors/HostFeatureProcessor.py:77-81 | sent count and size are keyed by destination; the average sent size is a float dividing the source's received size by the destination's count |
| HostFeatures.HostStepFirstPacket | code/preprocessors/HostFeatureProcessor.py:44-68 | a host's first packet gets 0 last and average inter-arrival and 0 duration, and sets first and last timestamp |
| HostFeatures.HostStepLaterPacket | code/preprocessors/HostFeatureProcessor.py:50-68 | a later packet: last inter-arrival is ts minus the previous ts; the average is (ts - first) over count - 1, i.e. the telescoped sum; duration is ts - first |
| HostFeatures.HostStepCounts | code/preprocessors/HostFeatureProcessor.py:38-42 | one record adds one and its size (Python `+`) to its source's and destination's counts and sums, no other host's |
| HostFeatures.HostRunCounts | code/preprocessors/HostFeatureProcessor.py:38-42 | after a stream each host's received count and size sum (by numeric value, ints, bools and floats alike) are those of the packets it sent, and its sent count and size those addressed to it |
| HostProcessor.HostFeatureProcessor.constructor | code/preprocessors/HostFeatureProcessor.py:16-30 | all counters zero and all dicts empty |
| HostProcessor.HostFeatureProcessor.Process | code/preprocessors/HostFeatureProcessor.py:32-87 | the new fields and the result are exactly the step function's |
| HostProcessor.HostFeatureProcessor.CountRecord | code/preprocessors/HostFeatureProcessor.py:33-48 | counts and sums as specified, returning the addresses and timestamp read, or the rejecting path's state and error |
| HostProcessor.HostFeatureProcessor.CountPacketOf | code/preprocessors/HostFeatureProcessor.py:38-39 | the two count dicts updated in place |
| HostProcessor.HostFeatureProcessor.AddSizeOf | code/preprocessors/HostFeatureProcessor.py:41-42 | the two size dicts updated in place by Python's `+` |
| HostProcessor.HostFeatureProcessor.UpdateTiming | code/preprocessors/HostFeatureProcessor.py:44-68 | the timestamp and gap dicts updated in place, as the timing function says |
| FlowFeatures.FlowValues | code/preprocessors/FlowFeatureProcessor.py:72-80 | one value per output-signature key |
| FlowFeatures.CountPacket | code/preprocessors/FlowFeatureProcessor.py:47 | the flow's count is at least one afterwards |
| FlowFeatures.FlowTiming | code/preprocessors/FlowFeatureProcessor.py:50-70 | changes no count or size; on success the flow has a first timestamp and the duration is time since it |
| FlowFeatures.FlowUpdate | code/preprocessors/FlowFeatureProcessor.py:44-82 | a successful step yields one value per output key |
| FlowFeatures.Counted | code/preprocessors/FlowFeatureProcessor.py:45-48 | a well-formed record has been counted for its flow |
| FlowFeatures.FlowUpdateAccept | code/preprocessors/FlowFeatureProcessor.py:44-82 | a record with the flow keys, a numeric size (bool, int or float) and a Timestamp takes the accepting path |
| FlowFeatures.FlowUpdateReject | code/preprocessors/FlowFeatureProcessor.py:44-82 | any other record takes the rejecting path |
| FlowFeatures.CountedCounts | code/preprocessors/FlowFeatureProcessor.py:45-48 | for any flow: count grows by one and sum by the size (Python `+`) only for its own flow, timestamps unchanged |
| FlowFeatures.FlowAcceptValues | code/preprocessors/FlowFeatureProcessor.py:47-80 | the six values in terms of the old state: the count includes this packet and the sum is the old sum plus its size, by Python's `+` |
| FlowFeatures.InitialFlowStateInv | code/preprocessors/FlowFeatureProcessor.py:17-42 | the fresh processor satisfies the invariant |
| FlowFeatures.FlowTimingInv | code/preprocessors/FlowFeatureProcessor.py:50-70 | the timing part keeps the invariant and never raises once the packet is counted |
| FlowFeatures.CountedInv | code/preprocessors/FlowFeatureProcessor.py:47-48 | counting keeps the invariant, and a flow seen before now has count at least 2 |
| FlowFeatures.FlowRejectFirst | code/preprocessors/FlowFeatureProcessor.py:45-55 | the rejecting path leaves first timestamps unchanged |
| FlowFeatures.FlowRejectLast | code/preprocessors/FlowFeatureProcessor.py:45-58 | the rejecting path leaves last timestamps unchanged |
| FlowFeatures.FlowRejectSum | code/preprocessors/FlowFeatureProcessor.py:45-58 | the rejecting path leaves inter-arrival sums unchanged |
| FlowFeatures.FlowRejectErrors | code/preprocessors/FlowFeatureProcessor.py:45-58 | the rejecting path raises only KeyError for a record key or TypeError for a non-numeric size or a non-Timestamp timestamp |
| FlowFeatures.FlowIdentifierErrors | code/common/features.py:81-88 | reading the flow identifier raises only KeyError |
| FlowFeatures.FlowStepInv | code/preprocessors/FlowFeatureProcessor.py:44-82 | every step keeps the invariant, whether it returns or raises |
| FlowFeatures.FlowStepFailsOnlyOnInput | code/preprocessors/FlowFeatureProcessor.py:44-82 | from the invariant a step never divides by zero, and succeeds iff the record carries what is read |
| FlowFeatures.FlowStepMissingFlowKey | code/preprocessors/FlowFeatureProcessor.py:45 | a missing flow key raises KeyError for it before any dict is touched |
| FlowFeatures.FlowStepMissingSize | code/preprocessors/FlowFeatureProcessor.py:47-48 | a missing size raises KeyError after the flow's count rose |
| FlowFeatures.FlowRejectOtherFlows | code/preprocessors/FlowFeatureProcessor.py:45-58 | the rejecting path leaves every other flow unchanged |
| FlowFeatures.FlowAcceptOtherFlows | code/preprocessors/FlowFeatureProcessor.py:45-70 | the accepting path leaves every other flow unchanged |
| FlowFeatures.FlowStepOtherFlows | code/preprocessors/FlowFeatureProcessor.py:45-66 | processing a record of one flow leaves every other flow's state unchanged, whether the step returns or raises |
| FlowFeatures.FlowStepReverseSeparate | code/preprocessors/FlowFeatureProcessor.py:45-66 | reversed-direction traffic is a separate flow: unless the swapped values are equal, it leaves the original flow unchanged |
| FlowFeatures.FlowSignatureDistinct | code/preprocessors/FlowFeatureProcessor.py:98-107 | the output signature lists six distinct keys |
| FlowFeatures.FlowStepWrites | code/preprocessors/FlowFeatureProcessor.py:72-82 | the same dict comes back with exactly the six output keys added or overwritten, each holding its value; every other key unchanged |
| FlowFeatures.FlowStepSizes | code/preprocessors/FlowFeatureProcessor.py:47-77 | count and size sum include this packet, and the average size is a float whose value is their quotient |
| FlowFeatures.FlowStepFirstPacket | code/preprocessors/FlowFeatureProcessor.py:50-55 | a flow's first packet gets 0 inter-arrival, average and duration, and records the first timestamp but not the last |
| FlowFeatures.FlowStepLaterPacket | code/preprocessors/FlowFeatureProcessor.py:57-70 | a later packet: the gap is from the flow's last timestamp or the epoch; the average is the new sum over count - 1; duration is ts - first; last becomes ts |
| FlowFeatures.FlowSecondPacketFromEpoch | code/preprocessors/FlowFeatureProcessor.py:57-66 | a flow's second packet measures its inter-arrival time from the epoch: it is its whole timestamp |
| FlowFeatures.FlowStepCounts | code/preprocessors/FlowFeatureProcessor.py:47-48 | one record adds one and its size (Python `+`) to its own flow only |
| FlowFeatures.FlowRunCounts | code/preprocessors/FlowFeatureProcessor.py:45-48 | after a stream each flow's count and size sum (by numeric value, ints, bools and floats alike) are those of its packets |
| FlowProcessor.FlowFeatureProcessor.constructor | code/preprocessors/FlowFeatureProcessor.py:17-42 | counters zero and dicts empty |
| FlowProcessor.FlowFeatureProcessor.Process | code/preprocessors/FlowFeatureProcessor.py:44-82 | the new fields and result are exactly the step function's |
| FlowProcessor.FlowFeatureProcessor.CountRecord | code/preprocessors/FlowFeatureProcessor.py:45-58 | identifier, count and sum as specified, or the rejecting path's state and error |
| FlowProcessor.FlowFeatureProcessor.CountPacketOf | code/preprocessors/FlowFeatureProcessor.py:47 | the count dict updated in place |
| FlowProcessor.FlowFeatureProcessor.AddSizeOf | code/preprocessors/FlowFeatureProcessor.py:48 | the size dict updated in place by Python's `+` |
| FlowProcessor.FlowFeatureProcessor.UpdateTiming | code/preprocessors/FlowFeatureProcessor.py:50-70 | the timestamp and gap dicts updated in place, as the timing function says |
| WindowFlowFeatures.WindowSizeNs | code/preprocessors/WindowFlowFeatureProcessor.py:28 | the window size in ms as ns: non-negative for a non-negative size, at least 1 ms for a positive one |
| WindowFlowFeatures.WindowValues | code/preprocessors/WindowFlowFeatureProcessor.py:55-64 | one value per window output key |
| WindowFlowFeatures.Opened | code/preprocessors/WindowFlowFeatureProcessor.py:51-52 | after opening, the flow has a window start |
| WindowFlowFeatures.WindowRun | code/preprocessors/WindowFlowFeatureProcessor.py:46-82 | a run never passes on more records than it reads |
| WindowFlowFeatures.WindowRunStep | code/preprocessors/WindowFlowFeatureProcessor.py:47-82 | a run is its first step followed by the run over the rest, unless that step raises |
| WindowFlowFeatures.WindowRunAdvanceErr | code/preprocessors/WindowFlowFeatureProcessor.py:47-82 | a step that raises ends the run with its error, after the records already passed on |
| WindowFlowFeatures.WindowRunAdvanceOk | code/preprocessors/WindowFlowFeatureProcessor.py:47-82 | a step that returns moves the run one record on |
| WindowFlowFeatures.WindowStepAccept | code/preprocessors/WindowFlowFeatureProcessor.py:48-82 | a record with the flow keys and a Timestamp takes the accepting path, whatever its size |
| WindowFlowFeatures.WindowStepReject | code/preprocessors/WindowFlowFeatureProcessor.py:48-82 | any other record takes the rejecting path |
| WindowFlowFeatures.InitialWindowStateInv | code/preprocessors/WindowFlowFeatureProcessor.py:25-44 | the fresh processor satisfies the invariant (every open window counts at least one packet) |
| WindowFlowFeatures.WindowAcceptInv | code/preprocessors/WindowFlowFeatureProcessor.py:51-82 | with a non-negative window size the accepting path keeps the invariant and never divides by zero |
| WindowFlowFeatures.BumpedInv | code/preprocessors/WindowFlowFeatureProcessor.py:51-77 | opening and counting keep the invariant |
| WindowFlowFeatures.WindowStepInv | code/preprocessors/WindowFlowFeatureProcessor.py:48-82 | every step keeps the invariant, whether it returns or raises |
| WindowFlowFeatures.WindowRejectErrors | code/preprocessors/WindowFlowFeatureProcessor.py:48-54 | the rejecting path raises only KeyError for a flow key or the timestamp, or TypeError for a non-Timestamp timestamp |
| WindowFlowFeatures.FlowIdentifierErrors | code/common/features.py:81-88 | reading the flow identifier raises only KeyError |
| WindowFlowFeatures.WindowStepFailsOnlyOnInput | code/preprocessors/WindowFlowFeatureProcessor.py:51-78 | with a non-negative window size no division is by zero, a step raises only KeyError or TypeError, and, with numeric window sums, it returns iff the record has the flow keys, a Timestamp and a size that is a number or closes the window |
| WindowFlowFeatures.WindowNegativeSizeFirstPacket | code/preprocessors/WindowFlowFeatureProcessor.py:51-58 | with a negative window size a flow's first packet closes its empty window and divides by zero |
| WindowFlowFeatures.WindowStepFirstPacket | code/preprocessors/WindowFlowFeatureProcessor.py:51-82 | a flow's first record with a numeric size opens the window at its own time and is absorbed, never passed on; the window then holds it alone, its sum 0 + size, gap from the epoch |
| WindowFlowFeatures.WindowStepPassesOnIff | code/preprocessors/WindowFlowFeatureProcessor.py:54 | with numeric sizes and sums, a record is passed on iff its flow's window is open and ts - window start > window size, strictly |
| WindowFlowFeatures.WindowStepClose | code/preprocessors/WindowFlowFeatureProcessor.py:55-72 | a passed-on record carries the closing window's count, size sum, float average size and average inter-arrival, excluding itself; the window restarts with count 1, its size stored as it is (any value), the gap to the last ts, and last = start = ts |
| WindowFlowFeatures.WindowStepAbsorb | code/preprocessors/WindowFlowFeatureProcessor.py:76-82 | absorbing adds 1 to the count and `+=` the size into the sum; if that succeeds it adds the gap to the last ts (epoch for a new flow) and last becomes ts, and if it raises TypeError only the count changed; the start stays |
| WindowFlowFeatures.WindowSignatureDistinct | code/preprocessors/WindowFlowFeatureProcessor.py:96-103 | the output signature lists four distinct keys |
| WindowFlowFeatures.WindowKeysNotFlowKeys | code/preprocessors/WindowFlowFeatureProcessor.py:84-103 | no window key is one of the keys the flow identifier reads |
| WindowFlowFeatures.AnnotatesSetAll | code/preprocessors/WindowFlowFeatureProcessor.py:55-64 | writing the four values yields the record with exactly the window keys added, count in third place |
| WindowFlowFeatures.WindowAcceptOutput | code/preprocessors/WindowFlowFeatureProcessor.py:54-74 | the record passed on closes a window of at least one packet and a numeric sum, and is the input with that window's values written in |
| WindowFlowFeatures.WindowStepAnnotates | code/preprocessors/WindowFlowFeatureProcessor.py:55-74 | a passed-on record is the input with the window features written in |
| WindowFlowFeatures.Shift | code/preprocessors/WindowFlowFeatureProcessor.py:47 | positions moved one on, in order |
| WindowFlowFeatures.SubsequenceSkip | code/preprocessors/WindowFlowFeatureProcessor.py:76-82 | absorbing the first record keeps the output a subsequence |
| WindowFlowFeatures.SubsequenceCons | code/preprocessors/WindowFlowFeatureProcessor.py:74 | passing the first record on extends the subsequence |
| WindowFlowFeatures.WindowRunSubsequence | code/preprocessors/WindowFlowFeatureProcessor.py:47-82 | the output is an in-order subsequence of the input: output j is input PassedOn[j] annotated, at strictly increasing positions |
| WindowFlowFeatures.WindowStepAccounts | code/preprocessors/WindowFlowFeatureProcessor.py:54-82 | for any flow, a step that returns either adds its record to the open window or passes it on reporting the window's count and restarts it |
| WindowFlowFeatures.BumpedCount | code/preprocessors/WindowFlowFeatureProcessor.py:51-77 | a flow's count once a window is opened and counted |
| WindowFlowFeatures.ReportedCountOne | code/preprocessors/WindowFlowFeatureProcessor.py:63 | the count one passed-on record reports for a flow |
| WindowFlowFeatures.ReportedCountAppend | code/preprocessors/WindowFlowFeatureProcessor.py:63 | reported counts add up over concatenation |
| WindowFlowFeatures.WindowRunNoFlush | code/preprocessors/WindowFlowFeatureProcessor.py:46-82 | no end-of-stream flush: over a stream that raises nothing, every packet of a flow is either in a reported window count or still in the open window |
| WindowFlowFeatures.WindowStepNumeric | code/preprocessors/WindowFlowFeatureProcessor.py:66-78 | a step keeps every window sum a number unless it passes on a record whose size is not a number, which becomes the next sum |
| WindowFlowFeatures.WindowStepCloseNonNumber | code/preprocessors/WindowFlowFeatureProcessor.py:54-58 | closing a window whose stored sum is not a number raises TypeError before any update |
| WindowFlowFeatures.WindowRunCompletes | code/preprocessors/WindowFlowFeatureProcessor.py:46-82 | with a non-negative window size, numeric sizes and numeric sums, a stream raises nothing |
| WindowProcessor.WindowFlowFeatureProcessor.constructor | code/preprocessors/WindowFlowFeatureProcessor.py:25-44 | window size in ns, counters zero, dicts empty |
| WindowProcessor.WindowFlowFeatureProcessor.Process | code/preprocessors/WindowFlowFeatureProcessor.py:46-82 | the loop's new fields, records passed on and stopping error are exactly the run function's |
| WindowProcessor.WindowFlowFeatureProcessor.ProcessRecord | code/preprocessors/WindowFlowFeatureProcessor.py:48-82 | one loop body: new fields and result exactly the step function's |
| WindowProcessor.WindowFlowFeatureProcessor.OpenWindow | code/preprocessors/WindowFlowFeatureProcessor.py:51-52 | the window-start dict updated in place |
| WindowProcessor.WindowFlowFeatureProcessor.CloseWindow | code/preprocessors/WindowFlowFeatureProcessor.py:66-72 | the five dicts reset in place for the new window |
| WindowProcessor.WindowFlowFeatureProcessor.AbsorbPacket | code/preprocessors/WindowFlowFeatureProcessor.py:77-82 | the summed size, gap and last timestamp updated in place |
| PacketStatistics.EmptyTally | code/preprocessors/PacketProcessor.py:17-50 | a tally with no counts and no first or last timestamps |
| PacketStatistics.Tick | code/preprocessors/PacketProcessor.py:60-62 | the key's count rises by one |
| PacketStatistics.TallyTiming | code/preprocessors/PacketProcessor.py:68-110 | the timing part changes no count and no size sum |
| PacketStatistics.OutputRecord | code/preprocessors/PacketProcessor.py:112-152 | a fresh dict with exactly the signature keys, in order, each holding its value, and KeyError for any other key |
| PacketStatistics.Timed | code/preprocessors/PacketProcessor.py:68-110 | the host then the flow timing part: both counters, every count and every size sum unchanged |
| PacketStatistics.PacketRun | code/preprocessors/PacketProcessor.py:52-152 | at most one result per packet |
| PacketStatistics.PacketStepAccept | code/preprocessors/PacketProcessor.py:55-152 | a valid packet with a numeric size (bool, int or float) takes the accepting path |
| PacketStatistics.PacketStepReject | code/preprocessors/PacketProcessor.py:55-66 | any other packet takes the rejecting path |
| PacketStatistics.InitialPacketStateInv | code/preprocessors/PacketProcessor.py:17-50 | the fresh processor satisfies the invariant |
| PacketStatistics.TickInv | code/preprocessors/PacketProcessor.py:60-62 | counting keeps a tally's invariant |
| PacketStatistics.TickAddSizeInv | code/preprocessors/PacketProcessor.py:60-66 | counting and adding the size keep a tally's invariant |
| PacketStatistics.TallyTimingInv | code/preprocessors/PacketProcessor.py:68-110 | the timing part keeps the invariant and never raises once the packet is counted |
| PacketStatistics.TallyTimingFirst | code/preprocessors/PacketProcessor.py:68-95 | a key's first packet gets 0 inter-arrival, average and duration, records its first timestamp, leaves its last unset |
| PacketStatistics.TallyTimingLater | code/preprocessors/PacketProcessor.py:74-110 | a later packet: gap from the last timestamp (epoch for the second packet); average = sum over count - 1; the sums telescope to ts minus the epoch-or-first reference |
| PacketStatistics.TallyTimingOtherKeys | code/preprocessors/PacketProcessor.py:68-110 | the timing part changes nothing for any other key |
| PacketStatistics.PacketStepInv | code/preprocessors/PacketProcessor.py:52-152 | every call keeps the invariant |
| PacketStatistics.PacketStepCounters | code/preprocessors/PacketProcessor.py:55-58 | overall counter +1 per call; valid counter +1 exactly for valid packets, so overall >= valid is kept |
| PacketStatistics.PacketStepInvalid | code/preprocessors/PacketProcessor.py:55-57 | an invalid packet returns None and changes only the overall counter |
| PacketStatistics.PacketStepFailsOnlyOnSize | code/preprocessors/PacketProcessor.py:52-152 | from the invariant, a call raises only TypeError, and exactly for a valid packet whose size is not a number; otherwise a record iff valid |
| PacketStatistics.TallyTimingExpected | code/preprocessors/PacketProcessor.py:68-110 | after counting, the timing part yields the closed-form timing |
| PacketStatistics.TalliedCounts | code/preprocessors/PacketProcessor.py:60-66 | one more packet and its size (Python `+`) for its source host, destination host and flow; no change for any other key |
| PacketStatistics.TalliedTimed | code/preprocessors/PacketProcessor.py:68-110 | once counted, both timing parts keep the invariant, never raise, and yield the closed-form timings |
| PacketStatistics.PacketStepRecord | code/preprocessors/PacketProcessor.py:112-152 | a valid packet gives a fresh dict with exactly the keys of `signature()`, in order, each with its value; KeyError for any other key |
| PacketStatistics.WrittenReceived | code/preprocessors/PacketProcessor.py:122-129 | received count and size sum include this packet; the average is a float whose value is their quotient |
| PacketStatistics.WrittenSent | code/preprocessors/PacketProcessor.py:130-137 | sent count and size include this packet; the average sent size is a float dividing the source's size sum by the destination's count |
| PacketStatistics.WrittenFlowSizes | code/preprocessors/PacketProcessor.py:141-148 | flow count and size sum include this packet; the average is a float whose value is their quotient |
| PacketStatistics.SecondPacketFromEpoch | code/preprocessors/PacketProcessor.py:74-106 | a key's second packet measures its gap from the epoch: gap and average are its timestamp |
| PacketStatistics.PacketStepOtherKeys | code/preprocessors/PacketProcessor.py:60-110 | a packet leaves every other host's and flow's counts, sums and timestamps unchanged |
| PacketStatistics.PacketRunCounts | code/preprocessors/PacketProcessor.py:52-152 | over a stream in which every valid packet has a numeric size, nothing raises, one result per packet, a record exactly for valid ones, counters advance by packets and valid packets |
| PacketStatistics.PacketRunStops | code/preprocessors/PacketProcessor.py:52-152 | a stream stops only at a valid packet whose size is not a number, with TypeError |
| PacketStatistics.PacketSignatureDistinct | code/preprocessors/PacketProcessor.py:154-181 | no key appears twice in a one-kind signature |
| PacketStatistics.DistinctJoin | code/preprocessors/PacketProcessor.py:154-181 | joining distinct signatures of different kinds keeps them distinct |
| PacketStatistics.SignatureDistinct | code/preprocessors/PacketProcessor.py:154-181 | `signature()` names every key once: size and flags, then host and flow features |
| PacketProcessor.PacketProcessor.constructor | code/preprocessors/PacketProcessor.py:17-50 | counters zero and dicts empty |
| PacketProcessor.PacketProcessor.Process | code/preprocessors/PacketProcessor.py:52-152 | the new fields and result are exactly the step function's |
| PacketProcessor.PacketProcessor.CountPacket | code/preprocessors/PacketProcessor.py:58-62 | the valid counter and three counts updated in place |
| PacketProcessor.PacketProcessor.CountFromHost | code/preprocessors/PacketProcessor.py:60 | the source host's count updated in place |
| PacketProcessor.PacketProcessor.CountToHost | code/preprocessors/PacketProcessor.py:61 | the destination host's count updated in place |
| PacketProcessor.PacketProcessor.CountByFlow | code/preprocessors/PacketProcessor.py:62 | the flow's count updated in place |
| PacketProcessor.PacketProcessor.AddSizes | code/preprocessors/PacketProcessor.py:64-66 | the three size sums updated in place by Python's `+` |
| PacketProcessor.PacketProcessor.AddSizeFromHost | code/preprocessors/PacketProcessor.py:64 | the source host's size sum updated in place |
| PacketProcessor.PacketProcessor.AddSizeToHost | code/preprocessors/PacketProcessor.py:65 | the destination host's size sum updated in place |
| PacketProcessor.PacketProcessor.AddSizeByFlow | code/preprocessors/PacketProcessor.py:66 | the flow's size sum updated in place |
| PacketProcessor.PacketProcessor.HostTiming | code/preprocessors/PacketProcessor.py:68-88 | the host timestamp and gap dicts updated in place, as the timing function says |
| PacketProcessor.PacketProcessor.FlowTiming | code/preprocessors/PacketProcessor.py:90-110 | the flow timestamp and gap dicts updated in place, as the timing function says |
| FileLabel.NewFileLabelProcessor | code/preprocessors/FileLabelProcessor.py:31-43 | fails iff a label file is given; the label is None, a default int label or the given value |
| FileLabel.LabelFileRaises | code/preprocessors/FileLabelProcessor.py:37-38 | a label file raises NotImplementedError |
| FileLabel.DefaultLabelOverrides | code/preprocessors/FileLabelProcessor.py:13-40 | a known capture file's default label overrides the label value |
| FileLabel.LabelValueOtherwise | code/preprocessors/FileLabelProcessor.py:41-42 | otherwise the label is the label value when truthy, else None |
| FileLabel.NonAnomalousNeverWritten | code/preprocessors/FileLabelProcessor.py:12-47 | for a capture file labelled 0, process writes nothing |
| FileLabel.GroundTruthNeverZeroed | code/preprocessors/FileLabelProcessor.py:45-47 | GROUND_TRUTH is never set to 0 |
| FileLabel.ProcessChangesOnlyGroundTruth | code/preprocessors/FileLabelProcessor.py:45-49 | process changes and adds no key but GROUND_TRUTH, sets it to a truthy label, else returns the record unchanged |
| FileLabel.ProcessIdempotent | code/preprocessors/FileLabelProcessor.py:45-49 | process is idempotent |
| MultiSampleEncoder.FindKeySound | code/encoders/MultiSampleEncoder.py:79-90 | a filter entry (a string) finds the key with that string value, or none iff no key has it |
| MultiSampleEncoder.RowColumns | code/encoders/MultiSampleEncoder.py:79-90 | a row holds entry j's value at place j; it fails iff some column does, with the first such KeyError |
| MultiSampleEncoder.MultiSampleEncoder.constructor | code/encoders/MultiSampleEncoder.py:19-43 | the filter and both bounds are stored as given |
| MultiSampleEncoder.MultiSampleEncoder.Encode | code/encoders/MultiSampleEncoder.py:45-100 | the records, rows, error and new filter are exactly the specification's; the bounds are never consulted |
| MultiSampleEncoder.EncodedStops | code/encoders/MultiSampleEncoder.py:64-94 | a row failing at sample i stops the stream with its error |
| MultiSampleEncoder.RowsSnoc | code/encoders/MultiSampleEncoder.py:86-94 | one more sample adds its row or stops with its error |
| MultiSampleEncoder.CollectOk | code/encoders/MultiSampleEncoder.py:79-90 | a successful collection holds every value, in order |
| MultiSampleEncoder.CollectOkIff | code/encoders/MultiSampleEncoder.py:79-90 | collection succeeds iff every item does |
| MultiSampleEncoder.CollectErr | code/encoders/MultiSampleEncoder.py:79-90 | a failed collection fails with the first failing item's error |
| MultiSampleEncoder.EncodeEmpty | code/encoders/MultiSampleEncoder.py:60-100 | empty input yields `([], None)` and leaves the filter unchanged |
| MultiSampleEncoder.EncodeRowsAndColumns | code/encoders/MultiSampleEncoder.py:61-100 | one pair: the records exactly as they came, with one row per record and one column per filter entry, row i = `[record_i[f] for f in filter]` |
| MultiSampleEncoder.EncodeFixesFilter | code/encoders/MultiSampleEncoder.py:73-75 | with no or an empty filter, the first record's key order becomes the stored filter; a given one is kept |
| MultiSampleEncoder.EncodeFails | code/encoders/MultiSampleEncoder.py:79-90 | the stream fails iff some record lacks a filter entry, with a KeyError for an entry the first such record lacks |
| MultiSampleEncoder.FindKeyOwnName | code/encoders/MultiSampleEncoder.py:75-79 | a key's own string value finds that key |
| MultiSampleEncoder.SchemaRowOfFirst | code/encoders/MultiSampleEncoder.py:73-80 | the first record fits its own schema: its row is its values in key order |
| MultiSampleEncoder.RowIgnoresOtherKeys | code/encoders/MultiSampleEncoder.py:79-90 | keys outside the filter are ignored |
| AccuracyReporter.Summarize | code/reporting/AccuracyReporter.py:46-56 | the summary changes no correct count and not the models' order |
| AccuracyReporter.AccuracyReporter.constructor | code/reporting/AccuracyReporter.py:9-12 | both counters empty |
| AccuracyReporter.AccuracyReporter.Report | code/reporting/AccuracyReporter.py:14-22 | new counters and result exactly the report step's |
| AccuracyReporter.AccuracyReporter.EndProcessing | code/reporting/AccuracyReporter.py:46-56 | the lines, new counters and error exactly the summary's |
| AccuracyReporter.AccuracyReporter.SummarizeModel | code/reporting/AccuracyReporter.py:47-54 | one model's line and the false-count insertion |
| AccuracyReporter.ReportNeedsSignature | code/reporting/AccuracyReporter.py:15-18 | a report succeeds iff the record carries MODEL_NAME, OUTPUT_BINARY and GROUND_TRUTH |
| AccuracyReporter.ReportFailsOnFirstMissing | code/reporting/AccuracyReporter.py:15-18 | a failing report raises KeyError for the first missing key, in reading order |
| AccuracyReporter.ReportCountsOnce | code/reporting/AccuracyReporter.py:14-22 | exactly one counter of the record's model rises by one: correct iff OUTPUT_BINARY == GROUND_TRUTH; other models unchanged |
| AccuracyReporter.ReportKeepsInv | code/reporting/AccuracyReporter.py:14-22 | the correct counts' order stays exact and every correct count positive |
| AccuracyReporter.ReportAllCounts | code/reporting/AccuracyReporter.py:15-22 | correct and false counts grow by the matching and non-matching reports of each model; their sum by its number of reports |
| AccuracyReporter.ReportAllKeepsInv | code/reporting/AccuracyReporter.py:14-22 | a whole stream keeps the invariant |
| AccuracyReporter.SummarizeStops | code/reporting/AccuracyReporter.py:46-56 | once the summary raises, the error and state stay |
| AccuracyReporter.AccuracyBounds | code/reporting/AccuracyReporter.py:48-51 | a correct count of at least one gives an accuracy in (0, 1] |
| AccuracyReporter.SummaryKeepsCounts | code/reporting/AccuracyReporter.py:46-53 | the summary only inserts a false count of 0 for models that had none |
| AccuracyReporter.SummaryOk | code/reporting/AccuracyReporter.py:46-56 | the summary never raises and has one line per model |
| AccuracyReporter.SummaryLastLine | code/reporting/AccuracyReporter.py:46-56 | the n-th line lists model n - 1 and its accuracy |
| AccuracyReporter.SummaryKeepsLine | code/reporting/AccuracyReporter.py:46 | summarizing more models keeps earlier lines |
| AccuracyReporter.SummaryLine | code/reporting/AccuracyReporter.py:46-56 | line i lists model i |
| AccuracyReporter.SummaryAccuracy | code/reporting/AccuracyReporter.py:46-56 | the summary never raises and lists every model with a correct result, in insertion order |
| AccuracyReporter.SummaryAccuracyInRange | code/reporting/AccuracyReporter.py:46-51 | only models with a correct result are listed, so every accuracy lies in (0, 1] |
| AccuracyReporter.SummaryInsertsFalseCounts | code/reporting/AccuracyReporter.py:50 | afterwards every listed model has a false count |
| DistanceReporter.Abs | code/reporting/DistanceReporter.py:42-57 | `abs` is non-negative and is the number or its negation |
| DistanceReporter.SumAbs | code/reporting/DistanceReporter.py:56-57 | a sum of absolute values is non-negative and at least the first term |
| DistanceReporter.Elements | code/reporting/DistanceReporter.py:36 | what `enumerate` walks: a list's items or a string's one-character strings; fails for anything else |
| DistanceReporter.AbsSum | code/reporting/DistanceReporter.py:56-57 | `sum(abs(d))` succeeds iff d is a list of numbers, is then non-negative, and raises TypeError otherwise |
| DistanceReporter.NumpyDivide | code/reporting/DistanceReporter.py:76-78 | a numpy scalar over a positive count is the finite quotient; over 0 it is inf, -inf or nan by the sign of the sum, without raising |
| DistanceReporter.Summarize | code/reporting/DistanceReporter.py:64-85 | the summary changes no sum, not the sums' order and not which sums are numpy scalars |
| DistanceReporter.DistanceReporter.constructor | code/reporting/DistanceReporter.py:19-31 | the feature list stored, sums and counts empty |
| DistanceReporter.DistanceReporter.Report | code/reporting/DistanceReporter.py:33-58 | new sums, order, counts and result exactly the report step's |
| DistanceReporter.DistanceReporter.TouchSum | code/reporting/DistanceReporter.py:42-56 | reading a sum through the defaultdict inserts 0 |
| DistanceReporter.DistanceReporter.AddSum | code/reporting/DistanceReporter.py:42-57 | adding to a sum in place; a numpy scalar makes the sum one |
| DistanceReporter.DistanceReporter.CountSample | code/reporting/DistanceReporter.py:48-58 | one more sample in place |
| DistanceReporter.DistanceReporter.EndProcessing | code/reporting/DistanceReporter.py:60-87 | the lines, new counts and error exactly the summary's |
| DistanceReporter.DistanceReporter.AverageOf | code/reporting/DistanceReporter.py:65-78 | one group's average and the count insertion: ZeroDivisionError only for a zero count over a sum still the int 0, inf or nan for a numpy sum |
| DistanceReporter.FeatureSumsStops | code/reporting/DistanceReporter.py:36-42 | once the loop raises, the error and state stay |
| DistanceReporter.SummarizeStops | code/reporting/DistanceReporter.py:64-85 | once the summary raises, the error and state stay |
| DistanceReporter.TouchKeepsInv | code/reporting/DistanceReporter.py:42-56 | a defaultdict read keeps the invariant, adds its key, lowers nothing |
| DistanceReporter.AddKeepsInv | code/reporting/DistanceReporter.py:42-57 | adding a non-negative amount keeps the invariant, lowers nothing |
| DistanceReporter.ElementStepKeepsInv | code/reporting/DistanceReporter.py:36-42 | one element keeps the invariant, leaves counts alone, adds only its model and label's key |
| DistanceReporter.FeatureSumsKeepsInv | code/reporting/DistanceReporter.py:36-42 | the feature loop keeps the invariant, whether or not it raises |
| DistanceReporter.ElementStepGrows | code/reporting/DistanceReporter.py:42 | one element lowers no sum |
| DistanceReporter.FeatureSumsGrows | code/reporting/DistanceReporter.py:36-42 | the feature loop lowers no sum |
| DistanceReporter.ReportKeepsInv | code/reporting/DistanceReporter.py:33-58 | sums stay non-negative and never decrease, whether the report succeeds or raises |
| DistanceReporter.FeatureSumsOk | code/reporting/DistanceReporter.py:36-42 | the loop succeeds iff every element has a feature name and is a number |
| DistanceReporter.FeatureSumsAdds | code/reporting/DistanceReporter.py:36-42 | a successful loop adds to each key the absolute distances of the elements under it |
| DistanceReporter.AddedDistinct | code/reporting/DistanceReporter.py:36-42 | with distinct feature names, key (model, label, feature_list[i]) receives exactly abs(d_i) |
| DistanceReporter.AddedNone | code/reporting/DistanceReporter.py:36-42 | a key no element falls under receives nothing |
| DistanceReporter.ElementStepKeys | code/reporting/DistanceReporter.py:37-42 | one element adds only a key of its model and label |
| DistanceReporter.FeatureSumsCounts | code/reporting/DistanceReporter.py:36-42 | the loop leaves the counts alone |
| DistanceReporter.FeatureSumsKeys | code/reporting/DistanceReporter.py:36-42 | the loop adds only keys of its model and label |
| DistanceReporter.ReportCountsOnce | code/reporting/DistanceReporter.py:44-58 | a successful report adds one to exactly one count, per report, not per feature |
| DistanceReporter.ReportAddsDistances | code/reporting/DistanceReporter.py:34-42 | with a feature list, each (model, label, feature) sum grows by the absolute distances under that feature |
| DistanceReporter.ReportOverlongRaises | code/reporting/DistanceReporter.py:36-40 | a distance vector longer than the feature list raises IndexError after adding the elements before it |
| DistanceReporter.NoListReportAdds | code/reporting/DistanceReporter.py:49-57 | without a feature list, sum(abs(d)) goes to (model, label, None) and no other sum changes; that sum becomes a numpy scalar iff the array is non-empty |
| DistanceReporter.NoListKeepsNoPairCounts | code/reporting/DistanceReporter.py:49-58 | without a feature list, the count is kept under the three-element key, never under a pair |
| DistanceReporter.NoListSummary | code/reporting/DistanceReporter.py:58-78 | with no pair counted, every group divides by 0: the summary raises ZeroDivisionError iff some sum is still the int 0, and otherwise reports each group with 0 samples and numpy's inf/nan quotient |
| DistanceReporter.ListReportKeepsCovered | code/reporting/DistanceReporter.py:34-48 | with a feature list, every summed pair stays counted |
| DistanceReporter.NoListReportAllKeepsNoPairCounts | code/reporting/DistanceReporter.py:49-58 | a stream without a feature list never counts a pair |
| DistanceReporter.ListReportAllKeepsCovered | code/reporting/DistanceReporter.py:34-48 | a stream of successful reports with a feature list keeps the invariant and every pair counted |
| DistanceReporter.SummaryKeepsCounts | code/reporting/DistanceReporter.py:66 | the summary only inserts pair counts of 0 |
| DistanceReporter.SummaryOk | code/reporting/DistanceReporter.py:64-85 | with every group counted, the summary never raises and has one line per sum |
| DistanceReporter.SummaryLastLine | code/reporting/DistanceReporter.py:64-85 | the n-th line reports group n - 1 |
| DistanceReporter.SummaryKeepsLine | code/reporting/DistanceReporter.py:64 | summarizing more groups keeps earlier lines |
| DistanceReporter.AverageNonNegative | code/reporting/DistanceReporter.py:76-78 | a non-negative sum over a positive count is a finite, non-negative average |
| DistanceReporter.SummaryAverages | code/reporting/DistanceReporter.py:64-85 | with every pair counted, end never raises and lists each group once, in insertion order, with a finite, non-negative average |
| DistanceReporter.ListModeSummarizes | code/reporting/DistanceReporter.py:33-87 | with a feature list, after successful reports `end_processing` never divides by zero |
| DistanceReporter.ReportAllKeepsInv | code/reporting/DistanceReporter.py:33-58 | a stream of reports keeps every sum non-negative and the order exact, whether or not one raises |
| DistanceReporter.NoListModeSummary | code/reporting/DistanceReporter.py:49-85 | without a feature list, after any stream `end_processing` raises ZeroDivisionError iff some sum is still the int 0; otherwise every group is listed with 0 samples and an average of inf, or nan for a zero sum |
| AnomalyModel.Join | code/models/IAnomalyDetectionModel.py:18-26 | `os.path.join`: ends with b; a relative b is appended under a; an absolute b replaces a |
| AnomalyModel.ModelPath | code/models/IAnomalyDetectionModel.py:14-26 | succeeds iff the chosen parts are strings, TypeError otherwise |
| AnomalyModel.NewStoredModel | code/models/IAnomalyDetectionModel.py:6-11 | succeeds only with MODEL_NAME present and truthy and PATH present |
| AnomalyModel.GivenPathUnderBase | code/models/IAnomalyDetectionModel.py:18-21 | a relative path given lies under the base and ends with it |
| AnomalyModel.AbsolutePathIgnoresBase | code/models/IAnomalyDetectionModel.py:18-21 | an absolute path given is used as it is |
| AnomalyModel.DefaultPathLayout | code/models/IAnomalyDetectionModel.py:22-26 | without a path the result is join(base, name, name + ".pickle") |
| AnomalyModel.DefaultPathEndsInPickle | code/models/IAnomalyDetectionModel.py:22-26 | the default path ends with name + ".pickle" |
| AnomalyModel.MissingNameRaises | code/models/IAnomalyDetectionModel.py:7 | an absent MODEL_NAME raises KeyError |
| AnomalyModel.FalsyNameRaises | code/models/IAnomalyDetectionModel.py:7 | a falsy MODEL_NAME fails the assertion |
| AnomalyModel.MissingPathRaises | code/models/IAnomalyDetectionModel.py:8-11 | a missing PATH key raises KeyError |
| AnomalyModel.FalsyPathIsDefault | code/models/IAnomalyDetectionModel.py:8-26 | a falsy PATH selects the default location |
| AnomalyModel.GivenPathDecides | code/models/IAnomalyDetectionModel.py:8-21 | a non-empty string PATH decides the store file |

## Left out

- The data loaders and the C++ feature extractor are left out. They are capture, subprocess and file I/O. The extractor's output also never matches the parsers' grammar.
- The concrete models and their persistence are left out. These are the random forest and autoencoder fitting and prediction, and pickle/joblib. They are foreign calls.
- The InfluxDB reporter is left out because it is a network client. The default and unlabeled encoders (numpy wrappers) are also left out.
- The Kitsune label processor is left out: it reads an external CSV reader.
- The CLI, configuration templating, logging, timing instrumentation and `report_performance` are left out. Printed and logged report text (formatting, `round`) is left out too. The reporters' results are the lines' contents.
- JSON decoding is not modelled. The decoded `ts`, `ip_len` and `tcp_flags` of a packet line are a parameter, `Option<map<string, Value>>`, with `None` for text that is not JSON.
- PacketLine.FirstFlags: a JSON object under `tcp_flags` cannot be a `Value`, so the source's `KeyError(0)` from `tcp_flags[0]` on a dict is not modelled; the same holds for DecodeFeatures, Parse and CppPacket.Process.
- `pandas.to_datetime` on a non-integer `ts` is left out. Only integer microseconds are converted.
- Pandas `Timedelta / int` rounding and float rounding are left out. A size average of integers is the exact quotient `Ratio`, and a float is a real number without rounding.
- Timestamps and durations are unbounded integers. The source holds them as 64-bit nanoseconds: `pandas.to_datetime(ts, unit="us")` (code/preprocessors/CppPacketProcessor.py:62) raises `OutOfBoundsDatetime` for a time outside that range, and Timestamp and Timedelta arithmetic overflows past it. Neither is modelled.
- HostFeatures.HostReject: a record whose timestamp is not a Timestamp raises TypeError before any timestamp store. The source first stores it as the host's first and last timestamp, and for a first packet with an int timestamp it then raises AttributeError at `host_connection_duration.value` (code/preprocessors/HostFeatureProcessor.py:85). The same holds for HostUpdateReject, HostStepEarlyError (whose premise includes such a timestamp) and the HostReject* lemmas.
- FlowFeatures.FlowReject: a record whose timestamp is not a Timestamp raises TypeError. In the source, a flow's first packet stores any timestamp value and succeeds (code/preprocessors/FlowFeatureProcessor.py:50-55); only a later packet's subtraction may raise. The same holds for FlowUpdateReject and the FlowReject* lemmas.
- FlowFeatures.FlowStepFailsOnlyOnInput: its `Ok? <==> FlowInput(rec)` counts a record whose timestamp is not a Timestamp as failing. For a new flow the source accepts such a record (code/preprocessors/FlowFeatureProcessor.py:50-55), so the iff does not hold for it in the source; it holds for every record with a Timestamp.
- WindowFlowFeatures.WindowReject: a record whose timestamp is not a Timestamp raises TypeError with the state unchanged. The source first stores it as `first_timestamp_after_yield` for a new flow (code/preprocessors/WindowFlowFeatureProcessor.py:51-52), then fails at the comparison on line 54. The same holds for WindowStepReject and WindowRejectErrors.
- Features.InPlaceAdd: on a list, `+=` extends the list object in place. The closing size stored as the window's sum is the record's own value, so the source's later `+=` also changes the size held by the record passed on. The model's values do not alias, and this is not modelled.
- WindowFlowFeatures.WindowAcceptInv: does not promise that the accepting path returns. A size that `+=` or `/` cannot take raises TypeError; WindowStepFailsOnlyOnInput states exactly when.
- HostFeatures.HostReject, FlowFeatures.FlowReject, PacketStatistics.PacketReject, WindowFlowFeatures.WindowAccept and WindowProcessor.WindowFlowFeatureProcessor.ProcessRecord: `d[k] += size` reads `d[k]` before the size, so a missing or non-numeric size leaves the key inserted with 0 in the source's size-sum defaultdict (code/preprocessors/HostFeatureProcessor.py:41, code/preprocessors/FlowFeatureProcessor.py:48, code/preprocessors/PacketProcessor.py:64, code/preprocessors/WindowFlowFeatureProcessor.py:78). The model leaves the map unchanged. Every later read gives the same 0 and these dicts are never iterated, so no output differs.
- DistanceReporter.EndStep: a sum counts as a numpy scalar once a list element or a non-empty list's `sum` is added, so a distance is taken to be a numpy array. A plain Python list of floats would give a Python float sum, which raises ZeroDivisionError over a zero count. numpy's RuntimeWarning is left out.
- WindowFlowFeatures.WindowStepPassesOnIff: stated for numeric sizes and sums only. For other values WindowStepNumeric and WindowStepCloseNonNumber describe the step.
- Python's cross-type dict-key equality is left out. The model treats `1`, `1.0` and `True` as distinct dict keys (host addresses, labels, model names), although Python treats them as one key. Hashability is not modelled either.
- Generators are modelled as sequences. The stream that goes in is a sequence, and the records handed on are a sequence. Laziness and interleaving between stages are not modelled. An exception ends the sequence after the records already handed on.
- Records are modelled as values. `process` returns the updated record rather than mutating the caller's dict. Aliasing between the returned dict and the caller's is not modelled.
- The encoder's xarray/numpy array is a sequence of rows of values: coordinates, dtype and float conversion are left out.
- DistanceReporter.DistanceReporter.Report: the distance array is modelled as a flat list of numbers. Nested numpy arrays and broadcasting of `abs` are left out.
- DistanceReporter.DistanceReporter.Report reads the record's model name and ground truth once before the loop. The source reads them on every iteration. The behaviour is the same, because reading a dict is side-effect free and the record does not change.
- The windowed processor's `valid_packet_counter` and `overall_packet_counter` are kept as fields. The source never updates them, so they stay 0.
- WindowFlowFeatures.WindowStepFailsOnlyOnInput: only states the non-negative window size case. A negative size makes a flow's first packet divide by zero, and that case is stated separately in WindowNegativeSizeFirstPacket.
