/**
  The file label processor: a ground-truth label chosen once, when the
  processor is built, from the capture file's name or a given value, and
  written into every record that passes through.
 */
module FileLabel {
  import opened Wrappers
  import opened FeatureKeys
  import opened Errors
  import opened Features

  /** The labels of the known capture files: 1 for anomalous data, 0 for non-anomalous data. */
  const DefaultLabels: map<string, int> := map[
    "MQTTset/Data/PCAP/capture_flood.pcap" := 1,
    "MQTTset/Data/PCAP/capture_1w.pcap" := 0,
    "MQTTset/Data/PCAP/capture_custom_1h.pcap" := 0,
    "MQTTset/Data/PCAP/slowite.pcap" := 1,
    "MQTTset/Data/PCAP/capture_malariaDoS.pcap" := 1,
    "kaiyodai-ship/tcpdump/mqtt-perftool.cap" := 0,
    "kaiyodai-ship/tcpdump/mqtt-sensor.cap" := 0
  ]

  /** An optional string argument that Python treats as true: given and not empty. */
  predicate Given(o: Option<string>)
  {
    o.Some? && o.value != []
  }

  /** The processor once built: the label it writes (Null for None). */
  datatype FileLabelProcessor = FileLabelProcessor(value: Value)

  /**
    The constructor: a label file is not supported; a known capture file
    takes its default label, overriding any label value; otherwise the
    label value is kept when it is true in Python's sense, and None
    otherwise.
   */
  function NewFileLabelProcessor(sourceFile: Option<string>, labelFile: Option<string>, labelValue: Value)
    : (r: Result<FileLabelProcessor>)
    ensures r.Err? <==> Given(labelFile)
    ensures r.Ok? ==> r.value.value.Null? || r.value.value.Int? || r.value.value == labelValue
  {
    if Given(labelFile) then Err(NotImplementedError)
    else if Given(sourceFile) && sourceFile.value in DefaultLabels then
      Ok(FileLabelProcessor(Int(DefaultLabels[sourceFile.value])))
    else
      Ok(FileLabelProcessor(if Truthy(labelValue) then labelValue else Null))
  }

  /** `process`: the record with GROUND_TRUTH set to the label when the label is true in Python's sense, and untouched otherwise. */
  function Process(proc: FileLabelProcessor, features: Record): Record
  {
    if Truthy(proc.value) then features.Set(Prediction(GroundTruth), proc.value) else features
  }

  /** Supplying a label file raises NotImplementedError, whatever the other arguments. */
  lemma LabelFileRaises(sourceFile: Option<string>, labelFile: Option<string>, labelValue: Value)
    requires Given(labelFile)
    ensures NewFileLabelProcessor(sourceFile, labelFile, labelValue) == Err(NotImplementedError)
  {
  }

  /** A known capture file's default label overrides the label value. */
  lemma DefaultLabelOverrides(source: string, labelValue: Value)
    requires source in DefaultLabels
    ensures NewFileLabelProcessor(Some(source), None, labelValue) == Ok(FileLabelProcessor(Int(DefaultLabels[source])))
  {
  }

  /** Any other capture file, or none, keeps the label value when it is true in Python's sense, and None otherwise. */
  lemma LabelValueOtherwise(sourceFile: Option<string>, labelValue: Value)
    requires !(Given(sourceFile) && sourceFile.value in DefaultLabels)
    ensures var r := NewFileLabelProcessor(sourceFile, None, labelValue);
      && r.Ok?
      && (Truthy(labelValue) ==> r.value.value == labelValue)
      && (!Truthy(labelValue) ==> r.value.value == Null)
  {
  }

  /**
    A processor for a capture file labelled non-anomalous writes nothing:
    the label 0 is false in Python's sense, so GROUND_TRUTH is never set to 0.
   */
  lemma NonAnomalousNeverWritten(source: string, labelValue: Value, features: Record)
    requires source in DefaultLabels && DefaultLabels[source] == 0
    ensures var proc := NewFileLabelProcessor(Some(source), None, labelValue).value;
      Process(proc, features) == features
  {
  }

  /** Whatever the processor, the record written never holds GROUND_TRUTH 0 unless it held it before. */
  lemma GroundTruthNeverZeroed(proc: FileLabelProcessor, features: Record)
    ensures var r := Process(proc, features);
      r.Get(Prediction(GroundTruth)) == Ok(Int(0)) ==> features.Get(Prediction(GroundTruth)) == Ok(Int(0))
  {
  }

  /**
    `process` changes no key but GROUND_TRUTH, adds no key but GROUND_TRUTH,
    keeps the order listing every key once, and sets GROUND_TRUTH to the
    label when the label is true; otherwise the record is returned as it
    came.
   */
  lemma ProcessChangesOnlyGroundTruth(proc: FileLabelProcessor, features: Record, k: FeatureKey)
    requires features.Valid()
    ensures var r := Process(proc, features);
      && r.Valid()
      && (k != Prediction(GroundTruth) ==> r.Get(k) == features.Get(k))
      && (Truthy(proc.value) ==> r.Get(Prediction(GroundTruth)) == Ok(proc.value))
      && (!Truthy(proc.value) ==> r == features)
  {
    if Truthy(proc.value) {
      SetValid(features, Prediction(GroundTruth), proc.value);
    }
  }

  /** `process` is idempotent: a record passed through twice is the record passed through once. */
  lemma ProcessIdempotent(proc: FileLabelProcessor, features: Record)
    ensures Process(proc, Process(proc, features)) == Process(proc, features)
  {
    if Truthy(proc.value) {
      var once := features.Set(Prediction(GroundTruth), proc.value);
      assert once.fields[Prediction(GroundTruth) := proc.value] == once.fields;
    }
  }
}
