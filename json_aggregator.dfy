/**
 * JsonContentAggregator: a delayed-response operator that reads JSON messages, keeps per-field
 * statistics (min/max/sum of numerical fields, occurrence counts of string values) and,
 * optionally, the raw values read, and hands the collected document out on getResult.
 * The aggregation step itself is StreamingDataMessage.onMessage, which the aggregator's own
 * onMessage calls; it is ApplyMessage here.  Jackson's parser and serialiser are the two
 * functions the aggregator is built with.
 */
module JsonAggregator {
  import opened Common
  import opened Text
  import opened StreamingMessage
  import opened JsonTree
  import opened Aggregation

  const CFG_PIPELINE_ID: string := "pipelineId"
  const CFG_DOCUMENT_TYPE: string := "documentType"
  const CFG_FORWARD_RAW_DATA: string := "forwardRawData"
  const CFG_FIELD_PREFIX: string := "field."

  /** The key `field.<i>.<suffix>`, with `i` written in decimal. */
  function FieldKey(i: nat, suffix: string): string
  {
    CFG_FIELD_PREFIX + NatToString(i) + "." + suffix
  }

  /** STRING when the type setting reads "STRING" ignoring case, NUMERICAL for anything else. */
  function ContentTypeOf(valueType: Option<string>): (t: JsonContentType)
    ensures t == STRING <==> EqualsIgnoreCase(Some("STRING"), valueType)
  {
    if EqualsIgnoreCase(Some("STRING"), valueType) then STRING else NUMERICAL
  }

  /** Field number `i` as initialize builds it from its name and path settings: the name as
      given, the path split on '.', and the type read from `field.<i>.type`. */
  function FieldSettingAt(props: map<string, string>, i: nat, name: string, path: string): FieldSetting
  {
    FieldSetting(name, JavaSplit(path, '.'), ContentTypeOf(GetProperty(props, FieldKey(i, "type"))))
  }

  /** The field settings found from index `i` on, and whether the scan stopped at a field with a
      name but no path (the NullPointerException of splitting a null path). */
  datatype FieldScan = FieldScan(found: seq<FieldSetting>, pathMissing: bool)

  /** The field enumeration of initialize from index `i`: it runs while `i` is below
      Integer.MAX_VALUE and the name under `field.<i>.name` is not blank. */
  function ScanFields(props: map<string, string>, i: nat): FieldScan
    decreases INT_MAX - i
  {
    if i >= INT_MAX then FieldScan([], false)
    else
      var name := GetProperty(props, FieldKey(i, "name"));
      if IsBlank(name) then FieldScan([], false)
      else
        var path := GetProperty(props, FieldKey(i, "path"));
        if path.None? then FieldScan([], true)
        else
          var f := FieldSettingAt(props, i, name.value, path.value);
          var rest := ScanFields(props, i + 1);
          FieldScan([f] + rest.found, rest.pathMissing)
  }

  /** One step of the scan below Integer.MAX_VALUE: a blank name ends it, a missing path ends
      it with the failure, and any other field is followed by the scan from the next index. */
  lemma ScanFieldsStep(props: map<string, string>, i: nat)
    requires i < INT_MAX
    ensures var name := GetProperty(props, FieldKey(i, "name"));
      var path := GetProperty(props, FieldKey(i, "path"));
      var next := ScanFields(props, i + 1);
      ScanFields(props, i) ==
        if IsBlank(name) then FieldScan([], false)
        else if path.None? then FieldScan([], true)
        else FieldScan([FieldSettingAt(props, i, name.value, path.value)] + next.found, next.pathMissing)
  {
  }

  /** Field number `j` has a name that is not blank and a path, and `f` is the setting built
      from them. */
  predicate SettingFoundAt(props: map<string, string>, j: nat, f: FieldSetting) {
    && GetProperty(props, FieldKey(j, "name")) == Some(f.field)
    && !IsBlank(Some(f.field))
    && GetProperty(props, FieldKey(j, "path")).Some?
    && f == FieldSettingAt(props, j, f.field, GetProperty(props, FieldKey(j, "path")).value)
  }

  /** Settings found from index `i + 1` on, preceded by the one found at `i`, are found from `i` on. */
  lemma FoundFrom(props: map<string, string>, i: nat, f: FieldSetting, rest: seq<FieldSetting>)
    requires SettingFoundAt(props, i, f)
    requires forall k :: 0 <= k < |rest| ==> SettingFoundAt(props, i + 1 + k, rest[k])
    ensures forall k :: 0 <= k < |[f] + rest| ==> SettingFoundAt(props, i + k, ([f] + rest)[k])
  {
    forall k | 0 <= k < |[f] + rest| ensures SettingFoundAt(props, i + k, ([f] + rest)[k]) {
      if k > 0 {
        assert ([f] + rest)[k] == rest[k - 1];
        assert SettingFoundAt(props, i + 1 + (k - 1), rest[k - 1]);
      }
    }
  }

  /** The k-th setting found is built from field number i + k. */
  lemma {:induction false} ScanFieldsInOrder(props: map<string, string>, i: nat)
    requires i <= INT_MAX
    ensures var s := ScanFields(props, i);
      i + |s.found| <= INT_MAX && forall k :: 0 <= k < |s.found| ==> SettingFoundAt(props, i + k, s.found[k])
    decreases INT_MAX - i
  {
    if i < INT_MAX {
      ScanFieldsStep(props, i);
      var s := ScanFields(props, i);
      if s.found != [] {
        var name := GetProperty(props, FieldKey(i, "name"));
        var path := GetProperty(props, FieldKey(i, "path"));
        var next := ScanFields(props, i + 1);
        assert !IsBlank(name) && path.Some?;
        var f := FieldSettingAt(props, i, name.value, path.value);
        assert s.found == [f] + next.found;
        ScanFieldsInOrder(props, i + 1);
        assert SettingFoundAt(props, i, f);
        FoundFrom(props, i, f, next.found);
      }
    }
  }

  /** Where a scan that found fields up to index `j` stopped: at a field with a name and no
      path when `pathMissing`, otherwise at Integer.MAX_VALUE or at a blank name. */
  predicate ScanStopsAt(props: map<string, string>, j: nat, pathMissing: bool) {
    if pathMissing then j < INT_MAX && !IsBlank(GetProperty(props, FieldKey(j, "name")))
                        && GetProperty(props, FieldKey(j, "path")).None?
    else j == INT_MAX || IsBlank(GetProperty(props, FieldKey(j, "name")))
  }

  /** The scan ends at Integer.MAX_VALUE or at the first blank name, unless it ends at a field
      with a name and no path, which is then the failure it reports. */
  lemma {:induction false} ScanFieldsEnd(props: map<string, string>, i: nat)
    requires i <= INT_MAX
    ensures var s := ScanFields(props, i); ScanStopsAt(props, i + |s.found|, s.pathMissing)
    decreases INT_MAX - i
  {
    if i < INT_MAX {
      ScanFieldsStep(props, i);
      var s := ScanFields(props, i);
      if s.found != [] {
        ScanFieldsEnd(props, i + 1);
        var next := ScanFields(props, i + 1);
        assert |s.found| == 1 + |next.found| && s.pathMissing == next.pathMissing;
        assert i + |s.found| == (i + 1) + |next.found|;
      }
    }
  }

  datatype InitError = ComponentIdMissing | PropertiesMissing | FieldPathMissing

  class JsonContentAggregator {
    var id: Option<string>
    var pipelineId: Option<string>
    var documentType: Option<string>
    var messageCount: int
    var messagesSinceLastResult: int
    var storeForwardRawData: bool
    var fields: seq<FieldSetting>
    var resultDocument: Option<AggregationResult>
    /** ObjectMapper.readTree; `None` is the IOException of a body that is not JSON. */
    const readTree: seq<Byte> -> Option<Json>
    /** ObjectMapper.writeValueAsBytes; `None` is the JsonProcessingException. */
    const writeValueAsBytes: Option<AggregationResult> -> Option<seq<Byte>>
    /** Every message handed to onMessage, and those since the last getResult. */
    ghost var processed: seq<StreamingDataMessage>
    ghost var window: seq<StreamingDataMessage>

    /** The two counters count the messages processed overall and since the last getResult. */
    ghost predicate Valid()
      reads this
    {
      && messageCount == |processed|
      && messagesSinceLastResult == |window|
      && |window| <= |processed|
      && window == processed[|processed| - |window|..]
    }

    constructor (readTree: seq<Byte> -> Option<Json>, writeValueAsBytes: Option<AggregationResult> -> Option<seq<Byte>>)
      ensures Valid()
      ensures this.readTree == readTree && this.writeValueAsBytes == writeValueAsBytes
      ensures id.None? && pipelineId.None? && documentType.None?
      ensures messageCount == 0 && messagesSinceLastResult == 0 && storeForwardRawData
      ensures fields == [] && resultDocument.None?
    {
      this.readTree := readTree;
      this.writeValueAsBytes := writeValueAsBytes;
      id := None;
      pipelineId := None;
      documentType := None;
      messageCount := 0;
      messagesSinceLastResult := 0;
      storeForwardRawData := true;
      fields := [];
      resultDocument := None;
      processed := [];
      window := [];
    }

    method SetId(id: Option<string>)
      modifies this`id
      ensures this.id == id
    {
      this.id := id;
    }

    function GetId(): Option<string>
      reads this
    {
      id
    }

    /** Reads the settings: a blank id is refused before anything is read; the pipeline id and
        document type are trimmed; "false" (ignoring case) under forwardRawData switches raw data
        off; the field settings found are appended to those already held.  A field with a name
        and no path stops the scan with the fields before it already appended. */
    method Initialize(properties: Option<map<string, string>>) returns (outcome: Outcome<InitError>)
      requires Valid()
      modifies this`pipelineId, this`documentType, this`storeForwardRawData, this`fields
      ensures Valid()
      ensures IsBlank(id) ==> outcome == Fail(ComponentIdMissing) && unchanged(this)
      ensures !IsBlank(id) && properties.None? ==> outcome == Fail(PropertiesMissing) && unchanged(this)
      ensures !IsBlank(id) && properties.Some? ==>
        var props := properties.value;
        var scan := ScanFields(props, 1);
        && pipelineId == Trim(GetProperty(props, CFG_PIPELINE_ID))
        && documentType == Trim(GetProperty(props, CFG_DOCUMENT_TYPE))
        && storeForwardRawData == (old(storeForwardRawData) && !EqualsIgnoreCase(GetProperty(props, CFG_FORWARD_RAW_DATA), Some("false")))
        && fields == old(fields) + scan.found
        && outcome == (if scan.pathMissing then Fail(FieldPathMissing) else Pass)
    {
      if IsBlank(id) {
        return Fail(ComponentIdMissing);
      }
      if properties.None? {
        return Fail(PropertiesMissing);
      }
      var props := properties.value;
      pipelineId := Trim(GetProperty(props, CFG_PIPELINE_ID));
      documentType := Trim(GetProperty(props, CFG_DOCUMENT_TYPE));
      if EqualsIgnoreCase(GetProperty(props, CFG_FORWARD_RAW_DATA), Some("false")) {
        storeForwardRawData := false;
      }
      outcome := ReadFieldSettings(props);
    }

    /** The field enumeration of initialize: appends the settings of field 1, 2, ... until a
        blank name; a field with a name and no path ends it with a failure. */
    method ReadFieldSettings(props: map<string, string>) returns (outcome: Outcome<InitError>)
      modifies this`fields
      ensures fields == old(fields) + ScanFields(props, 1).found
      ensures outcome == (if ScanFields(props, 1).pathMissing then Fail(FieldPathMissing) else Pass)
    {
      var i := 1;
      while i < INT_MAX
        invariant 1 <= i <= INT_MAX
        invariant fields + ScanFields(props, i).found == old(fields) + ScanFields(props, 1).found
        invariant ScanFields(props, i).pathMissing == ScanFields(props, 1).pathMissing
        decreases INT_MAX - i
      {
        ScanFieldsStep(props, i);
        var name := GetProperty(props, FieldKey(i, "name"));
        if IsBlank(name) {
          break;
        }
        var path := GetProperty(props, FieldKey(i, "path"));
        if path.None? {
          return Fail(FieldPathMissing);
        }
        var f := FieldSettingAt(props, i, name.value, path.value);
        assert fields + ScanFields(props, i).found == (fields + [f]) + ScanFields(props, i + 1).found;
        fields := fields + [f];
        i := i + 1;
      }
      outcome := Pass;
    }

    /** Hands out the document collected so far as a one-message array (a null element when it
        cannot be serialised), resets the since-last-result counter and starts a fresh document
        for the same pipeline and document type.  `now` is the current time in milliseconds. */
    method GetResult(now: int) returns (r: seq<Option<StreamingDataMessage>>)
      requires Valid()
      modifies this`messagesSinceLastResult, this`resultDocument, this`window
      ensures Valid()
      ensures |r| == 1
      ensures writeValueAsBytes(old(resultDocument)).None? ==> r[0].None?
      ensures writeValueAsBytes(old(resultDocument)).Some? ==>
        r[0] == Some(StreamingDataMessage(writeValueAsBytes(old(resultDocument)), now))
      ensures messagesSinceLastResult == 0 && window == []
      ensures resultDocument == Some(EmptyResult(pipelineId, documentType))
    {
      messagesSinceLastResult := 0;
      window := [];
      var message: Option<StreamingDataMessage> := None;
      var bytes := writeValueAsBytes(resultDocument);
      if bytes.Some? {
        message := Some(StreamingDataMessage(bytes, now));
      }
      resultDocument := Some(EmptyResult(pipelineId, documentType));
      r := [message];
    }

    /** Walks the path from the root, one child per component, and reads the node reached as a
        `long`; `None` is the NullPointerException of stepping past a missing member. */
    method GetNumericalFieldValue(node: Json, fieldPath: seq<string>) returns (r: Option<int>)
      ensures r == ReadLong(node, fieldPath)
    {
      var fieldAccessStep := 0;
      var contentNode := node;
      while fieldAccessStep < |fieldPath|
        invariant 0 <= fieldAccessStep <= |fieldPath|
        invariant Descend(node, fieldPath[..fieldAccessStep]) == Some(contentNode)
      {
        DescendAppend(node, fieldPath[..fieldAccessStep], [fieldPath[fieldAccessStep]]);
        assert fieldPath[..fieldAccessStep + 1] == fieldPath[..fieldAccessStep] + [fieldPath[fieldAccessStep]];
        var child := Child(contentNode, fieldPath[fieldAccessStep]);
        if child.None? {
          DescendAppend(node, fieldPath[..fieldAccessStep + 1], fieldPath[fieldAccessStep + 1..]);
          assert fieldPath == fieldPath[..fieldAccessStep + 1] + fieldPath[fieldAccessStep + 1..];
          return None;
        }
        contentNode := child.value;
        fieldAccessStep := fieldAccessStep + 1;
      }
      assert fieldPath[..fieldAccessStep] == fieldPath;
      r := Some(AsLong(contentNode));
    }

    /** Nothing to do: the aggregator does not use the wait strategy. */
    method SetWaitStrategy(waitStrategy: object?)
      ensures unchanged(this)
    {
    }

    method Shutdown() returns (ok: bool)
      ensures ok
    {
      ok := true;
    }

    /** The messages processed since the last getResult, never more than the total. */
    function GetNumberOfMessagesSinceLastResult(): (n: int)
      reads this
      ensures Valid() ==> 0 <= n <= GetTotalNumOfMessages()
    {
      messagesSinceLastResult
    }

    function GetTotalNumOfMessages(): int
      reads this
    {
      messageCount
    }

    /** onMessage is the message's own onMessage applied to this aggregator. */
    method OnMessage(message: StreamingDataMessage)
      requires Valid()
      modifies this`messageCount, this`messagesSinceLastResult, this`resultDocument, this`processed, this`window
      ensures Valid()
      ensures processed == old(processed) + [message] && window == old(window) + [message]
      ensures messageCount == old(messageCount) + 1 && messagesSinceLastResult == old(messagesSinceLastResult) + 1
      ensures resultDocument ==
        AbsorbMessage(old(resultDocument), pipelineId, documentType, storeForwardRawData, fields, ParsedBody(message, readTree))
    {
      ApplyMessage(message);
    }

    /** StreamingDataMessage.onMessage: both counters rise by one for every message; a message
        with a null or empty body, or one that does not parse, changes nothing else.  Otherwise
        the document is created if there is none, every field in list order is read and
        aggregated, and the raw values read are added as one map when raw data is kept. */
    method ApplyMessage(message: StreamingDataMessage)
      requires Valid()
      modifies this`messageCount, this`messagesSinceLastResult, this`resultDocument, this`processed, this`window
      ensures Valid()
      ensures processed == old(processed) + [message] && window == old(window) + [message]
      ensures messageCount == old(messageCount) + 1 && messagesSinceLastResult == old(messagesSinceLastResult) + 1
      ensures resultDocument ==
        AbsorbMessage(old(resultDocument), pipelineId, documentType, storeForwardRawData, fields, ParsedBody(message, readTree))
    {
      messageCount := messageCount + 1;
      messagesSinceLastResult := messagesSinceLastResult + 1;
      processed := processed + [message];
      window := window + [message];
      assert window == processed[|processed| - |window|..];

      if message.body.None? || |message.body.value| < 1 {
        return;
      }
      var jsonNode := readTree(message.body.value);
      if jsonNode.None? {
        return;
      }
      var node := jsonNode.value;

      var start := if resultDocument.Some? then resultDocument.value else EmptyResult(pipelineId, documentType);
      var doc, rawData := AggregateFields(start, node);
      if storeForwardRawData {
        doc := doc.(rawData := doc.rawData + [rawData]);
      }
      resultDocument := Some(doc);
    }

    /** The field loop of onMessage: each field in list order is read from the tree and, when
        found, recorded as raw data (if kept) and aggregated into the document. */
    method AggregateFields(start: AggregationResult, node: Json) returns (doc: AggregationResult, rawData: map<string, RawValue>)
      ensures (doc, rawData) == ApplyFields(start, map[], storeForwardRawData, node, fields)
    {
      doc := start;
      rawData := map[];
      var fs, store := fields, storeForwardRawData;
      for k := 0 to |fs|
        invariant (doc, rawData) == ApplyFields(start, map[], store, node, fs[..k])
      {
        ApplyFieldsStep(start, map[], store, node, fs, k);
        doc, rawData := AggregateField(doc, rawData, node, fs[k]);
      }
      assert fs[..|fs|] == fs;
    }

    /** The body of the field loop for one field.  A string value is counted; a number updates
        min, then max, then sum, stopping at the first that fails. */
    method AggregateField(doc0: AggregationResult, rawData0: map<string, RawValue>, node: Json, fieldSettings: FieldSetting)
      returns (doc: AggregationResult, rawData: map<string, RawValue>)
      ensures (doc, rawData) == ApplyField(doc0, rawData0, storeForwardRawData, node, fieldSettings)
    {
      doc, rawData := doc0, rawData0;
      if fieldSettings.valueType == STRING {
        var value := ReadText(node, fieldSettings.path);
        if value.Some? {
          if storeForwardRawData {
            rawData := rawData[fieldSettings.field := RawText(value.value)];
          }
          var counted := Inc(doc, fieldSettings.field, value.value, 1);
          if counted.Some? {
            doc := counted.value;
          }
        }
      } else {
        var value := GetNumericalFieldValue(node, fieldSettings.path);
        if value.Some? {
          if storeForwardRawData {
            rawData := rawData[fieldSettings.field := RawNumber(value.value)];
          }
          var withMin := EvalMin(doc, fieldSettings.field, "min", value.value);
          if withMin.Some? {
            doc := withMin.value;
            var withMax := EvalMax(doc, fieldSettings.field, "max", value.value);
            if withMax.Some? {
              doc := withMax.value;
              var withSum := Inc(doc, fieldSettings.field, "sum", value.value);
              if withSum.Some? {
                doc := withSum.value;
              }
            }
          }
        }
      }
    }
  }
}
