# SPQR delayed-response pipeline core in Dafny

This project models the part of SPQR that runs a delayed-response operator inside a micro
pipeline, together with the pieces around it:

- **JSON content aggregator** (`json_aggregator.dfy`, `aggregation.dfy`, `json_tree.dfy`).
  This is a delayed-response operator. It reads JSON messages and keeps per-field statistics:
  min, max and sum for numerical fields, and occurrence counts for string values. It can also
  keep the raw values read, and it hands out the collected document on `getResult`.
  - The settings it reads are `pipelineId`, `documentType`, `forwardRawData` and the
    `field.<i>.name/path/type` enumeration.
  - The per-message step is `StreamingDataMessage.onMessage`. It is a function on values,
    `AbsorbMessage`. The method `ApplyMessage` carries out the same step in place and is proved
    equal to that function.
  - Lemmas state what a run of messages leaves in the document.
- **Delayed-response operator contract** (`delayed_response_operator.dfy`). An operator takes
  messages one at a time. It hands out its result only on `getResult`, and it counts the
  messages received since the last result. The response wait strategy is the object that
  triggers result retrieval.
- **Runtime environment** (`runtime_environment.dfy`). It connects a source queue, the operator,
  the response wait strategy and a destination queue. The model covers:
  - the input checks and id normalisation of the constructors;
  - the run loop, as a sequence of wait outcomes;
  - `retrieveMessages`, which moves the operator's result into the destination queue;
  - `shutdown`.
- **Chronicle-backed message queue** (`queue.dfy`). The model covers:
  - how `initialize` reads its settings: delete-on-exit, base path, cycle format, rolling
    interval and wait strategy;
  - the log path it builds;
  - opening the log with one producer and one consumer that share one wait strategy;
  - `insert` and `shutdown`.
- **Resource manager's node client** (`node_client.dfy`). The model covers:
  - the constructor checks and the base URLs built from protocol, host and ports;
  - the pre-checks of `instantiatePipeline`, `updatePipeline` and `shutdown(pipelineId)`;
  - the resource URL each of those requests addresses.
- **Shared pieces** (`text.dfy`, `message.dfy`, `common.dfy`):
  - the commons-lang and `java.lang` string operations the code relies on;
  - the message envelope;
  - `Option`, `Result` and `Outcome`, which stand for Java's `null` and for exceptions.

Collaborators whose code is not part of this model are represented by the calls made on them.
The wait strategies, the executor, the metrics counter and the Chronicle log are small classes
that record those calls. Jackson's parser and serialiser, the HTTP transport and the
pipeline-configuration validator are function parameters.

The comment above the field loop (`StreamingDataMessage.java:117-118`) says numerical values
"must be summed, min and max computed AND counted". The code below it writes only `min`, `max`
and `sum` entries, and no `count`. The model follows the code. `NumericFieldUpdate`,
`NumericFieldOverWindow` and `PriceScenario` state that no `count` entry is written.

## Model

| member | source | states |
|---|---|---|
| `Text.TrimStr` | spqr-micro-pipeline/src/main/java/com/ottogroup/bi/spqr/pipeline/queue/chronicle/DefaultStreamingMessageQueue.java:95-98 | String.trim keeps the infix between the leading and trailing characters up to U+0020, which it drops |
| `Text.TrimIdempotent` | spqr-micro-pipeline/src/main/java/com/ottogroup/bi/spqr/pipeline/component/operator/DelayedResponseOperatorRuntimeEnvironment.java:121-123 | trimming a trimmed string changes nothing |
| `Text.JavaSplit` | spqr-operators/spqr-json/src/main/java/com/ottogroup/bi/spqr/operator/json/aggregator/JsonContentAggregator.java:102 | `split("\\.")`: a path without a dot is one piece; otherwise the pieces between the dots, no piece holding a dot; only empty pieces are dropped, and only from the end |
| `Text.SplitAllJoin` | spqr-operators/spqr-json/src/main/java/com/ottogroup/bi/spqr/operator/json/aggregator/JsonContentAggregator.java:102 | joining the pieces of a split with the separator gives the string back |
| `Text.ParseLong` | spqr-micro-pipeline/src/main/java/com/ottogroup/bi/spqr/pipeline/queue/chronicle/DefaultStreamingMessageQueue.java:112 | Long.parseLong reads a value exactly when the text is an optional sign followed by one or more decimal digits and the value is within the `long` range; the value is the signed digits |
| `Text.ParseLongAccepts` | spqr-micro-pipeline/src/main/java/com/ottogroup/bi/spqr/pipeline/queue/chronicle/DefaultStreamingMessageQueue.java:112 | both directions: a text parses exactly when it splits into a sign and digits whose value lies in the `long` range |
| `Text.ParseLongOfNatToString` | spqr-micro-pipeline/src/main/java/com/ottogroup/bi/spqr/pipeline/queue/chronicle/DefaultStreamingMessageQueue.java:112 | the decimal form of a non-negative `long` parses back to it |
| `Text.ParseLongOfIntToString` | spqr-micro-pipeline/src/main/java/com/ottogroup/bi/spqr/pipeline/queue/chronicle/DefaultStreamingMessageQueue.java:112 | the decimal form of every `long`, negative ones included, parses back to it |
| `JsonTree.Child` | spqr-operators/spqr-json/src/main/java/com/ottogroup/bi/spqr/operator/json/aggregator/JsonContentAggregator.java:157 | `get(name)` finds a member exactly when the node is an object holding that name, and returns that member |
| `JsonTree.DescendAppend` | spqr-operators/spqr-json/src/main/java/com/ottogroup/bi/spqr/operator/json/aggregator/JsonContentAggregator.java:156-159 | walking a path in two pieces reaches the same node (or the same failure) as walking it at once: one child per component, left to right |
| `JsonTree.DescendNested` | spqr-operators/spqr-json/src/main/java/com/ottogroup/bi/spqr/operator/json/aggregator/JsonContentAggregator.java:156-159 | a value nested under a chain of single-member objects is reached by walking that chain |
| `JsonTree.ToLong` | spqr-operators/spqr-json/src/main/java/com/ottogroup/bi/spqr/operator/json/aggregator/JsonContentAggregator.java:161 | an integer read as a `long` keeps its low 64 bits: the result is in the `long` range, congruent to the input modulo 2^64, and equal to it when it already fits |
| `JsonTree.AsLong` | spqr-operators/spqr-json/src/main/java/com/ottogroup/bi/spqr/operator/json/aggregator/JsonContentAggregator.java:161 | `asLong`: a number gives its value, a boolean 1 or 0, text what Jackson's text reading gives (`TextAsLong`), anything else 0 |
| `JsonTree.TextAsLong` | spqr-operators/spqr-json/src/main/java/com/ottogroup/bi/spqr/operator/json/aggregator/JsonContentAggregator.java:161 | the result is always in the `long` range, and every trimmed text that Long.parseLong accepts, with or without a leading '+', reads as its value; a '+' is removed and only a '-' that began the trimmed text is skipped before the digit test, so other text goes to Double.parseDouble (the lemmas below) |
| `JsonTree.TextAsLongOfPlusMinus` | spqr-operators/spqr-json/src/main/java/com/ottogroup/bi/spqr/operator/json/aggregator/JsonContentAggregator.java:161 | "+-" followed by digits is not a `long` literal once the '+' is removed: it is read by Double.parseDouble and gives the negated digits stopped at Long.MIN_VALUE, so "+-9223372036854775809" gives Long.MIN_VALUE |
| `JsonTree.TextAsLongOfFraction` | spqr-operators/spqr-json/src/main/java/com/ottogroup/bi/spqr/operator/json/aggregator/JsonContentAggregator.java:161 | a decimal fraction with an optional sign reads as its whole part, truncated toward zero ("3.7" as 3, "-2.5" as -2) |
| `JsonTree.TextAsLongOfExponent` | spqr-operators/spqr-json/src/main/java/com/ottogroup/bi/spqr/operator/json/aggregator/JsonContentAggregator.java:161 | digits, 'e' and digits read as the first number times ten to the second, saturated to the `long` range ("1e3" as 1000) |
| `JsonTree.TextAsLongOfUnsignedDecimal` | spqr-operators/spqr-json/src/main/java/com/ottogroup/bi/spqr/operator/json/aggregator/JsonContentAggregator.java:161 | unsigned text that starts and ends with a digit and is not all digits reads as the decimal number truncated and saturated, and as 0 when it is not a decimal number |
| `JsonTree.ReadLong` | spqr-operators/spqr-json/src/main/java/com/ottogroup/bi/spqr/operator/json/aggregator/JsonContentAggregator.java:152-162 | reading a numerical field succeeds exactly when every path step finds a member, and then gives `asLong` of the node reached |
| `JsonTree.ReadText` | spqr-base/src/main/java/com/ottogroup/bi/spqr/pipeline/message/StreamingDataMessage.java:125 | reading a text field succeeds exactly when the path can be walked; a text node gives its own string |
| `Aggregation.Inc` | spqr-base/src/main/java/com/ottogroup/bi/spqr/pipeline/message/StreamingDataMessage.java:131 | incAggregatedValue (assumed): fails exactly for a blank field or key; otherwise that entry grows by the amount, absent counting as 0, and nothing else changes |
| `Aggregation.EvalMin` | spqr-base/src/main/java/com/ottogroup/bi/spqr/pipeline/message/StreamingDataMessage.java:147 | evalMinAggregatedValue (assumed): fails exactly for a blank field or key; otherwise that entry becomes the smaller of itself and the value, and nothing else changes |
| `Aggregation.EvalMax` | spqr-base/src/main/java/com/ottogroup/bi/spqr/pipeline/message/StreamingDataMessage.java:148 | evalMaxAggregatedValue (assumed): as EvalMin with the larger value |
| `Aggregation.ApplyNumber` | spqr-base/src/main/java/com/ottogroup/bi/spqr/pipeline/message/StreamingDataMessage.java:146-152 | a number for a named field sets min to the smaller, max to the larger and sum to the total, and touches no other entry (no "count"); a blank field changes nothing |
| `Aggregation.ApplyField` | spqr-base/src/main/java/com/ottogroup/bi/spqr/pipeline/message/StreamingDataMessage.java:121-156 | one field never changes the pipeline id, the document type or the raw-data list |
| `Aggregation.ApplyFields` | spqr-base/src/main/java/com/ottogroup/bi/spqr/pipeline/message/StreamingDataMessage.java:114-157 | the field loop never changes the pipeline id, the document type or the raw-data list |
| `Aggregation.ParsedBody` | spqr-base/src/main/java/com/ottogroup/bi/spqr/pipeline/message/StreamingDataMessage.java:92-106 | a null or empty body yields no tree; any other body yields what the parser gives |
| `Aggregation.AbsorbMessage` | spqr-base/src/main/java/com/ottogroup/bi/spqr/pipeline/message/StreamingDataMessage.java:92-161 | a message that does not parse leaves the document (even a missing one) as it was; one that parses always leaves a document, created with the aggregator's pipeline id and document type when there was none |
| `Aggregation.UnreadableFieldSkipped` | spqr-base/src/main/java/com/ottogroup/bi/spqr/pipeline/message/StreamingDataMessage.java:135-155 | a field whose path cannot be walked changes neither the counters nor the raw data |
| `Aggregation.NumericFieldUpdate` | spqr-base/src/main/java/com/ottogroup/bi/spqr/pipeline/message/StreamingDataMessage.java:137-155 | a readable named NUMERICAL field updates exactly its min, max and sum, leaves "count" and every other field alone, and records the number as raw data when that is kept |
| `Aggregation.StringFieldCount` | spqr-base/src/main/java/com/ottogroup/bi/spqr/pipeline/message/StreamingDataMessage.java:121-136 | a readable named STRING field raises the count of its value by one, leaves every other entry alone, and records the text as raw data when that is kept |
| `Aggregation.StringFieldNotCounted` | spqr-base/src/main/java/com/ottogroup/bi/spqr/pipeline/message/StreamingDataMessage.java:121-136 | a STRING field with a blank name or a blank value leaves the document as it was and still records the text as raw data when that is kept |
| `Aggregation.ApplyFieldFrame` | spqr-base/src/main/java/com/ottogroup/bi/spqr/pipeline/message/StreamingDataMessage.java:121-156 | one field touches no other field's counters and adds its own name to the raw data exactly when its value can be read and raw data is kept (`Framed`) |
| `Aggregation.ApplyFieldsFrame` | spqr-base/src/main/java/com/ottogroup/bi/spqr/pipeline/message/StreamingDataMessage.java:112-157 | the field loop touches no counter of a field not configured, and the raw-data map holds exactly the names of the readable fields (and stays empty when raw data is not kept) |
| `Aggregation.RawDataAddedOnce` | spqr-base/src/main/java/com/ottogroup/bi/spqr/pipeline/message/StreamingDataMessage.java:159-161 | a parsed message appends exactly one raw-data map when raw data is kept and none otherwise, keeping earlier ones, and that map's keys are the readable fields |
| `Aggregation.AbsorbJsonNumeric` | spqr-base/src/main/java/com/ottogroup/bi/spqr/pipeline/message/StreamingDataMessage.java:137-155 | in one parsed message, a named NUMERICAL setting that is the only one writing to its name adds the value it reads, if any, to its min, max and sum and leaves its count |
| `Aggregation.AddValuesFromNone` | spqr-base/src/main/java/com/ottogroup/bi/spqr/pipeline/message/StreamingDataMessage.java:147-149 | values added one after another to missing entries give their minimum, maximum and total |
| `Aggregation.NumericFieldOverRun` | spqr-base/src/main/java/com/ottogroup/bi/spqr/pipeline/message/StreamingDataMessage.java:109-161 | over any run of messages, from any starting document, with any field list in which the setting is the only one writing to its name, the field's entries end as the start entries with the values actually read added in order; messages that do not parse or hold no value add nothing |
| `Aggregation.NumericFieldOverWindow` | spqr-base/src/main/java/com/ottogroup/bi/spqr/pipeline/message/StreamingDataMessage.java:109-161 | from no entries, the field ends with the minimum, maximum and total of the values read and no "count" entry, or with no entries when no value was read |
| `Aggregation.RunRawData` | spqr-base/src/main/java/com/ottogroup/bi/spqr/pipeline/message/StreamingDataMessage.java:109-161 | over a run, a document exists exactly when some message parsed, it carries the configured pipeline id and document type, and it holds one raw-data map per parsed message when raw data is kept, none otherwise |
| `Aggregation.PriceScenario` | spqr-base/src/main/java/com/ottogroup/bi/spqr/pipeline/message/StreamingDataMessage.java:137-155 | three messages with price 10, 20 and 5 give sum 35, min 5 and max 20, no "count" entry, and no raw data when raw data is off |
| `JsonAggregator.ContentTypeOf` | spqr-operators/spqr-json/src/main/java/com/ottogroup/bi/spqr/operator/json/aggregator/JsonContentAggregator.java:102 | a field is STRING exactly when its type setting equals "STRING" ignoring case; anything else, a missing setting included, is NUMERICAL |
| `JsonAggregator.ScanFieldsInOrder` | spqr-operators/spqr-json/src/main/java/com/ottogroup/bi/spqr/operator/json/aggregator/JsonContentAggregator.java:94-103 | the k-th field setting found is built from field number 1 + k: its name as given (not blank), its path split on '.', its type from its type setting |
| `JsonAggregator.ScanFieldsEnd` | spqr-operators/spqr-json/src/main/java/com/ottogroup/bi/spqr/operator/json/aggregator/JsonContentAggregator.java:94-103 | the scan stops at Integer.MAX_VALUE or at the first blank name, unless it stopped at a named field without a path, which is then the failure reported |
| `JsonAggregator.JsonContentAggregator.constructor` | spqr-operators/spqr-json/src/main/java/com/ottogroup/bi/spqr/operator/json/aggregator/JsonContentAggregator.java:64-76 | a new aggregator has no ids, zero counters, raw data switched on, no fields and no document |
| `JsonAggregator.JsonContentAggregator.SetId` | spqr-operators/spqr-json/src/main/java/com/ottogroup/bi/spqr/operator/json/aggregator/JsonContentAggregator.java:203-205 | the id is the one given |
| `JsonAggregator.JsonContentAggregator.Initialize` | spqr-operators/spqr-json/src/main/java/com/ottogroup/bi/spqr/operator/json/aggregator/JsonContentAggregator.java:81-109 | a blank id fails before anything changes; otherwise the pipeline id and document type are the trimmed settings, raw data is switched off only by "false" ignoring case, and the fields found are appended, with the failure of a missing path reported |
| `JsonAggregator.JsonContentAggregator.ReadFieldSettings` | spqr-operators/spqr-json/src/main/java/com/ottogroup/bi/spqr/operator/json/aggregator/JsonContentAggregator.java:94-103 | the loop appends exactly the field settings the scan finds, in index order, and fails exactly when the scan ends at a missing path |
| `JsonAggregator.JsonContentAggregator.GetResult` | spqr-operators/spqr-json/src/main/java/com/ottogroup/bi/spqr/operator/json/aggregator/JsonContentAggregator.java:133-144 | the result is one message carrying the serialised document (a null element when serialising fails), the since-last-result counter is 0 and a fresh document with the same ids replaces the old one |
| `JsonAggregator.JsonContentAggregator.GetNumericalFieldValue` | spqr-operators/spqr-json/src/main/java/com/ottogroup/bi/spqr/operator/json/aggregator/JsonContentAggregator.java:152-162 | the path-walking loop returns exactly ReadLong: `asLong` of the node reached, or the failure of a missing member |
| `JsonAggregator.JsonContentAggregator.SetWaitStrategy` | spqr-operators/spqr-json/src/main/java/com/ottogroup/bi/spqr/operator/json/aggregator/JsonContentAggregator.java:167-169 | the aggregator ignores the wait strategy: nothing changes |
| `JsonAggregator.JsonContentAggregator.Shutdown` | spqr-operators/spqr-json/src/main/java/com/ottogroup/bi/spqr/operator/json/aggregator/JsonContentAggregator.java:174-176 | shutdown always reports success |
| `JsonAggregator.JsonContentAggregator.GetNumberOfMessagesSinceLastResult` | spqr-operators/spqr-json/src/main/java/com/ottogroup/bi/spqr/operator/json/aggregator/JsonContentAggregator.java:181-183 | the messages since the last result never exceed the total processed |
| `JsonAggregator.JsonContentAggregator.OnMessage` | spqr-operators/spqr-json/src/main/java/com/ottogroup/bi/spqr/operator/json/aggregator/JsonContentAggregator.java:218-220 | onMessage is the message's own aggregation step |
| `JsonAggregator.JsonContentAggregator.ApplyMessage` | spqr-base/src/main/java/com/ottogroup/bi/spqr/pipeline/message/StreamingDataMessage.java:86-162 | both counters rise by one for every message, and the document becomes AbsorbMessage of the old one and the parsed body |
| `JsonAggregator.JsonContentAggregator.AggregateFields` | spqr-base/src/main/java/com/ottogroup/bi/spqr/pipeline/message/StreamingDataMessage.java:112-157 | the field loop computes exactly ApplyFields over the configured fields, from an empty raw-data map |
| `JsonAggregator.JsonContentAggregator.AggregateField` | spqr-base/src/main/java/com/ottogroup/bi/spqr/pipeline/message/StreamingDataMessage.java:121-156 | the loop body computes exactly ApplyField for one field: a string is counted, a number goes through min, max and sum, and an unreadable field is skipped |
| `DelayedResponse.WaitStrategySettingKey` | spqr-base/src/main/java/com/ottogroup/bi/spqr/pipeline/component/operator/DelayedResponseOperator.java:24-33 | a setting key is the prefix "waitStrategy.cfg." followed by the option name |
| `DelayedResponse.WaitStrategyOption` | spqr-base/src/main/java/com/ottogroup/bi/spqr/pipeline/component/operator/DelayedResponseOperator.java:24-33 | a key carries an option exactly when it starts with the prefix |
| `DelayedResponse.WaitStrategyKeyRoundTrip` | spqr-base/src/main/java/com/ottogroup/bi/spqr/pipeline/component/operator/DelayedResponseOperator.java:24-33 | the option of the key built for an option is that option |
| `DelayedResponse.WaitStrategyOptionRoundTrip` | spqr-base/src/main/java/com/ottogroup/bi/spqr/pipeline/component/operator/DelayedResponseOperator.java:24-33 | rebuilding the key from the option it carries gives the key back |
| `DelayedResponse.ResponseWaitStrategy.SetDelayedResponseCollector` | spqr-micro-pipeline/src/main/java/com/ottogroup/bi/spqr/pipeline/component/operator/DelayedResponseOperatorRuntimeEnvironment.java:127 | the strategy's collector is the one registered |
| `DelayedResponse.ResponseWaitStrategy.OnMessage` | spqr-micro-pipeline/src/main/java/com/ottogroup/bi/spqr/pipeline/component/operator/DelayedResponseOperatorRuntimeEnvironment.java:154 | the strategy is told about each forwarded message, in order |
| `DelayedResponse.ResponseWaitStrategy.Shutdown` | spqr-micro-pipeline/src/main/java/com/ottogroup/bi/spqr/pipeline/component/operator/DelayedResponseOperatorRuntimeEnvironment.java:199 | each shutdown of the strategy is recorded |
| `DelayedResponse.DelayedResponseOperator.OnMessage` | spqr-base/src/main/java/com/ottogroup/bi/spqr/pipeline/component/operator/DelayedResponseOperator.java:35-39 | a message is added to those received since the last result, and `getNumberOfMessagesSinceLastResult` rises by one |
| `DelayedResponse.DelayedResponseOperator.GetResult` | spqr-base/src/main/java/com/ottogroup/bi/spqr/pipeline/component/operator/DelayedResponseOperator.java:41-52 | the result is the operator's result for the messages since the last call, and `getNumberOfMessagesSinceLastResult` starts again at 0 |
| `DelayedResponse.DelayedResponseOperator.SetWaitStrategy` | spqr-base/src/main/java/com/ottogroup/bi/spqr/pipeline/component/operator/DelayedResponseOperator.java:54-58 | the operator holds the strategy assigned |
| `DelayedResponse.DelayedResponseOperator.Shutdown` | spqr-micro-pipeline/src/main/java/com/ottogroup/bi/spqr/pipeline/component/operator/DelayedResponseOperatorRuntimeEnvironment.java:194 | each shutdown of the operator is recorded |
| `ChronicleQueue.DeleteOnExitSetting` | spqr-micro-pipeline/src/main/java/com/ottogroup/bi/spqr/pipeline/queue/chronicle/DefaultStreamingMessageQueue.java:95-96 | deletion on exit is switched off exactly by a setting reading "false" after trimming, ignoring case, and never switched back on |
| `ChronicleQueue.BasePath` | spqr-micro-pipeline/src/main/java/com/ottogroup/bi/spqr/pipeline/queue/chronicle/DefaultStreamingMessageQueue.java:98-100 | a blank setting gives the temp directory; otherwise the result is the setting with the trimmed characters at both ends removed and every other character lower-cased, in order |
| `ChronicleQueue.BasePathNormalForm` | spqr-micro-pipeline/src/main/java/com/ottogroup/bi/spqr/pipeline/queue/chronicle/DefaultStreamingMessageQueue.java:98-100 | a base path taken from the settings reads back as itself |
| `ChronicleQueue.ChroniclePathShape` | spqr-micro-pipeline/src/main/java/com/ottogroup/bi/spqr/pipeline/queue/chronicle/DefaultStreamingMessageQueue.java:106-109 | the log path starts with the base path, ends with the id, has a separator just before the id, and adds one only when the base path lacks it |
| `ChronicleQueue.ChroniclePathSeparatorOnce` | spqr-micro-pipeline/src/main/java/com/ottogroup/bi/spqr/pipeline/queue/chronicle/DefaultStreamingMessageQueue.java:106-109 | adding the separator to the base path by hand does not double it |
| `ChronicleQueue.MinutesToMillis` | spqr-micro-pipeline/src/main/java/com/ottogroup/bi/spqr/pipeline/queue/chronicle/DefaultStreamingMessageQueue.java:112 | minutes to milliseconds is multiplication by 60000, saturating at the `long` range |
| `ChronicleQueue.MinutesToMillisMonotone` | spqr-micro-pipeline/src/main/java/com/ottogroup/bi/spqr/pipeline/queue/chronicle/DefaultStreamingMessageQueue.java:112 | the conversion is monotone |
| `ChronicleQueue.RollingInterval` | spqr-micro-pipeline/src/main/java/com/ottogroup/bi/spqr/pipeline/queue/chronicle/DefaultStreamingMessageQueue.java:111-119 | an unparsable setting keeps the interval held; a parsed one gives its milliseconds, raised to the minimum cycle length when below it |
| `ChronicleQueue.RollingIntervalOfMinutes` | spqr-micro-pipeline/src/main/java/com/ottogroup/bi/spqr/pipeline/queue/chronicle/DefaultStreamingMessageQueue.java:111-119 | a decimal number of minutes at or above the minimum gives its milliseconds exactly |
| `ChronicleQueue.CycleFormat` | spqr-micro-pipeline/src/main/java/com/ottogroup/bi/spqr/pipeline/queue/chronicle/DefaultStreamingMessageQueue.java:102-104 | the cycle format is the trimmed setting, the default when absent, and stays as it was when the setting is blank |
| `ChronicleQueue.SelectWaitStrategy` | spqr-micro-pipeline/src/main/java/com/ottogroup/bi/spqr/pipeline/queue/chronicle/DefaultStreamingMessageQueue.java:148-154 | DirectPass or Sleeping when the name matches theirs ignoring case, in that order, Blocking otherwise and for no name |
| `ChronicleQueue.SelectWaitStrategyIgnoresCase` | spqr-micro-pipeline/src/main/java/com/ottogroup/bi/spqr/pipeline/queue/chronicle/DefaultStreamingMessageQueue.java:148-154 | names that differ only in case select the same strategy |
| `ChronicleQueue.QueueWaitStrategy.ForceLockRelease` | spqr-micro-pipeline/src/main/java/com/ottogroup/bi/spqr/pipeline/component/operator/DelayedResponseOperatorRuntimeEnvironment.java:180 | each lock release is recorded |
| `ChronicleQueue.Chronicle.Close` | spqr-micro-pipeline/src/main/java/com/ottogroup/bi/spqr/pipeline/queue/chronicle/DefaultStreamingMessageQueue.java:161 | a close that does not fail leaves the log closed |
| `ChronicleQueue.QueueProducer.Insert` | spqr-micro-pipeline/src/main/java/com/ottogroup/bi/spqr/pipeline/queue/chronicle/DefaultStreamingMessageQueue.java:173 | each message inserted is appended, in order |
| `ChronicleQueue.DefaultStreamingMessageQueue.constructor` | spqr-micro-pipeline/src/main/java/com/ottogroup/bi/spqr/pipeline/queue/chronicle/DefaultStreamingMessageQueue.java:60-76 | a new queue has no id or path, deletes on exit, rolls every 60 minutes with the default cycle format, and has no log, handles or strategy |
| `ChronicleQueue.DefaultStreamingMessageQueue.SetId` | spqr-micro-pipeline/src/main/java/com/ottogroup/bi/spqr/pipeline/queue/chronicle/DefaultStreamingMessageQueue.java:200-202 | the id is the one given |
| `ChronicleQueue.DefaultStreamingMessageQueue.Initialize` | spqr-micro-pipeline/src/main/java/com/ottogroup/bi/spqr/pipeline/queue/chronicle/DefaultStreamingMessageQueue.java:85-141 | missing properties or a blank id fail with nothing changed; otherwise the settings read are held, the path is marked for deletion when asked, and the log opens with one producer and one consumer sharing the single wait strategy, or the open failure is reported |
| `ChronicleQueue.DefaultStreamingMessageQueue.OpenedHandles` | spqr-micro-pipeline/src/main/java/com/ottogroup/bi/spqr/pipeline/queue/chronicle/DefaultStreamingMessageQueue.java:186-195 | once the log is open, `getProducer` and `getConsumer` give one producer and one consumer on that log, for the queue's id, sharing the queue's wait strategy, with nothing inserted yet |
| `ChronicleQueue.DefaultStreamingMessageQueue.Configure` | spqr-micro-pipeline/src/main/java/com/ottogroup/bi/spqr/pipeline/queue/chronicle/DefaultStreamingMessageQueue.java:95-138 | past the input checks, the queue holds exactly the settings read, marks its path for deletion exactly when deletion on exit is on, and opens the log with its two handles, or reports the open failure naming the path |
| `ChronicleQueue.DefaultStreamingMessageQueue.ApplySettings` | spqr-micro-pipeline/src/main/java/com/ottogroup/bi/spqr/pipeline/queue/chronicle/DefaultStreamingMessageQueue.java:95-121 | the queue holds exactly the settings read and a fresh wait strategy of the selected kind |
| `ChronicleQueue.DefaultStreamingMessageQueue.Open` | spqr-micro-pipeline/src/main/java/com/ottogroup/bi/spqr/pipeline/queue/chronicle/DefaultStreamingMessageQueue.java:127-138 | the path is marked for deletion exactly when deletion on exit is on; a successful open yields a fresh open log at that path with the held cycle settings, and producer and consumer on it sharing the wait strategy |
| `ChronicleQueue.DefaultStreamingMessageQueue.Insert` | spqr-micro-pipeline/src/main/java/com/ottogroup/bi/spqr/pipeline/queue/chronicle/DefaultStreamingMessageQueue.java:172-174 | insert hands the message, a null one included, to the producer, which appends it to what it has inserted |
| `ChronicleQueue.DefaultStreamingMessageQueue.Shutdown` | spqr-micro-pipeline/src/main/java/com/ottogroup/bi/spqr/pipeline/queue/chronicle/DefaultStreamingMessageQueue.java:159-167 | shutdown reports success exactly when closing does not fail, and then the log is closed |
| `DelayedResponseRuntime.ValidateInputs` | spqr-micro-pipeline/src/main/java/com/ottogroup/bi/spqr/pipeline/component/operator/DelayedResponseOperatorRuntimeEnvironment.java:106-117 | construction succeeds exactly when both ids are non-blank and all four collaborators are present; otherwise the first failed check, in source order, is reported |
| `DelayedResponseRuntime.NormalizeId` | spqr-micro-pipeline/src/main/java/com/ottogroup/bi/spqr/pipeline/component/operator/DelayedResponseOperatorRuntimeEnvironment.java:121-123 | a null id stays null; otherwise the result is the id with the trimmed characters at both ends removed and every other character lower-cased, in order |
| `DelayedResponseRuntime.NormalizeIdIdempotent` | spqr-micro-pipeline/src/main/java/com/ottogroup/bi/spqr/pipeline/component/operator/DelayedResponseOperatorRuntimeEnvironment.java:121-123 | normalising an identifier twice is normalising it once |
| `DelayedResponseRuntime.Forwarded` | spqr-micro-pipeline/src/main/java/com/ottogroup/bi/spqr/pipeline/component/operator/DelayedResponseOperatorRuntimeEnvironment.java:149-158 | the run loop forwards at most one message per wait, each with a body |
| `DelayedResponseRuntime.ForwardedAppend` | spqr-micro-pipeline/src/main/java/com/ottogroup/bi/spqr/pipeline/component/operator/DelayedResponseOperatorRuntimeEnvironment.java:146-165 | what two consecutive stretches of the loop forward is what each forwards, concatenated |
| `DelayedResponseRuntime.ForwardedMembers` | spqr-micro-pipeline/src/main/java/com/ottogroup/bi/spqr/pipeline/component/operator/DelayedResponseOperatorRuntimeEnvironment.java:149-150 | a message is forwarded exactly when some wait delivered it with a body |
| `DelayedResponseRuntime.Executor.Submit` | spqr-micro-pipeline/src/main/java/com/ottogroup/bi/spqr/pipeline/component/operator/DelayedResponseOperatorRuntimeEnvironment.java:132 | each task submitted is recorded, in order |
| `DelayedResponseRuntime.Executor.ShutdownNow` | spqr-micro-pipeline/src/main/java/com/ottogroup/bi/spqr/pipeline/component/operator/DelayedResponseOperatorRuntimeEnvironment.java:205 | each shutdownNow is recorded |
| `DelayedResponseRuntime.MessageCounter.Inc` | spqr-micro-pipeline/src/main/java/com/ottogroup/bi/spqr/pipeline/component/operator/DelayedResponseOperatorRuntimeEnvironment.java:156-157 | the counter rises by one |
| `DelayedResponseRuntime.DelayedResponseOperatorRuntimeEnvironment.constructor` | spqr-micro-pipeline/src/main/java/com/ottogroup/bi/spqr/pipeline/component/operator/DelayedResponseOperatorRuntimeEnvironment.java:121-135 | ids are normalised, the environment becomes the strategy's collector, the operator gets the strategy, the strategy is submitted to the executor, and the queues' wait strategies are captured |
| `DelayedResponseRuntime.DelayedResponseOperatorRuntimeEnvironment.Create` | spqr-micro-pipeline/src/main/java/com/ottogroup/bi/spqr/pipeline/component/operator/DelayedResponseOperatorRuntimeEnvironment.java:100-139 | when an input is missing, construction fails with ValidateInputs' verdict and the operator, strategy and executor are untouched; otherwise it yields an environment that `isRunning` reports as running, with normalised node, pipeline and operator ids, the given queues and their wait strategies, the strategy's collector set and the strategy submitted to the given executor, which it does not own; the operator's and the strategy's messages and shutdown counts stay as they were |
| `DelayedResponseRuntime.DelayedResponseOperatorRuntimeEnvironment.CreateWithLocalExecutor` | spqr-micro-pipeline/src/main/java/com/ottogroup/bi/spqr/pipeline/component/operator/DelayedResponseOperatorRuntimeEnvironment.java:83-87 | the six-argument form checks the same inputs and leaves operator and strategy untouched on failure; on success it is running, with the same normalised ids, queues and wiring, on a fresh executor of its own that holds only the strategy; the operator's and the strategy's messages and shutdown counts stay as they were |
| `DelayedResponseRuntime.DelayedResponseOperatorRuntimeEnvironment.SetMessageCounter` | spqr-micro-pipeline/src/main/java/com/ottogroup/bi/spqr/pipeline/component/operator/DelayedResponseOperatorRuntimeEnvironment.java:227-229 | the counter is the one given |
| `DelayedResponseRuntime.DelayedResponseOperatorRuntimeEnvironment.Step` | spqr-micro-pipeline/src/main/java/com/ottogroup/bi/spqr/pipeline/component/operator/DelayedResponseOperatorRuntimeEnvironment.java:149-164 | one wait forwards its message to the operator, then the strategy, then the counter, exactly when it delivered a message with a body |
| `DelayedResponseRuntime.DelayedResponseOperatorRuntimeEnvironment.Run` | spqr-micro-pipeline/src/main/java/com/ottogroup/bi/spqr/pipeline/component/operator/DelayedResponseOperatorRuntimeEnvironment.java:144-166 | while running, the operator and the strategy receive exactly the forwarded messages in order and the counter rises by their number; a stopped environment handles nothing |
| `DelayedResponseRuntime.DelayedResponseOperatorRuntimeEnvironment.RetrieveMessages` | spqr-micro-pipeline/src/main/java/com/ottogroup/bi/spqr/pipeline/component/operator/DelayedResponseOperatorRuntimeEnvironment.java:171-186 | the operator's result, unless null, goes to the destination queue element by element in order, followed by exactly one lock release; a null result inserts nothing and releases nothing |
| `DelayedResponseRuntime.DelayedResponseOperatorRuntimeEnvironment.Shutdown` | spqr-micro-pipeline/src/main/java/com/ottogroup/bi/spqr/pipeline/component/operator/DelayedResponseOperatorRuntimeEnvironment.java:191-222 | afterwards `isRunning` is false; the operator and the strategy are each shut down once, their wiring to each other and their messages kept, and the executor is shut down only when the environment owns it |
| `Text.IntToString` | spqr-resman/src/main/java/com/ottogroup/bi/spqr/resman/node/SPQRNodeClient.java:86-87 | a port is appended in decimal |
| `NodeClient.Create` | spqr-resman/src/main/java/com/ottogroup/bi/spqr/resman/node/SPQRNodeClient.java:69-92 | construction succeeds exactly when protocol and host are not blank, both ports are at least 1 and a client is given, reporting the first failed check in source order; the base URLs are protocol://host:port |
| `NodeClient.BaseUrlsCoincideIffPortsDo` | spqr-resman/src/main/java/com/ottogroup/bi/spqr/resman/node/SPQRNodeClient.java:86-87 | the service and admin base URLs are equal exactly when the two ports are |
| `NodeClient.PipelineUrlBelowPipelinesUrl` | spqr-resman/src/main/java/com/ottogroup/bi/spqr/resman/node/SPQRNodeClient.java:151 | a pipeline's URL is the pipelines URL, a slash and the id, and different ids give different URLs |
| `NodeClient.PreCheck` | spqr-resman/src/main/java/com/ottogroup/bi/spqr/resman/node/SPQRNodeClient.java:107-111 | a configuration the validator refuses is answered with that verdict and an empty id, one without an id with MISSING_PIPELINE_ID, and only a validated configuration with an id lets the request through |
| `NodeClient.Call` | spqr-resman/src/main/java/com/ottogroup/bi/spqr/resman/node/SPQRNodeClient.java:124-126 | a failed remote call becomes RemoteClientConnectionFailed naming the URL |
| `NodeClient.InstantiatePipeline` | spqr-resman/src/main/java/com/ottogroup/bi/spqr/resman/node/SPQRNodeClient.java:102-127 | after the checks the configuration is POSTed to the pipelines URL; a failure names that URL |
| `NodeClient.UpdatePipeline` | spqr-resman/src/main/java/com/ottogroup/bi/spqr/resman/node/SPQRNodeClient.java:138-162 | after the same checks the configuration is PUT to the pipeline's own URL |
| `NodeClient.ShutdownPipeline` | spqr-resman/src/main/java/com/ottogroup/bi/spqr/resman/node/SPQRNodeClient.java:171-192 | a blank id is answered with PIPELINE_ID_MISSING without a request; otherwise the pipeline's own URL is DELETEd |
| `NodeClient.RequestsTargetTheSamePipeline` | spqr-resman/src/main/java/com/ottogroup/bi/spqr/resman/node/SPQRNodeClient.java:151-180 | for a valid configuration, update and shutdown address the same URL, directly below the one instantiate addresses |
| `NodeClient.NoRequestWithoutValidId` | spqr-resman/src/main/java/com/ottogroup/bi/spqr/resman/node/SPQRNodeClient.java:107-111 | a refused configuration or one without an id gets the same answer whatever the transport would do: no request is made |

## Left out

- Threads and blocking waits. The run loop is modelled over a finite sequence of wait outcomes, and the response wait strategy's own thread is not modelled. Interleavings between `run` and `retrieveMessages` are not modelled.
- The Chronicle log itself: the appender, the tailer, file rolling and `size()`. The queue's `next`, `getSize`, `setMessageInsertionCounter` and `setMessageRetrievalCounter` (DefaultStreamingMessageQueue.java lines 78-80, 179-181, 214-223) only forward to it. `ChronicleTools.deleteDirOnExit` and `deleteOnExit` are represented by the set of paths marked for deletion.
- ChronicleQueue.DefaultStreamingMessageQueue.Open: the `(int)` cast of the rolling interval passed to the Chronicle builder is not modelled. The log records the interval as held.
- ChronicleQueue.DefaultStreamingMessageQueue.Insert: the boolean the producer returns is not modelled. The method requires a producer, because the source throws a NullPointerException before `initialize` has created one.
- ChronicleQueue.DefaultStreamingMessageQueue.Shutdown: requires an opened log, because the source throws a NullPointerException when there is none.
- The `StrategyNames` constants of the queue wait strategies are parameters, since those classes are not part of this model.
- The `java.io.tmpdir` property, `File.separator` and `VanillaChronicle.MIN_CYCLE_LENGTH` are parameters (`Platform`).
- Jackson floating-point, big-decimal and binary nodes, and any JSON text syntax. `readTree` and `writeValueAsBytes` are function parameters.
- JsonTree.TextAsLong: Double.parseDouble is modelled for decimal text. Hexadecimal floating-point text is read as not a number, giving 0. Binary rounding of text with more than about 15 significant digits is not modelled: the decimal value is read exactly and then truncated.
- Text.ParseLong: the non-ASCII decimal digits that `Character.digit` accepts (Arabic-Indic digits, for example) are rejected here; only '0' to '9' are digits.
- JsonTree.AsText: `JsonContentAggregator.getTextFieldValue` is not part of this model. Its reading of a node as text is an assumption; only the text-node case and the missing-member failure are stated.
- Aggregation.Inc: `JsonContentAggregatorResult` is not part of this model. The behaviour of `incAggregatedValue`, `evalMinAggregatedValue` and `evalMaxAggregatedValue` is assumed, and sums are unbounded integers, so 64-bit wrap-around of a `long` sum is not modelled.
- JsonAggregator.JsonContentAggregator.ApplyMessage: the `long` message counters are unbounded and do not wrap around.
- The serialised form of the result document is not modelled, only which document is handed to the serialiser.
- The message timestamp `System.currentTimeMillis()` is the parameter `now`.
- Logging and metrics registration.
- Lower-casing and case-insensitive comparison cover ASCII letters only.
- The getters `isRunning`, `getProducer`, `getConsumer` and `getNumberOfMessagesSinceLastResult` are modelled as functions without contracts of their own. What they report is stated by `Create` and `Shutdown`, by `OpenedHandles`, and by the operator's `OnMessage` and `GetResult`.
- `getType`, the getters of ids and settings, the dead private `extracted` method of the aggregator (JsonContentAggregator.java lines 111-128), and the empty no-argument `SPQRNodeClient.shutdown()`.
- The statistics collector and the plain record classes (pipeline configuration, responses), which are datatypes with only the fields used here.
- Exceptions thrown by the operator's or the strategy's own `onMessage`, `getResult` and `shutdown`. The source catches and logs them; the modelled collaborators do not throw.
- `DelayedResponseOperator` is an interface in the source. Here it is one class whose result is a fixed function `fetch` of the messages received since the last result, so the operator's own aggregation is left to that function. The JSON aggregator is modelled as its own class.
- The JAX-RS client object and the exception messages' text are not modelled. A failed request keeps only the URL it names.
