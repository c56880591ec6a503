/**
 * What the JSON content aggregator does with one message, as values: the result document it
 * fills (JsonContentAggregatorResult, not part of this model, is given the behaviour its
 * callers rely on, stated below as assumptions), the per-field step of
 * StreamingDataMessage.onMessage, and that step over all configured fields and over a run
 * of messages.
 */
module Aggregation {
  import opened Common
  import opened Text
  import opened JsonTree
  import opened StreamingMessage

  datatype JsonContentType = STRING | NUMERICAL

  /** JsonContentAggregatorFieldSetting: the output name, the path into the document, the type. */
  datatype FieldSetting = FieldSetting(field: string, path: seq<string>, valueType: JsonContentType)

  /** A value put into the raw-data map: the text of a STRING field or the number of a NUMERICAL one. */
  datatype RawValue = RawText(text: string) | RawNumber(n: int)

  /** JsonContentAggregatorResult: per output field a map from key ("min", "max", "sum", or a
      counted string value) to a number, and the raw-data maps added so far. */
  datatype AggregationResult = AggregationResult(
    pipelineId: Option<string>,
    documentType: Option<string>,
    aggregatedValues: map<string, map<string, int>>,
    rawData: seq<map<string, RawValue>>)

  /** new JsonContentAggregatorResult(pipelineId, documentType). */
  function EmptyResult(pipelineId: Option<string>, documentType: Option<string>): AggregationResult
  {
    AggregationResult(pipelineId, documentType, map[], [])
  }

  /** The number stored under `field` and `key`, if any. */
  function Entry(doc: AggregationResult, field: string, key: string): Option<int>
  {
    if field in doc.aggregatedValues && key in doc.aggregatedValues[field]
    then Some(doc.aggregatedValues[field][key]) else None
  }

  /** Stores `v` under `field` and `key`, leaving every other entry as it was. */
  function Put(doc: AggregationResult, field: string, key: string, v: int): (r: AggregationResult)
    ensures Entry(r, field, key) == Some(v)
    ensures forall f, k :: f != field || k != key ==> Entry(r, f, k) == Entry(doc, f, k)
    ensures r.pipelineId == doc.pipelineId && r.documentType == doc.documentType && r.rawData == doc.rawData
  {
    var m := if field in doc.aggregatedValues then doc.aggregatedValues[field] else map[];
    doc.(aggregatedValues := doc.aggregatedValues[field := m[key := v]])
  }

  /** The entry after adding `v`, an absent entry counting as 0. */
  function Plus(e: Option<int>, v: int): int { v + (if e.Some? then e.value else 0) }

  /** The smaller of the entry and `v`, `v` when absent. */
  function Lower(e: Option<int>, v: int): (r: int)
    ensures r <= v && (e.Some? ==> r <= e.value) && (r == v || e == Some(r))
  {
    if e.Some? && e.value < v then e.value else v
  }

  /** The larger of the entry and `v`, `v` when absent. */
  function Upper(e: Option<int>, v: int): (r: int)
    ensures r >= v && (e.Some? ==> r >= e.value) && (r == v || e == Some(r))
  {
    if e.Some? && e.value > v then e.value else v
  }

  /** Neither of two documents that differ in one entry differs elsewhere. */
  ghost predicate SameElsewhere(d: AggregationResult, doc: AggregationResult, field: string, key: string)
  {
    && d.pipelineId == doc.pipelineId && d.documentType == doc.documentType && d.rawData == doc.rawData
    && forall f, k :: f != field || k != key ==> Entry(d, f, k) == Entry(doc, f, k)
  }

  /** incAggregatedValue (assumed): adds `v` to the entry, an absent entry counting as 0; a
      blank field or key is a RequiredInputMissingException (`None`) and changes nothing. */
  function Inc(doc: AggregationResult, field: string, key: string, v: int): (r: Option<AggregationResult>)
    ensures r.None? <==> IsBlank(Some(field)) || IsBlank(Some(key))
    ensures r.Some? ==> Entry(r.value, field, key) == Some(Plus(Entry(doc, field, key), v))
    ensures r.Some? ==> SameElsewhere(r.value, doc, field, key)
  {
    if IsBlank(Some(field)) || IsBlank(Some(key)) then None
    else Some(Put(doc, field, key, Plus(Entry(doc, field, key), v)))
  }

  /** evalMinAggregatedValue (assumed): keeps the smaller of the entry and `v`. */
  function EvalMin(doc: AggregationResult, field: string, key: string, v: int): (r: Option<AggregationResult>)
    ensures r.None? <==> IsBlank(Some(field)) || IsBlank(Some(key))
    ensures r.Some? ==> Entry(r.value, field, key) == Some(Lower(Entry(doc, field, key), v))
    ensures r.Some? ==> SameElsewhere(r.value, doc, field, key)
  {
    if IsBlank(Some(field)) || IsBlank(Some(key)) then None
    else Some(Put(doc, field, key, Lower(Entry(doc, field, key), v)))
  }

  /** evalMaxAggregatedValue (assumed): keeps the larger of the entry and `v`. */
  function EvalMax(doc: AggregationResult, field: string, key: string, v: int): (r: Option<AggregationResult>)
    ensures r.None? <==> IsBlank(Some(field)) || IsBlank(Some(key))
    ensures r.Some? ==> Entry(r.value, field, key) == Some(Upper(Entry(doc, field, key), v))
    ensures r.Some? ==> SameElsewhere(r.value, doc, field, key)
  {
    if IsBlank(Some(field)) || IsBlank(Some(key)) then None
    else Some(Put(doc, field, key, Upper(Entry(doc, field, key), v)))
  }

  /** The three keys a numerical field writes: none is blank and they are distinct. */
  lemma NumericKeys()
    ensures !IsBlank(Some("min")) && !IsBlank(Some("max")) && !IsBlank(Some("sum"))
    ensures "min" != "max" && "min" != "sum" && "max" != "sum"
  {
    assert !IsWhitespace('m') && !IsWhitespace('s');
    assert "min"[1] != "max"[1] && "min"[0] != "sum"[0] && "max"[0] != "sum"[0];
  }

  /** A numerical value goes through evalMin, evalMax and inc in that order; the first failure
      skips the rest.  With a named field, exactly the "min", "max" and "sum" entries change, to
      the smaller, the larger and the total; no "count" entry is written. */
  function ApplyNumber(doc: AggregationResult, field: string, v: int): (r: AggregationResult)
    ensures IsBlank(Some(field)) ==> r == doc
    ensures !IsBlank(Some(field)) ==>
      && Entry(r, field, "min") == Some(Lower(Entry(doc, field, "min"), v))
      && Entry(r, field, "max") == Some(Upper(Entry(doc, field, "max"), v))
      && Entry(r, field, "sum") == Some(Plus(Entry(doc, field, "sum"), v))
    ensures forall f, k :: f != field || (k != "min" && k != "max" && k != "sum") ==> Entry(r, f, k) == Entry(doc, f, k)
    ensures r.pipelineId == doc.pipelineId && r.documentType == doc.documentType && r.rawData == doc.rawData
  {
    NumericKeys();
    match EvalMin(doc, field, "min", v)
    case None => doc
    case Some(d1) =>
      match EvalMax(d1, field, "max", v)
      case None => assert false; d1
      case Some(d2) =>
        match Inc(d2, field, "sum", v)
        case None => assert false; d2
        case Some(d3) => d3
  }

  /** The body of the field loop of StreamingDataMessage.onMessage for one field: a value that
      cannot be read skips the field; otherwise it goes to the raw data (when kept) and then to
      the counters, whose failure is swallowed. */
  function ApplyField(doc: AggregationResult, raw: map<string, RawValue>, store: bool, node: Json, f: FieldSetting)
    : (r: (AggregationResult, map<string, RawValue>))
    ensures r.0.pipelineId == doc.pipelineId && r.0.documentType == doc.documentType && r.0.rawData == doc.rawData
  {
    match f.valueType
    case STRING =>
      (match ReadText(node, f.path)
       case None => (doc, raw)
       case Some(v) =>
         var raw' := if store then raw[f.field := RawText(v)] else raw;
         (match Inc(doc, f.field, v, 1)
          case None => (doc, raw')
          case Some(d) => (d, raw')))
    case NUMERICAL =>
      (match ReadLong(node, f.path)
       case None => (doc, raw)
       case Some(v) =>
         var raw' := if store then raw[f.field := RawNumber(v)] else raw;
         (ApplyNumber(doc, f.field, v), raw'))
  }

  /** The field loop, over the fields in list order. */
  function ApplyFields(doc: AggregationResult, raw: map<string, RawValue>, store: bool, node: Json, fields: seq<FieldSetting>)
    : (r: (AggregationResult, map<string, RawValue>))
    ensures r.0.pipelineId == doc.pipelineId && r.0.documentType == doc.documentType && r.0.rawData == doc.rawData
    decreases |fields|
  {
    if fields == [] then (doc, raw)
    else
      var (d, r) := ApplyFields(doc, raw, store, node, fields[..|fields| - 1]);
      ApplyField(d, r, store, node, fields[|fields| - 1])
  }

  /** The field loop over the first k + 1 fields is the loop over the first k, then field k. */
  lemma ApplyFieldsStep(doc: AggregationResult, raw: map<string, RawValue>, store: bool, node: Json,
                        fields: seq<FieldSetting>, k: nat)
    requires k < |fields|
    ensures var prev := ApplyFields(doc, raw, store, node, fields[..k]);
      ApplyFields(doc, raw, store, node, fields[..k + 1]) == ApplyField(prev.0, prev.1, store, node, fields[k])
  {
    assert fields[..k + 1][..k] == fields[..k] && fields[..k + 1][k] == fields[k];
  }

  /** A parsed message: the field loop from an empty raw-data map, whose map is then added to
      the document when raw data is kept. */
  function AbsorbJson(doc: AggregationResult, store: bool, node: Json, fields: seq<FieldSetting>): AggregationResult
  {
    var (d, raw) := ApplyFields(doc, map[], store, node, fields);
    if store then d.(rawData := d.rawData + [raw]) else d
  }

  /** The JSON tree of a message: nothing for a null or empty body or one that does not parse. */
  function ParsedBody(m: StreamingDataMessage, readTree: seq<Byte> -> Option<Json>): (r: Option<Json>)
    ensures m.body.None? || |m.body.value| < 1 ==> r.None?
    ensures m.body.Some? && |m.body.value| >= 1 ==> r == readTree(m.body.value)
  {
    if m.body.None? || |m.body.value| < 1 then None else readTree(m.body.value)
  }

  /** The result document after one message: unchanged (possibly still null) when the message
      does not parse, otherwise created on demand and given the message. */
  function AbsorbMessage(doc: Option<AggregationResult>, pipelineId: Option<string>, documentType: Option<string>,
                         store: bool, fields: seq<FieldSetting>, parsed: Option<Json>): (r: Option<AggregationResult>)
    ensures parsed.None? ==> r == doc
    ensures parsed.Some? ==> r.Some?
    ensures parsed.Some? && doc.Some? ==> r.value.pipelineId == doc.value.pipelineId && r.value.documentType == doc.value.documentType
    ensures parsed.Some? && doc.None? ==> r.value.pipelineId == pipelineId && r.value.documentType == documentType
  {
    match parsed
    case None => doc
    case Some(node) =>
      var d := if doc.Some? then doc.value else EmptyResult(pipelineId, documentType);
      Some(AbsorbJson(d, store, node, fields))
  }

  /** A run of messages, oldest first. */
  function AbsorbAll(doc: Option<AggregationResult>, pipelineId: Option<string>, documentType: Option<string>,
                     store: bool, fields: seq<FieldSetting>, parsed: seq<Option<Json>>): Option<AggregationResult>
    decreases |parsed|
  {
    if parsed == [] then doc
    else AbsorbMessage(AbsorbAll(doc, pipelineId, documentType, store, fields, parsed[..|parsed| - 1]),
                       pipelineId, documentType, store, fields, parsed[|parsed| - 1])
  }

  /** A field whose value cannot be read changes neither the counters nor the raw data. */
  lemma UnreadableFieldSkipped(doc: AggregationResult, raw: map<string, RawValue>, store: bool, node: Json, f: FieldSetting)
    requires Descend(node, f.path).None?
    ensures ApplyField(doc, raw, store, node, f) == (doc, raw)
  {
  }

  /** A readable NUMERICAL field with a name updates exactly its "min", "max" and "sum" entries,
      to the smaller, the larger and the total; no other entry, a "count" entry included,
      changes, and the number goes to the raw data when that is kept. */
  lemma NumericFieldUpdate(doc: AggregationResult, raw: map<string, RawValue>, store: bool, node: Json, f: FieldSetting, v: int)
    requires f.valueType == NUMERICAL && ReadLong(node, f.path) == Some(v) && !IsBlank(Some(f.field))
    ensures var (d, r) := ApplyField(doc, raw, store, node, f);
      && Entry(d, f.field, "min") == Some(Lower(Entry(doc, f.field, "min"), v))
      && Entry(d, f.field, "max") == Some(Upper(Entry(doc, f.field, "max"), v))
      && Entry(d, f.field, "sum") == Some(Plus(Entry(doc, f.field, "sum"), v))
      && Entry(d, f.field, "count") == Entry(doc, f.field, "count")
      && (forall g, k :: g != f.field ==> Entry(d, g, k) == Entry(doc, g, k))
      && r == (if store then raw[f.field := RawNumber(v)] else raw)
  {
    assert "count"[0] != "min"[0] && "count"[0] != "max"[0] && "count"[0] != "sum"[0];
  }

  /** A readable STRING field with a name counts its value: the entry keyed by the value rises
      by one, every other entry stays. */
  lemma StringFieldCount(doc: AggregationResult, raw: map<string, RawValue>, store: bool, node: Json, f: FieldSetting, v: string)
    requires f.valueType == STRING && ReadText(node, f.path) == Some(v) && !IsBlank(Some(f.field)) && !IsBlank(Some(v))
    ensures var (d, r) := ApplyField(doc, raw, store, node, f);
      && Entry(d, f.field, v) == Some(Plus(Entry(doc, f.field, v), 1))
      && (forall g, k :: g != f.field || k != v ==> Entry(d, g, k) == Entry(doc, g, k))
      && r == (if store then raw[f.field := RawText(v)] else raw)
  {
  }

  /** A STRING value that is blank, or a field whose name is blank, still goes to the raw data
      when that is kept, but counts nothing: incAggregatedValue refuses it and the failure is
      swallowed. */
  lemma StringFieldNotCounted(doc: AggregationResult, raw: map<string, RawValue>, store: bool, node: Json, f: FieldSetting, v: string)
    requires f.valueType == STRING && ReadText(node, f.path) == Some(v)
    requires IsBlank(Some(f.field)) || IsBlank(Some(v))
    ensures ApplyField(doc, raw, store, node, f) == (doc, if store then raw[f.field := RawText(v)] else raw)
  {
  }

  /** The names the fields of a list write to. */
  function FieldNames(fields: seq<FieldSetting>): set<string>
  {
    set i | 0 <= i < |fields| :: fields[i].field
  }

  /** The names of the fields whose values can be read from `node`. */
  function ReadableNames(node: Json, fields: seq<FieldSetting>): set<string>
  {
    set i | 0 <= i < |fields| && Descend(node, fields[i].path).Some? :: fields[i].field
  }

  lemma FieldNamesSnoc(init: seq<FieldSetting>, last: FieldSetting)
    ensures FieldNames(init + [last]) == FieldNames(init) + {last.field}
  {
    var fields := init + [last];
    forall n | n in FieldNames(fields) ensures n in FieldNames(init) + {last.field} {
      var i :| 0 <= i < |fields| && fields[i].field == n;
      if i < |init| { assert init[i] == fields[i]; }
    }
    forall n | n in FieldNames(init) ensures n in FieldNames(fields) {
      var i :| 0 <= i < |init| && init[i].field == n;
      assert fields[i] == init[i];
    }
    assert fields[|init|] == last;
  }

  lemma ReadableNamesSnoc(node: Json, init: seq<FieldSetting>, last: FieldSetting)
    ensures ReadableNames(node, init + [last]) ==
      ReadableNames(node, init) + (if Descend(node, last.path).Some? then {last.field} else {})
  {
    var fields := init + [last];
    forall n | n in ReadableNames(node, fields)
      ensures n in ReadableNames(node, init) + (if Descend(node, last.path).Some? then {last.field} else {}) {
      var i :| 0 <= i < |fields| && Descend(node, fields[i].path).Some? && fields[i].field == n;
      if i < |init| { assert init[i] == fields[i]; }
    }
    forall n | n in ReadableNames(node, init) ensures n in ReadableNames(node, fields) {
      var i :| 0 <= i < |init| && Descend(node, init[i].path).Some? && init[i].field == n;
      assert fields[i] == init[i];
    }
    assert fields[|init|] == last;
  }

  /** Going from `doc` and `raw` to `d` and `r` touched no counter outside the fields `names`,
      and added exactly the keys `added` to the raw-data map when raw data is kept (and nothing
      at all otherwise). */
  ghost predicate Framed(doc: AggregationResult, raw: map<string, RawValue>, store: bool,
                         d: AggregationResult, r: map<string, RawValue>, names: set<string>, added: set<string>)
  {
    && (forall g, k :: g !in names ==> Entry(d, g, k) == Entry(doc, g, k))
    && (store ==> r.Keys == raw.Keys + added)
    && (!store ==> r == raw)
  }

  lemma FramedTrans(doc: AggregationResult, raw: map<string, RawValue>, store: bool,
                    d1: AggregationResult, r1: map<string, RawValue>, d2: AggregationResult, r2: map<string, RawValue>,
                    names1: set<string>, added1: set<string>, names2: set<string>, added2: set<string>)
    requires Framed(doc, raw, store, d1, r1, names1, added1) && Framed(d1, r1, store, d2, r2, names2, added2)
    ensures Framed(doc, raw, store, d2, r2, names1 + names2, added1 + added2)
  {
  }

  /** One field touches no counter of another field, and puts its own name into the raw data
      exactly when its value can be read and raw data is kept. */
  lemma ApplyFieldFrame(doc: AggregationResult, raw: map<string, RawValue>, store: bool, node: Json, f: FieldSetting)
    ensures var r := ApplyField(doc, raw, store, node, f);
      Framed(doc, raw, store, r.0, r.1, {f.field}, if Descend(node, f.path).Some? then {f.field} else {})
  {
  }

  /** The field loop touches no counter of a field it was not given, and the raw-data map it
      builds holds one entry for each field that could be read (none when raw data is not kept). */
  lemma {:induction false} ApplyFieldsFrame(doc: AggregationResult, raw: map<string, RawValue>, store: bool,
                                            node: Json, fields: seq<FieldSetting>)
    ensures var r := ApplyFields(doc, raw, store, node, fields);
      Framed(doc, raw, store, r.0, r.1, FieldNames(fields), ReadableNames(node, fields))
    decreases |fields|
  {
    if fields == [] {
      assert FieldNames(fields) == {} && ReadableNames(node, fields) == {};
    } else {
      var init := fields[..|fields| - 1];
      var last := fields[|fields| - 1];
      assert fields == init + [last];
      ApplyFieldsFrame(doc, raw, store, node, init);
      var r0 := ApplyFields(doc, raw, store, node, init);
      ApplyFieldFrame(r0.0, r0.1, store, node, last);
      var r := ApplyField(r0.0, r0.1, store, node, last);
      assert ApplyFields(doc, raw, store, node, fields) == r;
      FramedTrans(doc, raw, store, r0.0, r0.1, r.0, r.1,
                  FieldNames(init), ReadableNames(node, init),
                  {last.field}, if Descend(node, last.path).Some? then {last.field} else {});
      FieldNamesSnoc(init, last);
      ReadableNamesSnoc(node, init, last);
    }
  }

  /** Raw data is added exactly once per parsed message, and only when it is kept. */
  lemma RawDataAddedOnce(doc: AggregationResult, store: bool, node: Json, fields: seq<FieldSetting>)
    ensures var d := AbsorbJson(doc, store, node, fields);
      && |d.rawData| == |doc.rawData| + (if store then 1 else 0)
      && d.rawData[..|doc.rawData|] == doc.rawData
      && (store ==> d.rawData[|doc.rawData|].Keys == ReadableNames(node, fields))
  {
    ApplyFieldsFrame(doc, map[], store, node, fields);
  }
  function SeqMin(vs: seq<int>): (m: int)
    requires |vs| >= 1
    ensures forall i :: 0 <= i < |vs| ==> m <= vs[i]
    ensures m in vs
    decreases |vs|
  {
    if |vs| == 1 then vs[0] else Lower(Some(SeqMin(vs[..|vs| - 1])), vs[|vs| - 1])
  }

  function SeqMax(vs: seq<int>): (m: int)
    requires |vs| >= 1
    ensures forall i :: 0 <= i < |vs| ==> m >= vs[i]
    ensures m in vs
    decreases |vs|
  {
    if |vs| == 1 then vs[0] else Upper(Some(SeqMax(vs[..|vs| - 1])), vs[|vs| - 1])
  }

  function SeqSum(vs: seq<int>): int
    decreases |vs|
  {
    if vs == [] then 0 else SeqSum(vs[..|vs| - 1]) + vs[|vs| - 1]
  }

  /** The last value of a run updates the statistics of the values before it as a new entry does. */
  lemma SeqStep(vs: seq<int>)
    requires |vs| >= 1
    ensures |vs| == 1 ==> SeqMin(vs) == vs[0] && SeqMax(vs) == vs[0] && SeqSum(vs) == vs[0]
    ensures |vs| > 1 ==> var init, v := vs[..|vs| - 1], vs[|vs| - 1];
      && SeqMin(vs) == Lower(Some(SeqMin(init)), v)
      && SeqMax(vs) == Upper(Some(SeqMax(init)), v)
      && SeqSum(vs) == Plus(Some(SeqSum(init)), v)
  {
    if |vs| == 1 {
      assert vs[..0] == [];
    }
  }

  /** The document a parsed message is added to: the current one, or a fresh one. */
  function Base(doc: Option<AggregationResult>, pipelineId: Option<string>, documentType: Option<string>): AggregationResult
  {
    if doc.Some? then doc.value else EmptyResult(pipelineId, documentType)
  }

  /** The entries of one field a numerical value writes to or leaves alone. */
  datatype NumericEntries = NumericEntries(min: Option<int>, max: Option<int>, sum: Option<int>, count: Option<int>)

  /** The "min", "max", "sum" and "count" entries of `field`; none while there is no document. */
  function EntriesOf(doc: Option<AggregationResult>, field: string): NumericEntries
  {
    if doc.None? then NumericEntries(None, None, None, None)
    else NumericEntries(Entry(doc.value, field, "min"), Entry(doc.value, field, "max"),
                        Entry(doc.value, field, "sum"), Entry(doc.value, field, "count"))
  }

  /** One more value: the smaller, the larger and the total, with the count left as it is. */
  function AddValue(e: NumericEntries, v: int): NumericEntries
  {
    NumericEntries(Some(Lower(e.min, v)), Some(Upper(e.max, v)), Some(Plus(e.sum, v)), e.count)
  }

  /** The values of a run added one after the other, oldest first. */
  function AddValues(e: NumericEntries, vs: seq<int>): NumericEntries
    decreases |vs|
  {
    if vs == [] then e else AddValue(AddValues(e, vs[..|vs| - 1]), vs[|vs| - 1])
  }

  /** Values added to no entries give their minimum, maximum and total, and leave the count. */
  lemma {:induction false} AddValuesFromNone(vs: seq<int>, count: Option<int>)
    requires |vs| >= 1
    ensures AddValues(NumericEntries(None, None, None, count), vs)
      == NumericEntries(Some(SeqMin(vs)), Some(SeqMax(vs)), Some(SeqSum(vs)), count)
    decreases |vs|
  {
    SeqStep(vs);
    if |vs| == 1 {
      assert vs[..0] == [];
    } else {
      AddValuesFromNone(vs[..|vs| - 1], count);
    }
  }

  /** The numbers read under `path` from the messages of a run that parsed and hold a value
      there, oldest first; the other messages give none. */
  function ReadValues(parsed: seq<Option<Json>>, path: seq<string>): seq<int>
    decreases |parsed|
  {
    if parsed == [] then []
    else
      var last := parsed[|parsed| - 1];
      var v := if last.Some? then ReadLong(last.value, path) else None;
      ReadValues(parsed[..|parsed| - 1], path) + (if v.Some? then [v.value] else [])
  }

  /** `fields[j]` is the only setting that writes to its name. */
  predicate SoleWriter(fields: seq<FieldSetting>, j: nat)
  {
    j < |fields| && forall i :: 0 <= i < |fields| && i != j ==> fields[i].field != fields[j].field
  }

  /** The field loop over two lists in a row is the loop over the first, then over the second. */
  lemma {:induction false} ApplyFieldsAppend(doc: AggregationResult, raw: map<string, RawValue>, store: bool, node: Json,
                                             a: seq<FieldSetting>, b: seq<FieldSetting>)
    ensures ApplyFields(doc, raw, store, node, a + b) ==
      (var p := ApplyFields(doc, raw, store, node, a); ApplyFields(p.0, p.1, store, node, b))
    decreases |b|
  {
    if b == [] {
      assert a + b == a;
    } else {
      assert (a + b)[..|a + b| - 1] == a + b[..|b| - 1] && (a + b)[|a + b| - 1] == b[|b| - 1];
      ApplyFieldsAppend(doc, raw, store, node, a, b[..|b| - 1]);
    }
  }

  /** Fields that write to other names leave the entries of `field` alone. */
  lemma OtherFieldsKeepEntries(doc: AggregationResult, raw: map<string, RawValue>, store: bool, node: Json,
                               fields: seq<FieldSetting>, field: string)
    requires field !in FieldNames(fields)
    ensures EntriesOf(Some(ApplyFields(doc, raw, store, node, fields).0), field) == EntriesOf(Some(doc), field)
  {
    ApplyFieldsFrame(doc, raw, store, node, fields);
  }

  /** The sole writer of a name, with the settings before and after it writing to other names. */
  lemma SoleWriterSplit(fields: seq<FieldSetting>, j: nat)
    requires SoleWriter(fields, j)
    ensures fields == fields[..j] + [fields[j]] + fields[j + 1..]
    ensures fields[j].field !in FieldNames(fields[..j]) && fields[j].field !in FieldNames(fields[j + 1..])
  {
  }

  /** The field loop, with a named NUMERICAL setting that alone writes to its name, adds the
      value that setting reads, if any, to its entries; the other settings leave them alone. */
  lemma SoleNumericInLoop(doc: AggregationResult, raw: map<string, RawValue>, store: bool, node: Json,
                          fields: seq<FieldSetting>, j: nat)
    requires SoleWriter(fields, j) && fields[j].valueType == NUMERICAL && !IsBlank(Some(fields[j].field))
    ensures var f := fields[j];
      var e := EntriesOf(Some(doc), f.field);
      EntriesOf(Some(ApplyFields(doc, raw, store, node, fields).0), f.field) ==
        (if ReadLong(node, f.path).Some? then AddValue(e, ReadLong(node, f.path).value) else e)
  {
    var f := fields[j];
    var a, c := fields[..j], fields[j + 1..];
    SoleWriterSplit(fields, j);
    ApplyFieldsAppend(doc, raw, store, node, a + [f], c);
    ApplyFieldsAppend(doc, raw, store, node, a, [f]);
    var p1 := ApplyFields(doc, raw, store, node, a);
    OtherFieldsKeepEntries(doc, raw, store, node, a, f.field);
    assert [f][..0] == [];
    var p2 := ApplyField(p1.0, p1.1, store, node, f);
    assert ApplyFields(p1.0, p1.1, store, node, [f]) == p2;
    if ReadLong(node, f.path).Some? {
      NumericFieldUpdate(p1.0, p1.1, store, node, f, ReadLong(node, f.path).value);
    } else {
      UnreadableFieldSkipped(p1.0, p1.1, store, node, f);
    }
    OtherFieldsKeepEntries(p2.0, p2.1, store, node, c, f.field);
  }

  /** In one parsed message, a named NUMERICAL setting that alone writes to its name adds the
      value it reads, if any, to its entries; adding the raw data changes no entry. */
  lemma AbsorbJsonNumeric(doc: AggregationResult, store: bool, node: Json, fields: seq<FieldSetting>, j: nat)
    requires SoleWriter(fields, j) && fields[j].valueType == NUMERICAL && !IsBlank(Some(fields[j].field))
    ensures var f := fields[j];
      var e := EntriesOf(Some(doc), f.field);
      EntriesOf(Some(AbsorbJson(doc, store, node, fields)), f.field) ==
        (if ReadLong(node, f.path).Some? then AddValue(e, ReadLong(node, f.path).value) else e)
  {
    SoleNumericInLoop(doc, map[], store, node, fields, j);
    var d := ApplyFields(doc, map[], store, node, fields).0;
    assert EntriesOf(Some(AbsorbJson(doc, store, node, fields)), fields[j].field) == EntriesOf(Some(d), fields[j].field);
  }

  /** Over any run of messages, a named NUMERICAL setting that alone writes to its name ends with
      the values read from the messages that parsed and hold one added to the entries it
      started with, oldest first; no other message changes them. */
  lemma {:induction false} NumericFieldOverRun(doc: Option<AggregationResult>, pipelineId: Option<string>, documentType: Option<string>,
                                               store: bool, fields: seq<FieldSetting>, j: nat, parsed: seq<Option<Json>>)
    requires SoleWriter(fields, j) && fields[j].valueType == NUMERICAL && !IsBlank(Some(fields[j].field))
    ensures EntriesOf(AbsorbAll(doc, pipelineId, documentType, store, fields, parsed), fields[j].field)
      == AddValues(EntriesOf(doc, fields[j].field), ReadValues(parsed, fields[j].path))
    decreases |parsed|
  {
    if parsed != [] {
      var f := fields[j];
      var n := |parsed|;
      var init := parsed[..n - 1];
      NumericFieldOverRun(doc, pipelineId, documentType, store, fields, j, init);
      var prev := AbsorbAll(doc, pipelineId, documentType, store, fields, init);
      var vs := ReadValues(init, f.path);
      match parsed[n - 1]
      case None =>
        assert ReadValues(parsed, f.path) == vs + [];
        assert vs + [] == vs;
      case Some(node) =>
        var base := Base(prev, pipelineId, documentType);
        assert EntriesOf(Some(base), f.field) == EntriesOf(prev, f.field);
        AbsorbJsonNumeric(base, store, node, fields, j);
        if ReadLong(node, f.path).Some? {
          var v := ReadLong(node, f.path).value;
          assert ReadValues(parsed, f.path) == vs + [v];
          assert (vs + [v])[..|vs|] == vs;
        } else {
          assert ReadValues(parsed, f.path) == vs + [];
          assert vs + [] == vs;
        }
    }
  }

  /** Over a window that starts without entries for the field (no document yet, or the fresh
      one getResult leaves), a named NUMERICAL setting that alone writes to its name ends with
      the minimum, the maximum and the total of the values read, and no "count" entry; when no
      value was read, it has no entries at all. */
  lemma NumericFieldOverWindow(doc: Option<AggregationResult>, pipelineId: Option<string>, documentType: Option<string>,
                               store: bool, fields: seq<FieldSetting>, j: nat, parsed: seq<Option<Json>>)
    requires SoleWriter(fields, j) && fields[j].valueType == NUMERICAL && !IsBlank(Some(fields[j].field))
    requires EntriesOf(doc, fields[j].field) == NumericEntries(None, None, None, None)
    ensures var f, vs := fields[j], ReadValues(parsed, fields[j].path);
      var r := AbsorbAll(doc, pipelineId, documentType, store, fields, parsed);
      && (vs == [] ==> EntriesOf(r, f.field) == NumericEntries(None, None, None, None))
      && (vs != [] ==>
            && r.Some?
            && Entry(r.value, f.field, "min") == Some(SeqMin(vs))
            && Entry(r.value, f.field, "max") == Some(SeqMax(vs))
            && Entry(r.value, f.field, "sum") == Some(SeqSum(vs))
            && Entry(r.value, f.field, "count").None?)
  {
    NumericFieldOverRun(doc, pipelineId, documentType, store, fields, j, parsed);
    var vs := ReadValues(parsed, fields[j].path);
    if vs != [] {
      AddValuesFromNone(vs, None);
    }
  }

  /** The number of messages of a run that parsed. */
  function CountParsed(parsed: seq<Option<Json>>): nat
    decreases |parsed|
  {
    if parsed == [] then 0 else CountParsed(parsed[..|parsed| - 1]) + (if parsed[|parsed| - 1].Some? then 1 else 0)
  }

  /** Over a run, starting from no document: a document exists once a message has parsed, it
      carries the aggregator's pipeline id and document type, and it holds one raw-data map per
      parsed message when raw data is kept and none otherwise. */
  lemma {:induction false} RunRawData(pipelineId: Option<string>, documentType: Option<string>, store: bool,
                                      fields: seq<FieldSetting>, parsed: seq<Option<Json>>)
    ensures var r := AbsorbAll(None, pipelineId, documentType, store, fields, parsed);
      && (r.Some? <==> CountParsed(parsed) > 0)
      && (r.Some? ==> r.value.pipelineId == pipelineId && r.value.documentType == documentType)
      && (r.Some? ==> |r.value.rawData| == (if store then CountParsed(parsed) else 0))
    decreases |parsed|
  {
    if parsed != [] {
      var n := |parsed|;
      RunRawData(pipelineId, documentType, store, fields, parsed[..n - 1]);
      var prev := AbsorbAll(None, pipelineId, documentType, store, fields, parsed[..n - 1]);
      if parsed[n - 1].Some? {
        var base := if prev.Some? then prev.value else EmptyResult(pipelineId, documentType);
        RawDataAddedOnce(base, store, parsed[n - 1].value, fields);
      }
    }
  }

  lemma PriceValues(vs: seq<int>)
    requires vs == [10, 20, 5]
    ensures SeqSum(vs) == 35 && SeqMin(vs) == 5 && SeqMax(vs) == 20
  {
    assert vs[..2] == [10, 20] && vs[..2][..1] == [10] && [10][..0] == [];
    assert SeqSum([10]) == 10;
    assert SeqSum([10, 20]) == 30;
  }

  lemma PriceReadings(parsed: seq<Option<Json>>)
    requires parsed == [Some(JObj(map["price" := JNum(10)])), Some(JObj(map["price" := JNum(20)])), Some(JObj(map["price" := JNum(5)]))]
    ensures ReadValues(parsed, ["price"]) == [10, 20, 5]
  {
    var vs := [10, 20, 5];
    forall i | 0 <= i < 3 ensures parsed[i].Some? && ReadLong(parsed[i].value, ["price"]) == Some(vs[i]) {
      DescendNested(parsed[i].value, ["price"], JNum(vs[i]));
    }
    assert parsed[..2][..1][..0] == [];
    assert ReadValues(parsed[..2][..1], ["price"]) == [10];
    assert ReadValues(parsed[..2], ["price"]) == [10, 20];
  }

  /** `{"price":10}`, `{"price":20}`, `{"price":5}` aggregated on "price" without raw data give
      sum 35, min 5 and max 20, no "count" entry and no raw data. */
  lemma PriceScenario(pipelineId: Option<string>, documentType: Option<string>, parsed: seq<Option<Json>>)
    requires parsed == [Some(JObj(map["price" := JNum(10)])), Some(JObj(map["price" := JNum(20)])), Some(JObj(map["price" := JNum(5)]))]
    ensures var r := AbsorbAll(None, pipelineId, documentType, false, [FieldSetting("price", ["price"], NUMERICAL)], parsed);
      && r.Some?
      && Entry(r.value, "price", "sum") == Some(35)
      && Entry(r.value, "price", "min") == Some(5)
      && Entry(r.value, "price", "max") == Some(20)
      && Entry(r.value, "price", "count").None?
      && r.value.rawData == []
  {
    var price := FieldSetting("price", ["price"], NUMERICAL);
    PriceReadings(parsed);
    PriceValues([10, 20, 5]);
    assert !IsBlank(Some("price")) by { assert !IsWhitespace("price"[0]); }
    NumericFieldOverWindow(None, pipelineId, documentType, false, [price], 0, parsed);
    RunRawData(pipelineId, documentType, false, [price], parsed);
  }
}
