/**
 * The `plotly_relayout` handler that `bindOne` installs on a chart node
 * (plotly_relayout_listener/listener.js, lines 94-126): it turns a raw relayout
 * event into a viewport payload, or into nothing when the event carries no axis
 * information.
 */
module Relayout {
  import opened Wrappers

  /**
   * A value found in the event object: strings keep their content (the range
   * ends of a date or category axis are strings); `Other` stands for arrays,
   * objects and the rest.
   */
  datatype Value = Null | Bool(b: bool) | Num(x: real) | Str(s: string) | Other

  /**
   * A raw event as the charting library hands it over. A key missing from
   * `fields` is `undefined` in the source.
   */
  datatype Event = NonObject | Object(fields: map<string, Value>)

  const XAutorangeKey := "xaxis.autorange"
  const YAutorangeKey := "yaxis.autorange"
  const X0Key := "xaxis.range[0]"
  const X1Key := "xaxis.range[1]"
  const Y0Key := "yaxis.range[0]"
  const Y1Key := "yaxis.range[1]"

  /** The keys the handler looks at; every other key of an event is ignored. */
  const ViewportKeys: set<string> := {XAutorangeKey, YAutorangeKey, X0Key, X1Key, Y0Key, Y1Key}

  /**
   * The outbound payload. Each optional field is an optional property of the
   * JavaScript object: `None` means the property was never assigned.
   */
  datatype Payload = Payload(
    dataId: string,
    plotIndex: int,
    xAutorange: Option<bool>,
    yAutorange: Option<bool>,
    x0: Option<Value>,
    x1: Option<Value>,
    y0: Option<Value>,
    y1: Option<Value>)

  /** `evt[k] === true` */
  predicate IsTrue(f: map<string, Value>, k: string) {
    k in f && f[k] == Bool(true)
  }

  /** `evt[k] != null`: the key is present and its value is neither null nor undefined. */
  predicate IsSet(f: map<string, Value>, k: string) {
    k in f && f[k] != Null
  }

  /**
   * The event-side statement of which relayouts count as viewport changes: an
   * axis was reset to autorange, or both ends of an axis range were given.
   */
  predicate CarriesAxisInfo(f: map<string, Value>) {
    || IsTrue(f, XAutorangeKey)
    || IsTrue(f, YAutorangeKey)
    || (IsSet(f, X0Key) && IsSet(f, X1Key))
    || (IsSet(f, Y0Key) && IsSet(f, Y1Key))
  }

  /** The range end copied into the payload when both ends of that axis are set. */
  function RangeEnd(f: map<string, Value>, lo: string, hi: string, k: string): (r: Option<Value>)
    requires k == lo || k == hi
    ensures r.Some? <==> IsSet(f, lo) && IsSet(f, hi)
    ensures r.Some? ==> r.value == f[k] && r.value != Null
  {
    if IsSet(f, lo) && IsSet(f, hi) then Some(f[k]) else None
  }

  /** The autorange flag copied into the payload: present only as `true`. */
  function AutorangeFlag(f: map<string, Value>, k: string): (r: Option<bool>)
    ensures r == Some(true) <==> IsTrue(f, k)
    ensures r != Some(true) ==> r == None
  {
    if IsTrue(f, k) then Some(true) else None
  }

  /**
   * The handler bound for chart `idx` of data set `dataId`: builds the payload
   * field by field and drops it when no axis field was filled in.
   */
  function Handle(evt: Event, dataId: string, idx: int): (r: Option<Payload>)
    ensures r.Some? <==> evt.Object? && CarriesAxisInfo(evt.fields)
    ensures r.Some? ==> r.value.dataId == dataId && r.value.plotIndex == idx
    ensures r.Some? ==>
      && (r.value.xAutorange == Some(true) <==> IsTrue(evt.fields, XAutorangeKey))
      && (r.value.yAutorange == Some(true) <==> IsTrue(evt.fields, YAutorangeKey))
      && r.value.xAutorange in {None, Some(true)}
      && r.value.yAutorange in {None, Some(true)}
    ensures r.Some? ==>
      && (r.value.x0.Some? <==> r.value.x1.Some?)
      && (r.value.x0.Some? <==> IsSet(evt.fields, X0Key) && IsSet(evt.fields, X1Key))
      && (r.value.x0.Some? ==> r.value.x0.value == evt.fields[X0Key] && r.value.x1.value == evt.fields[X1Key])
    ensures r.Some? ==>
      && (r.value.y0.Some? <==> r.value.y1.Some?)
      && (r.value.y0.Some? <==> IsSet(evt.fields, Y0Key) && IsSet(evt.fields, Y1Key))
      && (r.value.y0.Some? ==> r.value.y0.value == evt.fields[Y0Key] && r.value.y1.value == evt.fields[Y1Key])
  {
    match evt
    case NonObject => None
    case Object(f) =>
      var payload := Payload(
        dataId, idx,
        AutorangeFlag(f, XAutorangeKey), AutorangeFlag(f, YAutorangeKey),
        RangeEnd(f, X0Key, X1Key, X0Key), RangeEnd(f, X0Key, X1Key, X1Key),
        RangeEnd(f, Y0Key, Y1Key, Y0Key), RangeEnd(f, Y0Key, Y1Key, Y1Key));
      if payload.x0.None? && payload.xAutorange != Some(true)
         && payload.y0.None? && payload.yAutorange != Some(true)
      then None
      else Some(payload)
  }

  /** Two events that agree on the six viewport keys yield the same outcome. */
  lemma OnlyViewportKeysMatter(f: map<string, Value>, g: map<string, Value>, dataId: string, idx: int)
    requires forall k :: k in ViewportKeys ==> (k in f <==> k in g)
    requires forall k :: k in ViewportKeys && k in f ==> f[k] == g[k]
    ensures Handle(Object(f), dataId, idx) == Handle(Object(g), dataId, idx)
  {
    assert XAutorangeKey in ViewportKeys && YAutorangeKey in ViewportKeys;
    assert X0Key in ViewportKeys && X1Key in ViewportKeys;
    assert Y0Key in ViewportKeys && Y1Key in ViewportKeys;
  }

  /**
   * An autorange flag and an explicit range of the same axis both end up in
   * the payload whenever the event carries both: the handler does not make
   * them exclusive.
   */
  lemma AutorangeAndRangeMayCoexist(f: map<string, Value>, dataId: string, idx: int)
    requires IsTrue(f, XAutorangeKey) && IsSet(f, X0Key) && IsSet(f, X1Key)
    ensures var r := Handle(Object(f), dataId, idx);
      && r.Some?
      && r.value.xAutorange == Some(true)
      && r.value.x0 == Some(f[X0Key]) && r.value.x1 == Some(f[X1Key])
  {
  }
}
