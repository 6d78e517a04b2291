/**
  The telemetry accumulator (DataCollectionManager): for every logged entity id a
  map from metric name to the running sum of the deltas reported for it, plus the
  entity's name as first recorded. The process-wide singleton is replaced by an
  explicit `Manager` value that callers thread through.
 */
module Telemetry {
  import opened Common

  datatype Manager = Manager(logs: map<Id, map<string, real>>, names: map<Id, string>)

  /** One `logEvent(entity, metric, delta)` call. */
  datatype LogCall = LogCall(id: Id, metric: string, delta: real)

  /** The identity an entity presents to `createLog`. */
  datatype Named = Named(id: Id, name: string)

  /** The manager as `getInstance` first creates it. */
  function Fresh(): (m: Manager)
    ensures m.logs == map[] && m.names == map[]
  {
    Manager(map[], map[])
  }

  /** `createLog`: a null entity or an id that already has a log leaves the manager
      alone; otherwise the id gets an empty metric map, and its name is recorded
      unless a name is already on file (`emplace` never overwrites). */
  function CreateLog(m: Manager, e: Option<Named>): (r: Manager)
    ensures e.None? ==> r == m
    ensures e.Some? && e.value.id in m.logs ==> r == m
    ensures e.Some? && e.value.id !in m.logs ==>
      && r.logs.Keys == m.logs.Keys + {e.value.id}
      && r.logs[e.value.id] == map[]
      && (forall k :: k in m.logs ==> r.logs[k] == m.logs[k])
      && r.names.Keys == m.names.Keys + {e.value.id}
      && (e.value.id !in m.names ==> r.names[e.value.id] == e.value.name)
      && (forall k :: k in m.names ==> r.names[k] == m.names[k])
  {
    match e
    case None => m
    case Some(Named(id, name)) =>
      if id in m.logs then m
      else
        Manager(m.logs[id := map[]],
                if id in m.names then m.names else m.names[id := name])
  }

  /** `logEvent`: on a logged id the delta is added to the metric, a metric seen for
      the first time starting at the delta; an id with no log is ignored. */
  function LogEvent(m: Manager, c: LogCall): (r: Manager)
    ensures c.id !in m.logs ==> r == m
    ensures r.names == m.names
    ensures r.logs.Keys == m.logs.Keys
    ensures forall k :: k in m.logs && k != c.id ==> r.logs[k] == m.logs[k]
    ensures c.id in m.logs ==>
      && r.logs[c.id].Keys == m.logs[c.id].Keys + {c.metric}
      && r.logs[c.id][c.metric] == Before(m, c.id, c.metric) + c.delta
      && (forall n :: n in m.logs[c.id] && n != c.metric ==> r.logs[c.id][n] == m.logs[c.id][n])
  {
    if c.id in m.logs then
      var log := m.logs[c.id];
      var v := if c.metric in log then log[c.metric] + c.delta else c.delta;
      m.(logs := m.logs[c.id := log[c.metric := v]])
    else m
  }

  /** The value a metric has for a logged id, reading an absent metric as zero. */
  function Before(m: Manager, id: Id, metric: string): real
    requires id in m.logs
  {
    if metric in m.logs[id] then m.logs[id][metric] else 0.0
  }

  /** `removeEntity`: drops the id's metrics (a no-op when it has none) and keeps its name. */
  function RemoveEntity(m: Manager, id: Id): (r: Manager)
    ensures id !in r.logs
    ensures r.logs.Keys == m.logs.Keys - {id}
    ensures forall k :: k in r.logs ==> r.logs[k] == m.logs[k]
    ensures r.names == m.names
    ensures id !in m.logs ==> r == m
  {
    if id in m.logs then m.(logs := m.logs - {id}) else m
  }

  /** A batch of `logEvent` calls, applied in order. */
  function LogAll(m: Manager, calls: seq<LogCall>): (r: Manager)
    ensures r.names == m.names
    ensures r.logs.Keys == m.logs.Keys
    decreases |calls|
  {
    if calls == [] then m else LogAll(LogEvent(m, calls[0]), calls[1..])
  }

  /** Sum of the deltas that `calls` report for `metric` on `id`. */
  function SumFor(calls: seq<LogCall>, id: Id, metric: string): real
    decreases |calls|
  {
    if calls == [] then 0.0
    else (if calls[0].id == id && calls[0].metric == metric then calls[0].delta else 0.0)
         + SumFor(calls[1..], id, metric)
  }

  /** Sums over consecutive batches add up. */
  lemma {:induction false} SumForAppend(a: seq<LogCall>, b: seq<LogCall>, id: Id, metric: string)
    ensures SumFor(a + b, id, metric) == SumFor(a, id, metric) + SumFor(b, id, metric)
    decreases |a|
  {
    if a == [] {
      assert a + b == b;
    } else {
      SumForAppend(a[1..], b, id, metric);
      assert (a + b)[1..] == a[1..] + b;
    }
  }

  /** Whether any of `calls` reports `metric` for `id`. */
  predicate Mentions(calls: seq<LogCall>, id: Id, metric: string) {
    exists i :: 0 <= i < |calls| && Reports(calls[i], id, metric)
  }

  predicate Reports(c: LogCall, id: Id, metric: string) {
    c.id == id && c.metric == metric
  }

  /** Metric values are exact sums: after a batch of `logEvent` calls, a logged id's
      metric is what it was before (zero if absent) plus every delta reported for it,
      and the metric exists afterwards exactly when it existed before or was reported. */
  lemma {:induction false} LogAllSums(m: Manager, calls: seq<LogCall>, id: Id, metric: string)
    requires id in m.logs
    ensures id in LogAll(m, calls).logs
    ensures metric in LogAll(m, calls).logs[id] <==> metric in m.logs[id] || Mentions(calls, id, metric)
    ensures Before(LogAll(m, calls), id, metric) == Before(m, id, metric) + SumFor(calls, id, metric)
    decreases |calls|
  {
    if calls != [] {
      var m1 := LogEvent(m, calls[0]);
      LogAllSums(m1, calls[1..], id, metric);
      if Mentions(calls, id, metric) && !Reports(calls[0], id, metric) {
        var i :| 0 <= i < |calls| && Reports(calls[i], id, metric);
        assert Reports(calls[1..][i - 1], id, metric);
      }
      if Mentions(calls[1..], id, metric) {
        var i :| 0 <= i < |calls[1..]| && Reports(calls[1..][i], id, metric);
        assert Reports(calls[i + 1], id, metric);
      }
      if Reports(calls[0], id, metric) {
        assert Mentions(calls, id, metric);
      }
    }
  }

  /** Right after `createLog`, every metric equals the sum of the deltas logged for it
      since; metrics never reported do not exist. */
  lemma CreateThenLog(m: Manager, e: Named, calls: seq<LogCall>, metric: string)
    requires e.id !in m.logs
    ensures var r := LogAll(CreateLog(m, Some(e)), calls);
      && e.id in r.logs
      && (metric in r.logs[e.id] <==> Mentions(calls, e.id, metric))
      && Before(r, e.id, metric) == SumFor(calls, e.id, metric)
  {
    LogAllSums(CreateLog(m, Some(e)), calls, e.id, metric);
  }

  /** Re-creating a log after removing it starts from empty metrics but keeps the
      name first recorded for the id, whatever name is offered the second time. */
  lemma RemoveThenCreateKeepsName(m: Manager, id: Id, newName: string)
    requires id in m.names
    ensures var r := CreateLog(RemoveEntity(m, id), Some(Named(id, newName)));
      && r.logs[id] == map[]
      && r.names[id] == m.names[id]
  {
  }

  /** `createLog` twice is `createLog` once; `removeEntity` twice is `removeEntity` once. */
  lemma CreateAndRemoveIdempotent(m: Manager, e: Option<Named>, id: Id)
    ensures CreateLog(CreateLog(m, e), e) == CreateLog(m, e)
    ensures RemoveEntity(RemoveEntity(m, id), id) == RemoveEntity(m, id)
  {
  }
}
