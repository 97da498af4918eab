/** Per-monitor metrics: three maps that are kept for at most `cap` monitors, the least recently added
    monitor giving way, with removal from the middle when a monitor is deleted. */
module MonitorMetrics {
  import opened Identifiers
  import opened Sequences

  datatype CheckResult = CheckResult(monitor: ID, statusCode: int, healthy: bool, error: string, seconds: real)

  /** The tracked monitors after a result: unchanged if already tracked, else the latest `cap`. */
  function Track(window: seq<ID>, id: ID, cap: nat): seq<ID> {
    if id in window then window else Remember(window, id, cap)
  }

  function Without(window: seq<ID>, id: ID): (r: seq<ID>)
    ensures forall x :: x in r <==> x in window && x != id
  {
    if window == [] then []
    else if window[0] == id then Without(window[1..], id)
    else [window[0]] + Without(window[1..], id)
  }

  ghost function Restrict<V>(m: map<ID, V>, keys: set<ID>): map<ID, V> {
    map k | k in m && k in keys :: m[k]
  }

  function Count(failures: map<ID, nat>, id: ID): nat { if id in failures then failures[id] else 0 }

  lemma RestrictDrops<V>(m: map<ID, V>, keys: set<ID>, x: ID)
    ensures Restrict(m, keys) - {x} == Restrict(m, keys - {x})
  {
  }

  lemma RestrictAll<V>(m: map<ID, V>, keys: set<ID>)
    requires m.Keys <= keys
    ensures Restrict(m, keys) == m
  {
  }

  /** Setting the new monitor's entry makes the keys the tracked monitors again. */
  lemma PutKeys<V>(m: map<ID, V>, tracked: set<ID>, id: ID, v: V)
    requires id in tracked && tracked <= m.Keys + {id}
    ensures Restrict(m, tracked)[id := v].Keys == tracked
  {
  }

  lemma CountKept(failures: map<ID, nat>, tracked: set<ID>, id: ID)
    requires id in tracked
    ensures Count(Restrict(failures, tracked), id) == Count(failures, id)
  {
  }

  lemma {:induction false} WithoutAbsent(window: seq<ID>, id: ID)
    requires id !in window
    ensures Without(window, id) == window
  {
    if window != [] { WithoutAbsent(window[1..], id); }
  }

  lemma WithoutFirst(window: seq<ID>)
    requires window != [] && |Members(window)| == |window|
    ensures window[0] !in window[1..] && |Members(window[1..])| == |window| - 1
  {
    assert window[0..] == window;
    DropOldest(window, 0);
    assert window[0] !in Members(window[1..]);
  }

  lemma {:induction false} WithoutOne(window: seq<ID>, id: ID, k: nat)
    requires k < |window| && window[k] == id && |Members(window)| == |window|
    ensures Without(window, id) == window[..k] + window[k + 1..]
  {
    WithoutFirst(window);
    if k == 0 {
      WithoutAbsent(window[1..], id);
    } else {
      assert window[1..][k - 1] == id;
      WithoutOne(window[1..], id, k - 1);
      assert window[..k] + window[k + 1..] == [window[0]] + (window[1..][..k - 1] + window[1..][k..]);
    }
  }

  lemma WithoutCount(window: seq<ID>, id: ID)
    requires id in window && |Members(window)| == |window|
    ensures |Members(Without(window, id))| == |window| - 1
  {
    assert Members(Without(window, id)) == Members(window) - {id};
  }

  /** What tracking a monitor leaves of the maps. */
  ghost predicate Trims(tracked: set<ID>, a: map<ID, int>, b: map<ID, bool>, c: map<ID, nat>,
                        a': map<ID, int>, b': map<ID, bool>, c': map<ID, nat>) {
    a' == Restrict(a, tracked) && b' == Restrict(b, tracked) && c' == Restrict(c, tracked)
  }

  lemma TrimsDrop(tracked: set<ID>, x: ID, a: map<ID, int>, b: map<ID, bool>, c: map<ID, nat>,
                  a': map<ID, int>, b': map<ID, bool>, c': map<ID, nat>)
    requires Trims(tracked, a, b, c, a', b', c')
    ensures Trims(tracked - {x}, a, b, c, a' - {x}, b' - {x}, c' - {x})
  {
    RestrictDrops(a, tracked, x); RestrictDrops(b, tracked, x); RestrictDrops(c, tracked, x);
  }

  /** While too many are tracked the oldest goes, from the set and from all three maps. */
  method Evict(seen: set<ID>, order: seq<ID>, first: nat, cap: nat, status: map<ID, int>, up: map<ID, bool>,
               failures: map<ID, nat>)
    returns (tracked: set<ID>, head: nat, status': map<ID, int>, up': map<ID, bool>, failures': map<ID, nat>)
    requires first <= |order| && seen == Members(order[first..]) && |seen| == |order| - first
    requires Trims(seen, status, up, failures, status, up, failures)
    ensures first <= head <= |order| && tracked == Members(order[head..]) && |tracked| == |order| - head
    ensures head == if |order| - first <= cap then first else |order| - cap
    ensures Trims(tracked, status, up, failures, status', up', failures')
  {
    tracked, head, status', up', failures' := seen, first, status, up, failures;
    while |tracked| > cap
      invariant first <= head <= |order| && (head == first || |order| - head >= cap)
      invariant tracked == Members(order[head..]) && |tracked| == |order| - head
      invariant Trims(tracked, status, up, failures, status', up', failures')
      decreases |order| - head
    {
      var oldest := order[head];
      DropOldest(order, head);
      TrimsDrop(tracked, oldest, status, up, failures, status', up', failures');
      head := head + 1;
      tracked := tracked - {oldest};
      status', up', failures' := status' - {oldest}, up' - {oldest}, failures' - {oldest};
    }
  }

  /** All three maps have exactly the tracked monitors as keys. */
  ghost predicate SameKeys(seen: set<ID>, status: map<ID, int>, up: map<ID, bool>, failures: map<ID, nat>) {
    status.Keys == seen && up.Keys == seen && failures.Keys == seen
  }

  lemma TrimsAll(seen: set<ID>, id: ID, status: map<ID, int>, up: map<ID, bool>, failures: map<ID, nat>)
    requires SameKeys(seen, status, up, failures)
    ensures Trims(seen + {id}, status, up, failures, status, up, failures)
  {
  }

  /** Appends a monitor not yet tracked. */
  method Push(seen: set<ID>, list: seq<ID>, first: nat, id: ID, cap: nat,
              status: map<ID, int>, up: map<ID, bool>, failures: map<ID, nat>)
    returns (tracked: set<ID>, order: seq<ID>, head: nat,
             status': map<ID, int>, up': map<ID, bool>, failures': map<ID, nat>)
    requires cap > 0 && SetWindow(seen, list, first, cap) && id !in seen
    requires SameKeys(seen, status, up, failures)
    ensures SetWindow(tracked, order, head, cap) && Window(order, head) == Remember(Window(list, first), id, cap)
    ensures Trims(tracked, status, up, failures, status', up', failures')
  {
    AppendNew(list, first, id);
    TrimsAll(seen, id, status, up, failures);
    order := list + [id];
    tracked, head, status', up', failures' := Evict(seen + {id}, order, first, cap, status, up, failures);
    PushedWindow(list, first, id, cap, head);
    order, head := Compact(order, head, cap);
  }

  lemma RememberedMembers(window: seq<ID>, id: ID, cap: nat)
    requires cap > 0 && |window| <= cap
    ensures id in Remember(window, id, cap)
    ensures Members(Remember(window, id, cap)) <= Members(window) + {id}
  {
    var r := Remember(window, id, cap);
    assert r[|r| - 1] == id;
  }

  method TrackMonitor(seen: set<ID>, list: seq<ID>, first: nat, id: ID, cap: nat,
                      status: map<ID, int>, up: map<ID, bool>, failures: map<ID, nat>)
    returns (tracked: set<ID>, order: seq<ID>, head: nat,
             status': map<ID, int>, up': map<ID, bool>, failures': map<ID, nat>)
    requires cap > 0 && SetWindow(seen, list, first, cap) && SameKeys(seen, status, up, failures)
    ensures SetWindow(tracked, order, head, cap) && Window(order, head) == Track(Window(list, first), id, cap)
    ensures id in tracked && tracked <= seen + {id} && Trims(tracked, status, up, failures, status', up', failures')
  {
    if id in seen {
      RestrictAll(status, seen); RestrictAll(up, seen); RestrictAll(failures, seen);
      return seen, list, first, status, up, failures;
    }
    tracked, order, head, status', up', failures' := Push(seen, list, first, id, cap, status, up, failures);
    RememberedMembers(Window(list, first), id, cap);
  }

  /** The tracked monitors with their maps. */
  datatype Tracker = Tracker(seen: set<ID>, order: seq<ID>, head: nat, status: map<ID, int>, up: map<ID, bool>,
                             failures: map<ID, nat>)

  datatype Quality = Windowing | Keys

  ghost predicate QualityHolds(t: Tracker, cap: nat, q: Quality) {
    match q
    case Windowing => SetWindow(t.seen, t.order, t.head, cap)
    case Keys => SameKeys(t.seen, t.status, t.up, t.failures)
  }

  /** Set, window and the keys of all three maps agree, and at most `cap` monitors are tracked. */
  ghost predicate Agrees(t: Tracker, cap: nat) {
    forall q :: QualityHolds(t, cap, q)
  }

  lemma QualityOf(t: Tracker, cap: nat, q: Quality)
    requires Agrees(t, cap)
    ensures QualityHolds(t, cap, q)
  {
  }

  ghost predicate Noted(t: Tracker, u: Tracker, r: CheckResult) {
    && u.status == Restrict(t.status, u.seen)[r.monitor := r.statusCode]
    && u.up == Restrict(t.up, u.seen)[r.monitor := r.healthy]
    && u.failures == Restrict(t.failures, u.seen)[r.monitor :=
                       if r.healthy then 0 else Count(t.failures, r.monitor) + 1]
  }

  /** What is tracked after a result: the monitor joins the window, a monitor pushed out loses its entries,
      and the monitor's own entries are set. */
  ghost predicate Observed(t: Tracker, u: Tracker, r: CheckResult, cap: nat) {
    Window(u.order, u.head) == Track(Window(t.order, t.head), r.monitor, cap) && Noted(t, u, r)
  }

  /** The monitor's own entries after a result, given what tracking it left of the maps. */
  method Note(t: Tracker, v: Tracker, r: CheckResult) returns (u: Tracker)
    requires r.monitor in v.seen && v.seen <= t.seen + {r.monitor} && SameKeys(t.seen, t.status, t.up, t.failures)
    requires Trims(v.seen, t.status, t.up, t.failures, v.status, v.up, v.failures)
    ensures u == v.(status := u.status, up := u.up, failures := u.failures)
    ensures SameKeys(u.seen, u.status, u.up, u.failures) && Noted(t, u, r)
  {
    CountKept(t.failures, v.seen, r.monitor);
    var count := if r.healthy then 0 else Count(v.failures, r.monitor) + 1;
    PutKeys(t.status, v.seen, r.monitor, r.statusCode);
    PutKeys(t.up, v.seen, r.monitor, r.healthy);
    PutKeys(t.failures, v.seen, r.monitor, count);
    u := v.(status := v.status[r.monitor := r.statusCode],
            up := v.up[r.monitor := r.healthy],
            failures := v.failures[r.monitor := count]);
  }

  method Observe(t: Tracker, r: CheckResult, cap: nat) returns (u: Tracker)
    requires cap > 0 && Agrees(t, cap)
    ensures Agrees(u, cap) && Observed(t, u, r, cap)
  {
    QualityOf(t, cap, Windowing); QualityOf(t, cap, Keys);
    var tracked, order, head, status, up, failures :=
      TrackMonitor(t.seen, t.order, t.head, r.monitor, cap, t.status, t.up, t.failures);
    u := Note(t, Tracker(tracked, order, head, status, up, failures), r);
  }

  /** Shifts the entries after the identifier's place one down. */
  method CutOut(list: seq<ID>, head: nat, id: ID) returns (order: seq<ID>)
    requires head <= |list| && id in list[head..] && |Members(list[head..])| == |list| - head
    ensures |order| == |list| - 1 && head <= |order|
    ensures order[head..] == Without(list[head..], id)
    ensures |Members(order[head..])| == |order| - head
  {
    var index := head;
    while list[index] != id
      invariant head <= index < |list| && id in list[index..]
      decreases |list| - index
    {
      assert list[index..] == [list[index]] + list[index + 1..];
      index := index + 1;
    }
    WithoutOne(list[head..], id, index - head);
    WithoutCount(list[head..], id);
    order := list[..index] + list[index + 1..];
    assert order[head..] == list[head..][..index - head] + list[head..][index - head + 1..];
  }

  method Untrack(seen: set<ID>, list: seq<ID>, head: nat, id: ID, cap: nat) returns (tracked: set<ID>, order: seq<ID>)
    requires SetWindow(seen, list, head, cap)
    ensures SetWindow(tracked, order, head, cap) && tracked == seen - {id}
    ensures Window(order, head) == Without(Window(list, head), id)
  {
    if id !in seen {
      WithoutAbsent(list[head..], id);
      return seen, list;
    }
    tracked := seen - {id};
    order := CutOut(list, head, id);
    assert Members(order[head..]) == tracked;
  }

  method Forget(t: Tracker, id: ID, cap: nat) returns (u: Tracker)
    requires Agrees(t, cap)
    ensures Agrees(u, cap) && Window(u.order, u.head) == Without(Window(t.order, t.head), id)
    ensures u.status == t.status - {id} && u.up == t.up - {id} && u.failures == t.failures - {id}
  {
    QualityOf(t, cap, Windowing); QualityOf(t, cap, Keys);
    var tracked, order := Untrack(t.seen, t.order, t.head, id, cap);
    u := Tracker(tracked, order, t.head, t.status - {id}, t.up - {id}, t.failures - {id});
  }

  class Metrics {
    const cap: nat
    const monitorStateEnabled: bool
    var checksTotal: nat
    var healthyTotal: nat
    var unhealthyTotal: nat
    var checkErrorsTotal: nat
    var durationSumSeconds: real
    var durationCount: nat
    var lastCheckAt: Time
    var lastSuccessAt: Time
    var statusByMonitor: map<ID, int>
    var upByMonitor: map<ID, bool>
    var consecutiveFailures: map<ID, nat>
    var trackedMonitors: set<ID>
    var trackedMonitorOrder: seq<ID>
    var trackedMonitorHead: nat

    function State(): Tracker
      reads this
    {
      Tracker(trackedMonitors, trackedMonitorOrder, trackedMonitorHead,
              statusByMonitor, upByMonitor, consecutiveFailures)
    }

    ghost predicate Valid()
      reads this
    {
      && cap > 0 && Agrees(State(), cap)
      && healthyTotal + unhealthyTotal == checksTotal == durationCount && checkErrorsTotal <= unhealthyTotal
    }

    constructor (cap: nat, enabled: bool)
      requires cap > 0
      ensures Valid() && this.cap == cap && monitorStateEnabled == enabled
      ensures State() == Tracker({}, [], 0, map[], map[], map[])
    {
      this.cap, monitorStateEnabled := cap, enabled;
      checksTotal, healthyTotal, unhealthyTotal, checkErrorsTotal := 0, 0, 0, 0;
      durationSumSeconds, durationCount, lastCheckAt, lastSuccessAt := 0.0, 0, 0, 0;
      statusByMonitor, upByMonitor, consecutiveFailures := map[], map[], map[];
      trackedMonitors, trackedMonitorOrder, trackedMonitorHead := {}, [], 0;
    }

    method SetTracker(t: Tracker)
      modifies this`statusByMonitor, this`upByMonitor, this`consecutiveFailures
      modifies this`trackedMonitors, this`trackedMonitorOrder, this`trackedMonitorHead
      ensures State() == t
    {
      trackedMonitors, trackedMonitorOrder, trackedMonitorHead := t.seen, t.order, t.head;
      statusByMonitor, upByMonitor, consecutiveFailures := t.status, t.up, t.failures;
    }

    method CountResult(r: CheckResult, at: Time)
      modifies this`checksTotal, this`healthyTotal, this`unhealthyTotal, this`checkErrorsTotal
      modifies this`durationSumSeconds, this`durationCount, this`lastCheckAt, this`lastSuccessAt
      ensures checksTotal == old(checksTotal) + 1 && durationCount == old(durationCount) + 1
      ensures healthyTotal == old(healthyTotal) + if r.healthy then 1 else 0
      ensures unhealthyTotal == old(unhealthyTotal) + if r.healthy then 0 else 1
      ensures checkErrorsTotal == old(checkErrorsTotal) + if !r.healthy && r.error != "" then 1 else 0
      ensures durationSumSeconds == old(durationSumSeconds) + r.seconds
      ensures lastCheckAt == at && lastSuccessAt == if r.healthy then at else old(lastSuccessAt)
    {
      checksTotal, lastCheckAt := checksTotal + 1, at;
      durationSumSeconds, durationCount := durationSumSeconds + r.seconds, durationCount + 1;
      if r.healthy {
        healthyTotal, lastSuccessAt := healthyTotal + 1, at;
      } else {
        unhealthyTotal := unhealthyTotal + 1;
        if r.error != "" { checkErrorsTotal := checkErrorsTotal + 1; }
      }
    }

    /** `clock` is read when the caller gives no time. */
    method RecordResult(r: CheckResult, recordedAt: Time, clock: Time)
      requires Valid()
      modifies this
      ensures Valid() && checksTotal == old(checksTotal) + 1
      ensures healthyTotal == old(healthyTotal) + if r.healthy then 1 else 0
      ensures checkErrorsTotal == old(checkErrorsTotal) + if !r.healthy && r.error != "" then 1 else 0
      ensures durationSumSeconds == old(durationSumSeconds) + r.seconds
      ensures lastCheckAt == if recordedAt == 0 then clock else recordedAt
      ensures lastSuccessAt == if r.healthy then lastCheckAt else old(lastSuccessAt)
      ensures if monitorStateEnabled && r.monitor != "" then Observed(old(State()), State(), r, cap)
              else State() == old(State())
    {
      CountResult(r, if recordedAt == 0 then clock else recordedAt);
      if monitorStateEnabled && r.monitor != "" {
        var t := Observe(State(), r, cap);
        SetTracker(t);
      }
    }

    method RemoveMonitor(id: ID)
      requires Valid()
      modifies this
      ensures Valid()
      ensures !monitorStateEnabled || id == "" ==> unchanged(this)
      ensures monitorStateEnabled && id != "" ==>
        var t, u := old(State()), State();
        && Window(u.order, u.head) == Without(Window(t.order, t.head), id)
        && u.status == t.status - {id} && u.up == t.up - {id} && u.failures == t.failures - {id}
    {
      if id == "" || !monitorStateEnabled { return; }
      var t := Forget(State(), id, cap);
      SetTracker(t);
    }
  }
}
