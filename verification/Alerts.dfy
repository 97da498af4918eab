/** Incidents, the alert outbox and its dispatcher in PostgreSQL: each transaction is one guarded update of
    the tables. The unique index on open incidents is the map `open`. */
module Alerts {
  import opened Identifiers
  import opened Model
  import opened Priority

  const ALERT_SAFETY_MARGIN: nat := 5 * SECOND
  const DEFAULT_ALERT_ATTEMPTS: nat := 8

  function AttemptLimit(configured: int): nat { if configured <= 0 then DEFAULT_ALERT_ATTEMPTS else configured }

  function LeaseTimeout(configured: int): nat { if configured <= 0 then MINUTE else configured }

  datatype Policy = Policy(enabled: bool, threshold: int, cooldown: int)

  datatype AlertIncident = AlertIncident(monitor: ID, open: bool, failures: nat, lastAlerted: Option<Time>,
                                         alertCount: nat)

  datatype EventStatus = Pending | InProcess | Delivered | GivenUp

  datatype Event = Event(id: ID, key: string, incident: ID, failures: nat, status: EventStatus, attempts: nat,
                         availableAt: Time, createdAt: Time, token: ID, lockedUntil: Time)
  {
    predicate Final() { status.Delivered? || status.GivenUp? }
  }

  /** An alert that was inserted at some time, with the policy it was decided by. */
  datatype Note = Note(incident: ID, failures: nat, at: Time, policy: Policy)

  /** The tables (`incidents`, `open`, `outbox`) and what has happened: the highest attempt limit a claim has
      used, the identifiers and tokens drawn, the alerts inserted, and how often each event was claimed. */
  datatype Desk = Desk(
    incidents: map<ID, AlertIncident>,
    open: map<ID, ID>,
    outbox: map<ID, Event>,
    highest: nat,
    clock: Time,
    issued: set<ID>,
    events: set<ID>,
    tokens: set<ID>,
    inserted: seq<Note>,
    claims: map<ID, nat>)

  function Opened(): Desk {
    Desk(map[], map[], map[], 0, 0, {}, {}, {}, [], map[])
  }

  function Claims(claims: map<ID, nat>, e: ID): nat { if e in claims then claims[e] else 0 }

  // ------------------------------------------------------------------ incidents and alerts

  /** The incident row of a failed result after the upsert. */
  function Raised(d: Desk, m: ID, added: ID): (ID, AlertIncident) {
    if m in d.open && d.open[m] in d.incidents
    then (d.open[m], d.incidents[d.open[m]].(failures := d.incidents[d.open[m]].failures + 1))
    else (added, AlertIncident(m, true, 1, None, 0))
  }

  /** Whether the row calls for an alert under the policy. */
  predicate Alerting(row: AlertIncident, now: Time, p: Policy) {
    && p.enabled && row.failures >= p.threshold
    && (row.lastAlerted.Some? ==> now - row.lastAlerted.value >= p.cooldown)
  }

  predicate KeyTaken(outbox: map<ID, Event>, key: string) {
    exists e :: e in outbox && outbox[e].key == key
  }

  function Upsert(d: Desk, i: ID, row: AlertIncident): Desk {
    d.(incidents := d.incidents[i := row], open := d.open[row.monitor := i], issued := d.issued + {i})
  }

  function NewEvent(event: ID, i: ID, failures: nat, now: Time): Event {
    Event(event, AlertKey(i, failures), i, failures, Pending, 0, now, now, "", 0)
  }

  function Alerted(row: AlertIncident, now: Time): AlertIncident {
    row.(lastAlerted := Some(now), alertCount := row.alertCount + 1)
  }

  function Insert(d: Desk, i: ID, row: AlertIncident, event: ID, now: Time, p: Policy): Desk {
    d.(incidents := d.incidents[i := Alerted(row, now)],
       outbox := d.outbox[event := NewEvent(event, i, row.failures, now)],
       events := d.events + {event},
       inserted := d.inserted + [Note(i, row.failures, now, p)])
  }

  function DoFailure(d: Desk, m: ID, incident: ID, event: ID, now: Time, p: Policy): Desk {
    var (i, row) := Raised(d, m, incident);
    var t := Upsert(d, i, row).(clock := now);
    if !Alerting(row, now, p) then t
    else if KeyTaken(d.outbox, AlertKey(i, row.failures)) then t
    else Insert(t, i, row, event, now, p)
  }

  /** A success, or a change of the monitor's meaning, resolves the open incident. */
  function DoResolve(d: Desk, m: ID, now: Time): Desk {
    if m !in d.open || d.open[m] !in d.incidents then d.(clock := now)
    else
      var i := d.open[m];
      d.(incidents := d.incidents[i := d.incidents[i].(open := false)], open := d.open - {m}, clock := now)
  }

  // ------------------------------------------------------------------ the outbox

  predicate Exhausted(e: Event, now: Time, max: nat) {
    e.attempts >= max && (e.status.Pending? || (e.status.InProcess? && e.lockedUntil <= now))
  }

  predicate Claimable(e: Event, now: Time, max: nat) {
    e.attempts < max && ((e.status.Pending? && e.availableAt <= now) || (e.status.InProcess? && e.lockedUntil <= now))
  }

  function SweepEvent(e: Event, now: Time, max: nat): Event {
    if Exhausted(e, now, max) then e.(status := GivenUp, token := "", lockedUntil := 0) else e
  }

  function ClaimEvent(e: Event, token: ID, until: Time): Event {
    e.(status := InProcess, attempts := e.attempts + 1, token := token, lockedUntil := until)
  }

  function SweptRows(outbox: map<ID, Event>, now: Time, max: nat): map<ID, Event> {
    map e | e in outbox :: SweepEvent(outbox[e], now, max)
  }

  function Pool(outbox: map<ID, Event>, now: Time, max: nat): set<Rank> {
    set e | e in outbox && Claimable(outbox[e], now, max) :: Rank(outbox[e].availableAt, outbox[e].createdAt, e)
  }

  ghost function PickedIds(picks: seq<Rank>): set<ID> { set x | x in picks :: x.id }

  ghost function ClaimAll(outbox: map<ID, Event>, ids: set<ID>, token: ID, until: Time): map<ID, Event> {
    map e | e in outbox :: if e in ids then ClaimEvent(outbox[e], token, until) else outbox[e]
  }

  ghost function DoClaim(d: Desk, picks: seq<Rank>, token: ID, now: Time, lease: nat, max: nat): Desk {
    var swept := SweptRows(d.outbox, now, max);
    var ids := PickedIds(picks);
    d.(outbox := ClaimAll(swept, ids, token, now + lease), clock := now, tokens := d.tokens + {token},
       highest := if max > d.highest then max else d.highest,
       claims := map e | e in d.claims.Keys + (ids * swept.Keys) ::
         Claims(d.claims, e) + if e in ids && e in swept then 1 else 0)
  }

  predicate HoldsClaim(d: Desk, e: ID, token: ID) {
    e in d.outbox && d.outbox[e].status.InProcess? && d.outbox[e].token == token
  }

  function DoDelivered(d: Desk, e: ID, token: ID, now: Time): Desk {
    if !HoldsClaim(d, e, token) then d.(clock := now)
    else d.(outbox := d.outbox[e := d.outbox[e].(status := Delivered, token := "", lockedUntil := 0)], clock := now)
  }

  function GivenBack(row: Event, dead: bool, availableAt: Time): Event {
    row.(status := if dead then GivenUp else Pending, availableAt := availableAt, token := "", lockedUntil := 0)
  }

  function DoFailed(d: Desk, e: ID, token: ID, delay: nat, dead: bool, now: Time): Desk {
    if !HoldsClaim(d, e, token) then d.(clock := now)
    else d.(outbox := d.outbox[e := GivenBack(d.outbox[e], dead, now + delay)], clock := now)
  }

  /** Retention and cascading deletes take rows away; an incident takes its events along. */
  function DoRemove(d: Desk, incidents: set<ID>, events: set<ID>, now: Time): Desk {
    d.(incidents := d.incidents - incidents,
       open := map m | m in d.open && d.open[m] !in incidents :: d.open[m],
       outbox := map e | e in d.outbox && e !in events && d.outbox[e].incident !in incidents :: d.outbox[e],
       clock := now)
  }

  // ------------------------------------------------------------------ the dispatcher's decision

  /** Client errors are final, except a timeout, a request sent too early and too many requests. */
  predicate IsPermanentStatus(status: int) {
    400 <= status < 500 && status != 408 && status != 425 && status != 429
  }

  /** What came of a delivery: a response status with the delay it asks for, or no response at all. */
  datatype Delivery = Sent | Refused(status: int, retryAfter: nat) | Unreachable

  predicate GivesUp(r: Delivery, attempts: nat, max: nat) {
    (r.Refused? && IsPermanentStatus(r.status)) || attempts >= max
  }

  function RetryDelay(r: Delivery, backoff: nat): nat {
    if r.Refused? && r.retryAfter > backoff then r.retryAfter else backoff
  }

  /** One dispatch of a claimed event, `attempts` as returned by the claim. A failed delivery of a dispatcher that
      is being stopped marks nothing. */
  function DoDispatch(d: Desk, e: ID, token: ID, attempts: nat, r: Delivery, stopped: bool, backoff: nat, max: nat,
                      now: Time): Desk {
    if r.Sent? then DoDelivered(d, e, token, now)
    else if stopped then d.(clock := now)
    else DoFailed(d, e, token, RetryDelay(r, backoff), GivesUp(r, attempts, max), now)
  }

  // ------------------------------------------------------------------ facts

  function Count(inserted: seq<Note>, i: ID): nat {
    if inserted == [] then 0
    else Count(inserted[..|inserted| - 1], i) + if inserted[|inserted| - 1].incident == i then 1 else 0
  }

  ghost predicate IndexAgrees(d: Desk) {
    && d.incidents.Keys <= d.issued
    && (forall m :: m in d.open ==>
          d.open[m] in d.incidents && d.incidents[d.open[m]].monitor == m && d.incidents[d.open[m]].open)
    && (forall i :: i in d.incidents && d.incidents[i].open ==>
          d.incidents[i].monitor in d.open && d.open[d.incidents[i].monitor] == i)
  }

  predicate RowAgrees(d: Desk, e: ID, row: Event) {
    && row.id == e && e in d.events
    && (row.token != "" <==> row.status.InProcess?) && (row.token != "" ==> row.token in d.tokens)
    && row.attempts <= d.highest && Claims(d.claims, e) == row.attempts
    && row.key == AlertKey(row.incident, row.failures)
  }

  ghost predicate RowsAgree(d: Desk) {
    && "" !in d.tokens && d.claims.Keys <= d.events
    && (forall e :: e in d.outbox ==> RowAgrees(d, e, d.outbox[e]))
    && (forall e :: Claims(d.claims, e) <= d.highest)
  }

  ghost predicate Noted(inserted: seq<Note>, i: ID, failures: nat) {
    exists k :: 0 <= k < |inserted| && inserted[k].incident == i && inserted[k].failures == failures
  }

  ghost predicate EventsNoted(d: Desk) {
    forall e :: e in d.outbox ==> Noted(d.inserted, d.outbox[e].incident, d.outbox[e].failures)
  }

  /** Every alert met its policy; its incident has since only moved on. */
  predicate NoteAgrees(d: Desk, n: Note) {
    && n.incident in d.issued && n.at <= d.clock && n.policy.enabled && n.failures >= n.policy.threshold
    && (n.incident in d.incidents ==>
          && n.failures <= d.incidents[n.incident].failures
          && d.incidents[n.incident].lastAlerted.Some? && n.at <= d.incidents[n.incident].lastAlerted.value)
  }

  ghost predicate NotesAgree(d: Desk) {
    forall k :: 0 <= k < |d.inserted| ==> NoteAgrees(d, d.inserted[k])
  }

  /** Alerts of one incident are a cooldown apart and have growing failure counts. */
  ghost predicate Spaced(inserted: seq<Note>) {
    forall i, k :: 0 <= i < k < |inserted| && inserted[i].incident == inserted[k].incident ==>
      inserted[i].failures < inserted[k].failures && inserted[k].at - inserted[i].at >= inserted[k].policy.cooldown
  }

  ghost predicate Counted(d: Desk) {
    forall i :: i in d.incidents ==> d.incidents[i].alertCount == Count(d.inserted, i)
  }

  datatype Fact = Indexes | Rows | Traces | Notes | Spacing | Counts

  ghost predicate FactHolds(d: Desk, f: Fact) {
    match f
    case Indexes => IndexAgrees(d)
    case Rows => RowsAgree(d)
    case Traces => EventsNoted(d)
    case Notes => NotesAgree(d)
    case Spacing => Spaced(d.inserted)
    case Counts => Counted(d)
  }

  ghost predicate Good(d: Desk) {
    forall f :: FactHolds(d, f)
  }

  lemma FactOf(d: Desk, f: Fact)
    requires Good(d)
    ensures FactHolds(d, f)
  {
  }

  lemma OpenedGood()
    ensures Good(Opened())
  {
  }

  // ------------------------------------------------------------------ a failed result

  lemma {:induction false} CountAbsent(inserted: seq<Note>, i: ID)
    requires forall k :: 0 <= k < |inserted| ==> inserted[k].incident != i
    ensures Count(inserted, i) == 0
  {
    if inserted != [] { CountAbsent(inserted[..|inserted| - 1], i); }
  }

  /** What the raised row is: a known incident with more failures than any alert of it, or a new one. */
  lemma RaisedRow(d: Desk, m: ID, incident: ID)
    requires Good(d) && incident !in d.issued
    ensures var (i, row) := Raised(d, m, incident);
      && row.monitor == m && row.open
      && (i in d.incidents ==> m in d.open && d.open[m] == i && d.incidents[i].monitor == m)
      && (i in d.incidents ==> row == d.incidents[i].(failures := d.incidents[i].failures + 1))
      && (i !in d.incidents ==> i !in d.issued && m !in d.open && row.lastAlerted.None? && row.alertCount == 0)
      && (forall k :: 0 <= k < |d.inserted| && d.inserted[k].incident == i ==>
            i in d.incidents && d.inserted[k].failures < row.failures)
  {
    FactOf(d, Indexes); FactOf(d, Notes);
    var (i, row) := Raised(d, m, incident);
    forall k | 0 <= k < |d.inserted| && d.inserted[k].incident == i
      ensures i in d.incidents && d.inserted[k].failures < row.failures
    {
      assert NoteAgrees(d, d.inserted[k]);
    }
  }

  /** Rows that stay as they are stay in order. */
  lemma SameRows(d: Desk, t: Desk)
    requires RowsAgree(d) && t.events == d.events && t.tokens == d.tokens
    requires t.highest == d.highest && t.claims == d.claims
    requires forall e :: e in t.outbox ==> e in d.outbox && t.outbox[e] == d.outbox[e]
    ensures RowsAgree(t)
  {
    forall e | e in t.outbox ensures RowAgrees(t, e, t.outbox[e]) { assert RowAgrees(d, e, d.outbox[e]); }
  }

  /** Alerts stay in order while their incidents only move on. */
  lemma LaterNotes(d: Desk, t: Desk)
    requires NotesAgree(d) && t.inserted == d.inserted && d.issued <= t.issued && d.clock <= t.clock
    requires forall k :: 0 <= k < |d.inserted| && d.inserted[k].incident in t.incidents ==>
      var i := d.inserted[k].incident;
      && i in d.incidents && d.incidents[i].failures <= t.incidents[i].failures
      && t.incidents[i].lastAlerted == d.incidents[i].lastAlerted
    ensures NotesAgree(t)
  {
    forall k | 0 <= k < |t.inserted| ensures NoteAgrees(t, t.inserted[k]) { assert NoteAgrees(d, d.inserted[k]); }
  }

  lemma UpsertGood(d: Desk, m: ID, incident: ID, now: Time)
    requires Good(d) && incident !in d.issued && now > d.clock
    ensures var (i, row) := Raised(d, m, incident); Good(Upsert(d, i, row).(clock := now))
  {
    var (i, row) := Raised(d, m, incident);
    RaisedRow(d, m, incident);
    var t := Upsert(d, i, row).(clock := now);
    forall f ensures FactHolds(t, f) {
      FactOf(d, f);
      match f
      case Rows => SameRows(d, t);
      case Notes => LaterNotes(d, t);
      case Counts => if i !in d.incidents { CountAbsent(d.inserted, i); }
      case _ =>
    }
  }

  /** The key of the next alert was never used: the conflict branch of the insertion is never taken. */
  lemma KeyIsNew(d: Desk, m: ID, incident: ID)
    requires Good(d) && incident !in d.issued
    ensures var (i, row) := Raised(d, m, incident); !KeyTaken(d.outbox, AlertKey(i, row.failures))
  {
    var (i, row) := Raised(d, m, incident);
    RaisedRow(d, m, incident);
    FactOf(d, Rows); FactOf(d, Traces);
    assert !Noted(d.inserted, i, row.failures);
    forall e | e in d.outbox ensures d.outbox[e].key != AlertKey(i, row.failures) {
      assert RowAgrees(d, e, d.outbox[e]);
      if d.outbox[e].key == AlertKey(i, row.failures) {
        AlertKeyInjective(d.outbox[e].incident, d.outbox[e].failures, i, row.failures);
      }
    }
  }

  lemma InsertNotes(d: Desk, i: ID, row: AlertIncident, event: ID, now: Time, p: Policy)
    requires NotesAgree(d) && Spaced(d.inserted) && d.clock == now && i in d.incidents && i in d.issued
    requires row.failures == d.incidents[i].failures && row.lastAlerted == d.incidents[i].lastAlerted
    requires Alerting(row, now, p)
    requires forall k :: 0 <= k < |d.inserted| && d.inserted[k].incident == i ==> d.inserted[k].failures < row.failures
    ensures NotesAgree(Insert(d, i, row, event, now, p)) && Spaced(Insert(d, i, row, event, now, p).inserted)
  {
    var t := Insert(d, i, row, event, now, p);
    forall k | 0 <= k < |t.inserted| ensures NoteAgrees(t, t.inserted[k]) {
      if k < |d.inserted| { assert NoteAgrees(d, d.inserted[k]); }
    }
    forall a, b | 0 <= a < b < |t.inserted| && t.inserted[a].incident == t.inserted[b].incident
      ensures t.inserted[a].failures < t.inserted[b].failures
      ensures t.inserted[b].at - t.inserted[a].at >= t.inserted[b].policy.cooldown
    {
      if b == |d.inserted| { assert NoteAgrees(d, d.inserted[a]); }
    }
  }

  lemma InsertTraces(d: Desk, i: ID, row: AlertIncident, event: ID, now: Time, p: Policy)
    requires EventsNoted(d)
    ensures EventsNoted(Insert(d, i, row, event, now, p))
  {
    var t := Insert(d, i, row, event, now, p);
    forall e | e in t.outbox ensures Noted(t.inserted, t.outbox[e].incident, t.outbox[e].failures) {
      if e == event {
        assert t.inserted[|d.inserted|].incident == i;
      } else {
        var row := d.outbox[e];
        assert Noted(d.inserted, row.incident, row.failures);
        var k :| 0 <= k < |d.inserted| && d.inserted[k].incident == row.incident
                 && d.inserted[k].failures == row.failures;
        assert t.inserted[k] == d.inserted[k];
      }
    }
  }

  lemma InsertRows(d: Desk, i: ID, row: AlertIncident, event: ID, now: Time, p: Policy)
    requires RowsAgree(d) && event !in d.events
    ensures RowsAgree(Insert(d, i, row, event, now, p))
  {
    var t := Insert(d, i, row, event, now, p);
    forall e | e in t.outbox ensures RowAgrees(t, e, t.outbox[e]) {
      if e != event { assert RowAgrees(d, e, d.outbox[e]); }
    }
  }

  lemma InsertCounts(d: Desk, i: ID, row: AlertIncident, event: ID, now: Time, p: Policy)
    requires Counted(d) && i in d.incidents && row == d.incidents[i]
    ensures Counted(Insert(d, i, row, event, now, p))
  {
    var t := Insert(d, i, row, event, now, p);
    assert t.inserted[..|d.inserted|] == d.inserted;
    assert forall k :: Count(t.inserted, k) == Count(d.inserted, k) + if k == i then 1 else 0;
  }

  lemma InsertGood(d: Desk, i: ID, row: AlertIncident, event: ID, now: Time, p: Policy)
    requires Good(d) && d.clock == now && i in d.incidents && row == d.incidents[i] && Alerting(row, now, p)
    requires event !in d.events
    requires forall k :: 0 <= k < |d.inserted| && d.inserted[k].incident == i ==> d.inserted[k].failures < row.failures
    ensures Good(Insert(d, i, row, event, now, p))
  {
    var t := Insert(d, i, row, event, now, p);
    forall f ensures FactHolds(t, f) {
      FactOf(d, f);
      match f
      case Indexes =>
      case Rows => InsertRows(d, i, row, event, now, p);
      case Traces => InsertTraces(d, i, row, event, now, p);
      case Counts => InsertCounts(d, i, row, event, now, p);
      case _ => FactOf(d, Notes); FactOf(d, Spacing); FactOf(d, Indexes); InsertNotes(d, i, row, event, now, p);
    }
  }

  lemma FailureGood(d: Desk, m: ID, incident: ID, event: ID, now: Time, p: Policy)
    requires Good(d) && now > d.clock && incident !in d.issued && event !in d.events
    ensures Good(DoFailure(d, m, incident, event, now, p))
  {
    var (i, row) := Raised(d, m, incident);
    UpsertGood(d, m, incident, now);
    RaisedRow(d, m, incident);
    KeyIsNew(d, m, incident);
    if Alerting(row, now, p) { InsertGood(Upsert(d, i, row).(clock := now), i, row, event, now, p); }
  }

  lemma ResolveIndexes(d: Desk, m: ID, now: Time)
    requires IndexAgrees(d)
    ensures IndexAgrees(DoResolve(d, m, now))
  {
  }

  lemma ResolveGood(d: Desk, m: ID, now: Time)
    requires Good(d) && now > d.clock
    ensures Good(DoResolve(d, m, now))
  {
    var t := DoResolve(d, m, now);
    forall f ensures FactHolds(t, f) {
      FactOf(d, f);
      match f
      case Indexes => ResolveIndexes(d, m, now);
      case Rows => SameRows(d, t);
      case Notes => LaterNotes(d, t);
      case _ =>
    }
  }

  lemma RemoveGood(d: Desk, incidents: set<ID>, events: set<ID>, now: Time)
    requires Good(d) && now > d.clock
    ensures Good(DoRemove(d, incidents, events, now))
  {
    var t := DoRemove(d, incidents, events, now);
    forall f ensures FactHolds(t, f) {
      FactOf(d, f);
      match f
      case Rows => SameRows(d, t);
      case Notes => LaterNotes(d, t);
      case _ =>
    }
  }

  // ------------------------------------------------------------------ the outbox

  /** Only rows change, each keeping its identity; tokens and claims may be added. */
  lemma OutboxGood(d: Desk, t: Desk)
    requires Good(d) && t.clock >= d.clock
    requires t == d.(outbox := t.outbox, clock := t.clock, tokens := t.tokens, claims := t.claims, highest := t.highest)
    requires RowsAgree(t)
    requires forall e :: e in t.outbox ==>
      e in d.outbox && t.outbox[e].incident == d.outbox[e].incident && t.outbox[e].failures == d.outbox[e].failures
    ensures Good(t)
  {
    forall f ensures FactHolds(t, f) {
      FactOf(d, f);
      match f
      case Notes => LaterNotes(d, t);
      case _ =>
    }
  }

  lemma ClaimedRow(d: Desk, picks: seq<Rank>, token: ID, now: Time, lease: nat, max: nat, e: ID)
    requires RowsAgree(d) && token != "" && e in d.outbox
    requires e in PickedIds(picks) ==> Claimable(SweptRows(d.outbox, now, max)[e], now, max)
    ensures var t := DoClaim(d, picks, token, now, lease, max); RowAgrees(t, e, t.outbox[e])
  {
    assert RowAgrees(d, e, d.outbox[e]);
  }

  lemma ClaimedCount(d: Desk, picks: seq<Rank>, token: ID, now: Time, lease: nat, max: nat, e: ID)
    ensures Claims(DoClaim(d, picks, token, now, lease, max).claims, e) ==
      Claims(d.claims, e) + if e in PickedIds(picks) && e in d.outbox then 1 else 0
  {
  }

  lemma ClaimedEvents(d: Desk, picks: seq<Rank>, token: ID, now: Time, lease: nat, max: nat)
    requires RowsAgree(d)
    ensures DoClaim(d, picks, token, now, lease, max).claims.Keys <= d.events
  {
    forall e | e in DoClaim(d, picks, token, now, lease, max).claims ensures e in d.events {
      if e in d.outbox { assert RowAgrees(d, e, d.outbox[e]); }
    }
  }

  lemma ClaimRowsAgree(d: Desk, picks: seq<Rank>, token: ID, now: Time, lease: nat, max: nat)
    requires RowsAgree(d) && token != ""
    requires forall e :: e in PickedIds(picks) ==>
      e in d.outbox && Claimable(SweptRows(d.outbox, now, max)[e], now, max)
    ensures RowsAgree(DoClaim(d, picks, token, now, lease, max))
  {
    var t := DoClaim(d, picks, token, now, lease, max);
    forall e | e in t.outbox ensures RowAgrees(t, e, t.outbox[e]) { ClaimedRow(d, picks, token, now, lease, max, e); }
    forall e ensures Claims(t.claims, e) <= t.highest {
      ClaimedCount(d, picks, token, now, lease, max, e);
      if e in t.outbox { assert RowAgrees(t, e, t.outbox[e]); } else { assert Claims(d.claims, e) <= d.highest; }
    }
    ClaimedEvents(d, picks, token, now, lease, max);
  }

  lemma PicksClaimable(outbox: map<ID, Event>, picks: seq<Rank>, now: Time, max: nat, limit: nat)
    requires TopOf(picks, Pool(outbox, now, max), limit)
    ensures forall e :: e in PickedIds(picks) ==> e in outbox && Claimable(outbox[e], now, max)
  {
    forall e | e in PickedIds(picks) ensures e in outbox && Claimable(outbox[e], now, max) {
      var x :| x in picks && x.id == e;
      assert x in Pool(outbox, now, max);
    }
  }

  lemma ClaimGood(d: Desk, picks: seq<Rank>, token: ID, now: Time, lease: nat, max: nat, limit: nat)
    requires Good(d) && now > d.clock && token != "" && token !in d.tokens
    requires TopOf(picks, Pool(SweptRows(d.outbox, now, max), now, max), limit)
    ensures Good(DoClaim(d, picks, token, now, lease, max))
  {
    FactOf(d, Rows);
    PicksClaimable(SweptRows(d.outbox, now, max), picks, now, max, limit);
    ClaimRowsAgree(d, picks, token, now, lease, max);
    OutboxGood(d, DoClaim(d, picks, token, now, lease, max));
  }

  lemma PutRowGood(d: Desk, e: ID, row: Event, now: Time)
    requires Good(d) && now > d.clock && e in d.outbox
    requires row == d.outbox[e].(status := row.status, availableAt := row.availableAt, token := "", lockedUntil := 0)
    requires !row.status.InProcess?
    ensures Good(d.(outbox := d.outbox[e := row], clock := now))
  {
    var t := d.(outbox := d.outbox[e := row], clock := now);
    FactOf(d, Rows);
    forall k | k in t.outbox ensures RowAgrees(t, k, t.outbox[k]) { assert RowAgrees(d, k, d.outbox[k]); }
    OutboxGood(d, t);
  }

  lemma TickGood(d: Desk, now: Time)
    requires Good(d) && now > d.clock
    ensures Good(d.(clock := now))
  {
    var t := d.(clock := now);
    FactOf(d, Rows);
    forall k | k in t.outbox ensures RowAgrees(t, k, t.outbox[k]) { assert RowAgrees(d, k, d.outbox[k]); }
    OutboxGood(d, t);
  }

  lemma DeliveredGood(d: Desk, e: ID, token: ID, now: Time)
    requires Good(d) && now > d.clock
    ensures Good(DoDelivered(d, e, token, now))
  {
    if HoldsClaim(d, e, token) {
      PutRowGood(d, e, d.outbox[e].(status := Delivered, token := "", lockedUntil := 0), now);
    } else {
      TickGood(d, now);
    }
  }

  lemma FailedGood(d: Desk, e: ID, token: ID, delay: nat, dead: bool, now: Time)
    requires Good(d) && now > d.clock
    ensures Good(DoFailed(d, e, token, delay, dead, now))
  {
    if HoldsClaim(d, e, token) {
      PutRowGood(d, e, GivenBack(d.outbox[e], dead, now + delay), now);
    } else {
      TickGood(d, now);
    }
  }
}
