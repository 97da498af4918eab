/** The transactions on incidents and the alert outbox, statement by statement. */
module AlertRepositories {
  import opened Identifiers
  import opened Model
  import opened Priority
  import opened Alerts

  /** UPDATE … SET status = 'dead' over the exhausted rows. */
  method SweepRows(outbox: map<ID, Event>, now: Time, max: nat) returns (rows: map<ID, Event>)
    ensures rows == SweptRows(outbox, now, max)
  {
    rows := outbox;
    var rest := outbox.Keys;
    while rest != {}
      invariant rest <= outbox.Keys
      invariant rows == map e | e in outbox :: if e in rest then outbox[e] else SweepEvent(outbox[e], now, max)
      decreases |rest|
    {
      var e :| e in rest;
      rest := rest - {e};
      var row := rows[e];
      if row.attempts >= max && (row.status.Pending? || (row.status.InProcess? && row.lockedUntil <= now)) {
        rows := rows[e := row.(status := GivenUp, token := "", lockedUntil := 0)];
      }
    }
  }

  /** SELECT … ORDER BY available_at, created_at, id LIMIT. */
  method SelectCandidates(outbox: map<ID, Event>, now: Time, max: nat, limit: nat) returns (picks: seq<Rank>)
    ensures TopOf(picks, Pool(outbox, now, max), limit)
  {
    var pool := Pool(outbox, now, max);
    var sorted := Sort(pool);
    PrefixIsTop(sorted, limit);
    picks := sorted[..if limit < |sorted| then limit else |sorted|];
  }

  lemma PickedNext(picks: seq<Rank>, i: nat)
    requires i < |picks| && forall a, b :: 0 <= a < b < |picks| ==> picks[a].id != picks[b].id
    ensures PickedIds(picks[..i + 1]) == PickedIds(picks[..i]) + {picks[i].id} && picks[i].id !in PickedIds(picks[..i])
  {
    assert picks[..i + 1] == picks[..i] + [picks[i]];
  }

  /** UPDATE … FROM candidates RETURNING the claimed rows. */
  method ClaimRows(outbox: map<ID, Event>, picks: seq<Rank>, token: ID, until: Time)
    returns (rows: map<ID, Event>, claimed: seq<Event>)
    requires Sorted(picks) && (forall x :: x in picks ==> x.id in outbox)
    requires forall i, k :: 0 <= i < k < |picks| ==> picks[i].id != picks[k].id
    ensures rows == ClaimAll(outbox, PickedIds(picks), token, until)
    ensures |claimed| == |picks| && forall i :: 0 <= i < |picks| ==>
      claimed[i] == ClaimEvent(outbox[picks[i].id], token, until)
  {
    rows, claimed := outbox, [];
    var i := 0;
    while i < |picks|
      invariant 0 <= i <= |picks| == |claimed| + (|picks| - i)
      invariant rows == ClaimAll(outbox, PickedIds(picks[..i]), token, until)
      invariant forall k :: 0 <= k < i ==> claimed[k] == ClaimEvent(outbox[picks[k].id], token, until)
    {
      var e := picks[i].id;
      assert picks[i] in picks;
      PickedNext(picks, i);
      var row := rows[e].(status := InProcess, attempts := rows[e].attempts + 1, token := token, lockedUntil := until);
      rows, claimed := rows[e := row], claimed + [row];
      i := i + 1;
    }
    assert picks[..i] == picks;
  }

  lemma PicksDistinct(outbox: map<ID, Event>, picks: seq<Rank>, now: Time, max: nat, limit: nat)
    requires TopOf(picks, Pool(outbox, now, max), limit)
    ensures forall x :: x in picks ==> x.id in outbox
    ensures forall i, k :: 0 <= i < k < |picks| ==> picks[i].id != picks[k].id
  {
    forall i, k | 0 <= i < k < |picks| ensures picks[i].id != picks[k].id {
      assert picks[i] in picks && picks[k] in picks;
      BeforeTotal(picks[i], picks[k]);
    }
  }

  /** The returned rows are the picked ones as stored. */
  ghost predicate ClaimedRows(outbox: map<ID, Event>, picks: seq<Rank>, claimed: seq<Event>) {
    && |claimed| == |picks|
    && (forall i :: 0 <= i < |picks| ==> picks[i].id in outbox && claimed[i] == outbox[picks[i].id])
  }

  /** The statements of one claim in a row. */
  method ClaimBatch(outbox: map<ID, Event>, limit: nat, now: Time, max: nat, token: ID, until: Time)
    returns (rows: map<ID, Event>, claimed: seq<Event>, picks: seq<Rank>)
    ensures TopOf(picks, Pool(SweptRows(outbox, now, max), now, max), limit)
    ensures rows == ClaimAll(SweptRows(outbox, now, max), PickedIds(picks), token, until)
    ensures ClaimedRows(rows, picks, claimed)
  {
    var swept := SweepRows(outbox, now, max);
    picks := SelectCandidates(swept, now, max, limit);
    PicksDistinct(swept, picks, now, max, limit);
    rows, claimed := ClaimRows(swept, picks, token, until);
    forall i | 0 <= i < |picks| ensures picks[i].id in rows && claimed[i] == rows[picks[i].id] {
      assert picks[i] in picks;
    }
  }

  class AlertRepository {
    var incidents: map<ID, AlertIncident>
    var open: map<ID, ID>
    var outbox: map<ID, Event>
    ghost var desk: Desk

    ghost predicate Valid()
      reads this
    {
      Good(desk) && desk.incidents == incidents && desk.open == open && desk.outbox == outbox
    }

    constructor ()
      ensures Valid() && desk == Opened()
    {
      incidents, open, outbox := map[], map[], map[];
      desk := Opened();
      OpenedGood();
    }

    /** INSERT … ON CONFLICT (monitor_id) WHERE status = 'open' DO UPDATE … RETURNING. */
    method UpsertIncident(m: ID, incident: ID) returns (i: ID, row: AlertIncident)
      requires forall k :: k in open ==> open[k] in incidents
      modifies this`incidents, this`open
      ensures i == (if m in old(open) then old(open)[m] else incident)
      ensures row == if m in old(open)
                     then old(incidents)[i].(failures := old(incidents)[i].failures + 1)
                     else AlertIncident(m, true, 1, None, 0)
      ensures incidents == old(incidents)[i := row] && open == old(open)[m := i]
    {
      i, row := incident, AlertIncident(m, true, 1, None, 0);
      if m in open { i, row := open[m], incidents[open[m]].(failures := incidents[open[m]].failures + 1); }
      incidents, open := incidents[i := row], open[m := i];
    }

    /** The alert decision on the upserted row, and the guarded insertion. */
    method DecideAlert(i: ID, row: AlertIncident, event: ID, now: Time, p: Policy)
      modifies this`incidents, this`outbox
      ensures var inserts := Alerting(row, now, p) && !KeyTaken(old(outbox), AlertKey(i, row.failures));
        && outbox == (if inserts then old(outbox)[event := NewEvent(event, i, row.failures, now)] else old(outbox))
        && incidents == (if inserts then old(incidents)[i := Alerted(row, now)] else old(incidents))
    {
      if !p.enabled || row.failures < p.threshold { return; }
      if row.lastAlerted.Some? && now - row.lastAlerted.value < p.cooldown { return; }
      var key := AlertKey(i, row.failures);
      if exists e :: e in outbox && outbox[e].key == key { return; }
      outbox := outbox[event := Event(event, key, i, row.failures, Pending, 0, now, now, "", 0)];
      incidents := incidents[i := row.(lastAlerted := Some(now), alertCount := row.alertCount + 1)];
    }

    method Resolve(m: ID, now: Time)
      requires Valid() && now > desk.clock
      modifies this
      ensures Valid() && desk == DoResolve(old(desk), m, now)
    {
      ResolveGood(desk, m, now);
      FactOf(desk, Indexes);
      desk := DoResolve(desk, m, now);
      if m in open {
        incidents := incidents[open[m] := incidents[open[m]].(open := false)];
        open := open - {m};
      }
    }

    /** Incident and alert of one result, in its transaction. */
    method UpsertIncidentAndAlert(m: ID, success: bool, incident: ID, event: ID, now: Time, p: Policy)
      requires Valid() && now > desk.clock && incident !in desk.issued && event !in desk.events
      modifies this
      ensures Valid()
      ensures desk == if success then DoResolve(old(desk), m, now) else DoFailure(old(desk), m, incident, event, now, p)
    {
      if success {
        Resolve(m, now);
      } else {
        FailureGood(desk, m, incident, event, now, p);
        FactOf(desk, Indexes);
        var i, row := UpsertIncident(m, incident);
        RaisedRow(desk, m, incident);
        DecideAlert(i, row, event, now, p);
        desk := DoFailure(desk, m, incident, event, now, p);
      }
    }

    /** Claims the first claimable events for one dispatcher; the whole batch shares the token. */
    method ClaimAlerts(limit: int, now: Time, leaseTimeout: int, attemptLimit: int, token: ID)
      returns (claimed: seq<Event>, ghost picks: seq<Rank>)
      requires Valid() && now > desk.clock && token != "" && token !in desk.tokens
      modifies this
      ensures Valid()
      ensures limit <= 0 ==> claimed == [] && desk == old(desk)
      ensures limit > 0 ==>
        var max := AttemptLimit(attemptLimit);
        && TopOf(picks, Pool(SweptRows(old(outbox), now, max), now, max), limit)
        && desk == DoClaim(old(desk), picks, token, now, LeaseTimeout(leaseTimeout), max)
        && ClaimedRows(outbox, picks, claimed)
    {
      if limit <= 0 { return [], []; }
      var max, lease := AttemptLimit(attemptLimit), LeaseTimeout(leaseTimeout);
      var rows, chosen;
      rows, claimed, chosen := ClaimBatch(outbox, limit, now, max, token, now + lease);
      picks := chosen;
      ClaimGood(desk, chosen, token, now, lease, max, limit);
      desk := DoClaim(desk, chosen, token, now, lease, max);
      outbox := rows;
    }

    method MarkAlertDelivered(e: ID, token: ID, now: Time) returns (stale: bool)
      requires Valid() && now > desk.clock
      modifies this
      ensures Valid() && desk == DoDelivered(old(desk), e, token, now) && (stale <==> !HoldsClaim(old(desk), e, token))
    {
      DeliveredGood(desk, e, token, now);
      desk := DoDelivered(desk, e, token, now);
      if e !in outbox || !outbox[e].status.InProcess? || outbox[e].token != token { return true; }
      outbox := outbox[e := outbox[e].(status := Delivered, token := "", lockedUntil := 0)];
      return false;
    }

    method MarkAlertFailed(e: ID, token: ID, retryDelay: int, dead: bool, now: Time) returns (stale: bool)
      requires Valid() && now > desk.clock
      modifies this
      ensures Valid() && desk == DoFailed(old(desk), e, token, if retryDelay < 0 then 0 else retryDelay, dead, now)
      ensures stale <==> !HoldsClaim(old(desk), e, token)
    {
      var delay := if retryDelay < 0 then 0 else retryDelay;
      FailedGood(desk, e, token, delay, dead, now);
      desk := DoFailed(desk, e, token, delay, dead, now);
      if e !in outbox || !outbox[e].status.InProcess? || outbox[e].token != token { return true; }
      var status := if dead then GivenUp else Pending;
      outbox := outbox[e := outbox[e].(status := status, availableAt := now + delay, token := "", lockedUntil := 0)];
      return false;
    }
  }
}
