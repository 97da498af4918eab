/** What holds of incidents, alerts and the outbox in every run. */
module AlertTheorems {
  import opened Identifiers
  import opened Priority
  import opened Alerts

  datatype Op =
    | Failing(monitor: ID, incident: ID, event: ID, now: Time, policy: Policy)
    | Resolving(monitor: ID, now: Time)
    | Claiming(picks: seq<Rank>, token: ID, now: Time, lease: nat, limit: nat, max: nat)
    | Dispatching(event: ID, token: ID, attempts: nat, result: Delivery, stopped: bool, backoff: nat, max: nat,
                  now: Time)
    | Removing(incidents: set<ID>, events: set<ID>, now: Time)

  /** The clock strictly advances, identifiers and tokens are new, and a claim picks exactly the first
      claimable events. */
  ghost predicate Enabled(d: Desk, op: Op) {
    && op.now > d.clock
    && match op
       case Failing(_, incident, event, _, _) => incident !in d.issued && event !in d.events
       case Claiming(picks, token, now, _, limit, max) =>
         token != "" && token !in d.tokens && TopOf(picks, Pool(SweptRows(d.outbox, now, max), now, max), limit)
       case _ => true
  }

  ghost function Do(d: Desk, op: Op): Desk {
    match op
    case Failing(m, incident, event, now, p) => DoFailure(d, m, incident, event, now, p)
    case Resolving(m, now) => DoResolve(d, m, now)
    case Claiming(picks, token, now, lease, _, max) => DoClaim(d, picks, token, now, lease, max)
    case Dispatching(e, token, n, r, stopped, backoff, max, now) =>
      DoDispatch(d, e, token, n, r, stopped, backoff, max, now)
    case Removing(incidents, events, now) => DoRemove(d, incidents, events, now)
  }

  lemma DispatchGood(d: Desk, e: ID, token: ID, n: nat, r: Delivery, stopped: bool, backoff: nat, max: nat, now: Time)
    requires Good(d) && now > d.clock
    ensures Good(DoDispatch(d, e, token, n, r, stopped, backoff, max, now))
  {
    DeliveredGood(d, e, token, now);
    TickGood(d, now);
    FailedGood(d, e, token, RetryDelay(r, backoff), GivesUp(r, n, max), now);
  }

  lemma StepGood(d: Desk, op: Op)
    requires Good(d) && Enabled(d, op)
    ensures Good(Do(d, op))
  {
    match op
    case Failing(m, incident, event, now, p) => FailureGood(d, m, incident, event, now, p);
    case Resolving(m, now) => ResolveGood(d, m, now);
    case Claiming(picks, token, now, lease, limit, max) => ClaimGood(d, picks, token, now, lease, max, limit);
    case Dispatching(e, token, n, r, stopped, backoff, max, now) =>
      DispatchGood(d, e, token, n, r, stopped, backoff, max, now);
    case Removing(incidents, events, now) => RemoveGood(d, incidents, events, now);
  }

  /** The two halves of a step, named so that a proof takes up only what it needs. */
  datatype Half = Guard | Effect

  ghost predicate HalfHolds(h: Half, a: Desk, op: Op, b: Desk) {
    match h
    case Guard => Enabled(a, op)
    case Effect => b == Do(a, op)
  }

  ghost predicate Step(a: Desk, op: Op, b: Desk) {
    forall h :: HalfHolds(h, a, op, b)
  }

  lemma StepTaken(a: Desk, op: Op, b: Desk)
    requires Step(a, op, b)
    ensures Enabled(a, op) && b == Do(a, op)
  {
    assert HalfHolds(Guard, a, op, b) && HalfHolds(Effect, a, op, b);
  }

  ghost predicate ReturnedBy(op: Op, after: Desk, dispatch: Op)
    requires dispatch.Dispatching?
  {
    && op.Claiming? && op.token == dispatch.token && dispatch.event in PickedIds(op.picks)
    && dispatch.event in after.outbox && after.outbox[dispatch.event].attempts == dispatch.attempts
  }

  /** The event was returned by an earlier claim, under the token and with the attempt count it is dispatched
      with. */
  ghost predicate Returned(ds: seq<Desk>, ops: seq<Op>, i: nat)
    requires |ds| == |ops| + 1 && i < |ops| && ops[i].Dispatching?
  {
    exists p :: 0 <= p < i && ReturnedBy(ops[p], ds[p + 1], ops[i])
  }

  /** A run of the tables: a dispatcher only dispatches what a claim returned to it. */
  ghost predicate IsRun(ds: seq<Desk>, ops: seq<Op>) {
    && |ds| == |ops| + 1 && ds[0] == Opened()
    && (forall i :: 0 <= i < |ops| ==> Step(ds[i], ops[i], ds[i + 1]))
    && (forall i :: 0 <= i < |ops| && ops[i].Dispatching? ==> Returned(ds, ops, i))
  }

  /** The dispatch marks the event: it was sent, or it failed and the dispatcher is not being stopped. */
  predicate Marks(op: Op, e: ID, token: ID) {
    op.Dispatching? && op.event == e && op.token == token && (op.result.Sent? || !op.stopped)
  }

  /** How a row can move in one step. */
  predicate RowAdvances(d: Desk, op: Op, e: ID, a: Event, b: Event) {
    && (a.Final() ==> b == a)
    && (b.token == "" || b == a || b.token !in d.tokens)
    && (a.status.InProcess? && a.token != "" && op.now < a.lockedUntil && !Marks(op, e, a.token) ==> b == a)
  }

  ghost predicate RowsAdvance(d: Desk, op: Op, t: Desk) {
    && (forall e :: e in t.outbox ==>
          if e in d.outbox then RowAdvances(d, op, e, d.outbox[e], t.outbox[e])
          else e !in d.events && t.outbox[e].token == "")
    && d.events <= t.events && d.tokens <= t.tokens
  }

  lemma FailureAdvances(d: Desk, m: ID, incident: ID, event: ID, now: Time, p: Policy)
    requires Enabled(d, Failing(m, incident, event, now, p)) && Good(d)
    ensures RowsAdvance(d, Failing(m, incident, event, now, p), DoFailure(d, m, incident, event, now, p))
  {
    FactOf(d, Rows);
    forall e | e in d.outbox ensures e in d.events { assert RowAgrees(d, e, d.outbox[e]); }
  }

  lemma ClaimAdvances(d: Desk, picks: seq<Rank>, token: ID, now: Time, lease: nat, limit: nat, max: nat)
    requires Enabled(d, Claiming(picks, token, now, lease, limit, max))
    ensures RowsAdvance(d, Claiming(picks, token, now, lease, limit, max), DoClaim(d, picks, token, now, lease, max))
  {
    PicksClaimable(SweptRows(d.outbox, now, max), picks, now, max, limit);
  }

  lemma MarkAdvances(d: Desk, op: Op)
    requires Enabled(d, op) && op.Dispatching?
    ensures RowsAdvance(d, op, Do(d, op))
  {
  }

  lemma StepAdvances(d: Desk, op: Op)
    requires Good(d) && Enabled(d, op)
    ensures RowsAdvance(d, op, Do(d, op))
  {
    match op
    case Failing(m, incident, event, now, p) => FailureAdvances(d, m, incident, event, now, p);
    case Claiming(picks, token, now, lease, limit, max) => ClaimAdvances(d, picks, token, now, lease, limit, max);
    case Dispatching(_, _, _, _, _, _, _, _) => MarkAdvances(d, op);
    case _ =>
  }

  lemma StepFacts(a: Desk, op: Op, b: Desk)
    requires Good(a) && Step(a, op, b)
    ensures Good(b) && RowsAdvance(a, op, b) && a.clock < op.now == b.clock
    ensures b.highest == if op.Claiming? && op.max > a.highest then op.max else a.highest
  {
    StepTaken(a, op, b);
    StepGood(a, op);
    StepAdvances(a, op);
  }

  lemma {:induction false} RunGood(ds: seq<Desk>, ops: seq<Op>, i: nat)
    requires IsRun(ds, ops) && i < |ds|
    ensures Good(ds[i])
  {
    if i == 0 {
      OpenedGood();
    } else {
      RunGood(ds, ops, i - 1);
      StepFacts(ds[i - 1], ops[i - 1], ds[i]);
    }
  }

  // ------------------------------------------------------------------ alert decisions

  /** Over any sequence of results: every alert was due under its policy, alerts of one incident are at least
      the cooldown apart with growing failure counts, and the stored count is the number ever inserted. */
  lemma AlertsSpaced(ds: seq<Desk>, ops: seq<Op>, i: nat)
    requires IsRun(ds, ops) && i < |ds|
    ensures Spaced(ds[i].inserted)
    ensures forall k :: 0 <= k < |ds[i].inserted| ==>
      ds[i].inserted[k].policy.enabled && ds[i].inserted[k].failures >= ds[i].inserted[k].policy.threshold
    ensures forall m :: m in ds[i].incidents ==> ds[i].incidents[m].alertCount == Count(ds[i].inserted, m)
  {
    RunGood(ds, ops, i);
    FactOf(ds[i], Spacing); FactOf(ds[i], Notes); FactOf(ds[i], Counts);
    forall k | 0 <= k < |ds[i].inserted|
      ensures ds[i].inserted[k].policy.enabled && ds[i].inserted[k].failures >= ds[i].inserted[k].policy.threshold
    {
      assert NoteAgrees(ds[i], ds[i].inserted[k]);
    }
  }

  function KeyOf(n: Note): string { AlertKey(n.incident, n.failures) }

  /** Idempotency keys never collide: two alerts ever inserted have different keys, and a failed result
      inserts an alert exactly when the policy asks for one. */
  lemma KeysNeverCollide(ds: seq<Desk>, ops: seq<Op>, i: nat)
    requires IsRun(ds, ops) && i < |ds|
    ensures forall a, b :: 0 <= a < b < |ds[i].inserted| ==> KeyOf(ds[i].inserted[a]) != KeyOf(ds[i].inserted[b])
    ensures i < |ops| && ops[i].Failing? ==>
      var row := Raised(ds[i], ops[i].monitor, ops[i].incident).1;
      |ds[i + 1].inserted| == |ds[i].inserted| + if Alerting(row, ops[i].now, ops[i].policy) then 1 else 0
  {
    RunGood(ds, ops, i);
    FactOf(ds[i], Spacing);
    forall a, b | 0 <= a < b < |ds[i].inserted| ensures KeyOf(ds[i].inserted[a]) != KeyOf(ds[i].inserted[b]) {
      var x, y := ds[i].inserted[a], ds[i].inserted[b];
      if KeyOf(x) == KeyOf(y) { AlertKeyInjective(x.incident, x.failures, y.incident, y.failures); }
    }
    if i < |ops| && ops[i].Failing? {
      StepTaken(ds[i], ops[i], ds[i + 1]);
      KeyIsNew(ds[i], ops[i].monitor, ops[i].incident);
    }
  }

  // ------------------------------------------------------------------ outbox rows

  /** Delivered and dead are final: the row stays as it is while it is there, and a row that is gone does not
      come back. */
  lemma {:induction false} FinalForever(ds: seq<Desk>, ops: seq<Op>, i: nat, k: nat, e: ID)
    requires IsRun(ds, ops) && i <= k < |ds| && e in ds[i].events
    ensures e in ds[k].events
    ensures e !in ds[i].outbox ==> e !in ds[k].outbox
    ensures e in ds[i].outbox && ds[i].outbox[e].Final() && e in ds[k].outbox ==> ds[k].outbox[e] == ds[i].outbox[e]
    decreases k
  {
    if i < k {
      FinalForever(ds, ops, i, k - 1, e);
      RunGood(ds, ops, k - 1);
      StepFacts(ds[k - 1], ops[k - 1], ds[k]);
    }
  }

  lemma {:induction false} HighestBounded(ds: seq<Desk>, ops: seq<Op>, i: nat, max: nat)
    requires IsRun(ds, ops) && i < |ds|
    requires forall p :: 0 <= p < i && ops[p].Claiming? ==> ops[p].max <= max
    ensures ds[i].highest <= max
  {
    if i > 0 {
      HighestBounded(ds, ops, i - 1, max);
      RunGood(ds, ops, i - 1);
      StepFacts(ds[i - 1], ops[i - 1], ds[i]);
    }
  }

  /** No event is claimed more often than the highest limit the claims were given, and its attempt count says
      how often it was. */
  lemma ClaimsBounded(ds: seq<Desk>, ops: seq<Op>, i: nat, e: ID, max: nat)
    requires IsRun(ds, ops) && i < |ds|
    requires forall p :: 0 <= p < i && ops[p].Claiming? ==> ops[p].max <= max
    ensures Claims(ds[i].claims, e) <= max
    ensures e in ds[i].outbox ==> ds[i].outbox[e].attempts == Claims(ds[i].claims, e)
  {
    RunGood(ds, ops, i);
    HighestBounded(ds, ops, i, max);
    FactOf(ds[i], Rows);
    assert Claims(ds[i].claims, e) <= ds[i].highest;
    if e in ds[i].outbox { assert RowAgrees(ds[i], e, ds[i].outbox[e]); }
  }

  /** A token that is off its event stays off: a mark from an older claim never changes the event again. */
  lemma {:induction false} OldTokensDoNothing(ds: seq<Desk>, ops: seq<Op>, i: nat, k: nat, e: ID, token: ID,
                                              delay: nat, dead: bool, now: Time)
    requires IsRun(ds, ops) && i <= k < |ds| && token in ds[i].tokens
    requires e in ds[i].outbox ==> ds[i].outbox[e].token != token
    ensures token in ds[k].tokens && (e in ds[k].outbox ==> ds[k].outbox[e].token != token)
    ensures DoDelivered(ds[k], e, token, now).outbox == ds[k].outbox
    ensures DoFailed(ds[k], e, token, delay, dead, now).outbox == ds[k].outbox
    decreases k
  {
    if i < k {
      OldTokensDoNothing(ds, ops, i, k - 1, e, token, delay, dead, now);
      RunGood(ds, ops, k - 1);
      FactOf(ds[k - 1], Rows);
      StepFacts(ds[k - 1], ops[k - 1], ds[k]);
    }
  }

  // ------------------------------------------------------------------ the lease budget

  /** What the configuration enforces: delivery, the claim's answer, the final mark, and a margin. */
  function MinimumAlertLease(delivery: nat, database: nat): nat {
    delivery + 2 * database + ALERT_SAFETY_MARGIN
  }

  lemma {:induction false} TimesIncrease(ds: seq<Desk>, ops: seq<Op>, p: nat, k: nat)
    requires IsRun(ds, ops) && p < k < |ops|
    ensures ops[p].now < ops[k].now
    decreases k
  {
    RunGood(ds, ops, k - 1);
    StepFacts(ds[k - 1], ops[k - 1], ds[k]);
    RunGood(ds, ops, k);
    StepFacts(ds[k], ops[k], ds[k + 1]);
    if p < k - 1 { TimesIncrease(ds, ops, p, k - 1); }
  }

  lemma {:induction false} StaysClaimed(ds: seq<Desk>, ops: seq<Op>, i: nat, k: nat, e: ID, row: Event)
    requires IsRun(ds, ops) && i <= k < |ds|
    requires e in ds[i].outbox && ds[i].outbox[e] == row && row.status.InProcess? && row.token != ""
    requires forall p :: i <= p < k ==> ops[p].now < row.lockedUntil && !Marks(ops[p], e, row.token)
    requires forall p :: i <= p <= k ==> e in ds[p].outbox
    ensures e in ds[k].outbox && ds[k].outbox[e] == row
    decreases k
  {
    if i < k {
      StaysClaimed(ds, ops, i, k - 1, e, row);
      RunGood(ds, ops, k - 1);
      StepFacts(ds[k - 1], ops[k - 1], ds[k]);
    }
  }

  /** A picked event is in process under the claim's token until the end of the lease. */
  lemma ClaimSets(a: Desk, op: Op, b: Desk, e: ID)
    requires Step(a, op, b) && op.Claiming? && e in PickedIds(op.picks)
    ensures e in b.outbox && b.outbox[e].status.InProcess? && b.outbox[e].token == op.token != ""
    ensures b.outbox[e].lockedUntil == op.now + op.lease
  {
    StepTaken(a, op, b);
    PicksClaimable(SweptRows(a.outbox, op.now, op.max), op.picks, op.now, op.max, op.limit);
  }

  lemma MarkTakesEffect(a: Desk, op: Op, b: Desk, e: ID, token: ID)
    requires Step(a, op, b) && Marks(op, e, token) && HoldsClaim(a, e, token)
    ensures e in b.outbox && b.outbox[e].token == "" && !b.outbox[e].status.InProcess?
  {
    StepTaken(a, op, b);
  }

  /** A dispatcher that gets its claim answered within the database budget, sends within the delivery budget
      and marks within the database budget plus the margin, under a lease of at least the enforced minimum,
      finds its claim untouched: nobody else has claimed the event meanwhile, and the mark takes effect. */
  lemma LeaseCoversDispatch(ds: seq<Desk>, ops: seq<Op>, i: nat, k: nat, e: ID, delivery: nat, database: nat)
    requires IsRun(ds, ops) && i < k < |ops|
    requires ops[i].Claiming? && e in PickedIds(ops[i].picks) && ops[i].lease >= MinimumAlertLease(delivery, database)
    requires Marks(ops[k], e, ops[i].token)
    requires ops[k].now <= ops[i].now + database + delivery + database + ALERT_SAFETY_MARGIN
    requires forall p :: i < p < k ==> !Marks(ops[p], e, ops[i].token)
    requires forall p :: i < p <= k ==> e in ds[p].outbox
    ensures forall p :: i < p <= k ==> ds[p].outbox[e].token == ops[i].token
    ensures HoldsClaim(ds[k], e, ops[i].token) && e in ds[k + 1].outbox && ds[k + 1].outbox[e].token == ""
  {
    ClaimSets(ds[i], ops[i], ds[i + 1], e);
    var row := ds[i + 1].outbox[e];
    forall p | i < p < k ensures ops[p].now < row.lockedUntil { TimesIncrease(ds, ops, p, k); }
    forall p | i < p <= k ensures ds[p].outbox[e] == row {
      StaysClaimed(ds, ops, i + 1, p, e, row);
    }
    MarkTakesEffect(ds[k], ops[k], ds[k + 1], e, ops[i].token);
  }

  // ------------------------------------------------------------------ the dispatcher

  lemma {:induction false} KnownTokens(ds: seq<Desk>, ops: seq<Op>, i: nat, k: nat, token: ID)
    requires IsRun(ds, ops) && i <= k < |ds| && token in ds[i].tokens
    ensures token in ds[k].tokens
    decreases k
  {
    if i < k {
      KnownTokens(ds, ops, i, k - 1, token);
      RunGood(ds, ops, k - 1);
      StepFacts(ds[k - 1], ops[k - 1], ds[k]);
    }
  }

  /** The row under a token is the one the claim left: the token comes with no other. */
  lemma {:induction false} TokenKeepsRow(ds: seq<Desk>, ops: seq<Op>, i: nat, k: nat, e: ID, token: ID)
    requires IsRun(ds, ops) && i <= k < |ds| && token in ds[i].tokens && token != ""
    requires e in ds[k].outbox && ds[k].outbox[e].token == token
    ensures e in ds[i].outbox && ds[k].outbox[e] == ds[i].outbox[e]
    decreases k
  {
    if i < k {
      RunGood(ds, ops, k - 1);
      StepFacts(ds[k - 1], ops[k - 1], ds[k]);
      KnownTokens(ds, ops, i, k - 1, token);
      TokenKeepsRow(ds, ops, i, k - 1, e, token);
    }
  }

  /** The dispatch acts under a claim that still stands. */
  predicate Standing(d: Desk, op: Op, e: ID) {
    op.Dispatching? && op.event == e && HoldsClaim(d, e, op.token)
  }

  /** A dispatcher under a standing claim knows the row's attempt count. */
  lemma AttemptsKnown(ds: seq<Desk>, ops: seq<Op>, i: nat, e: ID)
    requires IsRun(ds, ops) && i < |ops| && Standing(ds[i], ops[i], e)
    ensures ops[i].attempts == ds[i].outbox[e].attempts
  {
    assert Returned(ds, ops, i);
    var p :| 0 <= p < i && ReturnedBy(ops[p], ds[p + 1], ops[i]);
    StepTaken(ds[p], ops[p], ds[p + 1]);
    TokenKeepsRow(ds, ops, p + 1, i, e, ops[i].token);
  }

  predicate Ends(d: Desk, op: Op, e: ID)
    requires e in d.outbox
  {
    || (op.Claiming? && Exhausted(d.outbox[e], op.now, op.max))
    || (Standing(d, op, e) && !op.result.Sent? && !op.stopped
        && ((op.result.Refused? && IsPermanentStatus(op.result.status)) || d.outbox[e].attempts >= op.max))
  }

  lemma DispatchEnds(d: Desk, op: Op, e: ID)
    requires op.Dispatching? && e in d.outbox && !d.outbox[e].Final()
    requires Standing(d, op, e) ==> op.attempts == d.outbox[e].attempts
    ensures e in Do(d, op).outbox && (Do(d, op).outbox[e].status.GivenUp? <==> Ends(d, op, e))
    ensures Do(d, op).outbox[e].status.Delivered? <==> Standing(d, op, e) && op.result.Sent?
  {
  }

  lemma OthersEnd(d: Desk, op: Op, e: ID)
    requires Enabled(d, op) && Good(d) && !op.Dispatching? && e in Do(d, op).outbox
    ensures e in d.outbox && !d.outbox[e].Final() ==>
      (Do(d, op).outbox[e].status.GivenUp? <==> Ends(d, op, e)) && !Do(d, op).outbox[e].status.Delivered?
  {
    FactOf(d, Rows);
    if e in d.outbox { assert RowAgrees(d, e, d.outbox[e]); }
    if op.Claiming? { PicksClaimable(SweptRows(d.outbox, op.now, op.max), op.picks, op.now, op.max, op.limit); }
  }

  /** How an alert ends. In any step of any run a live one is given up exactly when a claim finds its attempts used
      up, or a dispatch under its standing claim fails for good or with its attempts used up, unless the dispatcher
      is being stopped; and it counts as delivered exactly when such a dispatch was sent. */
  lemma EndsExactly(ds: seq<Desk>, ops: seq<Op>, i: nat, e: ID)
    requires IsRun(ds, ops) && i < |ops|
    requires e in ds[i].outbox && !ds[i].outbox[e].Final() && e in ds[i + 1].outbox
    ensures ds[i + 1].outbox[e].status.GivenUp? <==> Ends(ds[i], ops[i], e)
    ensures ds[i + 1].outbox[e].status.Delivered? <==> Standing(ds[i], ops[i], e) && ops[i].result.Sent?
  {
    StepTaken(ds[i], ops[i], ds[i + 1]);
    RunGood(ds, ops, i);
    if ops[i].Dispatching? {
      if Standing(ds[i], ops[i], e) { AttemptsKnown(ds, ops, i, e); }
      DispatchEnds(ds[i], ops[i], e);
    } else {
      OthersEnd(ds[i], ops[i], e);
    }
  }

  /** A failed dispatch that does not end the event leaves it waiting for the backoff, or longer if the response
      asked for it, and claimable from then on; a stopped one leaves the claim as it is. */
  lemma DispatchWaits(ds: seq<Desk>, ops: seq<Op>, i: nat, e: ID, t: Time)
    requires IsRun(ds, ops) && i < |ops| && Standing(ds[i], ops[i], e) && !ops[i].result.Sent?
    requires !Ends(ds[i], ops[i], e)
    ensures e in ds[i + 1].outbox
    ensures var row, r := ds[i + 1].outbox[e], ops[i].result;
      if ops[i].stopped then row == ds[i].outbox[e]
      else
        && row.status.Pending? && row.attempts < ops[i].max
        && row.availableAt == ops[i].now + (if r.Refused? && r.retryAfter > ops[i].backoff then r.retryAfter
                                            else ops[i].backoff)
        && (Claimable(row, t, ops[i].max) <==> t >= row.availableAt)
  {
    StepTaken(ds[i], ops[i], ds[i + 1]);
    AttemptsKnown(ds, ops, i, e);
  }

  predicate ClaimedBy(op: Op, a: Event, b: Event) {
    op.Claiming? && b == ClaimEvent(a, op.token, op.now + op.lease)
  }

  /** No alert is ever stuck: the first claim at or past its time gives it up or claims it, unless the batch was
      filled with events before it in the order. */
  lemma OutboxNeverStuck(ds: seq<Desk>, ops: seq<Op>, i: nat, e: ID)
    requires IsRun(ds, ops) && i < |ops| && ops[i].Claiming? && e in ds[i].outbox && !ds[i].outbox[e].Final()
    requires ops[i].now >= if ds[i].outbox[e].status.Pending? then ds[i].outbox[e].availableAt
                           else ds[i].outbox[e].lockedUntil
    ensures e in ds[i + 1].outbox
    ensures var row := ds[i].outbox[e];
      || ds[i + 1].outbox[e].status.GivenUp?
      || ClaimedBy(ops[i], row, ds[i + 1].outbox[e])
      || (|ops[i].picks| == ops[i].limit
          && forall x :: x in ops[i].picks ==> Before(x, Rank(row.availableAt, row.createdAt, e)))
  {
    StepTaken(ds[i], ops[i], ds[i + 1]);
    var row, swept := ds[i].outbox[e], SweptRows(ds[i].outbox, ops[i].now, ops[i].max);
    if row.attempts < ops[i].max {
      var x := Rank(row.availableAt, row.createdAt, e);
      assert swept[e] == row && Claimable(swept[e], ops[i].now, ops[i].max);
      assert x in Pool(swept, ops[i].now, ops[i].max);
      if x in ops[i].picks { assert e in PickedIds(ops[i].picks); }
    }
  }
}
