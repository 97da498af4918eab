/** Every step of the protocol keeps its promises. */
module ProtocolInvariants {
  import opened Identifiers
  import opened Model
  import opened StoreSpec
  import opened StoreInvariants
  import opened Runs
  import opened RunInvariants
  import opened Lifecycle
  import opened Protocol

  // ------------------------------------------------------------------ what a store operation leaves alone

  /** A live job's monitor keeps its configuration. */
  ghost predicate ConfigsKept(a: Store, b: Store) {
    forall j :: j in b.jobs && !b.jobs[j].Terminal() && b.jobs[j].monitor in a.monitors ==>
      b.jobs[j].monitor in b.monitors && b.monitors[b.jobs[j].monitor].config == a.monitors[b.jobs[j].monitor].config
  }

  ghost predicate SameConfigs(a: map<ID, Monitor>, b: map<ID, Monitor>) {
    forall m :: m in a && m in b ==> b[m].config == a[m].config
  }

  lemma SameConfigsKept(a: Store, b: Store)
    requires Inv(b) && SameConfigs(a.monitors, b.monitors)
    ensures ConfigsKept(a, b)
  {
    ClauseOf(b, Jobs);
  }

  lemma SweepConfig(s: Store, j: ID, now: Time, maxAttempts: nat)
    ensures SameConfigs(s.monitors, SweepJob(s, j, now, maxAttempts).monitors)
    ensures SweepJob(s, j, now, maxAttempts).monitors.Keys == s.monitors.Keys
  {
    if j in s.jobs && (Expired(s.jobs[j], now) || ExhaustedRetry(s.jobs[j], now, maxAttempts)) {
      if s.jobs[j].attempt >= maxAttempts {
        SweepExhausts(s, j, now, maxAttempts);
      } else {
        assert SweepJob(s, j, now, maxAttempts).monitors == s.monitors;
      }
    } else {
      assert SweepJob(s, j, now, maxAttempts) == s;
    }
  }

  lemma {:induction false} SweepConfigs(s: Store, order: seq<ID>, now: Time, maxAttempts: nat)
    ensures SameConfigs(s.monitors, SweepAll(s, order, now, maxAttempts).monitors)
    ensures SweepAll(s, order, now, maxAttempts).monitors.Keys == s.monitors.Keys
  {
    if order != [] {
      var n := |order| - 1;
      SweepConfigs(s, order[..n], now, maxAttempts);
      SweepConfig(SweepAll(s, order[..n], now, maxAttempts), order[n], now, maxAttempts);
    }
  }

  lemma ClaimConfigs(st: State, plan: Plan, limit: nat, now: Time, expires: Time, maxAttempts: nat)
    requires Good(st) && now > st.clock
    requires GoodPlan(st.store, plan, limit, now, maxAttempts) && FreshTokens(st, plan.tokens)
    ensures var t := Claimed(st, plan, now, expires, maxAttempts);
      SameConfigs(st.store.monitors, t.store.monitors) && t.log == st.log
  {
    var n := |plan.retries|;
    TakenGood(st, plan, limit, now, expires, maxAttempts);
    SweepConfigs(st.store, plan.sweep, now, maxAttempts);
    var taken := TakenState(st, plan, now, expires, maxAttempts);
    TickKeepsGood(taken, now);
    BirthsStillDue(SweptState(st, plan, now, maxAttempts), taken, plan.births, limit - n, now);
    AllPlannable(taken.(clock := now), plan.births, now);
    BearAllFrame(taken.(clock := now), plan.births, plan.tokens[n..], now, expires);
  }

  lemma ClaimingConfigs(st: State, plan: Plan, limit: int, now: Time, timeout: int, maxAttempts: int)
    requires Good(st) && now > st.clock
    requires limit > 0 ==>
      GoodPlan(st.store, plan, limit, now, Attempts(maxAttempts)) && FreshTokens(st, plan.tokens)
    ensures var t := DoClaim(st, plan, limit, now, timeout, maxAttempts);
      SameConfigs(st.store.monitors, t.store.monitors) && t.log == st.log
  {
    if limit > 0 { ClaimConfigs(st, plan, limit, now, now + Timeout(timeout), Attempts(maxAttempts)); }
  }

  lemma UpdateConfigs(s: Store, id: ID, p: Patch, urlAllowed: bool, now: Time)
    requires Inv(s) && now != 0
    ensures ConfigsKept(s, Update(s, id, p, urlAllowed, now).0)
  {
    var (t, r) := Update(s, id, p, urlAllowed, now);
    UpdateKeepsInv(s, id, p, urlAllowed, now);
    ClauseOf(t, Active); ClauseOf(t, Jobs);
    if r.Success? && r.value.config != s.monitors[id].config {
      KillKeepsInv(s, id);
      ResolveKeepsInv(KillActive(s, id), id);
      assert id !in t.active;
    }
  }

  lemma CreateConfigs(st: State, id: ID, w: Settings, urlAllowed: bool, now: Time)
    requires id !in st.store.monitors
    ensures SameConfigs(st.store.monitors, DoCreate(st, id, w, urlAllowed, now).store.monitors)
  {
  }

  lemma DeleteConfigs(st: State, id: ID, now: Time)
    ensures SameConfigs(st.store.monitors, DoDelete(st, id, now).store.monitors)
  {
  }

  lemma BuryConfigs(st: State, lease: Lease, now: Time, interval: nat, wall: Time)
    ensures SameConfigs(st.store.monitors, DoBury(st, lease, now, interval, wall).store.monitors)
  {
    if Authority(st.store, lease, now) { assert FinishJob(st.store, lease.job, Dead).monitors == st.store.monitors; }
  }

  lemma JobOpKeepsMonitors(st: State, op: Op)
    requires Enabled(st, op) && OnOneJob(op)
    ensures Do(st, op).store.monitors == st.store.monitors
  {
  }

  lemma RecordConfigs(st: State, r: CheckRecord, lease: Lease, used: Config, incident: ID, now: Time)
    requires Inv(st.store) && incident !in st.store.incidents && now != 0
    ensures SameConfigs(st.store.monitors, DoRecord(st, r, lease, used, incident, now).store.monitors)
  {
    if AddCheckError(st.store, r, lease, now).None? {
      AddCheckRecords(st.store, r, lease, incident, now);
    }
  }

  lemma MonitorOpConfigs(st: State, op: Op)
    requires Good(st) && Enabled(st, op) && !op.Updating? && !OnOneJob(op)
    ensures SameConfigs(st.store.monitors, Do(st, op).store.monitors)
  {
    match op
    case Creating(id, w, urlAllowed, now) => FactOf(st, Slots); CreateConfigs(st, id, w, urlAllowed, now);
    case Deleting(id, now) => DeleteConfigs(st, id, now);
    case Claiming(plan, limit, now, timeout, maxAttempts) =>
      ClaimingConfigs(st, plan, limit, now, timeout, maxAttempts);
    case Burying(lease, now, interval, wall) => BuryConfigs(st, lease, now, interval, wall);
    case Recording(r, lease, used, incident, now) =>
      FactOf(st, Agreement); RecordConfigs(st, r, lease, used, incident, now);
    case _ =>
  }

  lemma StepConfigs(st: State, op: Op)
    requires Good(st) && Enabled(st, op)
    ensures ConfigsKept(st.store, Do(st, op).store)
  {
    if op.Updating? {
      FactOf(st, Agreement);
      UpdateConfigs(st.store, op.id, op.patch, op.urlAllowed, op.now);
    } else {
      StepGood(st, op);
      FactOf(Do(st, op), Agreement);
      if OnOneJob(op) { JobOpKeepsMonitors(st, op); } else { MonitorOpConfigs(st, op); }
      SameConfigsKept(st.store, Do(st, op).store);
    }
  }

  lemma RecordLog(st: State, r: CheckRecord, lease: Lease, used: Config, incident: ID, now: Time)
    ensures var t := DoRecord(st, r, lease, used, incident, now);
      && (forall j :: Grants(t.log, j) == Grants(st.log, j))
      && (UsedInForce(st.log) ==>
            (AddCheckError(st.store, r, lease, now).None? ==> used == st.store.monitors[r.monitor].config) ==>
              UsedInForce(t.log))
  {
    if AddCheckError(st.store, r, lease, now).None? {
      RecordedLog(st.log, lease, Recorded(r.job, r.monitor, r.success, used, st.store.monitors[r.monitor].config));
    }
  }

  /** Only a grant raises the number of grants, and only of a job that is there. */
  lemma StepGrants(st: State, op: Op)
    requires Good(st) && Enabled(st, op)
    ensures forall j :: j in Do(st, op).store.jobs || Grants(Do(st, op).log, j) == Grants(st.log, j)
  {
    match op
    case Claiming(plan, limit, now, timeout, maxAttempts) =>
      ClaimingConfigs(st, plan, limit, now, timeout, maxAttempts);
    case Recording(r, lease, used, incident, now) => RecordLog(st, r, lease, used, incident, now);
    case _ =>
  }

  lemma StepLog(st: State, op: Op)
    requires Good(st) && Enabled(st, op) && UsedInForce(st.log)
    requires op.Recording? && AddCheckError(st.store, op.record, op.lease, op.now).None? ==>
      op.used == st.store.monitors[op.record.monitor].config
    ensures UsedInForce(Do(st, op).log)
  {
    match op
    case Claiming(plan, limit, now, timeout, maxAttempts) =>
      ClaimingConfigs(st, plan, limit, now, timeout, maxAttempts);
    case Recording(r, lease, used, incident, now) => RecordLog(st, r, lease, used, incident, now);
    case _ =>
  }

  // ------------------------------------------------------------------ the store operation of a step

  /** What the protocol guarantees about the operations it issues. */
  ghost predicate Proper(y: Sys, op: Op) {
    && Enabled(y.st, op)
    && (op.Claiming? ==> op.maxAttempts == y.maxAttempts)
    && (op.Confirming? ==> op.claim.token in y.published)
    && (op.Granting? ==> op.attempt <= y.maxAttempts)
    && (op.Failing? ==> op.lease.attempt < y.maxAttempts)
    && (op.Recording? && AddCheckError(y.st.store, op.record, op.lease, op.now).None? ==>
          op.used == y.st.store.monitors[op.record.monitor].config)
  }

  lemma OpClaims(y: Sys, op: Op)
    requires Sound(y) && Proper(y, op)
    ensures ClaimsKnown(y.(st := Do(y.st, op)))
  {
    PromiseOf(y, StoreGood); PromiseOf(y, ClaimP);
    StepAdvances(y.st, op); StepRemembers(y.st, op);
    var z := y.(st := Do(y.st, op));
    forall c | c in z.claims ensures ClaimKnown(z, c) {
      assert ClaimKnown(y, c);
    }
  }

  lemma SameFlight(y: Sys, w: Sys)
    requires w.ready == y.ready && w.deliveries == y.deliveries
    ensures forall k :: InFlight(y, k) ==> InFlight(w, k)
  {
    forall k | InFlight(y, k) ensures InFlight(w, k) {
      if tag :| InHand(y, tag, k) { assert InHand(w, tag, k); }
    }
  }

  lemma AdvanceLoses(y: Sys, x: Scope, t: State)
    requires ClaimsKnown(y) && NothingLost(y) && JobsAdvance(y.st, x, t.store.jobs) && x.tokens == y.st.tokens
    requires x.confirmed == "" || x.confirmed in y.published
    ensures NothingLost(y.(st := t))
  {
    var z := y.(st := t);
    SameFlight(y, z);
  }

  lemma AdvancePhases(y: Sys, x: Scope, t: State)
    requires ClaimsKnown(y) && PhasesSound(y) && JobsAdvance(y.st, x, t.store.jobs) && x.tokens == y.st.tokens
    ensures PhasesSound(y.(st := t))
  {
  }

  lemma OpLoss(y: Sys, op: Op)
    requires Sound(y) && Proper(y, op)
    ensures NothingLost(y.(st := Do(y.st, op))) && PhasesSound(y.(st := Do(y.st, op)))
  {
    PromiseOf(y, StoreGood); PromiseOf(y, ClaimP); PromiseOf(y, LossP); PromiseOf(y, PhaseP);
    StepAdvances(y.st, op);
    AdvanceLoses(y, ScopeOf(y.st, op), Do(y.st, op));
    AdvancePhases(y, ScopeOf(y.st, op), Do(y.st, op));
  }

  lemma OpReads(y: Sys, op: Op)
    requires Sound(y) && Proper(y, op)
    ensures ReadsCurrent(y.(st := Do(y.st, op)))
  {
    PromiseOf(y, StoreGood); PromiseOf(y, ClaimP); PromiseOf(y, MessageP); PromiseOf(y, ReadP);
    StepAdvances(y.st, op); StepConfigs(y.st, op);
    var z := y.(st := Do(y.st, op));
    forall t | t in z.deliveries && z.deliveries[t].read.Some?
      ensures ReadCurrent(z, z.deliveries[t].message, z.deliveries[t].read.value)
    {
      var m := y.deliveries[t].message;
      assert ClaimKnown(y, Claim(m.job, m.monitor, m.attempt - 1, m.token));
      assert ReadCurrent(y, m, y.deliveries[t].read.value);
    }
  }

  lemma AdvanceAttempts(y: Sys, x: Scope, t: State)
    requires AttemptsBounded(y) && y.maxAttempts > 0 && JobsAdvance(y.st, x, t.store.jobs)
    requires x.bound <= y.maxAttempts && x.granted <= y.maxAttempts && GrantsCounted(t)
    requires forall j :: j in t.store.jobs || Grants(t.log, j) == Grants(y.st.log, j)
    ensures AttemptsBounded(y.(st := t))
  {
  }

  lemma OpAttempts(y: Sys, op: Op)
    requires Sound(y) && Proper(y, op)
    ensures AttemptsBounded(y.(st := Do(y.st, op)))
  {
    PromiseOf(y, StoreGood); PromiseOf(y, AttemptP);
    StepAdvances(y.st, op); StepGood(y.st, op); StepGrants(y.st, op);
    FactOf(Do(y.st, op), GrantFact);
    AdvanceAttempts(y, ScopeOf(y.st, op), Do(y.st, op));
  }

  /** Taken by itself, the store operation of a step keeps every promise. */
  lemma OpSound(y: Sys, op: Op)
    requires Sound(y) && Proper(y, op)
    ensures Sound(y.(st := Do(y.st, op)))
  {
    var z := y.(st := Do(y.st, op));
    OpClaims(y, op); OpLoss(y, op); OpReads(y, op); OpAttempts(y, op);
    PromiseOf(y, StoreGood); PromiseOf(y, LogP);
    StepGood(y.st, op);
    StepLog(y.st, op);
    forall p ensures PromiseKept(z, p) {
      PromiseOf(y, p);
    }
  }

  lemma MessageWithinBound(y: Sys, m: Message)
    requires Sound(y) && MessageKnown(y, m)
    ensures m.attempt <= y.maxAttempts
  {
    PromiseOf(y, ClaimP);
    assert ClaimKnown(y, Claim(m.job, m.monitor, m.attempt - 1, m.token));
  }

  /** A result accepted under a lease was obtained with what the worker read, and that is in force. */
  lemma ReportProper(y: Sys, tag: nat, r: CheckRecord, now: Time)
    requires Sound(y) && tag in y.deliveries && y.deliveries[tag].lease.Some? && y.deliveries[tag].read.Some?
    requires r.job == y.deliveries[tag].message.job && r.monitor == y.deliveries[tag].message.monitor
    requires AddCheckError(y.st.store, r, y.deliveries[tag].lease.value, now).None?
    ensures y.deliveries[tag].read.value == y.st.store.monitors[r.monitor].config
  {
    PromiseOf(y, ReadP);
    assert ReadCurrent(y, y.deliveries[tag].message, y.deliveries[tag].read.value);
  }

  lemma ActProper(y: Sys, act: Act)
    requires Sound(y) && CanStep(y, act) && OpOf(y, act).Some?
    ensures Proper(y, OpOf(y, act).value)
  {
    match act
    case Grant(tag, _, _, _) => PromiseOf(y, MessageP); MessageWithinBound(y, y.deliveries[tag].message);
    case GiveUp(tag, _, _, _) => PromiseOf(y, LeaseP);
    case Report(tag, statusCode, success, incident, now) =>
      var m := y.deliveries[tag].message;
      var r := CheckRecord(m.job, m.monitor, statusCode, success);
      if AddCheckError(y.st.store, r, y.deliveries[tag].lease.value, now).None? { ReportProper(y, tag, r, now); }
    case _ =>
  }

  // ------------------------------------------------------------------ the broker and the processes

  /** Only one job can carry a claim's token, and it is the claim's own. */
  lemma TokenNamesJob(y: Sys, c: Claim, j: ID)
    requires Sound(y) && c in y.claims && j in y.st.store.jobs && y.st.store.jobs[j].publicationToken == c.token
    ensures j == c.job && y.st.store.jobs[j].monitor == c.monitor && c.monitor in y.st.store.monitors
  {
    PromiseOf(y, StoreGood); PromiseOf(y, ClaimP);
    FactOf(y.st, Known); FactOf(y.st, Agreement);
    ClauseOf(y.st.store, Jobs);
    assert ClaimKnown(y, c);
    assert JobKnown(y.st, j, y.st.store.jobs[j]);
  }

  /** The claims handed out by a call are known: each is for a job it has just taken or added. */
  lemma NewClaimsKnown(y: Sys, x: Scope, z: Sys)
    requires JobsKnown(y.st) && JobsKnown(z.st) && AttemptsBounded(z)
    requires JobsAdvance(y.st, x, z.st.store.jobs) && x.tokens == y.st.tokens && x.granted <= 0
    ensures forall c :: c in ClaimsOf(z.st, y.st.tokens) ==> ClaimKnown(z, c)
  {
    forall c | c in ClaimsOf(z.st, y.st.tokens) ensures ClaimKnown(z, c) {
      assert JobKnown(z.st, c.job, z.st.store.jobs[c.job]);
      if c.job in y.st.store.jobs { assert JobKnown(y.st, c.job, y.st.store.jobs[c.job]); }
      assert z.st.store.jobs[c.job].status.Scheduled?;
    }
  }

  lemma MoreClaimsSound(z: Sys, more: set<Claim>)
    requires Sound(z) && forall c :: c in more ==> ClaimKnown(z, c)
    ensures Sound(z.(claims := z.claims + more))
  {
    var w := z.(claims := z.claims + more);
    SameFlight(z, w);
    forall p ensures PromiseKept(w, p) {
      PromiseOf(z, p);
      match p
      case ClaimP => forall c | c in w.claims ensures ClaimKnown(w, c) { assert ClaimKnown(z, c); }
      case _ =>
    }
  }

  lemma ClaimDueSound(y: Sys, op: Op, z: Sys)
    requires Sound(y) && op.Claiming? && Enabled(y.st, op) && z == y.(st := Do(y.st, op)) && Sound(z)
    ensures Sound(z.(claims := z.claims + ClaimsOf(z.st, y.st.tokens)))
  {
    PromiseOf(y, StoreGood); PromiseOf(z, StoreGood); PromiseOf(z, AttemptP);
    StepAdvances(y.st, op);
    FactOf(y.st, Known); FactOf(z.st, Known);
    NewClaimsKnown(y, ScopeOf(y.st, op), z);
    MoreClaimsSound(z, ClaimsOf(z.st, y.st.tokens));
  }

  /** Messages may be added and deliveries change, as long as nothing in flight is forgotten that some
      waiting job was published under. */
  lemma TransportSound(y: Sys, w: Sys)
    requires Sound(y)
    requires w.st == y.st && w.maxAttempts == y.maxAttempts && w.present == y.present && w.claims == y.claims
    requires w.reconcilers == y.reconcilers && w.published == y.published
    requires forall m :: m in w.ready ==> MessageKnown(y, m)
    requires forall t :: t in w.deliveries ==> MessageKnown(y, w.deliveries[t].message)
    requires forall t :: t in w.deliveries && w.deliveries[t].read.Some? ==>
      ReadCurrent(y, w.deliveries[t].message, w.deliveries[t].read.value)
    requires LeasesKnown(w)
    requires forall j :: j in y.st.store.jobs && y.st.store.jobs[j].Published() && y.present
                         && InFlight(y, y.st.store.jobs[j].publicationToken) ==>
                           InFlight(w, y.st.store.jobs[j].publicationToken)
    ensures Sound(w)
  {
    forall p ensures PromiseKept(w, p) {
      PromiseOf(y, p);
      match p
      case ClaimP => forall c | c in w.claims ensures ClaimKnown(w, c) { assert ClaimKnown(y, c); }
      case _ =>
    }
  }

  lemma EnqueuedFlight(y: Sys, c: Claim, k: ID)
    ensures InFlight(y, k) || k == c.token ==> InFlight(Enqueued(y, c), k)
  {
    var w := Enqueued(y, c);
    if k == c.token {
      assert MessageFor(c) in w.ready;
    } else if tag :| InHand(y, tag, k) {
      assert InHand(w, tag, k);
    } else if m :| m in y.ready && m.token == k {
      assert m in w.ready;
    }
  }

  lemma EnqueueSound(y: Sys, c: Claim)
    requires Sound(y) && c in y.claims && (y.present || y.reconcilers == map[])
    ensures Sound(Enqueued(y, c))
  {
    var w := Enqueued(y, c);
    PromiseOf(y, ClaimP); PromiseOf(y, PhaseP);
    assert ClaimKnown(y, c);
    forall k ensures InFlight(y, k) || k == c.token ==> InFlight(w, k) { EnqueuedFlight(y, c, k); }
    forall p ensures PromiseKept(w, p) {
      PromiseOf(y, p);
      match p
      case ClaimP => forall d | d in w.claims ensures ClaimKnown(w, d) { assert ClaimKnown(y, d); }
      case _ =>
    }
  }

  lemma HandedFlight(y: Sys, tag: nat, m: Message, k: ID)
    requires tag !in y.deliveries
    ensures InFlight(y, k) ==> InFlight(Handed(y, tag, m), k)
  {
    var w := Handed(y, tag, m);
    if t :| InHand(y, t, k) {
      assert InHand(w, t, k);
    } else if n :| n in y.ready && n.token == k {
      if n == m { assert InHand(w, tag, k); } else { assert n in w.ready; }
    }
  }

  lemma DeliverSound(y: Sys, tag: nat, m: Message)
    requires Sound(y) && tag !in y.deliveries && m in y.ready
    ensures Sound(Handed(y, tag, m))
  {
    PromiseOf(y, MessageP); PromiseOf(y, ReadP); PromiseOf(y, LeaseP);
    forall k ensures InFlight(y, k) ==> InFlight(Handed(y, tag, m), k) { HandedFlight(y, tag, m, k); }
    TransportSound(y, Handed(y, tag, m));
  }

  /** No job awaits processing under the token. */
  ghost predicate Unclaimed(y: Sys, token: ID) {
    forall j :: j in y.st.store.jobs && y.st.store.jobs[j].Published() ==> y.st.store.jobs[j].publicationToken != token
  }

  /** A delivery may change unless a waiting job still counts on it. */
  lemma DeliveryChanges(y: Sys, tag: nat, d: Delivery)
    requires Sound(y) && tag in y.deliveries && d.message == y.deliveries[tag].message
    requires d.read.Some? ==> ReadCurrent(y, d.message, d.read.value)
    requires d.lease.Some? ==>
      && d.lease.value.job == d.message.job && d.lease.value.monitor == d.message.monitor
      && d.lease.value.attempt == d.message.attempt
    requires (d.attached == y.deliveries[tag].attached && d.verdict == y.deliveries[tag].verdict)
             || y.deliveries[tag].verdict || Unclaimed(y, d.message.token)
    ensures Sound(y.(deliveries := y.deliveries[tag := d]))
  {
    var w := y.(deliveries := y.deliveries[tag := d]);
    PromiseOf(y, MessageP); PromiseOf(y, ReadP); PromiseOf(y, LeaseP);
    forall j | j in y.st.store.jobs && y.st.store.jobs[j].Published()
               && InFlight(y, y.st.store.jobs[j].publicationToken)
      ensures InFlight(w, y.st.store.jobs[j].publicationToken)
    {
      var k := y.st.store.jobs[j].publicationToken;
      if t :| InHand(y, t, k) {
        assert InHand(w, t, k);
      } else {
        var n :| n in y.ready && n.token == k;
        assert n in w.ready;
      }
    }
    TransportSound(y, w);
  }

  lemma ReadSound(y: Sys, tag: nat)
    requires Sound(y) && CanStep(y, Read(tag))
    ensures Sound(After(y, Read(tag), y.st))
  {
    PromiseOf(y, MessageP); PromiseOf(y, LeaseP); PromiseOf(y, ReadP);
    var m := y.deliveries[tag].message;
    assert MessageKnown(y, m);
    if m.monitor !in y.st.store.monitors {
      forall j | j in y.st.store.jobs ensures y.st.store.jobs[j].publicationToken != m.token {
        if y.st.store.jobs[j].publicationToken == m.token {
          TokenNamesJob(y, Claim(m.job, m.monitor, m.attempt - 1, m.token), j);
        }
      }
    }
    DeliveryChanges(y, tag, After(y, Read(tag), y.st).deliveries[tag]);
  }

  /** The store answers a worker holding a waiting job's own message by handing out the lease. */
  lemma GrantAnswers(y: Sys, m: Message, token: ID, now: Time, timeout: int, j: ID)
    requires Sound(y) && MessageKnown(y, m) && j in y.st.store.jobs
    requires y.st.store.jobs[j].Published() && y.st.store.jobs[j].publicationToken == m.token
    ensures m.job == j && m.monitor == y.st.store.jobs[j].monitor && m.attempt == y.st.store.jobs[j].attempt + 1
    ensures MarkProcessing(y.st.store, m.monitor, m.job, m.attempt, token, now, timeout).1 ==
      Success(Lease(j, m.monitor, m.attempt, token))
  {
    PromiseOf(y, StoreGood); PromiseOf(y, ClaimP);
    var c := Claim(m.job, m.monitor, m.attempt - 1, m.token);
    assert ClaimKnown(y, c);
    TokenNamesJob(y, c, j);
    FactOf(y.st, Agreement);
    ClauseOf(y.st.store, Active);
  }

  /** So afterwards no job waits under the token of that message. */
  lemma GrantLeavesNone(y: Sys, m: Message, token: ID, now: Time, timeout: int)
    requires Sound(y) && MessageKnown(y, m)
    ensures Unclaimed(y.(st := DoGrant(y.st, m.monitor, m.job, m.attempt, token, now, timeout)), m.token)
  {
    var jobs := DoGrant(y.st, m.monitor, m.job, m.attempt, token, now, timeout).store.jobs;
    forall j | j in jobs && jobs[j].Published() ensures jobs[j].publicationToken != m.token {
      if j in y.st.store.jobs && y.st.store.jobs[j].Published() && y.st.store.jobs[j].publicationToken == m.token {
        GrantAnswers(y, m, token, now, timeout, j);
      }
    }
  }

  /** The worker's delivery once the store has answered. */
  function Answered(y: Sys, tag: nat, token: ID, now: Time, timeout: int): Delivery
    requires tag in y.deliveries
  {
    var m := y.deliveries[tag].message;
    var r := MarkProcessing(y.st.store, m.monitor, m.job, m.attempt, token, now, timeout).1;
    y.deliveries[tag].(verdict := true, lease := if r.Success? then Some(r.value) else None)
  }

  lemma GrantSound(y: Sys, tag: nat, token: ID, now: Time, timeout: int, z: Sys)
    requires Sound(y) && tag in y.deliveries && y.deliveries[tag].read.Some?
    requires var m := y.deliveries[tag].message;
      z == y.(st := DoGrant(y.st, m.monitor, m.job, m.attempt, token, now, timeout)) && Sound(z)
    ensures Sound(z.(deliveries := z.deliveries[tag := Answered(y, tag, token, now, timeout)]))
  {
    PromiseOf(z, ReadP); PromiseOf(y, MessageP);
    GrantLeavesNone(y, y.deliveries[tag].message, token, now, timeout);
    DeliveryChanges(z, tag, Answered(y, tag, token, now, timeout));
  }

  lemma SettleSound(y: Sys, tag: nat)
    requires Sound(y) && CanStep(y, Settle(tag))
    ensures Sound(After(y, Settle(tag), y.st))
  {
    PromiseOf(y, LeaseP); PromiseOf(y, ReadP);
    DeliveryChanges(y, tag, y.deliveries[tag].(attached := false));
  }

  lemma ReturnedFlight(y: Sys, tag: nat, k: ID)
    requires tag in y.deliveries
    ensures InFlight(y, k) ==> InFlight(Returned(y, tag), k)
  {
    var w := Returned(y, tag);
    assert y.deliveries[tag].message in w.ready;
    if t :| InHand(y, t, k) {
      if t != tag { assert InHand(w, t, k); }
    } else if n :| n in y.ready && n.token == k {
      assert n in w.ready;
    }
  }

  lemma RequeueSound(y: Sys, tag: nat)
    requires Sound(y) && tag in y.deliveries
    ensures Sound(Returned(y, tag))
  {
    PromiseOf(y, MessageP); PromiseOf(y, ReadP); PromiseOf(y, LeaseP);
    forall k ensures InFlight(y, k) ==> InFlight(Returned(y, tag), k) { ReturnedFlight(y, tag, k); }
    TransportSound(y, Returned(y, tag));
  }

  lemma DropSound(y: Sys)
    requires Sound(y) && y.present && forall r :: r in y.reconcilers ==> !y.reconcilers[r].Trusts()
    ensures Sound(Dropped(y))
  {
    var w := Dropped(y);
    forall p ensures PromiseKept(w, p) {
      PromiseOf(y, p);
      match p
      case ClaimP => forall c | c in w.claims ensures ClaimKnown(w, c) { assert ClaimKnown(y, c); }
      case _ =>
    }
  }

  predicate Reconciling(act: Act) {
    act.Look? || act.Lock? || act.LookAgain? || act.ReportLoss? || act.Declare? || act.Leave?
  }

  /** One reconciler changes phase: it may take the lock when nobody has it, trust only a present queue,
      and reach the recovered phase only by recovering. */
  lemma PhaseChanges(y: Sys, r: nat, phase: Phase, present: bool)
    requires PhasesSound(y) && r in y.reconcilers && !phase.LockedRecovered?
    requires phase.HoldsLock() ==> y.reconcilers[r].HoldsLock() || forall q :: q in y.reconcilers ==>
      !y.reconcilers[q].HoldsLock()
    requires phase.Trusts() ==> present
    requires phase.Missing() ==> !present
    requires present == y.present || (present && y.reconcilers[r].LockedRecovered? && phase.Resting?)
    ensures PhasesSound(SetPhase(y.(present := present), r, phase))
  {
  }

  lemma ReconcilerPhases(y: Sys, act: Act)
    requires PhasesSound(y) && Allowed(y, act) && Reconciling(act)
    ensures PhasesSound(After(y, act, y.st))
  {
    var w := After(y, act, y.st);
    PhaseChanges(y, act.who, w.reconcilers[act.who], w.present);
  }

  /** Declaring after recovery brings back the queue with nothing lost. */
  lemma ReconcilerLoss(y: Sys, act: Act)
    requires NothingLost(y) && PhasesSound(y) && Allowed(y, act) && Reconciling(act)
    ensures NothingLost(After(y, act, y.st))
  {
    var w := After(y, act, y.st);
    SameFlight(y, w);
    assert w.st == y.st && w.published == y.published;
  }

  /** A step that changes only phases and presence leaves the other promises as they were. */
  lemma OnlyPhases(y: Sys, w: Sys)
    requires Sound(y) && w == y.(present := w.present, reconcilers := w.reconcilers)
    requires NothingLost(w) && PhasesSound(w)
    ensures Sound(w)
  {
    forall p ensures PromiseKept(w, p) {
      PromiseOf(y, p);
      match p
      case ClaimP => forall c | c in w.claims ensures ClaimKnown(w, c) { assert ClaimKnown(y, c); }
      case _ =>
    }
  }

  lemma ReconcilerSound(y: Sys, act: Act)
    requires Sound(y) && CanStep(y, act) && Reconciling(act)
    ensures Sound(After(y, act, y.st))
  {
    var w := After(y, act, y.st);
    PromiseOf(y, PhaseP); PromiseOf(y, LossP);
    ReconcilerPhases(y, act);
    ReconcilerLoss(y, act);
    OnlyPhases(y, w);
  }

  /** A handler run leaves nothing published waiting, so a loss it covers is recovered. */
  lemma HandlerPhases(y: Sys, now: Time)
    requires PhasesSound(y.(st := DoRecover(y.st, now)))
    ensures PhasesSound(y.(st := DoRecover(y.st, now), reconcilers := Covered(y.reconcilers)))
  {
  }

  lemma HandlerSound(y: Sys, now: Time, z: Sys)
    requires z == y.(st := DoRecover(y.st, now)) && Sound(z)
    ensures Sound(z.(reconcilers := Covered(y.reconcilers)))
  {
    var w := z.(reconcilers := Covered(y.reconcilers));
    PromiseOf(z, PhaseP); PromiseOf(z, LossP);
    HandlerPhases(y, now);
    SameFlight(z, w);
    OnlyPhases(z, w);
  }

  // ------------------------------------------------------------------ every step

  /** Most store operations change nothing outside the store. */
  lemma OnlyStore(y: Sys, act: Act, st: State)
    requires Allowed(y, act) && OpOf(y, act).Some? && !act.ClaimDue? && !act.Grant? && !act.RunHandler?
    ensures After(y, act, st) == y.(st := st)
  {
  }

  lemma OpStepSound(y: Sys, act: Act, op: Op)
    requires Sound(y) && CanStep(y, act) && OpOf(y, act) == Some(op)
    ensures Sound(y.(st := Do(y.st, op)))
  {
    ActProper(y, act);
    OpSound(y, op);
  }

  /** The store operations that also change claims, deliveries or the reconcilers. */
  lemma FlightStepSound(y: Sys, act: Act, op: Op, z: Sys)
    requires Sound(y) && CanStep(y, act) && OpOf(y, act) == Some(op)
    requires act.ClaimDue? || act.Grant? || act.RunHandler?
    requires z == y.(st := Do(y.st, op)) && Sound(z)
    ensures Sound(After(y, act, z.st))
  {
    match act
    case ClaimDue(_) => ClaimDueSound(y, op, z);
    case Grant(tag, token, now, timeout) => GrantSound(y, tag, token, now, timeout, z);
    case RunHandler(now) => HandlerSound(y, now, z);
  }

  lemma StoreStepSound(y: Sys, act: Act, op: Op)
    requires Sound(y) && CanStep(y, act) && OpOf(y, act) == Some(op)
    ensures Sound(After(y, act, Do(y.st, op)))
  {
    OpStepSound(y, act, op);
    var z := y.(st := Do(y.st, op));
    if act.ClaimDue? || act.Grant? || act.RunHandler? {
      FlightStepSound(y, act, op, z);
    } else {
      OnlyStore(y, act, z.st);
    }
  }

  lemma BrokerStepSound(y: Sys, act: Act)
    requires Sound(y) && CanStep(y, act) && OpOf(y, act).None?
    ensures Sound(After(y, act, y.st))
  {
    match act
    case Enqueue(c) => EnqueueSound(y, c);
    case Deliver(tag, m) => DeliverSound(y, tag, m);
    case Read(tag) => ReadSound(y, tag);
    case Settle(tag) => SettleSound(y, tag);
    case Requeue(tag) => RequeueSound(y, tag);
    case DropQueue => DropSound(y);
    case _ => ReconcilerSound(y, act);
  }

  lemma StepSound(y: Sys, act: Act)
    requires Sound(y) && CanStep(y, act)
    ensures Sound(Next(y, act))
  {
    if OpOf(y, act).Some? {
      StoreStepSound(y, act, OpOf(y, act).value);
    } else {
      BrokerStepSound(y, act);
    }
  }
}
