/** What holds in every run over the in-memory queue. */
module MemoryRuns {
  import opened Identifiers
  import opened Model
  import opened StoreSpec
  import opened Runs
  import opened Protocol
  import opened ProtocolInvariants
  import opened ProtocolTheorems
  import opened MemoryProtocol
  import opened MemoryTheorems
  import Queues = MemoryQueue

  /** The two halves of a step, named so that a proof takes up only what it needs. */
  ghost predicate MemHalf(h: Half, m: Mem, a: MemAct, n: Mem) {
    match h
    case Guard => Can(m, a)
    case Effect => Can(m, a) && n == MemNext(m, a)
  }

  ghost predicate MemMoves(m: Mem, a: MemAct, n: Mem) {
    forall h :: MemHalf(h, m, a, n)
  }

  lemma MemMoveTaken(m: Mem, a: MemAct, n: Mem)
    requires MemMoves(m, a, n)
    ensures Can(m, a) && n == MemNext(m, a)
  {
    assert MemHalf(Effect, m, a, n);
  }

  /** A run of schedulers and workers over an in-memory queue of the given size. */
  ghost predicate IsMemRun(caps: Caps, maxAttempts: nat, bufferSize: nat, ms: seq<Mem>, acts: seq<MemAct>) {
    && caps.Valid() && maxAttempts > 0
    && |ms| == |acts| + 1 && ms[0] == MemInit(caps, maxAttempts, bufferSize)
    && (forall i :: 0 <= i < |acts| ==> MemMoves(ms[i], acts[i], ms[i + 1]))
  }

  lemma InitTogether(caps: Caps, maxAttempts: nat, bufferSize: nat)
    requires caps.Valid() && maxAttempts > 0
    ensures Together(MemInit(caps, maxAttempts, bufferSize)) && Served(MemInit(caps, maxAttempts, bufferSize))
  {
    var m := MemInit(caps, maxAttempts, bufferSize);
    InitSound(caps, maxAttempts, {});
    PromiseOf(m.y, StoreGood);
    OnlyPhases(m.y, m.y.(present := false));
    assert m.y.reconcilers == map[];
  }

  lemma MemMoveTogether(m: Mem, a: MemAct, n: Mem)
    requires Together(m) && MemMoves(m, a, n)
    ensures Together(n) && n.y.maxAttempts == m.y.maxAttempts
  {
    MemMoveTaken(m, a, n);
    MemStepTogether(m, a);
    if a.Outside? { MaximumFixed(m.y, a.act); }
  }

  lemma MemMoveExact(m: Mem, a: MemAct, n: Mem)
    requires Together(m) && Served(m) && MemMoves(m, a, n)
    ensures Served(n) <==> !Harmful(m, a)
  {
    MemMoveTaken(m, a, n);
    StepExact(m, a);
  }

  lemma {:induction false} MemRunTogether(caps: Caps, maxAttempts: nat, bufferSize: nat, ms: seq<Mem>,
                                          acts: seq<MemAct>, i: nat)
    requires IsMemRun(caps, maxAttempts, bufferSize, ms, acts) && i < |ms|
    ensures Together(ms[i]) && ms[i].y.maxAttempts == maxAttempts
  {
    if i == 0 {
      InitTogether(caps, maxAttempts, bufferSize);
    } else {
      MemRunTogether(caps, maxAttempts, bufferSize, ms, acts, i - 1);
      MemMoveTogether(ms[i - 1], acts[i - 1], ms[i]);
    }
  }

  /** The exact condition over whole runs: every publication reported as successful has its message under way in
      every state up to the i-th, for as long as its job awaits it, if and only if no step before was harmful. */
  lemma {:induction false} ServedExactly(caps: Caps, maxAttempts: nat, bufferSize: nat, ms: seq<Mem>, acts: seq<MemAct>,
                                         i: nat)
    requires IsMemRun(caps, maxAttempts, bufferSize, ms, acts) && i < |ms|
    ensures (forall k :: 0 <= k <= i ==> Served(ms[k])) <==> (forall p :: 0 <= p < i ==> !Harmful(ms[p], acts[p]))
  {
    if i == 0 {
      InitTogether(caps, maxAttempts, bufferSize);
    } else {
      ServedExactly(caps, maxAttempts, bufferSize, ms, acts, i - 1);
      MemRunTogether(caps, maxAttempts, bufferSize, ms, acts, i - 1);
      if Served(ms[i - 1]) { MemMoveExact(ms[i - 1], acts[i - 1], ms[i]); }
    }
  }

  /** So while no step is harmful, every queued job has a message of use under way. */
  lemma QueuedIsUnderway(caps: Caps, maxAttempts: nat, bufferSize: nat, ms: seq<Mem>, acts: seq<MemAct>, i: nat, j: ID)
    requires IsMemRun(caps, maxAttempts, bufferSize, ms, acts) && i < |ms|
    requires forall p :: 0 <= p < i ==> !Harmful(ms[p], acts[p])
    requires j in ms[i].y.st.store.jobs && ms[i].y.st.store.jobs[j].status.Queued?
    ensures Underway(ms[i], ms[i].y.st.store.jobs[j])
  {
    ServedExactly(caps, maxAttempts, bufferSize, ms, acts, i);
    MemRunTogether(caps, maxAttempts, bufferSize, ms, acts, i);
    BondOf(ms[i], Promises);
    PromiseOf(ms[i].y.(present := false), LossP);
    assert Served(ms[i]) && Promised(ms[i].y, j);
  }

  // ------------------------------------------------------------------ runs without a slip

  /** What a caller of the queue sees go wrong: its identifier is already live, a hand-off is cancelled, or a
      message is not taken back. */
  predicate Slips(m: Mem, a: MemAct) {
    match a
    case Begin(c, _) => !m.q.closed && c.job in m.q.seen
    case Take(_, handedOver) => !handedOver
    case PutBack(_, cancelled) => m.q.closed || cancelled || |m.q.jobs| >= m.q.capacity
    case _ => false
  }

  /** The step as a broker would see it. */
  function BrokerAct(m: Mem, a: MemAct): Option<Act>
    requires a.Finish? ==> a.job in m.entering
    requires a.Take? ==> m.line != []
  {
    match a
    case Outside(act) => Some(act)
    case Finish(j, cancelled) =>
      if m.q.closed || cancelled || |m.q.jobs| >= m.q.capacity then None else Some(Enqueue(m.entering[j].claim))
    case Take(tag, _) => Some(Deliver(tag, m.line[0]))
    case Dismiss(tag, _) => Some(Settle(tag))
    case PutBack(tag, _) => Some(Requeue(tag))
    case _ => None
  }

  lemma BrokerCan(m: Mem, a: MemAct)
    requires Together(m) && Can(m, a) && BrokerAct(m, a).Some?
    ensures CanStep(m.y, BrokerAct(m, a).value)
  {
    BondOf(m, Promises); BondOf(m, Line); BondOf(m, Entries);
    if a.Take? { assert m.line[0] in m.y.ready; }
  }

  lemma BrokerNext(y: Sys, b: Act)
    requires CanStep(y, b) && (b.Enqueue? || b.Deliver? || b.Settle? || b.Requeue?)
    ensures Next(y, b) ==
      match b
      case Enqueue(c) => Enqueued(y, c)
      case Deliver(tag, s) => Handed(y, tag, s)
      case Settle(tag) => Detached(y, tag)
      case Requeue(tag) => Returned(y, tag)
  {
  }

  lemma StepSimulates(m: Mem, a: MemAct)
    requires Can(m, a) && !Slips(m, a) && (BrokerAct(m, a).Some? ==> CanStep(m.y, BrokerAct(m, a).value))
    ensures MemNext(m, a).y == if BrokerAct(m, a).Some? then Next(m.y, BrokerAct(m, a).value) else m.y
  {
    if !a.Outside? && BrokerAct(m, a).Some? { BrokerNext(m.y, BrokerAct(m, a).value); }
  }

  /** A step without a slip is a step of the protocol over a broker that never loses its queue, or none. */
  lemma MoveSimulates(m: Mem, a: MemAct, n: Mem)
    requires Together(m) && MemMoves(m, a, n) && !Slips(m, a)
    ensures a.Finish? ==> a.job in m.entering
    ensures a.Take? ==> m.line != []
    ensures var b := BrokerAct(m, a);
      if b.Some? then Moves(m.y, b.value, n.y) && !b.value.DropQueue? else n.y == m.y
  {
    MemMoveTaken(m, a, n);
    if BrokerAct(m, a).Some? { BrokerCan(m, a); }
    StepSimulates(m, a);
    forall h | BrokerAct(m, a).Some? ensures MoveHalf(h, m.y, BrokerAct(m, a).value, n.y) { }
  }

  /** A run without a slip is an interleaving of the protocol in which the queue is never deleted; so whatever
      holds in all of those holds of it. */
  lemma {:induction false} Interleaves(caps: Caps, maxAttempts: nat, bufferSize: nat, ms: seq<Mem>, acts: seq<MemAct>,
                                       i: nat)
    returns (ys: seq<Sys>, bs: seq<Act>)
    requires IsMemRun(caps, maxAttempts, bufferSize, ms, acts) && i < |ms|
    requires forall p :: 0 <= p < i ==> !Slips(ms[p], acts[p])
    ensures Interleaving(caps, maxAttempts, {}, ys, bs) && ys[|bs|] == ms[i].y
    ensures forall k :: 0 <= k < |bs| ==> !bs[k].DropQueue?
  {
    if i == 0 {
      ys, bs := [ms[0].y], [];
    } else {
      ys, bs := Interleaves(caps, maxAttempts, bufferSize, ms, acts, i - 1);
      MemRunTogether(caps, maxAttempts, bufferSize, ms, acts, i - 1);
      MoveSimulates(ms[i - 1], acts[i - 1], ms[i]);
      var b := BrokerAct(ms[i - 1], acts[i - 1]);
      if b.Some? { ys, bs := ys + [ms[i].y], bs + [b.value]; }
    }
  }

  /** Where a waiting message is in the queue: buffered, or delivered and not settled. */
  lemma WaitingIsHeld(m: Mem, s: Message)
    requires Together(m) && Waiting(m.y, s)
    ensures (exists jm :: jm in m.q.jobs && Carries(s, jm)) || s.job in m.q.unsettled
  {
    BondOf(m, Line); BondOf(m, Hands);
    if s in m.y.ready {
      var i :| 0 <= i < |m.line| && m.line[i] == s;
      assert m.q.jobs[i] in m.q.jobs;
    } else {
      var t :| t in m.y.deliveries && m.y.deliveries[t].attached && m.y.deliveries[t].message == s;
      assert Unsettled(m.y.deliveries, t);
    }
  }

  /** No stranded job in memory: while no publication has found its identifier live, no hand-off was cancelled and
      every message put back was taken, each queued job's own message, under its current claim, is in the buffer
      or with a worker that has no answer yet. */
  lemma NoStrandedInMemory(caps: Caps, maxAttempts: nat, bufferSize: nat, ms: seq<Mem>, acts: seq<MemAct>, i: nat,
                           j: ID)
    requires IsMemRun(caps, maxAttempts, bufferSize, ms, acts) && i < |ms|
    requires forall p :: 0 <= p < i ==> !Slips(ms[p], acts[p])
    requires j in ms[i].y.st.store.jobs && ms[i].y.st.store.jobs[j].status.Queued?
    ensures exists s :: Waiting(ms[i].y, s) && CarriesJob(s, ms[i].y.st.store.jobs[j])
                        && ((exists jm :: jm in ms[i].q.jobs && Carries(s, jm)) || s.job in ms[i].q.unsettled)
  {
    var ys, bs := Interleaves(caps, maxAttempts, bufferSize, ms, acts, i);
    MemRunTogether(caps, maxAttempts, bufferSize, ms, acts, i);
    BondOf(ms[i], Promises);
    NoStrandedJob(caps, maxAttempts, {}, ys, bs, |bs|, j);
    var s :| Waiting(ms[i].y, s) && CarriesJob(s, ms[i].y.st.store.jobs[j]);
    WaitingIsHeld(ms[i], s);
  }

  /** The other promises of the protocol do not rest on messages: attempts stay bounded and every result was
      obtained with the configuration in force, whatever slips. */
  lemma PromisesInMemory(caps: Caps, maxAttempts: nat, bufferSize: nat, ms: seq<Mem>, acts: seq<MemAct>, i: nat, j: ID,
                         e: Event)
    requires IsMemRun(caps, maxAttempts, bufferSize, ms, acts) && i < |ms|
    ensures Grants(ms[i].y.st.log, j) <= maxAttempts
    ensures j in ms[i].y.st.store.jobs ==> ms[i].y.st.store.jobs[j].attempt <= maxAttempts
    ensures e.Recorded? && Occurs(ms[i].y.st.log, e) ==> e.used == e.inForce
  {
    MemRunTogether(caps, maxAttempts, bufferSize, ms, acts, i);
    BondOf(ms[i], Promises);
    var z := ms[i].y.(present := false);
    PromiseOf(z, AttemptP); PromiseOf(z, LogP);
    if e.Recorded? && Occurs(z.st.log, e) { UsedWhenRecorded(z.st.log, e); }
  }

  // ------------------------------------------------------------------ what a harmful step leads to

  /** The job is queued and nothing of use is under way. */
  ghost predicate Stranded(m: Mem, j: ID) {
    && j in m.y.st.store.jobs && m.y.st.store.jobs[j].status.Queued?
    && !Underway(m, m.y.st.store.jobs[j])
  }

  /** A claim whose job has no message is confirmed. */
  lemma ConfirmStrands(m: Mem, c: Claim, u: Time)
    requires Together(m) && c in m.y.claims && Promised(m.y, c.job) && !Underway(m, m.y.st.store.jobs[c.job])
    requires ClaimHolds(m.y.st.store, c, u) && u > m.y.st.clock
    ensures Can(m, Outside(Confirm(c, u))) && Stranded(MemNext(m, Outside(Confirm(c, u))), c.job)
  {
    var n, job := MemNext(m, Outside(Confirm(c, u))), m.y.st.store.jobs[c.job];
    assert n.y.st.store.jobs[c.job] == job.(status := Queued, leaseExpiresAt := 0);
    forall s | Afloat(n, s) ensures Afloat(m, s) {
      if t :| OnHand(n.y, t) && n.y.deliveries[t].message == s { assert OnHand(m.y, t); }
    }
    forall s | Afloat(n, s) && Useful(s, n.y.st.store.jobs[c.job]) ensures false { assert Useful(s, job); }
  }

  /** A harmful step strands its job: at once if it is queued, and otherwise with the confirmation that the
      scheduler sends next, if that comes within its lease. */
  lemma HarmStrands(m: Mem, a: MemAct, c: Claim, u: Time)
    requires Together(m) && Served(m) && Can(m, a) && Harmful(m, a)
    ensures var n, j := MemNext(m, a), Harmed(m, a);
      && j in n.y.st.store.jobs && n.y.st.store.jobs[j].Published()
      && (n.y.st.store.jobs[j].status.Queued? ==> Stranded(n, j))
      && (c in n.y.claims && c.job == j && ClaimHolds(n.y.st.store, c, u) && u > n.y.st.clock ==>
            Can(n, Outside(Confirm(c, u))) && Stranded(MemNext(n, Outside(Confirm(c, u))), j))
  {
    var n, j := MemNext(m, a), Harmed(m, a);
    StepExact(m, a);
    MemStepTogether(m, a);
    if c in n.y.claims && c.job == j && ClaimHolds(n.y.st.store, c, u) && u > n.y.st.clock { ConfirmStrands(n, c, u); }
  }

  /** The identifier of a delivery that was answered and not yet settled is live and spent. */
  lemma AnsweredIsSpent(m: Mem, tag: nat, c: Claim, at: Time)
    requires Together(m) && HeldBy(m.y.deliveries, tag, c.job) && m.y.deliveries[tag].verdict
    requires !m.q.closed && Current(m.y, c)
    ensures Harmful(m, Begin(c, at))
  {
    BondOf(m, Hands); BondOf(m, Conservation);
  }

  lemma DismissStrands(m: Mem, tag: nat, dead: bool, j: ID)
    requires Stranded(m, j) && Can(m, Dismiss(tag, dead))
    ensures Stranded(MemNext(m, Dismiss(tag, dead)), j)
  {
    var n := MemNext(m, Dismiss(tag, dead));
    forall s | Afloat(n, s) ensures Afloat(m, s) { DetachedAfloat(m, n, tag, s); }
  }

  ghost predicate Path(ms: seq<Mem>, acts: seq<MemAct>) {
    && |ms| == |acts| + 1 && Together(ms[0]) && Served(ms[0])
    && (forall i :: 0 <= i < |acts| ==> MemMoves(ms[i], acts[i], ms[i + 1]))
  }

  lemma {:induction false} PathTogether(ms: seq<Mem>, acts: seq<MemAct>, i: nat)
    requires Path(ms, acts) && i < |ms|
    ensures Together(ms[i])
    ensures (forall p :: 0 <= p < i ==> !Harmful(ms[p], acts[p])) ==> Served(ms[i])
  {
    if i > 0 {
      PathTogether(ms, acts, i - 1);
      MemMoveTogether(ms[i - 1], acts[i - 1], ms[i]);
      if Served(ms[i - 1]) { MemMoveExact(ms[i - 1], acts[i - 1], ms[i]); }
    }
  }

  lemma StoreKeepsDeliveries(m: Mem, act: Act, n: Mem)
    requires MemMoves(m, Outside(act), n) && (act.GiveUp? || act.ClaimDue?)
    ensures n.y.deliveries == m.y.deliveries && n.q == m.q
  {
    MemMoveTaken(m, Outside(act), n);
  }

  /** An identifier found live by a publication while its last delivery is unsettled: a worker reports a failure
      with any retry delay, a scheduler claims the job again, publishes it and confirms within its lease, and the
      worker settles its delivery. The job is queued and nothing is under way. */
  lemma StrandedInMemory(ms: seq<Mem>, acts: seq<MemAct>, tag: nat, now: Time, delay: nat, wall: Time, op: Op,
                         c: Claim, at: Time, u: Time, dead: bool)
    requires Path(ms, acts)
    requires acts == [Outside(GiveUp(tag, now, delay, wall)), Outside(ClaimDue(op)), Begin(c, at),
                      Outside(Confirm(c, u)), Dismiss(tag, dead)]
    requires !ms[0].q.closed && HeldBy(ms[0].y.deliveries, tag, c.job) && ms[0].y.deliveries[tag].verdict
    requires Current(ms[2].y, c) && ClaimHolds(ms[3].y.st.store, c, u)
    ensures Stranded(ms[5], c.job)
  {
    StoreKeepsDeliveries(ms[0], acts[0].act, ms[1]); StoreKeepsDeliveries(ms[1], acts[1].act, ms[2]);
    PathTogether(ms, acts, 2);
    AnsweredIsSpent(ms[2], tag, c, at);
    MemMoveTaken(ms[2], acts[2], ms[3]); MemMoveTaken(ms[3], acts[3], ms[4]); MemMoveTaken(ms[4], acts[4], ms[5]);
    HarmStrands(ms[2], acts[2], c, u);
    DismissStrands(ms[4], tag, dead, c.job);
  }

  /** An identifier whose publication is under way at the same attempt is not spent. */
  lemma EnteringNotSpent(m: Mem, c: Claim)
    requires Together(m) && c.job in m.entering && m.entering[c.job].claim.attempt >= c.attempt
    ensures !Spent(m, c)
  {
    BondOf(m, Conservation); BondOf(m, Entries); BondOf(m, Line); BondOf(m, Hands);
    forall i | 0 <= i < |m.line| ensures m.line[i].job != c.job { assert m.q.jobs[i] in m.q.jobs; }
  }

  lemma BeginTaken(m: Mem, c: Claim, at: Time, n: Mem)
    requires MemMoves(m, Begin(c, at), n)
    ensures n == AfterBegin(m, c, at) && c in m.y.claims
  {
    MemMoveTaken(m, Begin(c, at), n);
  }

  /** An identifier found live while another publication of it is under way, which the buffer then refuses: the
      second publication was reported as successful, and its job is left without a message. */
  lemma RefusedAfterLive(ms: seq<Mem>, acts: seq<MemAct>, b: Claim, c: Claim, at: Time, cancelled: bool)
    requires Path(ms, acts) && acts == [Begin(b, at), Begin(c, at), Finish(c.job, cancelled)]
    requires b.job == c.job && b.attempt == c.attempt && Current(ms[0].y, c)
    requires !ms[0].q.closed && c.job !in ms[0].q.seen && (cancelled || |ms[0].q.jobs| >= ms[0].q.capacity)
    ensures c.token in ms[2].y.published && Harmful(ms[2], acts[2])
    ensures Promised(ms[3].y, c.job) && !Underway(ms[3], ms[3].y.st.store.jobs[c.job])
  {
    PathTogether(ms, acts, 1); PathTogether(ms, acts, 2);
    BeginTaken(ms[0], b, at, ms[1]); BeginTaken(ms[1], c, at, ms[2]); MemMoveTaken(ms[2], acts[2], ms[3]);
    EnteringNotSpent(ms[1], c);
    AfloatKnown(ms[1], MessageFor(b));
    SentForJob(ms[1], c, MessageFor(b));
    StepExact(ms[2], acts[2]);
  }

  /** An awaited message at the head of the buffer is lost if its hand-off is cancelled, and also if its worker
      gives it back to a buffer that has filled up or closed. */
  lemma AwaitedLost(m: Mem, tag: nat, other: nat, full: Mem)
    requires Together(m) && Can(m, Take(tag, true)) && Awaited(m.y, m.line[0])
    requires full.y == AfterTake(m, tag, true).y && (full.q.closed || |full.q.jobs| >= full.q.capacity)
    ensures Harmful(m, Take(other, false))
    ensures Harmful(full, PutBack(tag, false))
  {
  }
}
