/** When the in-memory queue strands no job: exactly which steps lose a message that a job still awaits. */
module MemoryTheorems {
  import opened Identifiers
  import opened Model
  import opened StoreSpec
  import opened Runs
  import opened RunInvariants
  import opened Lifecycle
  import opened Protocol
  import opened ProtocolInvariants
  import opened MemoryProtocol
  import Queues = MemoryQueue

  // ------------------------------------------------------------------ messages under way

  /** The store would hand out a lease of the job for this message. */
  predicate Useful(s: Message, job: Job) { s.job == job.id && s.monitor == job.monitor && s.attempt > job.attempt }

  /** A worker has the message, and the store has not answered. */
  predicate OnHand(y: Sys, tag: nat) { Unsettled(y.deliveries, tag) && !y.deliveries[tag].verdict }

  /** The message is in the buffer, with a worker that has no answer yet, or between the halves of its publication. */
  ghost predicate Afloat(m: Mem, s: Message) {
    || s in m.line
    || (exists t :: OnHand(m.y, t) && m.y.deliveries[t].message == s)
    || (s.job in m.entering && MessageFor(m.entering[s.job].claim) == s)
  }

  ghost predicate Underway(m: Mem, job: Job) {
    exists s :: Afloat(m, s) && Useful(s, job)
  }

  /** The job waits, and a publication under its current claim was reported as successful. */
  predicate Promised(y: Sys, j: ID) {
    j in y.st.store.jobs && y.st.store.jobs[j].Published() && y.st.store.jobs[j].publicationToken in y.published
  }

  /** Every publication reported as successful has a message under way for as long as its job awaits it. */
  ghost predicate Served(m: Mem) {
    forall j :: Promised(m.y, j) ==> Underway(m, m.y.st.store.jobs[j])
  }

  // ------------------------------------------------------------------ harm

  predicate Current(y: Sys, c: Claim) {
    c.job in y.st.store.jobs && y.st.store.jobs[c.job].Published() && y.st.store.jobs[c.job].publicationToken == c.token
  }

  /** Nothing will come of what the live identifier stands for: it was lost in a hand-off, or it stands for a
      message of an earlier attempt, or for a delivery that the store has already answered. */
  ghost predicate Spent(m: Mem, c: Claim) {
    || c.job in m.q.lost
    || (c.job in m.entering && m.entering[c.job].claim.attempt < c.attempt)
    || (exists i :: 0 <= i < |m.line| && m.line[i].job == c.job && m.line[i].attempt <= c.attempt)
    || (exists t :: HeldBy(m.y.deliveries, t, c.job)
                    && (m.y.deliveries[t].verdict || m.y.deliveries[t].message.attempt <= c.attempt))
  }

  /** A job counts on the message. */
  predicate Awaited(y: Sys, s: Message) {
    Promised(y, s.job) && Useful(s, y.st.store.jobs[s.job])
  }

  /** The steps that break the promise of a reported publication: it is swallowed by an identifier that stands
      for nothing any more, or the awaited message is refused by the buffer (at its publication, on which
      another one relies, or when a worker puts it back), or it is lost in a hand-off. */
  ghost predicate Harmful(m: Mem, a: MemAct) {
    match a
    case Begin(c, _) => !m.q.closed && c.job in m.q.seen && Current(m.y, c) && Spent(m, c)
    case Finish(j, cancelled) =>
      && j in m.entering && (m.q.closed || cancelled || |m.q.jobs| >= m.q.capacity)
      && Awaited(m.y, MessageFor(m.entering[j].claim))
    case Take(_, handedOver) => m.line != [] && !handedOver && Awaited(m.y, m.line[0])
    case PutBack(tag, cancelled) =>
      && OnHand(m.y, tag) && (m.q.closed || cancelled || |m.q.jobs| >= m.q.capacity)
      && Awaited(m.y, m.y.deliveries[tag].message)
    case _ => false
  }

  /** The job that a harmful step strands. */
  function Harmed(m: Mem, a: MemAct): ID
    requires a.Begin? || a.Finish? || (a.Take? && m.line != []) || (a.PutBack? && a.tag in m.y.deliveries)
  {
    match a
    case Begin(c, _) => c.job
    case Finish(j, _) => j
    case Take(_, _) => m.line[0].job
    case PutBack(tag, _) => m.y.deliveries[tag].message.job
  }

  // ------------------------------------------------------------------ one message per identifier

  /** Every message afloat was sent for a known claim. */
  lemma AfloatKnown(m: Mem, s: Message)
    requires Together(m) && Afloat(m, s)
    ensures MessageKnown(m.y, s)
  {
    BondOf(m, Promises); BondOf(m, Line); BondOf(m, Entries);
    PromiseOf(m.y.(present := false), MessageP);
    if s in m.line { assert s in m.y.ready; }
  }

  /** Where a message afloat is, by its identifier alone. */
  lemma AfloatPlaces(m: Mem, s: Message)
    requires Together(m) && Afloat(m, s)
    ensures s in m.line ==> s.job in Queues.Ids(m.q.jobs)
    ensures (exists t :: OnHand(m.y, t) && m.y.deliveries[t].message == s) ==> s.job in m.q.unsettled
    ensures s.job in m.entering ==> s.job in m.q.publishing
  {
    BondOf(m, Line); BondOf(m, Hands); BondOf(m, Entries);
    if s in m.line {
      var i :| 0 <= i < |m.line| && m.line[i] == s;
      assert m.q.jobs[i] in m.q.jobs;
    }
  }

  lemma OneInLine(m: Mem, s: Message, t: Message)
    requires Together(m) && s in m.line && t in m.line && s.job == t.job
    ensures s == t
  {
    BondOf(m, Line); BondOf(m, Conservation);
    var i :| 0 <= i < |m.line| && m.line[i] == s;
    var k :| 0 <= k < |m.line| && m.line[k] == t;
    assert m.q.jobs[i].job == m.q.jobs[k].job;
  }

  /** At most one message is afloat for an identifier. */
  lemma OneAfloat(m: Mem, s: Message, t: Message)
    requires Together(m) && Afloat(m, s) && Afloat(m, t) && s.job == t.job
    ensures s == t
  {
    AfloatPlaces(m, s); AfloatPlaces(m, t);
    BondOf(m, Conservation); BondOf(m, Hands);
    if s in m.line && t in m.line { OneInLine(m, s, t); }
  }

  // ------------------------------------------------------------------ steps outside the queue

  /** The need of a job as far as messages are concerned. */
  predicate SameNeed(a: Job, b: Job) { b.id == a.id && b.monitor == a.monitor && b.attempt == a.attempt }

  lemma SameIds(a: State, b: State)
    requires Good(a) && Good(b)
    ensures forall j :: j in a.store.jobs ==> a.store.jobs[j].id == j
    ensures forall j :: j in b.store.jobs ==> b.store.jobs[j].id == j
  {
    FactOf(a, Agreement); FactOf(b, Agreement);
    ClauseOf(a.store, Jobs); ClauseOf(b.store, Jobs);
  }

  /** A promised job was promised before, with the same need. */
  lemma PromisedBefore(y: Sys, op: Op, j: ID)
    requires Loose(y) && Enabled(y.st, op) && Promised(y.(st := Do(y.st, op)), j)
    ensures Promised(y, j) && SameNeed(y.st.store.jobs[j], Do(y.st, op).store.jobs[j])
  {
    var z := y.(present := false);
    PromiseOf(z, StoreGood); PromiseOf(z, ClaimP);
    StepAdvances(y.st, op); StepGood(y.st, op);
    SameIds(y.st, Do(y.st, op));
  }

  /** The store answers a useful message of a waiting job with a lease, so the job waits no longer. */
  lemma UsefulIsGranted(st: State, s: Message, token: ID, now: Time, timeout: int)
    requires Good(st) && s.job in st.store.jobs && st.store.jobs[s.job].Published() && Useful(s, st.store.jobs[s.job])
    ensures DoGrant(st, s.monitor, s.job, s.attempt, token, now, timeout).store.jobs[s.job].status.Processing?
  {
    FactOf(st, Agreement);
    ClauseOf(st.store, Active); ClauseOf(st.store, Jobs);
  }

  /** A worker that finds no monitor to read holds nothing useful. */
  lemma UsefulIsRead(st: State, s: Message)
    requires Good(st) && s.job in st.store.jobs && Useful(s, st.store.jobs[s.job])
    ensures s.monitor in st.store.monitors
  {
    FactOf(st, Agreement);
    ClauseOf(st.store, Jobs);
  }

  /** The worker's delivery that the step answers, if any. */
  predicate Answers(y: Sys, act: Act, tag: nat) {
    || (act.Grant? && act.tag == tag)
    || (act.Read? && act.tag == tag && tag in y.deliveries
        && y.deliveries[tag].message.monitor !in y.st.store.monitors)
  }

  lemma OutsideOnHand(y: Sys, act: Act, tag: nat)
    requires Bypasses(act) && CanStep(y, act) && OnHand(y, tag) && !Answers(y, act, tag)
    ensures OnHand(Next(y, act), tag) && Next(y, act).deliveries[tag].message == y.deliveries[tag].message
  {
  }

  lemma OutsideAfloat(m: Mem, act: Act, s: Message)
    requires Bypasses(act) && CanStep(m.y, act) && Afloat(m, s)
    requires forall t :: OnHand(m.y, t) && Answers(m.y, act, t) ==> m.y.deliveries[t].message != s
    ensures Afloat(m.(y := Next(m.y, act)), s)
  {
    if t :| OnHand(m.y, t) && m.y.deliveries[t].message == s { OutsideOnHand(m.y, act, t); }
  }

  lemma OutsideStore(y: Sys, act: Act)
    requires Bypasses(act) && CanStep(y, act)
    ensures Next(y, act).published == y.published
    ensures Next(y, act).st == if OpOf(y, act).Some? then Do(y.st, OpOf(y, act).value) else y.st
  {
  }

  lemma OutsidePromised(y: Sys, act: Act, j: ID)
    requires Loose(y) && Bypasses(act) && CanStep(y, act) && Promised(Next(y, act), j)
    ensures Promised(y, j) && SameNeed(y.st.store.jobs[j], Next(y, act).st.store.jobs[j])
  {
    OutsideStore(y, act);
    if OpOf(y, act).Some? { PromisedBefore(y, OpOf(y, act).value, j); }
  }

  /** What the step answers is of no use to a job that still waits afterwards. */
  lemma AnsweredUseless(y: Sys, act: Act, tag: nat, j: ID)
    requires Loose(y) && Bypasses(act) && CanStep(y, act) && OnHand(y, tag) && Answers(y, act, tag)
    requires Promised(y, j) && Promised(Next(y, act), j)
    ensures !Useful(y.deliveries[tag].message, y.st.store.jobs[j])
  {
    var s := y.deliveries[tag].message;
    PromiseOf(y.(present := false), StoreGood);
    if Useful(s, y.st.store.jobs[j]) {
      SameIds(y.st, y.st);
      UsefulIsRead(y.st, s);
      OutsideStore(y, act);
      UsefulIsGranted(y.st, s, act.token, act.now, act.timeout);
    }
  }

  lemma OutsideServed(m: Mem, act: Act)
    requires Together(m) && Served(m) && Bypasses(act) && CanStep(m.y, act)
    ensures Served(m.(y := Next(m.y, act)))
  {
    var n := m.(y := Next(m.y, act));
    BondOf(m, Promises);
    forall j | Promised(n.y, j) ensures Underway(n, n.y.st.store.jobs[j]) {
      OutsidePromised(m.y, act, j);
      var s :| Afloat(m, s) && Useful(s, m.y.st.store.jobs[j]);
      forall t | OnHand(m.y, t) && Answers(m.y, act, t) ensures m.y.deliveries[t].message != s {
        AnsweredUseless(m.y, act, t, j);
      }
      OutsideAfloat(m, act, s);
    }
  }

  // ------------------------------------------------------------------ steps of the queue

  lemma SameIdsOf(m: Mem)
    requires Together(m)
    ensures forall j :: j in m.y.st.store.jobs ==> m.y.st.store.jobs[j].id == j
  {
    BondOf(m, Promises);
    PromiseOf(m.y.(present := false), StoreGood);
    SameIds(m.y.st, m.y.st);
  }

  /** A step that changes no job and no promise keeps what is under way if every message stays afloat. */
  lemma StillServed(m: Mem, n: Mem)
    requires Together(m) && Served(m) && n.y.st == m.y.st && n.y.published == m.y.published
    requires forall s :: Afloat(m, s) && Awaited(m.y, s) ==> Afloat(n, s)
    ensures Served(n)
  {
    SameIdsOf(m);
    forall j | Promised(n.y, j) ensures Underway(n, n.y.st.store.jobs[j]) {
      assert Promised(m.y, j);
      var s :| Afloat(m, s) && Useful(s, m.y.st.store.jobs[j]);
    }
  }

  /** A step that takes an awaited message away leaves its job without any. */
  lemma LeftWithout(m: Mem, n: Mem, s: Message)
    requires Together(m) && Afloat(m, s) && Awaited(m.y, s)
    requires n.y.st == m.y.st && m.y.published <= n.y.published
    requires !Afloat(n, s) && forall t :: Afloat(n, t) ==> Afloat(m, t)
    ensures Promised(n.y, s.job) && !Underway(n, n.y.st.store.jobs[s.job])
  {
    SameIdsOf(m);
    forall t | Afloat(n, t) && Useful(t, n.y.st.store.jobs[s.job]) ensures false { OneAfloat(m, s, t); }
  }

  /** What the step does to the job it would harm. */
  ghost predicate Strands(m: Mem, a: MemAct)
    requires Can(m, a) && (a.Begin? || a.Finish? || a.Take? || a.PutBack?)
  {
    var n, j := MemNext(m, a), Harmed(m, a);
    Promised(n.y, j) && !Underway(n, n.y.st.store.jobs[j])
  }

  // ------------------------------------------------------------------ publishing

  /** A message of the claim's job has the job's monitor, and the claim's attempt is the waiting job's. */
  lemma SentForJob(m: Mem, c: Claim, s: Message)
    requires Together(m) && c in m.y.claims && Current(m.y, c) && MessageKnown(m.y, s) && s.job == c.job
    ensures Useful(s, m.y.st.store.jobs[c.job]) <==> s.attempt > c.attempt
  {
    BondOf(m, Promises);
    SameIdsOf(m);
    ClaimDrawn(m.y, c);
    ClaimDrawn(m.y, Claim(s.job, s.monitor, s.attempt - 1, s.token));
  }

  lemma SpentElsewhere(m: Mem, c: Claim, s: Message)
    requires Together(m) && Spent(m, c) && Afloat(m, s) && s.job == c.job
    ensures s.attempt <= c.attempt
  {
    AfloatPlaces(m, s);
    BondOf(m, Conservation); BondOf(m, Line); BondOf(m, Hands); BondOf(m, Entries);
    if i :| 0 <= i < |m.line| && m.line[i].job == c.job && m.line[i].attempt <= c.attempt {
      assert Afloat(m, m.line[i]);
      OneAfloat(m, s, m.line[i]);
    }
  }

  /** Whether a live identifier is spent: nothing afloat for it is of use to the claim's job. */
  lemma SpentIsUseless(m: Mem, c: Claim)
    requires Together(m) && c in m.y.claims && Current(m.y, c) && Spent(m, c)
    ensures !Underway(m, m.y.st.store.jobs[c.job])
  {
    SameIdsOf(m);
    BondOf(m, Conservation); BondOf(m, Line); BondOf(m, Hands); BondOf(m, Entries);
    forall s | Afloat(m, s) && Useful(s, m.y.st.store.jobs[c.job]) ensures false {
      AfloatKnown(m, s); SentForJob(m, c, s); AfloatPlaces(m, s);
      SpentElsewhere(m, c, s);
    }
  }

  lemma LiveMessage(m: Mem, c: Claim) returns (s: Message)
    requires Together(m) && c.job in m.q.seen && !Spent(m, c)
    ensures Afloat(m, s) && s.job == c.job && s.attempt > c.attempt
  {
    BondOf(m, Conservation); BondOf(m, Line); BondOf(m, Hands); BondOf(m, Entries);
    if c.job in m.q.publishing {
      s := MessageFor(m.entering[c.job].claim);
    } else if c.job in m.q.unsettled {
      var t :| HeldBy(m.y.deliveries, t, c.job);
      s := m.y.deliveries[t].message;
      assert OnHand(m.y, t);
    } else {
      var jm :| jm in m.q.jobs && jm.job == c.job;
      var i :| 0 <= i < |m.q.jobs| && m.q.jobs[i] == jm;
      s := m.line[i];
    }
  }

  /** A live identifier that is not spent stands for a message of use. */
  lemma UnspentIsUseful(m: Mem, c: Claim)
    requires Together(m) && c in m.y.claims && Current(m.y, c) && c.job in m.q.seen && !Spent(m, c)
    ensures Underway(m, m.y.st.store.jobs[c.job])
  {
    var s := LiveMessage(m, c);
    AfloatKnown(m, s);
    SentForJob(m, c, s);
  }

  /** Only the claim's own job can carry its token. */
  lemma TokenIsOwn(m: Mem, c: Claim, j: ID)
    requires Together(m) && c in m.y.claims
    requires j in m.y.st.store.jobs && m.y.st.store.jobs[j].publicationToken == c.token
    ensures j == c.job
  {
    BondOf(m, Promises);
    TokenNamesJob(m.y.(present := false), c, j);
  }

  lemma SwallowedServed(m: Mem, c: Claim, at: Time)
    requires Together(m) && Served(m) && c in m.y.claims && !m.q.closed && c.job in m.q.seen
    ensures !Harmful(m, Begin(c, at)) ==> Served(AfterBegin(m, c, at))
    ensures Harmful(m, Begin(c, at)) ==> Strands(m, Begin(c, at))
  {
    var n := AfterBegin(m, c, at);
    assert forall s :: Afloat(n, s) <==> Afloat(m, s);
    if Harmful(m, Begin(c, at)) {
      SpentIsUseless(m, c);
    } else {
      forall j | Promised(n.y, j) ensures Underway(n, n.y.st.store.jobs[j]) {
        if !Promised(m.y, j) {
          TokenIsOwn(m, c, j);
          UnspentIsUseful(m, c);
        }
        var s :| Afloat(m, s) && Useful(s, m.y.st.store.jobs[j]);
        assert Afloat(n, s);
      }
    }
  }

  lemma BeginServed(m: Mem, c: Claim, at: Time)
    requires Together(m) && Served(m) && c in m.y.claims
    ensures !Harmful(m, Begin(c, at)) ==> Served(AfterBegin(m, c, at))
    ensures Harmful(m, Begin(c, at)) ==> Strands(m, Begin(c, at))
  {
    if !m.q.closed && c.job in m.q.seen {
      SwallowedServed(m, c, at);
    } else {
      BondOf(m, Conservation); BondOf(m, Entries);
      StillServed(m, AfterBegin(m, c, at));
    }
  }

  /** An accepted message serves the job whose claim it carries, and all others are served as before. */
  lemma FinishedServed(m: Mem, j: ID, cancelled: bool)
    requires Together(m) && Served(m) && j in m.entering && AfterFinish(m, j, cancelled).line != m.line
    ensures Served(AfterFinish(m, j, cancelled))
  {
    var n, c := AfterFinish(m, j, cancelled), m.entering[j].claim;
    var s := MessageFor(c);
    BondOf(m, Entries);
    assert Afloat(n, s);
    forall t | Afloat(m, t) ensures Afloat(n, t) {
      if t.job == j && t != s { assert Afloat(m, s); OneAfloat(m, s, t); }
    }
    forall i | Promised(n.y, i) ensures Underway(n, n.y.st.store.jobs[i]) {
      if Promised(m.y, i) {
        var t :| Afloat(m, t) && Useful(t, m.y.st.store.jobs[i]);
        assert Afloat(n, t);
      } else {
        TokenIsOwn(m, c, i);
        AfloatKnown(m, s);
        SentForJob(m, c, s);
      }
    }
  }

  lemma RefusedGone(m: Mem, j: ID, cancelled: bool)
    requires Together(m) && j in m.entering && AfterFinish(m, j, cancelled).line == m.line
    ensures !Afloat(AfterFinish(m, j, cancelled), MessageFor(m.entering[j].claim))
  {
    var n, s := AfterFinish(m, j, cancelled), MessageFor(m.entering[j].claim);
    BondOf(m, Entries); BondOf(m, Conservation);
    assert Afloat(m, s);
    AfloatPlaces(m, s);
    assert n.y == m.y;
  }

  /** The buffer refuses the message, or takes it. */
  lemma FinishServed(m: Mem, j: ID, cancelled: bool)
    requires Together(m) && Served(m) && j in m.entering
    ensures !Harmful(m, Finish(j, cancelled)) ==> Served(AfterFinish(m, j, cancelled))
    ensures Harmful(m, Finish(j, cancelled)) ==> Strands(m, Finish(j, cancelled))
  {
    var n, e := AfterFinish(m, j, cancelled), m.entering[j];
    var s := MessageFor(e.claim);
    BondOf(m, Entries);
    assert Afloat(m, s);
    if n.line != m.line {
      FinishedServed(m, j, cancelled);
    } else {
      forall t | Afloat(m, t) && t != s ensures Afloat(n, t) { if t.job == j { OneAfloat(m, s, t); } }
      if Awaited(m.y, s) {
        RefusedGone(m, j, cancelled);
        LeftWithout(m, n, s);
      } else {
        StillServed(m, n);
      }
    }
  }

  // ------------------------------------------------------------------ deliveries

  lemma TakeKeepsAfloat(m: Mem, tag: nat, handedOver: bool, s: Message)
    requires Together(m) && Can(m, Take(tag, handedOver)) && Afloat(m, s) && (handedOver || s != m.line[0])
    ensures Afloat(AfterTake(m, tag, handedOver), s)
  {
    var n := AfterTake(m, tag, handedOver);
    assert m.line == [m.line[0]] + m.line[1..];
    if t :| OnHand(m.y, t) && m.y.deliveries[t].message == s {
      assert OnHand(n.y, t);
    } else if s == m.line[0] {
      assert OnHand(n.y, tag);
    }
  }

  lemma LostGone(m: Mem, tag: nat)
    requires Together(m) && Can(m, Take(tag, false))
    ensures !Afloat(AfterTake(m, tag, false), m.line[0])
    ensures forall t :: Afloat(AfterTake(m, tag, false), t) ==> Afloat(m, t)
  {
    var n, s := AfterTake(m, tag, false), m.line[0];
    BondOf(m, Line); BondOf(m, Conservation);
    assert s in m.line && Afloat(m, s);
    AfloatPlaces(m, s);
    forall i | 0 <= i < |n.line| ensures n.line[i] != s { assert m.q.jobs[i + 1].job != m.q.jobs[0].job; }
    assert n.y.deliveries == m.y.deliveries;
  }

  lemma TakeServed(m: Mem, tag: nat, handedOver: bool)
    requires Together(m) && Served(m) && Can(m, Take(tag, handedOver))
    ensures !Harmful(m, Take(tag, handedOver)) ==> Served(AfterTake(m, tag, handedOver))
    ensures Harmful(m, Take(tag, handedOver)) ==> Strands(m, Take(tag, handedOver))
  {
    var n, s := AfterTake(m, tag, handedOver), m.line[0];
    assert Afloat(m, s);
    forall t | Afloat(m, t) && (handedOver || t != s) ensures Afloat(n, t) { TakeKeepsAfloat(m, tag, handedOver, t); }
    if handedOver || !Awaited(m.y, s) {
      StillServed(m, n);
    } else {
      LostGone(m, tag);
      LeftWithout(m, n, s);
    }
  }

  lemma DetachedAfloat(m: Mem, n: Mem, tag: nat, s: Message)
    requires tag in m.y.deliveries && n.y == Detached(m.y, tag) && n.line == m.line && n.entering == m.entering
    ensures Afloat(m, s) && (s != m.y.deliveries[tag].message || !OnHand(m.y, tag)) ==> Afloat(n, s)
    ensures Afloat(n, s) ==> Afloat(m, s)
  {
    if t :| OnHand(m.y, t) && m.y.deliveries[t].message == s { if t != tag { assert OnHand(n.y, t); } }
    if t :| OnHand(n.y, t) && n.y.deliveries[t].message == s { assert OnHand(m.y, t); }
  }

  /** Settling an answered delivery takes nothing away that a job still awaits. */
  lemma DismissServed(m: Mem, tag: nat, dead: bool)
    requires Together(m) && Served(m) && Can(m, Dismiss(tag, dead))
    ensures Served(MemNext(m, Dismiss(tag, dead)))
  {
    var n := MemNext(m, Dismiss(tag, dead));
    forall s ensures Afloat(m, s) ==> Afloat(n, s) { DetachedAfloat(m, n, tag, s); }
    StillServed(m, n);
  }

  lemma ReturnedAfloat(m: Mem, tag: nat, cancelled: bool, s: Message)
    requires Can(m, PutBack(tag, cancelled)) && AfterPutBack(m, tag, cancelled).line != m.line && Afloat(m, s)
    ensures Afloat(AfterPutBack(m, tag, cancelled), s)
  {
    var n := AfterPutBack(m, tag, cancelled);
    if t :| OnHand(m.y, t) && m.y.deliveries[t].message == s { if t != tag { assert OnHand(n.y, t); } }
  }

  lemma DroppedGone(m: Mem, tag: nat, cancelled: bool)
    requires Together(m) && Can(m, PutBack(tag, cancelled)) && OnHand(m.y, tag)
    requires AfterPutBack(m, tag, cancelled).line == m.line
    ensures !Afloat(AfterPutBack(m, tag, cancelled), m.y.deliveries[tag].message)
  {
    var n, s := AfterPutBack(m, tag, cancelled), m.y.deliveries[tag].message;
    BondOf(m, Hands); BondOf(m, Conservation); BondOf(m, Entries);
    assert Afloat(m, s);
    AfloatPlaces(m, s);
    forall t | OnHand(n.y, t) ensures n.y.deliveries[t].message != s { assert t != tag && OnHand(m.y, t); }
  }

  lemma PutBackServed(m: Mem, tag: nat, cancelled: bool)
    requires Together(m) && Served(m) && Can(m, PutBack(tag, cancelled))
    ensures !Harmful(m, PutBack(tag, cancelled)) ==> Served(AfterPutBack(m, tag, cancelled))
    ensures Harmful(m, PutBack(tag, cancelled)) ==> Strands(m, PutBack(tag, cancelled))
  {
    var n, s := AfterPutBack(m, tag, cancelled), m.y.deliveries[tag].message;
    if n.line != m.line {
      forall t | Afloat(m, t) ensures Afloat(n, t) { ReturnedAfloat(m, tag, cancelled, t); }
      StillServed(m, n);
    } else {
      forall t ensures Afloat(m, t) && (t != s || !OnHand(m.y, tag)) ==> Afloat(n, t)
               ensures Afloat(n, t) ==> Afloat(m, t) { DetachedAfloat(m, n, tag, t); }
      if OnHand(m.y, tag) && Awaited(m.y, s) {
        DroppedGone(m, tag, cancelled);
        LeftWithout(m, n, s);
      } else {
        StillServed(m, n);
      }
    }
  }

  // ------------------------------------------------------------------ every step

  /** A step keeps every reported publication served exactly when it is not harmful, and a harmful one leaves its
      job without any message. */
  lemma StepExact(m: Mem, a: MemAct)
    requires Together(m) && Served(m) && Can(m, a)
    ensures Served(MemNext(m, a)) <==> !Harmful(m, a)
    ensures Harmful(m, a) ==> Strands(m, a)
  {
    match a
    case Outside(act) => OutsideServed(m, act);
    case Begin(c, at) => BeginServed(m, c, at);
    case Finish(j, cancelled) => FinishServed(m, j, cancelled);
    case Take(tag, handedOver) => TakeServed(m, tag, handedOver);
    case Dismiss(tag, dead) => DismissServed(m, tag, dead);
    case PutBack(tag, cancelled) => PutBackServed(m, tag, cancelled);
    case Shut => StillServed(m, MemNext(m, a));
  }
}
