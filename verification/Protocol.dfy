/** The protocol around the store: schedulers that claim, publish and call back, workers that consume,
    check and settle, reconcilers that restore a deleted queue, and a broker that may lose it. Every
    interleaving is a sequence of these steps. */
module Protocol {
  import opened Identifiers
  import opened Model
  import opened StoreSpec
  import opened Runs

  /** A queued message. `token` is a history variable: the code does not transport it. */
  datatype Message = Message(job: ID, monitor: ID, attempt: nat, token: ID)

  /** A message handed to a worker. `attached`: the broker still holds it unsettled for that worker;
      `read`: what the worker read of the monitor; `verdict`: the store has answered the worker. */
  datatype Delivery = Delivery(message: Message, attached: bool, read: Option<Config>, verdict: bool,
                               lease: Option<Lease>)

  /** Where a reconciler stands in restoring the topology. Having reported the loss it waits for a handler run
      that takes effect after the report, its own or another thread's: that a report returns only then is
      LossRecovery.DeclareIsProtected. */
  datatype Phase =
    | Resting
    | SawQueue
    | AwaitsLock
    | Locked
    | LockedSawQueue
    | LockedMissing
    | LockedReported
    | LockedRecovered
  {
    predicate Missing() { LockedMissing? || LockedReported? || LockedRecovered? }
    predicate HoldsLock() { Locked? || LockedSawQueue? || Missing() }
    predicate Trusts() { SawQueue? || LockedSawQueue? }
  }

  datatype Sys = Sys(
    st: State,
    maxAttempts: nat,
    present: bool,                    // the main queue exists
    ready: multiset<Message>,
    deliveries: map<nat, Delivery>,
    claims: set<Claim>,               // publication claims ever handed to a scheduler
    published: set<ID>,               // tokens whose publication was accepted
    reconcilers: map<nat, Phase>)

  datatype Act =
    | Api(op: Op)                                         // create, update, delete, request
    | ClaimDue(op: Op)
    | Enqueue(claim: Claim)                               // the broker accepts the claim's message
    | Confirm(claim: Claim, now: Time)
    | Release(claim: Claim, now: Time)
    | RunHandler(now: Time)                               // some thread runs the topology loss handler
    | Deliver(tag: nat, message: Message)
    | Read(tag: nat)
    | Grant(tag: nat, token: ID, now: Time, timeout: int)
    | Report(tag: nat, statusCode: int, success: bool, incident: ID, now: Time)
    | GiveUp(tag: nat, now: Time, delay: nat, wall: Time)
    | Bury(tag: nat, now: Time, interval: nat, wall: Time)
    | Settle(tag: nat)                                    // acknowledged or dead-lettered
    | Requeue(tag: nat)                                   // returned, or its connection was lost
    | DropQueue
    | Look(who: nat)
    | Lock(who: nat)
    | LookAgain(who: nat)
    | ReportLoss(who: nat)
    | Declare(who: nat)
    | Leave(who: nat)                                     // done, failed or crashed: the lock is released

  function Init(caps: Caps, maxAttempts: nat, reconcilers: set<nat>): Sys {
    Sys(Initial(caps), maxAttempts, true, multiset{}, map[], {}, {}, map r | r in reconcilers :: Resting)
  }

  function MessageFor(c: Claim): Message { Message(c.job, c.monitor, c.attempt + 1, c.token) }

  /** The claims that a claim call hands out: one per record returned, for its token and attempt. */
  ghost function ClaimsOf(st: State, tokens: map<ID, ID>): set<Claim> {
    set j | j in st.store.jobs && st.store.jobs[j].publicationToken in st.tokens
            && st.store.jobs[j].publicationToken !in tokens ::
      Claim(j, st.store.jobs[j].monitor, st.store.jobs[j].attempt, st.store.jobs[j].publicationToken)
  }

  ghost function OpOf(y: Sys, act: Act): Option<Op> {
    match act
    case Api(op) => Some(op)
    case ClaimDue(op) => Some(op)
    case Confirm(c, now) => Some(Confirming(c, now))
    case Release(c, now) => Some(Releasing(c, now))
    case RunHandler(now) => Some(Recovering(now))
    case Grant(tag, token, now, timeout) =>
      if tag !in y.deliveries then None
      else var m := y.deliveries[tag].message; Some(Granting(m.monitor, m.job, m.attempt, token, now, timeout))
    case Report(tag, statusCode, success, incident, now) =>
      if tag !in y.deliveries || y.deliveries[tag].lease.None? || y.deliveries[tag].read.None? then None
      else
        var m := y.deliveries[tag].message;
        Some(Recording(CheckRecord(m.job, m.monitor, statusCode, success), y.deliveries[tag].lease.value,
                       y.deliveries[tag].read.value, incident, now))
    case GiveUp(tag, now, delay, wall) =>
      if tag !in y.deliveries || y.deliveries[tag].lease.None? then None
      else Some(Failing(y.deliveries[tag].lease.value, now, delay, wall))
    case Bury(tag, now, interval, wall) =>
      if tag !in y.deliveries || y.deliveries[tag].lease.None? then None
      else Some(Burying(y.deliveries[tag].lease.value, now, interval, wall))
    case _ => None
  }

  /** When the step can happen, apart from what its store operation needs. The assumptions about the
      broker are here: the recovery lock is exclusive, and the queue is not deleted between a
      reconciler's successful passive check and the declaration that follows it. */
  ghost predicate Allowed(y: Sys, act: Act) {
    match act
    case Api(op) => op.Creating? || op.Updating? || op.Deleting? || op.Requesting?
    case ClaimDue(op) => op.Claiming? && op.limit > 0 && op.maxAttempts == y.maxAttempts
    case Enqueue(c) => c in y.claims && y.present
    case Confirm(c, _) => c in y.claims && c.token in y.published
    case Release(c, _) => c in y.claims
    case RunHandler(_) => true
    case Deliver(tag, m) => tag !in y.deliveries && m in y.ready && y.present
    case Read(tag) => tag in y.deliveries && y.deliveries[tag].read.None? && !y.deliveries[tag].verdict
    case Grant(tag, _, _, _) => tag in y.deliveries && y.deliveries[tag].read.Some? && !y.deliveries[tag].verdict
    case Report(tag, _, _, _, _) => tag in y.deliveries && y.deliveries[tag].lease.Some? && y.deliveries[tag].read.Some?
    case GiveUp(tag, _, _, _) =>
      tag in y.deliveries && y.deliveries[tag].lease.Some? && y.deliveries[tag].message.attempt < y.maxAttempts
    case Bury(tag, _, _, _) =>
      tag in y.deliveries && y.deliveries[tag].lease.Some? && y.deliveries[tag].message.attempt >= y.maxAttempts
    case Settle(tag) => tag in y.deliveries && y.deliveries[tag].attached && y.deliveries[tag].verdict
    case Requeue(tag) => tag in y.deliveries && y.deliveries[tag].attached
    case DropQueue => y.present && forall r :: r in y.reconcilers ==> !y.reconcilers[r].Trusts()
    case Look(r) => r in y.reconcilers && y.reconcilers[r].Resting?
    case Lock(r) =>
      && r in y.reconcilers && y.reconcilers[r].AwaitsLock?
      && (forall q :: q in y.reconcilers ==> !y.reconcilers[q].HoldsLock())
    case LookAgain(r) => r in y.reconcilers && y.reconcilers[r].Locked?
    case ReportLoss(r) => r in y.reconcilers && y.reconcilers[r].LockedMissing?
    case Declare(r) => r in y.reconcilers && (y.reconcilers[r].Trusts() || y.reconcilers[r].LockedRecovered?)
    case Leave(r) => r in y.reconcilers
  }

  ghost predicate CanStep(y: Sys, act: Act) {
    Allowed(y, act) && (OpOf(y, act).Some? ==> Enabled(y.st, OpOf(y, act).value))
  }

  function SetPhase(y: Sys, r: nat, phase: Phase): Sys { y.(reconcilers := y.reconcilers[r := phase]) }

  /** A handler run covers every loss reported before it. */
  function Covered(reconcilers: map<nat, Phase>): map<nat, Phase> {
    map r | r in reconcilers :: if reconcilers[r].LockedReported? then LockedRecovered else reconcilers[r]
  }

  function Detach(deliveries: map<nat, Delivery>): map<nat, Delivery> {
    map t | t in deliveries :: deliveries[t].(attached := false)
  }

  /** The broker accepts the message of a claim. */
  function Enqueued(y: Sys, c: Claim): Sys {
    y.(ready := y.ready + multiset{MessageFor(c)}, published := y.published + {c.token})
  }

  /** The broker hands a message to a worker. */
  function Handed(y: Sys, tag: nat, m: Message): Sys {
    y.(ready := y.ready - multiset{m}, deliveries := y.deliveries[tag := Delivery(m, true, None, false, None)])
  }

  /** A delivered message goes back into the queue. */
  function Returned(y: Sys, tag: nat): Sys
    requires tag in y.deliveries
  {
    y.(deliveries := y.deliveries[tag := y.deliveries[tag].(attached := false)],
       ready := y.ready + multiset{y.deliveries[tag].message})
  }

  function Dropped(y: Sys): Sys { y.(present := false, ready := multiset{}, deliveries := Detach(y.deliveries)) }

  /** The step itself, once the store operation (if any) has produced `st`. */
  ghost function After(y: Sys, act: Act, st: State): Sys
    requires Allowed(y, act)
  {
    var z := y.(st := st);
    match act
    case ClaimDue(_) => z.(claims := y.claims + ClaimsOf(st, y.st.tokens))
    case Enqueue(c) => Enqueued(z, c)
    case Deliver(tag, m) => Handed(z, tag, m)
    case Read(tag) =>
      var d := y.deliveries[tag];
      z.(deliveries := y.deliveries[tag :=
           if d.message.monitor in st.store.monitors then d.(read := Some(st.store.monitors[d.message.monitor].config))
           else d.(verdict := true)])
    case Grant(tag, token, now, timeout) =>
      var m := y.deliveries[tag].message;
      var r := MarkProcessing(y.st.store, m.monitor, m.job, m.attempt, token, now, timeout).1;
      z.(deliveries := y.deliveries[tag := y.deliveries[tag].(verdict := true,
                                                              lease := if r.Success? then Some(r.value) else None)])
    case Settle(tag) => z.(deliveries := y.deliveries[tag := y.deliveries[tag].(attached := false)])
    case Requeue(tag) => Returned(z, tag)
    case DropQueue => Dropped(z)
    case Look(r) => SetPhase(z, r, if y.present then SawQueue else AwaitsLock)
    case Lock(r) => SetPhase(z, r, Locked)
    case LookAgain(r) => SetPhase(z, r, if y.present then LockedSawQueue else LockedMissing)
    case ReportLoss(r) => SetPhase(z, r, LockedReported)
    case RunHandler(_) => z.(reconcilers := Covered(y.reconcilers))
    case Declare(r) => SetPhase(z.(present := true), r, Resting)
    case Leave(r) => SetPhase(z, r, Resting)
    case _ => z
  }

  ghost function Next(y: Sys, act: Act): Sys
    requires CanStep(y, act)
  {
    var op := OpOf(y, act);
    After(y, act, if op.Some? then Do(y.st, op.value) else y.st)
  }

  // ------------------------------------------------------------------ what every step keeps

  ghost predicate InHand(y: Sys, tag: nat, token: ID) {
    && tag in y.deliveries && y.deliveries[tag].attached && !y.deliveries[tag].verdict
    && y.deliveries[tag].message.token == token
  }

  /** A message under the token is in the queue, or with a worker the store has not answered yet. */
  ghost predicate InFlight(y: Sys, token: ID) {
    (exists m :: m in y.ready && m.token == token) || (exists tag :: InHand(y, tag, token))
  }

  predicate ClaimKnown(y: Sys, c: Claim) {
    && c.token in y.st.tokens && y.st.tokens[c.token] == c.job && Issued(y.st, c.job) && c.attempt < y.maxAttempts
    && (c.job in y.st.store.jobs ==>
          && y.st.store.jobs[c.job].monitor == c.monitor
          && (y.st.store.jobs[c.job].Published() && y.st.store.jobs[c.job].publicationToken == c.token ==>
                y.st.store.jobs[c.job].attempt == c.attempt))
  }

  ghost predicate ClaimsKnown(y: Sys) {
    && (forall c :: c in y.claims ==> ClaimKnown(y, c))
    && (forall k :: k in y.published ==> k in y.st.tokens)
  }

  predicate MessageKnown(y: Sys, m: Message) {
    m.attempt >= 1 && Claim(m.job, m.monitor, m.attempt - 1, m.token) in y.claims
  }

  ghost predicate MessagesKnown(y: Sys) {
    && (forall m :: m in y.ready ==> MessageKnown(y, m))
    && (forall t :: t in y.deliveries ==> MessageKnown(y, y.deliveries[t].message))
  }

  /** Nothing that was published and still awaits processing has been lost. */
  ghost predicate NothingLost(y: Sys) {
    && (y.present ==> forall j :: j in y.st.store.jobs && y.st.store.jobs[j].Published()
                                  && y.st.store.jobs[j].publicationToken in y.published ==>
                                    InFlight(y, y.st.store.jobs[j].publicationToken))
    && (forall j :: j in y.st.store.jobs && y.st.store.jobs[j].status.Queued? ==>
          y.st.store.jobs[j].publicationToken in y.published)
  }

  /** The lock is held once, trust is justified, and once recovery ran nothing published is waiting. */
  ghost predicate PhasesSound(y: Sys) {
    && (forall r, q :: r in y.reconcilers && q in y.reconcilers ==>
          (y.reconcilers[r].HoldsLock() && y.reconcilers[q].HoldsLock() ==> r == q))
    && (forall r :: r in y.reconcilers && y.reconcilers[r].Trusts() ==> y.present)
    && (forall r :: r in y.reconcilers && y.reconcilers[r].Missing() ==> !y.present)
    && ((exists r :: r in y.reconcilers && y.reconcilers[r].LockedRecovered?) ==>
          forall j :: j in y.st.store.jobs && y.st.store.jobs[j].Published() ==>
            y.st.store.jobs[j].publicationToken !in y.published)
  }

  predicate ReadCurrent(y: Sys, m: Message, read: Config) {
    m.job in y.st.store.jobs && !y.st.store.jobs[m.job].Terminal() ==>
      m.monitor in y.st.store.monitors && y.st.store.monitors[m.monitor].config == read
  }

  /** What a worker read of the monitor is still in force while its job is alive. */
  ghost predicate ReadsCurrent(y: Sys) {
    forall t :: t in y.deliveries && y.deliveries[t].read.Some? ==>
      ReadCurrent(y, y.deliveries[t].message, y.deliveries[t].read.value)
  }

  ghost predicate LeasesKnown(y: Sys) {
    forall t :: t in y.deliveries && y.deliveries[t].lease.Some? ==>
      var l := y.deliveries[t].lease.value;
      l.job == y.deliveries[t].message.job && l.monitor == y.deliveries[t].message.monitor
      && l.attempt == y.deliveries[t].message.attempt
  }

  /** Attempts stay within the maximum, and strictly below it outside processing. */
  ghost predicate AttemptsBounded(y: Sys) {
    && (forall j :: j in y.st.store.jobs ==>
          && y.st.store.jobs[j].attempt <= y.maxAttempts
          && (y.st.store.jobs[j].Published() || y.st.store.jobs[j].status.Failed? ==>
                y.st.store.jobs[j].attempt < y.maxAttempts))
    && (forall j :: Grants(y.st.log, j) <= y.maxAttempts)
  }

  /** Every recorded result was obtained with the configuration in force when it was recorded. */
  ghost predicate UsedInForce(log: Log) {
    match log
    case Start => true
    case Then(past, e) => UsedInForce(past) && (e.Recorded? ==> e.used == e.inForce)
  }

  datatype Promise = StoreGood | ClaimP | MessageP | LossP | PhaseP | ReadP | LeaseP | AttemptP | LogP

  ghost predicate PromiseKept(y: Sys, p: Promise) {
    match p
    case StoreGood => Good(y.st) && y.maxAttempts > 0
    case ClaimP => ClaimsKnown(y)
    case MessageP => MessagesKnown(y)
    case LossP => NothingLost(y)
    case PhaseP => PhasesSound(y)
    case ReadP => ReadsCurrent(y)
    case LeaseP => LeasesKnown(y)
    case AttemptP => AttemptsBounded(y)
    case LogP => UsedInForce(y.st.log)
  }

  ghost predicate Sound(y: Sys) {
    forall p :: PromiseKept(y, p)
  }

  lemma PromiseOf(y: Sys, p: Promise)
    requires Sound(y)
    ensures PromiseKept(y, p)
  {
  }

  lemma InitSound(caps: Caps, maxAttempts: nat, reconcilers: set<nat>)
    requires caps.Valid() && maxAttempts > 0
    ensures Sound(Init(caps, maxAttempts, reconcilers))
  {
    InitialGood(caps);
  }
}
