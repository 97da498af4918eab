/** The protocol over the in-memory queue: the same schedulers and workers, with the bounded buffer and its set
    of live identifiers in place of the broker. */
module MemoryProtocol {
  import opened Identifiers
  import opened Model
  import opened StoreSpec
  import opened Runs
  import opened Protocol
  import opened ProtocolInvariants
  import Queues = MemoryQueue

  /** A publication between its two halves. */
  datatype Entry = Entry(claim: Claim, message: Queues.JobMessage)

  /** `y` holds the store, the claims, the deliveries and, as history, which message was sent under which claim;
      there are no reconcilers, and `y.published` are the tokens whose publication was reported as successful.
      `line` lists the messages of the buffer, `handed` what each worker was given. */
  datatype Mem = Mem(
    y: Sys,
    q: Queues.Queue,
    line: seq<Message>,
    entering: map<ID, Entry>,
    handed: map<nat, Queues.JobMessage>)

  datatype MemAct =
    | Outside(act: Act)                            // a step that does not involve the queue
    | Begin(claim: Claim, at: Time)
    | Finish(job: ID, cancelled: bool)
    | Take(tag: nat, handedOver: bool)
    | Dismiss(tag: nat, dead: bool)                 // acknowledged, or rejected for good
    | PutBack(tag: nat, cancelled: bool)
    | Shut

  function MemInit(caps: Caps, maxAttempts: nat, bufferSize: nat): Mem {
    Mem(Init(caps, maxAttempts, {}), Queues.NewQueue(bufferSize, maxAttempts), [], map[], map[])
  }

  /** What the scheduler publishes for a claim. */
  function JobMessageFor(c: Claim, at: Time): Queues.JobMessage {
    Queues.JobMessage(c.job, c.monitor, c.attempt + 1, at)
  }

  predicate Bypasses(act: Act) {
    || act.Api? || act.ClaimDue? || act.Confirm? || act.Release?
    || act.Read? || act.Grant? || act.Report? || act.GiveUp? || act.Bury?
  }

  ghost predicate Can(m: Mem, a: MemAct) {
    match a
    case Outside(act) => Bypasses(act) && CanStep(m.y, act)
    case Begin(c, _) => c in m.y.claims
    case Finish(j, _) => j in m.entering
    case Take(tag, _) => tag !in m.y.deliveries && m.q.jobs != [] && m.line != []
    case Dismiss(tag, _) => Allowed(m.y, Settle(tag)) && tag in m.handed
    case PutBack(tag, _) => Allowed(m.y, Requeue(tag)) && tag in m.handed
    case Shut => true
  }

  /** The delivery is settled. */
  function Detached(y: Sys, tag: nat): Sys
    requires tag in y.deliveries
  {
    y.(deliveries := y.deliveries[tag := y.deliveries[tag].(attached := false)])
  }

  function AfterBegin(m: Mem, c: Claim, at: Time): Mem {
    var (t, r) := Queues.Begin(m.q, JobMessageFor(c, at));
    match r
    case Accepted => m.(q := t, entering := m.entering[c.job := Entry(c, JobMessageFor(c, at))])
    case AlreadyLive => m.(y := m.y.(published := m.y.published + {c.token}))
    case _ => m
  }

  function AfterFinish(m: Mem, j: ID, cancelled: bool): Mem
    requires j in m.entering
  {
    var e := m.entering[j];
    var (t, r) := Queues.Finish(m.q, e.message, cancelled);
    var n := m.(q := t, entering := m.entering - {j});
    if r.Accepted? then n.(y := Enqueued(m.y, e.claim), line := m.line + [MessageFor(e.claim)]) else n
  }

  function AfterTake(m: Mem, tag: nat, handedOver: bool): Mem
    requires m.q.jobs != [] && m.line != []
  {
    var n := m.(q := Queues.Receive(m.q, handedOver).0, line := m.line[1..]);
    if handedOver then n.(y := Handed(m.y, tag, m.line[0]), handed := m.handed[tag := m.q.jobs[0]])
    else n.(y := m.y.(ready := m.y.ready - multiset{m.line[0]}))
  }

  function AfterPutBack(m: Mem, tag: nat, cancelled: bool): Mem
    requires tag in m.y.deliveries && tag in m.handed
  {
    var (t, r) := Queues.Requeue(m.q, m.handed[tag], cancelled);
    if r.Accepted? then m.(q := t, y := Returned(m.y, tag), line := m.line + [m.y.deliveries[tag].message])
    else m.(q := t, y := Detached(m.y, tag))
  }

  ghost function MemNext(m: Mem, a: MemAct): Mem
    requires Can(m, a)
  {
    match a
    case Outside(act) => m.(y := Next(m.y, act))
    case Begin(c, at) => AfterBegin(m, c, at)
    case Finish(j, cancelled) => AfterFinish(m, j, cancelled)
    case Take(tag, handedOver) => AfterTake(m, tag, handedOver)
    case Dismiss(tag, dead) =>
      m.(q := if dead then Queues.Nack(m.q, m.handed[tag], false, false).0 else Queues.Ack(m.q, m.handed[tag]),
         y := Detached(m.y, tag))
    case PutBack(tag, cancelled) => AfterPutBack(m, tag, cancelled)
    case Shut => m.(q := m.q.(closed := true))
  }

  // ------------------------------------------------------------------ queue and protocol together

  predicate Carries(s: Message, jm: Queues.JobMessage) {
    jm.job == s.job && jm.monitor == s.monitor && jm.attempt == s.attempt
  }

  ghost predicate LineAgrees(line: seq<Message>, jobs: seq<Queues.JobMessage>, ready: multiset<Message>) {
    && |line| == |jobs| && ready == multiset(line)
    && (forall i :: 0 <= i < |line| ==> Carries(line[i], jobs[i]))
  }

  ghost predicate EntriesAgree(entering: map<ID, Entry>, publishing: set<ID>, claims: set<Claim>) {
    && entering.Keys == publishing
    && (forall j :: j in entering ==>
          entering[j].claim.job == j && entering[j].claim in claims
          && Carries(MessageFor(entering[j].claim), entering[j].message))
  }

  predicate Unsettled(deliveries: map<nat, Delivery>, tag: nat) { tag in deliveries && deliveries[tag].attached }

  /** A worker has the job's message and has not settled it. */
  predicate HeldBy(deliveries: map<nat, Delivery>, tag: nat, j: ID) {
    Unsettled(deliveries, tag) && deliveries[tag].message.job == j
  }

  ghost predicate HandsAgree(deliveries: map<nat, Delivery>, handed: map<nat, Queues.JobMessage>, unsettled: set<ID>) {
    && (forall t :: Unsettled(deliveries, t) ==>
          t in handed && Carries(deliveries[t].message, handed[t]) && handed[t].job in unsettled)
    && (forall t, u :: Unsettled(deliveries, t) && Unsettled(deliveries, u) ==>
          (deliveries[t].message.job == deliveries[u].message.job ==> t == u))
    && (forall j :: j in unsettled ==> exists t :: HeldBy(deliveries, t, j))
  }

  /** What the store, the claims and the reads promise whatever happens to messages. */
  ghost predicate Loose(y: Sys) {
    y.present && y.reconcilers == map[] && Sound(y.(present := false))
  }

  datatype Bond = Conservation | Line | Entries | Hands | Promises

  ghost predicate BondHolds(m: Mem, b: Bond) {
    match b
    case Conservation => Queues.Conserved(m.q)
    case Line => LineAgrees(m.line, m.q.jobs, m.y.ready)
    case Entries => EntriesAgree(m.entering, m.q.publishing, m.y.claims)
    case Hands => HandsAgree(m.y.deliveries, m.handed, m.q.unsettled)
    case Promises => Loose(m.y)
  }

  ghost predicate Together(m: Mem) {
    forall b :: BondHolds(m, b)
  }

  lemma BondOf(m: Mem, b: Bond)
    requires Together(m)
    ensures BondHolds(m, b)
  {
  }

  // ------------------------------------------------------------------ every step keeps them together

  /** A step outside the queue is a step of the protocol whether or not a broker queue exists. */
  lemma OutsideAllowed(y: Sys, act: Act)
    requires Bypasses(act) && CanStep(y, act)
    ensures OpOf(y.(present := false), act) == OpOf(y, act) && CanStep(y.(present := false), act)
  {
  }

  lemma OutsideNext(y: Sys, act: Act)
    requires Bypasses(act) && CanStep(y, act) && CanStep(y.(present := false), act)
    requires OpOf(y.(present := false), act) == OpOf(y, act)
    ensures Next(y.(present := false), act) == Next(y, act).(present := false)
    ensures Next(y, act).present == y.present && Next(y, act).reconcilers == y.reconcilers
  {
  }

  lemma OutsideLoose(y: Sys, act: Act)
    requires Loose(y) && Bypasses(act) && CanStep(y, act)
    ensures Loose(Next(y, act))
  {
    OutsideAllowed(y, act);
    OutsideNext(y, act);
    StepSound(y.(present := false), act);
  }

  ghost predicate SameMessages(y: Sys, z: Sys) {
    && z.ready == y.ready && z.deliveries.Keys == y.deliveries.Keys && y.claims <= z.claims
    && (forall t :: t in y.deliveries ==>
          z.deliveries[t].message == y.deliveries[t].message && z.deliveries[t].attached == y.deliveries[t].attached)
  }

  /** Such a step leaves every message where it is. */
  lemma OutsideKeepsMessages(y: Sys, act: Act)
    requires Bypasses(act) && CanStep(y, act)
    ensures SameMessages(y, Next(y, act))
  {
    var st := if OpOf(y, act).Some? then Do(y.st, OpOf(y, act).value) else y.st;
    assert Next(y, act) == After(y, act, st);
  }

  lemma SameMessagesHeld(y: Sys, z: Sys, handed: map<nat, Queues.JobMessage>, unsettled: set<ID>)
    requires HandsAgree(y.deliveries, handed, unsettled) && SameMessages(y, z)
    ensures HandsAgree(z.deliveries, handed, unsettled)
  {
    forall j | j in unsettled ensures exists t :: HeldBy(z.deliveries, t, j) {
      var t :| HeldBy(y.deliveries, t, j);
      assert HeldBy(z.deliveries, t, j);
    }
  }

  lemma SameMessagesTogether(m: Mem, z: Sys)
    requires Together(m) && SameMessages(m.y, z) && Loose(z)
    ensures Together(m.(y := z))
  {
    forall b ensures BondHolds(m.(y := z), b) {
      if b != Promises { BondOf(m, b); }
      if b == Hands { SameMessagesHeld(m.y, z, m.handed, m.q.unsettled); }
    }
  }

  lemma ReportedLoose(y: Sys, token: ID)
    requires Loose(y) && token in y.st.tokens
    ensures Loose(y.(published := y.published + {token}))
  {
    var z, w := y.(present := false), y.(present := false, published := y.published + {token});
    forall p ensures PromiseKept(w, p) {
      PromiseOf(z, p);
      match p
      case ClaimP => forall c | c in w.claims ensures ClaimKnown(w, c) { assert ClaimKnown(z, c); }
      case _ =>
    }
  }

  lemma ClaimDrawn(y: Sys, c: Claim)
    requires Loose(y) && c in y.claims
    ensures ClaimKnown(y, c)
  {
    PromiseOf(y.(present := false), ClaimP);
    assert ClaimKnown(y.(present := false), c);
  }

  lemma BeginTogether(m: Mem, c: Claim, at: Time)
    requires Together(m) && c in m.y.claims
    ensures Together(AfterBegin(m, c, at))
  {
    BondOf(m, Promises);
    if Queues.Begin(m.q, JobMessageFor(c, at)).1.AlreadyLive? {
      ClaimDrawn(m.y, c);
      ReportedLoose(m.y, c.token);
      SameMessagesTogether(m, m.y.(published := m.y.published + {c.token}));
    } else {
      BondOf(m, Conservation);
      Queues.BeginConserves(m.q, JobMessageFor(c, at));
      forall b ensures BondHolds(AfterBegin(m, c, at), b) { BondOf(m, b); }
    }
  }

  lemma EnqueuedLoose(y: Sys, c: Claim)
    requires Loose(y) && c in y.claims
    ensures Loose(Enqueued(y, c))
  {
    EnqueueSound(y.(present := false), c);
    assert Enqueued(y, c).(present := false) == Enqueued(y.(present := false), c);
  }

  /** A message is appended to the buffer and to the line. */
  lemma LineGrows(line: seq<Message>, jobs: seq<Queues.JobMessage>, ready: multiset<Message>, s: Message,
                  jm: Queues.JobMessage)
    requires LineAgrees(line, jobs, ready) && Carries(s, jm)
    ensures LineAgrees(line + [s], jobs + [jm], ready + multiset{s})
  {
  }

  lemma FinishLine(m: Mem, j: ID, cancelled: bool)
    requires BondHolds(m, Line) && BondHolds(m, Entries) && j in m.entering
    ensures BondHolds(AfterFinish(m, j, cancelled), Line)
  {
    var e := m.entering[j];
    LineGrows(m.line, m.q.jobs, m.y.ready, MessageFor(e.claim), e.message);
  }

  lemma FinishTogether(m: Mem, j: ID, cancelled: bool)
    requires Together(m) && j in m.entering
    ensures Together(AfterFinish(m, j, cancelled))
  {
    BondOf(m, Entries);
    forall b ensures BondHolds(AfterFinish(m, j, cancelled), b) {
      BondOf(m, b);
      match b
      case Conservation => Queues.FinishConserves(m.q, m.entering[j].message, cancelled);
      case Line => FinishLine(m, j, cancelled);
      case Promises => EnqueuedLoose(m.y, m.entering[j].claim);
      case _ =>
    }
  }

  lemma HandedLoose(y: Sys, tag: nat, s: Message)
    requires Loose(y) && tag !in y.deliveries && s in y.ready
    ensures Loose(Handed(y, tag, s))
  {
    DeliverSound(y.(present := false), tag, s);
    assert Handed(y, tag, s).(present := false) == Handed(y.(present := false), tag, s);
  }

  /** Without a broker queue nothing rests on a message: it may be gone, or its delivery change hands. */
  lemma FewerLoose(y: Sys, w: Sys)
    requires Loose(y) && w == y.(ready := w.ready, deliveries := w.deliveries)
    requires w.ready <= y.ready && w.deliveries.Keys == y.deliveries.Keys
    requires forall t :: t in y.deliveries ==> w.deliveries[t] == y.deliveries[t].(attached := w.deliveries[t].attached)
    ensures Loose(w)
  {
    var z := y.(present := false);
    PromiseOf(z, MessageP); PromiseOf(z, ReadP); PromiseOf(z, LeaseP);
    TransportSound(z, w.(present := false));
  }

  lemma TakeLoose(m: Mem, tag: nat, handedOver: bool)
    requires BondHolds(m, Line) && Loose(m.y) && Can(m, Take(tag, handedOver))
    ensures Loose(AfterTake(m, tag, handedOver).y)
  {
    assert m.line[0] in m.y.ready;
    if handedOver { HandedLoose(m.y, tag, m.line[0]); } else { FewerLoose(m.y, AfterTake(m, tag, handedOver).y); }
  }

  lemma LineShrinks(line: seq<Message>, jobs: seq<Queues.JobMessage>, ready: multiset<Message>)
    requires LineAgrees(line, jobs, ready) && line != []
    ensures LineAgrees(line[1..], jobs[1..], ready - multiset{line[0]})
  {
    assert line == [line[0]] + line[1..];
  }

  /** A message whose identifier nobody holds is handed to a worker. */
  lemma HandAdded(deliveries: map<nat, Delivery>, handed: map<nat, Queues.JobMessage>, unsettled: set<ID>,
                  tag: nat, d: Delivery, jm: Queues.JobMessage)
    requires HandsAgree(deliveries, handed, unsettled) && tag !in deliveries
    requires d.attached && Carries(d.message, jm) && jm.job !in unsettled
    ensures HandsAgree(deliveries[tag := d], handed[tag := jm], unsettled + {jm.job})
  {
    var after := deliveries[tag := d];
    forall j | j in unsettled + {jm.job} ensures exists t :: HeldBy(after, t, j) {
      if j in unsettled {
        var t :| HeldBy(deliveries, t, j);
        assert HeldBy(after, t, j);
      } else {
        assert HeldBy(after, tag, j);
      }
    }
  }

  lemma TakeHands(m: Mem, tag: nat, handedOver: bool)
    requires Queues.Conserved(m.q) && BondHolds(m, Line) && BondHolds(m, Hands)
    requires m.line != [] && tag !in m.y.deliveries
    ensures BondHolds(AfterTake(m, tag, handedOver), Hands)
  {
    var jm := m.q.jobs[0];
    assert jm in m.q.jobs && jm.job in Queues.Ids(m.q.jobs);
    if handedOver {
      HandAdded(m.y.deliveries, m.handed, m.q.unsettled, tag, Delivery(m.line[0], true, None, false, None), jm);
    }
  }

  lemma TakeTogether(m: Mem, tag: nat, handedOver: bool)
    requires Together(m) && Can(m, Take(tag, handedOver))
    ensures Together(AfterTake(m, tag, handedOver))
  {
    BondOf(m, Line); BondOf(m, Conservation);
    forall b ensures BondHolds(AfterTake(m, tag, handedOver), b) {
      BondOf(m, b);
      match b
      case Conservation => Queues.ReceiveConserves(m.q, handedOver);
      case Line => LineShrinks(m.line, m.q.jobs, m.y.ready);
      case Hands => TakeHands(m, tag, handedOver);
      case Promises => TakeLoose(m, tag, handedOver);
      case Entries =>
    }
  }

  lemma DetachedLoose(y: Sys, tag: nat)
    requires Loose(y) && tag in y.deliveries
    ensures Loose(Detached(y, tag))
  {
    FewerLoose(y, Detached(y, tag));
  }

  /** A delivery is settled, and its identifier is no longer counted as unsettled. */
  lemma HandSettled(y: Sys, handed: map<nat, Queues.JobMessage>, unsettled: set<ID>, tag: nat)
    requires HandsAgree(y.deliveries, handed, unsettled) && Unsettled(y.deliveries, tag)
    ensures HandsAgree(Detached(y, tag).deliveries, handed, unsettled - {handed[tag].job})
  {
    var after := Detached(y, tag).deliveries;
    forall j | j in unsettled - {handed[tag].job} ensures exists t :: HeldBy(after, t, j) {
      var t :| HeldBy(y.deliveries, t, j);
      assert HeldBy(after, t, j);
    }
  }

  lemma DismissTogether(m: Mem, tag: nat, dead: bool)
    requires Together(m) && Can(m, Dismiss(tag, dead))
    ensures Together(MemNext(m, Dismiss(tag, dead)))
  {
    var n := MemNext(m, Dismiss(tag, dead));
    BondOf(m, Hands);
    assert Unsettled(m.y.deliveries, tag);
    forall b ensures BondHolds(n, b) {
      BondOf(m, b);
      match b
      case Conservation => Queues.NackConserves(m.q, m.handed[tag], false, false);
      case Hands => HandSettled(m.y, m.handed, m.q.unsettled, tag);
      case Promises => DetachedLoose(m.y, tag);
      case _ =>
    }
  }

  lemma ReturnedLoose(y: Sys, tag: nat)
    requires Loose(y) && tag in y.deliveries
    ensures Loose(Returned(y, tag))
  {
    RequeueSound(y.(present := false), tag);
    assert Returned(y, tag).(present := false) == Returned(y.(present := false), tag);
  }

  lemma PutBackLine(m: Mem, tag: nat, cancelled: bool)
    requires BondHolds(m, Line) && BondHolds(m, Hands) && Unsettled(m.y.deliveries, tag)
    ensures BondHolds(AfterPutBack(m, tag, cancelled), Line)
  {
    LineGrows(m.line, m.q.jobs, m.y.ready, m.y.deliveries[tag].message, m.handed[tag]);
  }

  lemma PutBackTogether(m: Mem, tag: nat, cancelled: bool)
    requires Together(m) && Can(m, PutBack(tag, cancelled))
    ensures Together(AfterPutBack(m, tag, cancelled))
  {
    var n := AfterPutBack(m, tag, cancelled);
    BondOf(m, Hands);
    assert Unsettled(m.y.deliveries, tag);
    BondOf(m, Promises);
    DetachedLoose(m.y, tag); ReturnedLoose(m.y, tag);
    forall b | b != Promises ensures BondHolds(n, b) {
      BondOf(m, b);
      match b
      case Conservation => Queues.RequeueConserves(m.q, m.handed[tag], cancelled);
      case Line => PutBackLine(m, tag, cancelled);
      case Hands => HandSettled(m.y, m.handed, m.q.unsettled, tag);
      case Entries =>
    }
  }

  lemma MemStepTogether(m: Mem, a: MemAct)
    requires Together(m) && Can(m, a)
    ensures Together(MemNext(m, a))
  {
    match a
    case Outside(act) =>
      BondOf(m, Promises);
      OutsideLoose(m.y, act); OutsideKeepsMessages(m.y, act);
      SameMessagesTogether(m, Next(m.y, act));
    case Begin(c, at) => BeginTogether(m, c, at);
    case Finish(j, cancelled) => FinishTogether(m, j, cancelled);
    case Take(tag, handedOver) => TakeTogether(m, tag, handedOver);
    case Dismiss(tag, dead) => DismissTogether(m, tag, dead);
    case PutBack(tag, cancelled) => PutBackTogether(m, tag, cancelled);
    case Shut => forall b ensures BondHolds(MemNext(m, a), b) { BondOf(m, b); }
  }
}
