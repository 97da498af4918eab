/** The threads of one process reporting topology losses, run together with the protocol: a report that has returned
    is a reconciler whose loss is recovered. */
module LossRecovery {
  import opened Identifiers
  import opened Model
  import opened StoreSpec
  import opened Runs
  import opened Protocol
  import T = Topology

  /** `RecordLoss`, `TakeEffect` and `Resume` are steps of both: a reconciler's thread records a loss, a thread's
      handler run takes effect in the store, and a reconciler whose report has returned without error goes on to
      declare the queue. */
  datatype JointAct =
    | RecordLoss(t: nat)
    | TakeEffect(t: nat, now: Time)
    | Resume(t: nat)
    | Thread(move: T.Move)
    | System(act: Protocol.Act)

  predicate Reporting(l: T.Losses, r: nat) { r in l.threads && l.threads[r].Reporting() }

  /** The step of a reconciler other than reporting. */
  predicate MovesOn(act: Protocol.Act, r: nat) {
    (act.Look? || act.Lock? || act.LookAgain? || act.Declare? || act.Leave?) && act.who == r
  }

  /** What the code itself tests: a report that returned may be followed by the declaration, whatever the protocol
      asks for; a reconciler whose thread is reporting makes no other step. */
  ghost predicate CanJointly(l: T.Losses, y: Sys, a: JointAct) {
    match a
    case RecordLoss(t) => T.Can(l, T.Record(t)) && CanStep(y, ReportLoss(t))
    case TakeEffect(t, now) => T.Can(l, T.Apply(t)) && CanStep(y, RunHandler(now))
    case Resume(t) => Reporting(l, t) && l.threads[t].Returned?
    case Thread(m) => T.Can(l, m) && !m.Record? && !m.Apply? && !(m.Leave? && Reporting(l, m.t))
    case System(act) =>
      && CanStep(y, act) && !(act.ReportLoss? && act.who in l.threads)
      && (forall r :: Reporting(l, r) ==> !MovesOn(act, r))
  }

  ghost function NextLosses(l: T.Losses, y: Sys, a: JointAct): T.Losses
    requires CanJointly(l, y, a)
  {
    match a
    case RecordLoss(t) => T.Do(l, T.Record(t))
    case TakeEffect(t, _) => T.Do(l, T.Apply(t))
    case Resume(t) => T.Do(l, T.Leave(t))
    case Thread(m) => T.Do(l, m)
    case System(_) => l
  }

  ghost predicate SysMoves(l: T.Losses, y: Sys, a: JointAct, z: Sys)
    requires CanJointly(l, y, a)
  {
    match a
    case RecordLoss(t) => z == Next(y, ReportLoss(t))
    case TakeEffect(_, now) => z == Next(y, RunHandler(now))
    case Resume(t) => CanStep(y, Declare(t)) ==> z == Next(y, Declare(t))
    case Thread(_) => z == y
    case System(act) => z == Next(y, act)
  }

  /** A thread that is reporting is a reconciler that has reported, and once a handler run has taken effect since,
      one whose loss is recovered. */
  ghost predicate Linked(l: T.Losses, y: Sys) {
    forall r :: Reporting(l, r) ==>
      && r in y.reconcilers && (y.reconcilers[r].LockedReported? || y.reconcilers[r].LockedRecovered?)
      && (T.Effective(l, l.threads[r].mine) ==> y.reconcilers[r].LockedRecovered?)
  }

  /** A report that has returned was followed by a handler run that took effect: its reconciler may declare. */
  lemma ReturnedMayDeclare(l: T.Losses, y: Sys, t: nat)
    requires T.Sound(l) && Linked(l, y) && Reporting(l, t) && l.threads[t].Returned?
    ensures y.reconcilers[t].LockedRecovered? && CanStep(y, Declare(t))
  {
    assert T.StageSound(l, l.threads[t]);
    assert T.Effective(l, l.threads[t].mine);
  }

  lemma LossesMove(l: T.Losses, y: Sys, a: JointAct)
    requires T.Sound(l) && CanJointly(l, y, a)
    ensures T.Sound(NextLosses(l, y, a))
  {
    match a
    case RecordLoss(t) => T.StepSound(l, T.Record(t));
    case TakeEffect(t, _) => T.StepSound(l, T.Apply(t));
    case Resume(t) => T.StepSound(l, T.Leave(t));
    case Thread(m) => T.StepSound(l, m);
    case System(_) =>
  }

  /** What a generation's recovery rests on changes only by a new effect. */
  lemma EffectiveBefore(l: T.Losses, m: T.Move, g: nat)
    requires T.Can(l, m) && !m.Apply? && 1 <= g <= l.recorded && T.Effective(T.Do(l, m), g)
    ensures T.Effective(l, g)
  {
    var e :| e in T.Do(l, m).effects && e > T.Do(l, m).at[g];
    assert e in l.effects;
  }

  /** A new loss is not yet recovered from, and the recovery of others does not change. */
  lemma RecordEffective(l: T.Losses, t: nat, r: nat)
    requires T.Sound(l) && T.Can(l, T.Record(t)) && Reporting(T.Do(l, T.Record(t)), r)
    requires T.Effective(T.Do(l, T.Record(t)), T.Do(l, T.Record(t)).threads[r].mine)
    ensures r != t && T.Effective(l, l.threads[r].mine)
  {
    var k := T.Do(l, T.Record(t));
    var e :| e in k.effects && e > k.at[k.threads[r].mine];
    assert r != t;
    assert T.StageSound(l, l.threads[r]);
    EffectiveBefore(l, T.Record(t), k.threads[r].mine);
  }

  lemma ReportLinked(l: T.Losses, y: Sys, t: nat)
    requires T.Sound(l) && Linked(l, y) && CanJointly(l, y, RecordLoss(t))
    ensures Linked(T.Do(l, T.Record(t)), Next(y, ReportLoss(t)))
  {
    var k := T.Do(l, T.Record(t));
    assert Next(y, ReportLoss(t)).reconcilers == y.reconcilers[t := LockedReported];
    forall r | Reporting(k, r) && T.Effective(k, k.threads[r].mine)
      ensures r != t && T.Effective(l, l.threads[r].mine)
    {
      RecordEffective(l, t, r);
    }
  }

  lemma EffectLinked(l: T.Losses, y: Sys, t: nat, now: Time)
    requires T.Sound(l) && Linked(l, y) && CanJointly(l, y, TakeEffect(t, now))
    ensures Linked(T.Do(l, T.Apply(t)), Next(y, RunHandler(now)))
  {
    assert Next(y, RunHandler(now)).reconcilers == Covered(y.reconcilers);
    assert forall r :: Reporting(T.Do(l, T.Apply(t)), r) ==> Reporting(l, r);
  }

  lemma ThreadLinked(l: T.Losses, y: Sys, m: T.Move)
    requires T.Sound(l) && Linked(l, y) && CanJointly(l, y, Thread(m))
    ensures Linked(T.Do(l, m), y)
  {
    var k := T.Do(l, m);
    forall r | Reporting(k, r)
      ensures Reporting(l, r) && (T.Effective(k, k.threads[r].mine) ==> T.Effective(l, l.threads[r].mine))
    {
      assert T.StageSound(l, l.threads[r]);
      if T.Effective(k, k.threads[r].mine) { EffectiveBefore(l, m, k.threads[r].mine); }
    }
  }

  /** A step leaves a reconciler's phase alone unless it is its own, or a handler run covers its loss. */
  lemma ReconcilersKept(y: Sys, act: Protocol.Act)
    requires CanStep(y, act)
    ensures forall r :: r in y.reconcilers && !MovesOn(act, r) && !(act.ReportLoss? && act.who == r) ==>
      && r in Next(y, act).reconcilers
      && Next(y, act).reconcilers[r] == if act.RunHandler? then Covered(y.reconcilers)[r] else y.reconcilers[r]
  {
  }

  lemma SystemLinked(l: T.Losses, y: Sys, act: Protocol.Act)
    requires Linked(l, y) && CanJointly(l, y, System(act))
    ensures Linked(l, Next(y, act))
  {
    ReconcilersKept(y, act);
  }

  lemma ResumeLinked(l: T.Losses, y: Sys, t: nat)
    requires T.Sound(l) && Linked(l, y) && CanJointly(l, y, Resume(t)) && CanStep(y, Declare(t))
    ensures Linked(T.Do(l, T.Leave(t)), Next(y, Declare(t)))
  {
    var k := T.Do(l, T.Leave(t));
    forall r | Reporting(k, r) ensures r != t && Reporting(l, r) { }
    forall r | Reporting(k, r) && T.Effective(k, k.threads[r].mine) ensures T.Effective(l, l.threads[r].mine) {
      assert T.StageSound(l, l.threads[r]);
      EffectiveBefore(l, T.Leave(t), k.threads[r].mine);
    }
    ReconcilersKept(y, Declare(t));
  }

  lemma JointLinked(l: T.Losses, y: Sys, a: JointAct, z: Sys)
    requires T.Sound(l) && Linked(l, y) && CanJointly(l, y, a) && SysMoves(l, y, a, z)
    ensures Linked(NextLosses(l, y, a), z)
  {
    match a
    case RecordLoss(t) => ReportLinked(l, y, t);
    case TakeEffect(t, now) => EffectLinked(l, y, t, now);
    case Resume(t) => ReturnedMayDeclare(l, y, t); ResumeLinked(l, y, t);
    case Thread(m) => ThreadLinked(l, y, m);
    case System(act) => SystemLinked(l, y, act);
  }

  ghost predicate JointHalf(h: Half, l: T.Losses, y: Sys, a: JointAct, k: T.Losses, z: Sys) {
    match h
    case Guard => CanJointly(l, y, a)
    case Effect => CanJointly(l, y, a) && k == NextLosses(l, y, a) && SysMoves(l, y, a, z)
  }

  ghost predicate JointStep(l: T.Losses, y: Sys, a: JointAct, k: T.Losses, z: Sys) {
    forall h :: JointHalf(h, l, y, a, k, z)
  }

  lemma JointTaken(l: T.Losses, y: Sys, a: JointAct, k: T.Losses, z: Sys)
    requires JointStep(l, y, a, k, z)
    ensures CanJointly(l, y, a) && k == NextLosses(l, y, a) && SysMoves(l, y, a, z)
  {
    assert JointHalf(Effect, l, y, a, k, z);
  }

  ghost predicate IsJointRun(threads: set<nat>, caps: Caps, maxAttempts: nat, reconcilers: set<nat>,
                             ls: seq<T.Losses>, ys: seq<Sys>, acts: seq<JointAct>) {
    && |ls| == |ys| == |acts| + 1 && ls[0] == T.Start(threads) && ys[0] == Init(caps, maxAttempts, reconcilers)
    && (forall i :: 0 <= i < |acts| ==> JointStep(ls[i], ys[i], acts[i], ls[i + 1], ys[i + 1]))
  }

  lemma {:induction false} JointRunLinked(threads: set<nat>, caps: Caps, maxAttempts: nat, rs: set<nat>,
                                          ls: seq<T.Losses>, ys: seq<Sys>, acts: seq<JointAct>, i: nat)
    requires IsJointRun(threads, caps, maxAttempts, rs, ls, ys, acts) && i < |ls|
    ensures T.Sound(ls[i]) && Linked(ls[i], ys[i])
  {
    if i > 0 {
      JointRunLinked(threads, caps, maxAttempts, rs, ls, ys, acts, i - 1);
      JointTaken(ls[i - 1], ys[i - 1], acts[i - 1], ls[i], ys[i]);
      LossesMove(ls[i - 1], ys[i - 1], acts[i - 1]);
      JointLinked(ls[i - 1], ys[i - 1], acts[i - 1], ys[i]);
    }
  }

  /** Every step of the code is a step of the protocol, or none of it: in particular the declaration that follows a
      report is one, because some handler run took effect after the loss was recorded, by whichever thread. */
  lemma DeclareIsProtected(threads: set<nat>, caps: Caps, maxAttempts: nat, rs: set<nat>,
                           ls: seq<T.Losses>, ys: seq<Sys>, acts: seq<JointAct>, i: nat)
    requires IsJointRun(threads, caps, maxAttempts, rs, ls, ys, acts) && i < |acts| && acts[i].Resume?
    ensures var t := acts[i].t;
      && Reporting(ls[i], t) && T.Effective(ls[i], ls[i].threads[t].mine)
      && t in ys[i].reconcilers && ys[i].reconcilers[t].LockedRecovered?
      && CanStep(ys[i], Declare(t)) && ys[i + 1] == Next(ys[i], Declare(t))
  {
    JointRunLinked(threads, caps, maxAttempts, rs, ls, ys, acts, i);
    JointTaken(ls[i], ys[i], acts[i], ls[i + 1], ys[i + 1]);
    ReturnedMayDeclare(ls[i], ys[i], acts[i].t);
    assert T.StageSound(ls[i], ls[i].threads[acts[i].t]);
  }
}
