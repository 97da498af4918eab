/** Topology losses reported concurrently: each report takes a generation number, recovery runs under one
    mutex and marks generations as recovered. Every interleaving is a sequence of these steps. */
module Topology {
  /** Where a thread stands. `mine` is the generation it reported (0 if it only asks for recovery). */
  datatype Stage =
    | Outside
    | Waiting(mine: nat)                             // before the recovery mutex
    | Holding(mine: nat)                             // at the head of the loop
    | Running(mine: nat, generation: nat, begun: nat, applied: bool) // inside the handler
    | Returned(mine: nat)                            // without error, nothing left to recover
    | Unhandled(mine: nat)                           // without error, no handler is set
    | Failed(mine: nat)                              // with the handler's error
  {
    predicate Inside() { Holding? || Running? }

    /** Still reporting the loss `mine`, or just back from it without error. */
    predicate Reporting() { (Waiting? || Holding? || Running? || Returned?) && mine > 0 }
  }

  /** `at`, `runs` and `effects` are history: when each generation was recorded, when each handler run that
      succeeded had begun, and when a handler run took effect in the store. `time` counts steps. */
  datatype Losses = Losses(
    recorded: nat,
    recovered: nat,
    handler: bool,
    threads: map<nat, Stage>,
    time: nat,
    at: map<nat, nat>,
    runs: set<nat>,
    effects: set<nat>)

  datatype Move =
    | SetHandler
    | Record(t: nat)
    | Ask(t: nat)
    | Enter(t: nat)
    | Check(t: nat)
    | Apply(t: nat)
    | Succeed(t: nat)
    | Fail(t: nat)
    | Leave(t: nat)

  function Start(threads: set<nat>): Losses {
    Losses(0, 0, false, map t | t in threads :: Outside, 0, map[], {}, {})
  }

  ghost predicate Can(l: Losses, m: Move) {
    match m
    case SetHandler => true
    case Record(t) => t in l.threads && l.threads[t].Outside?
    case Ask(t) => t in l.threads && l.threads[t].Outside?
    case Enter(t) => t in l.threads && l.threads[t].Waiting? && forall u :: u in l.threads ==> !l.threads[u].Inside()
    case Check(t) => t in l.threads && l.threads[t].Holding?
    case Apply(t) => t in l.threads && l.threads[t].Running? && !l.threads[t].applied
    case Succeed(t) => t in l.threads && l.threads[t].Running? && l.threads[t].applied
    case Fail(t) => t in l.threads && l.threads[t].Running?
    case Leave(t) => t in l.threads && (l.threads[t].Returned? || l.threads[t].Unhandled? || l.threads[t].Failed?)
  }

  function Goes(l: Losses, t: nat, s: Stage): Losses { l.(threads := l.threads[t := s], time := l.time + 1) }

  function Do(l: Losses, m: Move): Losses
    requires !m.SetHandler? ==> m.t in l.threads
    requires m.Enter? ==> l.threads[m.t].Waiting?
    requires m.Check? ==> l.threads[m.t].Holding?
    requires m.Apply? || m.Succeed? || m.Fail? ==> l.threads[m.t].Running?
  {
    match m
    case SetHandler => l.(handler := true, time := l.time + 1)
    case Record(t) =>
      var g := l.recorded + 1;
      Goes(l.(recorded := g, at := l.at[g := l.time]), t, Waiting(g))
    case Ask(t) => Goes(l, t, Waiting(0))
    case Enter(t) => Goes(l, t, Holding(l.threads[t].mine))
    case Check(t) =>
      var mine := l.threads[t].mine;
      if l.recorded <= l.recovered then Goes(l, t, Returned(mine))
      else if !l.handler then Goes(l, t, Unhandled(mine))
      else Goes(l, t, Running(mine, l.recorded, l.time, false))
    case Apply(t) => Goes(l.(effects := l.effects + {l.time}), t, l.threads[t].(applied := true))
    case Succeed(t) =>
      var s := l.threads[t];
      var recovered := if s.generation > l.recovered then s.generation else l.recovered;
      Goes(l.(recovered := recovered, runs := l.runs + {s.begun}), t, Holding(s.mine))
    case Fail(t) => Goes(l, t, Failed(l.threads[t].mine))
    case Leave(t) => Goes(l, t, Outside)
  }

  /** Some successful handler run began after the generation was recorded. */
  ghost predicate Covered(l: Losses, g: nat) {
    g in l.at && exists b :: b in l.runs && b > l.at[g]
  }

  /** A handler run took effect after the generation was recorded. */
  ghost predicate Effective(l: Losses, g: nat) {
    g in l.at && exists e :: e in l.effects && e > l.at[g]
  }

  ghost predicate Counted(l: Losses) {
    && l.recovered <= l.recorded
    && (forall g :: 1 <= g <= l.recorded ==> g in l.at && l.at[g] < l.time)
    && (forall e :: e in l.effects ==> e < l.time)
    && (forall g :: 1 <= g <= l.recovered ==> Covered(l, g) && Effective(l, g))
  }

  ghost predicate StageSound(l: Losses, s: Stage) {
    match s
    case Outside => true
    case Running(mine, generation, begun, applied) =>
      && mine <= l.recorded && generation <= l.recorded && begun <= l.time
      && (applied ==> exists e :: e in l.effects && e >= begun)
      && (forall g :: 1 <= g <= generation ==> g in l.at && l.at[g] < begun)
    case Returned(mine) => mine <= l.recovered
    case Waiting(mine) => mine <= l.recorded
    case Holding(mine) => mine <= l.recorded
    case Unhandled(mine) => mine <= l.recorded
    case Failed(mine) => mine <= l.recorded
  }

  ghost predicate Sound(l: Losses) {
    && Counted(l)
    && (forall t :: t in l.threads ==> StageSound(l, l.threads[t]))
    && (forall t, u :: t in l.threads && u in l.threads && l.threads[t].Inside() && l.threads[u].Inside() ==> t == u)
  }

  lemma StillCovered(l: Losses, k: Losses, g: nat)
    requires Covered(l, g) && Effective(l, g) && l.runs <= k.runs && l.effects <= k.effects
    requires g in k.at && k.at[g] == l.at[g]
    ensures Covered(k, g) && Effective(k, g)
  {
    var b :| b in l.runs && b > l.at[g];
    var e :| e in l.effects && e > l.at[g];
    assert b in k.runs && e in k.effects;
  }

  lemma SucceedCounted(l: Losses, t: nat)
    requires Sound(l) && Can(l, Succeed(t))
    ensures Counted(Do(l, Succeed(t)))
  {
    var s, k := l.threads[t], Do(l, Succeed(t));
    assert StageSound(l, s);
    var e :| e in l.effects && e >= s.begun;
    forall g | 1 <= g <= k.recovered ensures Covered(k, g) && Effective(k, g) {
      if g <= l.recovered {
        StillCovered(l, k, g);
      } else {
        assert s.begun in k.runs && e in k.effects;
      }
    }
  }

  lemma OthersCounted(l: Losses, m: Move)
    requires Sound(l) && Can(l, m) && !m.Succeed?
    ensures Counted(Do(l, m))
  {
    var k := Do(l, m);
    forall g | 1 <= g <= k.recovered ensures Covered(k, g) && Effective(k, g) { StillCovered(l, k, g); }
  }

  lemma StageKept(l: Losses, m: Move, s: Stage)
    requires Counted(l) && Can(l, m) && StageSound(l, s)
    ensures StageSound(Do(l, m), s)
  {
    if s.Running? && s.applied {
      var e :| e in l.effects && e >= s.begun;
      assert e in Do(l, m).effects;
    }
  }

  lemma MoverSound(l: Losses, m: Move)
    requires Counted(l) && Can(l, m) && !m.SetHandler? && StageSound(l, l.threads[m.t])
    ensures StageSound(Do(l, m), Do(l, m).threads[m.t])
  {
    if m.Apply? { assert l.time in Do(l, m).effects; }
  }

  lemma StagesSound(l: Losses, m: Move)
    requires Sound(l) && Can(l, m)
    ensures forall t :: t in Do(l, m).threads ==> StageSound(Do(l, m), Do(l, m).threads[t])
  {
    var k := Do(l, m);
    forall t | t in k.threads ensures StageSound(k, k.threads[t]) {
      assert StageSound(l, l.threads[t]);
      if !m.SetHandler? && t == m.t { MoverSound(l, m); } else { StageKept(l, m, l.threads[t]); }
    }
  }

  lemma OneInside(l: Losses, m: Move)
    requires Sound(l) && Can(l, m)
    ensures var k := Do(l, m);
      forall t, u :: t in k.threads && u in k.threads && k.threads[t].Inside() && k.threads[u].Inside() ==> t == u
  {
  }

  lemma StepSound(l: Losses, m: Move)
    requires Sound(l) && Can(l, m)
    ensures Sound(Do(l, m))
  {
    if m.Succeed? { SucceedCounted(l, m.t); } else { OthersCounted(l, m); }
    StagesSound(l, m);
    OneInside(l, m);
  }

  ghost predicate IsRun(threads: set<nat>, ls: seq<Losses>, ms: seq<Move>) {
    && |ls| == |ms| + 1 && ls[0] == Start(threads)
    && (forall i :: 0 <= i < |ms| ==> Can(ls[i], ms[i]) && ls[i + 1] == Do(ls[i], ms[i]))
  }

  lemma {:induction false} RunSound(threads: set<nat>, ls: seq<Losses>, ms: seq<Move>, i: nat)
    requires IsRun(threads, ls, ms) && i < |ls|
    ensures Sound(ls[i])
  {
    if i > 0 {
      RunSound(threads, ls, ms, i - 1);
      StepSound(ls[i - 1], ms[i - 1]);
    }
  }

  /** Recovered never exceeds recorded, and every generation counted as recovered was followed by a handler
      run that began after that loss was recorded and succeeded; a failed run marks nothing and its caller
      returns with the error. */
  lemma RecoveredWasHandled(threads: set<nat>, ls: seq<Losses>, ms: seq<Move>, i: nat, g: nat)
    requires IsRun(threads, ls, ms) && i < |ls|
    ensures ls[i].recovered <= ls[i].recorded
    ensures 1 <= g <= ls[i].recovered ==> Covered(ls[i], g) && Effective(ls[i], g)
    ensures i < |ms| && ms[i].Fail? ==>
      ls[i + 1].recovered == ls[i].recovered && ls[i + 1].runs == ls[i].runs && ls[i + 1].threads[ms[i].t].Failed?
  {
    RunSound(threads, ls, ms, i);
  }

  /** A report that returns without error while a handler is set has its own loss recovered, by a handler
      run begun after it was recorded: what restoring the queue relies on. */
  lemma ReturnedMeansRecovered(threads: set<nat>, ls: seq<Losses>, ms: seq<Move>, i: nat, t: nat)
    requires IsRun(threads, ls, ms) && i < |ls| && t in ls[i].threads && ls[i].threads[t].Returned?
    ensures var mine := ls[i].threads[t].mine;
      mine <= ls[i].recovered && (mine > 0 ==> Covered(ls[i], mine) && Effective(ls[i], mine))
  {
    RunSound(threads, ls, ms, i);
    assert StageSound(ls[i], ls[i].threads[t]);
  }
}
