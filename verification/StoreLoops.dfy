/** The loops of the store's operations over its maps and lists, as methods on values. */
module StoreLoops {
  import opened Identifiers
  import opened Model
  import opened Sequences
  import opened StoreSpec
  import opened Priority
  import opened Runs
  import opened RunInvariants
  import opened ClaimTheorems

  /** The keys of a map in the order an iteration meets them: any order, each key once. */
  method Enumerate(keys: set<ID>) returns (order: seq<ID>)
    ensures (forall j :: j in order <==> j in keys) && NoDuplicates(order)
  {
    order := [];
    var rest := keys;
    while rest != {}
      invariant rest <= keys && Members(order) == keys - rest && NoDuplicates(order)
      decreases |rest|
    {
      var j :| j in rest;
      AppendDistinct(order, j);
      rest, order := rest - {j}, order + [j];
    }
    assert forall j :: j in order <==> j in Members(order);
  }

  method DropJobs(jobs: map<ID, Job>, m: ID) returns (left: map<ID, Job>)
    ensures left == JobsWithout(jobs, m)
  {
    left := jobs;
    var rest := jobs.Keys;
    while rest != {}
      invariant rest <= jobs.Keys
      invariant left == map j | j in jobs && (j in rest || jobs[j].monitor != m) :: jobs[j]
      decreases |rest|
    {
      var j :| j in rest;
      rest := rest - {j};
      if jobs[j].monitor == m { left := left - {j}; }
    }
  }

  method DropIncidents(incidents: map<ID, Incident>, m: ID) returns (left: map<ID, Incident>)
    ensures left == IncidentsWithout(incidents, m)
  {
    left := incidents;
    var rest := incidents.Keys;
    while rest != {}
      invariant rest <= incidents.Keys
      invariant left == map i | i in incidents && (i in rest || incidents[i].monitor != m) :: incidents[i]
      decreases |rest|
    {
      var i :| i in rest;
      rest := rest - {i};
      if incidents[i].monitor == m { left := left - {i}; }
    }
  }

  method KeepLatest(records: seq<CheckRecord>, r: CheckRecord, cap: nat) returns (kept: seq<CheckRecord>)
    ensures kept == Remember(records, r, cap)
  {
    kept := records + [r];
    if |kept| > cap { kept := kept[|kept| - cap..]; }
  }

  /** The monitor's own record after a result. */
  method Refresh(monitor: Monitor, kind: Kind, r: CheckRecord, now: Time) returns (m: Monitor)
    ensures m == MonitorAfterCheck(monitor, kind, r, now)
  {
    m := monitor.(lastStatusCode := r.statusCode, lastCheckedAt := now);
    if kind.Periodic? { m := m.(nextCheckAt := now + m.interval * SECOND); }
  }

  lemma TakeNext(base: State, sorted: seq<Rank>, i: nat, tokens: seq<ID>, expires: Time)
    requires i < |sorted| && i < |tokens| && Distinct(sorted) && sorted[i].id in base.store.jobs
    ensures var jobs, j := TakeAll(base, sorted[..i], tokens, expires).store.jobs, sorted[i].id;
      && j in jobs && jobs[j] == base.store.jobs[j]
      && TakeAll(base, sorted[..i + 1], tokens, expires).store.jobs ==
         jobs[j := ClaimedRecord(jobs[j], tokens[i], expires)]
  {
    TakeAllFrame(base, sorted[..i], tokens, expires);
    assert sorted[..i + 1][..i] == sorted[..i];
  }

  /** Claims the first rows of the sorted candidates, up to the limit. */
  method TakeRows(checkJobs: map<ID, Job>, sorted: seq<Rank>, limit: nat, tokens: seq<ID>, expires: Time,
                  ghost base: State)
    returns (jobs: map<ID, Job>, claimed: seq<Job>)
    requires checkJobs == base.store.jobs && |tokens| >= limit
    requires Distinct(sorted) && forall i :: 0 <= i < |sorted| ==> sorted[i].id in base.store.jobs
    ensures |claimed| == if limit < |sorted| then limit else |sorted|
    ensures jobs == TakeAll(base, sorted[..|claimed|], tokens, expires).store.jobs
    ensures forall i :: 0 <= i < |claimed| ==>
      claimed[i] == ClaimedRecord(base.store.jobs[sorted[i].id], tokens[i], expires)
  {
    jobs, claimed := checkJobs, [];
    var i := 0;
    while i < |sorted| && |claimed| < limit
      invariant |claimed| == i <= |sorted| && i <= limit
      invariant jobs == TakeAll(base, sorted[..i], tokens, expires).store.jobs
      invariant forall k :: 0 <= k < i ==>
        claimed[k] == ClaimedRecord(base.store.jobs[sorted[k].id], tokens[k], expires)
    {
      TakeNext(base, sorted, i, tokens, expires);
      var job := jobs[sorted[i].id];
      job := job.(status := Scheduled, leaseExpiresAt := expires, publicationToken := tokens[i]);
      jobs := jobs[sorted[i].id := job];
      claimed := claimed + [job];
      i := i + 1;
    }
  }

  /** The scan over the sorted monitors: the i first have been looked at, `births` were given a job. */
  datatype Scan = Scan(sorted: seq<Rank>, i: nat, births: seq<Rank>, born: seq<Job>, base: State, tokens: seq<ID>,
                       now: Time, expires: Time)

  datatype Aspect = Ranking | Picks | Records

  /** Every monitor is among the sorted ones, once, under its next check. */
  ghost predicate AllRanked(s: Store, sorted: seq<Rank>) {
    && (forall x :: x in sorted ==> x.id in s.monitors && x == BirthRank(s, x.id))
    && (forall m :: m in s.monitors ==> BirthRank(s, m) in sorted && s.monitors[m].nextCheckAt != 0)
  }

  /** The picks so far: the due ones among the first i, in order. */
  ghost predicate Picked(sorted: seq<Rank>, i: nat, births: seq<Rank>, s: Store, now: Time)
    requires i <= |sorted|
  {
    && Sorted(births)
    && (forall x :: x in births ==> x in sorted[..i] && Due(s, x.id, now))
    && (forall k :: 0 <= k < i && Due(s, sorted[k].id, now) ==> sorted[k] in births)
  }

  ghost predicate BirthRecords(s: Store, births: seq<Rank>, tokens: seq<ID>, now: Time, expires: Time, born: seq<Job>) {
    && |born| == |births| <= |tokens|
    && (forall i :: 0 <= i < |born| ==>
          births[i].id in s.monitors && born[i] == PlannedJob(s, births[i].id, tokens[i], now, expires))
  }

  ghost predicate AspectHolds(x: Scan, a: Aspect) {
    match a
    case Ranking => Sorted(x.sorted) && AllRanked(x.base.store, x.sorted)
    case Picks => x.i <= |x.sorted| && Picked(x.sorted, x.i, x.births, x.base.store, x.now)
    case Records => BirthRecords(x.base.store, x.births, x.tokens, x.now, x.expires, x.born)
  }

  ghost predicate Scanning(x: Scan) {
    forall a :: AspectHolds(x, a)
  }

  lemma AspectOf(x: Scan, a: Aspect)
    requires Scanning(x)
    ensures AspectHolds(x, a)
  {
  }

  ghost function Scanned(x: Scan): Store {
    if |x.births| <= |x.tokens| then BearAll(x.base, x.births, x.tokens, x.now, x.expires).store else x.base.store
  }

  lemma PickedApart(sorted: seq<Rank>, i: nat, births: seq<Rank>, s: Store, now: Time)
    requires i < |sorted| && Sorted(sorted) && Picked(sorted, i, births, s, now) && AllRanked(s, sorted)
    ensures forall p :: p in births ==> p in sorted && Before(p, sorted[i]) && p.id != sorted[i].id
    ensures Distinct(births) && Plannable(s, births)
  {
    assert sorted[i] in sorted;
    forall p | p in births ensures p in sorted && Before(p, sorted[i]) && p.id != sorted[i].id {
      var l :| 0 <= l < i && sorted[..i][l] == p;
      assert p in sorted;
      BeforeTotal(p, sorted[i]);
    }
    assert forall k :: 0 <= k < |births| ==> births[k] in births;
    forall k, l | 0 <= k < l < |births| ensures births[k].id != births[l].id {
      assert births[k] in sorted && births[l] in sorted;
      BeforeTotal(births[k], births[l]);
    }
  }

  lemma {:induction false} BearAllKeepsActive(st: State, picks: seq<Rank>, tokens: seq<ID>, now: Time, expires: Time)
    requires |picks| <= |tokens|
    ensures forall m :: m in st.store.active ==> m in BearAll(st, picks, tokens, now, expires).store.active
  {
    if picks != [] { BearAllKeepsActive(st, picks[..|picks| - 1], tokens, now, expires); }
  }

  lemma PickedReady(sorted: seq<Rank>, i: nat, births: seq<Rank>, base: State, tokens: seq<ID>, now: Time,
                    expires: Time)
    requires i < |sorted| && Sorted(sorted) && Picked(sorted, i, births, base.store, now) && |births| <= |tokens|
    requires AllRanked(base.store, sorted)
    ensures var t := BearAll(base, births, tokens, now, expires).store;
      && t.monitors == base.store.monitors && sorted[i].id in t.monitors
      && (sorted[i].id in t.active <==> sorted[i].id in base.store.active)
  {
    assert sorted[i] in sorted;
    PickedApart(sorted, i, births, base.store, now);
    assert forall k :: 0 <= k < |births| ==> births[k] in births;
    BearAllFrame(base, births, tokens, now, expires);
    BearAllKeepsActive(base, births, tokens, now, expires);
  }

  /** Before the i-th monitor is looked at, the jobs added so far have not touched it. */
  lemma ScanReady(x: Scan)
    requires Scanning(x) && x.i < |x.sorted|
    ensures x.sorted[x.i].id in x.base.store.monitors && |x.born| == |x.births| <= |x.tokens|
    ensures Scanned(x).monitors == x.base.store.monitors
    ensures x.sorted[x.i].id in Scanned(x).active <==> x.sorted[x.i].id in x.base.store.active
  {
    AspectOf(x, Ranking); AspectOf(x, Picks); AspectOf(x, Records);
    PickedReady(x.sorted, x.i, x.births, x.base, x.tokens, x.now, x.expires);
  }

  lemma PickedSame(sorted: seq<Rank>, i: nat, births: seq<Rank>, s: Store, now: Time)
    requires i < |sorted| && Picked(sorted, i, births, s, now) && !Due(s, sorted[i].id, now)
    ensures Picked(sorted, i + 1, births, s, now)
  {
    assert sorted[..i + 1] == sorted[..i] + [sorted[i]];
  }

  lemma ScanSkips(x: Scan)
    requires Scanning(x) && x.i < |x.sorted| && !Due(x.base.store, x.sorted[x.i].id, x.now)
    ensures Scanning(x.(i := x.i + 1))
  {
    var y := x.(i := x.i + 1);
    forall a ensures AspectHolds(y, a) {
      AspectOf(x, a);
      if a == Picks { PickedSame(x.sorted, x.i, x.births, x.base.store, x.now); }
    }
  }

  lemma PickedGrows(sorted: seq<Rank>, i: nat, births: seq<Rank>, s: Store, now: Time)
    requires i < |sorted| && Sorted(sorted) && Picked(sorted, i, births, s, now) && AllRanked(s, sorted)
    ensures Sorted(births + [sorted[i]])
  {
    PickedApart(sorted, i, births, s, now);
    assert forall k :: 0 <= k < |births| ==> births[k] in births;
  }

  lemma PickedMore(sorted: seq<Rank>, i: nat, births: seq<Rank>, s: Store, now: Time)
    requires i < |sorted| && Picked(sorted, i, births, s, now) && Due(s, sorted[i].id, now)
    requires Sorted(births + [sorted[i]])
    ensures Picked(sorted, i + 1, births + [sorted[i]], s, now)
  {
    assert sorted[..i + 1] == sorted[..i] + [sorted[i]];
  }

  lemma ScanTakes(x: Scan, job: Job)
    requires Scanning(x) && x.i < |x.sorted| && Due(x.base.store, x.sorted[x.i].id, x.now) && |x.born| < |x.tokens|
    requires job == PlannedJob(x.base.store, x.sorted[x.i].id, x.tokens[|x.born|], x.now, x.expires)
    ensures Scanning(x.(i := x.i + 1, births := x.births + [x.sorted[x.i]], born := x.born + [job]))
  {
    var y := x.(i := x.i + 1, births := x.births + [x.sorted[x.i]], born := x.born + [job]);
    AspectOf(x, Ranking); AspectOf(x, Picks);
    PickedGrows(x.sorted, x.i, x.births, x.base.store, x.now);
    forall a ensures AspectHolds(y, a) {
      AspectOf(x, a);
      if a == Picks { PickedMore(x.sorted, x.i, x.births, x.base.store, x.now); }
    }
  }

  lemma BearNext(base: State, births: seq<Rank>, x: Rank, tokens: seq<ID>, now: Time, expires: Time)
    requires |births| < |tokens| && x.id in base.store.monitors
    requires BearAll(base, births, tokens, now, expires).store.monitors == base.store.monitors
    ensures var s := BearAll(base, births, tokens, now, expires).store;
      var t := BearAll(base, births + [x], tokens, now, expires).store;
      var job := PlannedJob(base.store, x.id, tokens[|births|], now, expires);
      t.jobs == s.jobs[job.id := job] && t.active == s.active[x.id := job.id]
  {
    assert (births + [x])[..|births|] == births;
  }

  lemma PickedIsTop(sorted: seq<Rank>, i: nat, births: seq<Rank>, s: Store, limit: nat, now: Time)
    requires i <= |sorted| && Sorted(sorted) && Picked(sorted, i, births, s, now)
    requires AllRanked(s, sorted)
    requires |births| <= limit && (i == |sorted| || |births| == limit)
    ensures TopOf(births, BirthPool(s, now), limit)
  {
    forall x | x in births ensures x in BirthPool(s, now) {
      assert x in sorted;
    }
    forall x | x in BirthPool(s, now) && x !in births
      ensures |births| == limit && forall p :: p in births ==> Before(p, x)
    {
      assert x in sorted;
      var k :| 0 <= k < |sorted| && sorted[k] == x;
      assert k >= i;
      forall p | p in births ensures Before(p, x) {
        var l :| 0 <= l < i && sorted[..i][l] == p;
      }
    }
  }

  /** Gives the due monitors among the sorted ones their planned job, up to the limit. */
  method BearJobs(byID: map<ID, Monitor>, checkJobs: map<ID, Job>, activeJobs: map<ID, ID>, sorted: seq<Rank>,
                  limit: nat, tokens: seq<ID>,
                  now: Time, expires: Time, ghost base: State)
    returns (jobs: map<ID, Job>, active: map<ID, ID>, born: seq<Job>, ghost births: seq<Rank>)
    requires byID == base.store.monitors && checkJobs == base.store.jobs && activeJobs == base.store.active
    requires |tokens| >= limit && Sorted(sorted) && AllRanked(base.store, sorted)
    ensures BirthRecords(base.store, births, tokens, now, expires, born) && |births| <= limit
    ensures TopOf(births, BirthPool(base.store, now), limit)
    ensures var t := BearAll(base, births, tokens, now, expires).store; jobs == t.jobs && active == t.active
  {
    jobs, active, born, births := checkJobs, activeJobs, [], [];
    var i := 0;
    ghost var x := Scan(sorted, 0, [], [], base, tokens, now, expires);
    forall a ensures AspectHolds(x, a) { }
    while i < |sorted| && |born| < limit
      invariant i <= |sorted| && |born| == |births| <= limit
      invariant x == Scan(sorted, i, births, born, base, tokens, now, expires) && Scanning(x)
      invariant jobs == Scanned(x).jobs && active == Scanned(x).active
    {
      var m := sorted[i].id;
      ScanReady(x);
      var monitor := byID[m];
      if monitor.enabled && monitor.nextCheckAt <= now && m !in active {
        var job := Job(NewCheckJobID(m, monitor.nextCheckAt, now), m, Periodic, monitor.nextCheckAt, Scheduled, 0,
                       now, expires, "", tokens[|born|]);
        jobs, active := jobs[job.id := job], active[m := job.id];
        BearNext(base, births, sorted[i], tokens, now, expires);
        ScanTakes(x, job);
        born, births := born + [job], births + [sorted[i]];
      } else {
        ScanSkips(x);
      }
      i := i + 1;
      x := Scan(sorted, i, births, born, base, tokens, now, expires);
    }
    AspectOf(x, Picks); AspectOf(x, Records);
    PickedIsTop(sorted, i, births, base.store, limit, now);
  }

  method RetryCandidates(checkJobs: map<ID, Job>, now: Time, maxAttempts: nat) returns (candidates: set<Rank>)
    ensures candidates == set j | j in checkJobs && Claimable(checkJobs[j], now, maxAttempts) ::
      Rank(checkJobs[j].availableAt, checkJobs[j].scheduledFor, j)
  {
    candidates := {};
    var rest := checkJobs.Keys;
    while rest != {}
      invariant rest <= checkJobs.Keys
      invariant candidates == set j | j in checkJobs && j !in rest && Claimable(checkJobs[j], now, maxAttempts) ::
        Rank(checkJobs[j].availableAt, checkJobs[j].scheduledFor, j)
      decreases |rest|
    {
      var j :| j in rest;
      rest := rest - {j};
      var job := checkJobs[j];
      if !job.status.Scheduled? && !job.status.Failed? { continue; }
      if job.attempt >= maxAttempts { continue; }
      if job.availableAt > now { continue; }
      if job.leaseExpiresAt != 0 && job.leaseExpiresAt > now { continue; }
      candidates := candidates + {Rank(job.availableAt, job.scheduledFor, j)};
    }
  }

  method MonitorRanks(byID: map<ID, Monitor>) returns (ranks: set<Rank>)
    ensures ranks == set m | m in byID :: Rank(byID[m].nextCheckAt, 0, m)
  {
    ranks := {};
    var rest := byID.Keys;
    while rest != {}
      invariant rest <= byID.Keys
      invariant ranks == set m | m in byID && m !in rest :: Rank(byID[m].nextCheckAt, 0, m)
      decreases |rest|
    {
      var m :| m in rest;
      rest := rest - {m};
      ranks := ranks + {Rank(byID[m].nextCheckAt, 0, m)};
    }
  }

  lemma SortedRows(s: Store, sorted: seq<Rank>, limit: nat, now: Time, maxAttempts: nat)
    requires Sorted(sorted)
    requires Elements(sorted) == set j | j in s.jobs && Claimable(s.jobs[j], now, maxAttempts) :: RetryRank(s, j)
    ensures Distinct(sorted) && forall i :: 0 <= i < |sorted| ==> sorted[i].id in s.jobs
    ensures TopOf(sorted[..if limit < |sorted| then limit else |sorted|], RetryPool(s, now, maxAttempts), limit)
  {
    assert Elements(sorted) == RetryPool(s, now, maxAttempts);
    PrefixIsTop(sorted, limit);
    assert forall i :: 0 <= i < |sorted| ==> sorted[i] in Elements(sorted);
    DistinctIds(sorted, RetryPool(s, now, maxAttempts));
  }

  lemma SortedMonitors(s: Store, sorted: seq<Rank>)
    requires MonitorsAgree(s.monitors) && Elements(sorted) == set m | m in s.monitors :: BirthRank(s, m)
    ensures AllRanked(s, sorted)
  {
    forall x | x in sorted ensures x.id in s.monitors && x == BirthRank(s, x.id) { assert x in Elements(sorted); }
    forall m | m in s.monitors ensures BirthRank(s, m) in sorted { assert BirthRank(s, m) in Elements(sorted); }
  }

  lemma {:induction false} BearAllPrefix(st: State, picks: seq<Rank>, tokens: seq<ID>, now: Time, expires: Time)
    requires |picks| <= |tokens|
    ensures BearAll(st, picks, tokens[..|picks|], now, expires) == BearAll(st, picks, tokens, now, expires)
  {
    if picks != [] {
      var n := |picks| - 1;
      BearAllPrefix(st, picks[..n], tokens, now, expires);
      BearAllPrefix(st, picks[..n], tokens[..n + 1], now, expires);
      assert tokens[..n + 1][..n] == tokens[..n];
    }
  }

  lemma TakenKeeps(swept: State, retries: seq<Rank>, limit: nat, tokens: seq<ID>, now: Time, expires: Time,
                   maxAttempts: nat)
    requires Good(swept) && |retries| <= |tokens| && TopOf(retries, RetryPool(swept.store, now, maxAttempts), limit)
    ensures var taken := TakeAll(swept, retries, tokens, expires);
      && taken.store.monitors == swept.store.monitors && taken.store.active == swept.store.active
      && BirthPool(taken.store, now) == BirthPool(swept.store, now)
      && MonitorsAgree(swept.store.monitors)
  {
    RetriesReady(swept.store, retries, limit, now, maxAttempts);
    TakeAllFrame(swept, retries, tokens, expires);
    FactOf(swept, Agreement);
    ClauseOf(swept.store, Monitors);
  }

  lemma PlanFollowed(st: State, swept: State, taken: State, plan: Plan, now: Time, expires: Time, maxAttempts: nat,
                     tokens: seq<ID>)
    requires |plan.retries| + |plan.births| <= |tokens|
    requires plan.tokens == tokens[..|plan.retries| + |plan.births|]
    requires swept == SweptState(st, plan, now, maxAttempts)
    requires taken == TakeAll(swept, plan.retries, tokens, expires).(clock := now)
    ensures Claimed(st, plan, now, expires, maxAttempts).store ==
      BearAll(taken, plan.births, tokens[|plan.retries|..], now, expires).store
  {
    var n := |plan.retries|;
    assert plan.tokens[..n] == tokens[..n] && plan.tokens[n..] == tokens[n..][..|plan.births|];
    TakeAllPrefix(swept, plan.retries, tokens, expires);
    BearAllPrefix(taken, plan.births, tokens[n..], now, expires);
  }

  /** What the loops did, put together, is the planned claim. */
  lemma PlanAssembled(st: State, swept: State, taken: State, plan: Plan, limit: nat, now: Time, expires: Time,
                      maxAttempts: nat, tokens: seq<ID>)
    requires FreshTokens(st, tokens) && |plan.retries| + |plan.births| <= |tokens|
    requires plan.tokens == tokens[..|plan.retries| + |plan.births|]
    requires swept == SweptState(st, plan, now, maxAttempts)
    requires taken == TakeAll(swept, plan.retries, tokens, expires).(clock := now)
    requires (forall j :: j in plan.sweep <==> j in st.store.jobs) && NoDuplicates(plan.sweep)
    requires TopOf(plan.retries, RetryPool(swept.store, now, maxAttempts), limit) && |plan.retries| <= limit
    requires TopOf(plan.births, BirthPool(swept.store, now), limit - |plan.retries|)
    ensures GoodPlan(st.store, plan, limit, now, maxAttempts) && FreshTokens(st, plan.tokens)
    ensures Claimed(st, plan, now, expires, maxAttempts).store ==
      BearAll(taken, plan.births, tokens[|plan.retries|..], now, expires).store
  {
    PartsFresh(st, tokens, |plan.retries| + |plan.births|);
    PlanFollowed(st, swept, taken, plan, now, expires, maxAttempts, tokens);
  }

  /** The records returned for rows picked again, and for monitors given a new job. */
  ghost predicate RowRecords(s: Store, retries: seq<Rank>, tokens: seq<ID>, expires: Time, rows: seq<Job>) {
    && |rows| == |retries| <= |tokens|
    && (forall i :: 0 <= i < |rows| ==>
          retries[i].id in s.jobs && rows[i] == ClaimedRecord(s.jobs[retries[i].id], tokens[i], expires))
  }

  /** Collects the candidates, sorts them and claims the first. */
  method PickRows(checkJobs: map<ID, Job>, limit: nat, now: Time, maxAttempts: nat, tokens: seq<ID>, expires: Time,
                  ghost base: State)
    returns (jobs: map<ID, Job>, claimed: seq<Job>, ghost retries: seq<Rank>)
    requires checkJobs == base.store.jobs && |tokens| >= limit
    ensures TopOf(retries, RetryPool(base.store, now, maxAttempts), limit)
    ensures RowRecords(base.store, retries, tokens, expires, claimed) && |retries| <= limit
    ensures TakeAll(base, retries, tokens, expires).store == base.store.(jobs := jobs)
  {
    var candidates := RetryCandidates(checkJobs, now, maxAttempts);
    var sorted := Sort(candidates);
    SortedRows(base.store, sorted, limit, now, maxAttempts);
    jobs, claimed := TakeRows(checkJobs, sorted, limit, tokens, expires, base);
    retries := sorted[..|claimed|];
    TakeAllFrame(base, retries, tokens, expires);
  }

  /** The returned records are exactly the jobs handed out, each as it is stored. */
  ghost predicate HandedOutIs(st: State, after: State, claimed: seq<Job>) {
    && |claimed| == |HandedOut(st, after)|
    && (forall i :: 0 <= i < |claimed| ==>
          claimed[i].id in HandedOut(st, after) && after.store.jobs[claimed[i].id] == claimed[i])
    && (forall i, k :: 0 <= i < k < |claimed| ==> claimed[i].id != claimed[k].id)
  }

  lemma NothingHandedOut(st: State, now: Time)
    ensures HandedOutIs(st, st.(clock := now), [])
  {
    assert HandedOut(st, st.(clock := now)) == {};
  }

  lemma RowKeepsIdentity(c: Call, j: ID)
    requires Proper(c) && j in c.swept.store.jobs
    ensures c.swept.store.jobs[j].id == j
  {
    StageOf(c, AfterSweep);
    FactOf(c.swept, Agreement);
    ClauseOf(c.swept.store, Jobs);
  }

  lemma RowStored(c: Call, rows: seq<Job>, i: nat)
    requires Proper(c) && RowRecords(c.swept.store, c.plan.retries, c.plan.tokens, c.expires, rows) && i < |rows|
    ensures rows[i].id in HandedOut(c.st, c.after) && c.after.store.jobs[rows[i].id] == rows[i]
    ensures rows[i].publicationToken == c.plan.tokens[i]
  {
    RetryHandedOut(c, i);
    RowKeepsIdentity(c, c.plan.retries[i].id);
  }

  lemma BirthStored(c: Call, born: seq<Job>, i: nat)
    requires Proper(c)
    requires BirthRecords(c.swept.store, c.plan.births, c.plan.tokens[|c.plan.retries|..], c.now, c.expires, born)
    requires i < |born|
    ensures born[i].id in HandedOut(c.st, c.after) && c.after.store.jobs[born[i].id] == born[i]
    ensures born[i].publicationToken == c.plan.tokens[|c.plan.retries| + i]
  {
    BirthHandedOut(c, i);
  }

  lemma RecordStored(c: Call, rows: seq<Job>, born: seq<Job>, i: nat)
    requires Proper(c) && RowRecords(c.swept.store, c.plan.retries, c.plan.tokens, c.expires, rows)
    requires BirthRecords(c.swept.store, c.plan.births, c.plan.tokens[|c.plan.retries|..], c.now, c.expires, born)
    requires i < |rows + born|
    ensures var job := (rows + born)[i];
      && job.id in HandedOut(c.st, c.after) && c.after.store.jobs[job.id] == job
      && i < |c.plan.tokens| && job.publicationToken == c.plan.tokens[i]
  {
    if i < |rows| { RowStored(c, rows, i); } else { BirthStored(c, born, i - |rows|); }
  }

  /** Two records carry different tokens, so they are not the same job. */
  lemma TokenPerRecord(c: Call, claimed: seq<Job>, i: nat, k: nat)
    requires Proper(c) && i < k < |claimed| == |c.plan.tokens|
    requires forall l :: 0 <= l < |claimed| ==>
      claimed[l].id in c.after.store.jobs && c.after.store.jobs[claimed[l].id] == claimed[l]
    requires forall l :: 0 <= l < |claimed| ==> claimed[l].publicationToken == c.plan.tokens[l]
    ensures claimed[i].id != claimed[k].id
  {
    StageOf(c, Drawn);
    assert c.plan.tokens[i] != c.plan.tokens[k];
  }

  lemma RecordsHandedOut(c: Call, rows: seq<Job>, born: seq<Job>)
    requires Proper(c) && RowRecords(c.swept.store, c.plan.retries, c.plan.tokens, c.expires, rows)
    requires BirthRecords(c.swept.store, c.plan.births, c.plan.tokens[|c.plan.retries|..], c.now, c.expires, born)
    ensures HandedOutIs(c.st, c.after, rows + born)
  {
    var claimed := rows + born;
    HandedOutCount(c);
    forall i | 0 <= i < |claimed|
      ensures claimed[i].id in HandedOut(c.st, c.after) && c.after.store.jobs[claimed[i].id] == claimed[i]
      ensures claimed[i].publicationToken == c.plan.tokens[i]
    {
      RecordStored(c, rows, born, i);
    }
    forall i, k | 0 <= i < k < |claimed| ensures claimed[i].id != claimed[k].id {
      TokenPerRecord(c, claimed, i, k);
    }
  }

  lemma RecordsWithinPlan(s: Store, taken: Store, plan: Plan, tokens: seq<ID>, now: Time, expires: Time,
                          rows: seq<Job>, born: seq<Job>)
    requires |plan.retries| + |plan.births| <= |tokens| && plan.tokens == tokens[..|plan.retries| + |plan.births|]
    requires RowRecords(s, plan.retries, tokens, expires, rows) && taken.monitors == s.monitors
    requires BirthRecords(taken, plan.births, tokens[|plan.retries|..], now, expires, born)
    ensures RowRecords(s, plan.retries, plan.tokens, expires, rows)
    ensures BirthRecords(s, plan.births, plan.tokens[|plan.retries|..], now, expires, born)
  {
  }

  lemma RecordsOfClaim(st: State, plan: Plan, limit: nat, now: Time, expires: Time, maxAttempts: nat, rows: seq<Job>,
                       born: seq<Job>)
    requires Good(st) && now > st.clock
    requires GoodPlan(st.store, plan, limit, now, maxAttempts) && FreshTokens(st, plan.tokens)
    requires var s := SweepAll(st.store, plan.sweep, now, maxAttempts);
      && RowRecords(s, plan.retries, plan.tokens, expires, rows)
      && BirthRecords(s, plan.births, plan.tokens[|plan.retries|..], now, expires, born)
    ensures HandedOutIs(st, Claimed(st, plan, now, expires, maxAttempts), rows + born)
  {
    CallProper(st, plan, limit, now, expires, maxAttempts);
    RecordsHandedOut(CallOf(st, plan, limit, now, expires, maxAttempts), rows, born);
  }

  /** Appends to the list of ended jobs; a job pushed out of the window loses its record. */
  method PushJob(terminal: seq<ID>, first: nat, checkJobs: map<ID, Job>, j: ID, cap: nat)
    returns (order: seq<ID>, head: nat, jobs: map<ID, Job>)
    requires Windowed(terminal, first, cap) && cap > 0
    ensures Windowed(order, head, cap) && Window(order, head) == Remember(Window(terminal, first), j, cap)
    ensures var window := Window(terminal, first);
      jobs == if |window| < cap then checkJobs else EvictJob(checkJobs, (window + [j])[0])
  {
    ghost var window := Window(terminal, first);
    AppendRemembers(terminal, first, j, cap);
    order, head, jobs := terminal + [j], first, checkJobs;
    while |order| - head > cap
      invariant order == terminal + [j]
      invariant if head == first then jobs == checkJobs
                else head == first + 1 && |window| == cap && jobs == EvictJob(checkJobs, (window + [j])[0])
      decreases |order| - head
    {
      var oldest := order[head];
      assert oldest == (window + [j])[0];
      head := head + 1;
      if oldest in jobs && jobs[oldest].Terminal() { jobs := jobs - {oldest}; }
    }
    order, head := Compact(order, head, cap);
  }

  /** Appends to the list of resolved incidents; one pushed out of the window is forgotten. */
  method PushIncident(resolved: seq<ID>, first: nat, incidents: map<ID, Incident>, i: ID, cap: nat)
    returns (order: seq<ID>, head: nat, left: map<ID, Incident>)
    requires Windowed(resolved, first, cap) && cap > 0
    ensures Windowed(order, head, cap) && Window(order, head) == Remember(Window(resolved, first), i, cap)
    ensures var window := Window(resolved, first);
      left == if |window| < cap then incidents else EvictIncident(incidents, (window + [i])[0])
  {
    ghost var window := Window(resolved, first);
    AppendRemembers(resolved, first, i, cap);
    order, head, left := resolved + [i], first, incidents;
    while |order| - head > cap
      invariant order == resolved + [i]
      invariant if head == first then left == incidents
                else head == first + 1 && |window| == cap && left == EvictIncident(incidents, (window + [i])[0])
      decreases |order| - head
    {
      var oldest := order[head];
      assert oldest == (window + [i])[0];
      head := head + 1;
      if oldest in left && !left[oldest].open { left := left - {oldest}; }
    }
    order, head := Compact(order, head, cap);
  }

  /** While too many are remembered the oldest goes, from the set and from the window. */
  method EvictProcessed(jobs: set<ID>, order: seq<ID>, first: nat, cap: nat) returns (seen: set<ID>, head: nat)
    requires first <= |order| && jobs == Members(order[first..]) && |jobs| == |order| - first
    ensures first <= head <= |order| && seen == Members(order[head..]) && |seen| == |order| - head
    ensures head == if |order| - first <= cap then first else |order| - cap
  {
    seen, head := jobs, first;
    while |seen| > cap
      invariant first <= head <= |order| && (head == first || |order| - head >= cap)
      invariant seen == Members(order[head..]) && |seen| == |order| - head
      decreases |order| - head
    {
      var oldest := order[head];
      DropOldest(order, head);
      seen := seen - {oldest};
      head := head + 1;
    }
  }

  /** Appends a processed identifier to its set and list. */
  method PushProcessed(jobs: set<ID>, list: seq<ID>, first: nat, j: ID, cap: nat)
    returns (seen: set<ID>, order: seq<ID>, head: nat)
    requires cap > 0 && SetWindow(jobs, list, first, cap) && j !in jobs
    ensures SetWindow(seen, order, head, cap) && Window(order, head) == Remember(Window(list, first), j, cap)
  {
    AppendNew(list, first, j);
    order := list + [j];
    seen, head := EvictProcessed(jobs + {j}, order, first, cap);
    PushedWindow(list, first, j, cap, head);
    order, head := Compact(order, head, cap);
  }

  ghost function PublishedIn(jobs: map<ID, Job>, ids: set<ID>): set<ID> {
    set j | j in ids && j in jobs && jobs[j].Published()
  }

  /** The rows when those in `rest` are still to be recovered. */
  ghost function PartlyRecovered(jobs: map<ID, Job>, rest: set<ID>, now: Time): map<ID, Job> {
    map j | j in jobs :: if j in rest then jobs[j] else RecoverJob(jobs[j], now)
  }

  lemma RecoverOne(jobs: map<ID, Job>, rest: set<ID>, j: ID, now: Time)
    requires j in rest && rest <= jobs.Keys
    ensures j in PartlyRecovered(jobs, rest, now) && PartlyRecovered(jobs, rest, now)[j] == jobs[j]
    ensures PartlyRecovered(jobs, rest - {j}, now) == PartlyRecovered(jobs, rest, now)[j := RecoverJob(jobs[j], now)]
  {
  }

  lemma RecoverEnds(jobs: map<ID, Job>, now: Time)
    ensures PartlyRecovered(jobs, jobs.Keys, now) == jobs && PartlyRecovered(jobs, {}, now) == RecoverAll(jobs, now)
  {
  }

  lemma OneMorePublished(jobs: map<ID, Job>, ids: set<ID>, j: ID)
    requires j in jobs && j !in ids
    ensures |PublishedIn(jobs, ids + {j})| == |PublishedIn(jobs, ids)| + if jobs[j].Published() then 1 else 0
  {
    assert PublishedIn(jobs, ids + {j}) == PublishedIn(jobs, ids) + if jobs[j].Published() then {j} else {};
  }

  method RecoverRows(checkJobs: map<ID, Job>, now: Time) returns (jobs: map<ID, Job>, recovered: nat)
    ensures jobs == RecoverAll(checkJobs, now)
    ensures recovered == |PublishedIn(checkJobs, checkJobs.Keys)|
  {
    jobs, recovered := checkJobs, 0;
    var rest := checkJobs.Keys;
    RecoverEnds(checkJobs, now);
    assert PublishedIn(checkJobs, checkJobs.Keys - rest) == {};
    while rest != {}
      invariant rest <= checkJobs.Keys && jobs == PartlyRecovered(checkJobs, rest, now)
      invariant recovered == |PublishedIn(checkJobs, checkJobs.Keys - rest)|
      decreases |rest|
    {
      var j :| j in rest;
      OneMorePublished(checkJobs, checkJobs.Keys - rest, j);
      RecoverOne(checkJobs, rest, j, now);
      var job := jobs[j];
      assert checkJobs.Keys - (rest - {j}) == checkJobs.Keys - rest + {j};
      rest := rest - {j};
      if job.status.Scheduled? || job.status.Queued? {
        jobs := jobs[j := job.(status := Failed, availableAt := now, leaseExpiresAt := 0,
                               leaseToken := "", publicationToken := "")];
        recovered := recovered + 1;
      }
    }
    assert checkJobs.Keys - {} == checkJobs.Keys;
  }

  /** t has the URL index and the incidents of u and is s otherwise. */
  function WithIncidents(s: Store, u: Store): Store {
    s.(byURL := u.byURL, incidents := u.incidents, open := u.open, resolved := u.resolved)
  }

  /** t has the URL index and the jobs of u and is s otherwise. */
  function WithJobs(s: Store, u: Store): Store {
    s.(byURL := u.byURL, jobs := u.jobs, active := u.active, terminal := u.terminal)
  }

  /** The parts of the store that ending a job or resolving an incident leaves alone may change meanwhile. */
  lemma FinishAside(s: Store, j: ID, t: Store)
    requires j in s.jobs && t == WithIncidents(s, t)
    ensures FinishJob(t, j, Dead) == WithIncidents(FinishJob(s, j, Dead), t)
  {
  }

  lemma KillAside(s: Store, m: ID, t: Store)
    requires t == WithIncidents(s, t)
    ensures KillActive(t, m) == WithIncidents(KillActive(s, m), t)
    ensures var k := KillActive(s, m); k == s.(jobs := k.jobs, active := k.active, terminal := k.terminal)
  {
    if m in s.active && s.active[m] in s.jobs {
      var j := s.active[m];
      assert KillActive(s, m) == FinishJob(s, j, Dead) && KillActive(t, m) == FinishJob(t, j, Dead);
      FinishAside(s, j, t);
    }
  }

  lemma RetireAside(s: Store, i: ID, t: Store)
    requires t == WithJobs(s, t)
    ensures RetireIncident(t, i) == WithJobs(RetireIncident(s, i), t)
  {
  }

  lemma ResolveAside(s: Store, m: ID, t: Store)
    requires t == WithJobs(s, t)
    ensures ResolveOpen(t, m) == WithJobs(ResolveOpen(s, m), t)
    ensures var r := ResolveOpen(s, m); r == s.(incidents := r.incidents, open := r.open, resolved := r.resolved)
  {
    if m in s.open && s.open[m] in s.incidents {
      var i := s.open[m];
      var a := s.(incidents := s.incidents[i := s.incidents[i].(open := false)], open := s.open - {m});
      var b := t.(incidents := t.incidents[i := t.incidents[i].(open := false)], open := t.open - {m});
      assert ResolveOpen(s, m) == RetireIncident(a, i) && ResolveOpen(t, m) == RetireIncident(b, i);
      RetireAside(a, i, b);
    }
  }

  /** The order in which an update changes the parts does not matter. */
  lemma UpdateOrder(s: Store, m: ID, byURL: map<string, ID>)
    ensures KillActive(s.(byURL := byURL), m) == KillActive(s, m).(byURL := byURL)
    ensures ResolveOpen(KillActive(s.(byURL := byURL), m), m) == ResolveOpen(KillActive(s, m), m).(byURL := byURL)
    ensures KillActive(ResolveOpen(s.(byURL := byURL), m), m) == ResolveOpen(KillActive(s, m), m).(byURL := byURL)
    ensures KillActive(s, m).monitors == s.monitors && ResolveOpen(KillActive(s, m), m).monitors == s.monitors
    ensures KillActive(s, m).byURL == s.byURL && ResolveOpen(KillActive(s, m), m).byURL == s.byURL
  {
    var t := s.(byURL := byURL);
    KillAside(s, m, t);
    ResolveAside(KillActive(s, m), m, KillActive(t, m));
    ResolveAside(t, m, KillActive(t, m));
    KillAside(t, m, ResolveOpen(t, m));
  }

  lemma FinishIgnoresProcessed(s: Store, j: ID, processed: seq<ID>)
    requires j in s.jobs
    ensures FinishJob(s.(processed := processed), j, Completed) == FinishJob(s, j, Completed).(processed := processed)
  {
  }

  lemma SweptActive(st: State, order: seq<ID>, now: Time, maxAttempts: nat)
    requires Good(st) && now > st.clock
    ensures var s := SweepAll(st.store, order, now, maxAttempts); ActiveAgrees(s.jobs, s.active)
  {
    SweepAllGood(st, order, now, maxAttempts);
    FactOf(st.(store := SweepAll(st.store, order, now, maxAttempts)), Agreement);
    ClauseOf(SweepAll(st.store, order, now, maxAttempts), Active);
  }
}
