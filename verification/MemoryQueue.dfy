/** The in-memory queue: a bounded buffer and the set of job identifiers that are still live. Each operation is
    one critical section; publishing takes two. */
module MemoryQueue {
  import opened Identifiers
  import opened Model

  datatype JobMessage = JobMessage(job: ID, monitor: ID, attempt: int, enqueuedAt: Time)

  datatype Outcome = Accepted | AlreadyLive | Canceled | Full

  /** What a consumer gets from the buffer: a message, nothing yet, or the news that the queue was closed. */
  datatype Received = Received(message: JobMessage, retryable: bool) | Blocked | Ended

  /** The queue as a value. Beside the buffer and `seen` it records which identifiers are marked and not yet
      buffered, which were delivered and not yet settled, and which were lost by a cancelled consumer. */
  datatype Queue = Queue(
    capacity: nat,
    maxAttempts: int,
    jobs: seq<JobMessage>,
    deadLetters: seq<JobMessage>,
    seen: set<ID>,
    closed: bool,
    publishing: set<ID>,
    unsettled: set<ID>,
    lost: set<ID>)

  function NewQueue(bufferSize: nat, maxAttempts: int): Queue {
    Queue(bufferSize, maxAttempts, [], [], {}, false, {}, {}, {})
  }

  /** What Publish makes of a message before anything else. */
  function Normal(m: JobMessage, clock: Time): (r: JobMessage)
    ensures r.job != "" && r.monitor == m.monitor && r.enqueuedAt == m.enqueuedAt
    ensures m.job != "" && m.attempt != 0 ==> r == m
  {
    m.(job := if m.job == "" then NewCheckJobID(m.monitor, m.enqueuedAt, clock) else m.job,
       attempt := if m.attempt == 0 then 1 else m.attempt)
  }

  ghost function Ids(jobs: seq<JobMessage>): set<ID> { set m | m in jobs :: m.job }

  ghost predicate DistinctIds(jobs: seq<JobMessage>) {
    forall i, k :: 0 <= i < k < |jobs| ==> jobs[i].job != jobs[k].job
  }

  /** Conservation: `seen` is exactly what is being published, buffered or unsettled (or was lost in a cancelled
      hand-off); these are disjoint, no two buffered messages share an identifier, and the buffers are bounded. */
  ghost predicate Conserved(q: Queue) {
    && |q.jobs| <= q.capacity && |q.deadLetters| <= q.capacity && DistinctIds(q.jobs)
    && q.seen == q.publishing + Ids(q.jobs) + q.unsettled + q.lost
    && q.publishing !! q.unsettled && q.publishing !! q.lost && q.unsettled !! q.lost
    && Ids(q.jobs) !! q.publishing && Ids(q.jobs) !! q.unsettled && Ids(q.jobs) !! q.lost
  }

  // ------------------------------------------------------------------ operations

  /** First half of publishing: a live identifier is reported as success without being enqueued. */
  function Begin(q: Queue, m: JobMessage): (Queue, Outcome) {
    if q.closed then (q, Canceled)
    else if m.job in q.seen then (q, AlreadyLive)
    else (q.(seen := q.seen + {m.job}, publishing := q.publishing + {m.job}), Accepted)
  }

  /** Handing a message to the buffer; `cancelled` says that the select took the cancellation. */
  function Enqueue(q: Queue, m: JobMessage, cancelled: bool): (Queue, Outcome) {
    if q.closed || cancelled then (q, Canceled)
    else if |q.jobs| >= q.capacity then (q, Full)
    else (q.(jobs := q.jobs + [m]), Accepted)
  }

  /** Second half of publishing: into the buffer, or the identifier is released again. */
  function Finish(q: Queue, m: JobMessage, cancelled: bool): (Queue, Outcome) {
    var (t, r) := Enqueue(q.(publishing := q.publishing - {m.job}), m, cancelled);
    (if r.Accepted? then t else t.(seen := t.seen - {m.job}), r)
  }

  /** A consumer takes the oldest message; if it is cancelled before handing it over, the message is gone and
      its identifier stays taken. */
  function Receive(q: Queue, handedOver: bool): (Queue, Received) {
    if q.jobs == [] then (q, if q.closed then Ended else Blocked)
    else
      var m := q.jobs[0];
      (q.(jobs := q.jobs[1..],
          unsettled := if handedOver then q.unsettled + {m.job} else q.unsettled,
          lost := if handedOver then q.lost else q.lost + {m.job}),
       Received(m, m.attempt < q.maxAttempts))
  }

  function Ack(q: Queue, m: JobMessage): Queue {
    q.(seen := q.seen - {m.job}, unsettled := q.unsettled - {m.job})
  }

  /** A delivered message goes back unchanged; if the buffer does not take it, its identifier is released. */
  function Requeue(q: Queue, m: JobMessage, cancelled: bool): (Queue, Outcome) {
    var (t, r) := Enqueue(q.(unsettled := q.unsettled - {m.job}), m, cancelled);
    (if r.Accepted? then t else t.(seen := t.seen - {m.job}), r)
  }

  /** A delivered message is retried with the next attempt while attempts remain, otherwise it becomes a dead
      letter if there is room. */
  function Nack(q: Queue, m: JobMessage, requeue: bool, cancelled: bool): (Queue, Outcome) {
    if requeue && m.attempt < q.maxAttempts then Requeue(q, m.(attempt := m.attempt + 1), cancelled)
    else
      var t := Ack(q, m);
      (if |q.deadLetters| < q.capacity then t.(deadLetters := t.deadLetters + [m]) else t, Accepted)
  }

  // ------------------------------------------------------------------ conservation

  lemma IdsAppend(jobs: seq<JobMessage>, m: JobMessage)
    requires DistinctIds(jobs) && m.job !in Ids(jobs)
    ensures Ids(jobs + [m]) == Ids(jobs) + {m.job} && DistinctIds(jobs + [m])
  {
    forall x | x in Ids(jobs) + {m.job} ensures x in Ids(jobs + [m]) {
      if x == m.job { assert m in jobs + [m]; } else { var k :| k in jobs && k.job == x; assert k in jobs + [m]; }
    }
    forall i | 0 <= i < |jobs| ensures jobs[i].job != m.job { assert jobs[i] in jobs; }
  }

  lemma IdsPop(jobs: seq<JobMessage>)
    requires DistinctIds(jobs) && jobs != []
    ensures Ids(jobs) == Ids(jobs[1..]) + {jobs[0].job} && jobs[0].job !in Ids(jobs[1..]) && DistinctIds(jobs[1..])
  {
    forall x | x in Ids(jobs) ensures x in Ids(jobs[1..]) + {jobs[0].job} {
      var k :| k in jobs && k.job == x;
      if k != jobs[0] { assert k in jobs[1..]; }
    }
    forall x | x in Ids(jobs[1..]) ensures x in Ids(jobs) && x != jobs[0].job {
      var k :| k in jobs[1..] && k.job == x;
      assert k in jobs;
      var i :| 0 <= i < |jobs[1..]| && jobs[1..][i] == k;
      assert jobs[i + 1] == k;
    }
    assert jobs[0] in jobs;
  }

  lemma BeginConserves(q: Queue, m: JobMessage)
    requires Conserved(q)
    ensures Conserved(Begin(q, m).0)
  {
  }

  lemma EnqueueConserves(q: Queue, m: JobMessage, cancelled: bool)
    requires Conserved(q.(seen := q.seen - {m.job})) && m.job in q.seen
    ensures var (t, r) := Enqueue(q, m, cancelled);
      Conserved(if r.Accepted? then t else t.(seen := t.seen - {m.job}))
  {
    IdsAppend(q.jobs, m);
  }

  lemma FinishConserves(q: Queue, m: JobMessage, cancelled: bool)
    requires Conserved(q) && m.job in q.publishing
    ensures Conserved(Finish(q, m, cancelled).0)
  {
    EnqueueConserves(q.(publishing := q.publishing - {m.job}), m, cancelled);
  }

  lemma ReceiveConserves(q: Queue, handedOver: bool)
    requires Conserved(q)
    ensures Conserved(Receive(q, handedOver).0)
  {
    if q.jobs != [] { IdsPop(q.jobs); }
  }

  lemma RequeueConserves(q: Queue, m: JobMessage, cancelled: bool)
    requires Conserved(q) && m.job in q.unsettled
    ensures Conserved(Requeue(q, m, cancelled).0)
  {
    EnqueueConserves(q.(unsettled := q.unsettled - {m.job}), m, cancelled);
  }

  /** A retry never carries an attempt above the maximum. */
  lemma NackConserves(q: Queue, m: JobMessage, requeue: bool, cancelled: bool)
    requires Conserved(q) && m.job in q.unsettled
    ensures Conserved(Nack(q, m, requeue, cancelled).0)
    ensures var t := Nack(q, m, requeue, cancelled).0;
      |t.jobs| > |q.jobs| ==> t.jobs == q.jobs + [m.(attempt := m.attempt + 1)] && m.attempt + 1 <= q.maxAttempts
  {
    if requeue && m.attempt < q.maxAttempts { RequeueConserves(q, m.(attempt := m.attempt + 1), cancelled); }
  }

  // ------------------------------------------------------------------ runs

  datatype QueueOp =
    | Beginning(m: JobMessage)
    | Finishing(m: JobMessage, cancelled: bool)
    | Receiving(handedOver: bool)
    | Acking(m: JobMessage)
    | Requeuing(m: JobMessage, cancelled: bool)
    | Nacking(m: JobMessage, requeue: bool, cancelled: bool)
    | Closing

  /** Publishing is finished after it was begun, and each delivery is settled once. */
  predicate InOrder(q: Queue, op: QueueOp) {
    && (op.Finishing? ==> op.m.job in q.publishing)
    && (op.Acking? || op.Requeuing? || op.Nacking? ==> op.m.job in q.unsettled)
  }

  function Next(q: Queue, op: QueueOp): Queue {
    match op
    case Beginning(m) => Begin(q, m).0
    case Finishing(m, cancelled) => Finish(q, m, cancelled).0
    case Receiving(handedOver) => Receive(q, handedOver).0
    case Acking(m) => Ack(q, m)
    case Requeuing(m, cancelled) => Requeue(q, m, cancelled).0
    case Nacking(m, requeue, cancelled) => Nack(q, m, requeue, cancelled).0
    case Closing => q.(closed := true)
  }

  lemma NextConserves(q: Queue, op: QueueOp)
    requires Conserved(q) && InOrder(q, op)
    ensures Conserved(Next(q, op)) && (op != Receiving(false) ==> Next(q, op).lost == q.lost)
  {
    match op
    case Beginning(m) => BeginConserves(q, m);
    case Finishing(m, cancelled) => FinishConserves(q, m, cancelled);
    case Receiving(handedOver) => ReceiveConserves(q, handedOver);
    case Acking(_) =>
    case Requeuing(m, cancelled) => RequeueConserves(q, m, cancelled);
    case Nacking(m, requeue, cancelled) => NackConserves(q, m, requeue, cancelled);
    case Closing =>
  }

  ghost predicate IsQueueRun(bufferSize: nat, maxAttempts: int, qs: seq<Queue>, ops: seq<QueueOp>) {
    && |qs| == |ops| + 1 && qs[0] == NewQueue(bufferSize, maxAttempts)
    && (forall i :: 0 <= i < |ops| ==> InOrder(qs[i], ops[i]) && qs[i + 1] == Next(qs[i], ops[i]))
  }

  /** Conservation over every run: if each delivery is settled once and no hand-off is cancelled, the live
      identifiers are exactly those being published, buffered or unsettled. */
  lemma {:induction false} RunConserves(bufferSize: nat, maxAttempts: int, qs: seq<Queue>, ops: seq<QueueOp>, i: nat)
    requires IsQueueRun(bufferSize, maxAttempts, qs, ops) && i < |qs|
    ensures Conserved(qs[i])
    ensures (forall p :: 0 <= p < i ==> ops[p] != Receiving(false)) ==>
      qs[i].lost == {} && qs[i].seen == qs[i].publishing + Ids(qs[i].jobs) + qs[i].unsettled
  {
    if i > 0 {
      RunConserves(bufferSize, maxAttempts, qs, ops, i - 1);
      NextConserves(qs[i - 1], ops[i - 1]);
    }
  }

  // ------------------------------------------------------------------ one publication

  /** Both halves of publishing, as one caller runs them. */
  function Publish(q: Queue, m: JobMessage, cancelled: bool): (Queue, Outcome) {
    var (t, r) := Begin(q, m);
    if r.Accepted? then Finish(t, m, cancelled) else (t, r)
  }

  /** Publish returned without an error. */
  predicate Reported(r: Outcome) { r.Accepted? || r.AlreadyLive? }

  /** A publication reported as successful put its message into the buffer exactly when its identifier was not
      already live. */
  lemma PublishReaches(q: Queue, m: JobMessage, cancelled: bool)
    ensures var (t, r) := Publish(q, m, cancelled);
      Reported(r) ==> (t.jobs == q.jobs + [m] <==> m.job !in q.seen)
  {
  }

  // ------------------------------------------------------------------ the queue in place

  class InMemoryQueue {
    const capacity: nat
    const maxAttempts: int
    var jobs: seq<JobMessage>
    var deadLetters: seq<JobMessage>
    var seen: set<ID>
    var closed: bool
    ghost var q: Queue

    ghost predicate Valid()
      reads this
    {
      && Conserved(q) && q.capacity == capacity && q.maxAttempts == maxAttempts
      && q.jobs == jobs && q.deadLetters == deadLetters && q.seen == seen && q.closed == closed
    }

    constructor (bufferSize: nat, maxAttempts: int)
      ensures Valid() && q == NewQueue(bufferSize, maxAttempts)
    {
      capacity, this.maxAttempts := bufferSize, maxAttempts;
      jobs, deadLetters, seen, closed := [], [], {}, false;
      q := NewQueue(bufferSize, maxAttempts);
    }

    method BeginPublish(message: JobMessage, clock: Time) returns (r: Outcome, m: JobMessage)
      requires Valid()
      modifies this
      ensures Valid() && m == Normal(message, clock) && (q, r) == Begin(old(q), m)
    {
      m := Normal(message, clock);
      BeginConserves(q, m);
      q := Begin(q, m).0;
      if closed { return Canceled, m; }
      if m.job in seen { return AlreadyLive, m; }
      seen := seen + {m.job};
      return Accepted, m;
    }

    method Buffer(m: JobMessage, cancelled: bool) returns (r: Outcome)
      modifies this`jobs
      ensures r == if closed || cancelled then Canceled else if |old(jobs)| >= capacity then Full else Accepted
      ensures jobs == if r.Accepted? then old(jobs) + [m] else old(jobs)
    {
      if closed || cancelled { return Canceled; }
      if |jobs| >= capacity { return Full; }
      jobs := jobs + [m];
      return Accepted;
    }

    method FinishPublish(m: JobMessage, cancelled: bool) returns (r: Outcome)
      requires Valid() && m.job in q.publishing
      modifies this
      ensures Valid() && (q, r) == Finish(old(q), m, cancelled)
    {
      FinishConserves(q, m, cancelled);
      q := Finish(q, m, cancelled).0;
      r := Buffer(m, cancelled);
      if !r.Accepted? { seen := seen - {m.job}; }
    }

    method Take(handedOver: bool) returns (r: Received)
      requires Valid()
      modifies this
      ensures Valid() && (q, r) == Receive(old(q), handedOver)
    {
      ReceiveConserves(q, handedOver);
      q := Receive(q, handedOver).0;
      if |jobs| == 0 { return if closed then Ended else Blocked; }
      var m := jobs[0];
      jobs := jobs[1..];
      return Received(m, m.attempt < maxAttempts);
    }

    method AckDelivery(m: JobMessage)
      requires Valid() && m.job in q.unsettled
      modifies this
      ensures Valid() && q == Ack(old(q), m)
    {
      q := Ack(q, m);
      seen := seen - {m.job};
    }

    method RequeueDelivery(m: JobMessage, cancelled: bool) returns (r: Outcome)
      requires Valid() && m.job in q.unsettled
      modifies this
      ensures Valid() && (q, r) == Requeue(old(q), m, cancelled)
    {
      RequeueConserves(q, m, cancelled);
      q := Requeue(q, m, cancelled).0;
      r := Buffer(m, cancelled);
      if !r.Accepted? { seen := seen - {m.job}; }
    }

    method NackDelivery(m: JobMessage, requeue: bool, cancelled: bool) returns (r: Outcome)
      requires Valid() && m.job in q.unsettled
      modifies this
      ensures Valid() && (q, r) == Nack(old(q), m, requeue, cancelled)
    {
      if requeue && m.attempt < maxAttempts {
        r := RequeueDelivery(m.(attempt := m.attempt + 1), cancelled);
        return;
      }
      NackConserves(q, m, requeue, cancelled);
      q := Nack(q, m, requeue, cancelled).0;
      seen := seen - {m.job};
      if |deadLetters| < capacity { deadLetters := deadLetters + [m]; }
      return Accepted;
    }

    /** Consumers find the buffer ended once it is empty. */
    method Close()
      requires Valid()
      modifies this
      ensures Valid() && q == old(q).(closed := true)
      ensures q.jobs == [] ==> forall h :: Receive(q, h).1.Ended?
    {
      if !closed {
        closed := true;
        q := q.(closed := true);
      }
    }
  }
}
