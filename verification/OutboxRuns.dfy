/** send_outbox (worker.py) over wa.outbox as a state machine: any number of drains, enqueues and
    crashes interleave at transaction boundaries.

    A job is a row some drain has claimed and not finished.  A drain that dies, or that finds the
    contact gone, drops its job.  Jobs are finished in any order. */
module OutboxRuns {
  import opened Outbox

  const CLAIM_LIMIT := 20

  datatype Reply = Ack(wamid: string) | Refused(code: string, retryable: bool)

  datatype Job = Ready(row: nat, claimedAt: real) | Answered(row: nat, claimedAt: real, reply: Reply)

  /** The table, the clock and the claimed rows; and per row, as history, the number of claims, the
      number of Meta calls and the first send_after. */
  datatype State = State(
    rows: seq<Row>, now: real, jobs: seq<Job>, claims: seq<nat>, calls: seq<nat>, first: seq<real>)

  datatype Action =
    | Tick(d: real)
    | Enqueue(m: Message)
    | Claim(ids: seq<nat>)
    | NoRoute(j: nat)
    | UnknownKind(j: nat)
    | Call(j: nat, reply: Reply)
    | Record(j: nat)
    | Drop(j: nat)

  /** The kinds send_outbox knows how to send. */
  predicate Sendable(r: Row) { r.kind.Text? || (r.kind.Interactive? && r.buttons) || r.kind.Template? }

  const START := State([], 0.0, [], [], [], [])

  ghost predicate Shape(s: State) {
    && |s.claims| == |s.rows| && |s.calls| == |s.rows| && |s.first| == |s.rows|
    && forall j | 0 <= j < |s.jobs| :: s.jobs[j].row < |s.rows|
  }

  ghost predicate Enabled(s: State, a: Action) {
    && Shape(s)
    && match a
       case Tick(d) => d >= 0.0
       case Enqueue(m) => true
       case Claim(ids) => Claimable(Expire(s.rows, s.now), s.now, CLAIM_LIMIT, ids)
       case NoRoute(j) => j < |s.jobs| && s.jobs[j].Ready?
       case UnknownKind(j) => j < |s.jobs| && s.jobs[j].Ready? && !Sendable(s.rows[s.jobs[j].row])
       case Call(j, _) => j < |s.jobs| && s.jobs[j].Ready? && Sendable(s.rows[s.jobs[j].row])
       case Record(j) => j < |s.jobs| && s.jobs[j].Answered?
       case Drop(j) => j < |s.jobs|
  }

  function Without(jobs: seq<Job>, j: nat): seq<Job>
    requires j < |jobs|
  {
    jobs[..j] + jobs[j + 1..]
  }

  function JobsFor(ids: seq<nat>, now: real): (r: seq<Job>)
    ensures |r| == |ids| && forall k | 0 <= k < |ids| :: r[k] == Ready(ids[k], now)
  {
    seq(|ids|, k requires 0 <= k < |ids| => Ready(ids[k], now))
  }

  function Bump(counts: seq<nat>, ids: seq<nat>): (r: seq<nat>)
    ensures |r| == |counts|
  {
    seq(|counts|, i requires 0 <= i < |counts| => if i in ids then counts[i] + 1 else counts[i])
  }

  function Fail(s: State, j: nat, error: string, permanent: bool): State
    requires Shape(s) && j < |s.jobs|
  {
    s.(rows := MarkFailedRows(s.rows, s.jobs[j].row, error, permanent, s.now), jobs := Without(s.jobs, j))
  }

  function Apply(s: State, a: Action): State
    requires Enabled(s, a)
  {
    match a
    case Tick(d) => s.(now := s.now + d)
    case Enqueue(m) =>
      if Deduplicated(m) && Twins(s.rows, m) != {} then s else
      var row := NewRow(m, s.now);
      s.(rows := s.rows + [row], claims := s.claims + [0], calls := s.calls + [0],
         first := s.first + [row.sendAfter])
    case Claim(ids) =>
      s.(rows := CountAttempts(Expire(s.rows, s.now), ids), claims := Bump(s.claims, ids),
         jobs := s.jobs + JobsFor(ids, s.now))
    case NoRoute(j) => Fail(s, j, "NO_ROUTE", true)
    case UnknownKind(j) => Fail(s, j, "UNKNOWN_KIND", true)
    case Call(j, reply) =>
      var job := s.jobs[j];
      s.(jobs := s.jobs[j := Answered(job.row, job.claimedAt, reply)],
         calls := s.calls[job.row := s.calls[job.row] + 1])
    case Record(j) =>
      (match s.jobs[j].reply
       case Ack(wamid) => s.(rows := MarkSentRows(s.rows, s.jobs[j].row, wamid), jobs := Without(s.jobs, j))
       case Refused(code, retryable) => Fail(s, j, code, !retryable))
    case Drop(j) => s.(jobs := Without(s.jobs, j))
  }

  /** Every action of the run is possible when its turn comes. */
  ghost predicate Run(s: State, acts: seq<Action>)
    decreases |acts|
  {
    acts == [] || (Enabled(s, acts[0]) && Run(Apply(s, acts[0]), acts[1..]))
  }

  ghost function Exec(s: State, acts: seq<Action>): State
    requires Run(s, acts)
    decreases |acts|
  {
    if acts == [] then s else Exec(Apply(s, acts[0]), acts[1..])
  }

  lemma {:induction false} RunConcat(s: State, x: seq<Action>, y: seq<Action>)
    requires Run(s, x) && Run(Exec(s, x), y)
    ensures Run(s, x + y) && Exec(s, x + y) == Exec(Exec(s, x), y)
    decreases |x|
  {
    if x == [] {
      assert x + y == y;
    } else {
      assert (x + y)[0] == x[0] && (x + y)[1..] == x[1..] + y;
      RunConcat(Apply(s, x[0]), x[1..], y);
    }
  }

  lemma RunOne(s: State, a: Action)
    requires Enabled(s, a)
    ensures Run(s, [a]) && Exec(s, [a]) == Apply(s, a)
  {
    assert [a][1..] == [];
  }

  /** One more step of a run. */
  lemma RunSnoc(s: State, acts: seq<Action>, a: Action)
    requires Run(s, acts) && Enabled(Exec(s, acts), a)
    ensures Run(s, acts + [a]) && Exec(s, acts + [a]) == Apply(Exec(s, acts), a)
  {
    RunOne(Exec(s, acts), a);
    RunConcat(s, acts, [a]);
  }

  /** What a claim does to each row. */
  ghost predicate ClaimEffect(s: State, ids: seq<nat>, s': State) {
    && Shape(s) && |s'.rows| == |s.rows| && |s'.claims| == |s.claims|
    && s'.now == s.now && s'.calls == s.calls && s'.first == s.first
    && s'.jobs == s.jobs + JobsFor(ids, s.now)
    && (forall k, l | 0 <= k < l < |ids| :: ids[k] != ids[l])
    && (forall k | 0 <= k < |ids| :: TakenRow(s, ids[k], s'))
    && (forall i | 0 <= i < |s.rows| && i !in ids :: LeftRow(s, i, s'))
  }

  ghost predicate TakenRow(s: State, i: nat, s': State)
    requires Shape(s) && |s'.rows| == |s.rows| && |s'.claims| == |s.claims|
  {
    && i < |s.rows| && s.rows[i].state.Pending? && s.rows[i].attempts < MAX_ATTEMPTS
    && s.now - WINDOW <= s.rows[i].sendAfter <= s.now
    && s'.rows[i] == s.rows[i].(attempts := s.rows[i].attempts + 1) && s'.claims[i] == s.claims[i] + 1
  }

  ghost predicate LeftRow(s: State, i: nat, s': State)
    requires Shape(s) && |s'.rows| == |s.rows| && |s'.claims| == |s.claims| && i < |s.rows|
  {
    && s'.claims[i] == s.claims[i]
    && (s'.rows[i] == s.rows[i]
        || (s.rows[i].state.Pending? && s'.rows[i] == s.rows[i].(state := SkippedWindow)))
  }

  lemma ClaimFacts(s: State, ids: seq<nat>)
    requires Enabled(s, Claim(ids))
    ensures ClaimEffect(s, ids, Apply(s, Claim(ids)))
  {
    var s' := Apply(s, Claim(ids));
    forall k | 0 <= k < |ids| ensures TakenRow(s, ids[k], s') {
      ClaimWindow(s.rows, s.now, CLAIM_LIMIT, ids, k);
      assert Eligible(Expire(s.rows, s.now)[ids[k]], s.now);
      assert ids[k] in ids;
    }
    forall i | 0 <= i < |s.rows| && i !in ids ensures LeftRow(s, i, s') {
    }
  }

  // ---- Meta calls are bounded by claims, claims by the attempt cap -----------------------------------

  /** Claimed rows not yet sent, per row. */
  function Unsent(jobs: seq<Job>, i: nat): nat {
    if jobs == [] then 0 else
    Unsent(jobs[..|jobs| - 1], i) +
    (var job := jobs[|jobs| - 1]; if job.Ready? && job.row == i then 1 else 0)
  }

  function One(job: Job, i: nat): nat { if job.Ready? && job.row == i then 1 else 0 }

  lemma {:induction false} UnsentConcat(x: seq<Job>, y: seq<Job>, i: nat)
    ensures Unsent(x + y, i) == Unsent(x, i) + Unsent(y, i)
  {
    if y == [] {
      assert x + y == x;
    } else {
      var n := |y| - 1;
      assert (x + y)[..|x + y| - 1] == x + y[..n];
      UnsentConcat(x, y[..n], i);
    }
  }

  lemma UnsentSplit(jobs: seq<Job>, j: nat, i: nat)
    requires j < |jobs|
    ensures Unsent(jobs, i) == Unsent(jobs[..j], i) + One(jobs[j], i) + Unsent(jobs[j + 1..], i)
  {
    var one := [jobs[j]];
    assert one[..0] == [];
    assert jobs == (jobs[..j] + one) + jobs[j + 1..];
    UnsentConcat(jobs[..j] + one, jobs[j + 1..], i);
    UnsentConcat(jobs[..j], one, i);
  }

  lemma UnsentWithout(jobs: seq<Job>, j: nat, i: nat)
    requires j < |jobs|
    ensures Unsent(Without(jobs, j), i) == Unsent(jobs, i) - One(jobs[j], i)
  {
    UnsentSplit(jobs, j, i);
    UnsentConcat(jobs[..j], jobs[j + 1..], i);
  }

  lemma UnsentUpdate(jobs: seq<Job>, j: nat, job: Job, i: nat)
    requires j < |jobs|
    ensures Unsent(jobs[j := job], i) == Unsent(jobs, i) - One(jobs[j], i) + One(job, i)
  {
    UnsentSplit(jobs, j, i);
    UnsentSplit(jobs[j := job], j, i);
    assert jobs[j := job][..j] == jobs[..j] && jobs[j := job][j + 1..] == jobs[j + 1..];
  }

  lemma {:induction false} UnsentFresh(ids: seq<nat>, now: real, i: nat)
    requires forall k, l | 0 <= k < l < |ids| :: ids[k] != ids[l]
    ensures Unsent(JobsFor(ids, now), i) == if i in ids then 1 else 0
  {
    if ids != [] {
      var n := |ids| - 1;
      assert JobsFor(ids, now)[..n] == JobsFor(ids[..n], now);
      assert ids == ids[..n] + [ids[n]];
      UnsentFresh(ids[..n], now, i);
    }
  }

  ghost predicate Bounded(s: State) {
    && Shape(s)
    && forall i: nat | i < |s.rows| ::
         s.claims[i] == s.rows[i].attempts <= MAX_ATTEMPTS && s.calls[i] + Unsent(s.jobs, i) <= s.claims[i]
  }

  lemma BoundedClaim(s: State, ids: seq<nat>, s': State)
    requires Bounded(s) && ClaimEffect(s, ids, s')
    ensures Bounded(s')
  {
    forall j | 0 <= j < |s'.jobs| ensures s'.jobs[j].row < |s'.rows| {
      if j >= |s.jobs| { assert TakenRow(s, ids[j - |s.jobs|], s'); }
    }
    forall i: nat | i < |s'.rows|
      ensures s'.claims[i] == s'.rows[i].attempts <= MAX_ATTEMPTS && s'.calls[i] + Unsent(s'.jobs, i) <= s'.claims[i]
    {
      UnsentConcat(s.jobs, JobsFor(ids, s.now), i);
      UnsentFresh(ids, s.now, i);
      if i in ids { assert TakenRow(s, i, s'); } else { assert LeftRow(s, i, s'); }
    }
  }

  lemma BoundedFinish(s: State, j: nat, s': State)
    requires Bounded(s) && j < |s.jobs| && s'.jobs == Without(s.jobs, j) && |s'.rows| == |s.rows|
    requires s'.claims == s.claims && s'.calls == s.calls
    requires forall i | 0 <= i < |s.rows| :: s'.rows[i].attempts == s.rows[i].attempts
    requires s'.first == s.first
    ensures Bounded(s')
  {
    forall i: nat | i < |s'.rows|
      ensures s'.claims[i] == s'.rows[i].attempts <= MAX_ATTEMPTS && s'.calls[i] + Unsent(s'.jobs, i) <= s'.claims[i]
    {
      UnsentWithout(s.jobs, j, i);
    }
  }

  lemma BoundedStep(s: State, a: Action)
    requires Bounded(s) && Enabled(s, a)
    ensures Bounded(Apply(s, a))
  {
    var s' := Apply(s, a);
    match a
    case Tick(_) =>
    case Claim(ids) =>
      ClaimFacts(s, ids);
      BoundedClaim(s, ids, s');
    case Enqueue(_) =>
      NoJobsNoUnsent(s.jobs, |s.rows|);
    case Call(j, reply) =>
      forall i: nat | i < |s'.rows|
        ensures s'.calls[i] + Unsent(s'.jobs, i) <= s'.claims[i]
      {
        UnsentUpdate(s.jobs, j, s'.jobs[j], i);
      }
    case _ => BoundedFinish(s, a.j, s');
  }

  lemma {:induction false} NoJobsNoUnsent(jobs: seq<Job>, i: nat)
    requires forall j | 0 <= j < |jobs| :: jobs[j].row != i
    ensures Unsent(jobs, i) == 0
  {
    if jobs != [] { NoJobsNoUnsent(jobs[..|jobs| - 1], i); }
  }

  lemma {:induction false} BoundedRun(s: State, acts: seq<Action>)
    requires Bounded(s) && Run(s, acts)
    ensures Bounded(Exec(s, acts))
    decreases |acts|
  {
    if acts != [] {
      BoundedStep(s, acts[0]);
      BoundedRun(Apply(s, acts[0]), acts[1..]);
    }
  }

  function Total(counts: seq<nat>): nat {
    if counts == [] then 0 else Total(counts[..|counts| - 1]) + counts[|counts| - 1]
  }

  lemma {:induction false} TotalBound(counts: seq<nat>, k: nat)
    requires forall i | 0 <= i < |counts| :: counts[i] <= k
    ensures Total(counts) <= k * |counts|
  {
    if counts != [] { TotalBound(counts[..|counts| - 1], k); }
  }

  /** With any overlap of drains and any crashes, the attempts column counts a row's claims, never
      passes 3 and bounds the row's Meta calls; a run makes at most 3 calls per enqueued row. */
  lemma CallBound(acts: seq<Action>)
    requires Run(START, acts)
    ensures var s := Exec(START, acts);
            && Shape(s)
            && (forall i: nat | i < |s.rows| :: s.calls[i] <= s.rows[i].attempts == s.claims[i] <= 3)
            && Total(s.calls) <= 3 * |s.rows|
  {
    BoundedRun(START, acts);
    TotalBound(Exec(START, acts).calls, 3);
  }
}
