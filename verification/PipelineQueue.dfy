/** Queue termination: one weight over queued tasks, collecting sessions and the outbox falls with every
    step that does something, so a run does a bounded amount of work per webhook received. */
module PipelineQueue {
  import opened Wrappers
  import DiPoll
  import opened Sessions
  import opened Deals
  import opened Worker
  import Outbox
  import OutboxRuns
  import opened Pipeline
  import opened PipelineSafety

  // ---- sums ---------------------------------------------------------------------------------------

  function Sum<T>(xs: seq<T>, f: T -> nat): nat {
    if xs == [] then 0 else Sum(xs[..|xs| - 1], f) + f(xs[|xs| - 1])
  }

  lemma {:induction false} SumConcat<T>(xs: seq<T>, ys: seq<T>, f: T -> nat)
    ensures Sum(xs + ys, f) == Sum(xs, f) + Sum(ys, f)
  {
    if ys == [] {
      assert xs + ys == xs;
    } else {
      assert (xs + ys)[..|xs + ys| - 1] == xs + ys[..|ys| - 1];
      SumConcat(xs, ys[..|ys| - 1], f);
    }
  }

  lemma SumOne<T>(x: T, f: T -> nat)
    ensures Sum([x], f) == f(x)
  {
    assert [x][..0] == [];
    assert Sum([x][..0], f) == 0;
  }

  lemma SumUpdate<T>(xs: seq<T>, i: nat, x: T, f: T -> nat)
    requires i < |xs|
    ensures Sum(xs[i := x], f) == Sum(xs, f) - f(xs[i]) + f(x)
    ensures Sum(xs, f) >= f(xs[i])
  {
    var (a, b) := (xs[..i], xs[i + 1..]);
    assert xs == (a + [xs[i]]) + b && xs[i := x] == (a + [x]) + b;
    SumConcat(a + [xs[i]], b, f);
    SumConcat(a + [x], b, f);
    SumConcat(a, [xs[i]], f);
    SumConcat(a, [x], f);
    SumOne(xs[i], f);
    SumOne(x, f);
  }

  lemma {:induction false} SumLe<T>(xs: seq<T>, ys: seq<T>, f: T -> nat, g: T -> nat)
    requires |xs| == |ys| && forall i | 0 <= i < |xs| :: f(ys[i]) <= g(xs[i])
    ensures Sum(ys, f) <= Sum(xs, g)
  {
    if xs != [] {
      var n := |xs| - 1;
      assert forall i | 0 <= i < n :: f(ys[..n][i]) <= g(xs[..n][i]);
      SumLe(xs[..n], ys[..n], f, g);
    }
  }

  predicate Drops<T>(f: T -> nat, x: T, y: T, k: nat) { f(y) + k <= f(x) }

  ghost predicate AllDrop<T>(xs: seq<T>, ys: seq<T>, f: T -> nat, ids: seq<nat>, k: nat)
    requires |xs| == |ys|
  {
    forall i: nat | i < |xs| :: Drops(f, xs[i], ys[i], if i in ids then k else 0)
  }

  ghost predicate Places(ids: seq<nat>, n: nat) {
    (forall j | 0 <= j < |ids| :: ids[j] < n) && (forall j, l | 0 <= j < l < |ids| :: ids[j] != ids[l])
  }

  /** Each of some distinct places loses at least k. */
  lemma {:induction false} SumDrop<T>(xs: seq<T>, ys: seq<T>, f: T -> nat, ids: seq<nat>, k: nat)
    requires |xs| == |ys| && Places(ids, |xs|) && AllDrop(xs, ys, f, ids, k)
    ensures Sum(ys, f) + k * |ids| <= Sum(xs, f)
    decreases |ids|
  {
    if ids == [] {
      forall i | 0 <= i < |xs| ensures f(ys[i]) <= f(xs[i]) { assert Drops(f, xs[i], ys[i], 0); }
      SumLe(xs, ys, f, f);
    } else {
      var n := |ids| - 1;
      var j := ids[n];
      var zs := ys[j := xs[j]];
      assert Drops(f, xs[j], ys[j], k);
      forall i: nat | i < |xs| ensures Drops(f, xs[i], zs[i], if i in ids[..n] then k else 0) {
        assert ids == ids[..n] + [j];
        assert Drops(f, xs[i], ys[i], if i in ids then k else 0);
      }
      SumDrop(xs, zs, f, ids[..n], k);
      SumUpdate(ys, j, xs[j], f);
      OneMore(k, n);
    }
  }

  lemma OneMore(k: nat, n: nat)
    ensures k * (n + 1) == k * n + k
  {}

  lemma {:induction false} SumBound<T>(xs: seq<T>, f: T -> nat, k: nat)
    requires forall i | 0 <= i < |xs| :: f(xs[i]) <= k
    ensures Sum(xs, f) <= k * |xs|
  {
    if xs != [] {
      var n := |xs| - 1;
      SumBound(xs[..n], f, k);
      assert k * |xs| == k * n + k;
    }
  }

  // ---- weights ------------------------------------------------------------------------------------

  const FETCH := 34     // a new fetch task
  const COLLECT := 43   // a collecting session

  function Media(inbox: seq<InboxRow>, row: nat): nat {
    if row < |inbox| then MediaCount(inbox[row].payload.messages) else 0
  }

  /** One handling of an inbox row: a session, a fetch per file, and its own steps. */
  function Handling(n: nat): nat { COLLECT + 2 + FETCH * n }

  /** The first round and one per retry. */
  function Rounds(retries: nat, cost: nat): nat { if retries == 0 then cost else cost + Rounds(retries - 1, cost) }

  function PollWeight(attempt: nat, ph: PollPhase): nat {
    match ph
    case Asking => 7 + if attempt < 7 then 7 - attempt else 0
    case Persisting => 6
    case Linking => 5
    case Marking(_) => 4
    case Counting => 3
    case Nudging => 2
    case Parking => 1
  }

  function FetchWeight(ph: FetchPhase): nat {
    match ph
    case Starting => 19
    case Fetching => 18
    case Posting => 17
    case Posted(_) => 16
    case Deferring(_) => 15
  }

  function TaskWeight(inbox: seq<InboxRow>): Task -> nat {
    (t: Task) =>
      match t
      case InboxTask(row, r, Unhandled) => Rounds(r, Handling(Media(inbox, row)))
      case InboxTask(row, r, Handled(_)) => 1 + if r == 0 then 0 else Rounds(r - 1, Handling(Media(inbox, row)))
      case FetchTask(_, _, r, ph) => 5 * r + FetchWeight(ph)
      case PollTask(_, _, _, a, ph) => PollWeight(a, ph)
      case ProcessTask(_, r) => 14 * (r + 1)
      case Gone => 0
  }

  function SessionWeight(): Session -> nat { (r: Session) => if r.state.Collecting? then COLLECT else 0 }

  function RowWeight(): Outbox.Row -> nat {
    (r: Outbox.Row) =>
      (if r.attempts < Outbox.MAX_ATTEMPTS then 4 * (Outbox.MAX_ATTEMPTS - r.attempts) else 0)
      + (if r.state.Pending? then 1 else 0)
  }

  function JobWeight(): OutboxRuns.Job -> nat { (j: OutboxRuns.Job) => if j.Ready? then 3 else 2 }

  function OutboxWeight(o: OutboxRuns.State): nat { Sum(o.rows, RowWeight()) + Sum(o.jobs, JobWeight()) }

  function Weight(s: State): nat {
    Sum(s.tasks, TaskWeight(s.inbox)) + Sum(s.desk.sessions, SessionWeight()) + OutboxWeight(s.outbox)
  }

  /** Steps that do something: all of a task's, a flush that claims, an outbox step that changes its state. */
  ghost predicate Effective(s: State, a: Action)
    requires a.OutboxStep? ==> OutboxRuns.Enabled(s.outbox, a.step)
  {
    match a
    case Webhook(_, _, _) => false
    case Admin(_, _) => false
    case Operator(_, _, _) => false
    case OutboxStep(x) => !x.Tick? && OutboxRuns.Apply(s.outbox, x) != s.outbox
    case Flush(ids, _) => ids != []
    case _ => true
  }

  /** What a webhook brings in. */
  function Arrival(a: Action): nat { if a.Webhook? then 180 + 136 * MediaCount(a.payload.messages) else 0 }

  /** The step lowers the weight if it does something, and raises it by at most what arrives. */
  ghost predicate Pays(s: State, a: Action, s': State)
    requires a.OutboxStep? ==> OutboxRuns.Enabled(s.outbox, a.step)
  {
    Weight(s') + (if Effective(s, a) then 1 else 0) <= Weight(s) + Arrival(a)
  }

  // ---- the outbox -----------------------------------------------------------------------------------

  lemma OutboxPays(o: OutboxRuns.State, x: OutboxRuns.Action)
    requires OutboxRuns.Enabled(o, x) && !x.Enqueue?
    ensures var o' := OutboxRuns.Apply(o, x);
      OutboxWeight(o') + (if !x.Tick? && o' != o then 1 else 0) <= OutboxWeight(o)
  {
    match x
    case Tick(_) =>
    case Claim(ids) => ClaimPays(o, ids);
    case Call(j, reply) =>
      SumUpdate(o.jobs, j, OutboxRuns.Answered(o.jobs[j].row, o.jobs[j].claimedAt, reply), JobWeight());
    case Drop(j) => WithoutPays(o.jobs, j);
    case Record(j) => FinishPays(o, OutboxRuns.Apply(o, x), j);
    case NoRoute(j) => FinishPays(o, OutboxRuns.Apply(o, x), j);
    case UnknownKind(j) => FinishPays(o, OutboxRuns.Apply(o, x), j);
  }

  lemma WithoutPays(jobs: seq<OutboxRuns.Job>, j: nat)
    requires j < |jobs|
    ensures Sum(OutboxRuns.Without(jobs, j), JobWeight()) + 2 <= Sum(jobs, JobWeight())
  {
    var x, y := jobs[..j], jobs[j + 1..];
    assert jobs == (x + [jobs[j]]) + y;
    SumMiddle(x, jobs[j], y, JobWeight());
  }

  lemma SumMiddle<T>(x: seq<T>, m: T, y: seq<T>, f: T -> nat)
    ensures Sum((x + [m]) + y, f) == Sum(x + y, f) + f(m)
  {
    SumConcat(x + [m], y, f);
    SumConcat(x, [m], f);
    SumOne(m, f);
    SumConcat(x, y, f);
  }

  /** A finished job marks its row: at worst the row is pending again. */
  lemma FinishPays(o: OutboxRuns.State, o': OutboxRuns.State, j: nat)
    requires j < |o.jobs| && o.jobs[j].row < |o.rows| == |o'.rows| && o'.jobs == OutboxRuns.Without(o.jobs, j)
    requires o'.rows == o.rows[o.jobs[j].row := o'.rows[o.jobs[j].row]]
    requires o'.rows[o.jobs[j].row].attempts == o.rows[o.jobs[j].row].attempts
    ensures OutboxWeight(o') + 1 <= OutboxWeight(o)
  {
    WithoutPays(o.jobs, j);
    SumUpdate(o.rows, o.jobs[j].row, o'.rows[o.jobs[j].row], RowWeight());
  }

  lemma ClaimPays(o: OutboxRuns.State, ids: seq<nat>)
    requires OutboxRuns.Enabled(o, OutboxRuns.Claim(ids))
    ensures var o' := OutboxRuns.Apply(o, OutboxRuns.Claim(ids));
      OutboxWeight(o') + (if o' != o then 1 else 0) <= OutboxWeight(o)
  {
    var o' := OutboxRuns.Apply(o, OutboxRuns.Claim(ids));
    OutboxRuns.ClaimFacts(o, ids);
    var f := RowWeight();
    forall i: nat | i < |o.rows| ensures Drops(f, o.rows[i], o'.rows[i], if i in ids then 4 else 0) {
      if i in ids { assert OutboxRuns.TakenRow(o, i, o'); } else { assert OutboxRuns.LeftRow(o, i, o'); }
    }
    forall j | 0 <= j < |ids| ensures ids[j] < |o.rows| { assert OutboxRuns.TakenRow(o, ids[j], o'); }
    SumDrop(o.rows, o'.rows, f, ids, 4);
    JobsCost(o, ids);
    if ids == [] && o' != o { EmptyClaimPays(o, o'); }
  }

  /** A claim that takes nothing but changes something has expired a row. */
  lemma EmptyClaimPays(o: OutboxRuns.State, o': OutboxRuns.State)
    requires OutboxRuns.ClaimEffect(o, [], o') && o' != o
    ensures OutboxWeight(o') + 1 <= OutboxWeight(o)
  {
    forall j: nat | j < |o.rows|
      ensures RowWeight()(o'.rows[j]) <= RowWeight()(o.rows[j]) && o'.claims[j] == o.claims[j]
    {
      assert OutboxRuns.LeftRow(o, j, o');
    }
    assert OutboxRuns.JobsFor([], o.now) == [];
    assert o'.jobs == o.jobs && o'.claims == o.claims;
    assert o'.rows != o.rows;
    var i :| 0 <= i < |o.rows| && o'.rows[i] != o.rows[i];
    assert OutboxRuns.LeftRow(o, i, o');
    ExpiryPays(o.rows, o'.rows, i);
  }

  lemma JobsCost(o: OutboxRuns.State, ids: seq<nat>)
    ensures Sum(o.jobs + OutboxRuns.JobsFor(ids, o.now), JobWeight()) <= Sum(o.jobs, JobWeight()) + 3 * |ids|
  {
    SumConcat(o.jobs, OutboxRuns.JobsFor(ids, o.now), JobWeight());
    SumBound(OutboxRuns.JobsFor(ids, o.now), JobWeight(), 3);
  }

  lemma ExpiryPays(rows: seq<Outbox.Row>, rows': seq<Outbox.Row>, i: nat)
    requires |rows'| == |rows| && i < |rows| && RowWeight()(rows'[i]) < RowWeight()(rows[i])
    requires forall j | 0 <= j < |rows| :: RowWeight()(rows'[j]) <= RowWeight()(rows[j])
    ensures Sum(rows', RowWeight()) < Sum(rows, RowWeight())
  {
    forall j: nat | j < |rows| ensures Drops(RowWeight(), rows[j], rows'[j], if j in [i] then 1 else 0) {}
    SumDrop(rows, rows', RowWeight(), [i], 1);
  }

  lemma EnqueueCosts(o: OutboxRuns.State, m: Outbox.Message)
    requires OutboxRuns.Shape(o)
    ensures OutboxWeight(OutboxRuns.Apply(o, OutboxRuns.Enqueue(m))) <= OutboxWeight(o) + 13
  {
    SumConcat(o.rows, [Outbox.NewRow(m, o.now)], RowWeight());
    SumOne(Outbox.NewRow(m, o.now), RowWeight());
  }

  // ---- sessions ---------------------------------------------------------------------------------------

  lemma ChangeCosts(ss: seq<Session>, id: nat, change: Session -> Session)
    requires forall r: Session | change(r).state.Collecting? :: r.state.Collecting?
    ensures Sum(Change(ss, id, change), SessionWeight()) <= Sum(ss, SessionWeight())
  {
    if id < |ss| { SumUpdate(ss, id, change(ss[id]), SessionWeight()); }
  }

  lemma ClaimedCosts(ss: seq<Session>, now: real, ids: seq<nat>)
    requires Flushable(ss, now, FLUSH_LIMIT, ids)
    ensures Sum(Claimed(ss, ids), SessionWeight()) + COLLECT * |ids| <= Sum(ss, SessionWeight())
  {
    var f := SessionWeight();
    forall i: nat | i < |ss| ensures Drops(f, ss[i], Claimed(ss, ids)[i], if i in ids then COLLECT else 0) {
      if i in ids { assert Due(ss[i], now); }
    }
    SumDrop(ss, Claimed(ss, ids), f, ids, COLLECT);
  }

  lemma ProcessTasksCost(tasks: seq<Task>, ids: seq<nat>, inbox: seq<InboxRow>)
    ensures Sum(tasks + ProcessTasks(ids), TaskWeight(inbox)) <= Sum(tasks, TaskWeight(inbox)) + 42 * |ids|
  {
    SumConcat(tasks, ProcessTasks(ids), TaskWeight(inbox));
    SumBound(ProcessTasks(ids), TaskWeight(inbox), 42);
  }

  lemma FlushPays(s: State, ids: seq<nat>, n: nat)
    requires Flushable(s.desk.sessions, s.outbox.now, FLUSH_LIMIT, ids) && n <= |ids|
    ensures Weight(FlushStep(s, ids, n)) + |ids| <= Weight(s)
  {
    ClaimedCosts(s.desk.sessions, s.outbox.now, ids);
    ProcessTasksCost(s.tasks, ids[..n], s.inbox);
  }

  // ---- tasks ------------------------------------------------------------------------------------------

  /** One task moves to t, and the rest of the weight grows by at most spent. */
  lemma NextPays(s: State, i: nat, t: Task, s': State, spent: nat)
    requires At(s, i) && s'.tasks == s.tasks[i := t] && s'.inbox == s.inbox
    requires Sum(s'.desk.sessions, SessionWeight()) + OutboxWeight(s'.outbox)
             <= Sum(s.desk.sessions, SessionWeight()) + OutboxWeight(s.outbox) + spent
    requires TaskWeight(s.inbox)(t) + spent < TaskWeight(s.inbox)(s.tasks[i])
    ensures Weight(s') < Weight(s)
  {
    SumUpdate(s.tasks, i, t, TaskWeight(s.inbox));
  }

  lemma RaisedPays(inbox: seq<InboxRow>, t: Task)
    requires t.FetchTask? || t.ProcessTask? || t.InboxTask?
    ensures t.FetchTask? && !t.fetching.Starting? ==> TaskWeight(inbox)(Raised(t)) < TaskWeight(inbox)(t)
    ensures TaskWeight(inbox)(Raised(t)) < TaskWeight(inbox)(t)
  {
    if t.InboxTask? { assert Handling(Media(inbox, t.row)) > 0; }
  }

  lemma StartPays(s: State, i: nat, journey: bool)
    requires InFetch(s, i) && s.tasks[i].fetching.Starting?
    ensures Weight(StartStep(s, i, journey)) < Weight(s)
  {
    var s' := StartStep(s, i, journey);
    NextPays(s, i, s'.tasks[i], s', 0);
  }

  lemma DownloadPays(s: State, i: nat, ok: bool, quarantine: bool, retryable: bool)
    requires InFetch(s, i) && s.tasks[i].fetching.Fetching? && HasFile(s, s.tasks[i])
    ensures Weight(DownloadStep(s, i, ok, quarantine, retryable)) < Weight(s)
  {
    var s' := DownloadStep(s, i, ok, quarantine, retryable);
    RaisedPays(s.inbox, s.tasks[i]);
    NextPays(s, i, s'.tasks[i], s', 0);
  }

  lemma PostPays(s: State, i: nat, reached: bool, ok: bool)
    requires InFetch(s, i) && s.tasks[i].fetching.Posting? && HasFile(s, s.tasks[i])
    ensures Weight(PostStep(s, i, reached, ok)) < Weight(s)
  {
    var s' := PostStep(s, i, reached, ok);
    NextPays(s, i, s'.tasks[i], s', 0);
  }

  lemma CommitPays(s: State, i: nat)
    requires InFetch(s, i) && s.tasks[i].fetching.Posted? && HasFile(s, s.tasks[i])
    ensures Weight(CommitStep(s, i)) < Weight(s)
  {
    var s' := CommitStep(s, i);
    NextPays(s, i, s'.tasks[i], s', 0);
  }

  lemma FetchPays(e: Env, s: State, a: Action)
    requires Enabled(e, s, a) && (a.Start? || a.Download? || a.Post? || a.Commit?)
    ensures Weight(Apply(e, s, a)) < Weight(s)
  {
    match a
    case Start(i, journey) => StartPays(s, i, journey);
    case Download(i, ok, quarantine, retryable) => DownloadPays(s, i, ok, quarantine, retryable);
    case Post(i, reached, ok) => PostPays(s, i, reached, ok);
    case Commit(i) => CommitPays(s, i);
  }

  lemma DeferPays(e: Env, s: State, i: nat)
    requires Enabled(e, s, Defer(i))
    ensures Weight(DeferStep(s, i)) < Weight(s)
  {
    var t := s.tasks[i];
    var poll := PollTask(t.wanted.value, t.session, t.fetching.evidence, 0, Asking);
    var f := TaskWeight(s.inbox);
    SumUpdate(s.tasks, i, Gone, f);
    SumConcat(s.tasks[i := Gone], [poll], f);
    SumOne(poll, f);
  }

  lemma AskPays(s: State, i: nat, o: DiPoll.PollOutcome)
    requires InPoll(s, i, Asking)
    ensures Weight(PollStep(s, i, o)) < Weight(s)
  {
    var s' := PollStep(s, i, o);
    NextPays(s, i, s'.tasks[i], s', 0);
  }

  lemma PersistPays(e: Env, s: State, i: nat, fetched: Option<BookingFields>)
    requires InPoll(s, i, Persisting) && s.tasks[i].file < |s.desk.files|
    ensures Weight(PersistStep(e, s, i, fetched)) < Weight(s)
  {
    var s' := PersistStep(e, s, i, fetched);
    NextPays(s, i, s'.tasks[i], s', 0);
  }

  lemma ReadLinkPays(e: Env, s: State, i: nat)
    requires InPoll(s, i, Linking) && e.di(s.tasks[i].evidence).docType.Some?
    ensures Weight(ReadLinkStep(e, s, i)) < Weight(s)
  {
    var s' := ReadLinkStep(e, s, i);
    NextPays(s, i, s'.tasks[i], s', 0);
  }

  lemma MarkItemPays(e: Env, s: State, i: nat)
    requires At(s, i) && s.tasks[i].PollTask? && s.tasks[i].polling.Marking? && e.di(s.tasks[i].evidence).docType.Some?
    ensures Weight(MarkItemStep(e, s, i)) < Weight(s)
  {
    var s' := MarkItemStep(e, s, i);
    NextPays(s, i, s'.tasks[i], s', 0);
  }

  lemma CountPays(s: State, i: nat)
    requires InPoll(s, i, Counting)
    ensures Weight(CountStep(s, i)) < Weight(s)
  {
    var s' := CountStep(s, i);
    NextPays(s, i, s'.tasks[i], s', 0);
  }

  lemma PollPays(e: Env, s: State, a: Action)
    requires Enabled(e, s, a) && (a.Poll? || a.Persist? || a.ReadLink? || a.MarkItem? || a.Count?)
    ensures Weight(Apply(e, s, a)) < Weight(s)
  {
    match a
    case Poll(i, o) => AskPays(s, i, o);
    case Persist(i, fetched) => PersistPays(e, s, i, fetched);
    case ReadLink(i) => ReadLinkPays(e, s, i);
    case MarkItem(i) => MarkItemPays(e, s, i);
    case Count(i) => CountPays(s, i);
  }

  lemma PollEndPays(e: Env, s: State, a: Action)
    requires Enabled(e, s, a) && (a.Nudge? || a.Park?)
    ensures Weight(Apply(e, s, a)) < Weight(s)
  {
    var s' := Apply(e, s, a);
    var sid := s.tasks[a.i].session;
    if sid.Some? {
      ChangeCosts(s.desk.sessions, sid.value, if a.Nudge? then Nudged(s.outbox.now) else SlaParked());
    }
    NextPays(s, a.i, Gone, s', 0);
  }

  lemma CrashPays(s: State, i: nat, again: bool)
    requires At(s, i) && !s.tasks[i].Gone? && (again ==> !s.tasks[i].PollTask?)
    ensures Weight(Next(s, i, if again then Raised(s.tasks[i]) else Gone)) < Weight(s)
  {
    if again { RaisedPays(s.inbox, s.tasks[i]); }
    WeightPositive(s.inbox, s.tasks[i]);
    var t := if again then Raised(s.tasks[i]) else Gone;
    NextPays(s, i, t, Next(s, i, t), 0);
  }

  lemma WeightPositive(inbox: seq<InboxRow>, t: Task)
    requires !t.Gone?
    ensures TaskWeight(inbox)(t) > 0
  {
    if t.InboxTask? { assert Rounds(t.retries, Handling(Media(inbox, t.row))) > 0; }
  }

  /** A flushed session: at most one outbox row, and no session starts collecting. */
  lemma ProcessPays(e: Env, s: State, i: nat, b: BookingFields, m: Match)
    requires Enabled(e, s, Process(i, b, m))
    ensures Weight(ProcessStep(e, s, i, b, m)) < Weight(s)
  {
    var s', t := ProcessStep(e, s, i, b, m), s.tasks[i];
    var reply := Flushed(s.desk, t.flushed, e.projection, s.outbox.now, e.world, b, m).1;
    RaisedPays(s.inbox, t);
    if Raises(s, reply) {
      NextPays(s, i, Raised(t), s', 0);
    } else {
      FlushedCosts(e, s, t.flushed, b, m);
      if reply.Some? { EnqueueCosts(s.outbox, reply.value); }
      NextPays(s, i, Gone, s', 13);
    }
  }

  lemma FlushedCosts(e: Env, s: State, sid: nat, b: BookingFields, m: Match)
    ensures Sum(Flushed(s.desk, sid, e.projection, s.outbox.now, e.world, b, m).0.sessions, SessionWeight())
            <= Sum(s.desk.sessions, SessionWeight())
  {
    var d := CreateSpec(s.desk.book.deals, Fresh(BookingOf(e.world, if sid < |s.desk.sessions| then s.desk.sessions[sid]
               else Opened(0, 0, 0, 0.0), sid, b), e.world.pendingName)).1;
    ChangeCosts(s.desk.sessions, sid, ParkedWith(FilesNotReady));
    ChangeCosts(s.desk.sessions, sid, ParkedWith(AwaitingDi));
    ChangeCosts(s.desk.sessions, sid, ParkedWith(DealAmbiguous));
    ChangeCosts(s.desk.sessions, sid, Completed());
    ChangeCosts(s.desk.sessions, sid, Confirming(d, s.outbox.now));
  }

  // ---- the inbox --------------------------------------------------------------------------------------

  lemma GetOrCreateCosts(ss: seq<Session>, tenant: nat, contact: nat, orgUnit: nat, now: real)
    ensures Sum(GetOrCreateSpec(ss, tenant, contact, orgUnit, now).0, SessionWeight())
            <= Sum(ss, SessionWeight()) + COLLECT
  {
    SumConcat(ss, [Opened(tenant, contact, orgUnit, now)], SessionWeight());
    SumOne(Opened(tenant, contact, orgUnit, now), SessionWeight());
  }

  /** Registering files makes no session collect and defers one fetch per media message. */
  lemma {:induction false} ReceiveCosts(x: Intake, tenant: nat, sid: nat, now: real, ms: seq<Msg>)
    ensures var y := ReceiveAll(x, tenant, sid, now, ms);
      && Sum(y.sessions, SessionWeight()) <= Sum(x.sessions, SessionWeight())
      && |y.deferred| == |x.deferred| + MediaCount(ms)
    decreases |ms|
  {
    if ms != [] {
      var y := ReceiveAll(x, tenant, sid, now, ms[..|ms| - 1]);
      ReceiveCosts(x, tenant, sid, now, ms[..|ms| - 1]);
      ChangeCosts(y.sessions, sid, Arrived(now, 0));
    }
  }

  lemma {:induction false} FewerMedia(ms: seq<Msg>, n: nat)
    requires n <= |ms|
    ensures MediaCount(ms[..n]) <= MediaCount(ms)
    decreases |ms|
  {
    if n == |ms| {
      assert ms[..n] == ms;
    } else {
      assert ms[..|ms| - 1][..n] == ms[..n];
      FewerMedia(ms[..|ms| - 1], n);
    }
  }

  /** One task moves to t and defers fetches; what it gives up covers them and a new session. */
  lemma DeferringPays(s: State, i: nat, t: Task, fetches: seq<Task>, s': State, n: nat)
    requires At(s, i) && s'.tasks == s.tasks[i := t] + fetches && s'.inbox == s.inbox && s'.outbox == s.outbox
    requires Sum(s'.desk.sessions, SessionWeight()) <= Sum(s.desk.sessions, SessionWeight()) + COLLECT
    requires |fetches| <= n && forall k | 0 <= k < |fetches| :: TaskWeight(s.inbox)(fetches[k]) <= FETCH
    requires TaskWeight(s.inbox)(t) + Handling(n) <= TaskWeight(s.inbox)(s.tasks[i]) + 1
    ensures Weight(s') < Weight(s)
  {
    var f := TaskWeight(s.inbox);
    SumUpdate(s.tasks, i, t, f);
    SumConcat(s.tasks[i := t], fetches, f);
    SumBound(fetches, f, FETCH);
  }

  lemma HandledPays(inbox: seq<InboxRow>, t: Task, verdict: InboxState)
    requires t.InboxTask? && t.handling.Unhandled?
    ensures TaskWeight(inbox)(t.(handling := Handled(verdict))) + Handling(Media(inbox, t.row))
            == TaskWeight(inbox)(t) + 1
  {}

  lemma HandlePays(e: Env, s: State, i: nat, after: Option<nat>)
    requires Enabled(e, s, Handle(i, after))
    ensures Weight(HandleStep(s, i, after)) < Weight(s)
  {
    var t := s.tasks[i];
    if t.row >= |s.inbox| {
      WeightPositive(s.inbox, t);
      NextPays(s, i, Gone, HandleStep(s, i, after), 0);
    } else {
      var row := s.inbox[t.row];
      var r := ResolveSpec(s.db, row.phoneNumberId, row.payload.sender);
      if row.signatureOk && r.Known? {
        HandleKnownPays(s, i, after, row, r.ctx);
      } else {
        HandleRefusedPays(s, i, after);
      }
    }
  }

  /** Ignored or broken: nothing is deferred. */
  lemma HandleRefusedPays(s: State, i: nat, after: Option<nat>)
    requires At(s, i) && s.tasks[i].InboxTask? && s.tasks[i].handling.Unhandled? && s.tasks[i].row < |s.inbox|
    requires after.Some? ==> after.value <= |s.inbox[s.tasks[i].row].payload.messages|
    requires var row := s.inbox[s.tasks[i].row];
      !row.signatureOk || !ResolveSpec(s.db, row.phoneNumberId, row.payload.sender).Known?
    ensures Weight(HandleStep(s, i, after)) < Weight(s)
  {
    var t := s.tasks[i];
    HandledPays(s.inbox, t, InboxFailed);
    HandledPays(s.inbox, t, InboxIgnored);
    var s' := HandleStep(s, i, after);
    NextPays(s, i, s'.tasks[i], s', 0);
  }

  lemma HandleKnownPays(s: State, i: nat, after: Option<nat>, row: InboxRow, ctx: Context)
    requires At(s, i) && s.tasks[i].InboxTask? && s.tasks[i].handling.Unhandled? && s.tasks[i].row < |s.inbox|
    requires row == s.inbox[s.tasks[i].row] && row.signatureOk
    requires after.Some? ==> after.value <= |row.payload.messages|
    requires ResolveSpec(s.db, row.phoneNumberId, row.payload.sender) == Known(ctx)
    ensures Weight(HandleStep(s, i, after)) < Weight(s)
  {
    var (ss, sid) := GetOrCreateSpec(s.desk.sessions, ctx.tenant, ctx.contact, ctx.orgUnit, s.outbox.now);
    var start := Intake(ss, s.desk.files, MaxSeq(s.desk.files, sid), []);
    var ms := row.payload.messages;
    if after.None? {
      var x := ReceiveAll(start, ctx.tenant, sid, s.outbox.now, ms);
      IntakeCosts(s, ctx, ms);
      FetchTasksWeigh(s.inbox, x.deferred, |x.files|, Some(sid));
      HandledPays(s.inbox, s.tasks[i], InboxDone);
      DeferringPays(s, i, s.tasks[i].(handling := Handled(InboxDone)), FetchTasks(x.deferred, |x.files|, Some(sid)),
                    HandleStep(s, i, after), MediaCount(ms));
    } else {
      var there := if sid < |s.desk.sessions| then Some(sid) else None;
      var x := ReceiveAll(start, ctx.tenant, sid, s.outbox.now, ms[..after.value]);
      IntakeCosts(s, ctx, ms[..after.value]);
      FewerMedia(ms, after.value);
      FetchTasksWeigh(s.inbox, x.deferred, |s.desk.files|, there);
      HandledPays(s.inbox, s.tasks[i], InboxFailed);
      DeferringPays(s, i, s.tasks[i].(handling := Handled(InboxFailed)), FetchTasks(x.deferred, |s.desk.files|, there),
                    HandleStep(s, i, after), MediaCount(ms));
    }
  }

  /** Taking the messages in adds at most one collecting session and defers one fetch per media message. */
  lemma IntakeCosts(s: State, ctx: Context, ms: seq<Msg>)
    ensures var (ss, sid) := GetOrCreateSpec(s.desk.sessions, ctx.tenant, ctx.contact, ctx.orgUnit, s.outbox.now);
      var x := ReceiveAll(Intake(ss, s.desk.files, MaxSeq(s.desk.files, sid), []), ctx.tenant, sid, s.outbox.now, ms);
      && Sum(x.sessions, SessionWeight()) <= Sum(s.desk.sessions, SessionWeight()) + COLLECT
      && |x.deferred| == MediaCount(ms)
  {
    var (ss, sid) := GetOrCreateSpec(s.desk.sessions, ctx.tenant, ctx.contact, ctx.orgUnit, s.outbox.now);
    GetOrCreateCosts(s.desk.sessions, ctx.tenant, ctx.contact, ctx.orgUnit, s.outbox.now);
    ReceiveCosts(Intake(ss, s.desk.files, MaxSeq(s.desk.files, sid), []), ctx.tenant, sid, s.outbox.now, ms);
  }

  lemma FetchTasksWeigh(inbox: seq<InboxRow>, fids: seq<nat>, files: nat, sid: Option<nat>)
    ensures forall k | 0 <= k < |fids| :: TaskWeight(inbox)(FetchTasks(fids, files, sid)[k]) <= FETCH
  {}

  /** The weight of tasks looks at the payloads only. */
  lemma {:induction false} SamePayloads(inbox: seq<InboxRow>, inbox': seq<InboxRow>, tasks: seq<Task>)
    requires forall row: nat :: Media(inbox', row) == Media(inbox, row)
    ensures Sum(tasks, TaskWeight(inbox')) == Sum(tasks, TaskWeight(inbox))
  {
    if tasks != [] { SamePayloads(inbox, inbox', tasks[..|tasks| - 1]); }
  }

  lemma MarkRowPays(s: State, i: nat)
    requires At(s, i) && s.tasks[i].InboxTask? && s.tasks[i].handling.Handled?
    ensures Weight(MarkRowStep(s, i)) < Weight(s)
  {
    var s' := MarkRowStep(s, i);
    SamePayloads(s.inbox, s'.inbox, s'.tasks);
    SumUpdate(s.tasks, i, Gone, TaskWeight(s.inbox));
    WeightPositive(s.inbox, s.tasks[i]);
  }

  /** A new row is named by no task yet, so older tasks weigh what they did. */
  lemma {:induction false} NewRowWeighsNothing(inbox: seq<InboxRow>, row: InboxRow, tasks: seq<Task>)
    requires forall i | 0 <= i < |tasks| :: tasks[i].InboxTask? ==> tasks[i].row < |inbox|
    ensures Sum(tasks, TaskWeight(inbox + [row])) == Sum(tasks, TaskWeight(inbox))
  {
    if tasks != [] { NewRowWeighsNothing(inbox, row, tasks[..|tasks| - 1]); }
  }

  lemma WebhookCosts(s: State, n: Option<string>, p: Payload, ok: bool)
    requires NamesRows(s)
    ensures Weight(WebhookStep(s, n, p, ok)) <= Weight(s) + 180 + 136 * MediaCount(p.messages)
  {
    FourRounds(Handling(MediaCount(p.messages)));
    var s' := WebhookStep(s, n, p, ok);
    if s'.tasks != s.tasks {
      var row := s'.inbox[|s.inbox|];
      var t := InboxTask(|s.inbox|, INBOX_RETRIES, Unhandled);
      NewRowWeighsNothing(s.inbox, row, s.tasks);
      SumConcat(s.tasks, [t], TaskWeight(s'.inbox));
      SumOne(t, TaskWeight(s'.inbox));
    }
  }

  // ---- runs -------------------------------------------------------------------------------------------

  /** Inbox tasks name rows that are there. */
  ghost predicate NamesRows(s: State) {
    forall i | 0 <= i < |s.tasks| && s.tasks[i].InboxTask? :: s.tasks[i].row < |s.inbox|
  }

  lemma InvNamesRows(e: Env, s: State)
    requires Inv(e, s)
    ensures NamesRows(s)
  {
    forall i | 0 <= i < |s.tasks| && s.tasks[i].InboxTask? ensures s.tasks[i].row < |s.inbox| {
      assert TaskOk(e, s, s.tasks[i]);
    }
  }

  lemma StepPays(e: Env, s: State, a: Action)
    requires NamesRows(s) && Enabled(e, s, a)
    ensures Pays(s, a, Apply(e, s, a))
  {
    if a.Webhook? || a.Admin? || a.Operator? {
      OutsideStepPays(e, s, a);
    } else if a.OutboxStep? || a.Flush? {
      TickPays(e, s, a);
    } else {
      TaskStepPays(e, s, a);
    }
  }

  lemma OutsideStepPays(e: Env, s: State, a: Action)
    requires NamesRows(s) && Enabled(e, s, a) && (a.Webhook? || a.Admin? || a.Operator?)
    ensures Weight(Apply(e, s, a)) <= Weight(s) + Arrival(a)
  {
    match a
    case Webhook(n, p, ok) => WebhookCosts(s, n, p, ok);
    case Admin(_, _) =>
    case Operator(sid, escalate, note) =>
      ChangeCosts(s.desk.sessions, sid, if escalate then EscalatedWith(note) else DealConfirmed(s.outbox.now));
  }

  lemma TickPays(e: Env, s: State, a: Action)
    requires Enabled(e, s, a) && (a.OutboxStep? || a.Flush?)
    ensures Pays(s, a, Apply(e, s, a))
  {
    match a
    case OutboxStep(x) => OutboxPays(s.outbox, x);
    case Flush(ids, n) => FlushPays(s, ids, n);
  }

  /** A step of a task. */
  lemma TaskStepPays(e: Env, s: State, a: Action)
    requires Enabled(e, s, a) && !a.Webhook? && !a.Admin? && !a.Operator? && !a.OutboxStep? && !a.Flush?
    ensures Weight(Apply(e, s, a)) < Weight(s)
  {
    if a.Handle? || a.MarkRow? || a.Crash? {
      RowStepPays(e, s, a);
    } else if a.Defer? || a.Process? {
      DeferringStepPays(e, s, a);
    } else {
      ForeignStepPays(e, s, a);
    }
  }

  lemma RowStepPays(e: Env, s: State, a: Action)
    requires Enabled(e, s, a) && (a.Handle? || a.MarkRow? || a.Crash?)
    ensures Weight(Apply(e, s, a)) < Weight(s)
  {
    match a
    case Handle(i, after) => HandlePays(e, s, i, after);
    case MarkRow(i) => MarkRowPays(s, i);
    case Crash(i, again) => CrashPays(s, i, again);
  }

  lemma DeferringStepPays(e: Env, s: State, a: Action)
    requires Enabled(e, s, a) && (a.Defer? || a.Process?)
    ensures Weight(Apply(e, s, a)) < Weight(s)
  {
    match a
    case Defer(i) => DeferPays(e, s, i);
    case Process(i, b, m) => ProcessPays(e, s, i, b, m);
  }

  lemma ForeignStepPays(e: Env, s: State, a: Action)
    requires Enabled(e, s, a) && (IsPollStep(a) || a.Start? || a.Download? || a.Post? || a.Commit?)
    ensures Weight(Apply(e, s, a)) < Weight(s)
  {
    if a.Nudge? || a.Park? {
      PollEndPays(e, s, a);
    } else if IsPollStep(a) {
      PollPays(e, s, a);
    } else {
      FetchPays(e, s, a);
    }
  }

  ghost function EffectiveSteps(e: Env, s: State, acts: seq<Action>): nat
    requires Run(e, s, acts)
    decreases |acts|
  {
    if acts == [] then 0 else
    (if Effective(s, acts[0]) then 1 else 0) + EffectiveSteps(e, Apply(e, s, acts[0]), acts[1..])
  }

  function Arrivals(acts: seq<Action>): nat
    decreases |acts|
  {
    if acts == [] then 0 else Arrival(acts[0]) + Arrivals(acts[1..])
  }

  lemma {:induction false} RunPays(e: Env, s: State, acts: seq<Action>)
    requires Inv(e, s) && Run(e, s, acts)
    ensures EffectiveSteps(e, s, acts) + Weight(Exec(e, s, acts)) <= Weight(s) + Arrivals(acts)
    decreases |acts|
  {
    if acts != [] {
      InvNamesRows(e, s);
      StepPays(e, s, acts[0]);
      StepSafe(e, s, acts[0]);
      RunPays(e, Apply(e, s, acts[0]), acts[1..]);
    }
  }

  lemma InitialWeighsNothing(s: State)
    requires Initial(s)
    ensures Weight(s) == 0
  {}

  /** Queue termination: in every schedule of every task, flush, outbox tick and crash, what a run does is
      bounded by the webhooks received: 180 steps for each, and 136 for each of its files. */
  lemma BoundedWork(e: Env, s: State, acts: seq<Action>)
    requires Initial(s) && Run(e, s, acts)
    ensures EffectiveSteps(e, s, acts) <= Arrivals(acts)
  {
    InitialInv(e, s);
    InitialWeighsNothing(s);
    WorkFrom(e, s, acts);
  }

  lemma WorkFrom(e: Env, s: State, acts: seq<Action>)
    requires Inv(e, s) && Weight(s) == 0 && Run(e, s, acts)
    ensures EffectiveSteps(e, s, acts) <= Arrivals(acts)
  {
    RunPays(e, s, acts);
  }

  lemma FourRounds(cost: nat)
    ensures Rounds(3, cost) == 4 * cost
  {
    assert Rounds(0, cost) == cost && Rounds(1, cost) == 2 * cost && Rounds(2, cost) == 3 * cost;
  }
}
