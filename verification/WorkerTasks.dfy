/** The tasks of worker.py as the code runs them, one invocation from start to end over the tables.  Each
    is a run of the pipeline machine: what the machine lets interleave between two steps is what another
    task may do between two transactions. */
module WorkerTasks {
  import opened Wrappers
  import Api
  import DiPoll
  import opened Checklist
  import opened Sessions
  import Deals
  import Outbox
  import OutboxRuns
  import opened Worker
  import opened Pipeline

  /** The machine's tables are the objects' contents. */
  ghost predicate Matches(s: State, st: Sessions.Table, items: Checklist.Table)
    reads st, items
  {
    s.desk.sessions == st.sessions && s.desk.files == st.files && s.desk.items == items.items
  }

  /** acts takes s to x. */
  ghost predicate Reaches(e: Env, s: State, acts: seq<Action>, x: State) { Run(e, s, acts) && Exec(e, s, acts) == x }

  lemma {:induction false} ReachesSnoc(e: Env, s: State, acts: seq<Action>, x: State, a: Action)
    requires Reaches(e, s, acts, x) && Enabled(e, x, a)
    ensures Reaches(e, s, acts + [a], Apply(e, x, a))
    decreases |acts|
  {
    if acts == [] {
      assert [a][1..] == [];
      assert Run(e, Apply(e, s, a), []);
      assert acts + [a] == [a];
    } else {
      assert (acts + [a])[1..] == acts[1..] + [a];
      ReachesSnoc(e, Apply(e, s, acts[0]), acts[1..], x, a);
    }
  }

  // ---- flush_ready_sessions -------------------------------------------------------------------------

  /** At most 50 overdue sessions are processed, each by a task with two retries, the longest overdue first; the
      others are left, and if an overdue one is among them it was locked or the limit was reached. */
  ghost predicate FlushMeans(ss: seq<Session>, now: real, locked: set<nat>, ss': seq<Session>, tasks: seq<Task>) {
    && |ss'| == |ss| && |tasks| <= 50 && (forall k, l | 0 <= k < l < |tasks| :: tasks[k] != tasks[l])
    && (forall k | 0 <= k < |tasks| ::
          && tasks[k].ProcessTask? && tasks[k].retries == 2 && tasks[k].flushed < |ss| && tasks[k].flushed !in locked
          && Overdue(ss[tasks[k].flushed], now))
    && (forall i | 0 <= i < |ss| ::
          ss'[i] == if ProcessTask(i, 2) in tasks then ss[i].(state := Processing) else ss[i])
    && (forall x: nat | x < |ss| && Overdue(ss[x], now) && x !in locked && ProcessTask(x, 2) !in tasks ::
          |tasks| == 50 && forall k | 0 <= k < |tasks| :: ss[tasks[k].flushed].flushAt <= ss[x].flushAt)
  }

  method FlushReadySessions(st: Sessions.Table, items: Checklist.Table, now: real, locked: set<nat>, e: Env,
                            ghost s: State)
    returns (tasks: seq<Task>, ghost x: State, ghost acts: seq<Action>)
    requires Matches(s, st, items) && s.outbox.now == now
    modifies st
    ensures Reaches(e, s, acts, x) && Matches(x, st, items) && x.tasks == s.tasks + tasks
    ensures exists ids :: FlushChoice(old(st.sessions), now, locked, FLUSH_LIMIT, ids) && acts == [Flush(ids, |ids|)]
    ensures FlushMeans(old(st.sessions), now, locked, st.sessions, tasks)
  {
    var ids := st.ClaimSessionsForFlush(now, locked, FLUSH_LIMIT);
    tasks := ProcessTasks(ids);
    assert forall i: nat :: ProcessTask(i, 2) in tasks <==> i in ids by {
      forall i: nat | i in ids ensures ProcessTask(i, 2) in tasks {
        var k :| 0 <= k < |ids| && ids[k] == i;
        assert tasks[k] == ProcessTask(i, 2);
      }
    }
    assert ids[..|ids|] == ids;
    acts := [] + [Flush(ids, |ids|)];
    x := FlushStep(s, ids, |ids|);
    ReachesSnoc(e, s, [], s, Flush(ids, |ids|));
  }

  // ---- process_session ------------------------------------------------------------------------------

  /** What becomes of the tables: the outcome of process_session with its reply enqueued, or, when the dedup lookup
      finds two rows for the reply, what there was. */
  ghost predicate TransactionMeans(e: Env, sid: nat, now: real, m: Deals.Match, x: Desk, rows: seq<Outbox.Row>,
                                   x': Desk, rows': seq<Outbox.Row>, raised: bool)
  {
    exists outcome: Desk, reply ::
      && ProcessMeans(x, sid, e.projection, now, e.world, m, outcome, reply)
      && x' == (if raised then x else outcome)
      && if reply.None? then rows' == rows && !raised
         else exists q :: Outbox.EnqueueMeans(rows, reply.value, now, rows', q) && (raised <==> q.MultipleFound?)
  }

  /** One invocation of process_session; one that raises is left to its retries. */
  method RunProcessSession(st: Sessions.Table, deals: Deals.Table, items: Checklist.Table, outbox: Outbox.Table,
                           sid: nat, retries: nat, now: real, e: Env, ghost s: State, ghost i: nat)
    returns (next: Task, ghost a: Action, ghost reply: Option<Outbox.Message>, ghost raised: bool)
    requires s.desk == DeskOf(st, deals, items)
    requires s.outbox.rows == outbox.rows && OutboxRuns.Shape(s.outbox) && s.outbox.now == now
    requires KnownTypes(items.items)
    requires At(s, i) && s.tasks[i] == ProcessTask(sid, retries)
    modifies st, deals, items, outbox
    ensures a.Process? && a.i == i && StepsTo(e, s, a, DeskOf(st, deals, items), outbox.rows, next)
    ensures Replied(e, sid, now, a.match_, s.desk, s.outbox.rows, reply, DeskOf(st, deals, items), outbox.rows, raised)
    ensures next == if !raised || retries == 0 then Gone else ProcessTask(sid, retries - 1)
  {
    ghost var x := DeskOf(st, deals, items);
    ghost var m;
    next, m, reply, raised := RunReplied(st, deals, items, outbox, sid, retries, now, e);
    a := Process(i, ExtractBookingFields(SessionFiles(x.files, sid, e.projection)), m);
    RepliedStep(e, s, i, m, reply, DeskOf(st, deals, items), outbox.rows, raised);
  }

  /** The action is possible, and takes the machine to this desk, these outbox rows and this task. */
  ghost predicate StepsTo(e: Env, s: State, a: Action, desk: Desk, rows: seq<Outbox.Row>, next: Task) {
    && a.Process? && Enabled(e, s, a)
    && var x := ProcessStep(e, s, a.i, a.fields, a.match_);
       x.desk == desk && x.outbox.rows == rows && x.tasks == s.tasks[a.i := next]
  }

  /** What the invocation leaves of desk and outbox rows, by the reply of process_session. */
  ghost predicate Replied(e: Env, sid: nat, now: real, m: Deals.Match, x: Desk, rows: seq<Outbox.Row>,
                          reply: Option<Outbox.Message>, x': Desk, rows': seq<Outbox.Row>, raised: bool)
  {
    var b := ExtractBookingFields(SessionFiles(x.files, sid, e.projection));
    var (outcome, r) := Flushed(x, sid, e.projection, now, e.world, b, m);
    && Finds(x, sid, e.projection, e.world, b, m) && reply == r && x' == (if raised then x else outcome)
    && if reply.None? then rows' == rows && !raised
       else exists q :: Outbox.EnqueueSpec(rows, reply.value, now, rows', q) && (q.MultipleFound? <==> raised)
  }

  /** process_session and its reply in one transaction: a dedup lookup that finds two rows raises and rolls
      everything back. */
  method RunReplied(st: Sessions.Table, deals: Deals.Table, items: Checklist.Table, outbox: Outbox.Table,
                    sid: nat, retries: nat, now: real, e: Env)
    returns (next: Task, ghost m: Deals.Match, ghost reply: Option<Outbox.Message>, ghost raised: bool)
    requires KnownTypes(items.items)
    modifies st, deals, items, outbox
    ensures Replied(e, sid, now, m, old(DeskOf(st, deals, items)), old(outbox.rows), reply,
                    DeskOf(st, deals, items), outbox.rows, raised)
    ensures next == if !raised || retries == 0 then Gone else ProcessTask(sid, retries - 1)
  {
    var sessions, files, ds, reviews, its := st.sessions, st.files, deals.deals, deals.reviews, items.items;
    next, raised := Gone, false;
    var answer;
    answer, m := RunTransaction(st, deals, items, sid, e.projection, now, e.world);
    reply := answer;
    if answer.Some? {
      var q := outbox.EnqueueReply(answer.value, now);
      raised := q.MultipleFound?;
      if q.MultipleFound? {
        st.sessions, st.files, deals.deals, deals.reviews, items.items := sessions, files, ds, reviews, its;
        if retries > 0 { next := ProcessTask(sid, retries - 1); }
      }
    }
  }

  lemma ProcessEnabled(e: Env, s: State, i: nat, m: Deals.Match)
    requires At(s, i) && s.tasks[i].ProcessTask? && OutboxRuns.Shape(s.outbox)
    requires Finds(s.desk, s.tasks[i].flushed, e.projection, e.world,
                   ExtractBookingFields(SessionFiles(s.desk.files, s.tasks[i].flushed, e.projection)), m)
    ensures var b := ExtractBookingFields(SessionFiles(s.desk.files, s.tasks[i].flushed, e.projection));
      Enabled(e, s, Process(i, b, m))
  {}

  /** That is the step of the machine... */
  lemma RepliedStep(e: Env, s: State, i: nat, m: Deals.Match, reply: Option<Outbox.Message>, x': Desk,
                    rows: seq<Outbox.Row>, raised: bool)
    requires At(s, i) && s.tasks[i].ProcessTask? && OutboxRuns.Shape(s.outbox)
    requires Replied(e, s.tasks[i].flushed, s.outbox.now, m, s.desk, s.outbox.rows, reply, x', rows, raised)
    ensures var b := ExtractBookingFields(SessionFiles(s.desk.files, s.tasks[i].flushed, e.projection));
      StepsTo(e, s, Process(i, b, m), x', rows, if raised then Raised(s.tasks[i]) else Gone)
  {
    var sid := s.tasks[i].flushed;
    var b := ExtractBookingFields(SessionFiles(s.desk.files, sid, e.projection));
    ProcessEnabled(e, s, i, m);
    RaisesWhen(s, reply, rows, raised);
    ProcessedStep(e, s, i, b, m, reply, rows, raised);
  }

  lemma RaisesWhen(s: State, reply: Option<Outbox.Message>, rows: seq<Outbox.Row>, raised: bool)
    requires if reply.None? then !raised
             else exists q ::
               Outbox.EnqueueSpec(s.outbox.rows, reply.value, s.outbox.now, rows, q) && (q.MultipleFound? <==> raised)
    ensures raised <==> Raises(s, reply)
  {}

  /** ...and comes to what process_session promises. */
  lemma RepliedMeans(e: Env, sid: nat, now: real, m: Deals.Match, x: Desk, rows: seq<Outbox.Row>,
                     reply: Option<Outbox.Message>, x': Desk, rows': seq<Outbox.Row>, raised: bool)
    requires Replied(e, sid, now, m, x, rows, reply, x', rows', raised)
    ensures TransactionMeans(e, sid, now, m, x, rows, x', rows', raised)
  {
    var b := ExtractBookingFields(SessionFiles(x.files, sid, e.projection));
    ProcessIs(x, sid, e.projection, now, e.world, m);
    if reply.Some? {
      var q :| Outbox.EnqueueSpec(rows, reply.value, now, rows', q) && (q.MultipleFound? <==> raised);
      Outbox.EnqueueIs(rows, reply.value, now, rows', q);
    }
    var outcome := Flushed(x, sid, e.projection, now, e.world, b, m).0;
    assert ProcessMeans(x, sid, e.projection, now, e.world, m, outcome, reply);
  }

  /** The step of the machine, from the reply and what became of it. */
  lemma ProcessedStep(e: Env, s: State, i: nat, b: BookingFields, m: Deals.Match, reply: Option<Outbox.Message>,
                      rows: seq<Outbox.Row>, raised: bool)
    requires At(s, i) && s.tasks[i].ProcessTask? && OutboxRuns.Shape(s.outbox)
    requires reply == Flushed(s.desk, s.tasks[i].flushed, e.projection, s.outbox.now, e.world, b, m).1
    requires raised <==> Raises(s, reply)
    requires if reply.None? then rows == s.outbox.rows
             else exists q ::
                 Outbox.EnqueueSpec(s.outbox.rows, reply.value, s.outbox.now, rows, q) && (q.MultipleFound? <==> raised)
    ensures var x := ProcessStep(e, s, i, b, m);
      && x.outbox.rows == rows
      && x.tasks == s.tasks[i := if raised then Raised(s.tasks[i]) else Gone]
      && x.desk == if raised then s.desk
                   else Flushed(s.desk, s.tasks[i].flushed, e.projection, s.outbox.now, e.world, b, m).0
  {}

  // ---- process_inbox_row ----------------------------------------------------------------------------

  /** The sender of a row is an active contact of the route's tenant, which is contact k, with an org unit. */
  ghost predicate Resolves(r: InboxRow, contacts: seq<Api.Contact>, routes: seq<Api.Route>, k: nat) {
    && (exists i: nat :: CameFrom(contacts, routes, r.phoneNumberId, r.payload.sender, i, k))
    && contacts[k].status == Api.ContactStatus.Active && contacts[k].orgUnit.Some?
  }

  /** What becomes of a row.  It is done exactly when it is signed, its sender resolves and nothing raises; then
      its media messages are taken into the contact's open session and their fetches deferred.  Otherwise
      sessions and files stay as they are, and but for a transaction that raised midway there is no task: an
      unsigned row is ignored, as is one whose sender does not resolve. */
  ghost predicate HandleMeans(r: InboxRow, contacts: seq<Api.Contact>, routes: seq<Api.Route>, ss: seq<Session>,
                              fs: seq<File>, raisesAfter: Option<nat>, now: real, verdict: InboxState,
                              tasks: seq<Task>, ss': seq<Session>, fs': seq<File>)
  {
    && (verdict == InboxDone <==>
          r.signatureOk && raisesAfter.None? && exists k: nat :: Resolves(r, contacts, routes, k))
    && (verdict != InboxDone ==> ss' == ss && fs' == fs && verdict in {InboxIgnored, InboxFailed})
    && (!r.signatureOk ==> verdict == InboxIgnored && tasks == [])
    && ((forall k: nat :: !Resolves(r, contacts, routes, k)) ==> tasks == [])
    && (verdict == InboxFailed ==> exists i: nat, k: nat ::
          && CameFrom(contacts, routes, r.phoneNumberId, r.payload.sender, i, k)
          && contacts[k].status == Api.ContactStatus.Active && (contacts[k].orgUnit == None || raisesAfter.Some?))
    && (verdict == InboxDone ==> forall k: nat | Resolves(r, contacts, routes, k) ::
          TakesPayload(r, contacts[k], ss, fs, now, tasks, ss', fs'))
  }

  /** The payload is taken into the contact's session, and a task with three retries fetches each media file. */
  ghost predicate TakesPayload(r: InboxRow, c: Api.Contact, ss: seq<Session>, fs: seq<File>, now: real,
                               tasks: seq<Task>, ss': seq<Session>, fs': seq<File>)
  {
    c.orgUnit.Some? && exists ss1: seq<Session>, sid: nat, at, y ::
      && GetOrCreateMeans(ss, c.tenant, c.id, c.orgUnit.value, now, ss1, sid)
      && TakesIn(Intake(ss1, fs, MaxSeq(fs, sid), []), c.tenant, sid, now, r.payload.messages, at, y)
      && Fetches(y.deferred, sid, tasks) && ss' == y.sessions && fs' == y.files
  }

  /** One task with three retries per deferred file, in order. */
  predicate Fetches(deferred: seq<nat>, sid: nat, tasks: seq<Task>) {
    && |tasks| == |deferred|
    && forall n | 0 <= n < |tasks| :: tasks[n] == FetchTask(Some(deferred[n]), Some(sid), 3, Starting)
  }

  /** What process_inbox_row comes to: a row that is not there changes nothing; one that is gets its verdict. */
  ghost predicate RowMeans(inbox: seq<InboxRow>, row: nat, contacts: seq<Api.Contact>, routes: seq<Api.Route>,
                           ss: seq<Session>, fs: seq<File>, raisesAfter: Option<nat>, now: real,
                           inbox': seq<InboxRow>, tasks: seq<Task>, ss': seq<Session>, fs': seq<File>)
  {
    if row >= |inbox| then inbox' == inbox && tasks == [] && ss' == ss && fs' == fs
    else exists verdict ::
      && inbox' == inbox[row := inbox[row].(state := verdict)]
      && HandleMeans(inbox[row], contacts, routes, ss, fs, raisesAfter, now, verdict, tasks, ss', fs')
  }

  /** One webhook row: signature, routing, session, files, and the verdict on the row.  A transaction that
      raises after some of its messages is rolled back, but for the fetches it has deferred. */
  method ProcessInboxRow(inbox: Inbox, st: Sessions.Table, items: Checklist.Table, contacts: seq<Api.Contact>,
                         routes: seq<Api.Route>, row: nat, raisesAfter: Option<nat>, now: real, e: Env,
                         ghost s: State, ghost i: nat)
    returns (tasks: seq<Task>, ghost x: State, ghost acts: seq<Action>)
    requires Matches(s, st, items) && s.inbox == inbox.rows && s.outbox.now == now
    requires s.db.contacts == contacts && s.db.routes == routes
    requires At(s, i) && s.tasks[i].InboxTask? && s.tasks[i].row == row && s.tasks[i].handling.Unhandled?
    requires raisesAfter.Some? ==> row < |inbox.rows| && raisesAfter.value <= |inbox.rows[row].payload.messages|
    modifies inbox, st
    ensures Reaches(e, s, acts, x) && Matches(x, st, items) && x.inbox == inbox.rows
    ensures x.tasks == s.tasks[i := Gone] + tasks
    ensures raisesAfter.Some? ==> st.sessions == old(st.sessions) && st.files == old(st.files)
    ensures RowMeans(old(inbox.rows), row, contacts, routes, old(st.sessions), old(st.files), raisesAfter, now,
                     inbox.rows, tasks, st.sessions, st.files)
  {
    tasks := [];
    if row >= |inbox.rows| {
      x, acts := MissingRow(e, s, i);
      return;
    }
    var verdict;
    verdict, tasks := HandleRow(inbox.rows[row], st, contacts, routes, raisesAfter, now, s, i);
    inbox.Mark(row, verdict);
    x, acts := HandledRow(e, s, i, raisesAfter, verdict, tasks, st.sessions, st.files);
  }

  /** The step of the machine that handles row i's task: this verdict and these tasks, and these tables. */
  ghost predicate Handles(s: State, i: nat, after: Option<nat>, verdict: InboxState, tasks: seq<Task>,
                          ss: seq<Session>, fs: seq<File>)
    requires At(s, i) && s.tasks[i].InboxTask? && s.tasks[i].row < |s.inbox|
    requires after.Some? ==> after.value <= |s.inbox[s.tasks[i].row].payload.messages|
  {
    var x := HandleStep(s, i, after);
    && x.desk == s.desk.(sessions := ss, files := fs)
    && x.inbox == s.inbox && x.tasks == s.tasks[i := s.tasks[i].(handling := Handled(verdict))] + tasks
  }

  /** The row is not there: the task ends. */
  lemma MissingRow(e: Env, s: State, i: nat) returns (x: State, acts: seq<Action>)
    requires At(s, i) && s.tasks[i].InboxTask? && s.tasks[i].handling.Unhandled? && s.tasks[i].row >= |s.inbox|
    ensures Reaches(e, s, acts, x) && x == s.(tasks := s.tasks[i := Gone])
  {
    ReachesSnoc(e, s, [], s, Handle(i, None));
    x, acts := HandleStep(s, i, None), [] + [Handle(i, None)];
  }

  /** The row is handled and the verdict written on it. */
  lemma HandledRow(e: Env, s: State, i: nat, after: Option<nat>, verdict: InboxState, tasks: seq<Task>,
                   ss: seq<Session>, fs: seq<File>)
    returns (x: State, acts: seq<Action>)
    requires At(s, i) && s.tasks[i].InboxTask? && s.tasks[i].handling.Unhandled? && s.tasks[i].row < |s.inbox|
    requires after.Some? ==> after.value <= |s.inbox[s.tasks[i].row].payload.messages|
    requires Handles(s, i, after, verdict, tasks, ss, fs)
    ensures Reaches(e, s, acts, x) && x.desk == s.desk.(sessions := ss, files := fs)
    ensures x.inbox == MarkInbox(s.inbox, s.tasks[i].row, verdict) && x.tasks == s.tasks[i := Gone] + tasks
  {
    var y, before := HandleReached(e, s, i, after, verdict, tasks, ss, fs);
    x, acts := MarkedRow(e, s, before, y, i, s.tasks[i].row, verdict);
    assert y.tasks[i := Gone] == s.tasks[i := Gone] + tasks;
  }

  lemma HandleReached(e: Env, s: State, i: nat, after: Option<nat>, verdict: InboxState, tasks: seq<Task>,
                      ss: seq<Session>, fs: seq<File>)
    returns (y: State, acts: seq<Action>)
    requires At(s, i) && s.tasks[i].InboxTask? && s.tasks[i].handling.Unhandled? && s.tasks[i].row < |s.inbox|
    requires after.Some? ==> after.value <= |s.inbox[s.tasks[i].row].payload.messages|
    requires Handles(s, i, after, verdict, tasks, ss, fs)
    ensures Reaches(e, s, acts, y) && y.desk == s.desk.(sessions := ss, files := fs) && y.inbox == s.inbox
    ensures y.tasks == s.tasks[i := s.tasks[i].(handling := Handled(verdict))] + tasks
  {
    ReachesSnoc(e, s, [], s, Handle(i, after));
    y, acts := HandleStep(s, i, after), [] + [Handle(i, after)];
  }

  lemma MarkedRow(e: Env, s: State, acts: seq<Action>, x: State, i: nat, row: nat, verdict: InboxState)
    returns (x': State, acts': seq<Action>)
    requires Reaches(e, s, acts, x) && At(x, i) && x.tasks[i].InboxTask? && x.tasks[i].row == row
    requires x.tasks[i].handling == Handled(verdict)
    ensures Reaches(e, s, acts', x')
    ensures x'.desk == x.desk && x'.tasks == x.tasks[i := Gone] && x'.inbox == MarkInbox(x.inbox, row, verdict)
  {
    ReachesSnoc(e, s, acts, x, MarkRow(i));
    x', acts' := MarkRowStep(x, i), acts + [MarkRow(i)];
  }

  /** The step of the machine does to a row exactly that. */
  lemma HandleIs(s: State, i: nat, after: Option<nat>, verdict: InboxState, tasks: seq<Task>, ss: seq<Session>,
                 fs: seq<File>)
    requires At(s, i) && s.tasks[i].InboxTask? && s.tasks[i].row < |s.inbox|
    requires after.Some? ==> after.value <= |s.inbox[s.tasks[i].row].payload.messages|
    requires Handles(s, i, after, verdict, tasks, ss, fs)
    ensures HandleMeans(s.inbox[s.tasks[i].row], s.db.contacts, s.db.routes, s.desk.sessions, s.desk.files, after,
                        s.outbox.now, verdict, tasks, ss, fs)
  {
    var r, x := s.inbox[s.tasks[i].row], HandleStep(s, i, after);
    assert x.tasks[i] == s.tasks[i].(handling := Handled(verdict)) && tasks == x.tasks[|s.tasks|..];
    ResolveIs(s.db, r.phoneNumberId, r.payload.sender);
    ResolvedAt(s, r);
    if r.signatureOk && after.None? && ResolveSpec(s.db, r.phoneNumberId, r.payload.sender).Known? {
      forall k: nat | Resolves(r, s.db.contacts, s.db.routes, k)
        ensures TakesPayload(r, s.db.contacts[k], s.desk.sessions, s.desk.files, s.outbox.now, tasks, ss, fs)
      {
        PayloadTaken(s, i, r, k, tasks);
      }
    }
  }

  /** A row resolves exactly when the routing says so. */
  lemma ResolvedAt(s: State, r: InboxRow)
    ensures var v := ResolveSpec(s.db, r.phoneNumberId, r.payload.sender);
      && (v.Known? <==> exists k: nat :: Resolves(r, s.db.contacts, s.db.routes, k))
      && (!v.Unroutable? ==> exists i: nat, k: nat ::
            && CameFrom(s.db.contacts, s.db.routes, r.phoneNumberId, r.payload.sender, i, k)
            && s.db.contacts[k].status == Api.ContactStatus.Active && (v.Broken? ==> s.db.contacts[k].orgUnit == None))
      && forall k: nat | Resolves(r, s.db.contacts, s.db.routes, k) ::
           && v.Known? && v.ctx.tenant == s.db.contacts[k].tenant && v.ctx.contact == s.db.contacts[k].id
           && s.db.contacts[k].orgUnit == Some(v.ctx.orgUnit)
  {
    var v := ResolveSpec(s.db, r.phoneNumberId, r.payload.sender);
    ResolveIs(s.db, r.phoneNumberId, r.payload.sender);
    if !v.Unroutable? {
      var i: nat, k: nat :| CameFrom(s.db.contacts, s.db.routes, r.phoneNumberId, r.payload.sender, i, k)
                            && s.db.contacts[k].status == Api.ContactStatus.Active;
      assert v.Known? ==> Resolves(r, s.db.contacts, s.db.routes, k);
    }
    forall k: nat | Resolves(r, s.db.contacts, s.db.routes, k)
      ensures v.Known? && v.ctx.tenant == s.db.contacts[k].tenant && v.ctx.contact == s.db.contacts[k].id
      ensures s.db.contacts[k].orgUnit == Some(v.ctx.orgUnit)
    {
      var i: nat :| CameFrom(s.db.contacts, s.db.routes, r.phoneNumberId, r.payload.sender, i, k);
    }
  }

  lemma PayloadTaken(s: State, i: nat, r: InboxRow, k: nat, tasks: seq<Task>)
    requires At(s, i) && s.tasks[i].InboxTask? && s.tasks[i].row < |s.inbox| && r == s.inbox[s.tasks[i].row]
    requires r.signatureOk && Resolves(r, s.db.contacts, s.db.routes, k)
    requires HandleStep(s, i, None).tasks == s.tasks[i := s.tasks[i].(handling := Handled(InboxDone))] + tasks
    ensures var x := HandleStep(s, i, None);
      TakesPayload(r, s.db.contacts[k], s.desk.sessions, s.desk.files, s.outbox.now, tasks,
                   x.desk.sessions, x.desk.files)
  {
    ResolvedAt(s, r);
    var ctx, now := ResolveSpec(s.db, r.phoneNumberId, r.payload.sender).ctx, s.outbox.now;
    var sid, start, y := TakenStep(s, i, r, ctx);
    GetOrCreateIs(s.desk.sessions, ctx.tenant, ctx.contact, ctx.orgUnit, now);
    var at := ReceiveIs(start, ctx.tenant, sid, now, r.payload.messages);
    SameTail(s.tasks[i := s.tasks[i].(handling := Handled(InboxDone))], tasks,
             FetchTasks(y.deferred, |y.files|, Some(sid)));
    AllFetched(start, ctx.tenant, sid, now, r.payload.messages, at, y);
  }

  lemma AllFetched(x: Intake, tenant: nat, sid: nat, now: real, ms: seq<Msg>, at: seq<nat>, y: Intake)
    requires x.deferred == [] && TakesIn(x, tenant, sid, now, ms, at, y)
    ensures Fetches(y.deferred, sid, FetchTasks(y.deferred, |y.files|, Some(sid)))
  {
    forall n | 0 <= n < |y.deferred| ensures y.deferred[n] < |y.files| {
      assert IsFileOf(y.files, y.deferred[|x.deferred| + n], ms[at[n]]);
    }
  }

  lemma SameTail<T>(x: seq<T>, y: seq<T>, z: seq<T>)
    requires x + y == x + z
    ensures y == z
  {
    assert (x + y)[|x|..] == y && (x + z)[|x|..] == z;
  }

  /** Handling a row that resolves, as the machine computes it. */
  lemma TakenStep(s: State, i: nat, r: InboxRow, ctx: Context) returns (sid: nat, start: Intake, y: Intake)
    requires At(s, i) && s.tasks[i].InboxTask? && s.tasks[i].row < |s.inbox| && r == s.inbox[s.tasks[i].row]
    requires r.signatureOk && ResolveSpec(s.db, r.phoneNumberId, r.payload.sender) == Known(ctx)
    ensures var (ss, id) := GetOrCreateSpec(s.desk.sessions, ctx.tenant, ctx.contact, ctx.orgUnit, s.outbox.now);
      sid == id && start == Intake(ss, s.desk.files, MaxSeq(s.desk.files, sid), [])
    ensures y == ReceiveAll(start, ctx.tenant, sid, s.outbox.now, r.payload.messages)
    ensures var x := HandleStep(s, i, None);
      && x.desk.sessions == y.sessions && x.desk.files == y.files
      && x.tasks == s.tasks[i := s.tasks[i].(handling := Handled(InboxDone))]
                    + FetchTasks(y.deferred, |y.files|, Some(sid))
  {
    var (ss, id) := GetOrCreateSpec(s.desk.sessions, ctx.tenant, ctx.contact, ctx.orgUnit, s.outbox.now);
    sid := id;
    start := Intake(ss, s.desk.files, MaxSeq(s.desk.files, sid), []);
    y := ReceiveAll(start, ctx.tenant, sid, s.outbox.now, r.payload.messages);
  }

  /** The transaction of one row that is there. */
  method HandleRow(r: InboxRow, st: Sessions.Table, contacts: seq<Api.Contact>, routes: seq<Api.Route>,
                   raisesAfter: Option<nat>, now: real, ghost s: State, ghost i: nat)
    returns (verdict: InboxState, tasks: seq<Task>)
    requires s.desk.sessions == st.sessions && s.desk.files == st.files && s.outbox.now == now
    requires s.db.contacts == contacts && s.db.routes == routes
    requires At(s, i) && s.tasks[i].InboxTask? && s.tasks[i].row < |s.inbox| && s.inbox[s.tasks[i].row] == r
    requires raisesAfter.Some? ==> raisesAfter.value <= |r.payload.messages|
    modifies st
    ensures Handles(s, i, raisesAfter, verdict, tasks, st.sessions, st.files)
    ensures raisesAfter.Some? ==> st.sessions == old(st.sessions) && st.files == old(st.files)
    ensures HandleMeans(r, contacts, routes, old(st.sessions), old(st.files), raisesAfter, now, verdict, tasks,
                        st.sessions, st.files)
  {
    verdict, tasks := HandleBranches(r, st, contacts, routes, raisesAfter, now, s, i);
    HandleIs(s, i, raisesAfter, verdict, tasks, st.sessions, st.files);
  }

  /** The same, branch by branch. */
  method HandleBranches(r: InboxRow, st: Sessions.Table, contacts: seq<Api.Contact>, routes: seq<Api.Route>,
                        raisesAfter: Option<nat>, now: real, ghost s: State, ghost i: nat)
    returns (verdict: InboxState, tasks: seq<Task>)
    requires s.desk.sessions == st.sessions && s.desk.files == st.files && s.outbox.now == now
    requires s.db.contacts == contacts && s.db.routes == routes
    requires At(s, i) && s.tasks[i].InboxTask? && s.tasks[i].row < |s.inbox| && s.inbox[s.tasks[i].row] == r
    requires raisesAfter.Some? ==> raisesAfter.value <= |r.payload.messages|
    modifies st
    ensures Handles(s, i, raisesAfter, verdict, tasks, st.sessions, st.files)
    ensures raisesAfter.Some? ==> st.sessions == old(st.sessions) && st.files == old(st.files)
  {
    verdict, tasks := InboxIgnored, [];
    if !r.signatureOk { return; }
    var resolved := ResolveFullContext(contacts, routes, r.phoneNumberId, r.payload.sender);
    assert resolved == ResolveSpec(Api.Db(contacts, routes, s.db.messages), r.phoneNumberId, r.payload.sender);
    assert s.db == Api.Db(contacts, routes, s.db.messages);
    match resolved
    case Unroutable(_) =>
    case Broken => verdict := InboxFailed;
    case Known(ctx) =>
      var sessions, files := st.sessions, st.files;
      var sid := st.GetOrCreateSession(ctx.tenant, ctx.contact, ctx.orgUnit, now);
      if raisesAfter.None? {
        var deferred := ProcessMessages(st, ctx.tenant, sid, now, r.payload.messages);
        verdict, tasks := InboxDone, FetchTasks(deferred, |st.files|, Some(sid));
      } else {
        var deferred := ProcessMessages(st, ctx.tenant, sid, now, r.payload.messages[..raisesAfter.value]);
        st.sessions, st.files := sessions, files;
        verdict, tasks := InboxFailed, FetchTasks(deferred, |files|, if sid < |sessions| then Some(sid) else None);
      }
  }

  // ---- fetch_and_store_file -------------------------------------------------------------------------

  /** What the three foreign calls of one invocation answer: the journey lookup, Meta and audit-core. */
  datatype FetchInput = FetchInput(
    journey: bool, downloaded: bool, quarantine: bool, retryable: bool, reached: bool, stored: Option<nat>)

  /** audit-core's evidence id is the one bound to the file's wamid. */
  ghost predicate Honest(s: State, f: nat, input: FetchInput)
    requires f < |s.desk.files|
  {
    input.stored.Some? ==> input.reached && input.stored.value == Bind(s.evidence, s.desk.files[f].wamid).1
  }

  predicate Present(file: Option<nat>, files: seq<File>) { file.Some? && file.value < |files| }

  /** The file after an invocation: failed without a journey; failed, or quarantined, with an attempt more when it
      cannot be downloaded or stored; else stored with its evidence. */
  function Fetched(f: File, input: FetchInput): File {
    if !input.journey then f.(state := FileFailed)
    else if !input.downloaded then
      f.(state := if input.quarantine then Quarantined else FileFailed, attempts := f.attempts + 1)
    else if input.stored.None? then f.(state := FileFailed, attempts := f.attempts + 1)
    else f.(state := Stored, document := input.stored)
  }

  /** One invocation; a file row that is not there ends it. */
  method FetchAndStoreFile(st: Sessions.Table, items: Checklist.Table, file: Option<nat>, session: Option<nat>,
                           retries: nat, input: FetchInput, e: Env, ghost s: State, ghost i: nat)
    returns (next: Task, polls: seq<Task>, ghost x: State, ghost acts: seq<Action>)
    requires Matches(s, st, items) && (Present(file, st.files) ==> Honest(s, file.value, input))
    requires At(s, i) && s.tasks[i] == FetchTask(file, session, retries, Starting)
    modifies st`files
    ensures Reaches(e, s, acts, x) && Matches(x, st, items)
    ensures x.tasks == s.tasks[i := next] + polls
    ensures st.files == if Present(file, old(st.files))
                        then old(st.files)[file.value := Fetched(old(st.files)[file.value], input)] else old(st.files)
    ensures var goesOn := Present(file, old(st.files)) && input.journey;
      && next == (if goesOn && !input.downloaded && !input.retryable then Raised(s.tasks[i]) else Gone)
      && polls == if goesOn && input.downloaded && input.stored.Some?
                  then [PollTask(file.value, session, input.stored.value, 0, Asking)] else []
  {
    next, polls := Gone, [];
    x := StartStep(s, i, input.journey);
    ReachesSnoc(e, s, [], s, Start(i, input.journey));
    acts := [] + [Start(i, input.journey)];
    if file.None? || file.value >= |st.files| { return; }
    var f := file.value;
    if !input.journey {
      st.files := st.files[f := st.files[f].(state := FileFailed)];
      return;
    }
    st.files := st.files[f := st.files[f].(state := Downloading)];
    next, polls, x, acts := DownloadAndStore(st, items, f, session, retries, input, e, s, i, x, acts);
  }

  /** The invocation once the journey is known. */
  method DownloadAndStore(st: Sessions.Table, items: Checklist.Table, file: nat, session: Option<nat>, retries: nat,
                          input: FetchInput, e: Env, ghost s: State, ghost i: nat, ghost x: State,
                          ghost acts: seq<Action>)
    returns (next: Task, polls: seq<Task>, ghost x': State, ghost acts': seq<Action>)
    requires Reaches(e, s, acts, x) && Matches(x, st, items) && file < |st.files| && Honest(x, file, input)
    requires At(x, i) && x.tasks[i] == FetchTask(Some(file), session, retries, Fetching)
    modifies st`files
    ensures Reaches(e, s, acts', x') && Matches(x', st, items) && x'.tasks == x.tasks[i := next] + polls
    ensures next == if !input.downloaded && !input.retryable then Raised(x.tasks[i]) else Gone
    ensures input.journey ==> st.files == old(st.files)[file := Fetched(old(st.files)[file], input)]
    ensures polls == if input.downloaded && input.stored.Some?
                     then [PollTask(file, session, input.stored.value, 0, Asking)] else []
  {
    next, polls := Gone, [];
    x', acts' := DownloadEnds(e, s, acts, x, i, input);
    if !input.downloaded {
      st.files := st.files[file := Failed(st.files[file], if input.quarantine then Quarantined else FileFailed)];
      if !input.retryable { next := Raised(FetchTask(Some(file), session, retries, Fetching)); }
      return;
    }
    st.files := st.files[file := st.files[file].(state := Storing)];
    polls, x', acts' := StoreFetched(st, items, file, session, input, e, s, i, x', acts');
  }

  lemma DownloadEnds(e: Env, s: State, acts: seq<Action>, x: State, i: nat, input: FetchInput)
    returns (x': State, acts': seq<Action>)
    requires Reaches(e, s, acts, x) && InFetch(x, i) && x.tasks[i].fetching.Fetching? && HasFile(x, x.tasks[i])
    ensures Reaches(e, s, acts', x')
    ensures x' == DownloadStep(x, i, input.downloaded, input.quarantine, input.retryable)
  {
    var download := Download(i, input.downloaded, input.quarantine, input.retryable);
    ReachesSnoc(e, s, acts, x, download);
    x', acts' := Apply(e, x, download), acts + [download];
  }

  /** The downloaded file goes to audit-core; its evidence id is committed and the poll deferred. */
  method StoreFetched(st: Sessions.Table, items: Checklist.Table, file: nat, session: Option<nat>, input: FetchInput,
                      e: Env, ghost s: State, ghost i: nat, ghost x: State, ghost acts: seq<Action>)
    returns (polls: seq<Task>, ghost x': State, ghost acts': seq<Action>)
    requires Reaches(e, s, acts, x) && Matches(x, st, items) && file < |st.files| && Honest(x, file, input)
    requires InFetch(x, i) && x.tasks[i].fetching.Posting? && x.tasks[i].wanted == Some(file)
    requires x.tasks[i].session == session
    modifies st`files
    ensures Reaches(e, s, acts', x') && Matches(x', st, items) && x'.tasks == x.tasks[i := Gone] + polls
    ensures input.journey && input.downloaded ==> st.files == old(st.files)[file := Fetched(old(st.files)[file], input)]
    ensures polls == if input.stored.Some? then [PollTask(file, session, input.stored.value, 0, Asking)] else []
  {
    polls := [];
    ghost var post := Post(i, input.reached, input.stored.Some?);
    ReachesSnoc(e, s, acts, x, post);
    x', acts' := PostStep(x, i, input.reached, input.stored.Some?), acts + [post];
    if input.stored.None? {
      st.files := st.files[file := Failed(st.files[file], FileFailed)];
      return;
    }
    st.files := st.files[file := st.files[file].(state := Stored, document := input.stored)];
    polls := [PollTask(file, session, input.stored.value, 0, Asking)];
    x', acts' := CommittedAndDeferred(e, s, acts', x', i);
  }

  lemma CommittedAndDeferred(e: Env, s: State, acts: seq<Action>, x: State, i: nat)
    returns (x': State, acts': seq<Action>)
    requires Reaches(e, s, acts, x) && InFetch(x, i) && x.tasks[i].fetching.Posted? && HasFile(x, x.tasks[i])
    ensures var (t, f) := (x.tasks[i], x.tasks[i].wanted.value);
      var evidence := t.fetching.evidence;
      && Reaches(e, s, acts', x') && x'.desk == x.desk.(files := x'.desk.files)
      && x'.desk.files == x.desk.files[f := x.desk.files[f].(state := Stored, document := Some(evidence))]
      && x'.tasks == x.tasks[i := Gone] + [PollTask(f, t.session, evidence, 0, Asking)]
  {
    ReachesSnoc(e, s, acts, x, Commit(i));
    var y := CommitStep(x, i);
    ReachesSnoc(e, s, acts + [Commit(i)], y, Defer(i));
    x', acts' := DeferStep(y, i), (acts + [Commit(i)]) + [Defer(i)];
    assert y.tasks[i := Gone] == x.tasks[i := Gone];
  }

  // ---- poll_di_document -----------------------------------------------------------------------------

  /** The number of stored files of the session without a type, as the query counts them. */
  method AnyUnpolled(st: Sessions.Table, session: Option<nat>) returns (any: bool)
    ensures !any <==> forall f | 0 <= f < |st.files| && Some(st.files[f].session) == session ::
                        !(st.files[f].state == Stored && st.files[f].docType.None?)
  {
    any := false;
    for f := 0 to |st.files|
      invariant !any <==> forall g | 0 <= g < f && Some(st.files[g].session) == session ::
                            !(st.files[g].state == Stored && st.files[g].docType.None?)
    {
      if Some(st.files[f].session) == session && st.files[f].state == Stored && st.files[f].docType.None? {
        any := true;
      }
    }
  }

  /** DI's answer is final, and this is its status and type. */
  predicate IsFinal(reply: DiPoll.PollReply, status: DiPoll.Status, key: Option<DocType>) {
    reply.Http? && reply.code == 200 && reply.body == Some((status, key)) && status != DiPoll.Unfinished
  }

  /** No later poll can change it: the answer is an error for good, or this was the seventh poll. */
  predicate GivesUp(reply: DiPoll.PollReply, attempt: nat) {
    attempt >= 6 || (reply.Http? && reply.code < 500 && (reply.code != 200 || reply.body == None))
  }

  /** Some stored file of the session has no type yet. */
  ghost predicate Untyped(fs: seq<File>, session: Option<nat>) {
    exists f :: 0 <= f < |fs| && session == Some(fs[f].session) && fs[f].state == Stored && fs[f].docType == None
  }

  /** The session is due now, if it is open and no stored file of it waits for its type. */
  ghost predicate NudgeMeans(ss: seq<Session>, fs: seq<File>, session: Option<nat>, now: real, ss': seq<Session>) {
    ss' == if && session.Some? && session.value < |ss|
              && ss[session.value].state in {Collecting, ConfirmingDeal, Processing} && !Untyped(fs, session)
           then ss[session.value := ss[session.value].(flushAt := now)] else ss
  }

  /** The item of that type of the session's deal, if there is one, is satisfied with the evidence. */
  ghost predicate MarkMeans(ss: seq<Session>, session: Option<nat>, key: DocType, evidence: nat, its: Items,
                            its': Items)
  {
    if session.Some? && session.value < |ss| && ss[session.value].deal.Some? then
      var k := (ss[session.value].deal.value, key);
      && its'.Keys == its.Keys && (forall x | x in its && x != k :: its'[x] == its[x])
      && (k in its ==> its'[k] == Item(its[k].requirement, true, Some(evidence)))
    else its' == its
  }

  /** What one poll comes to.  A final answer gives the file its type, and a confirmed booking form its facts;
      only a confirmed or verified document with a type marks an item, so a rejected or failed one leaves the
      checklist as it was; without a final answer nothing is touched but the session, parked when polling is
      given up, and otherwise there is one more poll after the next delay of the table. */
  ghost predicate PollMeans(ss: seq<Session>, fs: seq<File>, its: Items, file: nat, session: Option<nat>, evidence: nat,
                            attempt: nat, reply: DiPoll.PollReply, fetched: Option<BookingFields>, now: real,
                            ss': seq<Session>, fs': seq<File>, its': Items, again: Option<(nat, nat)>)
    requires file < |fs|
  {
    if exists status, key :: IsFinal(reply, status, key) then
      var (status, key) := reply.body.value;
      var confirmed := status == DiPoll.Confirmed || status == DiPoll.Verified;
      && again == None && NudgeMeans(ss, fs', session, now, ss')
      && fs' == fs[file := fs[file].(
           docType := key, facts := if confirmed && key == Some(BookingForm) then fetched else None)]
      && if confirmed && key.Some? && key.value != OtherType("") then
           MarkMeans(ss, session, key.value, evidence, its, its')
         else its' == its
    else
      && fs' == fs && its' == its
      && if GivesUp(reply, attempt) then
           && again == None
           && ss' == if session.Some? && session.value < |ss|
                     then ss[session.value := ss[session.value].(state := Parked, note := DiSla)] else ss
         else ss' == ss && again == Some((attempt + 1, [3, 5, 8, 13, 21, 34][attempt]))
  }

  /** One poll, given what the facts query of a confirmed booking form yields; again is the next attempt and its
      delay when the poll defers itself.  DI's final answer for an evidence id is the one of the environment. */
  method PollDiDocument(st: Sessions.Table, items: Checklist.Table, file: nat, session: Option<nat>, evidence: nat,
                        attempt: nat, reply: DiPoll.PollReply, fetched: Option<BookingFields>, now: real, e: Env,
                        ghost s: State, ghost i: nat)
    returns (again: Option<(nat, nat)>, ghost x: State, ghost acts: seq<Action>)
    requires Matches(s, st, items) && file < |st.files| && s.outbox.now == now
    requires At(s, i) && s.tasks[i] == PollTask(file, session, evidence, attempt, Asking)
    requires forall status, key | IsFinal(reply, status, key) ::
               e.di(evidence) == DiAnswer(status == DiPoll.Confirmed || status == DiPoll.Verified, key)
    modifies st, items
    ensures Reaches(e, s, acts, x) && Matches(x, st, items)
    ensures x.tasks == s.tasks[i := match again case None => Gone case Some((a, _)) => s.tasks[i].(attempt := a)]
    ensures PollMeans(old(st.sessions), old(st.files), old(items.items), file, session, evidence, attempt, reply,
                      fetched, now, st.sessions, st.files, items.items, again)
  {
    again := None;
    var outcome := DiPoll.Classify(reply);
    assert outcome.Terminal? ==> IsFinal(reply, outcome.status, outcome.typeKey);
    x := PollStep(s, i, outcome);
    ReachesSnoc(e, s, [], s, Poll(i, outcome));
    acts := [] + [Poll(i, outcome)];
    match DiPoll.Decide(attempt, outcome)
    case Again(a, delay) => again := Some((a, delay));
    case Park =>
      x, acts := StopPolling(st, items, session, e, s, i, x, acts);
    case Persist =>
      x, acts := PersistAnswer(st, items, file, session, evidence, fetched, now, e, s, i, x, acts);
  }

  /** Polling is given up: the session parks. */
  method StopPolling(st: Sessions.Table, items: Checklist.Table, session: Option<nat>, e: Env,
                     ghost s: State, ghost i: nat, ghost x: State, ghost acts: seq<Action>)
    returns (ghost x': State, ghost acts': seq<Action>)
    requires Reaches(e, s, acts, x) && Matches(x, st, items) && InPoll(x, i, Parking) && x.tasks[i].session == session
    modifies st`sessions
    ensures Reaches(e, s, acts', x') && Matches(x', st, items) && x'.tasks == x.tasks[i := Gone]
    ensures st.sessions == if session.Some? && session.value < |old(st.sessions)| then
              old(st.sessions)[session.value := old(st.sessions)[session.value].(state := Parked, note := DiSla)]
            else old(st.sessions)
  {
    if session.Some? { ParkOnDiSla(st, session.value); }
    ReachesSnoc(e, s, acts, x, Action.Park(i));
    x', acts' := Next(OnSession(x, session, SlaParked()), i, Gone), acts + [Action.Park(i)];
  }

  /** A terminal answer: the type and the facts are persisted, the item marked if the session is linked, and
      the flush advanced if nothing waits. */
  method PersistAnswer(st: Sessions.Table, items: Checklist.Table, file: nat, session: Option<nat>, evidence: nat,
                       fetched: Option<BookingFields>, now: real, e: Env,
                       ghost s: State, ghost i: nat, ghost x: State, ghost acts: seq<Action>)
    returns (ghost x': State, ghost acts': seq<Action>)
    requires Reaches(e, s, acts, x) && Matches(x, st, items) && file < |st.files| && x.outbox.now == now
    requires InPoll(x, i, Persisting) && x.tasks[i].file == file && x.tasks[i].session == session
    requires x.tasks[i].evidence == evidence
    modifies st, items
    ensures Reaches(e, s, acts', x') && Matches(x', st, items) && x'.tasks == x.tasks[i := Gone]
    ensures var (confirmed, key) := (e.di(evidence).confirmed, e.di(evidence).docType);
      && st.files == old(st.files)[file := old(st.files)[file].(
           docType := key, facts := if confirmed && key == Some(BookingForm) then fetched else None)]
      && NudgeMeans(old(st.sessions), st.files, session, now, st.sessions)
      && if confirmed && key.Some? && key.value != OtherType("") then
           MarkMeans(old(st.sessions), session, key.value, evidence, old(items.items), items.items)
         else items.items == old(items.items)
  {
    var answer := e.di(evidence);
    var facts := None;
    if answer.docType == Some(BookingForm) && answer.confirmed { facts := fetched; }
    st.files := st.files[file := st.files[file].(docType := answer.docType, facts := facts)];
    ReachesSnoc(e, s, acts, x, Action.Persist(i, fetched));
    x', acts' := PersistStep(e, x, i, fetched), acts + [Action.Persist(i, fetched)];
    if answer.confirmed && Typed(answer.docType) {
      x', acts' := SatisfyLinked(st, items, session, evidence, e, s, i, x', acts');
    }
    x', acts' := AdvanceFlush(st, items, session, now, e, s, i, x', acts');
  }

  /** _park_on_di_sla. */
  method ParkOnDiSla(st: Sessions.Table, session: nat)
    modifies st`sessions
    ensures st.sessions == Change(old(st.sessions), session, SlaParked())
    ensures st.sessions == if session < |old(st.sessions)|
                           then old(st.sessions)[session := old(st.sessions)[session].(state := Parked, note := DiSla)]
                           else old(st.sessions)
  {
    if session < |st.sessions| {
      st.sessions := st.sessions[session := st.sessions[session].(state := Parked, note := DiSla)];
    }
  }

  /** The second and third transaction: read the link, and mark the item if there is one. */
  method SatisfyLinked(st: Sessions.Table, items: Checklist.Table, session: Option<nat>, evidence: nat, e: Env,
                       ghost s: State, ghost i: nat, ghost x: State, ghost acts: seq<Action>)
    returns (ghost x': State, ghost acts': seq<Action>)
    requires Reaches(e, s, acts, x) && Matches(x, st, items) && e.di(evidence).docType.Some?
    requires InPoll(x, i, Linking) && x.tasks[i].session == session && x.tasks[i].evidence == evidence
    modifies items
    ensures Reaches(e, s, acts', x') && Matches(x', st, items) && x'.outbox == x.outbox
    ensures x'.tasks == x.tasks[i := x.tasks[i].(polling := Counting)]
    ensures MarkMeans(st.sessions, session, e.di(evidence).docType.value, evidence, old(items.items), items.items)
  {
    ReachesSnoc(e, s, acts, x, ReadLink(i));
    x', acts' := ReadLinkStep(e, x, i), acts + [ReadLink(i)];
    if session.Some? && session.value < |st.sessions| && st.sessions[session.value].deal.Some? {
      items.MarkSatisfied(st.sessions[session.value].deal.value, e.di(evidence).docType.value, evidence);
      ReachesSnoc(e, s, acts', x', MarkItem(i));
      x', acts' := MarkItemStep(e, x', i), acts' + [MarkItem(i)];
    }
  }

  /** The end of the poll: when no file of the session waits for its type, the session is due. */
  method AdvanceFlush(st: Sessions.Table, items: Checklist.Table, session: Option<nat>, now: real, e: Env,
                      ghost s: State, ghost i: nat, ghost x: State, ghost acts: seq<Action>)
    returns (ghost x': State, ghost acts': seq<Action>)
    requires Reaches(e, s, acts, x) && Matches(x, st, items) && x.outbox.now == now
    requires InPoll(x, i, Counting) && x.tasks[i].session == session
    modifies st`sessions
    ensures Reaches(e, s, acts', x') && Matches(x', st, items) && x'.tasks == x.tasks[i := Gone]
    ensures NudgeMeans(old(st.sessions), st.files, session, now, st.sessions)
  {
    var any := AnyUnpolled(st, session);
    ReachesSnoc(e, s, acts, x, Count(i));
    x', acts' := CountStep(x, i), acts + [Count(i)];
    if !any {
      if session.Some? && session.value < |st.sessions| && Open(st.sessions[session.value].state) {
        st.sessions := st.sessions[session.value := st.sessions[session.value].(flushAt := now)];
      }
      ReachesSnoc(e, s, acts', x', Action.Nudge(i));
      x', acts' := Next(OnSession(x', session, Nudged(now)), i, Gone), acts' + [Action.Nudge(i)];
    }
  }
}
