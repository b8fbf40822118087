/** Why the no-lost-satisfaction theorem speaks of a file's own session: a run in which a document is
    redelivered into a later session, polled there to a confirmed type, and still not satisfied by the
    deal that session is then linked to. */
module PipelineWitness {
  import opened Wrappers
  import opened Rows
  import DiPoll
  import opened Checklist
  import opened Sessions
  import opened Deals
  import opened Worker
  import OutboxRuns
  import opened Pipeline
  import opened PipelineSafety
  import opened WorkerTasks

  /** A poll is through with a confirmed type, and later the session's deal lacks that type. */
  ghost predicate LosesOne(e: Env, s: State, before: seq<Action>, after: seq<Action>, i: nat) {
    && Run(e, s, before) && Run(e, Exec(e, s, before), after)
    && i < |Exec(e, s, before).tasks| && ThroughWith(e, Exec(e, s, before).tasks[i])
    && !NotLost(Exec(e, Exec(e, s, before), after), Exec(e, s, before).tasks[i].session.value,
                e.di(Exec(e, s, before).tasks[i].evidence).docType.value)
  }

  /** What the stages leave alone. */
  ghost predicate SameBooks(s: State, x: State) {
    x.db == s.db && x.outbox == s.outbox && x.desk.book == s.desk.book && x.desk.items == s.desk.items
  }

  lemma ReceiveOneMessage(x: Intake, tenant: nat, sid: nat, now: real, m: Msg)
    ensures ReceiveAll(x, tenant, sid, now, [m]) == Receive(x, tenant, sid, now, m)
  {
    assert [m][..0] == [];
    assert ReceiveAll(x, tenant, sid, now, [m][..0]) == x;
  }

  lemma ReceiveTwoMessages(x: Intake, tenant: nat, sid: nat, now: real, m: Msg, m': Msg)
    ensures ReceiveAll(x, tenant, sid, now, [m, m']) ==
            Receive(Receive(x, tenant, sid, now, m), tenant, sid, now, m')
  {
    assert [m, m'][..1] == [m];
    ReceiveOneMessage(x, tenant, sid, now, m);
  }

  /** One closed session holding the file with wamid a. */
  ghost predicate FirstStage(s: State, x: State, contact: nat, a: string) {
    && SameBooks(s, x) && x.evidence == []
    && |x.inbox| == 1 && x.inbox[0].wamid == Some(a) && |x.tasks| == 2
    && |x.desk.sessions| == 1 && !Open(x.desk.sessions[0].state)
    && |x.desk.files| == 1 && x.desk.files[0].session == 0 && x.desk.files[0].wamid == a
    && x.desk.files[0].state == FilePending && x.desk.files[0].docType.None?
  }

  lemma FirstDelivery(e: Env, s: State, n: string, sender: string, a: string) returns (acts: seq<Action>, x: State)
    requires Initial(s) && ResolveSpec(s.db, Some(n), Some(sender)).Known?
    ensures Reaches(e, s, acts, x) && FirstStage(s, x, ResolveSpec(s.db, Some(n), Some(sender)).ctx.contact, a)
  {
    var p := Payload(Some(sender), [Msg(Some(a), true)]);
    var hook := Webhook(Some(n), p, true);
    ReachesSnoc(e, s, [], s, hook);
    var x1 := WebhookStep(s, Some(n), p, true);
    FirstRow(s, x1, n, p, a);
    ReachesSnoc(e, s, [] + [hook], x1, Handle(0, None));
    var x2 := HandleStep(x1, 0, None);
    FirstFile(s, x1, x2, n, sender, a);
    acts, x :=
      ClosedFirst(e, s, ([] + [hook]) + [Handle(0, None)], x2, ResolveSpec(s.db, Some(n), Some(sender)).ctx, a);
  }

  /** An operator closes the session. */
  lemma ClosedFirst(e: Env, s: State, acts0: seq<Action>, x0: State, ctx: Context, a: string)
    returns (acts: seq<Action>, x: State)
    requires Reaches(e, s, acts0, x0) && SameBooks(s, x0) && x0.evidence == []
    requires |x0.inbox| == 1 && x0.inbox[0].wamid == Some(a) && |x0.tasks| == 2
    requires |x0.desk.sessions| == 1 && x0.desk.sessions[0].state == Collecting
    requires |x0.desk.files| == 1 && NewFile(x0.desk.files[0], ctx.tenant, 0) && x0.desk.files[0].wamid == a
    ensures Reaches(e, s, acts, x) && FirstStage(s, x, ctx.contact, a)
  {
    var close := Operator(0, true, NoNote);
    ReachesSnoc(e, s, acts0, x0, close);
    acts, x := acts0 + [close], OnSession(x0, Some(0), EscalatedWith(NoNote));
  }

  lemma FirstRow(s: State, x: State, n: string, p: Payload, a: string)
    requires Initial(s) && p.messages == [Msg(Some(a), true)] && x == WebhookStep(s, Some(n), p, true)
    ensures x == s.(inbox := [InboxRow(Some(a), Some(n), p, true, InboxPending)],
                    tasks := [InboxTask(0, INBOX_RETRIES, Unhandled)])
  {
    assert x.inbox == [InboxRow(Some(a), Some(n), p, true, InboxPending)];
    assert x.tasks == [InboxTask(0, INBOX_RETRIES, Unhandled)];
  }

  lemma FirstFile(s: State, x: State, y: State, n: string, sender: string, a: string)
    requires Initial(s) && ResolveSpec(s.db, Some(n), Some(sender)).Known?
    requires var p := Payload(Some(sender), [Msg(Some(a), true)]);
      x == s.(inbox := [InboxRow(Some(a), Some(n), p, true, InboxPending)],
              tasks := [InboxTask(0, INBOX_RETRIES, Unhandled)])
    requires y == HandleStep(x, 0, None)
    ensures SameBooks(s, y) && y.evidence == [] && y.inbox == x.inbox && |y.tasks| == 2
    ensures |y.desk.sessions| == 1 && y.desk.sessions[0].state == Collecting
    ensures |y.desk.files| == 1 && NewFile(y.desk.files[0], ResolveSpec(s.db, Some(n), Some(sender)).ctx.tenant, 0)
    ensures y.desk.files[0].wamid == a
  {
    var ctx := ResolveSpec(s.db, Some(n), Some(sender)).ctx;
    var ss := [Opened(ctx.tenant, ctx.contact, ctx.orgUnit, s.outbox.now)];
    assert GetOrCreateSpec([], ctx.tenant, ctx.contact, ctx.orgUnit, s.outbox.now) == ([] + ss, 0);
    assert MaxSeq([], 0) == 0;
    var start := Intake([] + ss, [], 0, []);
    ReceiveOneMessage(start, ctx.tenant, 0, s.outbox.now, Msg(Some(a), true));
    var f := File(ctx.tenant, 0, a, 1, FilePending, 0, None, None, None);
    assert RegisterSpec([], f) == ([] + [f], 0);
    assert Receive(start, ctx.tenant, 0, s.outbox.now, Msg(Some(a), true)) ==
           Intake(Change([] + ss, 0, Arrived(s.outbox.now, 0)), [] + [f], 1, [] + [0]);
  }

  /** A new session of the contact, and a fetch of the old file for it. */
  ghost predicate SecondStage(s: State, x: State, ctx: Context, a: string) {
    && SameBooks(s, x) && x.evidence == []
    && |x.desk.sessions| == 2 && x.desk.sessions[1].state == Collecting && x.desk.sessions[1].deal.None?
    && x.desk.sessions[1].tenant == ctx.tenant && x.desk.sessions[1].flushAt == x.outbox.now + DEBOUNCE
    && |x.desk.files| == 1 && x.desk.files[0].session == 0 && x.desk.files[0].wamid == a
    && x.desk.files[0].docType.None?
    && |x.tasks| == 4 && x.tasks[3] == FetchTask(Some(0), Some(1), FETCH_RETRIES, Starting)
  }

  lemma Redelivery(e: Env, s: State, acts0: seq<Action>, x0: State, n: string, sender: string, a: string, b: string)
    returns (acts: seq<Action>, x: State)
    requires ResolveSpec(s.db, Some(n), Some(sender)).Known? && a != b && Reaches(e, s, acts0, x0)
    requires FirstStage(s, x0, ResolveSpec(s.db, Some(n), Some(sender)).ctx.contact, a)
    ensures Reaches(e, s, acts, x) && SecondStage(s, x, ResolveSpec(s.db, Some(n), Some(sender)).ctx, a)
  {
    var ctx := ResolveSpec(s.db, Some(n), Some(sender)).ctx;
    var m, m' := Msg(Some(b), false), Msg(Some(a), true);
    var p := Payload(Some(sender), [m, m']);
    var hook := Webhook(Some(n), p, true);
    ReachesSnoc(e, s, acts0, x0, hook);
    var x1 := WebhookStep(x0, Some(n), p, true);
    assert !SameWamid(b)(x0.inbox[0]);
    assert x1.inbox == x0.inbox + [InboxRow(Some(b), Some(n), p, true, InboxPending)];
    assert x1.tasks == x0.tasks + [InboxTask(1, INBOX_RETRIES, Unhandled)];
    ReachesSnoc(e, s, acts0 + [hook], x1, Handle(2, None));
    acts, x := (acts0 + [hook]) + [Handle(2, None)], HandleStep(x1, 2, None);
    SecondFile(s, x0, x1, x, n, sender, a, b);
  }

  lemma SecondFile(s: State, x0: State, x1: State, x: State, n: string, sender: string, a: string, b: string)
    requires ResolveSpec(s.db, Some(n), Some(sender)).Known?
    requires FirstStage(s, x0, ResolveSpec(s.db, Some(n), Some(sender)).ctx.contact, a)
    requires var p := Payload(Some(sender), [Msg(Some(b), false), Msg(Some(a), true)]);
      x1 == x0.(inbox := x0.inbox + [InboxRow(Some(b), Some(n), p, true, InboxPending)],
                tasks := x0.tasks + [InboxTask(1, INBOX_RETRIES, Unhandled)])
    requires x == HandleStep(x1, 2, None)
    ensures SecondStage(s, x, ResolveSpec(s.db, Some(n), Some(sender)).ctx, a)
  {
    var ctx := ResolveSpec(s.db, Some(n), Some(sender)).ctx;
    var m, m' := Msg(Some(b), false), Msg(Some(a), true);
    var ss := x0.desk.sessions + [Opened(ctx.tenant, ctx.contact, ctx.orgUnit, x0.outbox.now)];
    assert !OpenOf(ctx.contact)(x0.desk.sessions[0]);
    assert GetOrCreateSpec(x0.desk.sessions, ctx.tenant, ctx.contact, ctx.orgUnit, x0.outbox.now) == (ss, 1);
    var start := Intake(ss, x0.desk.files, MaxSeq(x0.desk.files, 1), []);
    ReceiveTwoMessages(start, ctx.tenant, 1, x0.outbox.now, m, m');
    assert WithWamid(a)(x0.desk.files[0]);
    assert Receive(start, ctx.tenant, 1, x0.outbox.now, m') ==
           Intake(Change(ss, 1, Arrived(x0.outbox.now, 0)), x0.desk.files, start.seqNo + 1, [0]);
  }

  /** The fetch goes through; the poll is deferred for the new session. */
  ghost predicate ThirdStage(s: State, x: State, ctx: Context) {
    && SameBooks(s, x)
    && |x.desk.sessions| == 2 && x.desk.sessions[1].state == Collecting && x.desk.sessions[1].deal.None?
    && x.desk.sessions[1].tenant == ctx.tenant && x.desk.sessions[1].flushAt == x.outbox.now + DEBOUNCE
    && |x.desk.files| == 1 && x.desk.files[0].session == 0
    && |x.tasks| == 5 && x.tasks[4].PollTask? && x.tasks[4].file == 0 && x.tasks[4].session == Some(1)
    && x.tasks[4].evidence == 0
  }

  lemma FetchedAgain(e: Env, s: State, acts0: seq<Action>, x0: State, ctx: Context, a: string)
    returns (acts: seq<Action>, x: State)
    requires Reaches(e, s, acts0, x0) && SecondStage(s, x0, ctx, a)
    ensures Reaches(e, s, acts, x) && ThirdStage(s, x, ctx) && x.tasks[4].attempt == 0 && x.tasks[4].polling == Asking
  {
    ReachesSnoc(e, s, acts0, x0, Start(3, true));
    var x1 := StartStep(x0, 3, true);
    var acts1 := acts0 + [Start(3, true)];
    var download := Download(3, true, false, false);
    ReachesSnoc(e, s, acts1, x1, download);
    var x2 := DownloadStep(x1, 3, true, false, false);
    var acts2 := acts1 + [download];
    ReachesSnoc(e, s, acts2, x2, Post(3, true, true));
    acts, x := CommittedAgain(e, s, acts2 + [Post(3, true, true)], PostStep(x2, 3, true, true), ctx);
  }

  lemma CommittedAgain(e: Env, s: State, acts3: seq<Action>, x3: State, ctx: Context)
    returns (acts: seq<Action>, x: State)
    requires Reaches(e, s, acts3, x3) && SameBooks(s, x3) && |x3.desk.files| == 1 && x3.desk.files[0].session == 0
    requires |x3.tasks| == 4 && x3.tasks[3] == FetchTask(Some(0), Some(1), FETCH_RETRIES, Posted(0))
    requires |x3.desk.sessions| == 2 && x3.desk.sessions[1].state == Collecting && x3.desk.sessions[1].deal.None?
    requires x3.desk.sessions[1].tenant == ctx.tenant && x3.desk.sessions[1].flushAt == x3.outbox.now + DEBOUNCE
    ensures Reaches(e, s, acts, x) && ThirdStage(s, x, ctx) && x.tasks[4].attempt == 0 && x.tasks[4].polling == Asking
  {
    ReachesSnoc(e, s, acts3, x3, Commit(3));
    var x4 := CommitStep(x3, 3);
    ReachesSnoc(e, s, acts3 + [Commit(3)], x4, Defer(3));
    acts, x := (acts3 + [Commit(3)]) + [Defer(3)], DeferStep(x4, 3);
  }

  /** The poll comes back confirmed and finds the session unlinked. */
  lemma PolledAgain(e: Env, s: State, acts0: seq<Action>, x0: State, ctx: Context) returns (acts: seq<Action>, x: State)
    requires Reaches(e, s, acts0, x0) && ThirdStage(s, x0, ctx) && x0.tasks[4].attempt == 0
    requires x0.tasks[4].polling == Asking
    requires e.di(0) == DiAnswer(true, Some(BookingForm))
    ensures Reaches(e, s, acts, x) && ThirdStage(s, x, ctx) && x.tasks[4].polling == Counting
  {
    var ask := Poll(4, DiPoll.Terminal(DiPoll.Confirmed, Some(BookingForm)));
    ReachesSnoc(e, s, acts0, x0, ask);
    var x1 := PollStep(x0, 4, ask.outcome);
    acts, x := PersistedAgain(e, s, acts0 + [ask], x1, ctx);
  }

  lemma PersistedAgain(e: Env, s: State, acts0: seq<Action>, x0: State, ctx: Context)
    returns (acts: seq<Action>, x: State)
    requires Reaches(e, s, acts0, x0) && ThirdStage(s, x0, ctx) && x0.tasks[4].polling == Persisting
    requires e.di(0) == DiAnswer(true, Some(BookingForm))
    ensures Reaches(e, s, acts, x) && ThirdStage(s, x, ctx) && x.tasks[4].polling == Counting
  {
    ReachesSnoc(e, s, acts0, x0, Action.Persist(4, None));
    var x1 := PersistStep(e, x0, 4, None);
    ReachesSnoc(e, s, acts0 + [Action.Persist(4, None)], x1, ReadLink(4));
    acts, x := (acts0 + [Action.Persist(4, None)]) + [ReadLink(4)], ReadLinkStep(e, x1, 4);
  }

  /** The debounce passes and the session is claimed. */
  lemma ClaimedForFlush(e: Env, s: State, x: State, ctx: Context) returns (acts: seq<Action>, y: State)
    requires Initial(s) && ThirdStage(s, x, ctx)
    ensures Reaches(e, x, acts, y)
    ensures y.desk.book == s.desk.book && y.desk.items == s.desk.items && y.outbox.rows == s.outbox.rows
    ensures OutboxRuns.Shape(y.outbox) && |y.tasks| == 6 && y.tasks[5] == ProcessTask(1, PROCESS_RETRIES)
    ensures |y.desk.sessions| == 2 && y.desk.sessions[1].state == Processing && y.desk.sessions[1].tenant == ctx.tenant
    ensures |y.desk.files| == 1 && y.desk.files[0].session == 0
  {
    var tick := OutboxStep(OutboxRuns.Tick(2.0 * DEBOUNCE));
    ReachesSnoc(e, x, [], x, tick);
    var x1 := x.(outbox := x.outbox.(now := x.outbox.now + 2.0 * DEBOUNCE));
    ReachesSnoc(e, x, [] + [tick], x1, Flush([1], 1));
    acts, y := ([] + [tick]) + [Flush([1], 1)], FlushStep(x1, [1], 1);
  }

  /** It has no file of its own, and finds no deal. */
  lemma LinkedWithoutIt(e: Env, s: State, x: State, ctx: Context) returns (acts: seq<Action>, y: State)
    requires Initial(s) && ThirdStage(s, x, ctx) && FreshNumber(e, s, ctx.tenant)
    ensures Reaches(e, x, acts, y) && |y.desk.sessions| == 2 && y.desk.sessions[1].deal == Some(|s.desk.book.deals|)
    ensures var k := (|s.desk.book.deals|, BookingForm); k in y.desk.items && !y.desk.items[k].satisfied
  {
    var acts1, x2 := ClaimedForFlush(e, s, x, ctx);
    NoOwnFiles(x2.desk, e.projection);
    var go := Process(5, NO_BOOKING, NoMatch);
    ReachesSnoc(e, x, acts1, x2, go);
    acts, y := acts1 + [go], ProcessStep(e, x2, 5, NO_BOOKING, NoMatch);
    LinkedEmpty(e, s, x2, y);
  }

  /** The number the second session falls back on is not a deal's. */
  predicate FreshNumber(e: Env, s: State, tenant: nat) {
    IndexOf(s.desk.book.deals, Booked(tenant, e.world.sessionNumber(1))) == |s.desk.book.deals|
  }

  lemma NoOwnFiles(x: Desk, p: Projection)
    requires |x.sessions| == 2 && |x.files| == 1 && x.files[0].session == 0
    ensures SessionFiles(x.files, 1, p) == [] && Ready(x, 1, p)
  {
    FilterNone(x.files, InSession(1));
  }

  lemma LinkedEmpty(e: Env, s: State, x: State, y: State)
    requires Initial(s) && x.desk.book == s.desk.book && x.desk.items == s.desk.items && x.outbox.rows == s.outbox.rows
    requires |x.tasks| == 6 && x.tasks[5] == ProcessTask(1, PROCESS_RETRIES) && OutboxRuns.Shape(x.outbox)
    requires |x.desk.sessions| == 2 && x.desk.sessions[1].state == Processing
    requires SessionFiles(x.desk.files, 1, e.projection) == [] && y == ProcessStep(e, x, 5, NO_BOOKING, NoMatch)
    requires FreshNumber(e, s, x.desk.sessions[1].tenant)
    ensures |y.desk.sessions| == 2 && y.desk.sessions[1].deal == Some(|s.desk.book.deals|)
    ensures var k := (|s.desk.book.deals|, BookingForm); k in y.desk.items && !y.desk.items[k].satisfied
  {
    var d, t := |s.desk.book.deals|, InferDealType(NO_BOOKING);
    assert Satisfy(InitialiseSpec(x.desk.items, d, t), d, []) == InitialiseSpec(x.desk.items, d, t);
    InitialiseMeans(x.desk.items, d, t, (d, BookingForm));
    assert (d, BookingForm) !in x.desk.items;
  }

  lemma LosesFrom(e: Env, s: State, before: seq<Action>, x: State, after: seq<Action>, y: State, i: nat)
    requires Reaches(e, s, before, x) && Reaches(e, x, after, y) && i < |x.tasks| && ThroughWith(e, x.tasks[i])
    requires !NotLost(y, x.tasks[i].session.value, e.di(x.tasks[i].evidence).docType.value)
    ensures LosesOne(e, s, before, after, i)
  {}

  /** From any start in which a sender is bound and the fallback number is new, for both projections: the
      poll of the redelivered document is through, and the deal its session gets is left unsatisfied. */
  lemma RedeliveredFileIsLost(e: Env, s: State, n: string, sender: string, a: string, b: string)
    requires Initial(s) && ResolveSpec(s.db, Some(n), Some(sender)).Known? && a != b
    requires FreshNumber(e, s, ResolveSpec(s.db, Some(n), Some(sender)).ctx.tenant)
    requires e.di(0) == DiAnswer(true, Some(BookingForm))
    ensures exists before, after, i: nat :: LosesOne(e, s, before, after, i)
  {
    var ctx := ResolveSpec(s.db, Some(n), Some(sender)).ctx;
    var acts1, x1 := FirstDelivery(e, s, n, sender, a);
    var acts2, x2 := Redelivery(e, s, acts1, x1, n, sender, a, b);
    var acts3, x3 := FetchedAgain(e, s, acts2, x2, ctx, a);
    var before, x4 := PolledAgain(e, s, acts3, x3, ctx);
    var after, y := LinkedWithoutIt(e, s, x4, ctx);
    LosesFrom(e, s, before, x4, after, y, 4);
  }
}
