/** The order of a session's files over runs of the pipeline: in the table they stand in the order of their
    sequence numbers, so that the rows of a session, in table order, are the rows ORDER BY received_seq. */
module PipelineOrder {
  import opened Wrappers
  import opened Rows
  import opened Sessions
  import opened Worker
  import opened Pipeline
  import opened PipelineSafety

  ghost predicate InOrder(fs: seq<File>) {
    forall i, j | 0 <= i < j < |fs| && fs[i].session == fs[j].session :: fs[i].seqNo < fs[j].seqNo
  }

  // ---- registering --------------------------------------------------------------------------------------

  /** In order, and the running number is past every file of the session. */
  ghost predicate Numbered(x: Intake, sid: nat) {
    && InOrder(x.files)
    && forall i | 0 <= i < |x.files| && x.files[i].session == sid :: x.files[i].seqNo <= x.seqNo
  }

  lemma {:induction false} ReceiveAllNumbers(x: Intake, tenant: nat, sid: nat, now: real, ms: seq<Msg>)
    requires Numbered(x, sid)
    ensures Numbered(ReceiveAll(x, tenant, sid, now, ms), sid)
    decreases |ms|
  {
    if ms != [] { ReceiveAllNumbers(x, tenant, sid, now, ms[..|ms| - 1]); }
  }

  // ---- over runs ------------------------------------------------------------------------------------------

  lemma KeptInOrder(fs: seq<File>, fs': seq<File>)
    requires InOrder(fs) && FilesKept(fs, fs') && |fs'| == |fs|
    ensures InOrder(fs')
  {
    forall i, j | 0 <= i < j < |fs'| && fs'[i].session == fs'[j].session ensures fs'[i].seqNo < fs'[j].seqNo {
      assert FileKept(fs[i], fs'[i]) && FileKept(fs[j], fs'[j]);
    }
  }

  lemma HandleInOrder(e: Env, s: State, i: nat, after: Option<nat>)
    requires Enabled(e, s, Handle(i, after)) && InOrder(s.desk.files)
    ensures InOrder(HandleStep(s, i, after).desk.files)
  {
    if s.tasks[i].row >= |s.inbox| { return; }
    var row := s.inbox[s.tasks[i].row];
    if row.signatureOk && ResolveSpec(s.db, row.phoneNumberId, row.payload.sender).Known? && after.None? {
      var ctx := ResolveSpec(s.db, row.phoneNumberId, row.payload.sender).ctx;
      var (ss, sid) := GetOrCreateSpec(s.desk.sessions, ctx.tenant, ctx.contact, ctx.orgUnit, s.outbox.now);
      var start := Intake(ss, s.desk.files, MaxSeq(s.desk.files, sid), []);
      ReceiveAllNumbers(start, ctx.tenant, sid, s.outbox.now, row.payload.messages);
    }
  }

  /** Only a webhook's row being handled adds files. */
  lemma SameFiles(e: Env, s: State, a: Action)
    requires Enabled(e, s, a) && !a.Handle?
    ensures |Apply(e, s, a).desk.files| == |s.desk.files|
  {
    if !IsPollStep(a) { SameFilesOffPoll(e, s, a); }
  }

  lemma SameFilesOffPoll(e: Env, s: State, a: Action)
    requires Enabled(e, s, a) && !a.Handle? && !IsPollStep(a)
    ensures |Apply(e, s, a).desk.files| == |s.desk.files|
  {}

  lemma StepInOrder(e: Env, s: State, a: Action)
    requires Enabled(e, s, a) && Kept(s, Apply(e, s, a)) && InOrder(s.desk.files)
    ensures InOrder(Apply(e, s, a).desk.files)
  {
    if a.Handle? {
      HandleInOrder(e, s, a.i, a.raisesAfter);
    } else {
      SameFiles(e, s, a);
      KeptInOrder(s.desk.files, Apply(e, s, a).desk.files);
    }
  }

  lemma {:induction false} RunInOrder(e: Env, s: State, acts: seq<Action>)
    requires Inv(e, s) && Run(e, s, acts) && InOrder(s.desk.files)
    ensures InOrder(Exec(e, s, acts).desk.files)
    decreases |acts|
  {
    if acts != [] {
      StepSafe(e, s, acts[0]);
      StepInOrder(e, s, acts[0]);
      RunInOrder(e, Apply(e, s, acts[0]), acts[1..]);
    }
  }

  lemma FromTheStart(e: Env, s: State, acts: seq<Action>)
    requires Initial(s) && Run(e, s, acts)
    ensures InOrder(Exec(e, s, acts).desk.files)
  {
    InitialInv(e, s);
    RunInOrder(e, s, acts);
  }

  // ---- what the query returns -------------------------------------------------------------------------------

  ghost predicate Ascending(fs: seq<File>) { forall k, l | 0 <= k < l < |fs| :: fs[k].seqNo < fs[l].seqNo }

  lemma {:induction false} SessionAscending(fs: seq<File>, sid: nat)
    requires InOrder(fs)
    ensures Ascending(Filter(fs, InSession(sid)))
  {
    if fs != [] {
      SessionAscending(fs[1..], sid);
      var rest := Filter(fs[1..], InSession(sid));
      if InSession(sid)(fs[0]) {
        forall l | 0 <= l < |rest| ensures fs[0].seqNo < rest[l].seqNo {
          assert rest[l] in fs[1..] && InSession(sid)(rest[l]);
        }
      }
    }
  }

  /** fs is the session's rows of the table and no others, in strictly ascending order of their numbers. */
  ghost predicate Ordered(all: seq<File>, sid: nat, p: Projection, fs: seq<File>) {
    Ascending(fs) && forall f :: f in fs <==> exists g :: g in all && g.session == sid && f == Project(p)(g)
  }

  /** The first booking form in fs is the one received first. */
  ghost predicate FirstFormFirst(fs: seq<File>) {
    var k := IndexOf(fs, IsBookingForm());
    forall l | 0 <= l < |fs| && IsBookingForm()(fs[l]) :: k <= l && fs[k].seqNo <= fs[l].seqNo
  }

  /** Over all runs get_session_files returns, under either projection, the session's rows ORDER BY
      received_seq; so the booking form process_session takes the facts from is the one received first. */
  lemma FilesInOrder(e: Env, s: State, acts: seq<Action>, sid: nat, p: Projection)
    requires Initial(s) && Run(e, s, acts)
    ensures var all := Exec(e, s, acts).desk.files;
      Ordered(all, sid, p, SessionFiles(all, sid, p)) && FirstFormFirst(SessionFiles(all, sid, p))
  {
    FromTheStart(e, s, acts);
    QueryInOrder(Exec(e, s, acts).desk.files, sid, p);
  }

  lemma QueryInOrder(all: seq<File>, sid: nat, p: Projection)
    requires InOrder(all)
    ensures Ordered(all, sid, p, SessionFiles(all, sid, p)) && FirstFormFirst(SessionFiles(all, sid, p))
  {
    SessionAscending(all, sid);
    forall f
      ensures f in SessionFiles(all, sid, p) <==> exists g :: g in all && g.session == sid && f == Project(p)(g)
    {
      QueryHas(all, sid, p, f);
    }
  }

  lemma QueryHas(all: seq<File>, sid: nat, p: Projection, f: File)
    ensures f in SessionFiles(all, sid, p) <==> exists g :: g in all && g.session == sid && f == Project(p)(g)
  {
    var rows, fs := Filter(all, InSession(sid)), SessionFiles(all, sid, p);
    if g :| g in all && g.session == sid && f == Project(p)(g) {
      assert InSession(sid)(g) && g in rows;
      var k :| 0 <= k < |rows| && rows[k] == g;
      assert fs[k] == f;
    }
    if k :| 0 <= k < |fs| && fs[k] == f {
      assert rows[k] in rows && InSession(sid)(rows[k]);
    }
  }
}
