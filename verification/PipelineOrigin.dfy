/** Where files and deals come from, over runs of the pipeline: a file from a media message of a signed webhook, a
    deal that was not there at the start from a session that found none, provisional until an exact hit. */
module PipelineOrigin {
  import opened Wrappers
  import opened Sessions
  import opened Deals
  import opened Worker
  import opened WorkerTasks
  import opened Pipeline
  import opened PipelineSafety
  import opened PipelineOrder

  // ---- files --------------------------------------------------------------------------------------------

  /** Message m of row r is a media message with this id, and the row is signed. */
  predicate Carries(inbox: seq<InboxRow>, r: nat, m: nat, wamid: string) {
    && r < |inbox| && inbox[r].signatureOk && m < |inbox[r].payload.messages|
    && inbox[r].payload.messages[m].media
    && wamid == if inbox[r].payload.messages[m].id.Some? then inbox[r].payload.messages[m].id.value else ""
  }

  ghost predicate Signed(inbox: seq<InboxRow>, wamid: string) {
    exists r: nat, m: nat :: Carries(inbox, r, m, wamid)
  }

  ghost predicate AllSigned(s: State) {
    forall f | 0 <= f < |s.desk.files| :: Signed(s.inbox, s.desk.files[f].wamid)
  }

  /** Rows are only added, and keep what they brought. */
  ghost predicate InboxKept(inbox: seq<InboxRow>, inbox': seq<InboxRow>) {
    |inbox| <= |inbox'| && forall r | 0 <= r < |inbox| :: inbox'[r] == inbox[r].(state := inbox'[r].state)
  }

  lemma SignedKept(inbox: seq<InboxRow>, inbox': seq<InboxRow>, wamid: string)
    requires Signed(inbox, wamid) && InboxKept(inbox, inbox')
    ensures Signed(inbox', wamid)
  {
    var r: nat, m: nat :| Carries(inbox, r, m, wamid);
    assert Carries(inbox', r, m, wamid);
  }

  lemma InboxStays(e: Env, s: State, a: Action)
    requires Enabled(e, s, a)
    ensures InboxKept(s.inbox, Apply(e, s, a).inbox)
  {
    if !IsPollStep(a) { InboxStaysOffPoll(e, s, a); }
  }

  lemma InboxStaysOffPoll(e: Env, s: State, a: Action)
    requires Enabled(e, s, a) && !IsPollStep(a)
    ensures InboxKept(s.inbox, Apply(e, s, a).inbox)
  {}

  /** A row that is handled brings in the files of its own media messages. */
  lemma HandleSigned(e: Env, s: State, i: nat, after: Option<nat>)
    requires Enabled(e, s, Handle(i, after)) && AllSigned(s)
    ensures AllSigned(HandleStep(s, i, after))
  {
    var x := HandleStep(s, i, after);
    if s.tasks[i].row >= |s.inbox| { return; }
    var r := s.inbox[s.tasks[i].row];
    if r.signatureOk && after.None? && ResolveSpec(s.db, r.phoneNumberId, r.payload.sender).Known? {
      var ctx := ResolveSpec(s.db, r.phoneNumberId, r.payload.sender).ctx;
      var sid, start, y := TakenStep(s, i, r, ctx);
      var at := ReceiveIs(start, ctx.tenant, sid, s.outbox.now, r.payload.messages);
      forall f | 0 <= f < |x.desk.files| ensures Signed(x.inbox, x.desk.files[f].wamid) {
        if f < |s.desk.files| {
          assert Signed(s.inbox, s.desk.files[f].wamid);
        } else {
          BroughtSigned(s.inbox, s.tasks[i].row, start, ctx.tenant, sid, at, y.files[f]);
        }
      }
    } else {
      assert x.desk == s.desk && x.inbox == s.inbox;
    }
  }

  lemma BroughtSigned(inbox: seq<InboxRow>, row: nat, x: Intake, tenant: nat, sid: nat, at: seq<nat>, f: File)
    requires row < |inbox| && inbox[row].signatureOk && MediaAt(inbox[row].payload.messages, at)
    requires BroughtBy(f, x, tenant, sid, inbox[row].payload.messages, at)
    ensures Signed(inbox, f.wamid)
  {
    var n :| 0 <= n < |at| && BroughtIn(f, tenant, sid, x.seqNo + n + 1, inbox[row].payload.messages[at[n]]);
    assert Carries(inbox, row, at[n], f.wamid);
  }

  lemma StepSigned(e: Env, s: State, a: Action)
    requires Enabled(e, s, a) && Kept(s, Apply(e, s, a)) && AllSigned(s)
    ensures AllSigned(Apply(e, s, a))
  {
    if a.Handle? {
      HandleSigned(e, s, a.i, a.raisesAfter);
    } else {
      var x := Apply(e, s, a);
      SameFiles(e, s, a);
      InboxStays(e, s, a);
      forall f | 0 <= f < |x.desk.files| ensures Signed(x.inbox, x.desk.files[f].wamid) {
        assert FileKept(s.desk.files[f], x.desk.files[f]);
        SignedKept(s.inbox, x.inbox, s.desk.files[f].wamid);
      }
    }
  }

  lemma {:induction false} RunSigned(e: Env, s: State, acts: seq<Action>)
    requires Inv(e, s) && Run(e, s, acts) && AllSigned(s)
    ensures AllSigned(Exec(e, s, acts))
    decreases |acts|
  {
    if acts != [] {
      StepSafe(e, s, acts[0]);
      StepSigned(e, s, acts[0]);
      RunSigned(e, Apply(e, s, acts[0]), acts[1..]);
    }
  }

  lemma SignedFromTheStart(e: Env, s: State, acts: seq<Action>)
    requires Initial(s) && Run(e, s, acts)
    ensures AllSigned(Exec(e, s, acts))
  {
    InitialInv(e, s);
    RunSigned(e, s, acts);
  }

  /** Over all runs the wamid of every file is that of a media message of a signed inbox row: what came in
      unsigned leaves no file. */
  lemma FilesAreSigned(e: Env, s: State, acts: seq<Action>, f: nat) returns (r: nat, m: nat)
    requires Initial(s) && Run(e, s, acts) && f < |Exec(e, s, acts).desk.files|
    ensures var inbox := Exec(e, s, acts).inbox;
      && r < |inbox| && inbox[r].signatureOk && m < |inbox[r].payload.messages|
      && inbox[r].payload.messages[m].media
      && Exec(e, s, acts).desk.files[f].wamid ==
         if inbox[r].payload.messages[m].id.Some? then inbox[r].payload.messages[m].id.value else ""
  {
    SignedFromTheStart(e, s, acts);
    r, m := Carrier(Exec(e, s, acts).inbox, Exec(e, s, acts).desk.files[f].wamid);
  }

  lemma Carrier(inbox: seq<InboxRow>, wamid: string) returns (r: nat, m: nat)
    requires Signed(inbox, wamid)
    ensures Carries(inbox, r, m, wamid)
  {
    r, m :| Carries(inbox, r, m, wamid);
  }

  // ---- deals --------------------------------------------------------------------------------------------

  /** From the given deal on, all are provisional or confirmed. */
  ghost predicate FreshFrom(deals: seq<Deal>, first: nat) {
    forall d | first <= d < |deals| :: deals[d].state in {Provisional, Confirmed}
  }

  lemma FreshGrow(ds: seq<Deal>, ds': seq<Deal>, first: nat)
    requires FreshFrom(ds, first) && DealsGrow(ds, ds')
    requires forall d | |ds| <= d < |ds'| :: ds'[d].state == Provisional
    ensures FreshFrom(ds', first)
  {
    forall d | first <= d < |ds'| ensures ds'[d].state in {Provisional, Confirmed} {
      if d < |ds| { assert DealKept(ds[d], ds'[d]); }
    }
  }

  /** Only process_session touches the deals. */
  lemma SameDeals(e: Env, s: State, a: Action)
    requires Enabled(e, s, a) && !a.Process?
    ensures Apply(e, s, a).desk.book == s.desk.book
  {
    if !IsPollStep(a) { SameDealsOffPoll(e, s, a); }
  }

  lemma SameDealsOffPoll(e: Env, s: State, a: Action)
    requires Enabled(e, s, a) && !a.Process? && !IsPollStep(a)
    ensures Apply(e, s, a).desk.book == s.desk.book
  {}

  /** A deal process_session adds is provisional. */
  lemma ProcessFresh(e: Env, s: State, i: nat, b: BookingFields, m: Match)
    requires Enabled(e, s, Process(i, b, m))
    ensures var (ds, ds') := (s.desk.book.deals, ProcessStep(e, s, i, b, m).desk.book.deals);
      forall d | |ds| <= d < |ds'| :: ds'[d].state == Provisional
  {}

  lemma StepFresh(e: Env, s: State, a: Action, first: nat)
    requires Enabled(e, s, a) && FreshFrom(s.desk.book.deals, first)
    requires DealsGrow(s.desk.book.deals, Apply(e, s, a).desk.book.deals)
    ensures FreshFrom(Apply(e, s, a).desk.book.deals, first)
  {
    if a.Process? {
      ProcessFresh(e, s, a.i, a.fields, a.match_);
      FreshGrow(s.desk.book.deals, ProcessStep(e, s, a.i, a.fields, a.match_).desk.book.deals, first);
    } else {
      SameDeals(e, s, a);
    }
  }

  lemma {:induction false} RunFresh(e: Env, s: State, acts: seq<Action>, first: nat)
    requires Inv(e, s) && Run(e, s, acts) && FreshFrom(s.desk.book.deals, first)
    ensures FreshFrom(Exec(e, s, acts).desk.book.deals, first)
    decreases |acts|
  {
    if acts != [] {
      StepSafe(e, s, acts[0]);
      StepFresh(e, s, acts[0], first);
      RunFresh(e, Apply(e, s, acts[0]), acts[1..], first);
    }
  }

  /** Over all runs a deal that was not there at the start is provisional or confirmed. */
  lemma DealsAreFresh(e: Env, s: State, acts: seq<Action>, d: nat)
    requires Initial(s) && Run(e, s, acts) && |s.desk.book.deals| <= d < |Exec(e, s, acts).desk.book.deals|
    ensures Exec(e, s, acts).desk.book.deals[d].state in {Provisional, Confirmed}
  {
    InitialInv(e, s);
    RunFresh(e, s, acts, |s.desk.book.deals|);
  }

  /** In every state: an exact hit that goes through leaves a provisional deal confirmed by the session's contact,
      and any other as it was. */
  lemma ExactHitConfirms(e: Env, s: State, i: nat, b: BookingFields, id: nat)
    requires Enabled(e, s, Process(i, b, Exact(id))) && Ready(s.desk, s.tasks[i].flushed, e.projection)
    ensures id < |s.desk.book.deals|
    ensures var (x, k) := (ProcessStep(e, s, i, b, Exact(id)), s.desk.book.deals[id]);
      || (x.desk == s.desk && x.tasks == s.tasks[i := Raised(s.tasks[i])])
      || x.desk.book.deals == if k.state != Provisional then s.desk.book.deals
                              else s.desk.book.deals[id := k.(
                                state := Confirmed,
                                confirmedBy := Some(s.desk.sessions[s.tasks[i].flushed].contact))]
  {
    var q := Asked(e.world, s.desk.sessions[s.tasks[i].flushed], s.tasks[i].flushed, b);
    FindMeans(s.desk.book.deals, e.world.sim, q, Exact(id));
  }
}
