/** The evidence pipeline as a state machine: the tasks of worker.py interleave over the tables, one
    transaction or one foreign call a step.

    A task keeps its place between two steps; a crash there ends it or, while it has retries left, starts
    it again.  A step that raises inside a transaction rolls the tables back but not the fetch tasks
    already deferred, which then name rows that never existed (None).  audit-core binds one evidence id
    per wamid, and DI's terminal answer for an evidence id is fixed (the environment). */
module Pipeline {
  import opened Wrappers
  import opened Rows
  import Api
  import DiPoll
  import opened Checklist
  import opened Sessions
  import opened Deals
  import opened Worker
  import Outbox
  import OutboxRuns

  datatype InboxPhase = Unhandled | Handled(verdict: InboxState)

  datatype FetchPhase = Starting | Fetching | Posting | Posted(evidence: nat) | Deferring(evidence: nat)

  datatype PollPhase = Asking | Persisting | Linking | Marking(deal: nat) | Counting | Nudging | Parking

  datatype Task =
    | InboxTask(row: nat, retries: nat, handling: InboxPhase)
    | FetchTask(wanted: Option<nat>, session: Option<nat>, retries: nat, fetching: FetchPhase)
    | PollTask(file: nat, session: Option<nat>, evidence: nat, attempt: nat, polling: PollPhase)
    | ProcessTask(flushed: nat, retries: nat)
    | Gone

  datatype DiAnswer = DiAnswer(confirmed: bool, docType: Option<DocType>)

  /** What a run does not change. */
  datatype Env = Env(world: World, projection: Projection, di: nat -> DiAnswer)

  /** A poll that is through with a confirmed type: for which file and session, and whether it saw the
      session linked. */
  datatype Settlement = Settlement(file: nat, session: nat, docType: DocType, linked: bool)

  /** What has happened: sessions claimed and linked, in order; for a completed session the deal that was
      complete; the polls done with a confirmed type; and the number of deals there were at the start. */
  datatype History = History(
    claimed: seq<nat>, linked: seq<nat>, completed: map<nat, nat>, settled: set<Settlement>, inherited: nat)

  /** evidence[e] is the wamid evidence e is bound to. */
  datatype State = State(
    db: Api.Db, inbox: seq<InboxRow>, desk: Desk, outbox: OutboxRuns.State, evidence: seq<string>,
    tasks: seq<Task>, hist: History)

  datatype Action =
    | Webhook(phoneNumberId: Option<string>, payload: Payload, signatureOk: bool)
    | Admin(tenant: nat, call: Api.Call)
    | Operator(session: nat, escalate: bool, note: Note)
    | OutboxStep(step: OutboxRuns.Action)
    | Flush(ids: seq<nat>, deferred: nat)
    | Handle(i: nat, raisesAfter: Option<nat>)
    | MarkRow(i: nat)
    | Start(i: nat, journey: bool)
    | Download(i: nat, ok: bool, quarantine: bool, retryable: bool)
    | Post(i: nat, reached: bool, ok: bool)
    | Commit(i: nat)
    | Defer(i: nat)
    | Poll(i: nat, outcome: DiPoll.PollOutcome)
    | Persist(i: nat, fetched: Option<BookingFields>)
    | ReadLink(i: nat)
    | MarkItem(i: nat)
    | Count(i: nat)
    | Nudge(i: nat)
    | Park(i: nat)
    | Process(i: nat, fields: BookingFields, match_: Match)
    | Crash(i: nat, again: bool)

  const FETCH_RETRIES := 3
  const INBOX_RETRIES := 3
  const PROCESS_RETRIES := 2

  predicate At(s: State, i: nat) { i < |s.tasks| }

  predicate InFetch(s: State, i: nat) { At(s, i) && s.tasks[i].FetchTask? }

  predicate InPoll(s: State, i: nat, ph: PollPhase) { At(s, i) && s.tasks[i].PollTask? && s.tasks[i].polling == ph }

  ghost predicate Enabled(e: Env, s: State, a: Action) {
    match a
    case Webhook(_, _, _) => true
    case Admin(_, _) => true
    case Operator(_, _, _) => true
    case OutboxStep(x) => OutboxRuns.Enabled(s.outbox, x) && !x.Enqueue?
    case Flush(ids, n) => Flushable(s.desk.sessions, s.outbox.now, FLUSH_LIMIT, ids) && n <= |ids|
    case Handle(i, after) =>
      && At(s, i) && s.tasks[i].InboxTask? && s.tasks[i].handling.Unhandled?
      && (after.Some? ==> s.tasks[i].row < |s.inbox| && after.value <= |s.inbox[s.tasks[i].row].payload.messages|)
    case MarkRow(i) => At(s, i) && s.tasks[i].InboxTask? && s.tasks[i].handling.Handled?
    case Start(i, _) => InFetch(s, i) && s.tasks[i].fetching.Starting?
    case Download(i, _, _, _) => InFetch(s, i) && s.tasks[i].fetching.Fetching? && HasFile(s, s.tasks[i])
    case Post(i, reached, ok) =>
      && InFetch(s, i) && s.tasks[i].fetching.Posting? && HasFile(s, s.tasks[i])
      && (ok ==> reached)
    case Commit(i) => InFetch(s, i) && s.tasks[i].fetching.Posted? && HasFile(s, s.tasks[i])
    case Defer(i) => InFetch(s, i) && s.tasks[i].fetching.Deferring? && HasFile(s, s.tasks[i])
    case Poll(i, o) =>
      && InPoll(s, i, Asking)
      && (o.Terminal? ==> e.di(s.tasks[i].evidence) == DiAnswer(Affirmed(o.status), o.typeKey))
    case Persist(i, _) => InPoll(s, i, Persisting) && s.tasks[i].file < |s.desk.files|
    case ReadLink(i) => InPoll(s, i, Linking) && e.di(s.tasks[i].evidence).docType.Some?
    case MarkItem(i) =>
      && At(s, i) && s.tasks[i].PollTask? && s.tasks[i].polling.Marking?
      && e.di(s.tasks[i].evidence).docType.Some?
    case Count(i) => InPoll(s, i, Counting)
    case Nudge(i) => InPoll(s, i, Nudging)
    case Park(i) => InPoll(s, i, Parking)
    case Process(i, fields, m) =>
      && At(s, i) && s.tasks[i].ProcessTask? && OutboxRuns.Shape(s.outbox)
      && fields == ExtractBookingFields(SessionFiles(s.desk.files, s.tasks[i].flushed, e.projection))
      && Finds(s.desk, s.tasks[i].flushed, e.projection, e.world, fields, m)
    case Crash(i, again) =>
      At(s, i) && !s.tasks[i].Gone? && (again ==> !s.tasks[i].PollTask? && s.tasks[i].retries > 0)
  }

  predicate Affirmed(st: DiPoll.Status) { st.Confirmed? || st.Verified? }

  predicate HasFile(s: State, t: Task) { t.FetchTask? && t.wanted.Some? && t.wanted.value < |s.desk.files| }

  // ---- steps ------------------------------------------------------------------------------------------

  function Next(s: State, i: nat, t: Task): State
    requires At(s, i)
  {
    s.(tasks := s.tasks[i := t])
  }

  function OnFile(s: State, f: nat, file: File): State
    requires f < |s.desk.files|
  {
    s.(desk := s.desk.(files := s.desk.files[f := file]))
  }

  function OnSession(s: State, sid: Option<nat>, change: Session -> Session): State {
    if sid.None? then s else s.(desk := s.desk.(sessions := Change(s.desk.sessions, sid.value, change)))
  }

  function WebhookStep(s: State, phoneNumberId: Option<string>, p: Payload, signatureOk: bool): State {
    var (inbox', id) := InsertSpec(s.inbox, phoneNumberId, Some(p), signatureOk);
    s.(inbox := inbox',
       tasks := if id.None? then s.tasks else s.tasks + [InboxTask(id.value, INBOX_RETRIES, Unhandled)])
  }

  function ProcessTasks(ids: seq<nat>): (r: seq<Task>)
    ensures |r| == |ids|
  {
    seq(|ids|, k requires 0 <= k < |ids| => ProcessTask(ids[k], PROCESS_RETRIES))
  }

  function FlushStep(s: State, ids: seq<nat>, n: nat): State
    requires n <= |ids|
  {
    s.(desk := s.desk.(sessions := Claimed(s.desk.sessions, ids)),
       tasks := s.tasks + ProcessTasks(ids[..n]),
       hist := s.hist.(claimed := s.hist.claimed + ids))
  }

  /** Fetch tasks for the deferred files; rows that were rolled back are named by nobody. */
  function FetchTasks(fids: seq<nat>, files: nat, sid: Option<nat>): (r: seq<Task>)
    ensures |r| == |fids|
  {
    seq(|fids|, k requires 0 <= k < |fids| =>
      FetchTask(if fids[k] < files then Some(fids[k]) else None, sid, FETCH_RETRIES, Starting))
  }

  function HandleStep(s: State, i: nat, after: Option<nat>): State
    requires At(s, i) && s.tasks[i].InboxTask?
    requires after.Some? ==> s.tasks[i].row < |s.inbox| && after.value <= |s.inbox[s.tasks[i].row].payload.messages|
  {
    var t := s.tasks[i];
    if t.row >= |s.inbox| then Next(s, i, Gone) else
    var row := s.inbox[t.row];
    if !row.signatureOk then Next(s, i, t.(handling := Handled(InboxIgnored))) else
    match ResolveSpec(s.db, row.phoneNumberId, row.payload.sender)
    case Unroutable(_) => Next(s, i, t.(handling := Handled(InboxIgnored)))
    case Broken => Next(s, i, t.(handling := Handled(InboxFailed)))
    case Known(ctx) =>
      var (ss, sid) := GetOrCreateSpec(s.desk.sessions, ctx.tenant, ctx.contact, ctx.orgUnit, s.outbox.now);
      var start := Intake(ss, s.desk.files, MaxSeq(s.desk.files, sid), []);
      if after.None? then
        var x := ReceiveAll(start, ctx.tenant, sid, s.outbox.now, row.payload.messages);
        Next(s, i, t.(handling := Handled(InboxDone))).(
          desk := s.desk.(sessions := x.sessions, files := x.files),
          tasks := s.tasks[i := t.(handling := Handled(InboxDone))] + FetchTasks(x.deferred, |x.files|, Some(sid)))
      else
        var x := ReceiveAll(start, ctx.tenant, sid, s.outbox.now, row.payload.messages[..after.value]);
        Next(s, i, t.(handling := Handled(InboxFailed))).(
          tasks := s.tasks[i := t.(handling := Handled(InboxFailed))]
                   + FetchTasks(x.deferred, |s.desk.files|, if sid < |s.desk.sessions| then Some(sid) else None))
  }

  function MarkRowStep(s: State, i: nat): State
    requires At(s, i) && s.tasks[i].InboxTask? && s.tasks[i].handling.Handled?
  {
    Next(s, i, Gone).(inbox := MarkInbox(s.inbox, s.tasks[i].row, s.tasks[i].handling.verdict))
  }

  function StartStep(s: State, i: nat, journey: bool): State
    requires InFetch(s, i)
  {
    var t := s.tasks[i];
    if !HasFile(s, t) then Next(s, i, Gone) else
    var f := t.wanted.value;
    if journey then Next(OnFile(s, f, s.desk.files[f].(state := Downloading)), i, t.(fetching := Fetching))
    else Next(OnFile(s, f, s.desk.files[f].(state := FileFailed)), i, Gone)
  }

  /** A failed attempt on the file. */
  function Failed(f: File, state: FileState): File { f.(state := state, attempts := f.attempts + 1) }

  /** An invocation that ends by raising is started again while retries are left. */
  function Raised(t: Task): Task
    requires t.FetchTask? || t.ProcessTask? || t.InboxTask?
  {
    if t.retries == 0 then Gone else
    match t
    case FetchTask(f, sid, r, _) => FetchTask(f, sid, r - 1, Starting)
    case ProcessTask(sid, r) => ProcessTask(sid, r - 1)
    case InboxTask(row, r, _) => InboxTask(row, r - 1, Unhandled)
  }

  function DownloadStep(s: State, i: nat, ok: bool, quarantine: bool, retryable: bool): State
    requires InFetch(s, i) && HasFile(s, s.tasks[i])
  {
    var (t, f) := (s.tasks[i], s.tasks[i].wanted.value);
    if ok then Next(OnFile(s, f, s.desk.files[f].(state := Storing)), i, t.(fetching := Posting))
    else Next(OnFile(s, f, Failed(s.desk.files[f], if quarantine then Quarantined else FileFailed)), i,
              if retryable then Gone else Raised(t))
  }

  function Bind(evidence: seq<string>, wamid: string): (r: (seq<string>, nat))
    ensures r.1 < |r.0| && r.0[r.1] == wamid && evidence <= r.0
  {
    if wamid in evidence then
      var k: nat := IndexOf(evidence, IsWamid(wamid));
      assert k == |evidence| ==> forall j | 0 <= j < |evidence| :: !IsWamid(wamid)(evidence[j]);
      (evidence, k)
    else (evidence + [wamid], |evidence|)
  }

  function IsWamid(wamid: string): string -> bool { (w: string) => w == wamid }

  function PostStep(s: State, i: nat, reached: bool, ok: bool): State
    requires InFetch(s, i) && HasFile(s, s.tasks[i])
  {
    var (t, f) := (s.tasks[i], s.tasks[i].wanted.value);
    var (evidence', e) := Bind(s.evidence, s.desk.files[f].wamid);
    var s' := if reached then s.(evidence := evidence') else s;
    if ok then Next(s', i, t.(fetching := Posted(e)))
    else Next(OnFile(s', f, Failed(s.desk.files[f], FileFailed)), i, Gone)
  }

  function CommitStep(s: State, i: nat): State
    requires InFetch(s, i) && HasFile(s, s.tasks[i]) && s.tasks[i].fetching.Posted?
  {
    var (t, f) := (s.tasks[i], s.tasks[i].wanted.value);
    Next(OnFile(s, f, s.desk.files[f].(state := Stored, document := Some(t.fetching.evidence))), i,
         t.(fetching := Deferring(t.fetching.evidence)))
  }

  function DeferStep(s: State, i: nat): State
    requires InFetch(s, i) && HasFile(s, s.tasks[i]) && s.tasks[i].fetching.Deferring?
  {
    var t := s.tasks[i];
    s.(tasks := s.tasks[i := Gone] + [PollTask(t.wanted.value, t.session, t.fetching.evidence, 0, Asking)])
  }

  function PollStep(s: State, i: nat, o: DiPoll.PollOutcome): State
    requires InPoll(s, i, Asking)
  {
    var t := s.tasks[i];
    Next(s, i, match DiPoll.Decide(t.attempt, o)
               case Park => t.(polling := Parking)
               case Again(a, _) => t.(attempt := a)
               case Persist => t.(polling := Persisting))
  }

  /** The type always; the facts only of a confirmed booking form, and only if they could be fetched. */
  function PersistStep(e: Env, s: State, i: nat, fetched: Option<BookingFields>): State
    requires InPoll(s, i, Persisting) && s.tasks[i].file < |s.desk.files|
  {
    var t := s.tasks[i];
    var x := e.di(t.evidence);
    var facts := if x.docType == Some(BookingForm) && x.confirmed then fetched else None;
    Next(OnFile(s, t.file, s.desk.files[t.file].(docType := x.docType, facts := facts)), i,
         t.(polling := if x.confirmed && Typed(x.docType) then Linking else Counting))
  }

  function LinkOf(s: State, sid: Option<nat>): Option<nat> {
    if sid.Some? && sid.value < |s.desk.sessions| then s.desk.sessions[sid.value].deal else None
  }

  /** The poll is through with the checklist. */
  function Settled(e: Env, s: State, t: Task, linked: bool): State
    requires t.PollTask? && e.di(t.evidence).docType.Some?
  {
    if t.session.None? then s else
    var x := Settlement(t.file, t.session.value, e.di(t.evidence).docType.value, linked);
    s.(hist := s.hist.(settled := s.hist.settled + {x}))
  }

  function ReadLinkStep(e: Env, s: State, i: nat): State
    requires InPoll(s, i, Linking) && e.di(s.tasks[i].evidence).docType.Some?
  {
    var t := s.tasks[i];
    match LinkOf(s, t.session)
    case Some(d) => Next(s, i, t.(polling := Marking(d)))
    case None => Next(Settled(e, s, t, false), i, t.(polling := Counting))
  }

  function MarkItemStep(e: Env, s: State, i: nat): State
    requires At(s, i) && s.tasks[i].PollTask? && s.tasks[i].polling.Marking? && e.di(s.tasks[i].evidence).docType.Some?
  {
    var t := s.tasks[i];
    Next(Settled(e, s, t, true), i, t.(polling := Counting)).(
      desk := s.desk.(items := MarkSpec(s.desk.items, t.polling.deal, e.di(t.evidence).docType.value, t.evidence)))
  }

  /** No stored file of the session waits for its type. */
  predicate AllPolled(s: State, sid: Option<nat>) {
    forall f | 0 <= f < |s.desk.files| && Some(s.desk.files[f].session) == sid ::
      !(s.desk.files[f].state == Stored && s.desk.files[f].docType.None?)
  }

  function CountStep(s: State, i: nat): State
    requires InPoll(s, i, Counting)
  {
    var t := s.tasks[i];
    Next(s, i, if AllPolled(s, t.session) then t.(polling := Nudging) else Gone)
  }

  ghost predicate Raises(s: State, reply: Option<Outbox.Message>) {
    reply.Some? && Outbox.Deduplicated(reply.value) && |Outbox.Twins(s.outbox.rows, reply.value)| > 1
  }

  /** The history a flushed session leaves. */
  ghost function Noted(h: History, x: Desk, sid: nat, x': Desk, m: Match, ready: bool): History {
    h.(linked := if sid < |x.sessions| == |x'.sessions| && x'.sessions[sid].deal != x.sessions[sid].deal
                 then h.linked + [sid] else h.linked,
       completed := if ready && m.Exact? && Checklist.Complete(x'.items, m.id) then h.completed[sid := m.id]
                    else h.completed)
  }

  ghost function ProcessStep(e: Env, s: State, i: nat, fields: BookingFields, m: Match): State
    requires At(s, i) && s.tasks[i].ProcessTask? && OutboxRuns.Shape(s.outbox)
  {
    var (t, sid) := (s.tasks[i], s.tasks[i].flushed);
    var (x, reply) := Flushed(s.desk, sid, e.projection, s.outbox.now, e.world, fields, m);
    if Raises(s, reply) then Next(s, i, Raised(t))
    else
      Next(s, i, Gone).(
        desk := x,
        outbox := if reply.None? then s.outbox else OutboxRuns.Apply(s.outbox, OutboxRuns.Enqueue(reply.value)),
        hist := Noted(s.hist, s.desk, sid, x, m, Ready(s.desk, sid, e.projection)))
  }

  ghost function Apply(e: Env, s: State, a: Action): State
    requires Enabled(e, s, a)
  {
    match a
    case Webhook(n, p, ok) => WebhookStep(s, n, p, ok)
    case Admin(t, call) => s.(db := Api.Answer(s.db, t, call).0)
    case Operator(sid, escalate, note) =>
      OnSession(s, Some(sid), if escalate then EscalatedWith(note) else DealConfirmed(s.outbox.now))
    case OutboxStep(x) => s.(outbox := OutboxRuns.Apply(s.outbox, x))
    case Flush(ids, n) => FlushStep(s, ids, n)
    case Handle(i, after) => HandleStep(s, i, after)
    case MarkRow(i) => MarkRowStep(s, i)
    case Start(i, journey) => StartStep(s, i, journey)
    case Download(i, ok, quarantine, retryable) => DownloadStep(s, i, ok, quarantine, retryable)
    case Post(i, reached, ok) => PostStep(s, i, reached, ok)
    case Commit(i) => CommitStep(s, i)
    case Defer(i) => DeferStep(s, i)
    case Poll(i, o) => PollStep(s, i, o)
    case Persist(i, fetched) => PersistStep(e, s, i, fetched)
    case ReadLink(i) => ReadLinkStep(e, s, i)
    case MarkItem(i) => MarkItemStep(e, s, i)
    case Count(i) => CountStep(s, i)
    case Nudge(i) => Next(OnSession(s, s.tasks[i].session, Nudged(s.outbox.now)), i, Gone)
    case Park(i) => Next(OnSession(s, s.tasks[i].session, SlaParked()), i, Gone)
    case Process(i, fields, m) => ProcessStep(e, s, i, fields, m)
    case Crash(i, again) => Next(s, i, if again then Raised(s.tasks[i]) else Gone)
  }

  /** A webhook is written down unless its first wamid is there, and a task with three retries takes it up. */
  lemma WebhookIs(s: State, number: Option<string>, p: Payload, signatureOk: bool)
    ensures var x := WebhookStep(s, number, p, signatureOk);
      var id := if |x.inbox| > |s.inbox| then Some(|s.inbox|) else None;
      && InsertMeans(s.inbox, number, Some(p), signatureOk, x.inbox, id)
      && x == s.(inbox := x.inbox, tasks := if id.None? then s.tasks else s.tasks + [InboxTask(id.value, 3, Unhandled)])
  {
    InsertIs(s.inbox, number, Some(p), signatureOk);
  }

  /** An invocation that raises starts anew from its first step, with one retry less, or is gone with the last. */
  lemma RaisedIs(t: Task)
    requires t.FetchTask? || t.ProcessTask? || t.InboxTask?
    ensures t.retries == 0 <==> Raised(t) == Gone
    ensures t.retries > 0 ==>
      match t
      case FetchTask(file, session, n, _) => Raised(t) == FetchTask(file, session, n - 1, Starting)
      case ProcessTask(session, n) => Raised(t) == ProcessTask(session, n - 1)
      case InboxTask(row, n, _) => Raised(t) == InboxTask(row, n - 1, Unhandled)
  {}

  ghost predicate Run(e: Env, s: State, acts: seq<Action>)
    decreases |acts|
  {
    acts == [] || (Enabled(e, s, acts[0]) && Run(e, Apply(e, s, acts[0]), acts[1..]))
  }

  ghost function Exec(e: Env, s: State, acts: seq<Action>): State
    requires Run(e, s, acts)
    decreases |acts|
  {
    if acts == [] then s else Exec(e, Apply(e, s, acts[0]), acts[1..])
  }

  /** Contacts, routes and deals may be there already; nothing has been received. */
  ghost predicate Initial(s: State) {
    && s.inbox == [] && s.desk.sessions == [] && s.desk.files == [] && s.desk.book.reviews == []
    && s.outbox == OutboxRuns.START && s.evidence == [] && s.tasks == []
    && s.hist == History([], [], map[], {}, |s.desk.book.deals|)
    && UniqueNumbers(s.desk.book.deals) && KnownTypes(s.desk.items)
    && (forall k | k in s.desk.items :: k.0 < |s.desk.book.deals|)
    && (forall i, j | 0 <= i < j < |s.db.contacts| :: s.db.contacts[i].id != s.db.contacts[j].id)
  }
}
