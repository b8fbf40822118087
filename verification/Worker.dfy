/** The transactions of worker.py, wa/webhook.py and wa/router.py over the tables: taking a webhook in,
    resolving whose it is, registering its files, and what one flushed session does to the deal, its
    checklist and the outbox. */
module Worker {
  import opened Wrappers
  import opened Rows
  import Api
  import opened Checklist
  import opened Sessions
  import opened Deals
  import Outbox

  // ---- wa.inbox -------------------------------------------------------------------------------------

  /** A message of the payload: image and document messages carry media. */
  datatype Msg = Msg(id: Option<string>, media: bool)

  /** What the service reads of a payload: the sender's phone, and the messages if the shape is right. */
  datatype Payload = Payload(sender: Option<string>, messages: seq<Msg>)

  datatype InboxState = InboxPending | InboxDone | InboxFailed | InboxIgnored

  datatype InboxRow = InboxRow(
    wamid: Option<string>, phoneNumberId: Option<string>, payload: Payload, signatureOk: bool, state: InboxState)

  function FirstWamid(p: Payload): Option<string> { if p.messages == [] then None else p.messages[0].id }

  function SameWamid(w: string): InboxRow -> bool { (r: InboxRow) => r.wamid == Some(w) }

  /** insert_inbox; None for a body that cannot be parsed and for a duplicate. */
  function InsertSpec(inbox: seq<InboxRow>, phoneNumberId: Option<string>, body: Option<Payload>, signatureOk: bool)
    : (seq<InboxRow>, Option<nat>)
  {
    if body.None? then (inbox, None) else
    var p := body.value;
    var w := FirstWamid(p);
    if w.Some? && IndexOf(inbox, SameWamid(w.value)) < |inbox| then (inbox, None)
    else (inbox + [InboxRow(w, phoneNumberId, p, signatureOk, InboxPending)], Some(|inbox|))
  }

  ghost predicate UniqueInbox(inbox: seq<InboxRow>) {
    forall i, j | 0 <= i < j < |inbox| && inbox[i].wamid.Some? :: inbox[i].wamid != inbox[j].wamid
  }

  /** However often Meta redelivers: one row per first wamid, and a redelivery adds nothing. */
  lemma InsertDeduplicates(inbox: seq<InboxRow>, phoneNumberId: Option<string>, p: Payload, signatureOk: bool)
    requires UniqueInbox(inbox)
    ensures var (inbox', id) := InsertSpec(inbox, phoneNumberId, Some(p), signatureOk);
      && UniqueInbox(inbox') && inbox <= inbox'
      && (id.None? <==> FirstWamid(p).Some? && exists i :: 0 <= i < |inbox| && inbox[i].wamid == FirstWamid(p))
      && InsertSpec(inbox', phoneNumberId, Some(p), signatureOk) == if FirstWamid(p).Some? then (inbox', None)
         else (inbox' + [inbox'[|inbox|]], Some(|inbox'|))
  {
    var w := FirstWamid(p);
    if w.Some? {
      var k := IndexOf(inbox, SameWamid(w.value));
      var inbox' := InsertSpec(inbox, phoneNumberId, Some(p), signatureOk).0;
      if k == |inbox| {
        forall i | 0 <= i < |inbox| ensures inbox[i].wamid != w { assert !SameWamid(w.value)(inbox[i]); }
      }
      assert SameWamid(w.value)(inbox'[k]);
    }
  }

  /** One row per first wamid, pending; nothing for a body that cannot be parsed and for a repeated wamid. */
  ghost predicate InsertMeans(inbox: seq<InboxRow>, phoneNumberId: Option<string>, body: Option<Payload>,
                              signatureOk: bool, inbox': seq<InboxRow>, id: Option<nat>)
  {
    match body
    case None => id == None && inbox' == inbox
    case Some(p) =>
      var w := if |p.messages| > 0 then p.messages[0].id else None;
      if w.Some? && exists i :: 0 <= i < |inbox| && inbox[i].wamid == w then id == None && inbox' == inbox
      else id == Some(|inbox|) && inbox' == inbox + [InboxRow(w, phoneNumberId, p, signatureOk, InboxPending)]
  }

  lemma InsertIs(inbox: seq<InboxRow>, phoneNumberId: Option<string>, body: Option<Payload>, signatureOk: bool)
    ensures var (inbox', id) := InsertSpec(inbox, phoneNumberId, body, signatureOk);
      InsertMeans(inbox, phoneNumberId, body, signatureOk, inbox', id)
  {
    if body.Some? && FirstWamid(body.value).Some? {
      var w := FirstWamid(body.value);
      forall i | 0 <= i < IndexOf(inbox, SameWamid(w.value)) ensures inbox[i].wamid != w {
        assert !SameWamid(w.value)(inbox[i]);
      }
    }
  }

  class Inbox {
    var rows: seq<InboxRow>

    constructor ()
      ensures rows == []
    {
      rows := [];
    }

    method Insert(phoneNumberId: Option<string>, body: Option<Payload>, signatureOk: bool) returns (id: Option<nat>)
      modifies this
      ensures (rows, id) == InsertSpec(old(rows), phoneNumberId, body, signatureOk)
      ensures InsertMeans(old(rows), phoneNumberId, body, signatureOk, rows, id)
    {
      InsertIs(rows, phoneNumberId, body, signatureOk);
      if body.None? { return None; }
      var p := body.value;
      var w := FirstWamid(p);
      if w.Some? {
        var k := Find(rows, SameWamid(w.value));
        if k < |rows| { return None; }
      }
      id := Some(|rows|);
      rows := rows + [InboxRow(w, phoneNumberId, p, signatureOk, InboxPending)];
    }

    /** _mark_inbox. */
    method Mark(id: nat, state: InboxState)
      modifies this
      ensures rows == MarkInbox(old(rows), id, state)
      ensures |rows| == |old(rows)| && (id < |rows| ==> rows[id] == old(rows)[id].(state := state))
      ensures forall i | 0 <= i < |rows| && i != id :: rows[i] == old(rows)[i]
    {
      if id < |rows| { rows := rows[id := rows[id].(state := state)]; }
    }
  }

  function MarkInbox(inbox: seq<InboxRow>, id: nat, state: InboxState): (r: seq<InboxRow>)
    ensures |r| == |inbox|
  {
    if id < |inbox| then inbox[id := inbox[id].(state := state)] else inbox
  }

  // ---- whose message it is ----------------------------------------------------------------------------

  datatype Context = Context(tenant: nat, user: nat, contact: nat, orgUnit: nat, locale: Api.Locale, route: nat)

  /** Broken: the contact has no org unit and the conversion raises. */
  datatype Resolved = Known(ctx: Context) | Unroutable(ignore: bool) | Broken

  function ActiveNumber(n: string): Api.Route -> bool { (r: Api.Route) => r.phoneNumberId == n && r.active }
  function BoundTo(phone: string, tenant: nat): Api.Contact -> bool {
    (c: Api.Contact) => c.phone == phone && c.tenant == tenant
  }

  function ResolveSpec(db: Api.Db, phoneNumberId: Option<string>, sender: Option<string>): Resolved {
    if phoneNumberId.None? || phoneNumberId.value == "" then Unroutable(true) else
    match First(db.routes, ActiveNumber(phoneNumberId.value))
    case None => Unroutable(true)
    case Some(route) =>
      if sender.None? || sender.value == "" then Unroutable(true) else
      match First(db.contacts, BoundTo(sender.value, route.tenant))
      case None => Unroutable(false)
      case Some(c) =>
        if c.status != Api.Active then Unroutable(false)
        else if c.orgUnit.None? then Broken
        else Known(Context(route.tenant, c.user, c.id, c.orgUnit.value, c.locale, route.id))
  }

  /** Route k is the first active one with this number... */
  ghost predicate RouteAt(routes: seq<Api.Route>, number: string, k: nat) {
    && k < |routes| && routes[k].phoneNumberId == number && routes[k].active
    && forall j | 0 <= j < k :: !(routes[j].phoneNumberId == number && routes[j].active)
  }

  /** ...and contact k the first of the tenant with this phone. */
  ghost predicate ContactAt(contacts: seq<Api.Contact>, phone: string, tenant: nat, k: nat) {
    && k < |contacts| && contacts[k].phone == phone && contacts[k].tenant == tenant
    && forall j | 0 <= j < k :: !(contacts[j].phone == phone && contacts[j].tenant == tenant)
  }

  /** The message came in over route i from contact k. */
  ghost predicate CameFrom(contacts: seq<Api.Contact>, routes: seq<Api.Route>, number: Option<string>,
                           sender: Option<string>, i: nat, k: nat)
  {
    && number.Some? && number.value != "" && sender.Some? && sender.value != ""
    && RouteAt(routes, number.value, i) && ContactAt(contacts, sender.value, routes[i].tenant, k)
  }

  /** Whose message it is: nobody's without a registered active number, a sender and a bound active contact; a
      contact without an org unit raises. */
  ghost predicate ResolveMeans(contacts: seq<Api.Contact>, routes: seq<Api.Route>, number: Option<string>,
                               sender: Option<string>, r: Resolved)
  {
    && (r.Unroutable? <==>
          forall i: nat, k: nat | CameFrom(contacts, routes, number, sender, i, k) ::
            contacts[k].status != Api.ContactStatus.Active)
    && (r == Unroutable(true) <==>
          !(number.Some? && number.value != "" && (exists i: nat :: RouteAt(routes, number.value, i)) &&
            sender.Some? && sender.value != ""))
    && forall i: nat, k: nat | CameFrom(contacts, routes, number, sender, i, k) ::
         var (route, c) := (routes[i], contacts[k]);
         && (r.Broken? <==> c.status == Api.ContactStatus.Active && c.orgUnit == None)
         && (r.Known? ==>
               && c.status == Api.ContactStatus.Active && c.orgUnit == Some(r.ctx.orgUnit)
               && r.ctx.tenant == route.tenant && r.ctx.route == route.id && r.ctx.user == c.user
               && r.ctx.contact == c.id && r.ctx.locale == c.locale)
  }

  lemma ResolveIs(db: Api.Db, number: Option<string>, sender: Option<string>)
    ensures ResolveMeans(db.contacts, db.routes, number, sender, ResolveSpec(db, number, sender))
  {
    if number.Some? && number.value != "" {
      RouteFound(db.routes, number.value);
      var route := First(db.routes, ActiveNumber(number.value));
      if sender.Some? && sender.value != "" && route.Some? {
        ContactFound(db.contacts, sender.value, route.value.tenant);
        var i: nat :| RouteAt(db.routes, number.value, i);
        if First(db.contacts, BoundTo(sender.value, route.value.tenant)).Some? {
          var k: nat :| ContactAt(db.contacts, sender.value, route.value.tenant, k);
          assert CameFrom(db.contacts, db.routes, number, sender, i, k);
        }
      }
    }
  }

  lemma RouteFound(routes: seq<Api.Route>, number: string)
    ensures First(routes, ActiveNumber(number)).Some? <==> exists k: nat :: RouteAt(routes, number, k)
    ensures forall k: nat | RouteAt(routes, number, k) :: First(routes, ActiveNumber(number)) == Some(routes[k])
  {
    var n := IndexOf(routes, ActiveNumber(number));
    forall j | 0 <= j < n ensures !(routes[j].phoneNumberId == number && routes[j].active) {
      assert !ActiveNumber(number)(routes[j]);
    }
    if n < |routes| { assert RouteAt(routes, number, n); }
    forall k: nat | RouteAt(routes, number, k) ensures First(routes, ActiveNumber(number)) == Some(routes[k]) {
      FirstIs(routes, ActiveNumber(number), k);
    }
  }

  lemma ContactFound(contacts: seq<Api.Contact>, phone: string, tenant: nat)
    ensures First(contacts, BoundTo(phone, tenant)).Some? <==> exists k: nat :: ContactAt(contacts, phone, tenant, k)
    ensures forall k: nat | ContactAt(contacts, phone, tenant, k) ::
              First(contacts, BoundTo(phone, tenant)) == Some(contacts[k])
  {
    var n := IndexOf(contacts, BoundTo(phone, tenant));
    forall j | 0 <= j < n ensures !(contacts[j].phone == phone && contacts[j].tenant == tenant) {
      assert !BoundTo(phone, tenant)(contacts[j]);
    }
    if n < |contacts| { assert ContactAt(contacts, phone, tenant, n); }
    forall k: nat | ContactAt(contacts, phone, tenant, k)
      ensures First(contacts, BoundTo(phone, tenant)) == Some(contacts[k])
    {
      FirstIs(contacts, BoundTo(phone, tenant), k);
    }
  }

  /** A resolved context is an active contact reached through an active route of the same tenant. */
  lemma ResolvedIsCoherent(db: Api.Db, phoneNumberId: Option<string>, sender: Option<string>)
    requires ResolveSpec(db, phoneNumberId, sender).Known?
    ensures var ctx := ResolveSpec(db, phoneNumberId, sender).ctx;
      && (exists r :: r in db.routes && r.active && Some(r.phoneNumberId) == phoneNumberId && r.tenant == ctx.tenant)
      && (exists c :: c in db.contacts && c.id == ctx.contact && c.status == Api.Active && Some(c.phone) == sender
                      && c.tenant == ctx.tenant)
  {
    var r := First(db.routes, ActiveNumber(phoneNumberId.value)).value;
    var c := First(db.contacts, BoundTo(sender.value, r.tenant)).value;
    assert r in db.routes && c in db.contacts;
  }

  method ResolveFullContext(contacts: seq<Api.Contact>, routes: seq<Api.Route>, phoneNumberId: Option<string>,
                            sender: Option<string>) returns (r: Resolved)
    ensures forall messages :: r == ResolveSpec(Api.Db(contacts, routes, messages), phoneNumberId, sender)
    ensures ResolveMeans(contacts, routes, phoneNumberId, sender, r)
  {
    ResolveIs(Api.Db(contacts, routes, []), phoneNumberId, sender);
    if phoneNumberId.None? || phoneNumberId.value == "" { return Unroutable(true); }
    var route := SelectFirst(routes, ActiveNumber(phoneNumberId.value));
    if route.None? || sender.None? || sender.value == "" { return Unroutable(true); }
    var c := SelectFirst(contacts, BoundTo(sender.value, route.value.tenant));
    if c.None? || c.value.status != Api.Active { return Unroutable(false); }
    if c.value.orgUnit.None? { return Broken; }
    r := Known(Context(route.value.tenant, c.value.user, c.value.id, c.value.orgUnit.value, c.value.locale,
                       route.value.id));
  }

  // ---- registering the files of a payload ---------------------------------------------------------------

  /** The tables, the running sequence number and the files whose fetch is deferred, in order. */
  datatype Intake = Intake(sessions: seq<Session>, files: seq<File>, seqNo: nat, deferred: seq<nat>)

  function Wamid(m: Msg): string { match m.id case Some(w) => w case None => "" }

  function Receive(x: Intake, tenant: nat, sid: nat, now: real, m: Msg): Intake {
    if !m.media then x else
    var (files', fid) :=
      RegisterSpec(x.files, File(tenant, sid, Wamid(m), x.seqNo + 1, FilePending, 0, None, None, None));
    Intake(Change(x.sessions, sid, Arrived(now, 0)), files', x.seqNo + 1, x.deferred + [fid])
  }

  function ReceiveAll(x: Intake, tenant: nat, sid: nat, now: real, ms: seq<Msg>): Intake
    decreases |ms|
  {
    if ms == [] then x else Receive(ReceiveAll(x, tenant, sid, now, ms[..|ms| - 1]), tenant, sid, now, ms[|ms| - 1])
  }

  /** at lists the media messages of a payload, in order. */
  ghost predicate MediaAt(ms: seq<Msg>, at: seq<nat>) {
    && (forall i, j | 0 <= i < j < |at| :: at[i] < at[j])
    && (forall n | 0 <= n < |at| :: at[n] < |ms| && ms[at[n]].media)
    && (forall k | 0 <= k < |ms| && ms[k].media :: k in at)
  }

  /** File i is the one message m brought in as the n-th of its payload. */
  predicate BroughtIn(f: File, tenant: nat, sid: nat, seqNo: nat, m: Msg) {
    && f.tenant == tenant && f.session == sid && f.wamid == (if m.id.Some? then m.id.value else "")
    && f.seqNo == seqNo && f.state == FilePending && f.attempts == 0
    && f.document == None && f.docType == None && f.facts == None
  }

  /** What a payload does, message by message: every media message counts, moves the timer of a collecting
      session and has its file fetched; new files are theirs alone, pending and numbered on. */
  ghost predicate TakesIn(x: Intake, tenant: nat, sid: nat, now: real, ms: seq<Msg>, at: seq<nat>, y: Intake) {
    && MediaAt(ms, at) && y.seqNo == x.seqNo + |at|
    && Defers(x, ms, at, y) && NewFiles(x, tenant, sid, ms, at, y)
    && y.sessions == if sid < |x.sessions| && x.sessions[sid].state == Collecting && |at| > 0
                     then x.sessions[sid := x.sessions[sid].(flushAt := now + 90.0,
                                                            fileCount := x.sessions[sid].fileCount + |at|)]
                     else x.sessions
  }

  /** The n-th fetch deferred is for the file with the wamid of the n-th media message. */
  ghost predicate Defers(x: Intake, ms: seq<Msg>, at: seq<nat>, y: Intake)
    requires MediaAt(ms, at)
  {
    && x.deferred <= y.deferred && |y.deferred| == |x.deferred| + |at|
    && forall n | 0 <= n < |at| :: IsFileOf(y.files, y.deferred[|x.deferred| + n], ms[at[n]])
  }

  predicate IsFileOf(files: seq<File>, d: nat, m: Msg) {
    d < |files| && files[d].wamid == if m.id.Some? then m.id.value else ""
  }

  /** Some media message of the payload brought the file in. */
  ghost predicate BroughtBy(f: File, x: Intake, tenant: nat, sid: nat, ms: seq<Msg>, at: seq<nat>)
    requires MediaAt(ms, at)
  {
    exists n :: 0 <= n < |at| && BroughtIn(f, tenant, sid, x.seqNo + n + 1, ms[at[n]])
  }

  ghost predicate NewFiles(x: Intake, tenant: nat, sid: nat, ms: seq<Msg>, at: seq<nat>, y: Intake)
    requires MediaAt(ms, at)
  {
    && x.files <= y.files
    && forall i | |x.files| <= i < |y.files| :: BroughtBy(y.files[i], x, tenant, sid, ms, at)
  }

  lemma {:induction false} ReceiveIs(x: Intake, tenant: nat, sid: nat, now: real, ms: seq<Msg>) returns (at: seq<nat>)
    ensures TakesIn(x, tenant, sid, now, ms, at, ReceiveAll(x, tenant, sid, now, ms))
    decreases |ms|
  {
    at := [];
    if ms != [] {
      var n := |ms| - 1;
      var y := ReceiveAll(x, tenant, sid, now, ms[..n]);
      var before := ReceiveIs(x, tenant, sid, now, ms[..n]);
      at := before + if ms[n].media then [n] else [];
      OneMoreMedia(ms, before, at);
      TakesOne(x, tenant, sid, now, ms, before, y, at);
    }
  }

  lemma OneMoreMedia(ms: seq<Msg>, before: seq<nat>, at: seq<nat>)
    requires ms != [] && MediaAt(ms[..|ms| - 1], before)
    requires at == before + if ms[|ms| - 1].media then [|ms| - 1] else []
    ensures MediaAt(ms, at)
  {
    var n := |ms| - 1;
    forall k | 0 <= k < |ms| && ms[k].media ensures k in at {
      if k < n {
        assert ms[..n][k].media && k in before;
      } else {
        assert at[|before|] == n;
      }
    }
  }

  /** One more message; at is before with its position, if it carries media. */
  ghost predicate Grown(ms: seq<Msg>, before: seq<nat>, at: seq<nat>) {
    && ms != [] && MediaAt(ms[..|ms| - 1], before) && MediaAt(ms, at)
    && at == before + if ms[|ms| - 1].media then [|ms| - 1] else []
  }

  lemma TakesOne(x: Intake, tenant: nat, sid: nat, now: real, ms: seq<Msg>, before: seq<nat>, y: Intake, at: seq<nat>)
    requires Grown(ms, before, at) && TakesIn(x, tenant, sid, now, ms[..|ms| - 1], before, y)
    ensures TakesIn(x, tenant, sid, now, ms, at, Receive(y, tenant, sid, now, ms[|ms| - 1]))
  {
    DefersOne(x, tenant, sid, now, ms, before, y, at);
    NewFilesOne(x, tenant, sid, now, ms, before, y, at);
  }

  lemma DefersOne(x: Intake, tenant: nat, sid: nat, now: real, ms: seq<Msg>, before: seq<nat>, y: Intake,
                  at: seq<nat>)
    requires Grown(ms, before, at) && Defers(x, ms[..|ms| - 1], before, y)
    ensures Defers(x, ms, at, Receive(y, tenant, sid, now, ms[|ms| - 1]))
  {
    var n, m := |ms| - 1, ms[|ms| - 1];
    var z := Receive(y, tenant, sid, now, m);
    if m.media { RegisterIs(y.files, File(tenant, sid, Wamid(m), y.seqNo + 1, FilePending, 0, None, None, None)); }
    forall j | 0 <= j < |at| ensures IsFileOf(z.files, z.deferred[|x.deferred| + j], ms[at[j]]) {
      if j < |before| { assert IsFileOf(y.files, y.deferred[|x.deferred| + j], ms[..n][before[j]]); }
    }
  }

  lemma NewFilesOne(x: Intake, tenant: nat, sid: nat, now: real, ms: seq<Msg>, before: seq<nat>, y: Intake,
                    at: seq<nat>)
    requires Grown(ms, before, at) && NewFiles(x, tenant, sid, ms[..|ms| - 1], before, y)
    requires y.seqNo == x.seqNo + |before|
    ensures NewFiles(x, tenant, sid, ms, at, Receive(y, tenant, sid, now, ms[|ms| - 1]))
  {
    var m := ms[|ms| - 1];
    var z := Receive(y, tenant, sid, now, m);
    var f := File(tenant, sid, Wamid(m), y.seqNo + 1, FilePending, 0, None, None, None);
    assert z.files == y.files || (m.media && z.files == y.files + [f]);
    forall i | |x.files| <= i < |z.files| ensures BroughtBy(z.files[i], x, tenant, sid, ms, at) {
      if i < |y.files| {
        assert BroughtBy(y.files[i], x, tenant, sid, ms[..|ms| - 1], before);
        StillBrought(z.files[i], x, tenant, sid, ms, before, at);
      } else {
        assert BroughtIn(f, tenant, sid, x.seqNo + |before| + 1, ms[at[|before|]]);
      }
    }
  }

  lemma StillBrought(f: File, x: Intake, tenant: nat, sid: nat, ms: seq<Msg>, before: seq<nat>, at: seq<nat>)
    requires Grown(ms, before, at) && BroughtBy(f, x, tenant, sid, ms[..|ms| - 1], before)
    ensures BroughtBy(f, x, tenant, sid, ms, at)
  {
    var j :| 0 <= j < |before| && BroughtIn(f, tenant, sid, x.seqNo + j + 1, ms[..|ms| - 1][before[j]]);
    assert BroughtIn(f, tenant, sid, x.seqNo + j + 1, ms[at[j]]);
  }

  /** _process_messages. */
  method ProcessMessages(st: Sessions.Table, tenant: nat, sid: nat, now: real, ms: seq<Msg>)
    returns (deferred: seq<nat>)
    modifies st
    ensures var x :=
            ReceiveAll(Intake(old(st.sessions), old(st.files), MaxSeq(old(st.files), sid), []), tenant, sid, now, ms);
      st.sessions == x.sessions && st.files == x.files && deferred == x.deferred
  {
    var seqNo := st.MaxSeqOf(sid);
    ghost var start := Intake(st.sessions, st.files, seqNo, []);
    deferred := [];
    var i := 0;
    while i < |ms|
      invariant i <= |ms|
      invariant Intake(st.sessions, st.files, seqNo, deferred) == ReceiveAll(start, tenant, sid, now, ms[..i])
    {
      assert ms[..i + 1][..i] == ms[..i];
      seqNo, deferred := ProcessMessage(st, tenant, sid, now, ms[i], seqNo, deferred);
      i := i + 1;
    }
    assert ms[..i] == ms;
  }

  /** The body of the loop. */
  method ProcessMessage(st: Sessions.Table, tenant: nat, sid: nat, now: real, m: Msg, seqNo: nat, deferred: seq<nat>)
    returns (next: nat, fetches: seq<nat>)
    modifies st
    ensures Intake(st.sessions, st.files, next, fetches) ==
            Receive(Intake(old(st.sessions), old(st.files), seqNo, deferred), tenant, sid, now, m)
  {
    next, fetches := seqNo, deferred;
    if m.media {
      next := seqNo + 1;
      var fid := st.RegisterFile(File(tenant, sid, Wamid(m), next, FilePending, 0, None, None, None));
      st.RecordFileArrival(sid, 0, now);
      fetches := deferred + [fid];
    }
  }

  /** The number of fetch tasks a payload defers. */
  function MediaCount(ms: seq<Msg>): nat
    decreases |ms|
  {
    if ms == [] then 0 else MediaCount(ms[..|ms| - 1]) + if ms[|ms| - 1].media then 1 else 0
  }

  /** What registering a payload keeps. */
  ghost predicate Taken(x: Intake, sid: nat, tenant: nat, y: Intake) {
    && Advance(x.sessions, y.sessions) && SessionsOk(y.sessions) && |y.sessions| == |x.sessions|
    && x.files <= y.files && UniqueWamids(y.files)
    && x.seqNo <= y.seqNo && x.deferred <= y.deferred
    && (forall i | |x.files| <= i < |y.files| ::
        NewFile(y.files[i], tenant, sid) && x.seqNo < y.files[i].seqNo <= y.seqNo)
    && (forall k | |x.deferred| <= k < |y.deferred| :: y.deferred[k] < |y.files|)
    && (forall i | 0 <= i < |x.sessions| :: SameStanding(x.sessions[i], y.sessions[i]))
  }

  predicate NewFile(f: File, tenant: nat, sid: nat) {
    f.tenant == tenant && f.session == sid && f.state == FilePending && f.document.None? && f.docType.None?
  }

  predicate SameStanding(r: Session, r': Session) {
    r'.state == r.state && r'.deal == r.deal && r'.tenant == r.tenant && r'.contact == r.contact
  }

  /** Existing files stay as they are, new ones are pending files of the session with later sequence
      numbers, a wamid is registered once, and one fetch is deferred per media message. */
  lemma {:induction false} ReceiveKeeps(x: Intake, tenant: nat, sid: nat, now: real, ms: seq<Msg>)
    requires SessionsOk(x.sessions) && UniqueWamids(x.files)
    ensures Taken(x, sid, tenant, ReceiveAll(x, tenant, sid, now, ms))
    ensures |ReceiveAll(x, tenant, sid, now, ms).deferred| == |x.deferred| + MediaCount(ms)
    decreases |ms|
  {
    if ms == [] {
      forall i | 0 <= i < |x.sessions| ensures Moves(x.sessions[i], x.sessions[i]) {}
    } else {
      var y := ReceiveAll(x, tenant, sid, now, ms[..|ms| - 1]);
      ReceiveKeeps(x, tenant, sid, now, ms[..|ms| - 1]);
      ReceiveOne(y, tenant, sid, now, ms[|ms| - 1]);
      TakenTrans(x, y, Receive(y, tenant, sid, now, ms[|ms| - 1]), sid, tenant);
    }
  }

  lemma ReceiveOne(x: Intake, tenant: nat, sid: nat, now: real, m: Msg)
    requires SessionsOk(x.sessions) && UniqueWamids(x.files)
    ensures Taken(x, sid, tenant, Receive(x, tenant, sid, now, m))
    ensures |Receive(x, tenant, sid, now, m).deferred| == |x.deferred| + if m.media then 1 else 0
  {
    RegisterKeeps(x.files, File(tenant, sid, Wamid(m), x.seqNo + 1, FilePending, 0, None, None, None));
    ChangeKeeps(x.sessions, sid, Arrived(now, 0));
    forall i | 0 <= i < |x.sessions| ensures Moves(x.sessions[i], x.sessions[i]) {}
  }

  lemma TakenTrans(x: Intake, y: Intake, z: Intake, sid: nat, tenant: nat)
    requires Taken(x, sid, tenant, y) && Taken(y, sid, tenant, z)
    ensures Taken(x, sid, tenant, z)
  {
    AdvanceTrans(x.sessions, y.sessions, z.sessions);
    forall i | |x.files| <= i < |z.files|
      ensures NewFile(z.files[i], tenant, sid) && x.seqNo < z.files[i].seqNo <= z.seqNo
    {
      if i < |y.files| { assert z.files[i] == y.files[i]; }
    }
    forall i | 0 <= i < |x.sessions| ensures SameStanding(x.sessions[i], z.sessions[i]) {
      assert SameStanding(x.sessions[i], y.sessions[i]) && SameStanding(y.sessions[i], z.sessions[i]);
    }
    forall k | |x.deferred| <= k < |z.deferred| ensures z.deferred[k] < |z.files| {
      if k < |y.deferred| { assert z.deferred[k] == y.deferred[k]; }
    }
  }

  // ---- one flushed session --------------------------------------------------------------------------------

  /** Facts of the world the transactions depend on: the similarity, texts, and derived keys. */
  datatype World = World(
    sim: Similarity, pendingName: string, sessionNumber: nat -> string,
    confirmKey: nat -> string, gapKey: nat -> string, confirmText: string, gapText: string)

  const NO_BOOKING := BookingFields(None, None, None, None, false, false, false)

  function IsBookingForm(): File -> bool { (f: File) => f.docType == Some(BookingForm) }

  /** _extract_booking_fields: the facts of the first booking form, if it has any. */
  function ExtractBookingFields(files: seq<File>): BookingFields {
    var k := IndexOf(files, IsBookingForm());
    if k < |files| && files[k].facts.Some? then files[k].facts.value else NO_BOOKING
  }

  function InferDealType(b: BookingFields): DealType {
    if b.corporate then Corporate
    else if b.financed then RetailFinanced
    else if b.exchange then RetailExchange
    else Retail
  }

  /** The tables process_session reads and writes, but for the outbox. */
  datatype Desk = Desk(sessions: seq<Session>, files: seq<File>, book: Book, items: Items)

  function BookingNumber(w: World, sid: nat, b: BookingFields): string {
    if b.number.Some? && b.number.value != "" then b.number.value else w.sessionNumber(sid)
  }

  function BookingOf(w: World, s: Session, sid: nat, b: BookingFields): Booking {
    Booking(sid, s.contact, s.orgUnit, Query(s.tenant, BookingNumber(w, sid, b), b.customer, b.model, b.date),
            InferDealType(b))
  }

  predicate AllStored(files: seq<File>) { forall i | 0 <= i < |files| :: files[i].state == Stored }
  predicate AllTyped(files: seq<File>) { forall i | 0 <= i < |files| :: files[i].docType.Some? }

  /** A classification key that is not empty. */
  predicate Typed(t: Option<DocType>) { t.Some? && t != Some(OtherType("")) }

  /** _satisfy_confirmed_files: a type and an evidence id are enough, whatever DI's verdict. */
  function Satisfy(items: Items, d: nat, files: seq<File>): Items
    decreases |files|
  {
    if files == [] then items else
    var before := Satisfy(items, d, files[..|files| - 1]);
    var f := files[|files| - 1];
    if Typed(f.docType) && f.document.Some? then MarkSpec(before, d, f.docType.value, f.document.value) else before
  }

  function ConfirmMessage(w: World, s: Session, sid: nat): Outbox.Message {
    Outbox.Message(s.tenant, s.contact, Some(sid), Outbox.Interactive, true, w.confirmText, Some(w.confirmKey(sid)),
                   None)
  }

  function GapMessage(w: World, s: Session, sid: nat): Outbox.Message {
    Outbox.Message(s.tenant, s.contact, Some(sid), Outbox.Text, false, w.gapText, Some(w.gapKey(sid)), None)
  }

  /** process_session up to the lookup: whether it goes on to find a deal. */
  predicate Ready(x: Desk, sid: nat, p: Projection) {
    sid < |x.sessions| && AllStored(SessionFiles(x.files, sid, p)) && AllTyped(SessionFiles(x.files, sid, p))
  }

  ghost predicate Finds(x: Desk, sid: nat, p: Projection, w: World, b: BookingFields, m: Match) {
    Ready(x, sid, p) ==> FindSpec(x.book.deals, w.sim, BookingOf(w, x.sessions[sid], sid, b).query, m)
  }

  /** process_session: one transaction; the reply goes to the outbox in the same one. */
  ghost function Flushed(x: Desk, sid: nat, p: Projection, now: real, w: World, b: BookingFields, m: Match)
    : (Desk, Option<Outbox.Message>)
  {
    if sid >= |x.sessions| then (x, None)
    else if !AllStored(SessionFiles(x.files, sid, p)) then
      (x.(sessions := Change(x.sessions, sid, ParkedWith(FilesNotReady))), None)
    else if !AllTyped(SessionFiles(x.files, sid, p)) then
      (x.(sessions := Change(x.sessions, sid, ParkedWith(AwaitingDi))), None)
    else
      match m
      case NoMatch => NewDeal(x, sid, p, now, w, b)
      case Fuzzy(id) =>
        (x.(sessions := Change(x.sessions, sid, ParkedWith(DealAmbiguous)),
            book := Settle(x.book, BookingOf(w, x.sessions[sid], sid, b), w.pendingName, m)), None)
      case Exact(id) => KnownDeal(x, sid, p, w, b, id)
  }

  function NewDeal(x: Desk, sid: nat, p: Projection, now: real, w: World, b: BookingFields)
    : (Desk, Option<Outbox.Message>)
    requires sid < |x.sessions|
  {
    var k := BookingOf(w, x.sessions[sid], sid, b);
    var (deals', d) := CreateSpec(x.book.deals, Fresh(k, w.pendingName));
    (x.(sessions := Change(x.sessions, sid, Confirming(d, now)),
        book := x.book.(deals := deals'),
        items := Satisfy(InitialiseSpec(x.items, d, k.dealType), d, SessionFiles(x.files, sid, p))),
     Some(ConfirmMessage(w, x.sessions[sid], sid)))
  }

  ghost function KnownDeal(x: Desk, sid: nat, p: Projection, w: World, b: BookingFields, id: nat)
    : (Desk, Option<Outbox.Message>)
    requires sid < |x.sessions|
  {
    var s := x.sessions[sid];
    var items' := Satisfy(x.items, id, SessionFiles(x.files, sid, p));
    (x.(sessions := if Checklist.Complete(items', id) then Change(x.sessions, sid, Completed()) else x.sessions,
        book := Settle(x.book, BookingOf(w, s, sid, b), w.pendingName, Exact(id)),
        items := items'),
     Some(GapMessage(w, s, sid)))
  }

  // ---- what process_session comes to, field by field ---------------------------------------------------------

  /** The fields of the first booking form among the files, if there is one and it has facts. */
  ghost predicate FieldsMean(files: seq<File>, b: BookingFields) {
    && (forall k | FirstForm(files, k) ::
          files[k].facts == Some(b) || (files[k].facts == None && NoFields(b)))
    && ((forall k | 0 <= k < |files| :: files[k].docType != Some(BookingForm)) ==> NoFields(b))
  }

  ghost predicate FirstForm(files: seq<File>, k: int) {
    && 0 <= k < |files| && files[k].docType == Some(BookingForm)
    && forall j | 0 <= j < k :: files[j].docType != Some(BookingForm)
  }

  predicate NoFields(b: BookingFields) {
    && b.number == None && b.customer == None && b.model == None && b.date == None
    && !b.financed && !b.exchange && !b.corporate
  }

  lemma FieldsAre(files: seq<File>)
    ensures FieldsMean(files, ExtractBookingFields(files))
  {
    var n := IndexOf(files, IsBookingForm());
    forall j | 0 <= j < n ensures files[j].docType != Some(BookingForm) { assert !IsBookingForm()(files[j]); }
    forall k | FirstForm(files, k) ensures k == n {
      assert n < |files| ==> IsBookingForm()(files[n]);
    }
  }

  /** File i, the last of its kind, gives the deal's item of type t its document. */
  predicate Gives(files: seq<File>, i: nat, t: DocType) {
    && i < |files| && files[i].docType == Some(t) && t != OtherType("") && files[i].document.Some?
    && forall j | i < j < |files| :: !(files[j].docType == Some(t) && files[j].document.Some?)
  }

  /** An item after the deal's files: satisfied by the last file of its type that has evidence, if there is one. */
  ghost predicate ItemMeans(items: Items, d: nat, files: seq<File>, items': Items, k: (nat, DocType))
    requires k in items && k in items'
  {
    && ((k.0 != d || forall i: nat :: !Gives(files, i, k.1)) ==> items'[k] == items[k])
    && (k.0 == d ==> forall i: nat | Gives(files, i, k.1) ::
          items'[k] == Item(items[k].requirement, true, files[i].document))
  }

  ghost predicate ItemsMean(items: Items, d: nat, files: seq<File>, items': Items) {
    items'.Keys == items.Keys && forall k | k in items :: ItemMeans(items, d, files, items', k)
  }

  lemma {:induction false} ItemsAre(items: Items, d: nat, files: seq<File>)
    ensures ItemsMean(items, d, files, Satisfy(items, d, files))
    decreases |files|
  {
    if files != [] {
      ItemsAre(items, d, files[..|files| - 1]);
      forall k | k in items ensures ItemMeans(items, d, files, Satisfy(items, d, files), k) {
        OneMoreFile(items, d, files, k);
      }
    }
  }

  lemma OneMoreFile(items: Items, d: nat, files: seq<File>, k: (nat, DocType))
    requires files != [] && k in items
    requires ItemsMean(items, d, files[..|files| - 1], Satisfy(items, d, files[..|files| - 1]))
    ensures Satisfy(items, d, files).Keys == items.Keys && ItemMeans(items, d, files, Satisfy(items, d, files), k)
  {
    var n, f := |files| - 1, files[|files| - 1];
    assert ItemMeans(items, d, files[..n], Satisfy(items, d, files[..n]), k);
    if k.1 != OtherType("") && f.docType == Some(k.1) && f.document.Some? {
      assert Gives(files, n, k.1);
    } else {
      forall i: nat ensures Gives(files, i, k.1) <==> Gives(files[..n], i, k.1) { LastGives(files, i, k.1); }
    }
  }

  /** A last file that does not count leaves the others as they are. */
  lemma LastGives(files: seq<File>, i: nat, t: DocType)
    requires files != []
    requires t == OtherType("") || files[|files| - 1].docType != Some(t) || files[|files| - 1].document.None?
    ensures Gives(files, i, t) <==> Gives(files[..|files| - 1], i, t)
  {
    var n := |files| - 1;
    if Gives(files[..n], i, t) {
      forall j | i < j < |files| ensures !(files[j].docType == Some(t) && files[j].document.Some?) {
        if j < n { assert files[j] == files[..n][j]; }
      }
    }
  }

  /** Session sid parks with a note, unless it is complete or cancelled. */
  ghost predicate ParksWith(ss: seq<Session>, sid: nat, note: Note, ss': seq<Session>)
    requires sid < |ss|
  {
    ss' == if ss[sid].state in {SessionState.Complete, Cancelled} then ss
           else ss[sid := ss[sid].(state := Parked, note := note)]
  }

  /** What session s asks the deal table for: the booking number of its form, or the one derived from the session. */
  function Asked(w: World, s: Session, sid: nat, b: BookingFields): Query {
    Query(s.tenant, if b.number.Some? && b.number.value != "" then b.number.value else w.sessionNumber(sid),
          b.customer, b.model, b.date)
  }

  /** The provisional deal of session s. */
  predicate IsProvisional(k: Deal, w: World, s: Session, sid: nat, b: BookingFields) {
    && k.state == Provisional && k.tenant == s.tenant && k.orgUnit == s.orgUnit
    && k.createdBy == Some(s.contact) && k.confirmedBy == None
    && k.number == Asked(w, s, sid, b).number && k.model == b.model && k.bookingDate == b.date
    && k.customer == Some(if b.customer.Some? && b.customer.value != "" then b.customer.value else w.pendingName)
    && (k.dealType == Corporate <==> b.corporate)
    && (k.dealType == RetailFinanced <==> !b.corporate && b.financed)
    && (k.dealType == RetailExchange <==> !b.corporate && !b.financed && b.exchange)
  }

  /** items' is items and, unsatisfied, what is missing of the documents a deal of type t needs. */
  ghost predicate AddsDefaults(items: Items, d: nat, t: DealType, items': Items) {
    && (forall k :: k in items' <==> k in items || (k.0 == d && k.1 in COMMON + Extra(t) + {RcBook}))
    && forall k | k in items' :: items'[k] ==
         if k in items then items[k] else Item(if k.1 == RcBook then Optional else Blocking, false, None)
  }

  lemma DefaultsAdded(items: Items, d: nat, t: DealType)
    ensures AddsDefaults(items, d, t, InitialiseSpec(items, d, t))
  {
    forall k
      ensures var r := InitialiseSpec(items, d, t);
        && (k in r <==> k in items || (k.0 == d && k.1 in COMMON + Extra(t) + {RcBook}))
        && (k in r ==> r[k] == if k in items then items[k]
                               else Item(if k.1 == RcBook then Optional else Blocking, false, None))
    {
      InitialiseMeans(items, d, t, k);
    }
  }

  /** Nothing is found: one provisional deal more, its checklist satisfied from the files, a session that was
      processing linked to it for a day, and the question to the sender. */
  ghost predicate NewDealMeans(x: Desk, sid: nat, files: seq<File>, now: real, w: World, b: BookingFields, x': Desk,
                               reply: Option<Outbox.Message>)
    requires sid < |x.sessions|
  {
    var (s, d) := (x.sessions[sid], |x.book.deals|);
    && x'.book.reviews == x.book.reviews && |x'.book.deals| == d + 1 && x'.book.deals[..d] == x.book.deals
    && IsProvisional(x'.book.deals[d], w, s, sid, b)
    && (exists items ::
          AddsDefaults(x.items, d, x'.book.deals[d].dealType, items) && ItemsMean(items, d, files, x'.items))
    && x'.sessions == (if s.state != Processing then x.sessions
                       else x.sessions[sid := s.(state := ConfirmingDeal, deal := Some(d), flushAt := now + 86400.0)])
    && reply == Some(Outbox.Message(s.tenant, s.contact, Some(sid), Outbox.Interactive, true, w.confirmText,
                                    Some(w.confirmKey(sid)), None))
  }

  /** An alike deal: one open question for a person per deal, and the session parks. */
  ghost predicate AmbiguousMeans(x: Desk, sid: nat, id: nat, x': Desk)
    requires sid < |x.sessions|
  {
    && x'.book.deals == x.book.deals && x'.items == x.items
    && x'.book.reviews ==
       (if exists k ::
          0 <= k < |x.book.reviews| && x.book.reviews[k].deal == id && x.book.reviews[k].reason == AmbiguousDeal
        then x.book.reviews else x.book.reviews + [Review(x.sessions[sid].tenant, id, AmbiguousDeal, sid)])
    && ParksWith(x.sessions, sid, DealAmbiguous, x'.sessions)
  }

  /** The deal is known: a provisional one is confirmed by the contact, its items are satisfied from the files,
      the session completes exactly when no blocking item is left and there is one, and the gaps are reported. */
  ghost predicate KnownDealMeans(x: Desk, sid: nat, files: seq<File>, w: World, id: nat, x': Desk,
                                 reply: Option<Outbox.Message>)
    requires sid < |x.sessions| && id < |x.book.deals|
  {
    var (s, k) := (x.sessions[sid], x.book.deals[id]);
    && x'.book.reviews == x.book.reviews
    && x'.book.deals == (if k.state != Provisional then x.book.deals
                         else x.book.deals[id := k.(state := Confirmed, confirmedBy := Some(s.contact))])
    && ItemsMean(x.items, id, files, x'.items)
    && x'.sessions ==
       (if && (exists t: DocType :: (id, t) in x'.items && x'.items[(id, t)].requirement == Blocking)
           && (forall t: DocType | (id, t) in x'.items && x'.items[(id, t)].requirement == Blocking ::
                 x'.items[(id, t)].satisfied)
        then x.sessions[sid := s.(state := SessionState.Complete)] else x.sessions)
    && reply == Some(Outbox.Message(s.tenant, s.contact, Some(sid), Outbox.Text, false, w.gapText,
                                    Some(w.gapKey(sid)), None))
  }

  /** What a session waits for: a file that is not stored, or a type, which under the projection as written no
      file ever has. */
  ghost function WaitsFor(fs: seq<File>, sid: nat, p: Projection): Option<Note> {
    if exists f :: 0 <= f < |fs| && fs[f].session == sid && fs[f].state != Stored then Some(FilesNotReady)
    else if exists f :: 0 <= f < |fs| && fs[f].session == sid && (p == AsWritten || fs[f].docType == None) then
      Some(AwaitingDi)
    else None
  }

  /** What process_session comes to: nothing for a session that is not there; parked while it waits for
      something; else by what the lookup finds. */
  ghost predicate ProcessMeans(x: Desk, sid: nat, p: Projection, now: real, w: World, m: Match, x': Desk,
                               reply: Option<Outbox.Message>)
  {
    if sid >= |x.sessions| then x' == x && reply == None
    else
      match WaitsFor(x.files, sid, p)
      case Some(note) =>
        x' == x.(sessions := x'.sessions) && reply == None && ParksWith(x.sessions, sid, note, x'.sessions)
      case None =>
        x'.files == x.files && exists b, files: seq<File> ::
          && FilesMean(x.files, sid, p, files) && FieldsMean(files, b)
          && MatchMeans(x.book.deals, w.sim, Asked(w, x.sessions[sid], sid, b), m)
          && FoundDealMeans(x, sid, files, now, w, b, m, x', reply)
  }

  ghost predicate FoundDealMeans(x: Desk, sid: nat, files: seq<File>, now: real, w: World, b: BookingFields, m: Match,
                                 x': Desk, reply: Option<Outbox.Message>)
    requires sid < |x.sessions|
  {
    match m
    case NoMatch => NewDealMeans(x, sid, files, now, w, b, x', reply)
    case Fuzzy(id) => AmbiguousMeans(x, sid, id, x') && reply == None
    case Exact(id) => id < |x.book.deals| && KnownDealMeans(x, sid, files, w, id, x', reply)
  }

  /** process_session comes to exactly that. */
  lemma ProcessIs(x: Desk, sid: nat, p: Projection, now: real, w: World, m: Match)
    requires Finds(x, sid, p, w, ExtractBookingFields(SessionFiles(x.files, sid, p)), m)
    ensures var (x', reply) := Flushed(x, sid, p, now, w, ExtractBookingFields(SessionFiles(x.files, sid, p)), m);
      ProcessMeans(x, sid, p, now, w, m, x', reply)
  {
    if sid < |x.sessions| {
      WaitsAsQueried(x.files, sid, p);
      if Ready(x, sid, p) { ReadyIs(x, sid, p, now, w, m); }
    }
  }

  lemma ReadyIs(x: Desk, sid: nat, p: Projection, now: real, w: World, m: Match)
    requires Ready(x, sid, p) && Finds(x, sid, p, w, ExtractBookingFields(SessionFiles(x.files, sid, p)), m)
    ensures var (files, b) := (SessionFiles(x.files, sid, p), ExtractBookingFields(SessionFiles(x.files, sid, p)));
      var (x', reply) := Flushed(x, sid, p, now, w, b, m);
      && x'.files == x.files && FilesMean(x.files, sid, p, files) && FieldsMean(files, b)
      && MatchMeans(x.book.deals, w.sim, Asked(w, x.sessions[sid], sid, b), m)
      && FoundDealMeans(x, sid, files, now, w, b, m, x', reply)
  {
    var files, b := SessionFiles(x.files, sid, p), ExtractBookingFields(SessionFiles(x.files, sid, p));
    FilesAre(x.files, sid, p);
    FieldsAre(files);
    FindMeans(x.book.deals, w.sim, Asked(w, x.sessions[sid], sid, b), m);
    FoundDealIs(x, sid, p, now, w, b, m);
  }

  /** A session waits as its rows say. */
  lemma WaitsAsQueried(fs: seq<File>, sid: nat, p: Projection)
    ensures AllStored(SessionFiles(fs, sid, p)) <==> WaitsFor(fs, sid, p) != Some(FilesNotReady)
    ensures AllStored(SessionFiles(fs, sid, p)) ==>
              (AllTyped(SessionFiles(fs, sid, p)) <==> WaitsFor(fs, sid, p) == None)
  {
    var rows, files := Filter(fs, InSession(sid)), SessionFiles(fs, sid, p);
    forall i | 0 <= i < |files|
      ensures exists f :: 0 <= f < |fs| && fs[f].session == sid && files[i] == Project(p)(fs[f])
    {
      assert rows[i] in rows && InSession(sid)(rows[i]);
      var f :| 0 <= f < |fs| && fs[f] == rows[i];
    }
    forall f | 0 <= f < |fs| && fs[f].session == sid
      ensures exists i :: 0 <= i < |files| && files[i] == Project(p)(fs[f])
    {
      assert InSession(sid)(fs[f]) && fs[f] in rows;
      var i :| 0 <= i < |rows| && rows[i] == fs[f];
      assert files[i] == Project(p)(fs[f]);
    }
  }

  lemma FoundDealIs(x: Desk, sid: nat, p: Projection, now: real, w: World, b: BookingFields, m: Match)
    requires sid < |x.sessions| && MatchMeans(x.book.deals, w.sim, Asked(w, x.sessions[sid], sid, b), m)
    requires Ready(x, sid, p)
    ensures var (x', reply) := Flushed(x, sid, p, now, w, b, m);
      FoundDealMeans(x, sid, SessionFiles(x.files, sid, p), now, w, b, m, x', reply)
  {
    match m
    case NoMatch => NewDealIs(x, sid, p, now, w, b);
    case Fuzzy(id) =>
      var r := Review(x.sessions[sid].tenant, id, AmbiguousDeal, sid);
      forall k | 0 <= k < IndexOf(x.book.reviews, SameTask(r))
        ensures !(x.book.reviews[k].deal == id && x.book.reviews[k].reason == AmbiguousDeal)
      {
        assert !SameTask(r)(x.book.reviews[k]);
      }
    case Exact(id) => KnownDealIs(x, sid, p, w, b, id);
  }

  lemma NewDealIs(x: Desk, sid: nat, p: Projection, now: real, w: World, b: BookingFields)
    requires sid < |x.sessions| && MatchMeans(x.book.deals, w.sim, Asked(w, x.sessions[sid], sid, b), NoMatch)
    ensures var (x', reply) := NewDeal(x, sid, p, now, w, b);
      NewDealMeans(x, sid, SessionFiles(x.files, sid, p), now, w, b, x', reply)
  {
    var q := Asked(w, x.sessions[sid], sid, b);
    var files, d, t := SessionFiles(x.files, sid, p), |x.book.deals|, InferDealType(b);
    NumberFound(x.book.deals, q.tenant, q.number);
    DefaultsAdded(x.items, d, t);
    ItemsAre(InitialiseSpec(x.items, d, t), d, files);
  }

  lemma KnownDealIs(x: Desk, sid: nat, p: Projection, w: World, b: BookingFields, id: nat)
    requires sid < |x.sessions| && MatchMeans(x.book.deals, w.sim, Asked(w, x.sessions[sid], sid, b), Exact(id))
    ensures var (x', reply) := KnownDeal(x, sid, p, w, b, id);
      id < |x.book.deals| && KnownDealMeans(x, sid, SessionFiles(x.files, sid, p), w, id, x', reply)
  {
    ItemsAre(x.items, id, SessionFiles(x.files, sid, p));
    var items := Satisfy(x.items, id, SessionFiles(x.files, sid, p));
    forall t: DocType
      ensures IsMissing(items, id, t) <==>
                (id, t) in items && items[(id, t)].requirement == Blocking && !items[(id, t)].satisfied
    {}
  }

  method SatisfyConfirmedFiles(items: Checklist.Table, d: nat, files: seq<File>)
    modifies items
    ensures items.items == Satisfy(old(items.items), d, files)
  {
    var i := 0;
    while i < |files|
      invariant i <= |files| && items.items == Satisfy(old(items.items), d, files[..i])
    {
      assert files[..i + 1][..i] == files[..i];
      if Typed(files[i].docType) && files[i].document.Some? {
        items.MarkSatisfied(d, files[i].docType.value, files[i].document.value);
      }
      i := i + 1;
    }
    assert files[..i] == files;
  }

  ghost function DeskOf(st: Sessions.Table, deals: Deals.Table, items: Checklist.Table): Desk
    reads st, deals, items
  {
    Desk(st.sessions, st.files, Book(deals.deals, deals.reviews), items.items)
  }

  /** The match found comes back as a ghost: a tie in similarity leaves it open. */
  method ProcessSession(st: Sessions.Table, deals: Deals.Table, items: Checklist.Table, sid: nat, p: Projection,
                        now: real, w: World) returns (reply: Option<Outbox.Message>, ghost m: Match)
    requires KnownTypes(items.items)
    modifies st, deals, items
    ensures Finds(old(DeskOf(st, deals, items)), sid, p, w,
                  ExtractBookingFields(SessionFiles(old(st.files), sid, p)), m)
    ensures (DeskOf(st, deals, items), reply) == Flushed(old(DeskOf(st, deals, items)), sid, p, now, w,
                                                         ExtractBookingFields(SessionFiles(old(st.files), sid, p)), m)
    ensures ProcessMeans(old(DeskOf(st, deals, items)), sid, p, now, w, m, DeskOf(st, deals, items), reply)
  {
    reply, m := RunTransaction(st, deals, items, sid, p, now, w);
    ProcessIs(old(DeskOf(st, deals, items)), sid, p, now, w, m);
  }

  /** The transaction, branch by branch. */
  method RunTransaction(st: Sessions.Table, deals: Deals.Table, items: Checklist.Table, sid: nat, p: Projection,
                        now: real, w: World) returns (reply: Option<Outbox.Message>, ghost m: Match)
    requires KnownTypes(items.items)
    modifies st, deals, items
    ensures Finds(old(DeskOf(st, deals, items)), sid, p, w,
                  ExtractBookingFields(SessionFiles(old(st.files), sid, p)), m)
    ensures (DeskOf(st, deals, items), reply) == Flushed(old(DeskOf(st, deals, items)), sid, p, now, w,
                                                         ExtractBookingFields(SessionFiles(old(st.files), sid, p)), m)
  {
    reply, m := None, NoMatch;
    if sid >= |st.sessions| { return; }
    var files := st.GetSessionFiles(sid, p);
    if !AllStored(files) {
      st.ParkSession(sid, FilesNotReady);
      return;
    }
    if !AllTyped(files) {
      st.ParkSession(sid, AwaitingDi);
      return;
    }
    reply, m := SettleSession(st, deals, items, sid, p, files, now, w);
  }

  /** The session is ready: the booking fields, the lookup, and the branch it decides. */
  method SettleSession(st: Sessions.Table, deals: Deals.Table, items: Checklist.Table, sid: nat, p: Projection,
                       files: seq<File>, now: real, w: World) returns (reply: Option<Outbox.Message>, ghost m: Match)
    requires KnownTypes(items.items) && Ready(DeskOf(st, deals, items), sid, p)
    requires files == SessionFiles(st.files, sid, p)
    modifies st`sessions, deals, items
    ensures Finds(old(DeskOf(st, deals, items)), sid, p, w, ExtractBookingFields(files), m)
    ensures (DeskOf(st, deals, items), reply) ==
            Flushed(old(DeskOf(st, deals, items)), sid, p, now, w, ExtractBookingFields(files), m)
  {
    reply := None;
    var s := st.sessions[sid];
    var b := FormFields(files);
    var k := BookingOf(w, s, sid, b);
    var found := deals.FindExistingDeal(w.sim, k.query);
    m := found;
    match found
    case NoMatch =>
      reply := StartDeal(st, deals, items, sid, files, now, w, s, k);
    case Fuzzy(id) =>
      AskForReview(st, deals, sid, s, id);
    case Exact(id) =>
      reply := JoinDeal(st, deals, items, sid, files, w, s, id);
  }

  /** _extract_booking_fields. */
  method FormFields(files: seq<File>) returns (b: BookingFields)
    ensures b == ExtractBookingFields(files)
  {
    var form := Find(files, IsBookingForm());
    b := if form < |files| && files[form].facts.Some? then files[form].facts.value else NO_BOOKING;
  }

  /** An alike deal: a person decides, and the session parks. */
  method AskForReview(st: Sessions.Table, deals: Deals.Table, sid: nat, s: Session, id: nat)
    modifies st`sessions, deals`reviews
    ensures deals.reviews == ReviewSpec(old(deals.reviews), Review(s.tenant, id, AmbiguousDeal, sid))
    ensures st.sessions == Change(old(st.sessions), sid, ParkedWith(DealAmbiguous))
  {
    deals.RaiseAmbiguousReview(Review(s.tenant, id, AmbiguousDeal, sid));
    st.ParkSession(sid, DealAmbiguous);
  }

  /** No deal found: a provisional one, its checklist, and the question to the sender. */
  method StartDeal(st: Sessions.Table, deals: Deals.Table, items: Checklist.Table, sid: nat, files: seq<File>,
                   now: real, w: World, s: Session, k: Booking) returns (reply: Option<Outbox.Message>)
    modifies st`sessions, deals`deals, items
    ensures var (ds, d) := CreateSpec(old(deals.deals), Fresh(k, w.pendingName));
      && deals.deals == ds && st.sessions == Change(old(st.sessions), sid, Confirming(d, now))
      && items.items == Satisfy(InitialiseSpec(old(items.items), d, k.dealType), d, files)
    ensures reply == Some(ConfirmMessage(w, s, sid))
    ensures if exists i: nat :: NumberAt(old(deals.deals), k.query.tenant, k.query.number, i) then
              deals.deals == old(deals.deals)
            else
              && |deals.deals| == |old(deals.deals)| + 1 && deals.deals[..|old(deals.deals)|] == old(deals.deals)
              && var n := deals.deals[|old(deals.deals)|];
                 && n.state == Provisional && n.createdBy == Some(k.contact) && n.confirmedBy == None
                 && n.tenant == k.query.tenant && n.orgUnit == k.orgUnit && n.number == k.query.number
                 && n.model == k.query.model && n.bookingDate == k.query.date && n.dealType == k.dealType
  {
    NumberFound(deals.deals, k.query.tenant, k.query.number);
    var d := deals.CreateProvisionalDeal(Fresh(k, w.pendingName));
    var _ := items.Initialise(d, k.dealType);
    st.TransitionToConfirming(sid, d, now);
    SatisfyConfirmedFiles(items, d, files);
    reply := Some(ConfirmMessage(w, s, sid));
  }

  /** The deal is known: it is confirmed, satisfied from the files, and its gaps are reported. */
  method JoinDeal(st: Sessions.Table, deals: Deals.Table, items: Checklist.Table, sid: nat, files: seq<File>, w: World,
                  s: Session, id: nat) returns (reply: Option<Outbox.Message>)
    requires KnownTypes(items.items) && id < |deals.deals|
    modifies st`sessions, deals`deals, items
    ensures deals.deals == ConfirmSpec(old(deals.deals), s.tenant, id, s.contact)
    ensures items.items == Satisfy(old(items.items), id, files)
    ensures st.sessions == if Checklist.Complete(items.items, id) then Change(old(st.sessions), sid, Completed())
                           else old(st.sessions)
    ensures reply == Some(GapMessage(w, s, sid))
  {
    deals.ConfirmDeal(s.tenant, id, s.contact);
    SatisfyConfirmedFiles(items, id, files);
    SatisfyKnown(old(items.items), id, files);
    reply := Some(GapMessage(w, s, sid));
    var state := items.Build(id, Some(deals.deals[id].number));
    if state.value.isComplete { st.MarkComplete(sid); }
  }

  lemma {:induction false} SatisfyKnown(items: Items, d: nat, files: seq<File>)
    ensures Satisfy(items, d, files).Keys == items.Keys
    decreases |files|
  {
    if files != [] { SatisfyKnown(items, d, files[..|files| - 1]); }
  }
}
