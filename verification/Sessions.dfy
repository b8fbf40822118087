/** wa/session.py: wa.session and wa.file, every transition as a function of the row, and the class
    whose methods are the module's functions.  Row ids are positions in the table; an UPDATE whose id
    is not there changes nothing.  Times are seconds. */
module Sessions {
  import opened Wrappers
  import opened Rows
  import opened Checklist

  datatype SessionState =
    Collecting | Processing | ConfirmingDeal | GapsPending | Complete | Parked | Escalated | Cancelled

  datatype Note = NoNote | FilesNotReady | AwaitingDi | DealAmbiguous | DiSla | OtherNote(text: string)

  datatype Session = Session(
    tenant: nat, contact: nat, orgUnit: nat, state: SessionState, deal: Option<nat>, note: Note,
    flushAt: real, fileCount: nat, bytesTotal: nat)

  datatype FileState = FilePending | Downloading | Storing | Stored | FileFailed | Quarantined

  /** What the service reads of the facts DI extracts from a booking form. */
  datatype BookingFields = BookingFields(
    number: Option<string>, customer: Option<string>, model: Option<string>, date: Option<int>,
    financed: bool, exchange: bool, corporate: bool)

  datatype File = File(
    tenant: nat, session: nat, wamid: string, seqNo: nat, state: FileState, attempts: nat,
    document: Option<nat>, docType: Option<DocType>, facts: Option<BookingFields>)

  const DEBOUNCE: real := 90.0
  const DAY: real := 86400.0
  const FLUSH_LIMIT := 50

  predicate Open(st: SessionState) { st.Collecting? || st.ConfirmingDeal? || st.Processing? }

  function OpenOf(contact: nat): Session -> bool { (r: Session) => r.contact == contact && Open(r.state) }

  // ---- the transitions --------------------------------------------------------------------------------

  function Opened(tenant: nat, contact: nat, orgUnit: nat, now: real): Session {
    Session(tenant, contact, orgUnit, Collecting, None, NoNote, now + DEBOUNCE, 0, 0)
  }

  function Arrived(now: real, bytes: nat): Session -> Session {
    (r: Session) =>
      if r.state.Collecting?
      then r.(flushAt := now + DEBOUNCE, fileCount := r.fileCount + 1, bytesTotal := r.bytesTotal + bytes)
      else r
  }

  function Confirming(d: nat, now: real): Session -> Session {
    (r: Session) =>
      if r.state.Processing? then r.(state := ConfirmingDeal, deal := Some(d), flushAt := now + DAY) else r
  }

  function DealConfirmed(now: real): Session -> Session {
    (r: Session) => if r.state.ConfirmingDeal? then r.(state := GapsPending, flushAt := now + DAY) else r
  }

  /** mark_complete looks at no state. */
  function Completed(): Session -> Session { (r: Session) => r.(state := SessionState.Complete) }

  function ParkedWith(note: Note): Session -> Session {
    (r: Session) => if r.state.Complete? || r.state.Cancelled? then r else r.(state := Parked, note := note)
  }

  function EscalatedWith(note: Note): Session -> Session {
    (r: Session) =>
      if r.state.Complete? || r.state.Cancelled? || r.state.Escalated? then r else r.(state := Escalated, note := note)
  }

  /** _park_on_di_sla (worker.py) looks at no state. */
  function SlaParked(): Session -> Session { (r: Session) => r.(state := Parked, note := DiSla) }

  /** The end of poll_di_document (worker.py): an open session is due now. */
  function Nudged(now: real): Session -> Session { (r: Session) => if Open(r.state) then r.(flushAt := now) else r }

  /** UPDATE ... WHERE id. */
  function Change(ss: seq<Session>, id: nat, change: Session -> Session): (r: seq<Session>)
    ensures |r| == |ss|
  {
    if id < |ss| then ss[id := change(ss[id])] else ss
  }

  function GetOrCreateSpec(ss: seq<Session>, tenant: nat, contact: nat, orgUnit: nat, now: real): (seq<Session>, nat) {
    var k := IndexOf(ss, OpenOf(contact));
    (if k < |ss| then ss else ss + [Opened(tenant, contact, orgUnit, now)], k)
  }

  /** Session k is the contact's first that is collecting, confirming its deal or being processed. */
  ghost predicate OpenAt(ss: seq<Session>, contact: nat, k: nat) {
    && k < |ss| && ss[k].contact == contact && ss[k].state in {Collecting, ConfirmingDeal, Processing}
    && forall j | 0 <= j < k :: ss[j].contact == contact ==> ss[j].state !in {Collecting, ConfirmingDeal, Processing}
  }

  /** The open session, or a new one that collects for 90 seconds. */
  ghost predicate GetOrCreateMeans(ss: seq<Session>, tenant: nat, contact: nat, orgUnit: nat, now: real,
                                   ss': seq<Session>, id: nat)
  {
    if exists k: nat :: OpenAt(ss, contact, k) then ss' == ss && OpenAt(ss, contact, id)
    else id == |ss| && ss' == ss + [Session(tenant, contact, orgUnit, Collecting, None, NoNote, now + 90.0, 0, 0)]
  }

  lemma GetOrCreateIs(ss: seq<Session>, tenant: nat, contact: nat, orgUnit: nat, now: real)
    ensures var (ss', id) := GetOrCreateSpec(ss, tenant, contact, orgUnit, now);
      GetOrCreateMeans(ss, tenant, contact, orgUnit, now, ss', id)
  {
    var k := IndexOf(ss, OpenOf(contact));
    forall j | 0 <= j < k
      ensures ss[j].contact == contact ==> ss[j].state !in {Collecting, ConfirmingDeal, Processing}
    {
      assert !OpenOf(contact)(ss[j]);
    }
    if k < |ss| { assert OpenAt(ss, contact, k); }
  }

  predicate Due(r: Session, now: real) { r.state.Collecting? && r.flushAt < now }

  /** What ORDER BY flush_at, SKIP LOCKED and LIMIT allow the flush to claim. */
  ghost predicate FlushChoice(ss: seq<Session>, now: real, locked: set<nat>, limit: nat, ids: seq<nat>) {
    && Flushable(ss, now, limit, ids)
    && (forall k | 0 <= k < |ids| :: ids[k] !in locked)
    && (forall x: nat | x < |ss| && Due(ss[x], now) && x !in locked && x !in ids ::
          |ids| == limit && forall k | 0 <= k < |ids| :: ss[ids[k]].flushAt <= ss[x].flushAt)
  }

  /** A session that has collected nothing since its timer ran out. */
  predicate Overdue(r: Session, now: real) { r.state == Collecting && r.flushAt < now }

  lemma FlushIs(ss: seq<Session>, now: real, locked: set<nat>, limit: nat, ids: seq<nat>)
    requires FlushChoice(ss, now, locked, limit, ids)
    ensures forall k | 0 <= k < |ids| :: ids[k] < |ss| && Overdue(ss[ids[k]], now)
    ensures forall x: nat | x < |ss| && Overdue(ss[x], now) && x !in locked && x !in ids ::
              |ids| == limit && forall k | 0 <= k < |ids| :: ss[ids[k]].flushAt <= ss[x].flushAt
  {
    forall x: nat | x < |ss| ensures Overdue(ss[x], now) <==> Due(ss[x], now) {}
  }

  /** Distinct due sessions, at most limit of them: since any row may be locked, any such ids. */
  ghost predicate Flushable(ss: seq<Session>, now: real, limit: nat, ids: seq<nat>) {
    && |ids| <= limit
    && (forall k | 0 <= k < |ids| :: ids[k] < |ss| && Due(ss[ids[k]], now))
    && (forall k, l | 0 <= k < l < |ids| :: ids[k] != ids[l])
  }

  lemma AnyFlushableMayBeClaimed(ss: seq<Session>, now: real, limit: nat, ids: seq<nat>)
    ensures Flushable(ss, now, limit, ids) <==> exists locked :: FlushChoice(ss, now, locked, limit, ids)
  {
    if Flushable(ss, now, limit, ids) {
      var locked := set x: nat | x < |ss| && x !in ids;
      assert FlushChoice(ss, now, locked, limit, ids);
    }
  }

  function Claimed(ss: seq<Session>, ids: seq<nat>): (r: seq<Session>)
    ensures |r| == |ss|
  {
    seq(|ss|, i requires 0 <= i < |ss| => if i in ids then ss[i].(state := Processing) else ss[i])
  }

  // ---- files --------------------------------------------------------------------------------------------

  function WithWamid(wamid: string): File -> bool { (f: File) => f.wamid == wamid }
  function InSession(id: nat): File -> bool { (f: File) => f.session == id }

  /** INSERT ... ON CONFLICT (wamid) DO NOTHING, and the id of the row with that wamid. */
  function RegisterSpec(fs: seq<File>, f: File): (seq<File>, nat) {
    var k := IndexOf(fs, WithWamid(f.wamid));
    (if k < |fs| then fs else fs + [f], k)
  }

  /** The file with that wamid, which is the given one unless there was one before. */
  ghost predicate RegisterMeans(fs: seq<File>, f: File, fs': seq<File>, id: nat) {
    && id < |fs'| && fs'[id].wamid == f.wamid && (forall j | 0 <= j < id :: fs'[j].wamid != f.wamid)
    && (if exists j :: 0 <= j < |fs| && fs[j].wamid == f.wamid then fs' == fs else fs' == fs + [f])
  }

  lemma RegisterIs(fs: seq<File>, f: File)
    ensures var (fs', id) := RegisterSpec(fs, f); RegisterMeans(fs, f, fs', id)
  {
    var k := IndexOf(fs, WithWamid(f.wamid));
    forall j | 0 <= j < k ensures fs[j].wamid != f.wamid { assert !WithWamid(f.wamid)(fs[j]); }
  }

  /** COALESCE(MAX(received_seq), 0) WHERE session_id. */
  function MaxSeq(fs: seq<File>, session: nat): (m: nat)
    ensures forall i | 0 <= i < |fs| && fs[i].session == session :: fs[i].seqNo <= m
  {
    if fs == [] then 0 else
    var m := MaxSeq(fs[..|fs| - 1], session);
    var f := fs[|fs| - 1];
    if f.session == session && f.seqNo > m then f.seqNo else m
  }

  lemma {:induction false} MaxSeqReached(fs: seq<File>, session: nat)
    ensures MaxSeq(fs, session) == 0
            || exists i :: 0 <= i < |fs| && fs[i].session == session && fs[i].seqNo == MaxSeq(fs, session)
  {
    if fs != [] {
      var n := |fs| - 1;
      MaxSeqReached(fs[..n], session);
      if MaxSeq(fs, session) != 0 && !(fs[n].session == session && fs[n].seqNo == MaxSeq(fs, session)) {
        var i :| 0 <= i < n && fs[..n][i].session == session && fs[..n][i].seqNo == MaxSeq(fs[..n], session);
        assert fs[i] == fs[..n][i];
      }
    }
  }

  /** Whether get_session_files selects the classification columns process_session reads: as written it
      does not. */
  datatype Projection = AsWritten | Full

  function Project(p: Projection): File -> File {
    (f: File) => if p.Full? then f else f.(document := None, docType := None, facts := None)
  }

  function Map<T, U>(xs: seq<T>, f: T -> U): (r: seq<U>)
    ensures |r| == |xs| && forall i | 0 <= i < |xs| :: r[i] == f(xs[i])
  {
    seq(|xs|, i requires 0 <= i < |xs| => f(xs[i]))
  }

  /** get_session_files; PipelineOrder.FilesInOrder shows that this is its ORDER BY received_seq. */
  function SessionFiles(fs: seq<File>, id: nat, p: Projection): seq<File> {
    Map(Filter(fs, InSession(id)), Project(p))
  }

  /** The session's rows in table order; without the projection's columns they show no document, type or facts. */
  ghost predicate FilesMean(fs: seq<File>, id: nat, p: Projection, r: seq<File>) {
    exists at: seq<nat> ::
      && (forall i, j | 0 <= i < j < |at| :: at[i] < at[j]) && (forall i | 0 <= i < |at| :: at[i] < |fs|)
      && (forall k | 0 <= k < |fs| :: k in at <==> fs[k].session == id)
      && |r| == |at|
      && forall i | 0 <= i < |r| ::
           r[i] == if p == Full then fs[at[i]] else fs[at[i]].(document := None, docType := None, facts := None)
  }

  lemma FilesAre(fs: seq<File>, id: nat, p: Projection)
    ensures FilesMean(fs, id, p, SessionFiles(fs, id, p))
  {
    var at := FilterAt(fs, InSession(id));
    forall k | 0 <= k < |fs| ensures k in at <==> fs[k].session == id {
      if k in at { var i :| 0 <= i < |at| && at[i] == k; }
    }
  }

  // ---- what every transition keeps ------------------------------------------------------------------------

  function Rank(st: SessionState): nat {
    match st
    case Collecting => 0
    case Processing => 1
    case ConfirmingDeal => 2
    case _ => 3
  }

  /** A session only moves on, keeps its owner, and its deal is written at most once, on leaving Processing. */
  ghost predicate Moves(r: Session, r': Session) {
    && r'.tenant == r.tenant && r'.contact == r.contact && r'.orgUnit == r.orgUnit
    && Rank(r.state) <= Rank(r'.state)
    && (r'.deal == r.deal || (r.deal.None? && Rank(r.state) < 2 <= Rank(r'.state)))
  }

  /** A session without a deal is one that has not reached confirmation... */
  ghost predicate DealOk(r: Session) { Rank(r.state) < 2 ==> r.deal.None? }

  ghost predicate Advance(ss: seq<Session>, ss': seq<Session>) {
    |ss| <= |ss'| && forall i | 0 <= i < |ss| :: Moves(ss[i], ss'[i])
  }

  lemma AdvanceTrans(x: seq<Session>, y: seq<Session>, z: seq<Session>)
    requires Advance(x, y) && Advance(y, z)
    ensures Advance(x, z)
  {
    forall i | 0 <= i < |x| ensures Moves(x[i], z[i]) { assert Moves(x[i], y[i]) && Moves(y[i], z[i]); }
  }

  ghost predicate OneOpen(ss: seq<Session>) {
    forall i, j | 0 <= i < j < |ss| && Open(ss[i].state) && Open(ss[j].state) :: ss[i].contact != ss[j].contact
  }

  ghost predicate SessionsOk(ss: seq<Session>) { OneOpen(ss) && forall i | 0 <= i < |ss| :: DealOk(ss[i]) }

  /** Any transition of the module, on any row in any state, moves it on. */
  lemma TransitionsMove(r: Session, d: nat, now: real, note: Note, bytes: nat)
    requires DealOk(r)
    ensures Moves(r, Arrived(now, bytes)(r)) && DealOk(Arrived(now, bytes)(r))
    ensures Moves(r, Confirming(d, now)(r)) && DealOk(Confirming(d, now)(r))
    ensures Moves(r, DealConfirmed(now)(r)) && DealOk(DealConfirmed(now)(r))
    ensures Moves(r, Completed()(r)) && DealOk(Completed()(r))
    ensures Moves(r, ParkedWith(note)(r)) && DealOk(ParkedWith(note)(r))
    ensures Moves(r, EscalatedWith(note)(r)) && DealOk(EscalatedWith(note)(r))
    ensures Moves(r, SlaParked()(r)) && DealOk(SlaParked()(r))
    ensures Moves(r, Nudged(now)(r)) && DealOk(Nudged(now)(r))
  {}

  /** Moving sessions on never opens a second one for a contact. */
  lemma AdvanceKeepsOneOpen(ss: seq<Session>, ss': seq<Session>)
    requires OneOpen(ss) && Advance(ss, ss') && |ss'| == |ss|
    ensures OneOpen(ss')
  {
    forall i, j | 0 <= i < j < |ss'| && Open(ss'[i].state) && Open(ss'[j].state)
      ensures ss'[i].contact != ss'[j].contact
    {
      assert Moves(ss[i], ss'[i]) && Moves(ss[j], ss'[j]);
    }
  }

  lemma ChangeKeeps(ss: seq<Session>, id: nat, change: Session -> Session)
    requires SessionsOk(ss)
    requires id < |ss| ==> Moves(ss[id], change(ss[id])) && DealOk(change(ss[id]))
    ensures Advance(ss, Change(ss, id, change)) && SessionsOk(Change(ss, id, change))
  {
    AdvanceKeepsOneOpen(ss, Change(ss, id, change));
  }

  lemma ClaimKeeps(ss: seq<Session>, now: real, limit: nat, ids: seq<nat>)
    requires SessionsOk(ss) && Flushable(ss, now, limit, ids)
    ensures Advance(ss, Claimed(ss, ids)) && SessionsOk(Claimed(ss, ids))
    ensures forall k | 0 <= k < |ids| ::
            ids[k] < |ss| && Rank(ss[ids[k]].state) == 0 && Rank(Claimed(ss, ids)[ids[k]].state) == 1
  {
    var ss' := Claimed(ss, ids);
    forall i | 0 <= i < |ss| ensures Moves(ss[i], ss'[i]) && DealOk(ss'[i]) {
      if i in ids { assert Due(ss[i], now); }
    }
    AdvanceKeepsOneOpen(ss, ss');
  }

  /** get_or_create_session: the contact's open session, which is the only one. */
  lemma GetOrCreateKeeps(ss: seq<Session>, tenant: nat, contact: nat, orgUnit: nat, now: real)
    requires SessionsOk(ss)
    ensures var (ss', k) := GetOrCreateSpec(ss, tenant, contact, orgUnit, now);
      && Advance(ss, ss') && SessionsOk(ss') && k < |ss'|
      && ss'[k].contact == contact && Open(ss'[k].state)
      && (forall i | 0 <= i < |ss'| && ss'[i].contact == contact && Open(ss'[i].state) :: i == k)
      && (|ss'| > |ss| <==> forall i | 0 <= i < |ss| :: !(ss[i].contact == contact && Open(ss[i].state)))
  {
    var (ss', k) := GetOrCreateSpec(ss, tenant, contact, orgUnit, now);
    forall i | 0 <= i < |ss| ensures Moves(ss[i], ss'[i]) && DealOk(ss'[i]) {}
    if k == |ss| {
      forall i | 0 <= i < |ss| ensures !(ss[i].contact == contact && Open(ss[i].state)) {
        assert !OpenOf(contact)(ss[i]);
      }
    }
  }

  // ---- files keep their identity ----------------------------------------------------------------------------

  ghost predicate UniqueWamids(fs: seq<File>) { forall i, j | 0 <= i < j < |fs| :: fs[i].wamid != fs[j].wamid }

  lemma RegisterKeeps(fs: seq<File>, f: File)
    requires UniqueWamids(fs)
    ensures var (fs', k) := RegisterSpec(fs, f);
      && UniqueWamids(fs') && fs <= fs' && k < |fs'| && fs'[k].wamid == f.wamid
      && (|fs'| > |fs| ==> fs' == fs + [f] && k == |fs|)
  {
    var k := IndexOf(fs, WithWamid(f.wamid));
    if k == |fs| {
      forall i | 0 <= i < |fs| ensures fs[i].wamid != f.wamid { assert !WithWamid(f.wamid)(fs[i]); }
    }
  }

  // ---- the tables ---------------------------------------------------------------------------------------------

  class Table {
    var sessions: seq<Session>
    var files: seq<File>

    constructor ()
      ensures sessions == [] && files == []
    {
      sessions, files := [], [];
    }

    method GetOrCreateSession(tenant: nat, contact: nat, orgUnit: nat, now: real) returns (id: nat)
      modifies this`sessions
      ensures (sessions, id) == GetOrCreateSpec(old(sessions), tenant, contact, orgUnit, now)
      ensures GetOrCreateMeans(old(sessions), tenant, contact, orgUnit, now, sessions, id)
    {
      GetOrCreateIs(sessions, tenant, contact, orgUnit, now);
      id := Find(sessions, OpenOf(contact));
      if id == |sessions| {
        sessions := sessions + [Opened(tenant, contact, orgUnit, now)];
      }
    }

    method RecordFileArrival(id: nat, bytes: nat, now: real)
      modifies this`sessions
      ensures sessions == Change(old(sessions), id, Arrived(now, bytes))
      ensures if id < |old(sessions)| && old(sessions)[id].state == Collecting then
                sessions == old(sessions)[id := old(sessions)[id].(
                  flushAt := now + 90.0, fileCount := old(sessions)[id].fileCount + 1,
                  bytesTotal := old(sessions)[id].bytesTotal + bytes)]
              else sessions == old(sessions)
    {
      if id < |sessions| && sessions[id].state.Collecting? {
        var r := sessions[id];
        sessions := sessions[id := r.(flushAt := now + DEBOUNCE, fileCount := r.fileCount + 1,
                                      bytesTotal := r.bytesTotal + bytes)];
      }
    }

    method RegisterFile(f: File) returns (id: nat)
      modifies this`files
      ensures (files, id) == RegisterSpec(old(files), f)
    {
      id := Find(files, WithWamid(f.wamid));
      if id == |files| { files := files + [f]; }
    }

    method MaxSeqOf(session: nat) returns (m: nat)
      ensures m == MaxSeq(files, session)
      ensures forall i | 0 <= i < |files| && files[i].session == session :: files[i].seqNo <= m
      ensures m == 0 || exists i :: 0 <= i < |files| && files[i].session == session && files[i].seqNo == m
    {
      m := 0;
      var i := 0;
      while i < |files|
        invariant i <= |files| && m == MaxSeq(files[..i], session)
      {
        assert files[..i + 1][..i] == files[..i];
        if files[i].session == session && files[i].seqNo > m { m := files[i].seqNo; }
        i := i + 1;
      }
      assert files[..i] == files;
      MaxSeqReached(files, session);
    }

    /** The due, unlocked, not yet taken session with the least flush_at. */
    method NextToFlush(now: real, locked: set<nat>, taken: seq<nat>) returns (best: Option<nat>)
      ensures best.None? ==> forall x: nat | x < |sessions| && Due(sessions[x], now) && x !in locked :: x in taken
      ensures best.Some? ==>
        && best.value < |sessions| && Due(sessions[best.value], now)
        && best.value !in locked && best.value !in taken
        && forall x: nat | x < |sessions| && Due(sessions[x], now) && x !in locked && x !in taken ::
             sessions[best.value].flushAt <= sessions[x].flushAt
    {
      best := None;
      var i := 0;
      while i < |sessions|
        invariant i <= |sessions|
        invariant best.None? ==> forall x: nat | x < i && Due(sessions[x], now) && x !in locked :: x in taken
        invariant best.Some? ==>
          && best.value < |sessions| && Due(sessions[best.value], now)
          && best.value !in locked && best.value !in taken
          && forall x: nat | x < i && Due(sessions[x], now) && x !in locked && x !in taken ::
               sessions[best.value].flushAt <= sessions[x].flushAt
      {
        if Due(sessions[i], now) && i !in locked && i !in taken
           && (best.None? || sessions[i].flushAt < sessions[best.value].flushAt) {
          best := Some(i);
        }
        i := i + 1;
      }
    }

    method ClaimSessionsForFlush(now: real, locked: set<nat>, limit: nat) returns (ids: seq<nat>)
      modifies this`sessions
      ensures FlushChoice(old(sessions), now, locked, limit, ids)
      ensures sessions == Claimed(old(sessions), ids)
      ensures |ids| <= limit && forall k, l | 0 <= k < l < |ids| :: ids[k] != ids[l]
      ensures forall k | 0 <= k < |ids| ::
                ids[k] < |sessions| && ids[k] !in locked && Overdue(old(sessions)[ids[k]], now)
      ensures forall x: nat | x < |old(sessions)| && Overdue(old(sessions)[x], now) && x !in locked && x !in ids ::
                |ids| == limit && forall k | 0 <= k < |ids| ::
                  old(sessions)[ids[k]].flushAt <= old(sessions)[x].flushAt
      ensures forall i | 0 <= i < |sessions| :: sessions[i] ==
                if i in ids then old(sessions)[i].(state := Processing) else old(sessions)[i]
    {
      ids := [];
      var more := true;
      while more && |ids| < limit
        invariant |ids| <= limit && sessions == old(sessions)
        invariant forall k | 0 <= k < |ids| ::
                    ids[k] < |sessions| && Due(sessions[ids[k]], now) && ids[k] !in locked
        invariant forall k, l | 0 <= k < l < |ids| :: ids[k] != ids[l]
        invariant forall x: nat | x < |sessions| && Due(sessions[x], now) && x !in locked && x !in ids ::
                    forall k | 0 <= k < |ids| :: sessions[ids[k]].flushAt <= sessions[x].flushAt
        invariant !more ==> forall x: nat | x < |sessions| && Due(sessions[x], now) && x !in locked :: x in ids
        decreases limit - |ids|, more
      {
        var best := NextToFlush(now, locked, ids);
        if best.Some? { ids := ids + [best.value]; } else { more := false; }
      }
      sessions := Claimed(sessions, ids);
      FlushIs(old(sessions), now, locked, limit, ids);
    }

    method TransitionToConfirming(id: nat, d: nat, now: real)
      modifies this`sessions
      ensures sessions == Change(old(sessions), id, Confirming(d, now))
      ensures if id < |old(sessions)| && old(sessions)[id].state == Processing then
                sessions == old(sessions)[id := old(sessions)[id].(
                  state := ConfirmingDeal, deal := Some(d), flushAt := now + 24.0 * 3600.0)]
              else sessions == old(sessions)
    {
      if id < |sessions| && sessions[id].state.Processing? {
        sessions := sessions[id := sessions[id].(state := ConfirmingDeal, deal := Some(d), flushAt := now + DAY)];
      }
    }

    method ConfirmDeal(id: nat, now: real)
      modifies this`sessions
      ensures sessions == Change(old(sessions), id, DealConfirmed(now))
      ensures if id < |old(sessions)| && old(sessions)[id].state == ConfirmingDeal then
                sessions == old(sessions)[id := old(sessions)[id].(
                  state := GapsPending, flushAt := now + 24.0 * 3600.0)]
              else sessions == old(sessions)
    {
      if id < |sessions| && sessions[id].state.ConfirmingDeal? {
        sessions := sessions[id := sessions[id].(state := GapsPending, flushAt := now + DAY)];
      }
    }

    method MarkComplete(id: nat)
      modifies this`sessions
      ensures sessions == Change(old(sessions), id, Completed())
      ensures if id < |old(sessions)| then
                sessions == old(sessions)[id := old(sessions)[id].(state := SessionState.Complete)]
              else sessions == old(sessions)
    {
      if id < |sessions| { sessions := sessions[id := sessions[id].(state := SessionState.Complete)]; }
    }

    method ParkSession(id: nat, note: Note)
      modifies this`sessions
      ensures sessions == Change(old(sessions), id, ParkedWith(note))
      ensures if id < |old(sessions)| && old(sessions)[id].state !in {SessionState.Complete, Cancelled} then
                sessions == old(sessions)[id := old(sessions)[id].(state := Parked, note := note)]
              else sessions == old(sessions)
    {
      if id < |sessions| && !sessions[id].state.Complete? && !sessions[id].state.Cancelled? {
        sessions := sessions[id := sessions[id].(state := Parked, note := note)];
      }
    }

    method EscalateSession(id: nat, note: Note)
      modifies this`sessions
      ensures sessions == Change(old(sessions), id, EscalatedWith(note))
      ensures if id < |old(sessions)| && old(sessions)[id].state !in {SessionState.Complete, Cancelled, Escalated} then
                sessions == old(sessions)[id := old(sessions)[id].(state := Escalated, note := note)]
              else sessions == old(sessions)
    {
      if id < |sessions| && sessions[id].state !in {SessionState.Complete, Cancelled, Escalated} {
        sessions := sessions[id := sessions[id].(state := Escalated, note := note)];
      }
    }

    method GetSessionFiles(id: nat, p: Projection) returns (r: seq<File>)
      ensures r == SessionFiles(files, id, p)
    {
      var rows := Select(files, InSession(id));
      r := Map(rows, Project(p));
    }
  }
}
