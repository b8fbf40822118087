/** What every run of the pipeline keeps, for both file projections and every environment: the session
    lifecycle, tenants, exactly-once evidence, no lost satisfaction, and completion safety. */
module PipelineSafety {
  import opened Wrappers
  import opened Rows
  import Api
  import opened Checklist
  import opened Sessions
  import opened Deals
  import opened Worker
  import DiPoll
  import OutboxRuns
  import opened Pipeline

  // ---- what a step may do to the rows there are -------------------------------------------------------

  /** A file keeps its identity; its evidence and its type, once set, stay. */
  ghost predicate FileKept(f: File, f': File) {
    && f'.tenant == f.tenant && f'.session == f.session && f'.wamid == f.wamid && f'.seqNo == f.seqNo
    && (f.document.Some? ==> f'.document == f.document)
    && (f.docType.Some? ==> f'.docType == f.docType)
  }

  ghost predicate FilesKept(fs: seq<File>, fs': seq<File>) {
    |fs| <= |fs'| && forall i | 0 <= i < |fs| :: FileKept(fs[i], fs'[i])
  }

  /** Some file classified x has this evidence. */
  ghost predicate Backed(fs: seq<File>, document: Option<nat>, x: DocType) {
    document.Some? && exists i :: 0 <= i < |fs| && BackedBy(fs[i], document, x)
  }

  predicate BackedBy(f: File, document: Option<nat>, x: DocType) { f.document == document && f.docType == Some(x) }

  /** An item stays, or is satisfied anew by a classified document. */
  ghost predicate ItemKept(k: (nat, DocType), items: Items, items': Items, fs': seq<File>)
    requires k in items
  {
    && k in items' && items'[k].requirement == items[k].requirement
    && (items'[k] == items[k] || (items'[k].satisfied && Backed(fs', items'[k].document, k.1)))
  }

  /** Items are never dropped; new ones belong to a new deal. */
  ghost predicate ItemsKept(x: Desk, x': Desk) {
    && (forall k | k in x.items :: ItemKept(k, x.items, x'.items, x'.files))
    && (forall k | k in x'.items && k !in x.items ::
          && |x.book.deals| <= k.0 < |x'.book.deals|
          && (x'.items[k].satisfied ==> Backed(x'.files, x'.items[k].document, k.1)))
  }

  ghost predicate Kept(s: State, s': State) {
    && Advance(s.desk.sessions, s'.desk.sessions)
    && FilesKept(s.desk.files, s'.desk.files)
    && DealsGrow(s.desk.book.deals, s'.desk.book.deals)
    && ItemsKept(s.desk, s'.desk)
    && s.evidence <= s'.evidence && |s.inbox| <= |s'.inbox|
    && s.hist.settled <= s'.hist.settled && s'.hist.inherited == s.hist.inherited
  }

  // ---- invariants ---------------------------------------------------------------------------------------

  ghost predicate UniqueEvidence(evidence: seq<string>) {
    forall i, j | 0 <= i < j < |evidence| :: evidence[i] != evidence[j]
  }

  ghost predicate Holds(s: State, document: nat, wamid: string) {
    document < |s.evidence| && s.evidence[document] == wamid
  }

  /** The file's session is there and of its tenant; its evidence is the one bound to its wamid; its type
      is what DI says of that evidence. */
  ghost predicate FileOk(e: Env, s: State, f: File) {
    && f.session < |s.desk.sessions| && f.tenant == s.desk.sessions[f.session].tenant
    && (f.document.Some? ==> Holds(s, f.document.value, f.wamid))
    && (f.docType.Some? ==> f.document.Some? && f.docType == e.di(f.document.value).docType)
  }

  ghost predicate SessionThere(s: State, sid: Option<nat>) { sid.Some? ==> sid.value < |s.desk.sessions| }

  ghost predicate TaskOk(e: Env, s: State, t: Task) {
    match t
    case InboxTask(row, _, _) => row < |s.inbox|
    case FetchTask(wanted, sid, _, ph) => SessionThere(s, sid) && FetchOk(s, wanted, ph)
    case PollTask(file, sid, evidence, _, ph) => SessionThere(s, sid) && PollOk(e, s, file, sid, evidence, ph)
    case ProcessTask(sid, _) => sid < |s.desk.sessions| && Rank(s.desk.sessions[sid].state) >= 1
    case Gone => true
  }

  ghost predicate FetchOk(s: State, wanted: Option<nat>, ph: FetchPhase) {
    && (wanted.Some? ==> wanted.value < |s.desk.files|)
    && (!ph.Starting? ==> wanted.Some?)
    && (ph.Posted? ==> Holds(s, ph.evidence, s.desk.files[wanted.value].wamid))
    && (ph.Deferring? ==> s.desk.files[wanted.value].document == Some(ph.evidence))
  }

  /** From Linking on, the file's type is persisted; a link that was read is the session's; and once the
      checklist is behind, a confirmed type is settled. */
  ghost predicate PollOk(e: Env, s: State, file: nat, sid: Option<nat>, evidence: nat, ph: PollPhase) {
    && file < |s.desk.files| && s.desk.files[file].document == Some(evidence)
    && (ph.Linking? || ph.Marking? ==>
        Typed(e.di(evidence).docType) && s.desk.files[file].docType == e.di(evidence).docType)
    && (ph.Marking? ==> sid.Some? && LinkOf(s, sid) == Some(ph.deal))
    && (ph.Counting? || ph.Nudging? ==> Accounted(s.hist, file, sid, e.di(evidence)))
  }

  ghost predicate Accounted(h: History, file: nat, sid: Option<nat>, x: DiAnswer) {
    x.confirmed && Typed(x.docType) && sid.Some? ==>
      || Settlement(file, sid.value, x.docType.value, true) in h.settled
      || Settlement(file, sid.value, x.docType.value, false) in h.settled
  }

  /** The deal a session is linked to is there, and of its tenant. */
  ghost predicate LinkOk(s: State, r: Session) {
    r.deal.Some? ==> r.deal.value < |s.desk.book.deals| && s.desk.book.deals[r.deal.value].tenant == r.tenant
  }

  ghost predicate UniqueContacts(cs: seq<Api.Contact>) { forall i, j | 0 <= i < j < |cs| :: cs[i].id != cs[j].id }

  /** The session's contact is there, and of its tenant. */
  ghost predicate Owned(cs: seq<Api.Contact>, r: Session) {
    exists c :: 0 <= c < |cs| && cs[c].id == r.contact && cs[c].tenant == r.tenant
  }

  /** No lost satisfaction, for one settled poll: if it saw the session linked, the session is, and then or
      if the file is the session's own, the linked deal's item is satisfied. */
  ghost predicate SettledOk(s: State, x: Settlement) {
    && x.file < |s.desk.files| && s.desk.files[x.file].docType == Some(x.docType)
    && s.desk.files[x.file].document.Some? && Typed(Some(x.docType))
    && x.session < |s.desk.sessions| && (x.linked ==> s.desk.sessions[x.session].deal.Some?)
    && ((x.linked || s.desk.files[x.file].session == x.session) && s.desk.sessions[x.session].deal.Some? ==>
          SatisfiedIfAsked(s.desk.items, s.desk.sessions[x.session].deal.value, x.docType))
  }

  ghost predicate SatisfiedIfAsked(items: Items, d: nat, x: DocType) { (d, x) in items ==> items[(d, x)].satisfied }

  ghost predicate CompletedOk(s: State, sid: nat)
    requires sid in s.hist.completed
  {
    s.hist.completed[sid] < |s.desk.book.deals| && Checklist.Complete(s.desk.items, s.hist.completed[sid])
  }

  ghost predicate CreatedOk(s: State, d: nat) {
    && d < |s.desk.book.deals| && ExactlyDefaults(s.desk.items, d, s.desk.book.deals[d].dealType)
    && (forall x: DocType | (d, x) in s.desk.items && s.desk.items[(d, x)].satisfied ::
          Backed(s.desk.files, s.desk.items[(d, x)].document, x))
  }

  ghost predicate Distinct(xs: seq<nat>) { forall i, j | 0 <= i < j < |xs| :: xs[i] != xs[j] }

  /** Everything in xs is a session that has reached this rank. */
  ghost predicate Reached(ss: seq<Session>, xs: seq<nat>, rank: nat) {
    forall k | 0 <= k < |xs| :: xs[k] < |ss| && Rank(ss[xs[k]].state) >= rank
  }

  ghost predicate TablesOk(e: Env, s: State) {
    && SessionsOk(s.desk.sessions) && UniqueWamids(s.desk.files) && UniqueEvidence(s.evidence) && UniqueInbox(s.inbox)
    && BookOk(s.desk.book) && KnownTypes(s.desk.items)
    && (forall i | 0 <= i < |s.desk.files| :: FileOk(e, s, s.desk.files[i]))
    && (forall i | 0 <= i < |s.desk.sessions| :: LinkOk(s, s.desk.sessions[i]))
    && (forall k | k in s.desk.items :: k.0 < |s.desk.book.deals|)
  }

  ghost predicate ContactsOk(s: State) {
    && UniqueContacts(s.db.contacts)
    && (forall i | 0 <= i < |s.desk.sessions| :: Owned(s.db.contacts, s.desk.sessions[i]))
  }

  ghost predicate TasksOk(e: Env, s: State) { forall i | 0 <= i < |s.tasks| :: TaskOk(e, s, s.tasks[i]) }

  ghost predicate HistoryOk(s: State) {
    && Distinct(s.hist.claimed) && Reached(s.desk.sessions, s.hist.claimed, 1)
    && Distinct(s.hist.linked) && Reached(s.desk.sessions, s.hist.linked, 2)
    && (forall x | x in s.hist.settled :: SettledOk(s, x))
    && (forall sid | sid in s.hist.completed :: CompletedOk(s, sid))
    && s.hist.inherited <= |s.desk.book.deals|
    && (forall d | s.hist.inherited <= d < |s.desk.book.deals| :: CreatedOk(s, d))
    && (forall i | 0 <= i < |s.desk.sessions| && s.desk.sessions[i].state == SessionState.Complete ::
        i in s.hist.completed)
  }

  ghost predicate Inv(e: Env, s: State) { TablesOk(e, s) && ContactsOk(s) && TasksOk(e, s) && HistoryOk(s) }

  // ---- stability ------------------------------------------------------------------------------------------

  lemma TaskKept(e: Env, s: State, s': State, t: Task)
    requires TaskOk(e, s, t) && Kept(s, s')
    ensures TaskOk(e, s', t)
  {
    match t
    case FetchTask(wanted, sid, _, ph) =>
      if wanted.Some? { assert FileKept(s.desk.files[wanted.value], s'.desk.files[wanted.value]); }
    case PollTask(file, sid, _, _, ph) =>
      assert FileKept(s.desk.files[file], s'.desk.files[file]);
      if sid.Some? { assert Moves(s.desk.sessions[sid.value], s'.desk.sessions[sid.value]); }
    case ProcessTask(sid, _) => assert Moves(s.desk.sessions[sid], s'.desk.sessions[sid]);
    case _ =>
  }

  lemma FileOkKept(e: Env, s: State, s': State, f: File)
    requires FileOk(e, s, f) && Kept(s, s')
    ensures FileOk(e, s', f)
  {
    assert Moves(s.desk.sessions[f.session], s'.desk.sessions[f.session]);
  }

  lemma BackedKept(fs: seq<File>, fs': seq<File>, document: Option<nat>, x: DocType)
    requires Backed(fs, document, x) && FilesKept(fs, fs')
    ensures Backed(fs', document, x)
  {
    var i :| 0 <= i < |fs| && BackedBy(fs[i], document, x);
    assert FileKept(fs[i], fs'[i]);
    assert BackedBy(fs'[i], document, x);
  }

  lemma CompleteKept(x: Desk, x': Desk, d: nat)
    requires Checklist.Complete(x.items, d) && ItemsKept(x, x') && d < |x.book.deals|
    ensures Checklist.Complete(x'.items, d)
  {
    var y: DocType :| (d, y) in x.items && x.items[(d, y)].requirement == Blocking;
    assert ItemKept((d, y), x.items, x'.items, x'.files);
    forall y: DocType ensures !IsMissing(x'.items, d, y) {
      if (d, y) in x.items {
        assert ItemKept((d, y), x.items, x'.items, x'.files);
        assert !IsMissing(x.items, d, y);
      }
    }
  }

  lemma CreatedKept(s: State, s': State, d: nat)
    requires CreatedOk(s, d) && Kept(s, s')
    ensures CreatedOk(s', d)
  {
    assert DealKept(s.desk.book.deals[d], s'.desk.book.deals[d]);
    var t := s.desk.book.deals[d].dealType;
    forall x: DocType
      ensures (d, x) in s'.desk.items <==> (d, x) in s.desk.items
      ensures (d, x) in s.desk.items ==> s'.desk.items[(d, x)].requirement == s.desk.items[(d, x)].requirement
    {
      if (d, x) in s.desk.items { assert ItemKept((d, x), s.desk.items, s'.desk.items, s'.desk.files); }
    }
    assert ExactlyDefaults(s'.desk.items, d, t);
    forall x: DocType | (d, x) in s'.desk.items && s'.desk.items[(d, x)].satisfied
      ensures Backed(s'.desk.files, s'.desk.items[(d, x)].document, x)
    {
      assert ItemKept((d, x), s.desk.items, s'.desk.items, s'.desk.files);
      if s'.desk.items[(d, x)] == s.desk.items[(d, x)] {
        BackedKept(s.desk.files, s'.desk.files, s.desk.items[(d, x)].document, x);
      }
    }
  }

  /** A settled poll stays accounted for while its session keeps its link. */
  lemma SettledKept(s: State, s': State, x: Settlement)
    requires SettledOk(s, x) && Kept(s, s') && LinkOk(s, s.desk.sessions[x.session])
    requires s'.desk.sessions[x.session].deal == s.desk.sessions[x.session].deal
    ensures SettledOk(s', x)
  {
    assert FileKept(s.desk.files[x.file], s'.desk.files[x.file]);
    var r := s.desk.sessions[x.session];
    if r.deal.Some? && (r.deal.value, x.docType) in s'.desk.items {
      var k := (r.deal.value, x.docType);
      if k in s.desk.items { assert ItemKept(k, s.desk.items, s'.desk.items, s'.desk.files); }
    }
  }

  lemma ReachedKept(ss: seq<Session>, ss': seq<Session>, xs: seq<nat>, rank: nat)
    requires Reached(ss, xs, rank) && Advance(ss, ss')
    ensures Reached(ss', xs, rank)
  {
    forall k | 0 <= k < |xs| ensures xs[k] < |ss'| && Rank(ss'[xs[k]].state) >= rank {
      assert Moves(ss[xs[k]], ss'[xs[k]]);
    }
  }

  lemma OwnedKept(cs: seq<Api.Contact>, cs': seq<Api.Contact>, r: Session, r': Session)
    requires Owned(cs, r) && r'.contact == r.contact && r'.tenant == r.tenant && |cs| <= |cs'|
    requires forall c | 0 <= c < |cs| :: cs'[c].id == cs[c].id && cs'[c].tenant == cs[c].tenant
    ensures Owned(cs', r')
  {
    var c :| 0 <= c < |cs| && cs[c].id == r.contact && cs[c].tenant == r.tenant;
    assert cs'[c].id == r'.contact;
  }

  lemma KeptTrans(x: State, y: State, z: State)
    requires Kept(x, y) && Kept(y, z)
    ensures Kept(x, z)
  {
    AdvanceTrans(x.desk.sessions, y.desk.sessions, z.desk.sessions);
    forall i | 0 <= i < |x.desk.files| ensures FileKept(x.desk.files[i], z.desk.files[i]) {
      assert FileKept(x.desk.files[i], y.desk.files[i]) && FileKept(y.desk.files[i], z.desk.files[i]);
    }
    DealsGrowTrans(x.desk.book.deals, y.desk.book.deals, z.desk.book.deals);
    ItemsTrans(x.desk, y.desk, z.desk);
  }

  lemma ItemsTrans(x: Desk, y: Desk, z: Desk)
    requires ItemsKept(x, y) && ItemsKept(y, z) && FilesKept(y.files, z.files)
    requires |x.book.deals| <= |y.book.deals| <= |z.book.deals|
    ensures ItemsKept(x, z)
  {
    forall k | k in x.items ensures ItemKept(k, x.items, z.items, z.files) {
      assert ItemKept(k, x.items, y.items, y.files) && ItemKept(k, y.items, z.items, z.files);
      if y.items[k] != x.items[k] { BackedKept(y.files, z.files, y.items[k].document, k.1); }
    }
    forall k | k in z.items && k !in x.items
      ensures |x.book.deals| <= k.0 < |z.book.deals|
      ensures z.items[k].satisfied ==> Backed(z.files, z.items[k].document, k.1)
    {
      if k in y.items {
        assert ItemKept(k, y.items, z.items, z.files);
        if y.items[k].satisfied { BackedKept(y.files, z.files, y.items[k].document, k.1); }
      }
    }
  }

  // ---- steps that leave most of the state alone -------------------------------------------------------------

  /** Every task is an old one or in order. */
  ghost predicate NewTasksOk(e: Env, s: State, s': State) {
    forall i | 0 <= i < |s'.tasks| :: (i < |s.tasks| && s'.tasks[i] == s.tasks[i]) || TaskOk(e, s', s'.tasks[i])
  }

  lemma TasksFollow(e: Env, s: State, s': State)
    requires TasksOk(e, s) && Kept(s, s') && NewTasksOk(e, s, s')
    ensures TasksOk(e, s')
  {
    forall i | 0 <= i < |s'.tasks| ensures TaskOk(e, s', s'.tasks[i]) {
      if i < |s.tasks| && s'.tasks[i] == s.tasks[i] { TaskKept(e, s, s', s.tasks[i]); }
    }
  }

  lemma SameDeskKept(s: State, s': State)
    requires s'.desk == s.desk && s.evidence <= s'.evidence && |s.inbox| <= |s'.inbox|
    requires s.hist.settled <= s'.hist.settled && s'.hist.inherited == s.hist.inherited
    ensures Kept(s, s')
  {
    forall i | 0 <= i < |s.desk.sessions| ensures Moves(s.desk.sessions[i], s'.desk.sessions[i]) {}
  }

  /** Files and links stay in order where desk and evidence stay as they are. */
  lemma SameRowsOk(e: Env, s: State, s': State)
    requires TablesOk(e, s) && s'.desk == s.desk && s'.evidence == s.evidence
    ensures forall i | 0 <= i < |s'.desk.files| :: FileOk(e, s', s'.desk.files[i])
    ensures forall i | 0 <= i < |s'.desk.sessions| :: LinkOk(s', s'.desk.sessions[i])
  {
    forall i | 0 <= i < |s'.desk.files|
      ensures FileOk(e, s', s'.desk.files[i])
    {
      assert FileOk(e, s, s.desk.files[i]);
    }
    forall i | 0 <= i < |s'.desk.sessions|
      ensures LinkOk(s', s'.desk.sessions[i])
    {
      assert LinkOk(s, s.desk.sessions[i]);
    }
  }

  /** Only tasks, the inbox and the outbox change. */
  lemma TasksOnly(e: Env, s: State, s': State)
    requires Inv(e, s) && s' == s.(tasks := s'.tasks, inbox := s'.inbox, outbox := s'.outbox)
    requires |s.inbox| <= |s'.inbox| && UniqueInbox(s'.inbox) && NewTasksOk(e, s, s')
    ensures Inv(e, s') && Kept(s, s')
  {
    SameDeskKept(s, s');
    TasksFollow(e, s, s');
    SameRowsOk(e, s, s');
    HistoryFollows(s, s');
  }

  /** Links stay, nobody completes, and new sessions are unlinked. */
  ghost predicate LinksStay(ss: seq<Session>, ss': seq<Session>) {
    && |ss| <= |ss'|
    && (forall i | 0 <= i < |ss| ::
          && ss'[i].deal == ss[i].deal
          && (ss'[i].state == SessionState.Complete ==> ss[i].state == SessionState.Complete))
    && (forall i | |ss| <= i < |ss'| :: ss'[i].deal.None? && ss'[i].state == Collecting)
  }

  lemma HistoryFollows(s: State, s': State)
    requires HistoryOk(s) && Kept(s, s') && s'.hist == s.hist && LinksStay(s.desk.sessions, s'.desk.sessions)
    requires |s'.desk.book.deals| == |s.desk.book.deals|
    requires forall i | 0 <= i < |s.desk.sessions| :: LinkOk(s, s.desk.sessions[i])
    ensures HistoryOk(s')
  {
    ReachedKept(s.desk.sessions, s'.desk.sessions, s.hist.claimed, 1);
    ReachedKept(s.desk.sessions, s'.desk.sessions, s.hist.linked, 2);
    forall x | x in s'.hist.settled ensures SettledOk(s', x) { SettledKept(s, s', x); }
    forall sid | sid in s'.hist.completed ensures CompletedOk(s', sid) {
      assert CompletedOk(s, sid);
      CompleteKept(s.desk, s'.desk, s.hist.completed[sid]);
    }
    forall d | s.hist.inherited <= d < |s'.desk.book.deals| ensures CreatedOk(s', d) { CreatedKept(s, s', d); }
  }

  /** One file row changes, and audit-core may bind an evidence id. */
  lemma OneFile(e: Env, s: State, s': State, f: nat, file: File)
    requires Inv(e, s) && f < |s.desk.files|
    requires s' == s.(tasks := s'.tasks, evidence := s'.evidence, desk := s.desk.(files := s.desk.files[f := file]))
    requires s.evidence <= s'.evidence && UniqueEvidence(s'.evidence)
    requires FileKept(s.desk.files[f], file) && FileOk(e, s', file) && NewTasksOk(e, s, s')
    ensures Inv(e, s') && Kept(s, s')
  {
    forall i | 0 <= i < |s.desk.sessions| ensures Moves(s.desk.sessions[i], s'.desk.sessions[i]) {}
    assert Kept(s, s');
    TasksFollow(e, s, s');
    forall i | 0 <= i < |s'.desk.files| ensures FileOk(e, s', s'.desk.files[i]) {
      if i != f { FileOkKept(e, s, s', s.desk.files[i]); }
    }
    forall i | 0 <= i < |s'.desk.sessions|
      ensures LinkOk(s', s'.desk.sessions[i])
    {
      assert LinkOk(s, s.desk.sessions[i]);
    }
    HistoryFollows(s, s');
  }

  /** Sessions move on, keep their links, and none completes. */
  lemma SessionsOnly(e: Env, s: State, s': State)
    requires Inv(e, s)
    requires s' == s.(tasks := s'.tasks, desk := s.desk.(sessions := s'.desk.sessions))
    requires |s'.desk.sessions| == |s.desk.sessions| && Advance(s.desk.sessions, s'.desk.sessions)
    requires SessionsOk(s'.desk.sessions)
    requires LinksStay(s.desk.sessions, s'.desk.sessions) && NewTasksOk(e, s, s')
    ensures Inv(e, s') && Kept(s, s')
  {
    assert Kept(s, s');
    TasksFollow(e, s, s');
    SessionsFollow(e, s, s');
    HistoryFollows(s, s');
  }

  lemma SessionsFollow(e: Env, s: State, s': State)
    requires TablesOk(e, s) && ContactsOk(s) && Kept(s, s') && s'.db == s.db && |s'.desk.sessions| == |s.desk.sessions|
    requires LinksStay(s.desk.sessions, s'.desk.sessions) && s'.desk.files == s.desk.files
    ensures forall i | 0 <= i < |s'.desk.files| :: FileOk(e, s', s'.desk.files[i])
    ensures forall i | 0 <= i < |s'.desk.sessions| :: LinkOk(s', s'.desk.sessions[i])
    ensures ContactsOk(s')
  {
    forall i | 0 <= i < |s'.desk.files|
      ensures FileOk(e, s', s'.desk.files[i])
    {
      FileOkKept(e, s, s', s.desk.files[i]);
    }
    forall i | 0 <= i < |s'.desk.sessions|
      ensures LinkOk(s', s'.desk.sessions[i]) && Owned(s'.db.contacts, s'.desk.sessions[i])
    {
      assert Moves(s.desk.sessions[i], s'.desk.sessions[i]) && LinkOk(s, s.desk.sessions[i]);
      if s.desk.sessions[i].deal.Some? {
        assert DealKept(s.desk.book.deals[s.desk.sessions[i].deal.value],
                        s'.desk.book.deals[s.desk.sessions[i].deal.value]);
      }
      OwnedKept(s.db.contacts, s'.db.contacts, s.desk.sessions[i], s'.desk.sessions[i]);
    }
  }

  /** One session row changes by a transition that neither links nor completes. */
  lemma OneSession(e: Env, s: State, s': State, sid: Option<nat>, change: Session -> Session)
    requires Inv(e, s) && s' == OnSession(s, sid, change).(tasks := s'.tasks) && NewTasksOk(e, s, s')
    requires forall r: Session | DealOk(r) :: Moves(r, change(r)) && DealOk(change(r)) && change(r).deal == r.deal
    requires forall r: Session | change(r).state == SessionState.Complete :: r.state == SessionState.Complete
    ensures Inv(e, s') && Kept(s, s')
  {
    if sid.Some? {
      ChangedSession(s.desk.sessions, sid.value, change);
      SessionsOnly(e, s, s');
    } else {
      TasksOnly(e, s, s');
    }
  }

  lemma ChangedSession(ss: seq<Session>, id: nat, change: Session -> Session)
    requires SessionsOk(ss)
    requires forall r: Session | DealOk(r) :: Moves(r, change(r)) && DealOk(change(r)) && change(r).deal == r.deal
    requires forall r: Session | change(r).state == SessionState.Complete :: r.state == SessionState.Complete
    ensures var ss' := Change(ss, id, change);
      |ss'| == |ss| && Advance(ss, ss') && SessionsOk(ss') && LinksStay(ss, ss')
  {
    if id < |ss| { assert DealOk(ss[id]); }
    ChangeKeeps(ss, id, change);
  }

  // ---- the steps, one by one ----------------------------------------------------------------------------------

  /** No /v1 call changes a contact's id or tenant, or repeats an id. */
  lemma ApiKeepsContacts(db: Api.Db, t: nat, call: Api.Call)
    requires UniqueContacts(db.contacts)
    ensures var cs' := Api.Answer(db, t, call).0.contacts;
      && UniqueContacts(cs') && |db.contacts| <= |cs'|
      && (forall c | 0 <= c < |db.contacts| :: cs'[c].id == db.contacts[c].id && cs'[c].tenant == db.contacts[c].tenant)
  {
    match call
    case PutContact(phone, user, orgUnit, status, locale, newId) =>
      if First(db.contacts, Api.ContactPhone(phone)).Some? {
        ContactChange(db.contacts, Api.ContactPhone(phone), Api.Rebind(user, orgUnit, status, locale));
      } else if First(db.contacts, Api.ContactId(newId)).None? {
        forall c | 0 <= c < |db.contacts|
          ensures db.contacts[c].id != newId
        {
          assert !Api.ContactId(newId)(db.contacts[c]);
        }
      }
    case PatchContact(id, p) => ContactChange(db.contacts, Api.ContactKey(id, t), Api.PatchContactWith(p));
    case RevokeContact(id) => ContactChange(db.contacts, Api.ContactKey(id, t), Api.Revoke());
    case _ =>
  }

  lemma ContactChange(cs: seq<Api.Contact>, where: Api.Contact -> bool, change: Api.Contact -> Api.Contact)
    requires UniqueContacts(cs) && forall c: Api.Contact :: change(c).id == c.id && change(c).tenant == c.tenant
    ensures var cs' := UpdateFirst(cs, where, change);
      && UniqueContacts(cs')
      && (forall c | 0 <= c < |cs| :: cs'[c].id == cs[c].id && cs'[c].tenant == cs[c].tenant)
  {
    if First(cs, where).Some? {
      var k := UpdateFirstAt(cs, where, change);
    } else {
      UpdateFirstNone(cs, where, change);
    }
  }

  lemma AdminSafe(e: Env, s: State, t: nat, call: Api.Call)
    requires Inv(e, s)
    ensures var s' := s.(db := Api.Answer(s.db, t, call).0); Inv(e, s') && Kept(s, s')
  {
    var s' := s.(db := Api.Answer(s.db, t, call).0);
    SameDeskKept(s, s');
    ApiKeepsContacts(s.db, t, call);
    forall i | 0 <= i < |s'.desk.sessions| ensures Owned(s'.db.contacts, s'.desk.sessions[i]) {
      OwnedKept(s.db.contacts, s'.db.contacts, s.desk.sessions[i], s'.desk.sessions[i]);
    }
    TasksFollow(e, s, s');
    SameRowsOk(e, s, s');
    HistoryFollows(s, s');
  }

  lemma WebhookSafe(e: Env, s: State, n: Option<string>, p: Payload, ok: bool)
    requires Inv(e, s)
    ensures Inv(e, WebhookStep(s, n, p, ok)) && Kept(s, WebhookStep(s, n, p, ok))
  {
    InsertDeduplicates(s.inbox, n, p, ok);
    TasksOnly(e, s, WebhookStep(s, n, p, ok));
  }

  lemma MarkRowSafe(e: Env, s: State, i: nat)
    requires Inv(e, s) && Enabled(e, s, MarkRow(i))
    ensures Inv(e, MarkRowStep(s, i)) && Kept(s, MarkRowStep(s, i))
  {
    TasksOnly(e, s, MarkRowStep(s, i));
  }

  lemma StartSafe(e: Env, s: State, i: nat, journey: bool)
    requires Inv(e, s) && Enabled(e, s, Start(i, journey))
    ensures Inv(e, StartStep(s, i, journey)) && Kept(s, StartStep(s, i, journey))
  {
    var t, s' := s.tasks[i], StartStep(s, i, journey);
    assert TaskOk(e, s, t);
    if !HasFile(s, t) {
      TasksOnly(e, s, s');
    } else {
      var f := t.wanted.value;
      assert FileOk(e, s, s.desk.files[f]);
      OneFile(e, s, s', f, s'.desk.files[f]);
    }
  }

  lemma DownloadSafe(e: Env, s: State, i: nat, ok: bool, quarantine: bool, retryable: bool)
    requires Inv(e, s) && Enabled(e, s, Download(i, ok, quarantine, retryable))
    ensures var s' := DownloadStep(s, i, ok, quarantine, retryable); Inv(e, s') && Kept(s, s')
  {
    var s', f := DownloadStep(s, i, ok, quarantine, retryable), s.tasks[i].wanted.value;
    assert TaskOk(e, s, s.tasks[i]) && FileOk(e, s, s.desk.files[f]);
    OneFile(e, s, s', f, s'.desk.files[f]);
  }

  lemma BindUnique(evidence: seq<string>, wamid: string)
    requires UniqueEvidence(evidence)
    ensures UniqueEvidence(Bind(evidence, wamid).0)
  {}

  lemma PostSafe(e: Env, s: State, i: nat, reached: bool, ok: bool)
    requires Inv(e, s) && Enabled(e, s, Post(i, reached, ok))
    ensures var s' := PostStep(s, i, reached, ok); Inv(e, s') && Kept(s, s')
  {
    var s', f := PostStep(s, i, reached, ok), s.tasks[i].wanted.value;
    assert TaskOk(e, s, s.tasks[i]) && FileOk(e, s, s.desk.files[f]);
    BindUnique(s.evidence, s.desk.files[f].wamid);
    OneFile(e, s, s', f, s'.desk.files[f]);
  }

  lemma CommitSafe(e: Env, s: State, i: nat)
    requires Inv(e, s) && Enabled(e, s, Commit(i))
    ensures Inv(e, CommitStep(s, i)) && Kept(s, CommitStep(s, i))
  {
    var s', f := CommitStep(s, i), s.tasks[i].wanted.value;
    assert TaskOk(e, s, s.tasks[i]) && FileOk(e, s, s.desk.files[f]);
    OneFile(e, s, s', f, s'.desk.files[f]);
  }

  lemma PersistSafe(e: Env, s: State, i: nat, fetched: Option<BookingFields>)
    requires Inv(e, s) && Enabled(e, s, Persist(i, fetched))
    ensures Inv(e, PersistStep(e, s, i, fetched)) && Kept(s, PersistStep(e, s, i, fetched))
  {
    var s', f := PersistStep(e, s, i, fetched), s.tasks[i].file;
    assert TaskOk(e, s, s.tasks[i]) && FileOk(e, s, s.desk.files[f]);
    OneFile(e, s, s', f, s'.desk.files[f]);
  }

  lemma DeferSafe(e: Env, s: State, i: nat)
    requires Inv(e, s) && Enabled(e, s, Defer(i))
    ensures Inv(e, DeferStep(s, i)) && Kept(s, DeferStep(s, i))
  {
    assert TaskOk(e, s, s.tasks[i]);
    TasksOnly(e, s, DeferStep(s, i));
  }

  lemma PollSafe(e: Env, s: State, i: nat, o: DiPoll.PollOutcome)
    requires Inv(e, s) && InPoll(s, i, Asking)
    ensures Inv(e, PollStep(s, i, o)) && Kept(s, PollStep(s, i, o))
  {
    assert TaskOk(e, s, s.tasks[i]);
    TasksOnly(e, s, PollStep(s, i, o));
  }

  lemma CountSafe(e: Env, s: State, i: nat)
    requires Inv(e, s) && InPoll(s, i, Counting)
    ensures Inv(e, CountStep(s, i)) && Kept(s, CountStep(s, i))
  {
    assert TaskOk(e, s, s.tasks[i]);
    TasksOnly(e, s, CountStep(s, i));
  }

  /** Starting again or ending is in order for any task. */
  lemma RestartSafe(e: Env, s: State, i: nat, t: Task)
    requires Inv(e, s) && At(s, i)
    requires t == Gone || (!s.tasks[i].PollTask? && !s.tasks[i].Gone? && t == Raised(s.tasks[i]))
    ensures Inv(e, Next(s, i, t)) && Kept(s, Next(s, i, t))
  {
    assert TaskOk(e, s, s.tasks[i]);
    TasksOnly(e, s, Next(s, i, t));
  }

  lemma OutboxSafe(e: Env, s: State, outbox: OutboxRuns.State)
    requires Inv(e, s)
    ensures Inv(e, s.(outbox := outbox)) && Kept(s, s.(outbox := outbox))
  {
    TasksOnly(e, s, s.(outbox := outbox));
  }

  lemma OperatorSafe(e: Env, s: State, sid: nat, escalate: bool, note: Note)
    requires Inv(e, s)
    ensures var s' := OnSession(s, Some(sid), if escalate then EscalatedWith(note) else DealConfirmed(s.outbox.now));
      Inv(e, s') && Kept(s, s')
  {
    if escalate { EscalateSafe(e, s, sid, note); } else { ConfirmSafe(e, s, sid); }
  }

  lemma EscalateSafe(e: Env, s: State, sid: nat, note: Note)
    requires Inv(e, s)
    ensures var s' := OnSession(s, Some(sid), EscalatedWith(note)); Inv(e, s') && Kept(s, s')
  {
    OneSession(e, s, OnSession(s, Some(sid), EscalatedWith(note)), Some(sid), EscalatedWith(note));
  }

  lemma ConfirmSafe(e: Env, s: State, sid: nat)
    requires Inv(e, s)
    ensures var s' := OnSession(s, Some(sid), DealConfirmed(s.outbox.now)); Inv(e, s') && Kept(s, s')
  {
    OneSession(e, s, OnSession(s, Some(sid), DealConfirmed(s.outbox.now)), Some(sid), DealConfirmed(s.outbox.now));
  }

  lemma NudgeSafe(e: Env, s: State, i: nat, now: real)
    requires Inv(e, s) && InPoll(s, i, Nudging)
    ensures var s' := Next(OnSession(s, s.tasks[i].session, Nudged(now)), i, Gone); Inv(e, s') && Kept(s, s')
  {
    OneSession(e, s, Next(OnSession(s, s.tasks[i].session, Nudged(now)), i, Gone), s.tasks[i].session, Nudged(now));
  }

  lemma ParkSafe(e: Env, s: State, i: nat)
    requires Inv(e, s) && InPoll(s, i, Parking)
    ensures var s' := Next(OnSession(s, s.tasks[i].session, SlaParked()), i, Gone); Inv(e, s') && Kept(s, s')
  {
    OneSession(e, s, Next(OnSession(s, s.tasks[i].session, SlaParked()), i, Gone), s.tasks[i].session, SlaParked());
  }

  /** Nothing but the history depends on the history. */
  lemma HistOnly(e: Env, s: State, s': State)
    requires Inv(e, s) && s' == s.(hist := s'.hist)
    requires s.hist.settled <= s'.hist.settled && s'.hist.inherited == s.hist.inherited
    ensures TablesOk(e, s') && ContactsOk(s') && TasksOk(e, s')
    ensures forall x | x in s.hist.settled :: SettledOk(s', x)
    ensures forall sid | sid in s.hist.completed ::
              s.hist.completed[sid] < |s.desk.book.deals| && Checklist.Complete(s.desk.items, s.hist.completed[sid])
    ensures forall d | s.hist.inherited <= d < |s.desk.book.deals| :: CreatedOk(s', d)
  {
    SameDeskKept(s, s');
    TasksFollow(e, s, s');
    SameRowsOk(e, s, s');
    forall x | x in s.hist.settled ensures SettledOk(s', x) { assert SettledOk(s, x); }
    forall sid | sid in s.hist.completed
      ensures s.hist.completed[sid] < |s.desk.book.deals| && Checklist.Complete(s.desk.items, s.hist.completed[sid])
    {
      assert CompletedOk(s, sid);
    }
    forall d | s.hist.inherited <= d < |s.desk.book.deals| ensures CreatedOk(s', d) { assert CreatedOk(s, d); }
  }

  lemma FlushSafe(e: Env, s: State, ids: seq<nat>, n: nat)
    requires Inv(e, s) && Enabled(e, s, Flush(ids, n))
    ensures Inv(e, FlushStep(s, ids, n)) && Kept(s, FlushStep(s, ids, n))
  {
    var s' := FlushStep(s, ids, n);
    FlushTables(e, s, ids, n);
    ClaimKeeps(s.desk.sessions, s.outbox.now, FLUSH_LIMIT, ids);
    ClaimedOnce(s.desk.sessions, s.hist.claimed, ids);
    NoteClaimed(e, s'.(hist := s.hist), ids, s');
    KeptTrans(s, s'.(hist := s.hist), s');
  }

  lemma NoteClaimed(e: Env, s: State, ids: seq<nat>, s': State)
    requires Inv(e, s) && s' == s.(hist := s.hist.(claimed := s.hist.claimed + ids))
    requires Distinct(s'.hist.claimed) && Reached(s.desk.sessions, ids, 1)
    ensures Inv(e, s') && Kept(s, s')
  {
    SameDeskKept(s, s');
    HistOnly(e, s, s');
  }

  /** The flush but for its history. */
  lemma FlushTables(e: Env, s: State, ids: seq<nat>, n: nat)
    requires Inv(e, s) && Enabled(e, s, Flush(ids, n))
    ensures var s1 := FlushStep(s, ids, n).(hist := s.hist); Inv(e, s1) && Kept(s, s1)
  {
    var s1 := FlushStep(s, ids, n).(hist := s.hist);
    ClaimKeeps(s.desk.sessions, s.outbox.now, FLUSH_LIMIT, ids);
    FlushTasksOk(e, s, s1, ids[..n]);
    SessionsOnly(e, s, s1);
  }

  lemma FlushTasksOk(e: Env, s: State, s': State, ids: seq<nat>)
    requires s'.tasks == s.tasks + ProcessTasks(ids)
    requires forall k | 0 <= k < |ids| :: ids[k] < |s'.desk.sessions| && Rank(s'.desk.sessions[ids[k]].state) == 1
    ensures NewTasksOk(e, s, s')
  {}

  /** A due session has not been claimed before. */
  lemma ClaimedOnce(ss: seq<Session>, claimed: seq<nat>, ids: seq<nat>)
    requires Distinct(claimed) && Reached(ss, claimed, 1) && Distinct(ids)
    requires forall k | 0 <= k < |ids| :: ids[k] < |ss| && Rank(ss[ids[k]].state) == 0
    ensures Distinct(claimed + ids)
  {
    forall k, l | 0 <= k < |claimed| && 0 <= l < |ids| ensures claimed[k] != ids[l] {
      assert Rank(ss[claimed[k]].state) >= 1 && Rank(ss[ids[l]].state) == 0;
    }
  }

  /** A settled poll that is accounted for may be noted. */
  lemma NoteSettled(e: Env, s: State, x: Settlement)
    requires Inv(e, s) && SettledOk(s, x)
    ensures var s' := s.(hist := s.hist.(settled := s.hist.settled + {x})); Inv(e, s') && Kept(s, s')
  {
    var s' := s.(hist := s.hist.(settled := s.hist.settled + {x}));
    SameDeskKept(s, s');
    HistOnly(e, s, s');
  }

  lemma ReadLinkSafe(e: Env, s: State, i: nat)
    requires Inv(e, s) && Enabled(e, s, ReadLink(i))
    ensures Inv(e, ReadLinkStep(e, s, i)) && Kept(s, ReadLinkStep(e, s, i))
  {
    var t := s.tasks[i];
    assert TaskOk(e, s, t);
    match LinkOf(s, t.session)
    case Some(d) => TasksOnly(e, s, ReadLinkStep(e, s, i));
    case None =>
      if t.session.Some? {
        var x := Settlement(t.file, t.session.value, e.di(t.evidence).docType.value, false);
        var s1 := s.(hist := s.hist.(settled := s.hist.settled + {x}));
        NoteSettled(e, s, x);
        TasksOnly(e, s1, ReadLinkStep(e, s, i));
        KeptTrans(s, s1, ReadLinkStep(e, s, i));
      } else {
        TasksOnly(e, s, ReadLinkStep(e, s, i));
      }
  }

  /** An item is satisfied by a classified document. */
  lemma MarkKept(items: Items, d: nat, x: DocType, document: nat, fs: seq<File>)
    requires Backed(fs, Some(document), x)
    ensures MarkSpec(items, d, x, document).Keys == items.Keys
    ensures forall k | k in items :: ItemKept(k, items, MarkSpec(items, d, x, document), fs)
    ensures SatisfiedIfAsked(MarkSpec(items, d, x, document), d, x)
  {}

  lemma MarkItemSafe(e: Env, s: State, i: nat)
    requires Inv(e, s) && Enabled(e, s, MarkItem(i))
    ensures Inv(e, MarkItemStep(e, s, i)) && Kept(s, MarkItemStep(e, s, i))
  {
    var t := s.tasks[i];
    assert TaskOk(e, s, t);
    var s2 := MarkedAndSettled(e, s, t);
    TasksOnly(e, s2, MarkItemStep(e, s, i));
    KeptTrans(s, s2, MarkItemStep(e, s, i));
  }

  lemma MarkedAndSettled(e: Env, s: State, t: Task) returns (s2: State)
    requires Inv(e, s) && TaskOk(e, s, t) && t.PollTask? && t.polling.Marking?
    ensures Inv(e, s2) && Kept(s, s2) && t.session.Some? && e.di(t.evidence).docType.Some?
    ensures var x := e.di(t.evidence).docType.value;
      s2 == s.(desk := s.desk.(items := MarkSpec(s.desk.items, t.polling.deal, x, t.evidence)),
               hist := s.hist.(settled := s.hist.settled + {Settlement(t.file, t.session.value, x, true)}))
  {
    var x := e.di(t.evidence).docType.value;
    assert BackedBy(s.desk.files[t.file], Some(t.evidence), x);
    MarkKept(s.desk.items, t.polling.deal, x, t.evidence, s.desk.files);
    var s1 := s.(desk := s.desk.(items := MarkSpec(s.desk.items, t.polling.deal, x, t.evidence)));
    ItemsOnly(e, s, s1);
    var y := Settlement(t.file, t.session.value, x, true);
    NoteSettled(e, s1, y);
    s2 := s1.(hist := s1.hist.(settled := s1.hist.settled + {y}));
    KeptTrans(s, s1, s2);
  }

  /** Only items change, and no item is added. */
  lemma ItemsOnly(e: Env, s: State, s': State)
    requires Inv(e, s) && s' == s.(tasks := s'.tasks, desk := s.desk.(items := s'.desk.items))
    requires s'.desk.items.Keys == s.desk.items.Keys && NewTasksOk(e, s, s')
    requires forall k | k in s.desk.items :: ItemKept(k, s.desk.items, s'.desk.items, s.desk.files)
    ensures Inv(e, s') && Kept(s, s')
  {
    forall i | 0 <= i < |s.desk.sessions| ensures Moves(s.desk.sessions[i], s'.desk.sessions[i]) {}
    forall k | k in s'.desk.items ensures k in s.desk.items { assert k in s'.desk.items.Keys; }
    assert Kept(s, s');
    TasksFollow(e, s, s');
    SessionsFollow(e, s, s');
    HistoryFollows(s, s');
  }

  // ---- a webhook's files ------------------------------------------------------------------------------------

  /** The session a resolved message goes to is the contact's, and of the tenant the route belongs to. */
  lemma SessionOfContext(s: State, phoneNumberId: Option<string>, sender: Option<string>)
    requires ContactsOk(s) && SessionsOk(s.desk.sessions) && ResolveSpec(s.db, phoneNumberId, sender).Known?
    ensures var ctx := ResolveSpec(s.db, phoneNumberId, sender).ctx;
      var (ss, sid) := GetOrCreateSpec(s.desk.sessions, ctx.tenant, ctx.contact, ctx.orgUnit, s.outbox.now);
      sid < |ss| && ss[sid].tenant == ctx.tenant && Owned(s.db.contacts, ss[sid])
  {
    var ctx := ResolveSpec(s.db, phoneNumberId, sender).ctx;
    var (ss, sid) := GetOrCreateSpec(s.desk.sessions, ctx.tenant, ctx.contact, ctx.orgUnit, s.outbox.now);
    GetOrCreateKeeps(s.desk.sessions, ctx.tenant, ctx.contact, ctx.orgUnit, s.outbox.now);
    ResolvedIsCoherent(s.db, phoneNumberId, sender);
    var c :| c in s.db.contacts && c.id == ctx.contact && c.tenant == ctx.tenant;
    var k :| 0 <= k < |s.db.contacts| && s.db.contacts[k] == c;
    if sid < |s.desk.sessions| {
      assert Owned(s.db.contacts, s.desk.sessions[sid]);
      var j :| 0 <= j < |s.db.contacts| && s.db.contacts[j].id == ctx.contact
          && s.db.contacts[j].tenant == ss[sid].tenant;
      assert j == k;
    }
  }

  /** What the inbox transaction does to sessions and files. */
  ghost predicate Registered(s: State, tenant: nat, sid: nat, s': State) {
    && Advance(s.desk.sessions, s'.desk.sessions) && SessionsOk(s'.desk.sessions)
    && LinksStay(s.desk.sessions, s'.desk.sessions)
    && sid < |s'.desk.sessions| && s'.desk.sessions[sid].tenant == tenant
    && (forall i | |s.desk.sessions| <= i < |s'.desk.sessions| :: Owned(s.db.contacts, s'.desk.sessions[i]))
    && s.desk.files <= s'.desk.files && UniqueWamids(s'.desk.files)
    && (forall i | |s.desk.files| <= i < |s'.desk.files| :: NewFile(s'.desk.files[i], tenant, sid))
  }

  lemma RegisteredSafe(e: Env, s: State, tenant: nat, sid: nat, s': State)
    requires Inv(e, s) && Registered(s, tenant, sid, s') && NewTasksOk(e, s, s')
    requires s' == s.(tasks := s'.tasks, desk := s.desk.(sessions := s'.desk.sessions, files := s'.desk.files))
    ensures Inv(e, s') && Kept(s, s')
  {
    forall i | 0 <= i < |s.desk.files| ensures FileKept(s.desk.files[i], s'.desk.files[i]) {}
    assert Kept(s, s');
    TasksFollow(e, s, s');
    forall i | 0 <= i < |s'.desk.files| ensures FileOk(e, s', s'.desk.files[i]) {
      if i < |s.desk.files| {
        FileOkKept(e, s, s', s.desk.files[i]);
      } else {
        assert NewFile(s'.desk.files[i], tenant, sid);
      }
    }
    forall i | 0 <= i < |s'.desk.sessions|
      ensures LinkOk(s', s'.desk.sessions[i]) && Owned(s'.db.contacts, s'.desk.sessions[i])
    {
      if i < |s.desk.sessions| {
        assert Moves(s.desk.sessions[i], s'.desk.sessions[i]) && LinkOk(s, s.desk.sessions[i]);
        OwnedKept(s.db.contacts, s'.db.contacts, s.desk.sessions[i], s'.desk.sessions[i]);
      }
    }
    HistoryFollows(s, s');
  }

  lemma ReceivedIsRegistered(s: State, phoneNumberId: Option<string>, sender: Option<string>, ms: seq<Msg>, s': State)
    requires ContactsOk(s) && SessionsOk(s.desk.sessions) && UniqueWamids(s.desk.files)
    requires ResolveSpec(s.db, phoneNumberId, sender).Known?
    requires var ctx := ResolveSpec(s.db, phoneNumberId, sender).ctx;
      var (ss, sid) := GetOrCreateSpec(s.desk.sessions, ctx.tenant, ctx.contact, ctx.orgUnit, s.outbox.now);
      var x := ReceiveAll(Intake(ss, s.desk.files, MaxSeq(s.desk.files, sid), []), ctx.tenant, sid, s.outbox.now, ms);
      s'.desk.sessions == x.sessions && s'.desk.files == x.files
    ensures var ctx := ResolveSpec(s.db, phoneNumberId, sender).ctx;
      var (ss, sid) := GetOrCreateSpec(s.desk.sessions, ctx.tenant, ctx.contact, ctx.orgUnit, s.outbox.now);
      var start := Intake(ss, s.desk.files, MaxSeq(s.desk.files, sid), []);
      && Taken(start, sid, ctx.tenant, ReceiveAll(start, ctx.tenant, sid, s.outbox.now, ms))
      && Registered(s, ctx.tenant, sid, s')
  {
    var ctx := ResolveSpec(s.db, phoneNumberId, sender).ctx;
    var (ss, sid) := GetOrCreateSpec(s.desk.sessions, ctx.tenant, ctx.contact, ctx.orgUnit, s.outbox.now);
    var start := Intake(ss, s.desk.files, MaxSeq(s.desk.files, sid), []);
    var x := ReceiveAll(start, ctx.tenant, sid, s.outbox.now, ms);
    GetOrCreateKeeps(s.desk.sessions, ctx.tenant, ctx.contact, ctx.orgUnit, s.outbox.now);
    SessionOfContext(s, phoneNumberId, sender);
    ReceiveKeeps(start, ctx.tenant, sid, s.outbox.now, ms);
    AdvanceTrans(s.desk.sessions, ss, x.sessions);
    StandingLinks(s.desk.sessions, ss, x.sessions);
    forall i | |s.desk.sessions| <= i < |x.sessions| ensures Owned(s.db.contacts, x.sessions[i]) {
      assert SameStanding(ss[i], x.sessions[i]);
      OwnedKept(s.db.contacts, s.db.contacts, ss[i], x.sessions[i]);
    }
    assert SameStanding(ss[sid], x.sessions[sid]);
  }

  lemma StandingLinks(ss: seq<Session>, ss1: seq<Session>, ss2: seq<Session>)
    requires ss <= ss1 && |ss2| == |ss1|
    requires forall i | |ss| <= i < |ss1| :: ss1[i].deal.None? && ss1[i].state == Collecting
    requires forall i | 0 <= i < |ss1| :: SameStanding(ss1[i], ss2[i])
    ensures LinksStay(ss, ss2)
  {
    forall i | 0 <= i < |ss2|
      ensures i < |ss| ==> ss2[i].deal == ss[i].deal && ss2[i].state == ss[i].state
      ensures i >= |ss| ==> ss2[i].deal.None? && ss2[i].state == Collecting
    {
      assert SameStanding(ss1[i], ss2[i]);
    }
  }

  lemma HandleSafe(e: Env, s: State, i: nat, after: Option<nat>)
    requires Inv(e, s) && Enabled(e, s, Handle(i, after))
    ensures Inv(e, HandleStep(s, i, after)) && Kept(s, HandleStep(s, i, after))
  {
    var row := s.inbox[s.tasks[i].row];
    if row.signatureOk && ResolveSpec(s.db, row.phoneNumberId, row.payload.sender).Known? && after.None? {
      HandleCommits(e, s, i, row);
    } else {
      HandleStays(e, s, i, after);
    }
  }

  /** Ignored, failed or rolled back: only tasks change. */
  lemma HandleStays(e: Env, s: State, i: nat, after: Option<nat>)
    requires Inv(e, s) && Enabled(e, s, Handle(i, after))
    requires var row := s.inbox[s.tasks[i].row];
      after.None? ==> !row.signatureOk || !ResolveSpec(s.db, row.phoneNumberId, row.payload.sender).Known?
    ensures Inv(e, HandleStep(s, i, after)) && Kept(s, HandleStep(s, i, after))
  {
    assert TaskOk(e, s, s.tasks[i]);
    TasksOnly(e, s, HandleStep(s, i, after));
  }

  lemma HandleCommits(e: Env, s: State, i: nat, row: InboxRow)
    requires Inv(e, s) && Enabled(e, s, Handle(i, None)) && row == s.inbox[s.tasks[i].row]
    requires row.signatureOk && ResolveSpec(s.db, row.phoneNumberId, row.payload.sender).Known?
    ensures Inv(e, HandleStep(s, i, None)) && Kept(s, HandleStep(s, i, None))
  {
    var s' := HandleStep(s, i, None);
    var ctx := ResolveSpec(s.db, row.phoneNumberId, row.payload.sender).ctx;
    ReceivedIsRegistered(s, row.phoneNumberId, row.payload.sender, row.payload.messages, s');
    var sid := GetOrCreateSpec(s.desk.sessions, ctx.tenant, ctx.contact, ctx.orgUnit, s.outbox.now).1;
    assert TaskOk(e, s, s.tasks[i]);
    HandleTasksOk(e, s, i, s', sid);
    RegisteredSafe(e, s, ctx.tenant, sid, s');
  }

  lemma HandleTasksOk(e: Env, s: State, i: nat, s': State, sid: nat)
    requires At(s, i) && s.tasks[i].InboxTask? && s.tasks[i].row < |s.inbox| == |s'.inbox| && sid < |s'.desk.sessions|
    requires exists fids ::
      s'.tasks ==
      s.tasks[i := s.tasks[i].(handling := Handled(InboxDone))] + FetchTasks(fids, |s'.desk.files|, Some(sid))
    ensures NewTasksOk(e, s, s')
  {}

  // ---- a flushed session ------------------------------------------------------------------------------------

  /** Every file the transaction may satisfy an item with backs it. */
  ghost predicate AllBacked(files: seq<File>, fs: seq<File>) {
    forall j | 0 <= j < |files| && Typed(files[j].docType) && files[j].document.Some? ::
      Backed(fs, files[j].document, files[j].docType.value)
  }

  lemma SessionFilesMeans(fs: seq<File>, sid: nat, p: Projection)
    ensures AllBacked(SessionFiles(fs, sid, p), fs)
    ensures forall i | 0 <= i < |fs| && fs[i].session == sid :: Project(p)(fs[i]) in SessionFiles(fs, sid, p)
  {
    var mine, r := Filter(fs, InSession(sid)), SessionFiles(fs, sid, p);
    forall j | 0 <= j < |r| && Typed(r[j].docType) && r[j].document.Some?
      ensures Backed(fs, r[j].document, r[j].docType.value)
    {
      assert mine[j] in fs;
      var i :| 0 <= i < |fs| && fs[i] == mine[j];
      assert BackedBy(fs[i], r[j].document, r[j].docType.value);
    }
    forall i | 0 <= i < |fs| && fs[i].session == sid ensures Project(p)(fs[i]) in r {
      assert InSession(sid)(fs[i]) && fs[i] in mine;
      var j :| 0 <= j < |mine| && mine[j] == fs[i];
      assert r[j] == Project(p)(fs[i]);
    }
  }

  lemma ItemKeptTrans(k: (nat, DocType), x: Items, y: Items, z: Items, fs: seq<File>)
    requires k in x && ItemKept(k, x, y, fs) && ItemKept(k, y, z, fs)
    ensures ItemKept(k, x, z, fs)
  {}

  /** _satisfy_confirmed_files adds and drops no item, satisfies what is asked for, and only with backing. */
  lemma {:induction false} SatisfyKeeps(items: Items, d: nat, files: seq<File>, fs: seq<File>)
    requires AllBacked(files, fs)
    ensures Satisfy(items, d, files).Keys == items.Keys
    ensures forall k | k in items :: ItemKept(k, items, Satisfy(items, d, files), fs)
    ensures forall j | 0 <= j < |files| && Typed(files[j].docType) && files[j].document.Some? ::
              SatisfiedIfAsked(Satisfy(items, d, files), d, files[j].docType.value)
    decreases |files|
  {
    if files != [] {
      var n := |files| - 1;
      var before, f := Satisfy(items, d, files[..n]), files[n];
      SatisfyKeeps(items, d, files[..n], fs);
      if Typed(f.docType) && f.document.Some? {
        MarkKept(before, d, f.docType.value, f.document.value, fs);
        forall k | k in items ensures ItemKept(k, items, Satisfy(items, d, files), fs) {
          ItemKeptTrans(k, items, before, Satisfy(items, d, files), fs);
        }
        forall j | 0 <= j < n && Typed(files[j].docType) && files[j].document.Some?
          ensures SatisfiedIfAsked(Satisfy(items, d, files), d, files[j].docType.value)
        {
          assert files[..n][j] == files[j];
          assert SatisfiedIfAsked(before, d, files[j].docType.value);
        }
      }
    }
  }

  /** A file of the session with a type and an evidence satisfies the item, if it is seen at all. */
  lemma ReadySatisfies(x: Desk, sid: nat, p: Projection, items: Items, d: nat, i: nat)
    requires Ready(x, sid, p) && i < |x.files| && x.files[i].session == sid
    requires x.files[i].document.Some? && Typed(x.files[i].docType)
    ensures SatisfiedIfAsked(Satisfy(items, d, SessionFiles(x.files, sid, p)), d, x.files[i].docType.value)
  {
    var r := SessionFiles(x.files, sid, p);
    SessionFilesMeans(x.files, sid, p);
    SatisfyKeeps(items, d, r, x.files);
    var j :| 0 <= j < |r| && r[j] == Project(p)(x.files[i]);
    assert r[j].docType.Some?;
  }

  lemma TablesFollow(e: Env, s: State, s': State)
    requires TablesOk(e, s) && ContactsOk(s) && Kept(s, s')
    requires s'.db == s.db && s'.inbox == s.inbox && s'.evidence == s.evidence && s'.desk.files == s.desk.files
    requires |s'.desk.sessions| == |s.desk.sessions| && SessionsOk(s'.desk.sessions) && BookOk(s'.desk.book)
    requires KnownTypes(s'.desk.items) && forall k | k in s'.desk.items :: k.0 < |s'.desk.book.deals|
    requires forall i | 0 <= i < |s.desk.sessions| ::
               s'.desk.sessions[i].deal == s.desk.sessions[i].deal || LinkOk(s', s'.desk.sessions[i])
    ensures TablesOk(e, s') && ContactsOk(s')
  {
    forall i | 0 <= i < |s'.desk.files|
      ensures FileOk(e, s', s'.desk.files[i])
    {
      FileOkKept(e, s, s', s.desk.files[i]);
    }
    forall i | 0 <= i < |s'.desk.sessions|
      ensures LinkOk(s', s'.desk.sessions[i]) && Owned(s'.db.contacts, s'.desk.sessions[i])
    {
      var r := s.desk.sessions[i];
      assert Moves(r, s'.desk.sessions[i]) && LinkOk(s, r);
      if r.deal.Some? { assert DealKept(s.desk.book.deals[r.deal.value], s'.desk.book.deals[r.deal.value]); }
      OwnedKept(s.db.contacts, s'.db.contacts, r, s'.desk.sessions[i]);
    }
  }

  /** An ambiguous session is parked; deals and items stay. */
  lemma FuzzySafe(e: Env, s: State, s': State, sid: nat, b: Booking, m: Match, sim: Similarity, name: string)
    requires Inv(e, s) && m.Fuzzy? && FindSpec(s.desk.book.deals, sim, b.query, m)
    requires NewTasksOk(e, s, s')
    requires s' ==
             s.(tasks := s'.tasks, desk := s.desk.(sessions := Change(s.desk.sessions, sid, ParkedWith(DealAmbiguous)),
                                                         book := Settle(s.desk.book, b, name, m)))
    ensures Inv(e, s') && Kept(s, s')
  {
    SettleStep(s.desk.book.deals, s.desk.book, b, name, sim, m);
    if sid < |s.desk.sessions| { assert DealOk(s.desk.sessions[sid]); }
    ChangeKeeps(s.desk.sessions, sid, ParkedWith(DealAmbiguous));
    assert Kept(s, s');
    TasksFollow(e, s, s');
    TablesFollow(e, s, s');
    HistoryFollows(s, s');
  }

  /** The checklist a new deal starts with: the defaults, satisfied only with backing; all else stays. */
  lemma NewItems(items: Items, d: nat, t: DealType, files: seq<File>, fs: seq<File>)
    requires KnownTypes(items) && (forall k | k in items :: k.0 < d) && AllBacked(files, fs)
    ensures var r := Satisfy(InitialiseSpec(items, d, t), d, files);
      && KnownTypes(r)
      && (forall k | k in items :: ItemKept(k, items, r, fs))
      && (forall k | k in r && k !in items :: k.0 == d && (r[k].satisfied ==> Backed(fs, r[k].document, k.1)))
      && ExactlyDefaults(r, d, t)
  {
    var start := InitialiseSpec(items, d, t);
    var r := Satisfy(start, d, files);
    SatisfyKeeps(start, d, files, fs);
    forall x: DocType ensures (d, x) !in items {}
    FreshChecklist(items, d, t);
    forall k | k in items ensures ItemKept(k, items, r, fs) {
      InitialiseMeans(items, d, t, k);
      assert ItemKept(k, start, r, fs);
    }
    forall k | k in r
      ensures !k.1.OtherType?
      ensures k !in items ==> k.0 == d && (r[k].satisfied ==> Backed(fs, r[k].document, k.1))
    {
      assert k in r.Keys;
      InitialiseMeans(items, d, t, k);
      assert ItemKept(k, start, r, fs);
    }
    DefaultsKept(start, r, d, t, fs);
  }

  lemma DefaultsKept(items: Items, items': Items, d: nat, t: DealType, fs: seq<File>)
    requires ExactlyDefaults(items, d, t) && items'.Keys == items.Keys
    requires forall k | k in items :: ItemKept(k, items, items', fs)
    ensures ExactlyDefaults(items', d, t)
  {
    forall x: DocType
      ensures (d, x) in items' <==> DefaultOf(t, x).Some?
      ensures (d, x) in items' ==> items'[(d, x)].requirement == DefaultOf(t, x).value
    {
      assert (d, x) in items' <==> (d, x) in items'.Keys;
      if (d, x) in items { assert ItemKept((d, x), items, items', fs); }
    }
  }

  /** What a flushed session that finds no deal does. */
  ghost predicate NewDealStep(e: Env, s: State, sid: nat, b: BookingFields, s': State) {
    && sid < |s.desk.sessions| && Ready(s.desk, sid, e.projection)
    && FindSpec(s.desk.book.deals, e.world.sim, BookingOf(e.world, s.desk.sessions[sid], sid, b).query, NoMatch)
    && s' == s.(tasks := s'.tasks, outbox := s'.outbox,
                desk := NewDeal(s.desk, sid, e.projection, s.outbox.now, e.world, b).0,
                hist := Noted(s.hist, s.desk, sid, s'.desk, NoMatch, true))
  }

  /** The tables after it. */
  lemma NewDealKept(e: Env, s: State, sid: nat, b: BookingFields, s': State)
    requires Inv(e, s) && NewDealStep(e, s, sid, b, s')
    ensures var k := BookingOf(e.world, s.desk.sessions[sid], sid, b);
      && Kept(s, s') && TablesOk(e, s') && ContactsOk(s')
      && s'.desk.book.deals == s.desk.book.deals + [Fresh(k, e.world.pendingName)]
      && s'.desk.sessions == Change(s.desk.sessions, sid, Confirming(|s.desk.book.deals|, s.outbox.now))
      && s'.desk.items == Satisfy(InitialiseSpec(s.desk.items, |s.desk.book.deals|, k.dealType), |s.desk.book.deals|,
                                  SessionFiles(s.desk.files, sid, e.projection))
  {
    var d := |s.desk.book.deals|;
    NewDealBook(s.desk.book, BookingOf(e.world, s.desk.sessions[sid], sid, b), e.world);
    assert DealOk(s.desk.sessions[sid]);
    ChangeKeeps(s.desk.sessions, sid, Confirming(d, s.outbox.now));
    SessionFilesMeans(s.desk.files, sid, e.projection);
    NewItems(s.desk.items, d, InferDealType(b), SessionFiles(s.desk.files, sid, e.projection), s.desk.files);
    NewDealRest(e, s, s', sid);
  }

  lemma NewDealBook(book: Book, k: Booking, w: World)
    requires BookOk(book) && FindSpec(book.deals, w.sim, k.query, NoMatch)
    ensures var ds := book.deals + [Fresh(k, w.pendingName)];
      && CreateSpec(book.deals, Fresh(k, w.pendingName)) == (ds, |book.deals|)
      && BookOk(book.(deals := ds)) && DealsGrow(book.deals, ds)
  {
    SettleStep(book.deals, book, k, w.pendingName, w.sim, NoMatch);
    assert IndexOf(book.deals, Booked(k.query.tenant, k.query.number)) == |book.deals|;
  }

  /** Tables that change as a new deal changes them are in order. */
  lemma NewDealRest(e: Env, s: State, s': State, sid: nat)
    requires TablesOk(e, s) && ContactsOk(s) && sid < |s.desk.sessions|
    requires s'.db == s.db && s'.inbox == s.inbox && s'.evidence == s.evidence && s'.desk.files == s.desk.files
    requires s'.hist.settled == s.hist.settled && s'.hist.inherited == s.hist.inherited
    requires s'.desk.sessions == Change(s.desk.sessions, sid, Confirming(|s.desk.book.deals|, s.outbox.now))
    requires Advance(s.desk.sessions, s'.desk.sessions) && SessionsOk(s'.desk.sessions)
    requires BookOk(s'.desk.book) && DealsGrow(s.desk.book.deals, s'.desk.book.deals)
    requires |s'.desk.book.deals| == |s.desk.book.deals| + 1
    requires s'.desk.book.deals[|s.desk.book.deals|].tenant == s.desk.sessions[sid].tenant
    requires KnownTypes(s'.desk.items)
    requires forall k | k in s.desk.items :: ItemKept(k, s.desk.items, s'.desk.items, s.desk.files)
    requires forall k | k in s'.desk.items && k !in s.desk.items ::
               && k.0 == |s.desk.book.deals|
               && (s'.desk.items[k].satisfied ==> Backed(s.desk.files, s'.desk.items[k].document, k.1))
    ensures Kept(s, s') && TablesOk(e, s') && ContactsOk(s')
  {
    assert Kept(s, s');
    TablesFollow(e, s, s');
  }

  lemma NewDealSettled(e: Env, s: State, sid: nat, b: BookingFields, s': State, x: Settlement)
    requires Inv(e, s) && NewDealStep(e, s, sid, b, s') && Kept(s, s') && x in s.hist.settled
    requires var d := |s.desk.book.deals|; exists t ::
      && s'.desk.sessions == Change(s.desk.sessions, sid, Confirming(d, s.outbox.now))
      && s'.desk.items == Satisfy(InitialiseSpec(s.desk.items, d, t), d, SessionFiles(s.desk.files, sid, e.projection))
    ensures SettledOk(s', x)
  {
    assert SettledOk(s, x);
    if s'.desk.sessions[x.session].deal == s.desk.sessions[x.session].deal {
      SettledKept(s, s', x);
    } else {
      assert x.session == sid && DealOk(s.desk.sessions[sid]);
      assert FileKept(s.desk.files[x.file], s'.desk.files[x.file]);
      if s.desk.files[x.file].session == sid {
        var d := |s.desk.book.deals|;
        var t :| s'.desk.items ==
            Satisfy(InitialiseSpec(s.desk.items, d, t), d, SessionFiles(s.desk.files, sid, e.projection));
        ReadySatisfies(s.desk, sid, e.projection, InitialiseSpec(s.desk.items, d, t), d, x.file);
      }
    }
  }

  lemma NewDealSafe(e: Env, s: State, sid: nat, b: BookingFields, s': State)
    requires Inv(e, s) && NewDealStep(e, s, sid, b, s') && NewTasksOk(e, s, s')
    ensures Inv(e, s') && Kept(s, s')
  {
    NewDealKept(e, s, sid, b, s');
    TasksFollow(e, s, s');
    NewDealHistory(e, s, sid, b, s');
  }

  lemma NewDealHistory(e: Env, s: State, sid: nat, b: BookingFields, s': State)
    requires Inv(e, s) && NewDealStep(e, s, sid, b, s')
    ensures HistoryOk(s')
  {
    NewDealPolls(e, s, sid, b, s');
    NewDealDeals(e, s, sid, b, s');
    NewDealLinked(e, s, sid, b, s');
    NewDealCompletes(e, s, sid, b, s');
  }

  lemma NewDealPolls(e: Env, s: State, sid: nat, b: BookingFields, s': State)
    requires Inv(e, s) && NewDealStep(e, s, sid, b, s')
    ensures forall x | x in s'.hist.settled :: SettledOk(s', x)
  {
    NewDealKept(e, s, sid, b, s');
    forall x | x in s'.hist.settled ensures SettledOk(s', x) { NewDealSettled(e, s, sid, b, s', x); }
  }

  lemma NewDealDeals(e: Env, s: State, sid: nat, b: BookingFields, s': State)
    requires Inv(e, s) && NewDealStep(e, s, sid, b, s')
    ensures s'.hist.inherited == s.hist.inherited <= |s'.desk.book.deals|
    ensures forall c | s.hist.inherited <= c < |s'.desk.book.deals| :: CreatedOk(s', c)
  {
    NewDealKept(e, s, sid, b, s');
    forall c | s.hist.inherited <= c < |s'.desk.book.deals| ensures CreatedOk(s', c) {
      if c < |s.desk.book.deals| { CreatedKept(s, s', c); } else { NewDealCreated(e, s, sid, b, s'); }
    }
  }

  /** No session completes, and the deals that were complete are. */
  lemma NewDealCompletes(e: Env, s: State, sid: nat, b: BookingFields, s': State)
    requires Inv(e, s) && NewDealStep(e, s, sid, b, s')
    ensures forall c | c in s'.hist.completed :: CompletedOk(s', c)
    ensures forall i | 0 <= i < |s'.desk.sessions| && s'.desk.sessions[i].state == SessionState.Complete ::
              i in s'.hist.completed
  {
    NewDealKept(e, s, sid, b, s');
    forall c | c in s'.hist.completed ensures CompletedOk(s', c) {
      assert CompletedOk(s, c);
      CompleteKept(s.desk, s'.desk, s.hist.completed[c]);
    }
  }

  /** The claims stay true, and the session, if it was linked now, was not linked before. */
  lemma NewDealLinked(e: Env, s: State, sid: nat, b: BookingFields, s': State)
    requires Inv(e, s) && NewDealStep(e, s, sid, b, s')
    ensures s'.hist.claimed == s.hist.claimed && Reached(s'.desk.sessions, s'.hist.claimed, 1)
    ensures Distinct(s'.hist.linked) && Reached(s'.desk.sessions, s'.hist.linked, 2)
  {
    NewDealKept(e, s, sid, b, s');
    ReachedKept(s.desk.sessions, s'.desk.sessions, s.hist.claimed, 1);
    ReachedKept(s.desk.sessions, s'.desk.sessions, s.hist.linked, 2);
    if s'.desk.sessions[sid].deal != s.desk.sessions[sid].deal {
      LinkedOnce(s.desk.sessions, s'.desk.sessions, s.hist.linked, sid);
    }
  }

  lemma NewDealCreated(e: Env, s: State, sid: nat, b: BookingFields, s': State)
    requires Inv(e, s) && NewDealStep(e, s, sid, b, s')
    ensures CreatedOk(s', |s.desk.book.deals|)
  {
    var k, d := BookingOf(e.world, s.desk.sessions[sid], sid, b), |s.desk.book.deals|;
    NewDealKept(e, s, sid, b, s');
    SessionFilesMeans(s.desk.files, sid, e.projection);
    NewItems(s.desk.items, d, k.dealType, SessionFiles(s.desk.files, sid, e.projection), s.desk.files);
    forall x: DocType | (d, x) in s'.desk.items ensures (d, x) !in s.desk.items {}
  }

  /** A session that is linked now was not linked before. */
  lemma LinkedOnce(ss: seq<Session>, ss': seq<Session>, linked: seq<nat>, sid: nat)
    requires Distinct(linked) && Reached(ss, linked, 2) && Advance(ss, ss') && sid < |ss|
    requires ss'[sid].deal != ss[sid].deal
    ensures Distinct(linked + [sid]) && Reached(ss', linked + [sid], 2)
  {
    ReachedKept(ss, ss', linked, 2);
    assert Moves(ss[sid], ss'[sid]);
    forall k | 0 <= k < |linked| ensures linked[k] != sid { assert Rank(ss[linked[k]].state) >= 2; }
  }

  /** What a flushed session that finds its booking number does. */
  ghost predicate KnownDealStep(e: Env, s: State, sid: nat, b: BookingFields, id: nat, s': State) {
    && sid < |s.desk.sessions| && Ready(s.desk, sid, e.projection)
    && FindSpec(s.desk.book.deals, e.world.sim, BookingOf(e.world, s.desk.sessions[sid], sid, b).query, Exact(id))
    && s' == s.(tasks := s'.tasks, outbox := s'.outbox,
                desk := KnownDeal(s.desk, sid, e.projection, e.world, b, id).0,
                hist := Noted(s.hist, s.desk, sid, s'.desk, Exact(id), true))
  }

  lemma SatisfiedKept(x: Desk, sid: nat, p: Projection, d: nat)
    ensures var items' := Satisfy(x.items, d, SessionFiles(x.files, sid, p));
      && (forall k | k in x.items :: ItemKept(k, x.items, items', x.files))
      && (forall k | k in items' :: k in x.items)
  {
    SessionFilesMeans(x.files, sid, p);
    SatisfyKeeps(x.items, d, SessionFiles(x.files, sid, p), x.files);
    forall k | k in Satisfy(x.items, d, SessionFiles(x.files, sid, p)) ensures k in x.items {
      assert k in Satisfy(x.items, d, SessionFiles(x.files, sid, p)).Keys;
    }
  }

  /** What such a step leaves: the tables in order, every link as it was, and a session completed only with a
      complete deal, which is then noted. */
  ghost predicate KnownDealEffect(e: Env, s: State, sid: nat, id: nat, s': State) {
    && Kept(s, s') && TablesOk(e, s') && ContactsOk(s') && id < |s.desk.book.deals|
    && |s'.desk.book.deals| == |s.desk.book.deals| && |s'.desk.sessions| == |s.desk.sessions|
    && (forall i | 0 <= i < |s.desk.sessions| :: s'.desk.sessions[i].deal == s.desk.sessions[i].deal)
    && (forall i | 0 <= i < |s.desk.sessions| && s'.desk.sessions[i].state == SessionState.Complete ::
          s.desk.sessions[i].state == SessionState.Complete || (i == sid && Checklist.Complete(s'.desk.items, id)))
    && s'.hist == s.hist.(completed := s'.hist.completed)
    && s'.hist.completed == if Checklist.Complete(s'.desk.items, id) then s.hist.completed[sid := id]
                           else s.hist.completed
  }

  lemma KnownDealSessions(x: Desk, sid: nat, p: Projection, w: World, b: BookingFields, id: nat)
    requires sid < |x.sessions| && SessionsOk(x.sessions)
    ensures var x' := KnownDeal(x, sid, p, w, b, id).0;
      && |x'.sessions| == |x.sessions| && Advance(x.sessions, x'.sessions) && SessionsOk(x'.sessions)
      && (forall i | 0 <= i < |x.sessions| :: x'.sessions[i].deal == x.sessions[i].deal)
      && (forall i | 0 <= i < |x.sessions| && x'.sessions[i].state == SessionState.Complete ::
           x.sessions[i].state == SessionState.Complete || (i == sid && Checklist.Complete(x'.items, id)))
  {
    assert DealOk(x.sessions[sid]);
    ChangeKeeps(x.sessions, sid, Completed());
    forall i | 0 <= i < |x.sessions| ensures Moves(x.sessions[i], x.sessions[i]) {}
  }

  lemma KnownDealBook(s: State, sid: nat, p: Projection, w: World, b: BookingFields, id: nat)
    requires sid < |s.desk.sessions| && BookOk(s.desk.book)
    requires FindSpec(s.desk.book.deals, w.sim, BookingOf(w, s.desk.sessions[sid], sid, b).query, Exact(id))
    ensures var x' := KnownDeal(s.desk, sid, p, w, b, id).0;
      && BookOk(x'.book) && DealsGrow(s.desk.book.deals, x'.book.deals) && |x'.book.deals| == |s.desk.book.deals|
      && id < |s.desk.book.deals|
      && (forall k | k in s.desk.items :: ItemKept(k, s.desk.items, x'.items, s.desk.files))
      && (forall k | k in x'.items :: k in s.desk.items)
  {
    SettleStep(s.desk.book.deals, s.desk.book, BookingOf(w, s.desk.sessions[sid], sid, b), w.pendingName, w.sim,
               Exact(id));
    SatisfiedKept(s.desk, sid, p, id);
  }

  lemma KnownDealKept(e: Env, s: State, sid: nat, b: BookingFields, id: nat, s': State)
    requires Inv(e, s) && KnownDealStep(e, s, sid, b, id, s')
    ensures KnownDealEffect(e, s, sid, id, s')
  {
    KnownDealSessions(s.desk, sid, e.projection, e.world, b, id);
    KnownDealBook(s, sid, e.projection, e.world, b, id);
    KnownDealRest(e, s, s');
  }

  /** Tables that change no more than this stay in order. */
  lemma KnownDealRest(e: Env, s: State, s': State)
    requires TablesOk(e, s) && ContactsOk(s)
    requires s'.db == s.db && s'.inbox == s.inbox && s'.evidence == s.evidence && s'.desk.files == s.desk.files
    requires s'.hist.settled == s.hist.settled && s'.hist.inherited == s.hist.inherited
    requires |s'.desk.sessions| == |s.desk.sessions| && Advance(s.desk.sessions, s'.desk.sessions)
    requires SessionsOk(s'.desk.sessions)
    requires forall i | 0 <= i < |s.desk.sessions| :: s'.desk.sessions[i].deal == s.desk.sessions[i].deal
    requires BookOk(s'.desk.book) && DealsGrow(s.desk.book.deals, s'.desk.book.deals)
    requires forall k | k in s.desk.items :: ItemKept(k, s.desk.items, s'.desk.items, s.desk.files)
    requires forall k | k in s'.desk.items :: k in s.desk.items
    ensures Kept(s, s') && TablesOk(e, s') && ContactsOk(s')
  {
    assert Kept(s, s');
    TablesFollow(e, s, s');
  }

  lemma KnownDealCompleted(e: Env, s: State, sid: nat, id: nat, s': State, c: nat)
    requires HistoryOk(s) && KnownDealEffect(e, s, sid, id, s') && c in s'.hist.completed
    ensures CompletedOk(s', c)
  {
    if c in s.hist.completed && s'.hist.completed[c] == s.hist.completed[c] {
      assert CompletedOk(s, c);
      CompleteKept(s.desk, s'.desk, s.hist.completed[c]);
    }
  }

  lemma KnownDealHistory(e: Env, s: State, sid: nat, id: nat, s': State)
    requires HistoryOk(s) && TablesOk(e, s) && KnownDealEffect(e, s, sid, id, s')
    ensures HistoryOk(s')
  {
    ReachedKept(s.desk.sessions, s'.desk.sessions, s.hist.claimed, 1);
    ReachedKept(s.desk.sessions, s'.desk.sessions, s.hist.linked, 2);
    forall x | x in s'.hist.settled ensures SettledOk(s', x) { SettledKept(s, s', x); }
    forall c | c in s'.hist.completed ensures CompletedOk(s', c) { KnownDealCompleted(e, s, sid, id, s', c); }
    forall d | s.hist.inherited <= d < |s'.desk.book.deals| ensures CreatedOk(s', d) { CreatedKept(s, s', d); }
  }

  lemma KnownDealSafe(e: Env, s: State, sid: nat, b: BookingFields, id: nat, s': State)
    requires Inv(e, s) && KnownDealStep(e, s, sid, b, id, s') && NewTasksOk(e, s, s')
    ensures Inv(e, s') && Kept(s, s')
  {
    KnownDealKept(e, s, sid, b, id, s');
    KnownDealFollows(e, s, sid, id, s');
  }

  lemma KnownDealFollows(e: Env, s: State, sid: nat, id: nat, s': State)
    requires Inv(e, s) && KnownDealEffect(e, s, sid, id, s') && NewTasksOk(e, s, s')
    ensures Inv(e, s')
  {
    TasksFollow(e, s, s');
    KnownDealHistory(e, s, sid, id, s');
  }

  /** A flushed session whose files are not ready is parked. */
  lemma UnreadySafe(e: Env, s: State, s': State, sid: nat, note: Note)
    requires Inv(e, s) && NewTasksOk(e, s, s')
    requires s' == OnSession(s, Some(sid), ParkedWith(note)).(tasks := s'.tasks)
    ensures Inv(e, s') && Kept(s, s')
  {
    OneSession(e, s, s', Some(sid), ParkedWith(note));
  }

  lemma ProcessSafe(e: Env, s: State, i: nat, b: BookingFields, m: Match)
    requires Inv(e, s) && Enabled(e, s, Process(i, b, m))
    ensures Inv(e, ProcessStep(e, s, i, b, m)) && Kept(s, ProcessStep(e, s, i, b, m))
  {
    var s', sid := ProcessStep(e, s, i, b, m), s.tasks[i].flushed;
    assert TaskOk(e, s, s.tasks[i]);
    if Raises(s, Flushed(s.desk, sid, e.projection, s.outbox.now, e.world, b, m).1) {
      RestartSafe(e, s, i, Raised(s.tasks[i]));
    } else if Ready(s.desk, sid, e.projection) {
      SettlesSafe(e, s, s', sid, b, m);
    } else {
      var note := if AllStored(SessionFiles(s.desk.files, sid, e.projection)) then AwaitingDi else FilesNotReady;
      UnreadySafe(e, s, s', sid, note);
    }
  }

  /** A ready session against the deal table. */
  lemma SettlesSafe(e: Env, s: State, s': State, sid: nat, b: BookingFields, m: Match)
    requires Inv(e, s) && sid < |s.desk.sessions| && Ready(s.desk, sid, e.projection) && NewTasksOk(e, s, s')
    requires FindSpec(s.desk.book.deals, e.world.sim, BookingOf(e.world, s.desk.sessions[sid], sid, b).query, m)
    requires s' == s.(tasks := s'.tasks, outbox := s'.outbox,
                      desk := Flushed(s.desk, sid, e.projection, s.outbox.now, e.world, b, m).0,
                      hist := Noted(s.hist, s.desk, sid, s'.desk, m, true))
    requires m.Fuzzy? ==> s'.outbox == s.outbox
    ensures Inv(e, s') && Kept(s, s')
  {
    match m
    case NoMatch => NewDealSafe(e, s, sid, b, s');
    case Fuzzy(_) =>
      var k := BookingOf(e.world, s.desk.sessions[sid], sid, b);
      SettleStep(s.desk.book.deals, s.desk.book, k, e.world.pendingName, e.world.sim, m);
      FuzzySafe(e, s, s', sid, k, m, e.world.sim, e.world.pendingName);
    case Exact(id) => KnownDealSafe(e, s, sid, b, id, s');
  }

  // ---- runs -------------------------------------------------------------------------------------------------

  lemma FetchStepSafe(e: Env, s: State, a: Action)
    requires Inv(e, s) && Enabled(e, s, a) && (a.Start? || a.Download? || a.Post? || a.Commit? || a.Defer?)
    ensures Inv(e, Apply(e, s, a)) && Kept(s, Apply(e, s, a))
  {
    if a.Start? || a.Download? {
      DownloadStepSafe(e, s, a);
    } else {
      StoreStepSafe(e, s, a);
    }
  }

  lemma DownloadStepSafe(e: Env, s: State, a: Action)
    requires Inv(e, s) && Enabled(e, s, a) && (a.Start? || a.Download?)
    ensures Inv(e, Apply(e, s, a)) && Kept(s, Apply(e, s, a))
  {
    match a
    case Start(i, journey) => StartSafe(e, s, i, journey);
    case Download(i, ok, quarantine, retryable) => DownloadSafe(e, s, i, ok, quarantine, retryable);
  }

  lemma StoreStepSafe(e: Env, s: State, a: Action)
    requires Inv(e, s) && Enabled(e, s, a) && (a.Post? || a.Commit? || a.Defer?)
    ensures Inv(e, Apply(e, s, a)) && Kept(s, Apply(e, s, a))
  {
    match a
    case Post(i, reached, ok) => PostSafe(e, s, i, reached, ok);
    case Commit(i) => CommitSafe(e, s, i);
    case Defer(i) => DeferSafe(e, s, i);
  }

  predicate IsPollStep(a: Action) {
    a.Poll? || a.Persist? || a.ReadLink? || a.MarkItem? || a.Count? || a.Nudge? || a.Park?
  }

  lemma PollStepSafe(e: Env, s: State, a: Action)
    requires Inv(e, s) && Enabled(e, s, a) && IsPollStep(a)
    ensures Inv(e, Apply(e, s, a)) && Kept(s, Apply(e, s, a))
  {
    if a.Poll? || a.Persist? || a.Count? {
      AskStepSafe(e, s, a);
    } else if a.ReadLink? || a.MarkItem? {
      LinkStepSafe(e, s, a);
    } else {
      EndStepSafe(e, s, a);
    }
  }

  lemma AskStepSafe(e: Env, s: State, a: Action)
    requires Inv(e, s) && Enabled(e, s, a) && (a.Poll? || a.Persist? || a.Count?)
    ensures Inv(e, Apply(e, s, a)) && Kept(s, Apply(e, s, a))
  {
    match a
    case Poll(i, o) => PollSafe(e, s, i, o);
    case Persist(i, fetched) => PersistSafe(e, s, i, fetched);
    case Count(i) => CountSafe(e, s, i);
  }

  lemma LinkStepSafe(e: Env, s: State, a: Action)
    requires Inv(e, s) && Enabled(e, s, a) && (a.ReadLink? || a.MarkItem?)
    ensures Inv(e, Apply(e, s, a)) && Kept(s, Apply(e, s, a))
  {
    match a
    case ReadLink(i) => ReadLinkSafe(e, s, i);
    case MarkItem(i) => MarkItemSafe(e, s, i);
  }

  lemma EndStepSafe(e: Env, s: State, a: Action)
    requires Inv(e, s) && Enabled(e, s, a) && (a.Nudge? || a.Park?)
    ensures Inv(e, Apply(e, s, a)) && Kept(s, Apply(e, s, a))
  {
    match a
    case Nudge(i) => NudgeSafe(e, s, i, s.outbox.now);
    case Park(i) => ParkSafe(e, s, i);
  }

  lemma StepSafe(e: Env, s: State, a: Action)
    requires Inv(e, s) && Enabled(e, s, a)
    ensures Inv(e, Apply(e, s, a)) && Kept(s, Apply(e, s, a))
  {
    if IsPollStep(a) {
      PollStepSafe(e, s, a);
    } else if a.Start? || a.Download? || a.Post? || a.Commit? || a.Defer? {
      FetchStepSafe(e, s, a);
    } else {
      OtherStepSafe(e, s, a);
    }
  }

  lemma OtherStepSafe(e: Env, s: State, a: Action)
    requires Inv(e, s) && Enabled(e, s, a)
    requires !IsPollStep(a) && !a.Start? && !a.Download? && !a.Post? && !a.Commit? && !a.Defer?
    ensures Inv(e, Apply(e, s, a)) && Kept(s, Apply(e, s, a))
  {
    if a.Handle? || a.MarkRow? || a.Process? || a.Crash? {
      RowStepSafe(e, s, a);
    } else {
      OutsideStepSafe(e, s, a);
    }
  }

  lemma RowStepSafe(e: Env, s: State, a: Action)
    requires Inv(e, s) && Enabled(e, s, a) && (a.Handle? || a.MarkRow? || a.Process? || a.Crash?)
    ensures Inv(e, Apply(e, s, a)) && Kept(s, Apply(e, s, a))
  {
    if a.Handle? {
      HandleSafe(e, s, a.i, a.raisesAfter);
    } else if a.Process? {
      ProcessSafe(e, s, a.i, a.fields, a.match_);
    } else {
      TaskEndSafe(e, s, a);
    }
  }

  lemma TaskEndSafe(e: Env, s: State, a: Action)
    requires Inv(e, s) && Enabled(e, s, a) && (a.MarkRow? || a.Crash?)
    ensures Inv(e, Apply(e, s, a)) && Kept(s, Apply(e, s, a))
  {
    match a
    case MarkRow(i) => MarkRowSafe(e, s, i);
    case Crash(i, again) => RestartSafe(e, s, i, if again then Raised(s.tasks[i]) else Gone);
  }

  lemma OutsideStepSafe(e: Env, s: State, a: Action)
    requires Inv(e, s) && Enabled(e, s, a) && (a.Webhook? || a.Admin? || a.Operator? || a.OutboxStep? || a.Flush?)
    ensures Inv(e, Apply(e, s, a)) && Kept(s, Apply(e, s, a))
  {
    match a
    case Webhook(n, p, ok) => WebhookSafe(e, s, n, p, ok);
    case Admin(t, call) => AdminSafe(e, s, t, call);
    case Operator(sid, escalate, note) => OperatorSafe(e, s, sid, escalate, note);
    case OutboxStep(x) => OutboxSafe(e, s, OutboxRuns.Apply(s.outbox, x));
    case Flush(ids, n) => FlushSafe(e, s, ids, n);
  }

  lemma {:induction false} RunSafe(e: Env, s: State, acts: seq<Action>)
    requires Inv(e, s) && Run(e, s, acts)
    ensures Inv(e, Exec(e, s, acts)) && Kept(s, Exec(e, s, acts))
    decreases |acts|
  {
    if acts == [] {
      SameDeskKept(s, s);
    } else {
      var s1 := Apply(e, s, acts[0]);
      StepSafe(e, s, acts[0]);
      RunSafe(e, s1, acts[1..]);
      KeptTrans(s, s1, Exec(e, s1, acts[1..]));
    }
  }

  lemma InitialInv(e: Env, s: State)
    requires Initial(s)
    ensures Inv(e, s)
  {}

  // ---- what it comes to ---------------------------------------------------------------------------------------

  /** Two moments of one run. */
  lemma TwoMoments(e: Env, s: State, before: seq<Action>, after: seq<Action>)
    requires Initial(s) && Run(e, s, before) && Run(e, Exec(e, s, before), after)
    ensures Inv(e, Exec(e, s, before)) && Inv(e, Exec(e, Exec(e, s, before), after))
    ensures Kept(s, Exec(e, s, before)) && Kept(Exec(e, s, before), Exec(e, Exec(e, s, before), after))
  {
    InitialInv(e, s);
    RunSafe(e, s, before);
    RunSafe(e, Exec(e, s, before), after);
  }

  /** Between two moments x and y no session returns to an earlier state, reopens or loses its link; at y a
      contact has at most one open session, and no session was claimed or linked twice. */
  ghost predicate LifecycleKept(x: State, y: State) {
    && OneOpen(y.desk.sessions) && Distinct(y.hist.claimed) && Distinct(y.hist.linked)
    && |x.desk.sessions| <= |y.desk.sessions|
    && (forall i | 0 <= i < |x.desk.sessions| :: OnwardOnly(x.desk.sessions[i], y.desk.sessions[i]))
  }

  ghost predicate OnwardOnly(r: Session, r': Session) {
    && (Open(r'.state) ==> Open(r.state))
    && (r'.state.Collecting? ==> r.state.Collecting?)
    && (r'.state.Processing? ==> r.state.Collecting? || r.state.Processing?)
    && (r.deal.Some? ==> r'.deal == r.deal)
    && (!Open(r.state) ==> r'.deal == r.deal)
  }

  /** Session lifecycle over all runs: a session that has left {collecting, processing, confirming_deal}
      never returns, a contact has at most one open session, each session is claimed for flush at most once,
      and its deal is written at most once and then stays. */
  lemma SessionLifecycle(e: Env, s: State, before: seq<Action>, after: seq<Action>)
    requires Initial(s) && Run(e, s, before) && Run(e, Exec(e, s, before), after)
    ensures LifecycleKept(Exec(e, s, before), Exec(e, Exec(e, s, before), after))
  {
    TwoMoments(e, s, before, after);
    LifecycleFrom(e, Exec(e, s, before), Exec(e, Exec(e, s, before), after));
  }

  lemma LifecycleFrom(e: Env, x: State, y: State)
    requires Inv(e, x) && Inv(e, y) && Kept(x, y)
    ensures LifecycleKept(x, y)
  {
    forall i | 0 <= i < |x.desk.sessions| ensures OnwardOnly(x.desk.sessions[i], y.desk.sessions[i]) {
      assert Moves(x.desk.sessions[i], y.desk.sessions[i]) && DealOk(x.desk.sessions[i]);
    }
  }

  /** The session's contact exists, and contact, files and linked deal are of the session's tenant. */
  ghost predicate Coherent(x: State, r: Session, sid: nat) {
    && (exists c :: 0 <= c < |x.db.contacts| && x.db.contacts[c].id == r.contact)
    && (forall c | 0 <= c < |x.db.contacts| && x.db.contacts[c].id == r.contact :: x.db.contacts[c].tenant == r.tenant)
    && (forall f | 0 <= f < |x.desk.files| && x.desk.files[f].session == sid :: x.desk.files[f].tenant == r.tenant)
    && (r.deal.Some? ==> r.deal.value < |x.desk.book.deals| && x.desk.book.deals[r.deal.value].tenant == r.tenant)
  }

  /** Session, its files and its deal all carry the tenant of the session's contact. */
  lemma TenantCoherence(e: Env, s: State, acts: seq<Action>)
    requires Initial(s) && Run(e, s, acts)
    ensures forall sid: nat | sid < |Exec(e, s, acts).desk.sessions| ::
              Coherent(Exec(e, s, acts), Exec(e, s, acts).desk.sessions[sid], sid)
  {
    InitialInv(e, s);
    RunSafe(e, s, acts);
    CoherentFrom(e, Exec(e, s, acts));
  }

  lemma CoherentFrom(e: Env, x: State)
    requires Inv(e, x)
    ensures forall sid: nat | sid < |x.desk.sessions| :: Coherent(x, x.desk.sessions[sid], sid)
  {
    forall sid: nat | sid < |x.desk.sessions| ensures Coherent(x, x.desk.sessions[sid], sid) {
      var r := x.desk.sessions[sid];
      assert Owned(x.db.contacts, r) && LinkOk(x, r);
      forall f | 0 <= f < |x.desk.files| && x.desk.files[f].session == sid ensures x.desk.files[f].tenant == r.tenant {
        assert FileOk(e, x, x.desk.files[f]);
      }
    }
  }

  /** At y a wamid has one inbox row, one file row and one evidence, and a file holds the evidence of its own
      wamid; from x to y no file's evidence changes. */
  ghost predicate EvidenceOnce(x: State, y: State) {
    && UniqueInbox(y.inbox) && UniqueWamids(y.desk.files) && UniqueEvidence(y.evidence)
    && (forall f | 0 <= f < |y.desk.files| && y.desk.files[f].document.Some? ::
         Holds(y, y.desk.files[f].document.value, y.desk.files[f].wamid))
    && |x.desk.files| <= |y.desk.files|
    && (forall f | 0 <= f < |x.desk.files| ::
         && y.desk.files[f].wamid == x.desk.files[f].wamid
         && (x.desk.files[f].document.Some? ==> y.desk.files[f].document == x.desk.files[f].document))
  }

  /** Exactly-once evidence under any redelivery, repeated fetches, and crashes between POST and commit. */
  lemma ExactlyOnceEvidence(e: Env, s: State, before: seq<Action>, after: seq<Action>)
    requires Initial(s) && Run(e, s, before) && Run(e, Exec(e, s, before), after)
    ensures EvidenceOnce(Exec(e, s, before), Exec(e, Exec(e, s, before), after))
  {
    TwoMoments(e, s, before, after);
    EvidenceFrom(e, Exec(e, s, before), Exec(e, Exec(e, s, before), after));
  }

  lemma EvidenceFrom(e: Env, x: State, y: State)
    requires Inv(e, y) && Kept(x, y)
    ensures EvidenceOnce(x, y)
  {
    forall f | 0 <= f < |y.desk.files| && y.desk.files[f].document.Some?
      ensures Holds(y, y.desk.files[f].document.value, y.desk.files[f].wamid)
    {
      assert FileOk(e, y, y.desk.files[f]);
    }
    forall f | 0 <= f < |x.desk.files| ensures FileKept(x.desk.files[f], y.desk.files[f]) {}
  }

  /** The poll is through with the checklist, for a document DI confirmed. */
  predicate ThroughWith(e: Env, t: Task) {
    && t.PollTask? && (t.polling.Counting? || t.polling.Nudging?) && t.session.Some?
    && e.di(t.evidence).confirmed && Typed(e.di(t.evidence).docType)
  }

  /** The poll found its session linked, and so marked the item. */
  ghost predicate SawLink(e: Env, x: State, t: Task)
    requires ThroughWith(e, t)
  {
    Settlement(t.file, t.session.value, e.di(t.evidence).docType.value, true) in x.hist.settled
  }

  /** The poll was made for the session the file is registered in. */
  predicate OwnSession(x: State, t: Task) {
    t.PollTask? && t.session.Some? && t.file < |x.desk.files| && x.desk.files[t.file].session == t.session.value
  }

  /** If the session is linked, the deal's item of that type, if there is one, is satisfied. */
  ghost predicate NotLost(y: State, sid: nat, x: DocType) {
    sid < |y.desk.sessions| && y.desk.sessions[sid].deal.Some? ==>
      SatisfiedIfAsked(y.desk.items, y.desk.sessions[sid].deal.value, x)
  }

  /** No lost satisfaction: in every interleaving of the poll's three transactions with process_session, once
      a poll is through with a confirmed type, then at that moment and ever after its session's deal has the
      item of that type satisfied, if the poll saw the session linked, whichever session registered the
      file, or if the file is the session's own, whether it is linked before the poll or after. */
  lemma NoLostSatisfaction(e: Env, s: State, before: seq<Action>, after: seq<Action>, i: nat)
    requires Initial(s) && Run(e, s, before) && Run(e, Exec(e, s, before), after)
    requires i < |Exec(e, s, before).tasks| && ThroughWith(e, Exec(e, s, before).tasks[i])
    requires SawLink(e, Exec(e, s, before), Exec(e, s, before).tasks[i])
             || OwnSession(Exec(e, s, before), Exec(e, s, before).tasks[i])
    ensures var t := Exec(e, s, before).tasks[i];
      NotLost(Exec(e, Exec(e, s, before), after), t.session.value, e.di(t.evidence).docType.value)
  {
    TwoMoments(e, s, before, after);
    NotLostFrom(e, Exec(e, s, before), Exec(e, Exec(e, s, before), after), i);
  }

  lemma NotLostFrom(e: Env, x: State, y: State, i: nat)
    requires Inv(e, x) && Inv(e, y) && Kept(x, y) && i < |x.tasks| && ThroughWith(e, x.tasks[i])
    requires SawLink(e, x, x.tasks[i]) || OwnSession(x, x.tasks[i])
    ensures NotLost(y, x.tasks[i].session.value, e.di(x.tasks[i].evidence).docType.value)
  {
    var t := x.tasks[i];
    assert TaskOk(e, x, t);
    var (yes, no) := (Settlement(t.file, t.session.value, e.di(t.evidence).docType.value, true),
                      Settlement(t.file, t.session.value, e.di(t.evidence).docType.value, false));
    assert FileKept(x.desk.files[t.file], y.desk.files[t.file]);
    if yes in x.hist.settled {
      assert yes in y.hist.settled && SettledOk(y, yes);
    } else {
      assert no in y.hist.settled && SettledOk(y, no);
    }
  }

  /** The same from the step itself, in every state a run reaches: an item that is marked is never lost,
      whatever session the file is registered in. */
  lemma MarkedIsNeverLost(e: Env, x: State, i: nat, after: seq<Action>)
    requires Inv(e, x) && Enabled(e, x, MarkItem(i)) && Run(e, MarkItemStep(e, x, i), after)
    ensures x.tasks[i].session.Some?
    ensures NotLost(Exec(e, MarkItemStep(e, x, i), after), x.tasks[i].session.value,
                    e.di(x.tasks[i].evidence).docType.value)
  {
    MarkItemSafe(e, x, i);
    RunSafe(e, MarkItemStep(e, x, i), after);
    MarkedFrom(e, x, i, MarkItemStep(e, x, i), Exec(e, MarkItemStep(e, x, i), after));
  }

  lemma MarkedFrom(e: Env, x: State, i: nat, x': State, y: State)
    requires Inv(e, x) && Enabled(e, x, MarkItem(i)) && x' == MarkItemStep(e, x, i) && Kept(x', y) && Inv(e, y)
    ensures x.tasks[i].session.Some? && NotLost(y, x.tasks[i].session.value, e.di(x.tasks[i].evidence).docType.value)
  {
    var t := x.tasks[i];
    assert TaskOk(e, x, t);
    var k := Settlement(t.file, t.session.value, e.di(t.evidence).docType.value, true);
    assert k in x'.hist.settled && k in y.hist.settled && SettledOk(y, k);
  }

  /** The step that links a session to the deal it creates. */
  ghost predicate Links(e: Env, x: State, a: Action, sid: nat) {
    && Enabled(e, x, a) && a.Process? && sid < |x.desk.sessions| && x.desk.sessions[sid].deal.None?
    && sid < |Apply(e, x, a).desk.sessions| && Apply(e, x, a).desk.sessions[sid].deal.Some?
  }

  /** The rest, exactly: a poll that saw no link is decided by the later link. Its document counts for the new
      deal if and only if the deal does not ask for the type or the transaction sees a file of the type in the
      session itself; and if it counts then, it counts ever after. */
  lemma LinkDecides(e: Env, s: State, before: seq<Action>, a: Action, after: seq<Action>, k: Settlement)
    requires Initial(s) && Run(e, s, before) && k in Exec(e, s, before).hist.settled
    requires Links(e, Exec(e, s, before), a, k.session) && Run(e, Apply(e, Exec(e, s, before), a), after)
    ensures var x := Exec(e, s, before);
      NotLost(Apply(e, x, a), k.session, k.docType) <==>
      DefaultOf(InferDealType(a.fields), k.docType).None? || SeenAs(x.desk.files, k.session, e.projection, k.docType)
    ensures var x' := Apply(e, Exec(e, s, before), a);
      NotLost(x', k.session, k.docType) ==> NotLost(Exec(e, x', after), k.session, k.docType)
  {
    InitialInv(e, s);
    RunSafe(e, s, before);
    var x := Exec(e, s, before);
    LinkingStep(e, x, a, k.session);
    StepSafe(e, x, a);
    RunSafe(e, Apply(e, x, a), after);
    LinkedIff(e, x, k.session, a.fields, Apply(e, x, a), k.docType);
    if NotLost(Apply(e, x, a), k.session, k.docType) {
      NotLostStays(e, Apply(e, x, a), Exec(e, Apply(e, x, a), after), k.session, k.docType);
    }
  }

  lemma LinkingStep(e: Env, x: State, a: Action, sid: nat)
    requires Inv(e, x) && Links(e, x, a, sid)
    ensures NewDealStep(e, x, sid, a.fields, Apply(e, x, a))
    ensures Apply(e, x, a).desk.sessions[sid].deal == Some(|x.desk.book.deals|)
  {
    LinkingProcess(e, x, a.i, a.fields, a.match_, sid);
  }

  /** Of the branches of process_session only the one that finds no deal writes a link, and only its session's. */
  lemma FlushedLinks(x: Desk, flushed: nat, e: Env, now: real, b: BookingFields, m: Match, sid: nat)
    requires sid < |x.sessions| && x.sessions[sid].deal.None?
    requires var y := Flushed(x, flushed, e.projection, now, e.world, b, m).0;
             sid < |y.sessions| && y.sessions[sid].deal.Some?
    ensures sid == flushed && m == NoMatch && Ready(x, sid, e.projection)
    ensures Flushed(x, flushed, e.projection, now, e.world, b, m).0.sessions[sid].deal ==
            Some(CreateSpec(x.book.deals, Fresh(BookingOf(e.world, x.sessions[sid], sid, b), e.world.pendingName)).1)
  {}

  lemma LinkingProcess(e: Env, x: State, i: nat, b: BookingFields, m: Match, sid: nat)
    requires Enabled(e, x, Process(i, b, m)) && sid < |x.desk.sessions| && x.desk.sessions[sid].deal.None?
    requires sid < |ProcessStep(e, x, i, b, m).desk.sessions|
    requires ProcessStep(e, x, i, b, m).desk.sessions[sid].deal.Some?
    ensures NewDealStep(e, x, sid, b, ProcessStep(e, x, i, b, m))
    ensures ProcessStep(e, x, i, b, m).desk.sessions[sid].deal == Some(|x.desk.book.deals|)
  {
    FlushedLinks(x.desk, x.tasks[i].flushed, e, x.outbox.now, b, m, sid);
  }

  lemma LinkedIff(e: Env, x: State, sid: nat, b: BookingFields, x': State, t: DocType)
    requires Inv(e, x) && NewDealStep(e, x, sid, b, x') && sid < |x'.desk.sessions|
    requires x'.desk.sessions[sid].deal == Some(|x.desk.book.deals|)
    ensures NotLost(x', sid, t) <==> DefaultOf(InferDealType(b), t).None? || SeenAs(x.desk.files, sid, e.projection, t)
  {
    if DefaultOf(InferDealType(b), t).Some? {
      LinkSatisfiesIff(e, x, sid, b, x', t);
    } else {
      NotAsked(e, x, sid, b, x', t);
    }
  }

  lemma NotAsked(e: Env, x: State, sid: nat, b: BookingFields, x': State, t: DocType)
    requires Inv(e, x) && NewDealStep(e, x, sid, b, x') && DefaultOf(InferDealType(b), t).None?
    ensures (|x.desk.book.deals|, t) !in x'.desk.items
  {
    var d := |x.desk.book.deals|;
    NewDealItems(e, x, sid, b, x');
    SessionFilesMeans(x.desk.files, sid, e.projection);
    SatisfyKeeps(InitialiseSpec(x.desk.items, d, InferDealType(b)), d, SessionFiles(x.desk.files, sid, e.projection),
                 x.desk.files);
    InitialiseMeans(x.desk.items, d, InferDealType(b), (d, t));
    assert (d, t) in x'.desk.items <==> (d, t) in x'.desk.items.Keys;
  }

  lemma NotLostStays(e: Env, x: State, y: State, sid: nat, t: DocType)
    requires Inv(e, x) && Kept(x, y) && NotLost(x, sid, t) && sid < |x.desk.sessions| && x.desk.sessions[sid].deal.Some?
    ensures NotLost(y, sid, t)
  {
    var r := x.desk.sessions[sid];
    assert Moves(r, y.desk.sessions[sid]) && LinkOk(x, r);
    var k := (r.deal.value, t);
    if k in x.desk.items { assert ItemKept(k, x.desk.items, y.desk.items, y.desk.files); }
  }

  /** At y: a deal made by process_session holds exactly the items of its type, each satisfied one with the
      evidence of a file classified so; a complete session has a deal all of whose blocking items are
      satisfied. From x to y: no item is dropped, retyped or loses its satisfaction. */
  ghost predicate ChecklistsSafe(x: State, y: State) {
    && (forall d | y.hist.inherited <= d < |y.desk.book.deals| :: CreatedOk(y, d))
    && (forall sid | 0 <= sid < |y.desk.sessions| && y.desk.sessions[sid].state == SessionState.Complete ::
         sid in y.hist.completed && CompletedOk(y, sid))
    && (forall k | k in x.desk.items :: Monotone(x.desk.items, y.desk.items, k))
  }

  ghost predicate Monotone(items: Items, items': Items, k: (nat, DocType))
    requires k in items
  {
    k in items' && items'[k].requirement == items[k].requirement && (items[k].satisfied ==> items'[k].satisfied)
  }

  lemma CompletionSafety(e: Env, s: State, before: seq<Action>, after: seq<Action>)
    requires Initial(s) && Run(e, s, before) && Run(e, Exec(e, s, before), after)
    ensures ChecklistsSafe(Exec(e, s, before), Exec(e, Exec(e, s, before), after))
    ensures Exec(e, Exec(e, s, before), after).hist.inherited == |s.desk.book.deals|
  {
    TwoMoments(e, s, before, after);
    ChecklistsFrom(e, Exec(e, s, before), Exec(e, Exec(e, s, before), after));
  }

  lemma ChecklistsFrom(e: Env, x: State, y: State)
    requires Inv(e, y) && Kept(x, y)
    ensures ChecklistsSafe(x, y)
  {
    forall k | k in x.desk.items ensures Monotone(x.desk.items, y.desk.items, k) {
      assert ItemKept(k, x.desk.items, y.desk.items, y.desk.files);
    }
  }

  /** The deal table over all runs: one deal per booking number, one review per (deal, reason), and no deal
      changed but from provisional to confirmed. */
  ghost predicate DealTableSafe(x: State, y: State) {
    && UniqueNumbers(y.desk.book.deals) && UniqueReviews(y.desk.book.reviews)
    && DealsGrow(x.desk.book.deals, y.desk.book.deals)
  }

  lemma DealsOverRuns(e: Env, s: State, before: seq<Action>, after: seq<Action>)
    requires Initial(s) && Run(e, s, before) && Run(e, Exec(e, s, before), after)
    ensures DealTableSafe(Exec(e, s, before), Exec(e, Exec(e, s, before), after))
  {
    TwoMoments(e, s, before, after);
    DealTableFrom(e, Exec(e, s, before), Exec(e, Exec(e, s, before), after));
  }

  lemma DealTableFrom(e: Env, x: State, y: State)
    requires Inv(e, y) && Kept(x, y)
    ensures DealTableSafe(x, y)
  {}

  /** The step confirms deal d: a ready session of its tenant whose booking number is the deal's. */
  ghost predicate ConfirmsExactly(e: Env, x: State, a: Action, d: nat) {
    && Enabled(e, x, a) && a.Process? && a.match_ == Exact(d)
    && var sid := x.tasks[a.i].flushed;
    && Ready(x.desk, sid, e.projection) && d < |x.desk.book.deals| && x.desk.book.deals[d].state == Provisional
    && x.desk.book.deals[d].tenant == x.desk.sessions[sid].tenant
    && x.desk.book.deals[d].number == BookingNumber(e.world, sid, a.fields)
  }

  ghost predicate ExactHitIn(e: Env, s: State, acts: seq<Action>, d: nat)
    requires Run(e, s, acts)
    decreases |acts|
  {
    acts != [] && (ConfirmsExactly(e, s, acts[0], d) || ExactHitIn(e, Apply(e, s, acts[0]), acts[1..], d))
  }

  predicate IsConfirmed(s: State, d: nat) { d < |s.desk.book.deals| && s.desk.book.deals[d].state == Confirmed }

  lemma OnlyProcessTouchesDeals(e: Env, s: State, a: Action)
    requires Enabled(e, s, a) && !a.Process?
    ensures Apply(e, s, a).desk.book == s.desk.book
  {}

  lemma ConfirmedStep(e: Env, s: State, a: Action, d: nat)
    requires Inv(e, s) && Enabled(e, s, a) && !IsConfirmed(s, d) && IsConfirmed(Apply(e, s, a), d)
    ensures ConfirmsExactly(e, s, a, d)
  {
    if a.Process? {
      ConfirmedByProcess(e, s, a, d);
    } else {
      OnlyProcessTouchesDeals(e, s, a);
    }
  }

  lemma ConfirmedByProcess(e: Env, s: State, a: Action, d: nat)
    requires Inv(e, s) && Enabled(e, s, a) && a.Process? && !IsConfirmed(s, d)
    requires IsConfirmed(ProcessStep(e, s, a.i, a.fields, a.match_), d)
    ensures ConfirmsExactly(e, s, a, d)
  {
    var sid := s.tasks[a.i].flushed;
    assert TaskOk(e, s, s.tasks[a.i]);
    var x := Flushed(s.desk, sid, e.projection, s.outbox.now, e.world, a.fields, a.match_).0;
    assert Ready(s.desk, sid, e.projection);
    var k := BookingOf(e.world, s.desk.sessions[sid], sid, a.fields);
    assert x.book.deals == Settle(s.desk.book, k, e.world.pendingName, a.match_).deals;
    ConfirmStep(s.desk.book.deals, s.desk.book, k, e.world.pendingName, e.world.sim, a.match_, d);
    FindMeans(s.desk.book.deals, e.world.sim, k.query, a.match_);
  }

  /** Over all runs of the pipeline, a deal that becomes confirmed was hit exactly: some session of its tenant,
      flushed and ready, carried its booking number while it was provisional. */
  lemma {:induction false} ConfirmedByExactHit(e: Env, s: State, acts: seq<Action>, d: nat)
    requires Inv(e, s) && Run(e, s, acts) && !IsConfirmed(s, d) && IsConfirmed(Exec(e, s, acts), d)
    ensures ExactHitIn(e, s, acts, d)
    decreases |acts|
  {
    var s1 := Apply(e, s, acts[0]);
    if IsConfirmed(s1, d) {
      ConfirmedStep(e, s, acts[0], d);
    } else {
      StepSafe(e, s, acts[0]);
      ConfirmedByExactHit(e, s1, acts[1..], d);
    }
  }

  /** As the file query is written, a flushed session is ready exactly when it has no file at all; with the
      classification columns selected, exactly when all its files are stored and typed. */
  lemma ReadyIff(x: Desk, sid: nat)
    requires sid < |x.sessions|
    ensures Ready(x, sid, AsWritten) <==> forall i | 0 <= i < |x.files| :: x.files[i].session != sid
    ensures Ready(x, sid, Full) <==>
      forall i | 0 <= i < |x.files| && x.files[i].session == sid ::
          x.files[i].state == Stored && x.files[i].docType.Some?
  {
    SessionFilesMeans(x.files, sid, AsWritten);
    SessionFilesMeans(x.files, sid, Full);
    var mine := Filter(x.files, InSession(sid));
    var (r, q) := (SessionFiles(x.files, sid, AsWritten), SessionFiles(x.files, sid, Full));
    if r != [] {
      assert mine[0] in x.files && InSession(sid)(mine[0]);
      assert r[0].docType.None?;
    }
    forall j | 0 <= j < |q| ensures q[j] in x.files && q[j].session == sid { assert mine[j] in mine; }
    if Ready(x, sid, AsWritten) {
      assert r == [];
      forall i | 0 <= i < |x.files| ensures x.files[i].session != sid {
        assert Project(AsWritten)(x.files[i]) in r || x.files[i].session != sid;
      }
    }
    if Ready(x, sid, Full) {
      forall i | 0 <= i < |x.files| && x.files[i].session == sid
        ensures x.files[i].state == Stored && x.files[i].docType.Some?
      {
        assert Project(Full)(x.files[i]) in q;
      }
    }
  }

  predicate OfferedBy(f: File, x: DocType) { Typed(f.docType) && f.document.Some? && f.docType.value == x }

  /** A file in hand may satisfy an item of type x. */
  ghost predicate Offers(files: seq<File>, x: DocType) { exists j :: 0 <= j < |files| && OfferedBy(files[j], x) }

  lemma {:induction false} SatisfyIff(items: Items, d: nat, files: seq<File>, x: DocType)
    requires (d, x) in items
    ensures (d, x) in Satisfy(items, d, files)
    ensures Satisfy(items, d, files)[(d, x)].satisfied <==>
            items[(d, x)].satisfied || Offers(files, x)
    decreases |files|
  {
    if files != [] {
      var n := |files| - 1;
      SatisfyIff(items, d, files[..n], x);
      if OfferedBy(files[n], x) { assert Offers(files, x); }
      if Satisfy(items, d, files[..n])[(d, x)].satisfied && !items[(d, x)].satisfied {
        var j :| 0 <= j < n && OfferedBy(files[..n][j], x);
        assert files[..n][j] == files[j];
      }
    }
  }

  /** A file of the session that the transaction sees, classified x. */
  ghost predicate SeenAs(fs: seq<File>, sid: nat, p: Projection, x: DocType) {
    p.Full? && exists i :: 0 <= i < |fs| && ClassifiedIn(fs[i], sid, x)
  }

  predicate ClassifiedIn(f: File, sid: nat, x: DocType) {
    f.session == sid && f.docType == Some(x) && f.document.Some?
  }

  lemma SeenIff(fs: seq<File>, sid: nat, p: Projection, x: DocType)
    requires Typed(Some(x))
    ensures SeenAs(fs, sid, p, x) <==> Offers(SessionFiles(fs, sid, p), x)
  {
    var files := SessionFiles(fs, sid, p);
    SessionFilesMeans(fs, sid, p);
    if SeenAs(fs, sid, p, x) {
      var i :| 0 <= i < |fs| && ClassifiedIn(fs[i], sid, x);
      var j :| 0 <= j < |files| && files[j] == Project(p)(fs[i]);
      assert OfferedBy(files[j], x);
    }
    if Offers(files, x) {
      var j :| 0 <= j < |files| && OfferedBy(files[j], x);
      SeenFrom(fs, sid, p, j);
    }
  }

  lemma SeenFrom(fs: seq<File>, sid: nat, p: Projection, j: nat)
    requires j < |SessionFiles(fs, sid, p)|
    requires SessionFiles(fs, sid, p)[j].document.Some? && SessionFiles(fs, sid, p)[j].docType.Some?
    ensures SeenAs(fs, sid, p, SessionFiles(fs, sid, p)[j].docType.value)
  {
    var mine := Filter(fs, InSession(sid));
    assert mine[j] in fs && InSession(sid)(mine[j]);
    var i :| 0 <= i < |fs| && fs[i] == mine[j];
    assert ClassifiedIn(fs[i], sid, fs[i].docType.value);
  }

  lemma NewlySatisfiedIff(x: Desk, sid: nat, p: Projection, d: nat, t: DealType, y: DocType)
    requires (d, y) !in x.items && DefaultOf(t, y).Some? && Typed(Some(y))
    ensures var r := Satisfy(InitialiseSpec(x.items, d, t), d, SessionFiles(x.files, sid, p));
      (d, y) in r && (r[(d, y)].satisfied <==> SeenAs(x.files, sid, p, y))
  {
    InitialiseMeans(x.items, d, t, (d, y));
    SatisfyIff(InitialiseSpec(x.items, d, t), d, SessionFiles(x.files, sid, p), y);
    SeenIff(x.files, sid, p, y);
  }

  lemma NewDealItems(e: Env, s: State, sid: nat, b: BookingFields, s': State)
    requires NewDealStep(e, s, sid, b, s')
    ensures s'.desk.items == Satisfy(InitialiseSpec(s.desk.items, |s.desk.book.deals|, InferDealType(b)),
                                     |s.desk.book.deals|, SessionFiles(s.desk.files, sid, e.projection))
  {}

  /** The new deal's item of a required type starts satisfied exactly when a file registered in the session
      itself has that type, whatever its verdict, and the file query shows it: a document polled for this
      session but registered in an earlier one is not counted, nor is any file as the query is written. */
  lemma LinkSatisfiesIff(e: Env, s: State, sid: nat, b: BookingFields, s': State, x: DocType)
    requires Inv(e, s) && NewDealStep(e, s, sid, b, s')
    requires DefaultOf(InferDealType(b), x).Some?
    ensures var k := (|s.desk.book.deals|, x);
      k in s'.desk.items && (s'.desk.items[k].satisfied <==> SeenAs(s.desk.files, sid, e.projection, x))
  {
    var d := |s.desk.book.deals|;
    NewDealItems(e, s, sid, b, s');
    assert (d, x) !in s.desk.items && Typed(Some(x));
    NewlySatisfiedIff(s.desk, sid, e.projection, d, InferDealType(b), x);
  }
}
