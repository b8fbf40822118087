/** send_message (api/routes.py) as a protocol: reserve, call Meta and record are separate steps that
    interleave across any number of callers, and a caller may die between any two of them. */
module SendProtocol {
  import opened Wrappers
  import opened Rows
  import opened Api

  datatype Outcome = Ack(wamid: string) | Refused(failure: Failure)

  /** How far an attempt has got; a dead one may have been answered by Meta before it died. */
  datatype Status = Held | Answered(o: Outcome) | Recorded(o: Outcome) | Dead(met: Option<Outcome>)

  /** A caller that reserved a row: a first attempt, or a retry of a failed one. */
  datatype Attempt = Attempt(id: nat, tenant: nat, request: Request, status: Status)

  /** A 200 answer without a send. */
  datatype Replay = Replay(tenant: nat, id: nat, wamid: Option<string>)

  /** The tables; and as history all attempts in order of reservation, the rows with a recorded
      failure, and the replays answered. */
  datatype State = State(db: Db, attempts: seq<Attempt>, failed: set<nat>, replays: seq<Replay>)

  datatype Action =
    | ChangeRoutes(routes: seq<Route>)
    | Begin(t: nat, key: Option<string>, request: Request, caller: string, newId: nat, raced: bool)
    | Meta(a: nat, o: Outcome)
    | Finish(a: nat)
    | Crash(a: nat)

  predicate Live(st: Status) { st.Held? || st.Answered? }

  /** Meta acknowledged the send. */
  predicate Acked(st: Status) {
    match st
    case Held => false
    case Answered(o) => o.Ack?
    case Recorded(o) => o.Ack?
    case Dead(met) => met.Some? && met.value.Ack?
  }

  predicate Enabled(s: State, act: Action) {
    match act
    case ChangeRoutes(_) => true
    case Begin(_, _, _, _, _, _) => true
    case Meta(a, _) => a < |s.attempts| && s.attempts[a].status.Held?
    case Finish(a) => a < |s.attempts| && s.attempts[a].status.Answered?
    case Crash(a) => a < |s.attempts| && Live(s.attempts[a].status)
  }

  function SetStatus(s: State, a: nat, st: Status): State
    requires a < |s.attempts|
  {
    s.(attempts := s.attempts[a := s.attempts[a].(status := st)])
  }

  function BeginStep(s: State, act: Action): State
    requires act.Begin?
  {
    var (db', r) := ReserveSpec(s.db, act.t, act.key, act.request, act.caller, act.newId, act.raced);
    match r
    case Reserved(id, _) =>
      s.(db := db', attempts := s.attempts + [Attempt(id, act.t, act.request, Held)])
    case OneMessage(_, m) => s.(replays := s.replays + [Replay(act.t, m.id, m.wamid)])
    case _ => s
  }

  function FinishStep(s: State, a: nat): State
    requires a < |s.attempts| && s.attempts[a].status.Answered?
  {
    var at := s.attempts[a];
    var s' := SetStatus(s, a, Recorded(at.status.o));
    match at.status.o
    case Ack(wamid) => s'.(db := RecordSentSpec(s.db, at.tenant, at.id, wamid).0)
    case Refused(f) => s'.(db := RecordFailedSpec(s.db, at.tenant, at.id, f).0, failed := s.failed + {at.id})
  }

  function Apply(s: State, act: Action): State
    requires Enabled(s, act)
  {
    match act
    case ChangeRoutes(routes) => s.(db := s.db.(routes := routes))
    case Begin(_, _, _, _, _, _) => BeginStep(s, act)
    case Meta(a, o) => SetStatus(s, a, Answered(o))
    case Finish(a) => FinishStep(s, a)
    case Crash(a) =>
      SetStatus(s, a, Dead(if s.attempts[a].status.Held? then None else Some(s.attempts[a].status.o)))
  }

  ghost predicate Run(s: State, acts: seq<Action>)
    decreases |acts|
  {
    acts == [] || (Enabled(s, acts[0]) && Run(Apply(s, acts[0]), acts[1..]))
  }

  ghost function Exec(s: State, acts: seq<Action>): State
    requires Run(s, acts)
    decreases |acts|
  {
    if acts == [] then s else Exec(Apply(s, acts[0]), acts[1..])
  }

  /** No message yet; any routes. */
  ghost predicate Initial(s: State) {
    s.db.messages == [] && s.attempts == [] && s.failed == {} && s.replays == []
  }

  // ---- rows by id --------------------------------------------------------------------------------

  function Row(s: State, id: nat): Option<Message> { First(s.db.messages, MessageId(id)) }

  ghost predicate UniqueIds(ms: seq<Message>) { forall i, j | 0 <= i < j < |ms| :: ms[i].id != ms[j].id }

  /** The unique index on (tenant_id, idempotency_key). */
  ghost predicate UniqueKeys(ms: seq<Message>) {
    forall i, j | 0 <= i < j < |ms| && ms[i].key.Some? && ms[i].tenant == ms[j].tenant :: ms[i].key != ms[j].key
  }

  lemma {:induction false} FirstAppend(ms: seq<Message>, m: Message, where: Message -> bool)
    ensures First(ms + [m], where) ==
            if First(ms, where).Some? then First(ms, where) else if where(m) then Some(m) else None
  {
    if ms != [] {
      assert (ms + [m])[1..] == ms[1..] + [m];
      FirstAppend(ms[1..], m, where);
    }
  }

  /** Under unique ids the row with an id is the only one. */
  lemma RowIsUnique(ms: seq<Message>, k: nat, id: nat)
    requires UniqueIds(ms) && k < |ms| && ms[k].id == id
    ensures First(ms, MessageId(id)) == Some(ms[k])
  {
    var r := First(ms, MessageId(id)).value;
    var j :| 0 <= j < |ms| && ms[j] == r;
  }

  /** UPDATE ... WHERE id and tenant, read back by id. */
  lemma RowAfterUpdate(ms: seq<Message>, id: nat, t: nat, change: Message -> Message, j: nat)
    requires UniqueIds(ms) && UniqueKeys(ms)
    requires First(ms, MessageId(id)).Some? && First(ms, MessageId(id)).value.tenant == t
    requires forall m: Message :: change(m).id == m.id && change(m).key == m.key && change(m).tenant == m.tenant
    ensures var ms' := UpdateFirst(ms, MessageKey(id, t), change);
            && UniqueIds(ms') && UniqueKeys(ms')
            && First(ms', MessageId(j)) ==
               (if j == id then Some(change(First(ms, MessageId(id)).value)) else First(ms, MessageId(j)))
  {
    var r := First(ms, MessageId(id)).value;
    assert MessageKey(id, t)(r) && r in ms;
    assert First(ms, MessageKey(id, t)).Some?;
    var k := UpdateFirstAt(ms, MessageKey(id, t), change);
    RowIsUnique(ms, k, id);
    RowReplaced(ms, k, change(ms[k]), j);
  }

  lemma RowReplaced(ms: seq<Message>, k: nat, m: Message, j: nat)
    requires UniqueIds(ms) && UniqueKeys(ms) && k < |ms|
    requires m.id == ms[k].id && m.key == ms[k].key && m.tenant == ms[k].tenant
    ensures UniqueIds(ms[k := m]) && UniqueKeys(ms[k := m])
    ensures First(ms[k := m], MessageId(j)) == if j == m.id then Some(m) else First(ms, MessageId(j))
  {
    var ms' := ms[k := m];
    if j == m.id {
      RowIsUnique(ms', k, j);
    } else if First(ms, MessageId(j)).Some? {
      var i :| 0 <= i < |ms| && ms[i] == First(ms, MessageId(j)).value;
      RowIsUnique(ms', i, j);
    }
  }

  // ---- what every run keeps, however callers overlap -----------------------------------------------

  /** The attempt's row exists and carries the request the attempt sends. */
  ghost predicate HasRow(s: State, at: Attempt) {
    Row(s, at.id).Some? && Row(s, at.id).value.tenant == at.tenant && Row(s, at.id).value.payload == at.request
  }

  /** Some attempt's acknowledged send gave the row this wamid. */
  ghost predicate AckedOn(s: State, id: nat, wamid: Option<string>) {
    exists a :: 0 <= a < |s.attempts| && s.attempts[a].id == id && AckedWith(s.attempts[a].status, wamid)
  }

  predicate AckedWith(st: Status, wamid: Option<string>) {
    st.Recorded? && st.o.Ack? && wamid == Some(st.o.wamid)
  }

  ghost predicate RowOk(s: State, m: Message) {
    match m.state
    case Pending => PendingOk(s, m.id)
    case Failed => m.id in s.failed
    case Sent => AckedOn(s, m.id, m.wamid)
  }

  /** A pending row has one attempt, and that one has recorded nothing. */
  ghost predicate PendingOk(s: State, id: nat) {
    && (forall a | 0 <= a < |s.attempts| && s.attempts[a].id == id :: !s.attempts[a].status.Recorded?)
    && (forall a, b | 0 <= a < b < |s.attempts| :: s.attempts[a].id == id ==> s.attempts[b].id != id)
  }

  ghost predicate Inv(s: State) {
    && UniqueIds(s.db.messages) && UniqueKeys(s.db.messages)
    && (forall a | 0 <= a < |s.attempts| :: HasRow(s, s.attempts[a]))
    && (forall a, b | 0 <= a < b < |s.attempts| && s.attempts[a].id == s.attempts[b].id :: s.attempts[a].id in s.failed)
    && (forall id: nat | Row(s, id).Some? :: RowOk(s, Row(s, id).value))
    && (forall k | 0 <= k < |s.replays| :: AckedOn(s, s.replays[k].id, s.replays[k].wamid))
  }

  /** The three ways a reservation ends. */
  lemma BeginCases(s: State, act: Action)
    requires act.Begin? && UniqueIds(s.db.messages)
    ensures var s' := BeginStep(s, act);
      || s' == s
      || (exists m: Message ::
            && Row(s, m.id) == Some(m) && m.state == Sent
            && s' == s.(replays := s.replays + [Replay(act.t, m.id, m.wamid)]))
      || (exists m: Message ::
            && Row(s, m.id) == Some(m) && m.state == Failed && m.tenant == act.t && m.payload == act.request
            && s' == s.(attempts := s.attempts + [Attempt(m.id, act.t, act.request, Held)]))
      || (exists m: Message ::
            && Row(s, m.id).None? && m.state == Pending && m.tenant == act.t && m.payload == act.request
            && (m.key.Some? ==> First(s.db.messages, Keyed(act.t, m.key.value)).None?)
            && s' == s.(db := s.db.(messages := s.db.messages + [m]),
                        attempts := s.attempts + [Attempt(m.id, act.t, act.request, Held)]))
  {
    var (db', r) := ReserveSpec(s.db, act.t, act.key, act.request, act.caller, act.newId, act.raced);
    var e := Existing(s.db, act.t, act.key, act.raced);
    if e.Some? {
      var k :| 0 <= k < |s.db.messages| && s.db.messages[k] == e.value;
      RowIsUnique(s.db.messages, k, e.value.id);
      assert Row(s, e.value.id) == Some(e.value);
    } else if db' != s.db {
      var m := db'.messages[|s.db.messages|];
      assert Row(s, m.id).None?;
    }
  }

  /** Attempts are only added, keep what they are for, and a recorded one stays as it is. */
  ghost predicate Extends(s: State, s': State) {
    && |s.attempts| <= |s'.attempts| && s.failed <= s'.failed
    && (forall a | 0 <= a < |s.attempts| ::
         && s'.attempts[a].(status := Held) == s.attempts[a].(status := Held)
         && (s.attempts[a].status.Recorded? ==> s'.attempts[a] == s.attempts[a]))
  }

  lemma AckedOnKept(s: State, s': State, id: nat, wamid: Option<string>)
    requires AckedOn(s, id, wamid) && Extends(s, s')
    ensures AckedOn(s', id, wamid)
  {
    var a :| 0 <= a < |s.attempts| && s.attempts[a].id == id && AckedWith(s.attempts[a].status, wamid);
    assert s'.attempts[a] == s.attempts[a];
  }

  lemma ReplaysKept(s: State, s': State)
    requires Extends(s, s') && s'.replays == s.replays
    requires forall k | 0 <= k < |s.replays| :: AckedOn(s, s.replays[k].id, s.replays[k].wamid)
    ensures forall k | 0 <= k < |s'.replays| :: AckedOn(s', s'.replays[k].id, s'.replays[k].wamid)
  {
    forall k | 0 <= k < |s'.replays| ensures AckedOn(s', s'.replays[k].id, s'.replays[k].wamid) {
      AckedOnKept(s, s', s.replays[k].id, s.replays[k].wamid);
    }
  }

  /** No attempt on the row is new, and none has just recorded. */
  ghost predicate Quiet(s: State, s': State, id: nat) {
    forall a | 0 <= a < |s'.attempts| && s'.attempts[a].id == id ::
      a < |s.attempts| && (s'.attempts[a].status.Recorded? ==> s.attempts[a].status.Recorded?)
  }

  lemma RowKept(s: State, s': State, m: Message)
    requires RowOk(s, m) && Extends(s, s') && (m.state == Pending ==> Quiet(s, s', m.id))
    ensures RowOk(s', m)
  {
    match m.state
    case Sent => AckedOnKept(s, s', m.id, m.wamid);
    case Failed =>
    case Pending =>
  }

  /** Rows that stay as they are stay accounted for. */
  lemma RowsKept(s: State, s': State)
    requires Inv(s) && Extends(s, s') && s'.db.messages == s.db.messages
    requires forall id: nat | Row(s, id).Some? && Row(s, id).value.state == Pending :: Quiet(s, s', id)
    ensures forall id: nat | Row(s', id).Some? :: RowOk(s', Row(s', id).value)
  {
    forall id: nat | Row(s', id).Some? ensures RowOk(s', Row(s', id).value) {
      var r := Row(s, id).value;
      assert RowOk(s, r) && r.id == id;
      RowKept(s, s', r);
    }
  }

  lemma InvReplay(s: State, t: nat, m: Message)
    requires Inv(s) && Row(s, m.id) == Some(m) && m.state == Sent
    ensures Inv(s.(replays := s.replays + [Replay(t, m.id, m.wamid)]))
  {
    var s' := s.(replays := s.replays + [Replay(t, m.id, m.wamid)]);
    RowsKept(s, s');
    assert RowOk(s, m);
    forall k | 0 <= k < |s'.replays| ensures AckedOn(s', s'.replays[k].id, s'.replays[k].wamid) {
      AckedOnKept(s, s', s'.replays[k].id, s'.replays[k].wamid);
    }
    forall a | 0 <= a < |s'.attempts| ensures HasRow(s', s'.attempts[a]) { assert HasRow(s, s.attempts[a]); }
  }

  lemma InvRetry(s: State, t: nat, m: Message)
    requires Inv(s) && Row(s, m.id) == Some(m) && m.state == Failed && m.tenant == t
    ensures Inv(s.(attempts := s.attempts + [Attempt(m.id, t, m.payload, Held)]))
  {
    var s' := s.(attempts := s.attempts + [Attempt(m.id, t, m.payload, Held)]);
    assert RowOk(s, m);
    RowsKept(s, s');
    ReplaysKept(s, s');
    forall a | 0 <= a < |s'.attempts| ensures HasRow(s', s'.attempts[a]) {
      if a < |s.attempts| { assert HasRow(s, s.attempts[a]); }
    }
  }

  lemma InvInsert(s: State, m: Message)
    requires Inv(s) && Row(s, m.id).None? && m.state == Pending
    requires m.key.Some? ==> First(s.db.messages, Keyed(m.tenant, m.key.value)).None?
    ensures Inv(s.(db := s.db.(messages := s.db.messages + [m]),
                   attempts := s.attempts + [Attempt(m.id, m.tenant, m.payload, Held)]))
  {
    var s' := s.(db := s.db.(messages := s.db.messages + [m]),
                 attempts := s.attempts + [Attempt(m.id, m.tenant, m.payload, Held)]);
    UniqueInsert(s.db.messages, m);
    assert Row(s', m.id) == Some(m) by { FirstAppend(s.db.messages, m, MessageId(m.id)); }
    forall a | 0 <= a < |s.attempts| ensures s.attempts[a].id != m.id && HasRow(s', s.attempts[a]) {
      InsertHasRow(s, s', m, a);
    }
    ReplaysKept(s, s');
    InsertQuiet(s, s', m);
    forall id: nat | Row(s', id).Some? ensures RowOk(s', Row(s', id).value) { InsertRowOk(s, s', m, id); }
  }

  /** The new attempt is alone on its row, and on no other. */
  lemma InsertQuiet(s: State, s': State, m: Message)
    requires s'.attempts == s.attempts + [Attempt(m.id, m.tenant, m.payload, Held)] && m.state == Pending
    requires forall a | 0 <= a < |s.attempts| :: s.attempts[a].id != m.id
    ensures RowOk(s', m) && forall id: nat | id != m.id :: Quiet(s, s', id)
  {}

  lemma InsertHasRow(s: State, s': State, m: Message, a: nat)
    requires a < |s.attempts| && HasRow(s, s.attempts[a]) && Row(s, m.id).None?
    requires s'.db.messages == s.db.messages + [m]
    ensures s.attempts[a].id != m.id && HasRow(s', s.attempts[a])
  {
    FirstAppend(s.db.messages, m, MessageId(s.attempts[a].id));
  }

  lemma InsertRowOk(s: State, s': State, m: Message, id: nat)
    requires Inv(s) && Extends(s, s') && s'.db.messages == s.db.messages + [m] && Row(s', id).Some?
    requires Row(s, m.id).None? && RowOk(s', m) && (id != m.id ==> Quiet(s, s', id))
    ensures RowOk(s', Row(s', id).value)
  {
    FirstAppend(s.db.messages, m, MessageId(id));
    if id != m.id { OldRowKept(s, s', id); }
  }

  lemma OldRowKept(s: State, s': State, id: nat)
    requires Inv(s) && Extends(s, s') && Row(s, id).Some? && Quiet(s, s', id)
    ensures RowOk(s', Row(s, id).value)
  {
    assert RowOk(s, Row(s, id).value) && Row(s, id).value.id == id;
    RowKept(s, s', Row(s, id).value);
  }

  lemma UniqueInsert(ms: seq<Message>, m: Message)
    requires UniqueIds(ms) && UniqueKeys(ms) && First(ms, MessageId(m.id)).None?
    requires m.key.Some? ==> First(ms, Keyed(m.tenant, m.key.value)).None?
    ensures UniqueIds(ms + [m]) && UniqueKeys(ms + [m])
  {
    forall i | 0 <= i < |ms| ensures ms[i].id != m.id { assert !MessageId(m.id)(ms[i]); }
    forall i | 0 <= i < |ms| && ms[i].key.Some? && ms[i].tenant == m.tenant ensures ms[i].key != m.key {
      if m.key.Some? { assert !Keyed(m.tenant, m.key.value)(ms[i]); }
    }
  }

  /** A status change that records nothing. */
  lemma InvStatus(s: State, a: nat, st: Status)
    requires Inv(s) && a < |s.attempts| && Live(s.attempts[a].status) && !st.Recorded?
    ensures Inv(SetStatus(s, a, st))
  {
    var s' := SetStatus(s, a, st);
    forall b | 0 <= b < |s'.attempts| ensures HasRow(s', s'.attempts[b]) { assert HasRow(s, s.attempts[b]); }
    RowsKept(s, s');
    ReplaysKept(s, s');
  }

  /** The table after recording: only the attempt's row changes, to Sent or Failed. */
  lemma FinishRows(s: State, a: nat, id: nat)
    requires Inv(s) && a < |s.attempts| && s.attempts[a].status.Answered?
    ensures var at := s.attempts[a];
      var s' := FinishStep(s, a);
      && UniqueIds(s'.db.messages) && UniqueKeys(s'.db.messages)
      && Row(s', id) ==
         if id != at.id then Row(s, id)
         else match at.status.o
              case Ack(w) => Some(SetSent(w)(Row(s, id).value))
              case Refused(f) => Some(SetFailed(f)(Row(s, id).value))
  {
    var at := s.attempts[a];
    assert HasRow(s, at);
    var ms := s.db.messages;
    match at.status.o
    case Ack(w) =>
      RowAfterUpdate(ms, at.id, at.tenant, SetSent(w), id);
      var r := Row(s, at.id).value;
      assert MessageKey(at.id, at.tenant)(r) && r in ms;
    case Refused(f) => RowAfterUpdate(ms, at.id, at.tenant, SetFailed(f), id);
  }

  lemma InvFinish(s: State, a: nat)
    requires Inv(s) && a < |s.attempts| && s.attempts[a].status.Answered?
    ensures Inv(FinishStep(s, a))
  {
    var s' := FinishStep(s, a);
    FinishRows(s, a, s.attempts[a].id);
    assert Extends(s, s');
    ReplaysKept(s, s');
    forall b | 0 <= b < |s'.attempts| ensures HasRow(s', s'.attempts[b]) {
      assert HasRow(s, s.attempts[b]);
      FinishRows(s, a, s.attempts[b].id);
    }
    forall id: nat | Row(s', id).Some? ensures RowOk(s', Row(s', id).value) { FinishRowOk(s, a, id); }
  }

  lemma FinishRowOk(s: State, a: nat, id: nat)
    requires Inv(s) && a < |s.attempts| && s.attempts[a].status.Answered? && Row(FinishStep(s, a), id).Some?
    ensures RowOk(FinishStep(s, a), Row(FinishStep(s, a), id).value)
  {
    var at, s' := s.attempts[a], FinishStep(s, a);
    FinishRows(s, a, id);
    if id != at.id {
      assert RowOk(s, Row(s, id).value) && Row(s, id).value.id == id;
      RowKept(s, s', Row(s, id).value);
    } else if at.status.o.Ack? {
      assert AckedWith(s'.attempts[a].status, Some(at.status.o.wamid));
    }
  }

  lemma InvBegin(s: State, act: Action)
    requires Inv(s) && act.Begin?
    ensures Inv(BeginStep(s, act))
  {
    BeginCases(s, act);
    var s' := BeginStep(s, act);
    if s'.replays != s.replays {
      var m: Message :| Row(s, m.id) == Some(m) && m.state == Sent
          && s' == s.(replays := s.replays + [Replay(act.t, m.id, m.wamid)]);
      InvReplay(s, act.t, m);
    } else if s'.db == s.db && s' != s {
      var m: Message :| Row(s, m.id) == Some(m) && m.state == Failed && m.tenant == act.t && m.payload == act.request
               && s' == s.(attempts := s.attempts + [Attempt(m.id, act.t, act.request, Held)]);
      InvRetry(s, act.t, m);
    } else if s' != s {
      var m: Message :| Row(s, m.id).None? && m.state == Pending && m.tenant == act.t && m.payload == act.request
        && (m.key.Some? ==> First(s.db.messages, Keyed(act.t, m.key.value)).None?)
        && s' == s.(db := s.db.(messages := s.db.messages + [m]),
                    attempts := s.attempts + [Attempt(m.id, act.t, act.request, Held)]);
      InvInsert(s, m);
    }
  }

  lemma InvStep(s: State, act: Action)
    requires Inv(s) && Enabled(s, act)
    ensures Inv(Apply(s, act))
  {
    match act
    case ChangeRoutes(routes) =>
      var s' := Apply(s, act);
      assert forall id :: Row(s', id) == Row(s, id);
      assert forall at | HasRow(s, at) :: HasRow(s', at);
      assert forall id, w :: AckedOn(s, id, w) == AckedOn(s', id, w);
      assert forall id :: PendingOk(s, id) == PendingOk(s', id);
    case Begin(_, _, _, _, _, _) => InvBegin(s, act);
    case Meta(a, o) => InvStatus(s, a, Answered(o));
    case Finish(a) => InvFinish(s, a);
    case Crash(a) =>
      InvStatus(s, a, Dead(if s.attempts[a].status.Held? then None else Some(s.attempts[a].status.o)));
  }

  lemma {:induction false} InvRun(s: State, acts: seq<Action>)
    requires Inv(s) && Run(s, acts)
    ensures Inv(Exec(s, acts))
    decreases |acts|
  {
    if acts != [] {
      InvStep(s, acts[0]);
      InvRun(Apply(s, acts[0]), acts[1..]);
    }
  }

  lemma InitialInv(s: State)
    requires Initial(s)
    ensures Inv(s)
  {}

  /** For any number of callers, overlaps and crashes: one row per (tenant, key); every Meta call carries
      the stored payload; two attempts on a row mean a failure was recorded before the second began; and
      a replay returns the wamid of an acknowledged send of its row. */
  lemma SendInvariants(s: State, acts: seq<Action>)
    requires Initial(s) && Run(s, acts)
    ensures var e := Exec(s, acts);
      && UniqueKeys(e.db.messages)
      && (forall a | 0 <= a < |e.attempts| :: HasRow(e, e.attempts[a]))
      && (forall a, b | 0 <= a < b < |e.attempts| && e.attempts[a].id == e.attempts[b].id ::
          e.attempts[a].id in e.failed)
      && (forall k | 0 <= k < |e.replays| :: AckedOn(e, e.replays[k].id, e.replays[k].wamid))
  {
    InitialInv(s);
    InvRun(s, acts);
  }

  // ---- at most once ---------------------------------------------------------------------------------

  /** No acknowledgement and none to come. */
  predicate Spent(st: Status) { !Live(st) && !Acked(st) }

  /** The call reserves a row that is already there. */
  predicate Retry(s: State, act: Action) {
    act.Begin? && BeginStep(s, act).db == s.db && |BeginStep(s, act).attempts| > |s.attempts|
  }

  function RetryId(s: State, act: Action): nat
    requires Retry(s, act)
  {
    BeginStep(s, act).attempts[|s.attempts|].id
  }

  ghost predicate SafeToRetry(s: State, id: nat) {
    forall a | 0 <= a < |s.attempts| && s.attempts[a].id == id :: Spent(s.attempts[a].status)
  }

  /** The last attempt on the row has recorded its outcome. */
  ghost predicate PreviousRecorded(s: State, id: nat) {
    forall a | 0 <= a < |s.attempts| && s.attempts[a].id == id && LastOn(s, a) :: s.attempts[a].status.Recorded?
  }

  ghost predicate LastOn(s: State, a: nat)
    requires a < |s.attempts|
  {
    forall b | a < b < |s.attempts| :: s.attempts[b].id != s.attempts[a].id
  }

  /** No retry of the row begins while an attempt on it is live or acknowledged... */
  ghost predicate SafeRunOn(s: State, acts: seq<Action>, id: nat)
    requires Run(s, acts)
    decreases |acts|
  {
    acts == [] || ((RetryOf(s, acts[0], id) ==> SafeToRetry(s, id)) && SafeRunOn(Apply(s, acts[0]), acts[1..], id))
  }

  /** ...or before the attempt before it has recorded its outcome.  What callers do to other rows is open. */
  ghost predicate RecordedRunOn(s: State, acts: seq<Action>, id: nat)
    requires Run(s, acts)
    decreases |acts|
  {
    acts == [] || (PatientOn(s, acts[0], id) && RecordedRunOn(Apply(s, acts[0]), acts[1..], id))
  }

  predicate RetryOf(s: State, act: Action, id: nat) { Retry(s, act) && RetryId(s, act) == id }

  ghost predicate PatientOn(s: State, act: Action, id: nat) { RetryOf(s, act, id) ==> PreviousRecorded(s, id) }

  /** Every retry of every row waits. */
  ghost predicate RecordedRun(s: State, acts: seq<Action>)
    requires Run(s, acts)
    decreases |acts|
  {
    acts == [] || (Patient(s, acts[0]) && RecordedRun(Apply(s, acts[0]), acts[1..]))
  }

  ghost predicate Patient(s: State, act: Action) { Retry(s, act) ==> PreviousRecorded(s, RetryId(s, act)) }

  lemma {:induction false} RecordedRunOnEach(s: State, acts: seq<Action>, id: nat)
    requires Run(s, acts) && RecordedRun(s, acts)
    ensures RecordedRunOn(s, acts, id)
    decreases |acts|
  {
    if acts != [] { RecordedRunOnEach(Apply(s, acts[0]), acts[1..], id); }
  }

  /** All attempts on the row but its last are spent, and a recorded acknowledgement shows in the row. */
  ghost predicate OnceOn(s: State, id: nat) {
    && (forall a, b | 0 <= a < b < |s.attempts| && s.attempts[a].id == id == s.attempts[b].id ::
          Spent(s.attempts[a].status))
    && (forall a | 0 <= a < |s.attempts| && s.attempts[a].id == id :: AckShows(s, s.attempts[a]))
  }

  ghost predicate AckShows(s: State, at: Attempt) {
    at.status.Recorded? && at.status.o.Ack? ==> Row(s, at.id).Some? && Row(s, at.id).value.state == Sent
  }

  /** What a retry found. */
  lemma RetryRow(s: State, act: Action) returns (m: Message)
    requires Retry(s, act) && UniqueIds(s.db.messages)
    ensures act.key.Some? && act.key.value != "" && !act.raced
    ensures First(s.db.routes, ActiveOf(act.t)).Some? && Existing(s.db, act.t, act.key, act.raced) == Some(m)
    ensures m.id == RetryId(s, act) && Row(s, m.id) == Some(m)
    ensures m.state == Failed && Wanted(m, act)
    ensures BeginStep(s, act) == s.(attempts := s.attempts + [Attempt(m.id, act.t, act.request, Held)])
  {
    var e := Existing(s.db, act.t, act.key, act.raced);
    m := e.value;
    var k :| 0 <= k < |s.db.messages| && s.db.messages[k] == m;
    RowIsUnique(s.db.messages, k, m.id);
  }

  lemma OnceStep(s: State, act: Action, id: nat)
    requires Inv(s) && OnceOn(s, id) && Enabled(s, act)
    requires RetryOf(s, act, id) ==> SafeToRetry(s, id)
    ensures OnceOn(Apply(s, act), id)
  {
    match act
    case ChangeRoutes(routes) =>
      forall a | 0 <= a < |s.attempts| && s.attempts[a].id == id ensures AckShows(Apply(s, act), s.attempts[a]) {
        assert AckShows(s, s.attempts[a]);
      }
    case Begin(_, _, _, _, _, _) => OnceBegin(s, act, id);
    case Meta(a, o) => OnceStatus(s, a, Answered(o), id);
    case Finish(a) => OnceFinish(s, a, id);
    case Crash(a) =>
      OnceStatus(s, a, Dead(if s.attempts[a].status.Held? then None else Some(s.attempts[a].status.o)), id);
  }

  lemma OnceStatus(s: State, a: nat, st: Status, id: nat)
    requires Inv(s) && OnceOn(s, id) && a < |s.attempts| && Live(s.attempts[a].status) && !st.Recorded?
    ensures OnceOn(SetStatus(s, a, st), id)
  {
    var s' := SetStatus(s, a, st);
    forall b | 0 <= b < |s'.attempts| && s'.attempts[b].id == id ensures AckShows(s', s'.attempts[b]) {
      assert AckShows(s, s.attempts[b]);
    }
  }

  lemma OnceFinish(s: State, a: nat, id: nat)
    requires Inv(s) && OnceOn(s, id) && a < |s.attempts| && s.attempts[a].status.Answered?
    ensures OnceOn(FinishStep(s, a), id)
  {
    var s' := FinishStep(s, a);
    forall b | 0 <= b < |s'.attempts| && s'.attempts[b].id == id ensures AckShows(s', s'.attempts[b]) {
      assert AckShows(s, s.attempts[b]) && HasRow(s, s.attempts[b]);
      FinishRows(s, a, id);
      if b < a && s.attempts[b].id == s.attempts[a].id { assert Spent(s.attempts[b].status); }
    }
  }

  lemma OnceBegin(s: State, act: Action, id: nat)
    requires Inv(s) && OnceOn(s, id) && act.Begin?
    requires RetryOf(s, act, id) ==> SafeToRetry(s, id)
    ensures OnceOn(BeginStep(s, act), id)
  {
    var s' := BeginStep(s, act);
    BeginAttempts(s, act);
    forall b | 0 <= b < |s.attempts| && s.attempts[b].id == id ensures AckShows(s', s.attempts[b]) {
      assert AckShows(s, s.attempts[b]) && HasRow(s, s.attempts[b]);
      BeginKeepsRow(s, act, id);
    }
  }

  /** A reservation adds at most one attempt, held, and unless it is a retry on a row nobody attempted. */
  lemma BeginAttempts(s: State, act: Action)
    requires Inv(s) && act.Begin?
    ensures var (old', new') := (s.attempts, BeginStep(s, act).attempts);
      || new' == old'
      || (&& |new'| == |old'| + 1 && new' == old' + [new'[|old'|]] && new'[|old'|].status.Held?
          && (Retry(s, act) || forall a | 0 <= a < |old'| :: old'[a].id != new'[|old'|].id))
  {
    if Retry(s, act) {
      var m := RetryRow(s, act);
    } else {
      BeginCases(s, act);
      forall a | 0 <= a < |s.attempts| ensures HasRow(s, s.attempts[a]) {}
    }
  }

  lemma BeginKeepsRow(s: State, act: Action, id: nat)
    requires UniqueIds(s.db.messages) && act.Begin? && Row(s, id).Some?
    ensures Row(BeginStep(s, act), id) == Row(s, id)
  {
    BeginCases(s, act);
    var s' := BeginStep(s, act);
    if s'.db != s.db {
      FirstAppend(s.db.messages, s'.db.messages[|s.db.messages|], MessageId(id));
    }
  }

  lemma {:induction false} OnceRun(s: State, acts: seq<Action>, id: nat)
    requires Inv(s) && OnceOn(s, id) && Run(s, acts) && SafeRunOn(s, acts, id)
    ensures Inv(Exec(s, acts)) && OnceOn(Exec(s, acts), id)
    decreases |acts|
  {
    if acts != [] {
      InvStep(s, acts[0]);
      OnceStep(s, acts[0], id);
      OnceRun(Apply(s, acts[0]), acts[1..], id);
    }
  }

  /** Waiting until the previous attempt has recorded its outcome is enough to be safe. */
  lemma RecordedIsSafe(s: State, act: Action, id: nat)
    requires Inv(s) && OnceOn(s, id) && RetryOf(s, act, id) && PreviousRecorded(s, id)
    ensures SafeToRetry(s, id)
  {
    var m := RetryRow(s, act);
    forall a | 0 <= a < |s.attempts| && s.attempts[a].id == id ensures Spent(s.attempts[a].status) {
      if LastOn(s, a) {
        assert AckShows(s, s.attempts[a]);
      } else {
        var b :| a < b < |s.attempts| && s.attempts[b].id == s.attempts[a].id;
      }
    }
  }

  lemma {:induction false} RecordedRunIsSafe(s: State, acts: seq<Action>, id: nat)
    requires Inv(s) && OnceOn(s, id) && Run(s, acts) && RecordedRunOn(s, acts, id)
    ensures SafeRunOn(s, acts, id)
    decreases |acts|
  {
    if acts != [] {
      if RetryOf(s, acts[0], id) { RecordedIsSafe(s, acts[0], id); }
      InvStep(s, acts[0]);
      OnceStep(s, acts[0], id);
      RecordedRunIsSafe(Apply(s, acts[0]), acts[1..], id);
    }
  }

  ghost predicate SentTwice(s: State, id: nat) {
    exists a, b :: 0 <= a < b < |s.attempts| && s.attempts[a].id == id && s.attempts[b].id == id
                   && Acked(s.attempts[a].status) && Acked(s.attempts[b].status)
  }

  lemma OnceIsNotTwice(s: State, id: nat)
    requires OnceOn(s, id)
    ensures !SentTwice(s, id)
  {}

  /** However many callers, crashes and impatient retries of other rows: if every retry of a row begins only
      after the previous attempt on it recorded its outcome, the row gets at most one acknowledged send. */
  lemma AtMostOnceOn(s: State, acts: seq<Action>, id: nat)
    requires Initial(s) && Run(s, acts) && RecordedRunOn(s, acts, id)
    ensures !SentTwice(Exec(s, acts), id)
  {
    InitialInv(s);
    RecordedRunIsSafe(s, acts, id);
    OnceRun(s, acts, id);
    OnceIsNotTwice(Exec(s, acts), id);
  }

  ghost predicate RowKeyed(s: State, id: nat, t: nat, key: string) {
    Row(s, id).Some? && Keyed(t, key)(Row(s, id).value)
  }

  lemma KeyHasOneRow(ms: seq<Message>, t: nat, key: string, m: Message)
    requires UniqueKeys(ms) && m in ms && Keyed(t, key)(m)
    ensures First(ms, Keyed(t, key)) == Some(m)
  {
    var f := First(ms, Keyed(t, key)).value;
    var i :| 0 <= i < |ms| && ms[i] == m;
    var j :| 0 <= j < |ms| && ms[j] == f;
    assert ms[i].key == ms[j].key && ms[i].tenant == ms[j].tenant;
  }

  /** Hence, since a key has one row, a (tenant, Idempotency-Key) whose retries wait gets at most one
      acknowledged send. */
  lemma AtMostOnce(s: State, acts: seq<Action>, t: nat, key: string, a: nat, b: nat)
    requires Initial(s) && Run(s, acts)
    requires var e := Exec(s, acts);
      && a < |e.attempts| && b < |e.attempts| && RecordedRunOn(s, acts, e.attempts[a].id)
      && RowKeyed(e, e.attempts[a].id, t, key) && RowKeyed(e, e.attempts[b].id, t, key)
      && Acked(e.attempts[a].status) && Acked(e.attempts[b].status)
    ensures a == b
  {
    InitialInv(s);
    InvRun(s, acts);
    var e := Exec(s, acts);
    AtMostOnceOn(s, acts, e.attempts[a].id);
    KeyHasOneRow(e.db.messages, t, key, Row(e, e.attempts[a].id).value);
    KeyHasOneRow(e.db.messages, t, key, Row(e, e.attempts[b].id).value);
  }

  // ---- a sent row ----------------------------------------------------------------------------------------

  ghost predicate SentRow(s: State, id: nat) { Row(s, id).Some? && Row(s, id).value.state == Sent }

  /** The step records, on this row, a refusal or something else than the row says. */
  ghost predicate Overwrites(s: State, act: Action, id: nat)
    requires Enabled(s, act) && SentRow(s, id)
  {
    act.Finish? && s.attempts[act.a].id == id &&
    match s.attempts[act.a].status.o
    case Refused(_) => true
    case Ack(w) => Row(s, id).value.wamid != Some(w) || Row(s, id).value.error.Some?
  }

  /** Neither update looks at the row's status.  Of all steps of all callers exactly these change a sent row. */
  lemma SentKeptIff(s: State, act: Action, id: nat)
    requires Inv(s) && Enabled(s, act) && SentRow(s, id)
    ensures Row(Apply(s, act), id) == Row(s, id) <==> !Overwrites(s, act, id)
  {
    match act
    case Begin(_, _, _, _, _, _) => BeginKeepsRow(s, act, id);
    case Finish(a) => FinishRows(s, a, id);
    case _ =>
  }

  /** The row is the same in every state of the run. */
  ghost predicate StaysAlong(s: State, acts: seq<Action>, id: nat, m: Message)
    requires Run(s, acts)
    decreases |acts|
  {
    Row(s, id) == Some(m) && (acts == [] || StaysAlong(Apply(s, acts[0]), acts[1..], id, m))
  }

  /** No step of the run overwrites the row while it is sent. */
  ghost predicate NoneOverwrites(s: State, acts: seq<Action>, id: nat)
    requires Run(s, acts)
    decreases |acts|
  {
    || acts == []
    || (&& (SentRow(s, id) ==> !Overwrites(s, acts[0], id))
        && NoneOverwrites(Apply(s, acts[0]), acts[1..], id))
  }

  /** However callers overlap and whatever they do: a sent row stays as it is throughout a run exactly when
      no step of the run records a refusal, another wamid or a cleared error on it. */
  lemma {:induction false} SentStaysIff(s: State, acts: seq<Action>, id: nat)
    requires Inv(s) && Run(s, acts) && SentRow(s, id)
    ensures StaysAlong(s, acts, id, Row(s, id).value) <==> NoneOverwrites(s, acts, id)
    decreases |acts|
  {
    if acts != [] {
      SentKeptIff(s, acts[0], id);
      if Row(Apply(s, acts[0]), id) == Row(s, id) {
        InvStep(s, acts[0]);
        SentStaysIff(Apply(s, acts[0]), acts[1..], id);
      }
    }
  }

  lemma {:induction false} StaysToTheEnd(s: State, acts: seq<Action>, id: nat, m: Message)
    requires Run(s, acts) && StaysAlong(s, acts, id, m)
    ensures Row(Exec(s, acts), id) == Some(m)
    decreases |acts|
  {
    if acts != [] { StaysToTheEnd(Apply(s, acts[0]), acts[1..], id, m); }
  }

  /** The acknowledged attempt is the last on its row, so none with an answer to record is left. */
  lemma OnceNeverOverwrites(s: State, act: Action, id: nat)
    requires Inv(s) && OnceOn(s, id) && Enabled(s, act) && SentRow(s, id)
    ensures !Overwrites(s, act, id)
  {
    assert RowOk(s, Row(s, id).value);
  }

  lemma {:induction false} SafeNeverOverwrites(s: State, acts: seq<Action>, id: nat)
    requires Inv(s) && OnceOn(s, id) && Run(s, acts) && SafeRunOn(s, acts, id)
    ensures NoneOverwrites(s, acts, id)
    decreases |acts|
  {
    if acts != [] {
      InvStep(s, acts[0]);
      OnceStep(s, acts[0], id);
      if SentRow(s, id) { OnceNeverOverwrites(s, acts[0], id); }
      SafeNeverOverwrites(Apply(s, acts[0]), acts[1..], id);
    }
  }

  /** In particular a sent row whose retries are safe never changes again. */
  lemma SentAbsorbs(s: State, acts: seq<Action>, id: nat)
    requires Inv(s) && OnceOn(s, id) && Run(s, acts) && SafeRunOn(s, acts, id) && SentRow(s, id)
    ensures StaysAlong(s, acts, id, Row(s, id).value) && Row(Exec(s, acts), id) == Row(s, id)
  {
    SafeNeverOverwrites(s, acts, id);
    SentStaysIff(s, acts, id);
    StaysToTheEnd(s, acts, id, Row(s, id).value);
  }

  /** The first attempt died, whatever Meta did with it: nobody recorded anything on the row. */
  ghost predicate Stranded(s: State, id: nat) {
    && Row(s, id).Some? && Row(s, id).value.state == Pending
    && (forall a | 0 <= a < |s.attempts| && s.attempts[a].id == id :: s.attempts[a].status.Dead?)
  }

  /** A row whose first attempt crashed is never sent again, with no hypothesis on the callers. */
  lemma {:induction false} CrashedFirstIsNeverResent(s: State, acts: seq<Action>, id: nat)
    requires Inv(s) && Run(s, acts) && Stranded(s, id)
    ensures var e := Exec(s, acts);
      Row(e, id) == Row(s, id)
      && forall a | 0 <= a < |e.attempts| && e.attempts[a].id == id ::
          a < |s.attempts| && e.attempts[a] == s.attempts[a]
    decreases |acts|
  {
    if acts != [] {
      InvStep(s, acts[0]);
      StrandedStep(s, acts[0], id);
      CrashedFirstIsNeverResent(Apply(s, acts[0]), acts[1..], id);
    }
  }

  lemma StrandedStep(s: State, act: Action, id: nat)
    requires Inv(s) && Enabled(s, act) && Stranded(s, id)
    ensures var s' := Apply(s, act);
      && Stranded(s', id) && Row(s', id) == Row(s, id)
      && (forall a | 0 <= a < |s'.attempts| && s'.attempts[a].id == id ::
            a < |s.attempts| && s'.attempts[a] == s.attempts[a])
  {
    match act
    case Begin(_, _, _, _, _, _) => StrandedBegin(s, act, id);
    case Finish(a) => FinishRows(s, a, id);
    case _ =>
  }

  lemma StrandedBegin(s: State, act: Action, id: nat)
    requires Inv(s) && act.Begin? && Stranded(s, id)
    ensures var s' := BeginStep(s, act);
      && Row(s', id) == Row(s, id) && s.attempts <= s'.attempts
      && (forall a | |s.attempts| <= a < |s'.attempts| :: s'.attempts[a].id != id)
  {
    BeginKeepsRow(s, act, id);
    BeginCases(s, act);
  }

  // ---- the hypothesis is exact ------------------------------------------------------------------------

  /** From s a run in which every retry of row id waits for the previous attempt to be recorded ends with two
      acknowledged sends of the row... */
  ghost predicate EndsTwiceOn(s: State, acts: seq<Action>, id: nat) {
    Run(s, acts) && RecordedRunOn(s, acts, id) && SentTwice(Exec(s, acts), id)
  }

  /** ...or one in which every retry of any row waits. */
  ghost predicate EndsTwice(s: State, acts: seq<Action>, id: nat) {
    Run(s, acts) && RecordedRun(s, acts) && SentTwice(Exec(s, acts), id)
  }

  /** The condition on a retry is exact in every state a run can reach: begun while an attempt on its row is
      live or acknowledged, it can end in a second acknowledged send even if all callers are careful from
      there on; begun otherwise, it cannot, even if only the callers of its own row are. */
  lemma RetryIsSafeIff(s: State, act: Action)
    requires Inv(s) && Retry(s, act)
    ensures var (s', id) := (Apply(s, act), RetryId(s, act));
      && (SafeToRetry(s, id) <==> !exists acts :: EndsTwiceOn(s', acts, id))
      && (SafeToRetry(s, id) <==> !exists acts :: EndsTwice(s', acts, id))
  {
    var s', id := Apply(s, act), RetryId(s, act);
    forall acts | EndsTwice(s', acts, id) ensures EndsTwiceOn(s', acts, id) { RecordedRunOnEach(s', acts, id); }
    if SafeToRetry(s, id) {
      SpentIsOnce(s, id);
      InvStep(s, act);
      OnceStep(s, act, id);
      forall acts ensures !EndsTwiceOn(s', acts, id) { CarefulSendOnce(s', acts, id); }
    } else {
      UnsafeRetrySendsTwice(s, act);
    }
  }

  lemma SpentIsOnce(s: State, id: nat)
    requires SafeToRetry(s, id)
    ensures OnceOn(s, id)
  {}

  lemma CarefulSendOnce(s: State, acts: seq<Action>, id: nat)
    requires Inv(s) && OnceOn(s, id)
    ensures !EndsTwiceOn(s, acts, id)
  {
    if Run(s, acts) && RecordedRunOn(s, acts, id) {
      RecordedRunIsSafe(s, acts, id);
      OnceRun(s, acts, id);
      OnceIsNotTwice(Exec(s, acts), id);
    }
  }

  /** The unsafe half needs no history: it holds in every state a run can reach. */
  lemma UnsafeRetrySendsTwice(s: State, act: Action)
    requires Inv(s) && Retry(s, act) && !SafeToRetry(s, RetryId(s, act))
    ensures exists acts :: EndsTwice(Apply(s, act), acts, RetryId(s, act))
  {
    var m := RetryRow(s, act);
    var a :| 0 <= a < |s.attempts| && s.attempts[a].id == m.id && !Spent(s.attempts[a].status);
    var n, s1, wamid := |s.attempts|, Apply(s, act), "";
    assert s1 == BeginStep(s, act);
    match s.attempts[a].status
    case Held =>
      BothAcked(s1, m.id, a, n, wamid);
      var acts :| EndsTwice(s1, acts, m.id);
    case Answered(Refused(_)) => LateFailureReopens(s, act, a, wamid);
    case _ =>
      OneMoreAcked(s1, m.id, a, n, wamid);
      var acts :| EndsTwice(s1, acts, m.id);
  }

  /** An attempt on the row was acknowledged, and another goes to Meta. */
  lemma OneMoreAcked(s: State, id: nat, a: nat, n: nat, wamid: string)
    requires a < n < |s.attempts| && s.attempts[a].id == id == s.attempts[n].id
    requires Acked(s.attempts[a].status) && s.attempts[n].status.Held?
    ensures exists acts :: EndsTwice(s, acts, id)
  {
    var x := Meta(n, Ack(wamid));
    RunCons(s, x, []);
    var e := Apply(s, x);
    assert e.attempts[a].id == id && e.attempts[n].id == id;
    assert EndsTwice(s, [x] + [], id);
  }

  /** Two held attempts on a row go to Meta together. */
  lemma BothAcked(s: State, id: nat, a: nat, n: nat, wamid: string)
    requires a < n < |s.attempts| && s.attempts[a].id == id == s.attempts[n].id
    requires s.attempts[a].status.Held? && s.attempts[n].status.Held?
    ensures exists acts :: EndsTwice(s, acts, id)
  {
    var x, y := Meta(a, Ack(wamid)), Meta(n, Ack(wamid));
    RunTwo(s, x, y);
    var e := Apply(Apply(s, x), y);
    assert e.attempts[a].id == id && e.attempts[n].id == id;
    assert EndsTwice(s, [x, y], id);
  }

  lemma RunCons(s: State, act: Action, ys: seq<Action>)
    requires Enabled(s, act) && Run(Apply(s, act), ys)
    ensures Run(s, [act] + ys) && Exec(s, [act] + ys) == Exec(Apply(s, act), ys)
    ensures Patient(s, act) && RecordedRun(Apply(s, act), ys) ==> RecordedRun(s, [act] + ys)
  {
    assert ([act] + ys)[1..] == ys;
  }

  lemma RunTwo(s: State, x: Action, y: Action)
    requires Enabled(s, x) && Enabled(Apply(s, x), y)
    ensures Run(s, [x, y]) && Exec(s, [x, y]) == Apply(Apply(s, x), y)
    ensures Patient(s, x) && Patient(Apply(s, x), y) ==> RecordedRun(s, [x, y])
  {
    var s1 := Apply(s, x);
    assert [y][1..] == [];
    assert Run(Apply(s1, y), []) && RecordedRun(Apply(s1, y), []);
    assert Run(s1, [y]) && Exec(s1, [y]) == Apply(s1, y);
    RunCons(s, x, [y]);
    assert [x] + [y] == [x, y];
  }

  lemma {:induction false} RunConcat(s: State, xs: seq<Action>, ys: seq<Action>)
    requires Run(s, xs) && Run(Exec(s, xs), ys)
    ensures Run(s, xs + ys) && Exec(s, xs + ys) == Exec(Exec(s, xs), ys)
    ensures RecordedRun(s, xs) && RecordedRun(Exec(s, xs), ys) ==> RecordedRun(s, xs + ys)
    decreases |xs|
  {
    if xs == [] {
      assert xs + ys == ys;
    } else {
      assert (xs + ys)[1..] == xs[1..] + ys;
      RunConcat(Apply(s, xs[0]), xs[1..], ys);
    }
  }

  /** A held attempt goes to Meta and records the answer. */
  lemma CallAndRecord(s: State, n: nat, o: Outcome) returns (xs: seq<Action>, e: State)
    requires Inv(s) && n < |s.attempts| && s.attempts[n].status.Held?
    ensures xs == [Meta(n, o), Finish(n)] && Run(s, xs) && RecordedRun(s, xs) && e == Exec(s, xs)
    ensures Inv(e) && e.attempts == s.attempts[n := s.attempts[n].(status := Recorded(o))] && e.db.routes == s.db.routes
    ensures Row(s, s.attempts[n].id).Some?
    ensures Row(e, s.attempts[n].id) == Some(match o
                                             case Ack(w) => SetSent(w)(Row(s, s.attempts[n].id).value)
                                             case Refused(f) => SetFailed(f)(Row(s, s.attempts[n].id).value))
  {
    var s1 := Apply(s, Meta(n, o));
    InvStep(s, Meta(n, o));
    InvStep(s1, Finish(n));
    RunTwo(s, Meta(n, o), Finish(n));
    assert HasRow(s, s.attempts[n]);
    FinishRows(s1, n, s.attempts[n].id);
    xs, e := [Meta(n, o), Finish(n)], Apply(s1, Finish(n));
  }

  /** A late failure overwrites the acknowledgement recorded meanwhile, and the row is retried again. */
  lemma LateFailureReopens(s: State, act: Action, a: nat, wamid: string)
    requires Inv(s) && Retry(s, act) && a < |s.attempts| && s.attempts[a].id == RetryId(s, act)
    requires s.attempts[a].status.Answered? && s.attempts[a].status.o.Refused?
    ensures exists acts :: EndsTwice(Apply(s, act), acts, RetryId(s, act))
  {
    var m := RetryRow(s, act);
    var s1 := Apply(s, act);
    InvStep(s, act);
    var xs, s3 := CallAndRecord(s1, |s.attempts|, Ack(wamid));
    var ys := ReopenedSendsAgain(s3, |s.attempts|, a, act, wamid, m.id);
    RunConcat(s1, xs, ys);
    assert EndsTwice(s1, xs + ys, m.id);
  }

  lemma ReopenedSendsAgain(s: State, n: nat, a: nat, act: Action, wamid: string, id: nat) returns (acts: seq<Action>)
    requires Inv(s) && a < n && |s.attempts| == n + 1 && s.attempts[a].id == id == s.attempts[n].id
    requires s.attempts[n].status == Recorded(Ack(wamid)) && s.attempts[a].status.Answered?
    requires s.attempts[a].status.o.Refused?
    requires Repeatable(s, act) && Row(s, id).Some? && Wanted(Row(s, id).value, act)
    ensures EndsTwice(s, acts, id)
  {
    var s1 := FinishFails(s, a, act);
    var ys := NewestSendsTwice(s1, n, act, wamid, id);
    acts := FinishThen(s, a, s1, ys, id);
  }

  /** The call has a key, is not racing, and the tenant has an active route. */
  ghost predicate Repeatable(s: State, act: Action) {
    act.Begin? && act.key.Some? && act.key.value != "" && !act.raced && First(s.db.routes, ActiveOf(act.t)).Some?
  }

  /** The last attempt is recorded acknowledged, and the row is failed again. */
  lemma NewestSendsTwice(s: State, n: nat, act: Action, wamid: string, id: nat) returns (ys: seq<Action>)
    requires Inv(s) && |s.attempts| == n + 1 && s.attempts[n].id == id && s.attempts[n].status == Recorded(Ack(wamid))
    requires Repeatable(s, act) && Row(s, id).Some? && Row(s, id).value.id == id
    requires Row(s, id).value.state == Failed && Wanted(Row(s, id).value, act)
    ensures EndsTwice(s, ys, id)
  {
    var e;
    ys, e := RetrySends(s, act, wamid, Row(s, id).value);
    NewestSentTwice(e, n);
  }

  lemma FinishThen(s: State, a: nat, s1: State, ys: seq<Action>, id: nat) returns (acts: seq<Action>)
    requires a < |s.attempts| && s.attempts[a].status.Answered? && s1 == FinishStep(s, a) && EndsTwice(s1, ys, id)
    ensures EndsTwice(s, acts, id)
  {
    acts := RunConsOf(s, Finish(a), s1, ys, Exec(s1, ys));
  }

  /** A refusal is recorded; the row is still what the call wants. */
  lemma FinishFails(s: State, a: nat, act: Action) returns (e: State)
    requires Inv(s) && a < |s.attempts| && s.attempts[a].status.Answered? && s.attempts[a].status.o.Refused?
    requires act.Begin? && Row(s, s.attempts[a].id).Some? && Wanted(Row(s, s.attempts[a].id).value, act)
    ensures e == FinishStep(s, a) && Inv(e) && e.db.routes == s.db.routes
    ensures e.attempts == s.attempts[a := s.attempts[a].(status := Recorded(s.attempts[a].status.o))]
    ensures Row(e, s.attempts[a].id).Some? && Row(e, s.attempts[a].id).value.id == s.attempts[a].id
    ensures Row(e, s.attempts[a].id).value.state == Failed && Wanted(Row(e, s.attempts[a].id).value, act)
  {
    InvFinish(s, a);
    FinishRows(s, a, s.attempts[a].id);
    e := FinishStep(s, a);
  }

  predicate Wanted(m: Message, act: Action)
    requires act.Begin?
  {
    m.tenant == act.t && m.key == act.key && m.payload == act.request
  }

  lemma NewestSentTwice(e: State, n: nat)
    requires n + 2 == |e.attempts| && e.attempts[n].id == e.attempts[n + 1].id
    requires Acked(e.attempts[n].status) && Acked(e.attempts[n + 1].status)
    ensures SentTwice(e, e.attempts[n].id)
  {}

  lemma RunConsOf(s: State, act: Action, s1: State, ys: seq<Action>, e: State) returns (acts: seq<Action>)
    requires Enabled(s, act) && Apply(s, act) == s1 && Run(s1, ys) && Exec(s1, ys) == e
    ensures acts == [act] + ys && Run(s, acts) && Exec(s, acts) == e
    ensures Patient(s, act) && RecordedRun(s1, ys) ==> RecordedRun(s, acts)
  {
    RunCons(s, act, ys);
    acts := [act] + ys;
  }

  /** The row is failed and its last attempt recorded: the same call sends once more. */
  lemma RetrySends(s: State, act: Action, wamid: string, m: Message) returns (ys: seq<Action>, e: State)
    requires Inv(s) && Row(s, m.id) == Some(m) && m.state == Failed && Repeatable(s, act) && Wanted(m, act)
    requires |s.attempts| > 0 && s.attempts[|s.attempts| - 1].id == m.id
    requires s.attempts[|s.attempts| - 1].status.Recorded?
    ensures Run(s, ys) && RecordedRun(s, ys) && Exec(s, ys) == e
    ensures e == s.(attempts := s.attempts + [Attempt(m.id, act.t, act.request, Answered(Ack(wamid)))])
  {
    KeyHasOneRow(s.db.messages, act.t, act.key.value, m);
    assert BeginStep(s, act) == s.(attempts := s.attempts + [Attempt(m.id, act.t, act.request, Held)]);
    LastIsRecorded(s, m.id);
    var x := Meta(|s.attempts|, Ack(wamid));
    RunTwo(s, act, x);
    ys, e := [act, x], Apply(Apply(s, act), x);
  }

  lemma LastIsRecorded(s: State, id: nat)
    requires |s.attempts| > 0 && s.attempts[|s.attempts| - 1].id == id && s.attempts[|s.attempts| - 1].status.Recorded?
    ensures PreviousRecorded(s, id)
  {
    forall a | 0 <= a < |s.attempts| && s.attempts[a].id == id && LastOn(s, a) ensures s.attempts[a].status.Recorded? {
      assert a == |s.attempts| - 1;
    }
  }

  /** The first attempt of a call is refused and the failure recorded. */
  lemma FirstFails(s: State, act: Action, f: Failure) returns (xs: seq<Action>, e: State)
    requires Initial(s) && act.Begin? && First(s.db.routes, ActiveOf(act.t)).Some? && act.key.Some?
    ensures Run(s, xs) && Exec(s, xs) == e && Inv(e) && e.db.routes == s.db.routes
    ensures Row(e, act.newId).Some? && Wanted(Row(e, act.newId).value, act) && Row(e, act.newId).value.state == Failed
    ensures e.attempts == [Attempt(act.newId, act.t, act.request, Recorded(Refused(f)))]
  {
    InitialInv(s);
    var s1 := Apply(s, act);
    InvStep(s, act);
    assert s1.attempts == [Attempt(act.newId, act.t, act.request, Held)];
    var ys;
    ys, e := CallAndRecord(s1, 0, Refused(f));
    xs := RunConsOf(s, act, s1, ys, e);
  }

  /** From an empty message table and an active route, two overlapping retries of one failed call both send. */
  lemma OverlappingRetriesSendTwice(s: State, t: nat, key: string, request: Request, caller: string, id: nat,
                                    f: Failure)
    requires Initial(s) && First(s.db.routes, ActiveOf(t)).Some? && key != ""
    ensures exists acts :: Run(s, acts) && SentTwice(Exec(s, acts), id)
  {
    var act := Begin(t, Some(key), request, caller, id, false);
    var xs, s1 := FirstFails(s, act, f);
    var ys := BothRetrySend(s1, act, id);
    RunConcat(s, xs, ys);
  }

  lemma BothRetrySend(s: State, act: Action, id: nat) returns (acts: seq<Action>)
    requires Inv(s) && Repeatable(s, act)
    requires Row(s, id).Some? && Wanted(Row(s, id).value, act) && Row(s, id).value.state == Failed
    ensures Run(s, acts) && SentTwice(Exec(s, acts), id)
  {
    var m := Row(s, id).value;
    KeyHasOneRow(s.db.messages, act.t, act.key.value, m);
    var s1 := BeginStep(s, act);
    InvBegin(s, act);
    assert s1 == s.(attempts := s.attempts + [Attempt(id, act.t, act.request, Held)]);
    assert Retry(s1, act) && RetryId(s1, act) == id;
    assert !Spent(s1.attempts[|s.attempts|].status) && s1.attempts[|s.attempts|].id == id;
    UnsafeRetrySendsTwice(s1, act);
    var ys :| EndsTwice(Apply(s1, act), ys, id);
    RunCons(s1, act, ys);
    RunCons(s, act, [act] + ys);
    acts := [act] + ([act] + ys);
  }

  // ---- one caller from request to response --------------------------------------------------------------

  /** send_message with nobody else around, given Meta's answer; called tells whether Meta was asked. */
  function SendSpec(db: Db, t: nat, key: Option<string>, request: Request, caller: string, newId: nat, raced: bool,
                    answer: Outcome): (Db, Response, bool)
  {
    var (db', r) := ReserveSpec(db, t, key, request, caller, newId, raced);
    match r
    case Reserved(id, _) =>
      var (db'', r') := match answer
        case Ack(wamid) => RecordSentSpec(db', t, id, wamid)
        case Refused(f) => RecordFailedSpec(db', t, id, f);
      (db'', r', true)
    case _ => (db', r, false)
  }

  /** What one call comes to: the reservation; and if it reserved a row, Meta is asked and the row is sent with a
      201, or failed with a 502, as Meta answered. */
  ghost predicate SendMeans(db: Db, t: nat, key: Option<string>, request: Request, caller: string, newId: nat,
                            raced: bool, answer: Outcome, db': Db, r: Response, called: bool)
  {
    exists reserved: Db, verdict: Response ::
      && ReserveMeans(db, t, key, request, caller, newId, raced, reserved, verdict)
      && called == verdict.Reserved?
      && if !called then db' == reserved && r == verdict else RecordMeans(reserved, t, verdict.id, answer, db', r)
  }

  ghost predicate RecordMeans(db: Db, t: nat, id: nat, answer: Outcome, db': Db, r: Response) {
    match answer
    case Ack(wamid) => RecordSentMeans(db, t, id, wamid, db', r)
    case Refused(f) => RecordFailedMeans(db, t, id, f, db', r)
  }

  method SendMessage(service: Service, t: nat, key: Option<string>, request: Request, caller: string, newId: nat,
                     raced: bool, answer: Outcome) returns (r: Response, called: bool)
    modifies service
    ensures (service.View(), r, called) == SendSpec(old(service.View()), t, key, request, caller, newId, raced, answer)
    ensures SendMeans(old(service.View()), t, key, request, caller, newId, raced, answer, service.View(), r, called)
  {
    r := service.Reserve(t, key, request, caller, newId, raced);
    ghost var reserved, verdict := service.View(), r;
    called := r.Reserved?;
    if called {
      match answer
      case Ack(wamid) => r := service.RecordSent(t, r.id, wamid);
      case Refused(f) => r := service.RecordFailed(t, r.id, f);
    }
    assert ReserveMeans(old(service.View()), t, key, request, caller, newId, raced, reserved, verdict);
  }

  /** That caller's steps are a run of the protocol, and end in the same tables. */
  lemma SendIsARun(s: State, act: Action, answer: Outcome) returns (acts: seq<Action>)
    requires act.Begin?
    ensures var (db, _, called) :=
            SendSpec(s.db, act.t, act.key, act.request, act.caller, act.newId, act.raced, answer);
      Run(s, acts) && Exec(s, acts).db == db && (called <==> |Exec(s, acts).attempts| > |s.attempts|)
  {
    var s1 := BeginStep(s, act);
    var n := |s.attempts|;
    if |s1.attempts| > n {
      RunTwo(s1, Meta(n, answer), Finish(n));
      acts := RunConsOf(s, act, s1, [Meta(n, answer), Finish(n)], Apply(Apply(s1, Meta(n, answer)), Finish(n)));
    } else {
      RunCons(s, act, []);
      acts := [act] + [];
    }
  }

  /** The documented promise, for callers that do not overlap: repeating an acknowledged request under its
      key answers 200 with the same wamid and leaves Meta and the tables alone; another body under the key
      is refused. */
  lemma RepeatIsReplay(db: Db, t: nat, key: string, first: Request, again: Request, caller: string, id: nat, id': nat,
                       wamid: string, answer: Outcome)
    requires UniqueIds(db.messages) && UniqueKeys(db.messages) && key != ""
    requires SendSpec(db, t, Some(key), first, caller, id, false, Ack(wamid)).2
    ensures var db1 := SendSpec(db, t, Some(key), first, caller, id, false, Ack(wamid)).0;
      var (db2, r, called) := SendSpec(db1, t, Some(key), again, caller, id', false, answer);
      && !called && db2 == db1
      && (if again == first then r.OneMessage? && r.code == 200 && r.message.wamid == Some(wamid)
          else r == Error(422, "IDEMPOTENCY_KEY_REUSED"))
  {
    var m := ReservedRow(db, t, key, first, caller, id);
    var (db0, r) := ReserveSpec(db, t, Some(key), first, caller, id, false);
    SentIsReplayed(db0, t, key, m, wamid, again, caller, id');
    assert First(db0.messages, MessageKey(m.id, t)).Some? by {
      assert MessageKey(m.id, t)(m) && m in db0.messages;
    }
  }

  /** The row a reservation leaves behind. */
  lemma ReservedRow(db: Db, t: nat, key: string, request: Request, caller: string, id: nat) returns (m: Message)
    requires UniqueIds(db.messages) && UniqueKeys(db.messages) && key != ""
    requires ReserveSpec(db, t, Some(key), request, caller, id, false).1.Reserved?
    ensures var (db', r) := ReserveSpec(db, t, Some(key), request, caller, id, false);
      && UniqueIds(db'.messages) && UniqueKeys(db'.messages) && db'.routes == db.routes
      && m.id == r.id && First(db'.messages, MessageId(m.id)) == Some(m)
      && First(db.routes, ActiveOf(t)).Some? && Keyed(t, key)(m) && m.payload == request
  {
    var e := Existing(db, t, Some(key), false);
    if e.Some? {
      m := e.value;
      var k :| 0 <= k < |db.messages| && db.messages[k] == m;
      RowIsUnique(db.messages, k, m.id);
    } else {
      m := ReserveSpec(db, t, Some(key), request, caller, id, false).0.messages[|db.messages|];
      UniqueInsert(db.messages, m);
      FirstAppend(db.messages, m, MessageId(id));
    }
  }

  lemma SentIsReplayed(db: Db, t: nat, key: string, m: Message, wamid: string, again: Request, caller: string, id: nat)
    requires UniqueIds(db.messages) && UniqueKeys(db.messages) && key != ""
    requires First(db.routes, ActiveOf(t)).Some?
    requires First(db.messages, MessageId(m.id)) == Some(m) && Keyed(t, key)(m)
    ensures var db1 := db.(messages := UpdateFirst(db.messages, MessageKey(m.id, t), SetSent(wamid)));
      ReserveSpec(db1, t, Some(key), again, caller, id, false) ==
      (db1, if again == m.payload then OneMessage(200, SetSent(wamid)(m)) else Error(422, "IDEMPOTENCY_KEY_REUSED"))
  {
    RowAfterUpdate(db.messages, m.id, t, SetSent(wamid), m.id);
    KeyHasOneRow(UpdateFirst(db.messages, MessageKey(m.id, t), SetSent(wamid)), t, key, SetSent(wamid)(m));
  }
}
