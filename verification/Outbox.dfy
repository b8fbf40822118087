/** wa/outbox.py: the rows of wa.outbox, the four statements over them as functions of the table, and
    the class whose methods are the module's functions.  Row ids are positions in the table; times are
    seconds. */
module Outbox {
  import opened Wrappers

  const MAX_ATTEMPTS := 3
  const WINDOW: real := 82800.0   // 23 hours

  datatype RowState = Pending | Sent | Failed | SkippedWindow

  datatype Kind = Text | Interactive | List | Audio | Template

  datatype Row = Row(
    tenant: nat, contact: nat, session: Option<nat>, kind: Kind, buttons: bool, body: string,
    dedup: Option<string>, state: RowState, attempts: nat, sendAfter: real,
    wamid: Option<string>, error: Option<string>)

  /** The arguments of enqueue_reply. */
  datatype Message = Message(
    tenant: nat, contact: nat, session: Option<nat>, kind: Kind, buttons: bool, body: string,
    dedup: Option<string>, sendAfter: Option<real>)

  // ---- enqueue ------------------------------------------------------------------------------------

  predicate Deduplicated(m: Message) { m.session.Some? && m.dedup.Some? && m.dedup.value != "" }

  /** A pending row the dedup lookup of m finds. */
  predicate IsTwin(r: Row, m: Message) {
    r.state.Pending? && r.session == m.session && r.kind == m.kind && r.dedup == m.dedup
  }

  function Twins(rows: seq<Row>, m: Message): (t: set<nat>)
    ensures forall i :: i in t <==> 0 <= i < |rows| && IsTwin(rows[i], m)
  {
    set i: nat | i < |rows| && IsTwin(rows[i], m)
  }

  datatype Enqueued = Inserted(id: nat) | Existing(id: nat) | MultipleFound

  function NewRow(m: Message, now: real): Row {
    Row(m.tenant, m.contact, m.session, m.kind, m.buttons, m.body,
        if m.dedup == Some("") then None else m.dedup, Pending, 0,
        match m.sendAfter case Some(t) => t case None => now, None, None)
  }

  /** The lookup is made only with a session and a key; it must find at most one row. */
  ghost predicate EnqueueSpec(rows: seq<Row>, m: Message, now: real, rows': seq<Row>, r: Enqueued) {
    if Deduplicated(m) && Twins(rows, m) != {} then
      rows' == rows && (if |Twins(rows, m)| == 1 then r.Existing? && r.id in Twins(rows, m) else r.MultipleFound?)
    else rows' == rows + [NewRow(m, now)] && r == Inserted(|rows|)
  }

  /** Row i is pending for the same session, kind and key, and the message has a session and a key. */
  predicate Repeats(rows: seq<Row>, m: Message, i: nat) {
    && i < |rows| && rows[i].state == Pending && m.session.Some? && m.dedup.Some? && m.dedup.value != ""
    && rows[i].session == m.session && rows[i].kind == m.kind && rows[i].dedup == m.dedup
  }

  /** What becomes of a reply, field by field: the one row it repeats, an error for two, or a new row. */
  ghost predicate EnqueueMeans(rows: seq<Row>, m: Message, now: real, rows': seq<Row>, r: Enqueued) {
    match r
    case Existing(id) => rows' == rows && Repeats(rows, m, id) && forall i | Repeats(rows, m, i) :: i == id
    case MultipleFound => rows' == rows && exists i, j :: i != j && Repeats(rows, m, i) && Repeats(rows, m, j)
    case Inserted(id) =>
      && id == |rows| && |rows'| == |rows| + 1 && rows'[..id] == rows && (forall i: nat :: !Repeats(rows, m, i))
      && var x := rows'[id];
         && x.tenant == m.tenant && x.contact == m.contact && x.session == m.session
         && x.kind == m.kind && x.buttons == m.buttons && x.body == m.body
         && x.dedup == (if m.dedup.Some? && m.dedup.value != "" then m.dedup else None)
         && x.state == Pending && x.attempts == 0 && x.wamid == None && x.error == None
         && x.sendAfter == if m.sendAfter.Some? then m.sendAfter.value else now
  }

  lemma EnqueueIs(rows: seq<Row>, m: Message, now: real, rows': seq<Row>, r: Enqueued)
    requires EnqueueSpec(rows, m, now, rows', r)
    ensures EnqueueMeans(rows, m, now, rows', r)
  {
    var t := Twins(rows, m);
    forall i: nat ensures Repeats(rows, m, i) <==> Deduplicated(m) && i in t {}
    if Deduplicated(m) && |t| == 1 {
      forall i | i in t ensures i == r.id { if i != r.id { SetAtLeastTwo(t, i, r.id); } }
    } else if Deduplicated(m) && t != {} {
      var i :| i in t;
      assert t != {i};
      var j :| j in t && j != i;
      assert Repeats(rows, m, i) && Repeats(rows, m, j);
    }
  }

  // ---- claim --------------------------------------------------------------------------------------

  function Expire(rows: seq<Row>, now: real): (r: seq<Row>)
    ensures |r| == |rows|
  {
    seq(|rows|, i requires 0 <= i < |rows| =>
      if rows[i].state.Pending? && rows[i].sendAfter < now - WINDOW then rows[i].(state := SkippedWindow)
      else rows[i])
  }

  predicate Eligible(r: Row, now: real) { r.state.Pending? && r.sendAfter <= now && r.attempts < MAX_ATTEMPTS }

  /** ids are distinct eligible rows, at most limit of them. */
  ghost predicate Claimable(rows: seq<Row>, now: real, limit: nat, ids: seq<nat>) {
    && |ids| <= limit
    && (forall k | 0 <= k < |ids| :: ids[k] < |rows| && Eligible(rows[ids[k]], now))
    && (forall k, l | 0 <= k < l < |ids| :: ids[k] != ids[l])
  }

  /** What ORDER BY send_after, SKIP LOCKED and LIMIT allow the claim to take. */
  ghost predicate ClaimChoice(rows: seq<Row>, now: real, locked: set<nat>, limit: nat, ids: seq<nat>) {
    && Claimable(rows, now, limit, ids)
    && (forall k | 0 <= k < |ids| :: ids[k] !in locked)
    && (forall x: nat | x < |rows| && Eligible(rows[x], now) && x !in locked && x !in ids ::
          |ids| == limit && forall k | 0 <= k < |ids| :: rows[ids[k]].sendAfter <= rows[x].sendAfter)
  }

  /** Since any rows may be locked, any claimable ids may be what a claim takes. */
  lemma AnyClaimableMayBeTaken(rows: seq<Row>, now: real, limit: nat, ids: seq<nat>)
    ensures Claimable(rows, now, limit, ids) <==> exists locked :: ClaimChoice(rows, now, locked, limit, ids)
  {
    if Claimable(rows, now, limit, ids) {
      var locked := set x: nat | x < |rows| && x !in ids;
      assert ClaimChoice(rows, now, locked, limit, ids);
    }
  }

  function CountAttempts(rows: seq<Row>, ids: seq<nat>): (r: seq<Row>)
    ensures |r| == |rows|
  {
    seq(|rows|, i requires 0 <= i < |rows| =>
      if i in ids then rows[i].(attempts := rows[i].attempts + 1) else rows[i])
  }

  /** The claimed rows lie in the window, are within the limit, and none is taken twice. */
  lemma ClaimWindow(rows: seq<Row>, now: real, limit: nat, ids: seq<nat>, k: nat)
    requires Claimable(Expire(rows, now), now, limit, ids) && k < |ids|
    ensures |ids| <= limit && ids[k] < |rows|
    ensures now - WINDOW <= rows[ids[k]].sendAfter <= now && rows[ids[k]].attempts < MAX_ATTEMPTS
  {
    assert Eligible(Expire(rows, now)[ids[k]], now);
  }

  /** A pending row out of attempts is never claimed; the first claim after its window skips it. */
  lemma ExhaustedRowExpires(rows: seq<Row>, now: real, limit: nat, ids: seq<nat>, i: nat)
    requires Claimable(Expire(rows, now), now, limit, ids)
    requires i < |rows| && rows[i].state.Pending? && rows[i].attempts >= MAX_ATTEMPTS
    ensures var r := CountAttempts(Expire(rows, now), ids)[i];
            && r.attempts == rows[i].attempts && i !in ids
            && (r.state == SkippedWindow <==> rows[i].sendAfter + WINDOW < now)
            && (r.state == Pending <==> now <= rows[i].sendAfter + WINDOW)
  {
  }

  /** Row i waits for a claim now: pending, due for at most 23 hours, claimed at most twice before. */
  predicate Ripe(r: Row, now: real) {
    r.state == Pending && r.attempts < 3 && now - 82800.0 <= r.sendAfter <= now
  }

  /** What a claim does to row i, field by field: taken and counted, given up after 23 hours, or left. */
  ghost predicate ClaimMeans(rows: seq<Row>, now: real, ids: seq<nat>, rows': seq<Row>, i: nat)
    requires i < |rows| == |rows'|
  {
    && (i in ids ==> Ripe(rows[i], now) && rows'[i] == rows[i].(attempts := rows[i].attempts + 1))
    && (i !in ids && rows[i].state == Pending && rows[i].sendAfter < now - 82800.0 ==>
          rows'[i] == rows[i].(state := SkippedWindow))
    && (i !in ids && !(rows[i].state == Pending && rows[i].sendAfter < now - 82800.0) ==> rows'[i] == rows[i])
  }

  lemma ClaimIs(rows: seq<Row>, now: real, locked: set<nat>, limit: nat, ids: seq<nat>)
    requires ClaimChoice(Expire(rows, now), now, locked, limit, ids)
    ensures forall i | 0 <= i < |rows| :: ClaimMeans(rows, now, ids, CountAttempts(Expire(rows, now), ids), i)
    ensures forall x: nat | x < |rows| && Ripe(rows[x], now) && x !in locked && x !in ids ::
              |ids| == limit && forall k | 0 <= k < |ids| :: rows[ids[k]].sendAfter <= rows[x].sendAfter
  {
    forall i | 0 <= i < |rows| ensures ClaimMeans(rows, now, ids, CountAttempts(Expire(rows, now), ids), i) {
      if i in ids {
        var k :| 0 <= k < |ids| && ids[k] == i;
        ClaimWindow(rows, now, limit, ids, k);
        assert Eligible(Expire(rows, now)[i], now);
      }
    }
    forall x: nat | x < |rows| && Ripe(rows[x], now) && x !in locked && x !in ids
      ensures |ids| == limit && forall k | 0 <= k < |ids| :: rows[ids[k]].sendAfter <= rows[x].sendAfter
    {
      assert Eligible(Expire(rows, now)[x], now);
      forall k | 0 <= k < |ids| ensures rows[ids[k]].sendAfter <= rows[x].sendAfter {
        assert Expire(rows, now)[ids[k]].sendAfter <= Expire(rows, now)[x].sendAfter;
      }
    }
  }

  // ---- outcomes -----------------------------------------------------------------------------------

  function Pow2(n: nat): real { if n == 0 then 1.0 else 2.0 * Pow2(n - 1) }

  function Backoff(attempts: nat): real { 30.0 * Pow2(attempts) }

  function MarkSentRows(rows: seq<Row>, id: nat, wamid: string): seq<Row>
    requires id < |rows|
  {
    rows[id := rows[id].(state := Sent, wamid := Some(wamid))]
  }

  function MarkFailedRows(rows: seq<Row>, id: nat, error: string, permanent: bool, now: real): seq<Row>
    requires id < |rows|
  {
    rows[id := if permanent then rows[id].(state := Failed, error := Some(error))
               else rows[id].(state := Pending, error := Some(error),
                              sendAfter := now + Backoff(rows[id].attempts))]
  }

  /** Row id after a failure, field by field: failed for good, or pending and held back for 30 seconds times two
      to the attempts. */
  ghost predicate FailureMeans(rows: seq<Row>, id: nat, error: string, permanent: bool, now: real, rows': seq<Row>)
    requires id < |rows| == |rows'|
  {
    var (r, r') := (rows[id], rows'[id]);
    && rows' == rows[id := r'] && r' == r.(state := r'.state, error := Some(error), sendAfter := r'.sendAfter)
    && r'.state == (if permanent then Failed else Pending)
    && (permanent ==> r'.sendAfter == r.sendAfter)
    && (!permanent && r.attempts == 1 ==> r'.sendAfter == now + 60.0)
    && (!permanent && r.attempts == 2 ==> r'.sendAfter == now + 120.0)
    && (!permanent && r.attempts == 3 ==> r'.sendAfter == now + 240.0)
    && (!permanent ==> r'.sendAfter >= now + 30.0)
  }

  lemma FailureIs(rows: seq<Row>, id: nat, error: string, permanent: bool, now: real)
    requires id < |rows|
    ensures FailureMeans(rows, id, error, permanent, now, MarkFailedRows(rows, id, error, permanent, now))
  {
    assert Pow2(1) == 2.0 && Pow2(2) == 4.0 && Pow2(3) == 8.0;
    Pow2AtLeastOne(rows[id].attempts);
  }

  lemma {:induction false} Pow2AtLeastOne(n: nat)
    ensures Pow2(n) >= 1.0
  {
    if n > 0 { Pow2AtLeastOne(n - 1); }
  }

  ghost predicate TerminalRowsKept(rows: seq<Row>, rows': seq<Row>) {
    |rows'| >= |rows| && forall i | 0 <= i < |rows| && !rows[i].state.Pending? :: rows'[i] == rows[i]
  }

  /** Neither statement looks at the row's state: a retryable failure keeps every terminal row exactly
      when the row it marks is still pending... */
  lemma RetryKeepsTerminalIffPending(rows: seq<Row>, id: nat, error: string, now: real)
    requires id < |rows|
    ensures TerminalRowsKept(rows, MarkFailedRows(rows, id, error, false, now)) <==> rows[id].state.Pending?
  {
    var rows' := MarkFailedRows(rows, id, error, false, now);
    assert rows'[id].state.Pending?;
  }

  /** ...a permanent one exactly when it is, or when the row already records it... */
  lemma FailureKeepsTerminalIff(rows: seq<Row>, id: nat, error: string, now: real)
    requires id < |rows|
    ensures TerminalRowsKept(rows, MarkFailedRows(rows, id, error, true, now))
            <==> rows[id].state.Pending? || (rows[id].state.Failed? && rows[id].error == Some(error))
  {
    var rows' := MarkFailedRows(rows, id, error, true, now);
    assert rows'[id] == rows[id].(state := Failed, error := Some(error));
  }

  /** ...and an acknowledgement does so exactly when it is, or when the row already records it. */
  lemma SentKeepsTerminalIff(rows: seq<Row>, id: nat, wamid: string)
    requires id < |rows|
    ensures TerminalRowsKept(rows, MarkSentRows(rows, id, wamid))
            <==> rows[id].state.Pending? || (rows[id].state.Sent? && rows[id].wamid == Some(wamid))
  {
    var rows' := MarkSentRows(rows, id, wamid);
    assert rows'[id] == rows[id].(state := Sent, wamid := Some(wamid));
  }

  // ---- the table ------------------------------------------------------------------------------------

  class Table {
    var rows: seq<Row>

    constructor ()
      ensures rows == []
    {
      rows := [];
    }

    method EnqueueReply(m: Message, now: real) returns (r: Enqueued)
      modifies this
      ensures EnqueueSpec(old(rows), m, now, rows, r)
      ensures EnqueueMeans(old(rows), m, now, rows, r)
    {
      if Deduplicated(m) {
        ghost var twins := Twins(rows, m);
        var found: Option<nat> := None;
        var i := 0;
        while i < |rows|
          invariant i <= |rows| && rows == old(rows)
          invariant found.None? ==> forall j | 0 <= j < i :: !IsTwin(rows[j], m)
          invariant found.Some? ==> found.value < i && found.value in twins
                                    && forall j | 0 <= j < i && IsTwin(rows[j], m) :: j == found.value
        {
          if IsTwin(rows[i], m) {
            if found.Some? {
              assert {found.value, i} <= twins;
              SetAtLeastTwo(twins, found.value, i);
              EnqueueIs(rows, m, now, rows, MultipleFound);
              return MultipleFound;
            }
            found := Some(i);
          }
          i := i + 1;
        }
        if found.Some? {
          assert twins == {found.value};
          EnqueueIs(rows, m, now, rows, Existing(found.value));
          return Existing(found.value);
        }
        assert twins == {};
      }
      r := Inserted(|rows|);
      rows := rows + [NewRow(m, now)];
      EnqueueIs(old(rows), m, now, rows, r);
    }

    /** The eligible, unlocked, not yet taken row with the least send_after. */
    method NextToClaim(now: real, locked: set<nat>, taken: seq<nat>) returns (best: Option<nat>)
      ensures best.None? ==> forall x: nat | x < |rows| && Eligible(rows[x], now) && x !in locked :: x in taken
      ensures best.Some? ==>
        && best.value < |rows| && Eligible(rows[best.value], now)
        && best.value !in locked && best.value !in taken
        && forall x: nat | x < |rows| && Eligible(rows[x], now) && x !in locked && x !in taken ::
             rows[best.value].sendAfter <= rows[x].sendAfter
    {
      best := None;
      var i := 0;
      while i < |rows|
        invariant i <= |rows|
        invariant best.None? ==> forall x: nat | x < i && Eligible(rows[x], now) && x !in locked :: x in taken
        invariant best.Some? ==>
          && best.value < |rows| && Eligible(rows[best.value], now)
          && best.value !in locked && best.value !in taken
          && forall x: nat | x < i && Eligible(rows[x], now) && x !in locked && x !in taken ::
               rows[best.value].sendAfter <= rows[x].sendAfter
      {
        if Eligible(rows[i], now) && i !in locked && i !in taken
           && (best.None? || rows[i].sendAfter < rows[best.value].sendAfter) {
          best := Some(i);
        }
        i := i + 1;
      }
    }

    method ClaimPending(now: real, locked: set<nat>, limit: nat) returns (ids: seq<nat>)
      modifies this
      ensures ClaimChoice(Expire(old(rows), now), now, locked, limit, ids)
      ensures rows == CountAttempts(Expire(old(rows), now), ids)
      ensures |ids| <= limit && (forall k, l | 0 <= k < l < |ids| :: ids[k] != ids[l])
      ensures forall k | 0 <= k < |ids| :: ids[k] < |rows| && ids[k] !in locked
      ensures forall i | 0 <= i < |rows| :: ClaimMeans(old(rows), now, ids, rows, i)
      ensures forall x: nat | x < |rows| && Ripe(old(rows)[x], now) && x !in locked && x !in ids ::
                |ids| == limit && forall k | 0 <= k < |ids| :: old(rows)[ids[k]].sendAfter <= old(rows)[x].sendAfter
    {
      rows := Expire(rows, now);
      ids := [];
      var more := true;
      while more && |ids| < limit
        invariant |ids| <= limit && rows == Expire(old(rows), now)
        invariant forall k | 0 <= k < |ids| ::
                    ids[k] < |rows| && Eligible(rows[ids[k]], now) && ids[k] !in locked
        invariant forall k, l | 0 <= k < l < |ids| :: ids[k] != ids[l]
        invariant forall x: nat | x < |rows| && Eligible(rows[x], now) && x !in locked && x !in ids ::
                    forall k | 0 <= k < |ids| :: rows[ids[k]].sendAfter <= rows[x].sendAfter
        invariant !more ==> forall x: nat | x < |rows| && Eligible(rows[x], now) && x !in locked :: x in ids
        decreases limit - |ids|, more
      {
        var best := NextToClaim(now, locked, ids);
        if best.Some? { ids := ids + [best.value]; } else { more := false; }
      }
      rows := CountAttempts(rows, ids);
      ClaimIs(old(rows), now, locked, limit, ids);
    }

    method MarkSent(id: nat, wamid: string)
      requires id < |rows|
      modifies this
      ensures rows == MarkSentRows(old(rows), id, wamid)
      ensures rows[id].state == Sent && rows[id].wamid == Some(wamid)
      ensures rows == old(rows)[id := old(rows)[id].(state := rows[id].state, wamid := rows[id].wamid)]
    {
      rows := rows[id := rows[id].(state := Sent, wamid := Some(wamid))];
    }

    method MarkFailed(id: nat, error: string, permanent: bool, now: real)
      requires id < |rows|
      modifies this
      ensures rows == MarkFailedRows(old(rows), id, error, permanent, now)
      ensures FailureMeans(old(rows), id, error, permanent, now, rows)
    {
      FailureIs(rows, id, error, permanent, now);
      if permanent {
        rows := rows[id := rows[id].(state := Failed, error := Some(error))];
      } else {
        var after := now + Backoff(rows[id].attempts);
        rows := rows[id := rows[id].(state := Pending, error := Some(error), sendAfter := after)];
      }
    }
  }

  lemma SetAtLeastTwo(s: set<nat>, x: nat, y: nat)
    requires x in s && y in s && x != y
    ensures |s| >= 2
  {
    assert |s - {x}| == |s| - 1 && y in s - {x};
  }
}
