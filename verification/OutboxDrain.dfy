/** send_outbox itself: the loop over claimed rows is a serial run of the machine, as fast as its rows. */
module OutboxDrain {
  import opened Wrappers
  import opened Outbox
  import opened OutboxRuns
  import opened OutboxSerial
  import opened OutboxLateness

  /** What send_outbox meets for one claimed row, and the time that passes over it. */
  datatype Encounter = Encounter(answer: Answer, elapsed: real)

  datatype Answer = ContactGone | RouteMissing | Sending(reply: Reply)

  lemma {:induction false} SerialSnoc(s: State, acts: seq<Action>, a: Action)
    requires SerialRun(s, acts) && Run(s, acts) && Enabled(Exec(s, acts), a) && Serial(Exec(s, acts), a)
    ensures SerialRun(s, acts + [a]) && Run(s, acts + [a])
    ensures Exec(s, acts + [a]) == Apply(Exec(s, acts), a)
    decreases |acts|
  {
    RunSnoc(s, acts, a);
    if acts == [] {
      assert [a][1..] == [];
    } else {
      SerialSnoc(Apply(s, acts[0]), acts[1..], a);
      assert (acts + [a])[1..] == acts[1..] + [a];
    }
  }

  /** The run so far ends in a state with the given table and clock. */
  ghost predicate Tracks(s: State, acts: seq<Action>, rows: seq<Row>, clock: real, jobs: seq<Job>) {
    && SerialRun(s, acts) && Run(s, acts)
    && var st := Exec(s, acts); Shape(st) && st.rows == rows && st.now == clock && st.jobs == jobs
  }

  /** What the machine does for one claimed row. */
  function ActionsFor(sendable: bool, met: Encounter): seq<Action> {
    [Tick(met.elapsed)] +
    match met.answer
    case ContactGone => [Drop(0)]
    case RouteMissing => [NoRoute(0)]
    case Sending(reply) => if sendable then [Call(0, reply)] + [Record(0)] else [UnknownKind(0)]
  }

  /** What it does for the first n of the rows claimed, in order. */
  function DrainActions(rows: seq<Row>, ids: seq<nat>, met: seq<Encounter>, n: nat): seq<Action>
    requires n <= |ids| && n <= |met| && forall k | 0 <= k < |ids| :: ids[k] < |rows|
  {
    if n == 0 then [] else
    DrainActions(rows, ids, met, n - 1) + ActionsFor(Sendable(rows[ids[n - 1]]), met[n - 1])
  }

  ghost predicate SameKinds(x: seq<Row>, y: seq<Row>) {
    |x| == |y| && forall i | 0 <= i < |x| :: Sendable(x[i]) == Sendable(y[i])
  }

  /** What one claimed row comes to, field by field: left, failed for good without a route or of a kind nobody
      sends, or sent and recorded as Meta answered. */
  ghost predicate OneMeans(rows: seq<Row>, id: nat, answer: Answer, clock: real, rows': seq<Row>)
    requires id < |rows| == |rows'|
  {
    match answer
    case ContactGone => rows' == rows
    case RouteMissing => FailureMeans(rows, id, "NO_ROUTE", true, clock, rows')
    case Sending(reply) =>
      if rows[id].kind == Text || rows[id].kind == Template || (rows[id].kind == Interactive && rows[id].buttons) then
        AnswerMeans(rows, id, reply, clock, rows')
      else FailureMeans(rows, id, "UNKNOWN_KIND", true, clock, rows')
  }

  ghost predicate AnswerMeans(rows: seq<Row>, id: nat, reply: Reply, clock: real, rows': seq<Row>)
    requires id < |rows| == |rows'|
  {
    match reply
    case Ack(wamid) => rows' == rows[id := rows[id].(state := RowState.Sent, wamid := Some(wamid))]
    case Refused(code, retryable) => FailureMeans(rows, id, code, !retryable, clock, rows')
  }

  /** The body of the loop: one claimed row, the first of the jobs left. */
  method SendOne(table: Table, id: nat, now: real, met: Encounter,
                 ghost s: State, ghost before: seq<Action>, ghost jobs: seq<Job>)
    returns (clock: real, ghost acts: seq<Action>)
    requires met.elapsed >= 0.0 && jobs != [] && jobs[0].Ready? && jobs[0].row == id
    requires Tracks(s, before, table.rows, now, jobs)
    modifies table
    ensures Tracks(s, acts, table.rows, clock, jobs[1..])
    ensures id < |old(table.rows)| && SameKinds(old(table.rows), table.rows)
    ensures clock == now + met.elapsed && OneMeans(old(table.rows), id, met.answer, clock, table.rows)
    ensures acts == before + ActionsFor(Sendable(old(table.rows)[id]), met)
  {
    clock := now + met.elapsed;
    SerialSnoc(s, before, Tick(met.elapsed));
    acts := before + [Tick(met.elapsed)];
    if met.answer.Sending? && Sendable(table.rows[id]) {
      acts := CallMeta(table, id, met.answer.reply, clock, s, acts, jobs);
    } else {
      acts := GiveUp(table, id, met.answer, clock, s, acts, jobs);
    }
  }

  /** Meta is called and the answer recorded. */
  method CallMeta(table: Table, id: nat, reply: Reply, clock: real,
                  ghost s: State, ghost before: seq<Action>, ghost jobs: seq<Job>)
    returns (ghost acts: seq<Action>)
    requires jobs != [] && jobs[0].Ready? && jobs[0].row == id
    requires Tracks(s, before, table.rows, clock, jobs) && Sendable(table.rows[id])
    modifies table
    ensures Tracks(s, acts, table.rows, clock, jobs[1..]) && SameKinds(old(table.rows), table.rows)
    ensures id < |old(table.rows)| && AnswerMeans(old(table.rows), id, reply, clock, table.rows)
    ensures acts == before + ([Call(0, reply)] + [Record(0)])
  {
    SerialSnoc(s, before, Call(0, reply));
    match reply {
      case Ack(wamid) => table.MarkSent(id, wamid);
      case Refused(code, retryable) => table.MarkFailed(id, code, !retryable, clock);
    }
    SerialSnoc(s, before + [Call(0, reply)], Record(0));
    acts := before + [Call(0, reply)] + [Record(0)];
    assert Exec(s, acts).jobs == jobs[1..];
  }

  /** The contact is gone, or the row fails for good without a call. */
  method GiveUp(table: Table, id: nat, answer: Answer, clock: real,
                ghost s: State, ghost before: seq<Action>, ghost jobs: seq<Job>)
    returns (ghost acts: seq<Action>)
    requires jobs != [] && jobs[0].Ready? && jobs[0].row == id
    requires Tracks(s, before, table.rows, clock, jobs) && (answer.Sending? ==> !Sendable(table.rows[id]))
    modifies table
    ensures Tracks(s, acts, table.rows, clock, jobs[1..]) && SameKinds(old(table.rows), table.rows)
    ensures id < |old(table.rows)| && OneMeans(old(table.rows), id, answer, clock, table.rows)
    ensures acts == before + [if answer.ContactGone? then Drop(0)
                              else if answer.RouteMissing? then NoRoute(0) else UnknownKind(0)]
  {
    ghost var done := Drop(0);
    match answer {
      case ContactGone =>
      case RouteMissing =>
        table.MarkFailed(id, "NO_ROUTE", true, clock);
        done := NoRoute(0);
      case Sending(_) =>
        table.MarkFailed(id, "UNKNOWN_KIND", true, clock);
        done := UnknownKind(0);
    }
    SerialSnoc(s, before, done);
    acts := before + [done];
    assert Exec(s, acts).jobs == jobs[1..];
  }

  /** The loop over the claimed rows. */
  method HandleClaimed(table: Table, ids: seq<nat>, now: real, met: seq<Encounter>,
                       ghost s: State, ghost before: seq<Action>)
    returns (clock: real, ghost acts: seq<Action>)
    requires |met| >= |ids| && forall k | 0 <= k < |met| :: met[k].elapsed >= 0.0
    requires forall k | 0 <= k < |ids| :: ids[k] < |table.rows|
    requires Tracks(s, before, table.rows, now, JobsFor(ids, now))
    modifies table
    ensures acts == before + DrainActions(old(table.rows), ids, met, |ids|)
    ensures Tracks(s, acts, table.rows, clock, [])
  {
    clock := now;
    acts := before;
    ghost var jobs := JobsFor(ids, now);
    assert jobs[0..] == jobs;
    var i := 0;
    while i < |ids|
      invariant i <= |ids|
      invariant Tracks(s, acts, table.rows, clock, jobs[i..])
      invariant Drained(old(table.rows), table.rows, ids, met, i, before, acts)
    {
      ghost var rows, sofar := table.rows, acts;
      clock, acts := SendOne(table, ids[i], clock, met[i], s, acts, jobs[i..]);
      DrainStep(old(table.rows), rows, table.rows, ids, met, i, before, sofar);
      assert jobs[i..][1..] == jobs[i + 1..];
      i := i + 1;
    }
  }

  /** The first i rows claimed are handled, and the actions since are theirs. */
  ghost predicate Drained(rows: seq<Row>, rows': seq<Row>, ids: seq<nat>, met: seq<Encounter>, i: nat,
                          before: seq<Action>, acts: seq<Action>)
    requires i <= |ids| && i <= |met| && forall k | 0 <= k < |ids| :: ids[k] < |rows|
  {
    SameKinds(rows, rows') && acts == before + DrainActions(rows, ids, met, i)
  }

  /** One more row handled is one more block of actions. */
  lemma DrainStep(rows: seq<Row>, rows': seq<Row>, rows'': seq<Row>, ids: seq<nat>, met: seq<Encounter>, i: nat,
                  before: seq<Action>, acts: seq<Action>)
    requires i < |ids| && i < |met| && forall k | 0 <= k < |ids| :: ids[k] < |rows|
    requires Drained(rows, rows', ids, met, i, before, acts) && SameKinds(rows', rows'')
    ensures Drained(rows, rows'', ids, met, i + 1, before, acts + ActionsFor(Sendable(rows'[ids[i]]), met[i]))
  {}

  /** One run of send_outbox claims and then handles every claimed row in order; it is a serial run of the
      machine that starts and ends with nothing claimed. */
  method SendOutbox(table: Table, now: real, locked: set<nat>, met: seq<Encounter>, ghost s: State)
    returns (ids: seq<nat>, clock: real, ghost acts: seq<Action>)
    requires |met| >= CLAIM_LIMIT && forall k | 0 <= k < |met| :: met[k].elapsed >= 0.0
    requires Shape(s) && s.rows == table.rows && s.now == now && s.jobs == []
    modifies table
    ensures ClaimChoice(Expire(s.rows, now), now, locked, CLAIM_LIMIT, ids)
    ensures acts == [Claim(ids)] + DrainActions(s.rows, ids, met, |ids|)
    ensures Tracks(s, acts, table.rows, clock, [])
  {
    ids := table.ClaimPending(now, locked, CLAIM_LIMIT);
    ClaimedState(s, ids);
    ghost var claimed := table.rows;
    clock, acts := HandleClaimed(table, ids, now, met, s, [Claim(ids)]);
    SameDrain(s.rows, claimed, ids, met, |ids|);
  }

  // ---- a drain is as fast as its rows -------------------------------------------------------------------------

  ghost function LastTurn(s: State, acts: seq<Action>, l: real, last: real): real
    requires Run(s, acts)
    decreases |acts|
  {
    if acts == [] then last else LastTurn(Apply(s, acts[0]), acts[1..], l, TurnedTo(s, acts[0], l, last))
  }

  lemma {:induction false} PacedConcat(s: State, x: seq<Action>, y: seq<Action>, l: real, last: real)
    requires Run(s, x) && PacedRun(s, x, l, last) && Run(Exec(s, x), y)
    requires PacedRun(Exec(s, x), y, l, LastTurn(s, x, l, last))
    ensures Run(s, x + y) && PacedRun(s, x + y, l, last) && Exec(s, x + y) == Exec(Exec(s, x), y)
    ensures LastTurn(s, x + y, l, last) == LastTurn(Exec(s, x), y, l, LastTurn(s, x, l, last))
    decreases |x|
  {
    RunConcat(s, x, y);
    if x == [] {
      assert x + y == y;
    } else {
      assert (x + y)[0] == x[0] && (x + y)[1..] == x[1..] + y;
      PacedConcat(Apply(s, x[0]), x[1..], y, l, TurnedTo(s, x[0], l, last));
    }
  }

  /** One step, from a moment at or before now. */
  lemma PacedOne(s: State, a: Action, l: real, last: real)
    requires Enabled(s, a) && Serial(s, a) && (Finishes(a) ==> s.now <= last + l)
    ensures Run(s, [a]) && PacedRun(s, [a], l, last) && Exec(s, [a]) == Apply(s, a)
    ensures LastTurn(s, [a], l, last) == TurnedTo(s, a, l, last)
  {
    RunOne(s, a);
    assert [a][1..] == [];
  }

  lemma {:induction false} SerialSplit(s: State, x: seq<Action>, y: seq<Action>)
    requires SerialRun(s, x + y)
    ensures SerialRun(s, x) && Run(s, x) && SerialRun(Exec(s, x), y)
    decreases |x|
  {
    if x == [] {
      assert x + y == y;
    } else {
      assert (x + y)[0] == x[0] && (x + y)[1..] == x[1..] + y;
      SerialSplit(Apply(s, x[0]), x[1..], y);
    }
  }

  lemma SerialFirst(s: State, a: Action, y: seq<Action>)
    requires SerialRun(s, [a] + y)
    ensures Enabled(s, a) && Serial(s, a) && SerialRun(Apply(s, a), y)
  {
    assert ([a] + y)[1..] == y;
  }

  /** The actions of one row, from the moment the drain turns to it. */
  lemma RowIsPaced(s: State, sendable: bool, met: Encounter, l: real)
    requires SerialRun(s, ActionsFor(sendable, met)) && met.elapsed <= l
    ensures var acts := ActionsFor(sendable, met);
      Run(s, acts) && PacedRun(s, acts, l, s.now) && LastTurn(s, acts, l, s.now) == Exec(s, acts).now
  {
    var tick := Tick(met.elapsed);
    var rest := ActionsFor(sendable, met)[1..];
    assert ActionsFor(sendable, met) == [tick] + rest;
    SerialFirst(s, tick, rest);
    var s1 := Apply(s, tick);
    PacedOne(s, tick, l, s.now);
    if |rest| == 2 {
      assert rest == [rest[0]] + [rest[1]];
      SerialFirst(s1, rest[0], [rest[1]]);
      PacedOne(s1, rest[0], l, s.now);
      SerialFirst(Apply(s1, rest[0]), rest[1], []);
      assert [rest[1]] + [] == [rest[1]];
      PacedOne(Apply(s1, rest[0]), rest[1], l, s.now);
      PacedConcat(s1, [rest[0]], [rest[1]], l, s.now);
    } else {
      assert rest == [rest[0]] && [rest[0]] + [] == [rest[0]];
      SerialFirst(s1, rest[0], []);
      PacedOne(s1, rest[0], l, s.now);
    }
    PacedConcat(s, [tick], rest, l, s.now);
  }

  /** A run that is paced and at whose end the drain has just turned to the next row. */
  ghost predicate PacedSoFar(s: State, acts: seq<Action>, l: real, last: real) {
    Run(s, acts) && PacedRun(s, acts, l, last) && LastTurn(s, acts, l, last) == Exec(s, acts).now
  }

  lemma ClaimIsPaced(s: State, ids: seq<nat>, l: real, last: real)
    requires SerialRun(s, [Claim(ids)])
    ensures PacedSoFar(s, [Claim(ids)], l, last)
  {
    PacedOne(s, Claim(ids), l, last);
  }

  /** A drain that spends at most l seconds on each row is paced, whatever came before it. */
  lemma {:induction false} DrainIsPaced(
    s: State, rows: seq<Row>, ids: seq<nat>, met: seq<Encounter>, n: nat, l: real, last: real)
    requires n <= |ids| && n <= |met| && forall k | 0 <= k < |ids| :: ids[k] < |rows|
    requires forall k | 0 <= k < n :: met[k].elapsed <= l
    requires SerialRun(s, [Claim(ids)] + DrainActions(rows, ids, met, n))
    ensures PacedSoFar(s, [Claim(ids)] + DrainActions(rows, ids, met, n), l, last)
    decreases n
  {
    if n == 0 {
      assert [Claim(ids)] + DrainActions(rows, ids, met, n) == [Claim(ids)];
      ClaimIsPaced(s, ids, l, last);
    } else {
      var x := [Claim(ids)] + DrainActions(rows, ids, met, n - 1);
      var y := ActionsFor(Sendable(rows[ids[n - 1]]), met[n - 1]);
      assert [Claim(ids)] + DrainActions(rows, ids, met, n) == x + y;
      SerialSplit(s, x, y);
      DrainIsPaced(s, rows, ids, met, n - 1, l, last);
      OneMorePaced(s, x, Sendable(rows[ids[n - 1]]), met[n - 1], l, last);
    }
  }

  lemma OneMorePaced(s: State, x: seq<Action>, sendable: bool, met: Encounter, l: real, last: real)
    requires SerialRun(s, x + ActionsFor(sendable, met)) && met.elapsed <= l
    requires PacedSoFar(s, x, l, last)
    ensures PacedSoFar(s, x + ActionsFor(sendable, met), l, last)
  {
    SerialSplit(s, x, ActionsFor(sendable, met));
    RowIsPaced(Exec(s, x), sendable, met, l);
    PacedConcat(s, x, ActionsFor(sendable, met), l, last);
  }

  lemma {:induction false} SameDrain(x: seq<Row>, y: seq<Row>, ids: seq<nat>, met: seq<Encounter>, n: nat)
    requires n <= |ids| && n <= |met| && SameKinds(x, y) && forall k | 0 <= k < |ids| :: ids[k] < |x|
    ensures DrainActions(x, ids, met, n) == DrainActions(y, ids, met, n)
  {
    if n > 0 { SameDrain(x, y, ids, met, n - 1); }
  }

  lemma ClaimedState(s: State, ids: seq<nat>)
    requires Shape(s) && s.jobs == [] && Claimable(Expire(s.rows, s.now), s.now, CLAIM_LIMIT, ids)
    ensures Tracks(s, [Claim(ids)], CountAttempts(Expire(s.rows, s.now), ids), s.now, JobsFor(ids, s.now))
    ensures forall k | 0 <= k < |ids| :: ids[k] < |s.rows|
    ensures SameKinds(s.rows, CountAttempts(Expire(s.rows, s.now), ids))
  {
    ClaimFacts(s, ids);
    SerialSnoc(s, [], Claim(ids));
    var st := Apply(s, Claim(ids));
    assert [] + [Claim(ids)] == [Claim(ids)];
    assert st.jobs == JobsFor(ids, s.now);
    forall j | 0 <= j < |st.jobs| ensures st.jobs[j].row < |st.rows| {
      assert TakenRow(s, ids[j], st);
    }
  }
}
