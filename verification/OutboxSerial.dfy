/** Serial drains: each claims only when the one before is finished or dead. */
module OutboxSerial {
  import opened Outbox
  import opened OutboxRuns
  import opened OutboxKept

  /** A drain claims only when the one before has finished or died. */
  ghost predicate Serial(s: State, a: Action) { a.Claim? ==> s.jobs == [] }

  ghost predicate SerialRun(s: State, acts: seq<Action>)
    decreases |acts|
  {
    acts == [] || (Enabled(s, acts[0]) && Serial(s, acts[0]) && SerialRun(Apply(s, acts[0]), acts[1..]))
  }

  lemma {:induction false} SerialRunIsRun(s: State, acts: seq<Action>)
    requires SerialRun(s, acts)
    ensures Run(s, acts)
    decreases |acts|
  {
    if acts != [] { SerialRunIsRun(Apply(s, acts[0]), acts[1..]); }
  }

  /** Claimed rows are pending and distinct; pending rows with a dedup key differ in it. */
  ghost predicate Tidy(s: State) {
    && Shape(s)
    && (forall j | 0 <= j < |s.jobs| :: s.rows[s.jobs[j].row].state.Pending?)
    && (forall j, k | 0 <= j < k < |s.jobs| :: s.jobs[j].row != s.jobs[k].row)
    && UniqueKeys(s.rows)
  }

  lemma TidyClaim(s: State, ids: seq<nat>, s': State)
    requires Tidy(s) && ClaimEffect(s, ids, s') && s.jobs == []
    ensures Tidy(s')
  {
    assert s'.jobs == JobsFor(ids, s.now);
    forall j | 0 <= j < |s'.jobs|
      ensures s'.jobs[j].row == ids[j] && ids[j] < |s.rows| && s'.rows[ids[j]].state.Pending?
    {
      assert TakenRow(s, ids[j], s');
    }
    forall i | 0 <= i < |s.rows|
      ensures s'.rows[i].state.Pending? ==> s'.rows[i].(attempts := 0) == s.rows[i].(attempts := 0)
    {
      if i in ids { assert TakenRow(s, i, s'); } else { assert LeftRow(s, i, s'); }
    }
    forall i, j | 0 <= i < j < |s'.rows|
      ensures !SameKey(s'.rows[i], s'.rows[j])
    {
      assert SameKey(s'.rows[i], s'.rows[j]) ==> SameKey(s.rows[i], s.rows[j]);
    }
  }

  /** A job's row is rewritten without touching its key, and the job leaves. */
  lemma TidyFinish(s: State, j: nat, s': State)
    requires Tidy(s) && j < |s.jobs| && s'.jobs == Without(s.jobs, j)
    requires |s'.claims| == |s.claims| && |s'.calls| == |s.calls| && |s'.first| == |s.first|
    requires var i := s.jobs[j].row;
             && |s'.rows| == |s.rows| && s'.rows == s.rows[i := s'.rows[i]]
             && s'.rows[i].session == s.rows[i].session && s'.rows[i].kind == s.rows[i].kind
             && s'.rows[i].dedup == s.rows[i].dedup
    ensures Tidy(s')
  {
    forall k | 0 <= k < |s'.jobs|
      ensures s'.jobs[k] == s.jobs[if k < j then k else k + 1] && s'.jobs[k].row != s.jobs[j].row
    {
    }
    forall x, y | 0 <= x < y < |s'.rows|
      ensures !SameKey(s'.rows[x], s'.rows[y])
    {
      assert SameKey(s'.rows[x], s'.rows[y]) ==> SameKey(s.rows[x], s.rows[y]);
    }
  }

  lemma TidyEnqueue(s: State, m: Message)
    requires Tidy(s) && Enabled(s, Enqueue(m))
    ensures Tidy(Apply(s, Enqueue(m)))
  {
    EnqueueKeepsKeys(s, m);
  }

  lemma TidyStep(s: State, a: Action)
    requires Tidy(s) && Enabled(s, a) && Serial(s, a)
    ensures Tidy(Apply(s, a))
  {
    match a
    case Tick(_) =>
    case Enqueue(m) => TidyEnqueue(s, m);
    case Claim(ids) =>
      ClaimFacts(s, ids);
      TidyClaim(s, ids, Apply(s, a));
    case Call(j, _) =>
      assert forall k | 0 <= k < |s.jobs| :: Apply(s, a).jobs[k].row == s.jobs[k].row;
    case _ => TidyFinish(s, a.j, Apply(s, a));
  }

  lemma {:induction false} TidyRun(s: State, acts: seq<Action>)
    requires Tidy(s) && SerialRun(s, acts)
    ensures Run(s, acts) && Tidy(Exec(s, acts))
    decreases |acts|
  {
    SerialRunIsRun(s, acts);
    if acts != [] {
      TidyStep(s, acts[0]);
      TidyRun(Apply(s, acts[0]), acts[1..]);
    }
  }

  // ---- terminal rows absorb, the lookup finds at most one row -------------------------------------------------

  /** Claimed rows are pending, so no outcome contradicts its row. */
  lemma {:induction false} TidyNeverOverwrites(s: State, acts: seq<Action>)
    requires Tidy(s) && SerialRun(s, acts)
    ensures Run(s, acts) && NoneOverwrites(s, acts)
    decreases |acts|
  {
    SerialRunIsRun(s, acts);
    if acts != [] {
      TidyStep(s, acts[0]);
      TidyNeverOverwrites(Apply(s, acts[0]), acts[1..]);
    }
  }

  /** With serial drains a row that is sent, failed or skipped at some moment never changes after it. */
  lemma TerminalRowsAbsorb(acts: seq<Action>)
    requires SerialRun(START, acts)
    ensures Run(START, acts) && Absorbing(START, acts)
  {
    TidyNeverOverwrites(START, acts);
    AbsorbingIff(START, acts);
  }

  /** With serial drains the dedup lookup finds at most one pending row, whatever message is enqueued. */
  lemma DedupIsSingleValued(acts: seq<Action>, m: Message)
    requires SerialRun(START, acts) && Deduplicated(m)
    ensures Run(START, acts) && |Twins(Exec(START, acts).rows, m)| <= 1
  {
    TidyRun(START, acts);
    KeysGiveOneTwin(Exec(START, acts).rows, m);
  }

  // ---- acknowledged calls are conserved -----------------------------------------------------------------------

  /** Meta acknowledges a call for row i. */
  predicate Acknowledges(s: State, a: Action, i: nat) {
    a.Call? && a.reply.Ack? && a.j < |s.jobs| && s.jobs[a.j].row == i
  }

  /** The drain dies, or gives the row up, with an acknowledgement for row i in hand. */
  predicate LosesAck(s: State, a: Action, i: nat) { a.Drop? && a.j < |s.jobs| && HoldsAck(s.jobs[a.j], i) }

  predicate HoldsAck(job: Job, i: nat) { job.Answered? && job.reply.Ack? && job.row == i }

  /** Row i is sent, or about to be recorded as sent. */
  ghost predicate Accounted(s: State, i: nat) {
    (i < |s.rows| && s.rows[i].state.Sent?) || exists j :: 0 <= j < |s.jobs| && HoldsAck(s.jobs[j], i)
  }

  function Bit(b: bool): nat { if b then 1 else 0 }

  ghost function AckedCalls(s: State, acts: seq<Action>, i: nat): nat
    requires Run(s, acts)
    decreases |acts|
  {
    if acts == [] then 0 else Bit(Acknowledges(s, acts[0], i)) + AckedCalls(Apply(s, acts[0]), acts[1..], i)
  }

  ghost function LostAcks(s: State, acts: seq<Action>, i: nat): nat
    requires Run(s, acts)
    decreases |acts|
  {
    if acts == [] then 0 else Bit(LosesAck(s, acts[0], i)) + LostAcks(Apply(s, acts[0]), acts[1..], i)
  }

  lemma AckStep(s: State, a: Action, i: nat)
    requires Tidy(s) && Enabled(s, a) && Serial(s, a)
    ensures Bit(Acknowledges(s, a, i)) + Bit(Accounted(s, i)) == Bit(LosesAck(s, a, i)) + Bit(Accounted(Apply(s, a), i))
  {
    match a
    case Tick(_) =>
    case Enqueue(m) =>
    case Claim(ids) => AckClaim(s, ids, i);
    case Call(j, reply) => AckCall(s, j, reply, i);
    case _ => AckFinish(s, a, a.j, i);
  }

  lemma AckClaim(s: State, ids: seq<nat>, i: nat)
    requires Tidy(s) && Enabled(s, Claim(ids)) && s.jobs == []
    ensures Accounted(Apply(s, Claim(ids)), i) <==> Accounted(s, i)
  {
    ClaimFacts(s, ids);
    var s' := Apply(s, Claim(ids));
    assert s'.jobs == JobsFor(ids, s.now);
    if i < |s.rows| { assert if i in ids then TakenRow(s, i, s') else LeftRow(s, i, s'); }
  }

  lemma AckCall(s: State, j: nat, reply: Reply, i: nat)
    requires Tidy(s) && Enabled(s, Call(j, reply))
    ensures Accounted(Apply(s, Call(j, reply)), i) <==> Accounted(s, i) || (reply.Ack? && s.jobs[j].row == i)
    ensures reply.Ack? && s.jobs[j].row == i ==> !Accounted(s, i)
  {
    var s' := Apply(s, Call(j, reply));
    if k: nat :| k < |s.jobs| && HoldsAck(s.jobs[k], i) { assert HoldsAck(s'.jobs[k], i); }
    if reply.Ack? && s.jobs[j].row == i { assert HoldsAck(s'.jobs[j], i); }
  }

  /** Only the job that leaves held anything for its row. */
  lemma AckFinish(s: State, a: Action, j: nat, i: nat)
    requires Tidy(s) && Enabled(s, a) && j < |s.jobs|
    requires (a.NoRoute? || a.UnknownKind? || a.Record? || a.Drop?) && a.j == j
    ensures Accounted(Apply(s, a), i) <==> Accounted(s, i) && !LosesAck(s, a, i)
  {
    var s' := Apply(s, a);
    forall k | 0 <= k < |s'.jobs| ensures s'.jobs[k] == s.jobs[if k < j then k else k + 1] {}
    if k: nat :| k < |s.jobs| && k != j && HoldsAck(s.jobs[k], i) {
      assert HoldsAck(s'.jobs[if k < j then k else k - 1], i);
    }
  }

  lemma {:induction false} AcksFollow(s: State, acts: seq<Action>, i: nat)
    requires Tidy(s) && SerialRun(s, acts)
    ensures Run(s, acts)
    ensures AckedCalls(s, acts, i) + Bit(Accounted(s, i)) == LostAcks(s, acts, i) + Bit(Accounted(Exec(s, acts), i))
    decreases |acts|
  {
    SerialRunIsRun(s, acts);
    if acts != [] {
      TidyStep(s, acts[0]);
      AckStep(s, acts[0], i);
      AcksFollow(Apply(s, acts[0]), acts[1..], i);
    }
  }

  /** With serial drains every acknowledged call for a row is lost with its drain, held by the drain, or the
      one the sent row records: the contact gets the message a second time exactly when an acknowledgement
      was lost before it was recorded and Meta acknowledged once more. */
  lemma AcksAreConserved(acts: seq<Action>, i: nat)
    requires SerialRun(START, acts)
    ensures Run(START, acts)
    ensures var (acked, lost) := (AckedCalls(START, acts, i), LostAcks(START, acts, i));
      && acked == lost + (if Accounted(Exec(START, acts), i) then 1 else 0)
      && (acked > 1 <==> lost > 1 || (lost == 1 && Accounted(Exec(START, acts), i)))
  {
    AcksFollow(START, acts, i);
  }
}
