/** How early a row of wa.outbox can be claimed again after a retryable failure: not before its back-off,
    however drains overlap and crash. */
module OutboxBackoff {
  import opened Outbox
  import opened OutboxRuns

  /** Claimed rows have been counted. */
  ghost predicate Counted(s: State) {
    Shape(s) && forall j | 0 <= j < |s.jobs| :: s.rows[s.jobs[j].row].attempts >= 1
  }

  /** Rows are never dropped, attempts never fall, and the clock does not go back. */
  ghost predicate Later(s: State, s': State) {
    && Shape(s) && Shape(s') && |s.rows| <= |s'.rows| && s.now <= s'.now
    && forall i | 0 <= i < |s.rows| :: s.rows[i].attempts <= s'.rows[i].attempts
  }

  lemma ClaimLater(s: State, ids: seq<nat>)
    requires Enabled(s, Claim(ids)) && Counted(s)
    ensures Later(s, Apply(s, Claim(ids))) && Counted(Apply(s, Claim(ids)))
  {
    var s' := Apply(s, Claim(ids));
    ClaimFacts(s, ids);
    forall i | 0 <= i < |s.rows| ensures s.rows[i].attempts <= s'.rows[i].attempts {
      assert if i in ids then TakenRow(s, i, s') else LeftRow(s, i, s');
    }
    forall j | 0 <= j < |s'.jobs| ensures s'.jobs[j].row < |s'.rows| && s'.rows[s'.jobs[j].row].attempts >= 1 {
      if j >= |s.jobs| { assert TakenRow(s, ids[j - |s.jobs|], s'); }
    }
  }

  lemma CountedStep(s: State, a: Action)
    requires Enabled(s, a) && Counted(s)
    ensures Later(s, Apply(s, a)) && Counted(Apply(s, a))
  {
    match a
    case Claim(ids) => ClaimLater(s, ids);
    case Call(j, _) => assert forall k | 0 <= k < |s.jobs| :: Apply(s, a).jobs[k].row == s.jobs[k].row;
    case Tick(_) =>
    case Enqueue(_) =>
    case _ => FinishLater(s, Apply(s, a), a.j);
  }

  /** A job leaves, and its row is rewritten but for its attempts. */
  lemma FinishLater(s: State, s': State, j: nat)
    requires Counted(s) && j < |s.jobs| && s'.jobs == Without(s.jobs, j) && s'.now == s.now
    requires |s'.rows| == |s.rows| == |s'.claims| == |s'.calls| == |s'.first|
    requires forall i | 0 <= i < |s.rows| :: s'.rows[i].attempts == s.rows[i].attempts
    ensures Later(s, s') && Counted(s')
  {
    forall k | 0 <= k < |s'.jobs| ensures s'.jobs[k] == s.jobs[if k < j then k else k + 1] {}
  }

  lemma {:induction false} CountedRun(s: State, acts: seq<Action>)
    requires Counted(s) && Run(s, acts)
    ensures Counted(Exec(s, acts))
    decreases |acts|
  {
    if acts != [] {
      CountedStep(s, acts[0]);
      CountedRun(Apply(s, acts[0]), acts[1..]);
    }
  }

  // ---- a row that waits ---------------------------------------------------------------------------------

  /** Since the failure at time x after n claims, row i is held back until its back-off is over. */
  ghost predicate Waits(s: State, i: nat, x: real, n: nat) {
    && Counted(s) && i < |s.rows| && s.rows[i].attempts >= n && s.now >= x
    && (s.now >= x + Backoff(n) || !s.rows[i].state.Pending? || s.rows[i].sendAfter >= x + Backoff(n))
  }

  lemma {:induction false} BackoffGrows(n: nat, m: nat)
    requires n <= m
    ensures 0.0 < Backoff(n) <= Backoff(m)
    decreases m
  {
    if n < m {
      BackoffGrows(n, m - 1);
    } else if n > 0 {
      BackoffGrows(n - 1, n - 1);
    }
  }

  lemma WaitsStep(s: State, a: Action, i: nat, x: real, n: nat)
    requires Enabled(s, a) && Waits(s, i, x, n)
    ensures Waits(Apply(s, a), i, x, n)
  {
    CountedStep(s, a);
    BackoffGrows(n, s.rows[i].attempts);
    if a.Claim? {
      ClaimFacts(s, a.ids);
      assert if i in a.ids then TakenRow(s, i, Apply(s, a)) else LeftRow(s, i, Apply(s, a));
    }
  }

  lemma {:induction false} WaitsRun(s: State, acts: seq<Action>, i: nat, x: real, n: nat)
    requires Waits(s, i, x, n) && Run(s, acts)
    ensures Waits(Exec(s, acts), i, x, n)
    decreases |acts|
  {
    if acts != [] {
      WaitsStep(s, acts[0], i, x, n);
      WaitsRun(Apply(s, acts[0]), acts[1..], i, x, n);
    }
  }

  /** A retryable failure holds the row back. */
  lemma RefusedWaits(s: State, j: nat)
    requires Enabled(s, Record(j)) && Counted(s) && s.jobs[j].reply.Refused? && s.jobs[j].reply.retryable
    ensures Waits(Apply(s, Record(j)), s.jobs[j].row, s.now, s.rows[s.jobs[j].row].attempts)
  {
    CountedStep(s, Record(j));
  }

  /** However drains overlap and crash: a row refused retryably at some time after its n-th claim is not
      claimed again before 60 seconds later when n is 1 and 120 when n is 2, and never when n is 3. */
  lemma NotBeforeBackoff(before: seq<Action>, j: nat, after: seq<Action>, ids: seq<nat>)
    requires Run(START, before) && Enabled(Exec(START, before), Record(j))
    requires var s := Exec(START, before); s.jobs[j].reply.Refused? && s.jobs[j].reply.retryable
    requires Run(Apply(Exec(START, before), Record(j)), after)
    requires var x := Exec(Apply(Exec(START, before), Record(j)), after);
      Enabled(x, Claim(ids)) && Exec(START, before).jobs[j].row in ids
    ensures var (s, x) := (Exec(START, before), Exec(Apply(Exec(START, before), Record(j)), after));
      var n := s.claims[s.jobs[j].row];
      n == s.rows[s.jobs[j].row].attempts && ((n == 1 && x.now >= s.now + 60.0) || (n == 2 && x.now >= s.now + 120.0))
  {
    var s := Exec(START, before);
    var i, y := s.jobs[j].row, Apply(s, Record(j));
    CountedRun(START, before);
    BoundedRun(START, before);
    RefusedWaits(s, j);
    WaitsRun(y, after, i, s.now, s.rows[i].attempts);
    ClaimedAgain(Exec(y, after), ids, i, s.now, s.rows[i].attempts);
  }

  lemma ClaimedAgain(x: State, ids: seq<nat>, i: nat, since: real, n: nat)
    requires Enabled(x, Claim(ids)) && i in ids && Waits(x, i, since, n) && n >= 1
    ensures (n == 1 && x.now >= since + 60.0) || (n == 2 && x.now >= since + 120.0)
  {
    ClaimFacts(x, ids);
    assert TakenRow(x, i, Apply(x, Claim(ids)));
    assert Pow2(1) == 2.0 && Pow2(2) == 4.0;
  }
}
