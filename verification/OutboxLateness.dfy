/** How late a row of wa.outbox can be claimed by serial drains that record outcomes in time. */
module OutboxLateness {
  import opened Outbox
  import opened OutboxRuns
  import opened OutboxSerial

  /** Outcomes are recorded within L seconds of the claim. */
  ghost predicate Timely(s: State, a: Action, L: real) {
    a.NoRoute? || a.UnknownKind? || a.Record? ==> a.j < |s.jobs| && s.now <= s.jobs[a.j].claimedAt + L
  }

  ghost predicate TimelyRun(s: State, acts: seq<Action>, L: real)
    decreases |acts|
  {
    acts == [] || (&& Enabled(s, acts[0]) && Serial(s, acts[0]) && Timely(s, acts[0], L)
                   && TimelyRun(Apply(s, acts[0]), acts[1..], L))
  }

  /** How far send_after can have moved once a row has been claimed `attempts` times. */
  function Slack(attempts: nat, L: real): real {
    if attempts == 0 then 0.0 else Slack(attempts - 1, L) + WINDOW + L + Backoff(attempts)
  }

  /** A row is due within its slack, and while claimed within the slack it had before the claim. */
  ghost predicate Punctual(s: State, L: real) {
    && Tidy(s) && L >= 0.0
    && (forall i: nat | i < |s.rows| && s.rows[i].state.Pending? :: Due(s, i, s.rows[i].attempts, L))
    && (forall j | 0 <= j < |s.jobs| ::
          var i := s.jobs[j].row;
          && s.rows[i].attempts >= 1 && s.jobs[j].claimedAt <= s.rows[i].sendAfter + WINDOW
          && Due(s, i, s.rows[i].attempts - 1, L))
  }

  ghost predicate Due(s: State, i: nat, attempts: nat, L: real)
    requires Shape(s) && i < |s.rows|
  {
    s.rows[i].sendAfter <= s.first[i] + Slack(attempts, L)
  }

  lemma BackoffPositive(n: nat)
    ensures Backoff(n) > 0.0
  {
    if n > 0 { BackoffPositive(n - 1); }
  }

  lemma SlackGrows(n: nat, L: real)
    requires n > 0 && L >= 0.0
    ensures Slack(n - 1, L) <= Slack(n, L)
  {
    BackoffPositive(n);
  }

  lemma ClaimedRowDue(s: State, ids: seq<nat>, s': State, i: nat, L: real)
    requires Punctual(s, L) && ClaimEffect(s, ids, s') && Shape(s')
    requires i < |s.rows| && s'.rows[i].state.Pending?
    ensures Due(s', i, s'.rows[i].attempts, L)
  {
    assert s.rows[i].state.Pending? && s'.rows[i].sendAfter == s.rows[i].sendAfter by {
      if i in ids { assert TakenRow(s, i, s'); } else { assert LeftRow(s, i, s'); }
    }
    assert Due(s, i, s.rows[i].attempts, L);
    if i in ids {
      assert TakenRow(s, i, s');
      SlackGrows(s'.rows[i].attempts, L);
    } else {
      assert LeftRow(s, i, s');
    }
  }

  lemma PunctualClaim(s: State, ids: seq<nat>, s': State, L: real)
    requires Punctual(s, L) && ClaimEffect(s, ids, s') && s.jobs == [] && Tidy(s')
    ensures Punctual(s', L)
  {
    forall i: nat | i < |s.rows| && s'.rows[i].state.Pending?
      ensures Due(s', i, s'.rows[i].attempts, L)
    {
      ClaimedRowDue(s, ids, s', i, L);
    }
    assert s'.jobs == JobsFor(ids, s.now);
    forall j | 0 <= j < |s'.jobs|
      ensures var i := s'.jobs[j].row;
        && s'.rows[i].attempts >= 1 && s'.jobs[j].claimedAt <= s'.rows[i].sendAfter + WINDOW
        && Due(s', i, s'.rows[i].attempts - 1, L)
    {
      assert TakenRow(s, ids[j], s') && Due(s, ids[j], s.rows[ids[j]].attempts, L);
    }
  }

  lemma PunctualFinish(s: State, j: nat, s': State, L: real)
    requires Punctual(s, L) && j < |s.jobs| && Tidy(s') && s'.jobs == Without(s.jobs, j)
    requires |s'.rows| == |s.rows| && s'.first == s.first
    requires forall i: nat | i < |s.rows| && i != s.jobs[j].row :: s'.rows[i] == s.rows[i]
    requires var i := s.jobs[j].row; s'.rows[i].state.Pending? ==> Due(s', i, s'.rows[i].attempts, L)
    ensures Punctual(s', L)
  {
    forall k | 0 <= k < |s'.jobs|
      ensures s'.jobs[k] == s.jobs[if k < j then k else k + 1] && s'.jobs[k].row != s.jobs[j].row
    {
    }
    assert forall i: nat, n: nat | i < |s.rows| && i != s.jobs[j].row :: Due(s', i, n, L) <==> Due(s, i, n, L);
  }

  /** A failure recorded within L seconds of the claim moves send_after within the slack. */
  lemma RetryInTime(s: State, j: nat, L: real)
    requires Punctual(s, L) && j < |s.jobs| && s.now <= s.jobs[j].claimedAt + L
    ensures var i := s.jobs[j].row;
            s.now + Backoff(s.rows[i].attempts) <= s.first[i] + Slack(s.rows[i].attempts, L)
  {
    var i := s.jobs[j].row;
    assert Due(s, i, s.rows[i].attempts - 1, L);
  }

  lemma PunctualStep(s: State, a: Action, L: real)
    requires Punctual(s, L) && Enabled(s, a) && Serial(s, a) && Timely(s, a, L)
    ensures Punctual(Apply(s, a), L)
  {
    var s' := Apply(s, a);
    TidyStep(s, a);
    match a
    case Claim(ids) =>
      ClaimFacts(s, ids);
      PunctualClaim(s, ids, s', L);
    case Tick(_) => PunctualSame(s, s', L);
    case Enqueue(m) => PunctualSame(s, s', L);
    case Call(j, _) => PunctualSame(s, s', L);
    case Drop(j) =>
      assert Due(s, s.jobs[j].row, s.rows[s.jobs[j].row].attempts, L);
      PunctualFinish(s, j, s', L);
    case _ =>
      RetryInTime(s, a.j, L);
      PunctualFinish(s, a.j, s', L);
  }

  /** Rows are kept and perhaps a new one added; the same rows are claimed since the same times. */
  lemma PunctualSame(s: State, s': State, L: real)
    requires Punctual(s, L) && Tidy(s') && |s'.jobs| == |s.jobs| && s.rows <= s'.rows && s.first <= s'.first
    requires forall j | 0 <= j < |s.jobs| ::
               s'.jobs[j].row == s.jobs[j].row && s'.jobs[j].claimedAt == s.jobs[j].claimedAt
    requires forall i | |s.rows| <= i < |s'.rows| :: s'.rows[i].attempts == 0 && s'.rows[i].sendAfter == s'.first[i]
    ensures Punctual(s', L)
  {
    assert forall i: nat, n: nat | i < |s.rows| :: Due(s', i, n, L) <==> Due(s, i, n, L);
  }

  lemma {:induction false} PunctualRun(s: State, acts: seq<Action>, L: real)
    requires Punctual(s, L) && TimelyRun(s, acts, L)
    ensures Run(s, acts) && Punctual(Exec(s, acts), L)
    decreases |acts|
  {
    if acts != [] {
      PunctualStep(s, acts[0], L);
      PunctualRun(Apply(s, acts[0]), acts[1..], L);
    }
  }

  /** With serial drains that record within L seconds, no row is claimed later than its first send_after
      plus three windows, the two back-offs of 60 and 120 seconds, and 2L. */
  lemma LatenessBound(acts: seq<Action>, L: real, ids: seq<nat>, i: nat)
    requires L >= 0.0 && TimelyRun(START, acts, L) && Run(START, acts)
    requires Enabled(Exec(START, acts), Claim(ids)) && Exec(START, acts).jobs == [] && i in ids
    ensures var s := Exec(START, acts);
            i < |s.first| && s.now <= s.first[i] + 3.0 * 82800.0 + 60.0 + 120.0 + 2.0 * L
  {
    PunctualRun(START, acts, L);
    ClaimFacts(Exec(START, acts), ids);
    ClaimedInTime(Exec(START, acts), ids, Apply(Exec(START, acts), Claim(ids)), i, L);
  }

  lemma ClaimedInTime(s: State, ids: seq<nat>, s': State, i: nat, L: real)
    requires Punctual(s, L) && ClaimEffect(s, ids, s') && s.jobs == [] && i in ids
    ensures i < |s.first| && s.now <= s.first[i] + 3.0 * 82800.0 + 60.0 + 120.0 + 2.0 * L
  {
    assert TakenRow(s, i, s') && Due(s, i, s.rows[i].attempts, L);
    SlackTwo(L);
    SlackMonotone(s.rows[i].attempts, L);
  }

  lemma SlackTwo(L: real)
    ensures Slack(2, L) == 2.0 * WINDOW + 2.0 * L + 60.0 + 120.0
  {
    assert Pow2(1) == 2.0 && Pow2(2) == 4.0;
    assert Slack(1, L) == WINDOW + L + 60.0;
  }

  lemma SlackMonotone(attempts: nat, L: real)
    requires attempts <= 2 && L >= 0.0
    ensures Slack(attempts, L) <= Slack(2, L)
  {
    SlackGrows(1, L);
    SlackGrows(2, L);
  }

  // ---- a bound per send is enough ---------------------------------------------------------------------------

  predicate Finishes(a: Action) { a.NoRoute? || a.UnknownKind? || a.Record? }

  function Min(x: real, y: real): real { if x <= y then x else y }

  /** When the drain turned to the job it has in hand: at the claim, or when it was done with the job before. */
  function TurnedTo(s: State, a: Action, l: real, last: real): real {
    if a.Claim? || Finishes(a) then s.now else if a.Drop? then Min(s.now, last + l) else last
  }

  /** Serial drains that record each outcome within l seconds of turning to the job. */
  ghost predicate PacedRun(s: State, acts: seq<Action>, l: real, last: real)
    decreases |acts|
  {
    acts == [] || (&& Enabled(s, acts[0]) && Serial(s, acts[0]) && (Finishes(acts[0]) ==> s.now <= last + l)
                   && PacedRun(Apply(s, acts[0]), acts[1..], l, TurnedTo(s, acts[0], l, last)))
  }

  /** The time k sends may take. */
  function Turns(k: nat, l: real): real { if k == 0 then 0.0 else Turns(k - 1, l) + l }

  lemma {:induction false} TurnsGrow(k: nat, k': nat, l: real)
    requires k <= k' && l >= 0.0
    ensures Turns(k, l) <= Turns(k', l)
    decreases k'
  {
    if k < k' { TurnsGrow(k, k' - 1, l); }
  }

  lemma {:induction false} TurnsAre(k: nat, l: real)
    ensures Turns(k, l) == k as real * l
  {
    if k > 0 {
      TurnsAre(k - 1, l);
      assert k as real * l == (k - 1) as real * l + l;
    }
  }

  /** Of n jobs claimed together, those done have taken l seconds each at most. */
  ghost predicate Pace(s: State, l: real, last: real, n: nat) {
    && Shape(s) && l >= 0.0 && |s.jobs| <= n <= CLAIM_LIMIT
    && forall j | 0 <= j < |s.jobs| :: last <= s.jobs[j].claimedAt + Turns(n - |s.jobs|, l)
  }

  lemma PaceStep(s: State, a: Action, l: real, last: real, n: nat) returns (n': nat)
    requires Pace(s, l, last, n) && Enabled(s, a) && Serial(s, a) && (Finishes(a) ==> s.now <= last + l)
    ensures Timely(s, a, Turns(CLAIM_LIMIT, l))
    ensures Pace(Apply(s, a), l, TurnedTo(s, a, l, last), n')
  {
    n' := if a.Claim? then |a.ids| else n;
    if Finishes(a) || a.Drop? {
      if Finishes(a) { FinishedInTime(s, a.j, l, last, n); }
      PaceFinish(s, Apply(s, a), a.j, l, last, TurnedTo(s, a, l, last), n);
    } else if a.Claim? {
      PaceClaim(s, a.ids, l);
    } else {
      PaceStays(s, a, l, last, n);
    }
  }

  lemma FinishedInTime(s: State, j: nat, l: real, last: real, n: nat)
    requires Pace(s, l, last, n) && j < |s.jobs| && s.now <= last + l
    ensures s.now <= s.jobs[j].claimedAt + Turns(CLAIM_LIMIT, l)
  {
    TurnsGrow(n - |s.jobs| + 1, CLAIM_LIMIT, l);
  }

  lemma PaceStays(s: State, a: Action, l: real, last: real, n: nat)
    requires Pace(s, l, last, n) && Enabled(s, a) && (a.Tick? || a.Enqueue? || a.Call?)
    ensures Pace(Apply(s, a), l, last, n)
  {
    var s' := Apply(s, a);
    forall j | 0 <= j < |s'.jobs|
      ensures s'.jobs[j].row == s.jobs[j].row && s'.jobs[j].claimedAt == s.jobs[j].claimedAt
    {
    }
  }

  lemma PaceFinish(s: State, s': State, j: nat, l: real, last: real, last': real, n: nat)
    requires Pace(s, l, last, n) && j < |s.jobs| && s'.jobs == Without(s.jobs, j) && last' <= last + l
    requires |s'.rows| == |s.rows| && |s'.claims| == |s.claims| && |s'.calls| == |s.calls| && |s'.first| == |s.first|
    ensures Pace(s', l, last', n)
  {
    forall k | 0 <= k < |s'.jobs|
      ensures s'.jobs[k].row < |s'.rows| && last' <= s'.jobs[k].claimedAt + Turns(n - |s'.jobs|, l)
    {
      assert s'.jobs[k] == s.jobs[if k < j then k else k + 1];
    }
  }

  lemma PaceClaim(s: State, ids: seq<nat>, l: real)
    requires Enabled(s, Claim(ids)) && s.jobs == [] && l >= 0.0
    ensures Pace(Apply(s, Claim(ids)), l, s.now, |ids|)
  {
    ClaimFacts(s, ids);
    var s' := Apply(s, Claim(ids));
    assert s'.jobs == JobsFor(ids, s.now);
    forall k | 0 <= k < |s'.jobs| ensures s'.jobs[k].row < |s'.rows| && s'.jobs[k].claimedAt == s.now {
      assert TakenRow(s, ids[k], s');
    }
  }

  lemma {:induction false} PacedIsTimely(s: State, acts: seq<Action>, l: real, last: real, n: nat)
    requires Pace(s, l, last, n) && PacedRun(s, acts, l, last)
    ensures TimelyRun(s, acts, Turns(CLAIM_LIMIT, l)) && Run(s, acts)
    decreases |acts|
  {
    if acts != [] {
      var n' := PaceStep(s, acts[0], l, last, n);
      PacedIsTimely(Apply(s, acts[0]), acts[1..], l, TurnedTo(s, acts[0], l, last), n');
    }
  }

  /** The lateness bound from the time of one send: drains that spend at most l seconds on a row claim none
      later than first send_after plus three windows, the two back-offs, and twice 20 l. */
  lemma LatenessPerSend(acts: seq<Action>, l: real, ids: seq<nat>, i: nat)
    requires l >= 0.0 && PacedRun(START, acts, l, 0.0) && Run(START, acts)
    requires Enabled(Exec(START, acts), Claim(ids)) && Exec(START, acts).jobs == [] && i in ids
    ensures var s := Exec(START, acts);
            i < |s.first| && s.now <= s.first[i] + 3.0 * 82800.0 + 60.0 + 120.0 + 40.0 * l
  {
    PacedIsTimely(START, acts, l, 0.0, 0);
    TurnsGrow(0, CLAIM_LIMIT, l);
    TurnsAre(CLAIM_LIMIT, l);
    LatenessBound(acts, Turns(CLAIM_LIMIT, l), ids, i);
  }
}
