/** Overlapping drains: runs in which a sent row changes and the dedup lookup finds two rows. */
module OutboxOverlap {
  import opened Wrappers
  import opened Outbox
  import opened OutboxRuns

  /** The only row of a table is claimed at its send_after. */
  lemma ClaimOnlyRow(s: State)
    requires Shape(s) && |s.rows| == 1 && Eligible(s.rows[0], s.now) && s.now == s.rows[0].sendAfter
    ensures Enabled(s, Claim([0])) && ClaimEffect(s, [0], Apply(s, Claim([0])))
  {
    assert Expire(s.rows, s.now) == s.rows;
    ClaimFacts(s, [0]);
  }

  ghost predicate ClaimedTwice(s: State, m: Message) {
    && Shape(s) && |s.rows| == 1 && IsTwin(s.rows[0], m) && s.jobs == [Ready(0, s.now), Ready(0, s.now)]
  }

  /** Two overlapping drains can claim the same row. */
  lemma DoubleClaimHappens(m: Message) returns (acts: seq<Action>)
    requires Deduplicated(m) && m.sendAfter.None?
    ensures Run(START, acts) && ClaimedTwice(Exec(START, acts), m)
  {
    RunOne(START, Enqueue(m));
    var s1 := Apply(START, Enqueue(m));
    ClaimOnlyRow(s1);
    var s2 := Apply(s1, Claim([0]));
    assert TakenRow(s1, [0][0], s2);
    ClaimOnlyRow(s2);
    assert TakenRow(s2, [0][0], Apply(s2, Claim([0])));
    RunSnoc(START, [Enqueue(m)], Claim([0]));
    RunSnoc(START, [Enqueue(m)] + [Claim([0])], Claim([0]));
    acts := [Enqueue(m)] + [Claim([0])] + [Claim([0])];
  }

  /** The first row was sent as "w" and is pending again; the lookup for m finds two rows. */
  ghost predicate Revived(s: State, m: Message) {
    |s.rows| == 2 && s.rows[0].wamid == Some("w") && s.rows[0].state.Pending? && Twins(s.rows, m) == {0, 1}
  }

  /** The first drain sends the row. */
  lemma FirstDrainSends(s: State, m: Message)
    requires m.kind.Text? && ClaimedTwice(s, m)
    ensures Run(s, [Call(0, Ack("w"))] + [Record(0)])
    ensures var s' := Exec(s, [Call(0, Ack("w"))] + [Record(0)]);
      && Shape(s') && s'.rows == [s.rows[0].(state := Sent, wamid := Some("w"))]
      && s'.jobs == [Ready(0, s.now)] && s'.now == s.now
  {
    var a1, a2 := Call(0, Ack("w")), Record(0);
    RunOne(s, a1);
    RunSnoc(s, [a1], a2);
  }

  /** An enqueue of the same message finds no pending row and inserts a second one; the second drain's
      failure then makes the sent row pending again. */
  lemma SecondDrainRevives(s: State, m: Message, now: real) returns (acts: seq<Action>)
    requires Deduplicated(m) && m.kind.Text? && Shape(s) && |s.rows| == 1 && s.jobs == [Ready(0, now)]
    requires IsTwin(s.rows[0].(state := Pending), m) && s.rows[0].state.Sent? && s.rows[0].wamid == Some("w")
    ensures Run(s, acts) && Revived(Exec(s, acts), m)
  {
    var a1, a2, a3 := Enqueue(m), Call(0, Refused("e", true)), Record(0);
    assert Twins(s.rows, m) == {};
    RunOne(s, a1);
    RunSnoc(s, [a1], a2);
    RunSnoc(s, [a1] + [a2], a3);
    acts := [a1] + [a2] + [a3];
  }

  /** A retryable failure breaks both properties: a run sends a row, makes it pending again, and leaves the
      dedup lookup two pending rows. */
  lemma OverlapRevivesSentRow(m: Message)
    requires Deduplicated(m) && m.kind.Text? && m.sendAfter.None?
    ensures exists acts :: Run(START, acts) && Revived(Exec(START, acts), m)
  {
    var x := DoubleClaimHappens(m);
    var s := Exec(START, x);
    FirstDrainSends(s, m);
    var y := [Call(0, Ack("w"))] + [Record(0)];
    RunConcat(START, x, y);
    var z := SecondDrainRevives(Exec(s, y), m, s.now);
    RunConcat(START, x + y, z);
  }

  /** A permanent failure breaks absorption without any retry: a run in which a row is sent, and ends failed
      because the second drain found no route. */
  lemma OverlapFailsSentRow(m: Message)
    requires Deduplicated(m) && m.kind.Text? && m.sendAfter.None?
    ensures exists acts :: Run(START, acts) && SentThenFailed(Exec(START, acts))
  {
    var x := DoubleClaimHappens(m);
    var s := Exec(START, x);
    FirstDrainSends(s, m);
    var y := [Call(0, Ack("w"))] + [Record(0)];
    RunConcat(START, x, y);
    RunSnoc(START, x + y, NoRoute(0));
  }

  ghost predicate SentThenFailed(s: State) {
    |s.rows| == 1 && s.rows[0].wamid == Some("w") && s.rows[0].state.Failed? && s.rows[0].error == Some("NO_ROUTE")
  }
}
