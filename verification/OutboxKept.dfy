/** What the steps of wa.outbox keep, however drains, enqueues and crashes overlap: the uniqueness of pending
    dedup keys, and rows that are sent, failed or skipped.  For each, exactly which steps break it. */
module OutboxKept {
  import opened Wrappers
  import opened Outbox
  import opened OutboxRuns

  // ---- dedup keys ----------------------------------------------------------------------------------------

  predicate SameKey(x: Row, y: Row) {
    && x.state.Pending? && y.state.Pending? && x.session.Some? && x.dedup.Some?
    && x.session == y.session && x.kind == y.kind && x.dedup == y.dedup
  }

  ghost predicate UniqueKeys(rows: seq<Row>) {
    forall i, j | 0 <= i < j < |rows| :: !SameKey(rows[i], rows[j])
  }

  lemma KeysGiveOneTwin(rows: seq<Row>, m: Message)
    requires UniqueKeys(rows) && Deduplicated(m)
    ensures |Twins(rows, m)| <= 1
  {
    var t := Twins(rows, m);
    if |t| > 1 {
      var x :| x in t;
      assert |t - {x}| >= 1;
      var y :| y in t - {x};
      assert SameKey(rows[x], rows[y]) && SameKey(rows[y], rows[x]);
    }
  }

  /** Another pending row holds the session, kind and key of row i, which is or was pending itself. */
  predicate KeyTakenBy(rows: seq<Row>, i: nat, j: nat)
    requires i < |rows| && j < |rows|
  {
    j != i && SameKey(rows[j], rows[i].(state := Pending))
  }

  ghost predicate KeyTaken(rows: seq<Row>, i: nat)
    requires i < |rows|
  {
    exists j: nat :: j < |rows| && KeyTakenBy(rows, i, j)
  }

  /** A retryable failure keeps the pending keys unique exactly when no other pending row has taken the key
      of the row it marks... */
  lemma RetryKeepsKeysIff(rows: seq<Row>, i: nat, error: string, now: real)
    requires i < |rows| && UniqueKeys(rows)
    ensures UniqueKeys(MarkFailedRows(rows, i, error, false, now)) <==> !KeyTaken(rows, i)
  {
    var rows' := MarkFailedRows(rows, i, error, false, now);
    if UniqueKeys(rows') {
      forall j: nat | j < |rows| ensures !KeyTakenBy(rows, i, j) {
        assert j < i ==> !SameKey(rows'[j], rows'[i]);
        assert i < j ==> !SameKey(rows'[i], rows'[j]);
      }
    } else {
      var x, y :| 0 <= x < y < |rows'| && SameKey(rows'[x], rows'[y]);
      assert !SameKey(rows[x], rows[y]);
      assert KeyTakenBy(rows, i, if x == i then y else x);
    }
  }

  /** ...every other rewriting of rows leaves no new pending row and no new key. */
  ghost predicate NoNewKeys(rows: seq<Row>, rows': seq<Row>) {
    && |rows'| == |rows|
    && forall i | 0 <= i < |rows| ::
         rows'[i].state.Pending? ==> rows[i].state.Pending? && SameIdentity(rows[i], rows'[i])
  }

  predicate SameIdentity(r: Row, r': Row) { r'.session == r.session && r'.kind == r.kind && r'.dedup == r.dedup }

  lemma NoNewKeysKeeps(rows: seq<Row>, rows': seq<Row>)
    requires UniqueKeys(rows) && NoNewKeys(rows, rows')
    ensures UniqueKeys(rows')
  {
    forall i, j | 0 <= i < j < |rows'| ensures !SameKey(rows'[i], rows'[j]) {
      assert SameKey(rows'[i], rows'[j]) ==> SameKey(rows[i], rows[j]);
    }
  }

  lemma EnqueueKeepsKeys(s: State, m: Message)
    requires Shape(s) && UniqueKeys(s.rows)
    ensures UniqueKeys(Apply(s, Enqueue(m)).rows)
  {
    var s' := Apply(s, Enqueue(m));
    if s'.rows != s.rows {
      forall i | 0 <= i < |s.rows| ensures !SameKey(s'.rows[i], s'.rows[|s.rows|]) {
        assert i !in Twins(s.rows, m) || !Deduplicated(m);
      }
    }
  }

  lemma ClaimKeepsKeys(s: State, ids: seq<nat>)
    requires Enabled(s, Claim(ids)) && UniqueKeys(s.rows)
    ensures UniqueKeys(Apply(s, Claim(ids)).rows)
  {
    var s' := Apply(s, Claim(ids));
    ClaimFacts(s, ids);
    forall i | 0 <= i < |s.rows|
      ensures s'.rows[i].state.Pending? ==> s.rows[i].state.Pending? && SameIdentity(s.rows[i], s'.rows[i])
    {
      if i in ids { assert TakenRow(s, i, s'); } else { assert LeftRow(s, i, s'); }
    }
    NoNewKeysKeeps(s.rows, s'.rows);
  }

  /** The step records a retryable failure on a row whose key another pending row has taken meanwhile. */
  ghost predicate BreaksKeys(s: State, a: Action)
    requires Enabled(s, a)
  {
    && a.Record? && s.jobs[a.j].reply.Refused? && s.jobs[a.j].reply.retryable
    && KeyTaken(s.rows, s.jobs[a.j].row)
  }

  /** Of all steps of all drains, enqueues and crashes, exactly these break the keys. */
  lemma KeysKeptIff(s: State, a: Action)
    requires Enabled(s, a) && UniqueKeys(s.rows)
    ensures UniqueKeys(Apply(s, a).rows) <==> !BreaksKeys(s, a)
  {
    match a
    case Enqueue(m) => EnqueueKeepsKeys(s, m);
    case Claim(ids) => ClaimKeepsKeys(s, ids);
    case NoRoute(_) => NoNewKeysKeeps(s.rows, Apply(s, a).rows);
    case UnknownKind(_) => NoNewKeysKeeps(s.rows, Apply(s, a).rows);
    case Record(j) =>
      if s.jobs[j].reply.Refused? && s.jobs[j].reply.retryable {
        RetryKeepsKeysIff(s.rows, s.jobs[j].row, s.jobs[j].reply.code, s.now);
      } else {
        NoNewKeysKeeps(s.rows, Apply(s, a).rows);
      }
    case _ =>
  }

  /** The keys are unique in every state of the run. */
  ghost predicate KeysAlong(s: State, acts: seq<Action>)
    requires Run(s, acts)
    decreases |acts|
  {
    UniqueKeys(s.rows) && (acts == [] || KeysAlong(Apply(s, acts[0]), acts[1..]))
  }

  /** No step of the run breaks them. */
  ghost predicate NoneBreaks(s: State, acts: seq<Action>)
    requires Run(s, acts)
    decreases |acts|
  {
    acts == [] || (!BreaksKeys(s, acts[0]) && NoneBreaks(Apply(s, acts[0]), acts[1..]))
  }

  /** However drains overlap, the dedup keys of pending rows stay unique throughout a run, so that every
      lookup finds at most one row, exactly when no step of it is such a failure. */
  lemma {:induction false} KeysAlongIff(s: State, acts: seq<Action>)
    requires Run(s, acts) && UniqueKeys(s.rows)
    ensures KeysAlong(s, acts) <==> NoneBreaks(s, acts)
    decreases |acts|
  {
    if acts != [] {
      KeysKeptIff(s, acts[0]);
      if !BreaksKeys(s, acts[0]) {
        KeysAlongIff(Apply(s, acts[0]), acts[1..]);
      }
    }
  }

  // ---- terminal rows -------------------------------------------------------------------------------------

  /** The row is terminal, and the outcome asks for a retry or is not the one the row has. */
  predicate Contradicts(outcome: Reply, r: Row) {
    !r.state.Pending? &&
    match outcome
    case Ack(wamid) => !(r.state.Sent? && r.wamid == Some(wamid))
    case Refused(code, retryable) => retryable || !(r.state.Failed? && r.error == Some(code))
  }

  /** The step records an outcome that contradicts its row. */
  ghost predicate Overwrites(s: State, a: Action)
    requires Enabled(s, a)
  {
    match a
    case NoRoute(j) => Contradicts(Refused("NO_ROUTE", false), s.rows[s.jobs[j].row])
    case UnknownKind(j) => Contradicts(Refused("UNKNOWN_KIND", false), s.rows[s.jobs[j].row])
    case Record(j) => Contradicts(s.jobs[j].reply, s.rows[s.jobs[j].row])
    case _ => false
  }

  /** Of all steps of all drains, enqueues and crashes, exactly these change a terminal row. */
  lemma TerminalKeptIff(s: State, a: Action)
    requires Enabled(s, a)
    ensures TerminalRowsKept(s.rows, Apply(s, a).rows) <==> !Overwrites(s, a)
  {
    match a
    case Claim(ids) => ClaimKeepsTerminal(s, ids);
    case NoRoute(j) => FailureKeepsTerminalIff(s.rows, s.jobs[j].row, "NO_ROUTE", s.now);
    case UnknownKind(j) => FailureKeepsTerminalIff(s.rows, s.jobs[j].row, "UNKNOWN_KIND", s.now);
    case Record(j) => RecordKeepsTerminalIff(s, j);
    case _ =>
  }

  lemma RecordKeepsTerminalIff(s: State, j: nat)
    requires Enabled(s, Record(j))
    ensures TerminalRowsKept(s.rows, Apply(s, Record(j)).rows) <==> !Overwrites(s, Record(j))
  {
    match s.jobs[j].reply
    case Ack(wamid) => SentKeepsTerminalIff(s.rows, s.jobs[j].row, wamid);
    case Refused(code, retryable) =>
      if retryable {
        RetryKeepsTerminalIffPending(s.rows, s.jobs[j].row, code, s.now);
      } else {
        FailureKeepsTerminalIff(s.rows, s.jobs[j].row, code, s.now);
      }
  }

  lemma ClaimKeepsTerminal(s: State, ids: seq<nat>)
    requires Enabled(s, Claim(ids))
    ensures TerminalRowsKept(s.rows, Apply(s, Claim(ids)).rows)
  {
    ClaimFacts(s, ids);
    forall i | 0 <= i < |s.rows| && !s.rows[i].state.Pending? ensures Apply(s, Claim(ids)).rows[i] == s.rows[i] {
      assert i in ids ==> TakenRow(s, i, Apply(s, Claim(ids)));
    }
  }

  /** The rows terminal in the given table are there, unchanged, in every state of the run. */
  ghost predicate StayAlong(rows: seq<Row>, s: State, acts: seq<Action>)
    requires Run(s, acts)
    decreases |acts|
  {
    TerminalRowsKept(rows, s.rows) && (acts == [] || StayAlong(rows, Apply(s, acts[0]), acts[1..]))
  }

  /** Whatever is terminal in a state of the run stays so, unchanged, in every later one. */
  ghost predicate Absorbing(s: State, acts: seq<Action>)
    requires Run(s, acts)
    decreases |acts|
  {
    StayAlong(s.rows, s, acts) && (acts == [] || Absorbing(Apply(s, acts[0]), acts[1..]))
  }

  ghost predicate NoneOverwrites(s: State, acts: seq<Action>)
    requires Run(s, acts)
    decreases |acts|
  {
    acts == [] || (!Overwrites(s, acts[0]) && NoneOverwrites(Apply(s, acts[0]), acts[1..]))
  }

  lemma {:induction false} StayAlongFrom(rows: seq<Row>, rows': seq<Row>, s: State, acts: seq<Action>)
    requires TerminalRowsKept(rows, rows') && Run(s, acts) && StayAlong(rows', s, acts)
    ensures StayAlong(rows, s, acts)
    decreases |acts|
  {
    TerminalTrans(rows, rows', s.rows);
    if acts != [] { StayAlongFrom(rows, rows', Apply(s, acts[0]), acts[1..]); }
  }

  lemma TerminalTrans(x: seq<Row>, y: seq<Row>, z: seq<Row>)
    requires TerminalRowsKept(x, y) && TerminalRowsKept(y, z)
    ensures TerminalRowsKept(x, z)
  {
    forall i | 0 <= i < |x| && !x[i].state.Pending? ensures z[i] == x[i] { assert y[i] == x[i]; }
  }

  /** However drains overlap, terminal rows absorb throughout a run exactly when no step of it records an
      outcome that contradicts its row. */
  lemma {:induction false} AbsorbingIff(s: State, acts: seq<Action>)
    requires Run(s, acts)
    ensures Absorbing(s, acts) <==> NoneOverwrites(s, acts)
    decreases |acts|
  {
    if acts != [] {
      var s' := Apply(s, acts[0]);
      TerminalKeptIff(s, acts[0]);
      AbsorbingIff(s', acts[1..]);
      if Absorbing(s, acts) {
        StayAlongStarts(s.rows, s', acts[1..]);
      } else if NoneOverwrites(s, acts) {
        StayAlongFrom(s.rows, s'.rows, s', acts[1..]);
      }
    }
  }

  lemma StayAlongStarts(rows: seq<Row>, s: State, acts: seq<Action>)
    requires Run(s, acts) && StayAlong(rows, s, acts)
    ensures TerminalRowsKept(rows, s.rows)
  {}

  lemma {:induction false} StayToTheEnd(rows: seq<Row>, s: State, acts: seq<Action>)
    requires Run(s, acts) && StayAlong(rows, s, acts)
    ensures TerminalRowsKept(rows, Exec(s, acts).rows)
    decreases |acts|
  {
    if acts != [] { StayToTheEnd(rows, Apply(s, acts[0]), acts[1..]); }
  }
}
