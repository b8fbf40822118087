/** media/di_poll.py and the polling chain of worker.py: one poll's verdict, and what the job that
    re-defers itself does with a whole sequence of them. */
module DiPoll {
  import opened Wrappers
  import Checklist

  const MAX_ATTEMPTS := 7

  /** Entry i of the back-off table of worker.py. */
  function Delay(i: nat): nat {
    match i
    case 0 => 3 case 1 => 5 case 2 => 8 case 3 => 13 case 4 => 21 case 5 => 34 case _ => 55
  }

  datatype Status = Confirmed | Verified | FailedStatus | Rejected | Unfinished

  /** audit-core's answer: status code, and for a readable body the processing status and type. */
  datatype PollReply =
    | NoResponse
    | Http(code: int, body: Option<(Status, Option<Checklist.DocType>)>)

  datatype PollOutcome =
    | Terminal(status: Status, typeKey: Option<Checklist.DocType>)
    | Pending
    | PollError(retryable: bool)

  /** poll_evidence_status: a terminal answer is a 200 with a readable body whose status is final, passed on as
      it is; only a lost connection and a 5xx can be retried; everything else is an error for good. */
  function Classify(reply: PollReply): (r: PollOutcome)
    ensures r.Terminal? <==> reply.Http? && reply.code == 200 && reply.body.Some? && !reply.body.value.0.Unfinished?
    ensures r.Terminal? ==> reply.body == Some((r.status, r.typeKey))
    ensures r.Pending? <==> reply.Http? && reply.code == 200 && reply.body.Some? && reply.body.value.0.Unfinished?
    ensures r == PollError(true) <==> reply.NoResponse? || reply.code >= 500
    ensures r == PollError(false) <==>
              reply.Http? && reply.code < 500 && (reply.code != 200 || reply.body.None?)
  {
    match reply
    case NoResponse => PollError(true)
    case Http(code, body) =>
      if code == 200 then
        (match body
         case None => PollError(false)
         case Some((st, typeKey)) => if st.Unfinished? then Pending else Terminal(st, typeKey))
      else if code == 404 then PollError(false)
      else PollError(code >= 500)
  }

  predicate Fatal(o: PollOutcome) { o == PollError(false) }

  predicate Inconclusive(o: PollOutcome) { o == PollError(true) || o.Pending? }

  /** What one poll_di_document task does next. */
  datatype Decision = Persist | Park | Again(attempt: nat, delay: nat)

  function Decide(attempt: nat, o: PollOutcome): Decision {
    match o
    case PollError(retryable) =>
      if !retryable || attempt >= MAX_ATTEMPTS - 1 then Park else Reschedule(attempt)
    case Pending =>
      if attempt >= MAX_ATTEMPTS - 1 then Park else Reschedule(attempt)
    case Terminal(_, _) => Persist
  }

  function Reschedule(attempt: nat): Decision {
    Again(attempt + 1, Delay(if attempt < 6 then attempt else 6))
  }

  // ---- a whole chain -------------------------------------------------------------------------------

  /** A finished chain: the polls made, the delays scheduled, and whether it ended by parking. */
  datatype Trace = Trace(polls: nat, delays: seq<nat>, parked: bool)

  /** The chain started at `attempt` when the k-th poll answers outcomes(k). */
  function Chain(outcomes: nat -> PollOutcome, attempt: nat): Trace
    decreases MAX_ATTEMPTS - attempt
  {
    match Decide(attempt, outcomes(attempt))
    case Persist => Trace(1, [], false)
    case Park => Trace(1, [], true)
    case Again(next, delay) =>
      var t := Chain(outcomes, next);
      Trace(t.polls + 1, [delay] + t.delays, t.parked)
  }

  function Sum(s: seq<nat>): nat { if s == [] then 0 else s[0] + Sum(s[1..]) }

  /** The first decisive poll at or after `attempt`, or the last poll allowed. */
  function LastPoll(outcomes: nat -> PollOutcome, attempt: nat): (k: nat)
    requires attempt < MAX_ATTEMPTS
    ensures attempt <= k < MAX_ATTEMPTS
    ensures forall j: nat | attempt <= j < k :: Inconclusive(outcomes(j))
    ensures Inconclusive(outcomes(k)) ==> k == MAX_ATTEMPTS - 1
    decreases MAX_ATTEMPTS - attempt
  {
    if Inconclusive(outcomes(attempt)) && attempt < MAX_ATTEMPTS - 1 then LastPoll(outcomes, attempt + 1)
    else attempt
  }

  lemma {:induction false} ChainEnds(outcomes: nat -> PollOutcome, attempt: nat)
    requires attempt < MAX_ATTEMPTS
    ensures var k := LastPoll(outcomes, attempt);
            && Chain(outcomes, attempt).polls == k - attempt + 1
            && (Chain(outcomes, attempt).parked <==> !outcomes(k).Terminal?)
    decreases MAX_ATTEMPTS - attempt
  {
    if Inconclusive(outcomes(attempt)) && attempt < MAX_ATTEMPTS - 1 {
      ChainEnds(outcomes, attempt + 1);
    }
  }

  lemma {:induction false} ChainDelays(outcomes: nat -> PollOutcome, attempt: nat)
    requires attempt < MAX_ATTEMPTS
    ensures var t := Chain(outcomes, attempt);
            && |t.delays| == t.polls - 1 <= MAX_ATTEMPTS - 1 - attempt
            && forall j | 0 <= j < |t.delays| :: t.delays[j] == Delay(attempt + j)
    decreases MAX_ATTEMPTS - attempt
  {
    if Inconclusive(outcomes(attempt)) && attempt < MAX_ATTEMPTS - 1 {
      ChainDelays(outcomes, attempt + 1);
      var rest := Chain(outcomes, attempt + 1).delays;
      assert Chain(outcomes, attempt).delays == [Delay(attempt)] + rest;
    }
  }

  /** The delay table summed from an entry on, its last entry left out. */
  function DelayLeft(attempt: nat): nat
    decreases MAX_ATTEMPTS - attempt
  {
    if attempt >= MAX_ATTEMPTS - 1 then 0 else Delay(attempt) + DelayLeft(attempt + 1)
  }

  lemma {:induction false} ChainDelay(outcomes: nat -> PollOutcome, attempt: nat)
    ensures Sum(Chain(outcomes, attempt).delays) <= DelayLeft(attempt)
    decreases MAX_ATTEMPTS - attempt
  {
    match Decide(attempt, outcomes(attempt))
    case Again(next, delay) =>
      ChainDelay(outcomes, next);
      var rest := Chain(outcomes, next).delays;
      assert ([delay] + rest)[1..] == rest;
    case _ =>
  }

  lemma DelayTotal()
    ensures DelayLeft(0) == 84
  {
    assert DelayLeft(4) == 55;
    assert DelayLeft(2) == 76;
  }

  /** The delays that are used. */
  const WAITS := [3, 5, 8, 13, 21, 34]

  /** Every chain ends, after at most 7 polls and 84 seconds of scheduled delay; its delays are the
      first entries of the table and never the last one. */
  lemma ChainIsBounded(outcomes: nat -> PollOutcome)
    ensures var t := Chain(outcomes, 0);
            && 1 <= t.polls <= MAX_ATTEMPTS && |t.delays| == t.polls - 1
            && t.delays <= WAITS && Sum(t.delays) <= 84
  {
    ChainEnds(outcomes, 0);
    ChainDelays(outcomes, 0);
    ChainDelay(outcomes, 0);
    DelayTotal();
  }

  lemma ParksFrom(outcomes: nat -> PollOutcome, first: nat, t: Trace)
    requires first == 0 && t == Chain(outcomes, first)
    ensures t.parked <==>
            || (forall j: nat | j < MAX_ATTEMPTS :: Inconclusive(outcomes(j)))
            || (exists k: nat :: k < MAX_ATTEMPTS && Fatal(outcomes(k))
                                 && forall j: nat | j < k :: Inconclusive(outcomes(j)))
  {
    ChainEnds(outcomes, first);
    var k := LastPoll(outcomes, first);
    if t.parked && !Inconclusive(outcomes(k)) { assert Fatal(outcomes(k)); }
  }

  /** A chain parks the session exactly when a fatal error comes before any terminal answer within the
      first 7 polls, or all 7 are inconclusive. */
  lemma ParksIff(outcomes: nat -> PollOutcome)
    ensures Chain(outcomes, 0).parked <==>
            || (forall j: nat | j < MAX_ATTEMPTS :: Inconclusive(outcomes(j)))
            || (exists k: nat :: k < MAX_ATTEMPTS && Fatal(outcomes(k))
                                 && forall j: nat | j < k :: Inconclusive(outcomes(j)))
  {
    ParksFrom(outcomes, 0, Chain(outcomes, 0));
  }
}
