/** deal/builder.py: doc.deal and doc.review_task.  Deal ids are positions in the table; dates are days;
    the trigram similarity is any function into the reals. */
module Deals {
  import opened Wrappers
  import opened Rows
  import opened Checklist

  datatype DealState = Provisional | Confirmed | Delivered | Closed | CancelledDeal

  datatype Deal = Deal(
    tenant: nat, orgUnit: nat, number: string, customer: Option<string>, model: Option<string>,
    bookingDate: Option<int>, dealType: DealType, state: DealState, createdBy: Option<nat>, confirmedBy: Option<nat>)

  datatype Reason = AmbiguousDeal | OtherReason(text: string)

  datatype Review = Review(tenant: nat, deal: nat, reason: Reason, session: nat)

  datatype Query = Query(tenant: nat, number: string, customer: Option<string>, model: Option<string>,
                         date: Option<int>)

  datatype Match = NoMatch | Exact(id: nat) | Fuzzy(id: nat)

  type Similarity = (string, string) -> real

  const THRESHOLD: real := 0.6
  const WINDOW_DAYS := 3
  const TRGM_LIMIT: real := 0.3   // what the % operator of pg_trgm asks by default

  // ---- find ---------------------------------------------------------------------------------------

  function Booked(tenant: nat, number: string): Deal -> bool { (d: Deal) => d.tenant == tenant && d.number == number }

  predicate EnoughSignal(q: Query) { q.customer.Some? && q.customer.value != "" && q.model.Some? }

  /** Same tenant, same model, booked within three days when the query has a date. */
  predicate Comparable(d: Deal, q: Query) {
    && d.tenant == q.tenant && q.model.Some? && d.model == q.model && d.customer.Some? && q.customer.Some?
    && (q.date.None? || (&& d.bookingDate.Some?
                         && q.date.value - WINDOW_DAYS <= d.bookingDate.value <= q.date.value + WINDOW_DAYS))
  }

  function Score(sim: Similarity, d: Deal, q: Query): real
    requires Comparable(d, q)
  {
    sim(d.customer.value, q.customer.value)
  }

  predicate Candidate(sim: Similarity, d: Deal, q: Query) { Comparable(d, q) && Score(sim, d, q) >= TRGM_LIMIT }

  /** What the two queries of find_existing_deal may return: ORDER BY sim DESC leaves ties open. */
  ghost predicate FindSpec(deals: seq<Deal>, sim: Similarity, q: Query, r: Match) {
    var k := IndexOf(deals, Booked(q.tenant, q.number));
    if k < |deals| then r == Exact(k)
    else if !EnoughSignal(q) then r == NoMatch
    else
      match r
      case Exact(_) => false
      case Fuzzy(id) =>
        && id < |deals| && Candidate(sim, deals[id], q) && Score(sim, deals[id], q) >= THRESHOLD
        && (forall i | 0 <= i < |deals| && Candidate(sim, deals[i], q) ::
            Score(sim, deals[i], q) <= Score(sim, deals[id], q))
      case NoMatch =>
        forall i | 0 <= i < |deals| && Candidate(sim, deals[i], q) :: Score(sim, deals[i], q) < THRESHOLD
  }

  /** Deal d may be the one asked for: same tenant and model, both with a customer, booked within three days. */
  predicate Alike(d: Deal, q: Query) {
    && d.tenant == q.tenant && q.model.Some? && d.model == q.model && d.customer.Some? && q.customer.Some?
    && (q.date.Some? ==> d.bookingDate.Some? && q.date.value - 3 <= d.bookingDate.value <= q.date.value + 3)
  }

  /** Deal k is the tenant's first with this booking number. */
  ghost predicate NumberAt(deals: seq<Deal>, tenant: nat, number: string, k: nat) {
    && k < |deals| && deals[k].tenant == tenant && deals[k].number == number
    && forall j | 0 <= j < k :: !(deals[j].tenant == tenant && deals[j].number == number)
  }

  /** What a lookup may find, in numbers: the deal with the booking number; else, given a customer and a model,
      an alike deal of greatest similarity, which is at least 0.6; else nothing. */
  ghost predicate MatchMeans(deals: seq<Deal>, sim: Similarity, q: Query, r: Match) {
    if exists k: nat :: NumberAt(deals, q.tenant, q.number, k) then
      r.Exact? && NumberAt(deals, q.tenant, q.number, r.id)
    else
      match r
      case Exact(_) => false
      case Fuzzy(id) =>
        && q.customer != Some("") && id < |deals| && Alike(deals[id], q)
        && sim(deals[id].customer.value, q.customer.value) >= 0.6
        && forall i | 0 <= i < |deals| && Alike(deals[i], q) ::
             sim(deals[i].customer.value, q.customer.value) <= sim(deals[id].customer.value, q.customer.value)
      case NoMatch =>
        || q.customer == None || q.customer == Some("") || q.model == None
        || forall i | 0 <= i < |deals| && Alike(deals[i], q) :: sim(deals[i].customer.value, q.customer.value) < 0.6
  }

  /** The two queries of find_existing_deal return exactly that: what the % operator leaves out is not missed. */
  lemma FindMeans(deals: seq<Deal>, sim: Similarity, q: Query, r: Match)
    ensures FindSpec(deals, sim, q, r) <==> MatchMeans(deals, sim, q, r)
  {
    NumberFound(deals, q.tenant, q.number);
    forall i | 0 <= i < |deals|
      ensures Alike(deals[i], q) <==> Comparable(deals[i], q)
      ensures Comparable(deals[i], q) ==> (Candidate(sim, deals[i], q) <==> Score(sim, deals[i], q) >= 0.3)
    {}
  }

  lemma NumberFound(deals: seq<Deal>, tenant: nat, number: string)
    ensures var k := IndexOf(deals, Booked(tenant, number));
      if k < |deals| then forall i: nat :: NumberAt(deals, tenant, number, i) <==> i == k
      else forall i: nat :: !NumberAt(deals, tenant, number, i)
    ensures IndexOf(deals, Booked(tenant, number)) < |deals| <==> exists i: nat :: NumberAt(deals, tenant, number, i)
  {
    var k := IndexOf(deals, Booked(tenant, number));
    forall j | 0 <= j < k ensures !(deals[j].tenant == tenant && deals[j].number == number) {
      assert !Booked(tenant, number)(deals[j]);
    }
    if k < |deals| { assert NumberAt(deals, tenant, number, k); }
  }

  // ---- create, confirm, review --------------------------------------------------------------------

  /** INSERT ... ON CONFLICT (tenant_id, booking_number) DO NOTHING, and the id of the row with that number. */
  function CreateSpec(deals: seq<Deal>, d: Deal): (seq<Deal>, nat) {
    var k := IndexOf(deals, Booked(d.tenant, d.number));
    (if k < |deals| then deals else deals + [d], k)
  }

  function ConfirmSpec(deals: seq<Deal>, tenant: nat, id: nat, confirmedBy: nat): (r: seq<Deal>)
    ensures |r| == |deals|
  {
    if id < |deals| && deals[id].tenant == tenant && deals[id].state == Provisional
    then deals[id := deals[id].(state := Confirmed, confirmedBy := Some(confirmedBy))]
    else deals
  }

  function SameTask(r: Review): Review -> bool { (x: Review) => x.deal == r.deal && x.reason == r.reason }

  /** The unique index on (deal_id, reason) with ON CONFLICT DO NOTHING. */
  function ReviewSpec(reviews: seq<Review>, r: Review): seq<Review> {
    if IndexOf(reviews, SameTask(r)) < |reviews| then reviews else reviews + [r]
  }

  // ---- one flushed session against the deal table ---------------------------------------------------

  datatype Book = Book(deals: seq<Deal>, reviews: seq<Review>)

  /** What a flushed session brings. */
  datatype Booking = Booking(
    session: nat, contact: nat, orgUnit: nat, query: Query, dealType: DealType)

  function Fresh(b: Booking, pendingName: string): Deal {
    Deal(b.query.tenant, b.orgUnit, b.query.number,
         Some(if b.query.customer.Some? && b.query.customer.value != "" then b.query.customer.value else pendingName),
         b.query.model, b.query.date, b.dealType, Provisional, Some(b.contact), None)
  }

  /** The three branches of process_session, as far as deals and reviews go. */
  function Settle(book: Book, b: Booking, pendingName: string, m: Match): Book {
    match m
    case NoMatch => book.(deals := CreateSpec(book.deals, Fresh(b, pendingName)).0)
    case Fuzzy(id) => book.(reviews := ReviewSpec(book.reviews, Review(b.query.tenant, id, AmbiguousDeal, b.session)))
    case Exact(id) => book.(deals := ConfirmSpec(book.deals, b.query.tenant, id, b.contact))
  }

  ghost predicate UniqueNumbers(deals: seq<Deal>) {
    forall i, j | 0 <= i < j < |deals| && deals[i].tenant == deals[j].tenant :: deals[i].number != deals[j].number
  }

  ghost predicate UniqueReviews(reviews: seq<Review>) {
    forall i, j | 0 <= i < j < |reviews| && reviews[i].deal == reviews[j].deal :: reviews[i].reason != reviews[j].reason
  }

  ghost predicate BookOk(b: Book) { UniqueNumbers(b.deals) && UniqueReviews(b.reviews) }

  /** A deal stays what it is; it is confirmed only from provisional. */
  ghost predicate DealKept(d: Deal, d': Deal) {
    || d' == d
    || (d.state == Provisional && d'.state == Confirmed && d' == d.(state := Confirmed, confirmedBy := d'.confirmedBy))
  }

  ghost predicate DealsGrow(ds: seq<Deal>, ds': seq<Deal>) {
    |ds| <= |ds'| && forall i | 0 <= i < |ds| :: DealKept(ds[i], ds'[i])
  }

  /** One flushed session, whose lookup saw the deals of now or of any moment before, other sessions having
      settled in between: one deal per booking number and one review per (deal, reason) stay so; a fuzzy hit
      leaves every deal as it is; only an exact hit confirms, and only the deal it hit, which still has the
      session's number; a miss adds one provisional deal under that number exactly when it is still free, and
      otherwise one of the others took it since the lookup. */
  lemma SettleStep(seen: seq<Deal>, book: Book, b: Booking, pendingName: string, sim: Similarity, m: Match)
    requires BookOk(book) && DealsGrow(seen, book.deals) && FindSpec(seen, sim, b.query, m)
    ensures var book' := Settle(book, b, pendingName, m);
      && BookOk(book') && DealsGrow(book.deals, book'.deals)
      && (m.Fuzzy? ==> book'.deals == book.deals)
      && (!m.Fuzzy? ==> book'.reviews == book.reviews)
      && (forall i | 0 <= i < |book.deals| && book'.deals[i] != book.deals[i] :: m == Exact(i))
      && (m.Exact? ==> m.id < |book.deals| && Booked(b.query.tenant, b.query.number)(book.deals[m.id]))
      && (|book'.deals| > |book.deals| <==> m.NoMatch? && !NumberTaken(book.deals, b.query))
      && (|book'.deals| > |book.deals| ==> book'.deals == book.deals + [Fresh(b, pendingName)])
      && (m.NoMatch? && NumberTaken(book.deals, b.query) ==> |book.deals| > |seen| && book'.deals == book.deals)
  {
    match m
    case NoMatch => MissSettles(seen, book, b, pendingName, sim);
    case Fuzzy(id) => ReviewKeepsUnique(book.reviews, Review(b.query.tenant, id, AmbiguousDeal, b.session));
    case Exact(id) => assert DealKept(seen[id], book.deals[id]);
  }

  /** Some deal has the booking number asked for. */
  ghost predicate NumberTaken(deals: seq<Deal>, q: Query) {
    exists i :: 0 <= i < |deals| && Booked(q.tenant, q.number)(deals[i])
  }

  lemma MissSettles(seen: seq<Deal>, book: Book, b: Booking, pendingName: string, sim: Similarity)
    requires BookOk(book) && DealsGrow(seen, book.deals) && FindSpec(seen, sim, b.query, NoMatch)
    ensures var book' := Settle(book, b, pendingName, NoMatch);
      && BookOk(book') && DealsGrow(book.deals, book'.deals)
      && (if NumberTaken(book.deals, b.query) then |book.deals| > |seen| && book' == book
          else book' == book.(deals := book.deals + [Fresh(b, pendingName)]))
  {
    var k := IndexOf(book.deals, Booked(b.query.tenant, b.query.number));
    forall i | 0 <= i < |seen| ensures !Booked(b.query.tenant, b.query.number)(book.deals[i]) {
      assert DealKept(seen[i], book.deals[i]) && !Booked(b.query.tenant, b.query.number)(seen[i]);
    }
    if k == |book.deals| {
      forall i | 0 <= i < |book.deals| && book.deals[i].tenant == b.query.tenant
        ensures book.deals[i].number != b.query.number
      {
        assert !Booked(b.query.tenant, b.query.number)(book.deals[i]);
      }
    }
  }

  lemma ReviewKeepsUnique(reviews: seq<Review>, r: Review)
    requires UniqueReviews(reviews)
    ensures UniqueReviews(ReviewSpec(reviews, r))
  {
    if IndexOf(reviews, SameTask(r)) == |reviews| {
      forall i | 0 <= i < |reviews| && reviews[i].deal == r.deal ensures reviews[i].reason != r.reason {
        assert !SameTask(r)(reviews[i]);
      }
    }
  }

  /** Even if the lookup was stale, because another session inserted the number in between, there is one deal
      per booking number: the conflict leaves the table alone and hands out the deal that is there. */
  lemma StaleLookupKeepsBook(book: Book, b: Booking, pendingName: string)
    requires BookOk(book)
    ensures var book' := Settle(book, b, pendingName, NoMatch);
      var (ds, d) := CreateSpec(book.deals, Fresh(b, pendingName));
      && BookOk(book') && DealsGrow(book.deals, book'.deals) && book'.reviews == book.reviews
      && d < |ds| && Booked(b.query.tenant, b.query.number)(ds[d])
      && (ds == book.deals
          <==> exists i :: 0 <= i < |book.deals| && Booked(b.query.tenant, b.query.number)(book.deals[i]))
  {
    var k := IndexOf(book.deals, Booked(b.query.tenant, b.query.number));
    if k == |book.deals| {
      forall i | 0 <= i < |book.deals| && book.deals[i].tenant == b.query.tenant
        ensures book.deals[i].number != b.query.number
      {
        assert !Booked(b.query.tenant, b.query.number)(book.deals[i]);
      }
    }
  }

  /** books[k + 1] is books[k] after flushed session k found hits[k] in books[looks[k]]: any number of other
      sessions may have settled between its lookup and its insert. */
  ghost predicate BookRun(books: seq<Book>, flushed: seq<Booking>, looks: seq<nat>, hits: seq<Match>,
                          pendingName: string, sim: Similarity) {
    && |books| == |flushed| + 1 && |hits| == |looks| == |flushed|
    && (forall k | 0 <= k < |flushed| :: looks[k] <= k)
    && (forall k | 0 <= k < |flushed| :: FindSpec(books[looks[k]].deals, sim, flushed[k].query, hits[k]))
    && (forall k | 0 <= k < |flushed| :: books[k + 1] == Settle(books[k], flushed[k], pendingName, hits[k]))
  }

  /** Over any sequence of flushed sessions, racing or not: one deal per (tenant, booking number), one review per
      (deal, reason), and no deal ever lost or changed but by confirmation. */
  lemma {:induction false} DealTable(books: seq<Book>, flushed: seq<Booking>, looks: seq<nat>, hits: seq<Match>,
                                     pendingName: string, sim: Similarity, l: nat, n: nat)
    requires BookRun(books, flushed, looks, hits, pendingName, sim) && BookOk(books[0]) && l <= n <= |flushed|
    ensures BookOk(books[n]) && DealsGrow(books[l].deals, books[n].deals)
    decreases n
  {
    if n > 0 {
      var m := n - 1;
      DealTable(books, flushed, looks, hits, pendingName, sim, looks[m], m);
      SettleStep(books[looks[m]].deals, books[m], flushed[m], pendingName, sim, hits[m]);
      if l < n {
        DealTable(books, flushed, looks, hits, pendingName, sim, l, m);
        DealsGrowTrans(books[l].deals, books[m].deals, books[n].deals);
      }
    }
  }

  lemma DealsGrowTrans(x: seq<Deal>, y: seq<Deal>, z: seq<Deal>)
    requires DealsGrow(x, y) && DealsGrow(y, z)
    ensures DealsGrow(x, z)
  {
    forall i | 0 <= i < |x| ensures DealKept(x[i], z[i]) { assert DealKept(x[i], y[i]) && DealKept(y[i], z[i]); }
  }

  /** ... and a deal that became confirmed was hit exactly by one of the sessions in between. */
  lemma {:induction false} ConfirmedByExactHit(books: seq<Book>, flushed: seq<Booking>, looks: seq<nat>,
                                               hits: seq<Match>, pendingName: string, sim: Similarity, n: nat, d: nat)
    requires BookRun(books, flushed, looks, hits, pendingName, sim) && BookOk(books[0]) && n <= |flushed|
    requires d < |books[n].deals| && books[n].deals[d].state == Confirmed
    requires d < |books[0].deals| ==> books[0].deals[d].state != Confirmed
    ensures exists k :: 0 <= k < n && hits[k] == Exact(d)
  {
    if n > 0 {
      var m := n - 1;
      DealTable(books, flushed, looks, hits, pendingName, sim, looks[m], m);
      ConfirmStep(books[looks[m]].deals, books[m], flushed[m], pendingName, sim, hits[m], d);
      if hits[m] != Exact(d) { ConfirmedByExactHit(books, flushed, looks, hits, pendingName, sim, m, d); }
    }
  }

  lemma ConfirmStep(seen: seq<Deal>, book: Book, b: Booking, pendingName: string, sim: Similarity, m: Match, d: nat)
    requires BookOk(book) && DealsGrow(seen, book.deals) && FindSpec(seen, sim, b.query, m)
    requires d < |Settle(book, b, pendingName, m).deals| && Settle(book, b, pendingName, m).deals[d].state == Confirmed
    ensures m == Exact(d) || (d < |book.deals| && book.deals[d].state == Confirmed)
  {
    SettleStep(seen, book, b, pendingName, sim, m);
  }

  // ---- the tables -----------------------------------------------------------------------------------

  class Table {
    var deals: seq<Deal>
    var reviews: seq<Review>

    constructor ()
      ensures deals == [] && reviews == []
    {
      deals, reviews := [], [];
    }

    /** The most similar candidate, as ORDER BY sim DESC LIMIT 1 gives it. */
    method MostSimilar(sim: Similarity, q: Query) returns (best: Option<nat>)
      ensures best.None? ==> forall i | 0 <= i < |deals| :: !Candidate(sim, deals[i], q)
      ensures best.Some? ==>
        && best.value < |deals| && Candidate(sim, deals[best.value], q)
        && forall i | 0 <= i < |deals| && Candidate(sim, deals[i], q) ::
             Score(sim, deals[i], q) <= Score(sim, deals[best.value], q)
    {
      best := None;
      var i := 0;
      while i < |deals|
        invariant i <= |deals|
        invariant best.None? ==> forall j | 0 <= j < i :: !Candidate(sim, deals[j], q)
        invariant best.Some? ==>
          && best.value < |deals| && Candidate(sim, deals[best.value], q)
          && forall j | 0 <= j < i && Candidate(sim, deals[j], q) ::
               Score(sim, deals[j], q) <= Score(sim, deals[best.value], q)
      {
        if Candidate(sim, deals[i], q)
           && (best.None? || Score(sim, deals[i], q) > Score(sim, deals[best.value], q)) {
          best := Some(i);
        }
        i := i + 1;
      }
    }

    method FindExistingDeal(sim: Similarity, q: Query) returns (r: Match)
      ensures FindSpec(deals, sim, q, r)
    {
      var k := Find(deals, Booked(q.tenant, q.number));
      if k < |deals| { return Exact(k); }
      if !EnoughSignal(q) { return NoMatch; }
      var best := MostSimilar(sim, q);
      if best.None? || Score(sim, deals[best.value], q) < THRESHOLD { return NoMatch; }
      r := Fuzzy(best.value);
    }

    method CreateProvisionalDeal(d: Deal) returns (id: nat)
      modifies this`deals
      ensures (deals, id) == CreateSpec(old(deals), d)
      ensures NumberAt(deals, d.tenant, d.number, id)
      ensures if exists k: nat :: NumberAt(old(deals), d.tenant, d.number, k) then deals == old(deals)
              else deals == old(deals) + [d]
    {
      NumberFound(deals, d.tenant, d.number);
      id := Find(deals, Booked(d.tenant, d.number));
      if id == |deals| { deals := deals + [d]; }
    }

    method ConfirmDeal(tenant: nat, id: nat, confirmedBy: nat)
      modifies this`deals
      ensures deals == ConfirmSpec(old(deals), tenant, id, confirmedBy)
      ensures if id < |old(deals)| && old(deals)[id].tenant == tenant && old(deals)[id].state == Provisional then
                deals == old(deals)[id := old(deals)[id].(state := Confirmed, confirmedBy := Some(confirmedBy))]
              else deals == old(deals)
    {
      if id < |deals| && deals[id].tenant == tenant && deals[id].state == Provisional {
        deals := deals[id := deals[id].(state := Confirmed, confirmedBy := Some(confirmedBy))];
      }
    }

    method RaiseAmbiguousReview(r: Review)
      modifies this`reviews
      ensures reviews == ReviewSpec(old(reviews), r)
      ensures if exists k ::
                0 <= k < |old(reviews)| && old(reviews)[k].deal == r.deal && old(reviews)[k].reason == r.reason
              then reviews == old(reviews) else reviews == old(reviews) + [r]
    {
      var k := Find(reviews, SameTask(r));
      forall j | 0 <= j < k ensures !(reviews[j].deal == r.deal && reviews[j].reason == r.reason) {
        assert !SameTask(r)(reviews[j]);
      }
      if k == |reviews| { reviews := reviews + [r]; }
    }
  }
}
