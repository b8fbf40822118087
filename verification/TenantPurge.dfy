/** Tenant isolation of the /v1 API (docs/api.md, "Tenancy"): what another tenant does is invisible. */
module TenantPurge {
  import opened Wrappers
  import opened Rows
  import opened Api

  /** The rows of tenant b, in order. */
  function Of(db: Db, b: nat): Db {
    Db(Filter(db.contacts, ContactsOf(b)), Filter(db.routes, RoutesOf(b)), Filter(db.messages, MessagesOf(b)))
  }

  // ---- another tenant's call leaves b's rows alone, unconditionally ------------------------------------

  lemma ForeignContactCall(db: Db, t: nat, c: Call, b: nat)
    requires t != b && (c.PutContact? || c.PatchContact? || c.RevokeContact?)
    ensures Of(Answer(db, t, c).0, b) == Of(db, b)
  {
    match c
    case PutContact(phone, user, orgUnit, status, locale, newId) =>
      FilterAppend(db.contacts, Contact(newId, phone, user, t, Some(orgUnit), status, locale), ContactsOf(b));
      if First(db.contacts, ContactPhone(phone)).Some? && First(db.contacts, ContactPhone(phone)).value.tenant == t {
        UpdateOutsideFilter(db.contacts, ContactPhone(phone), Rebind(user, orgUnit, status, locale), ContactsOf(b));
      }
    case PatchContact(id, p) =>
      UpdateOutsideFilter(db.contacts, ContactKey(id, t), PatchContactWith(p), ContactsOf(b));
    case RevokeContact(id) =>
      UpdateOutsideFilter(db.contacts, ContactKey(id, t), Revoke(), ContactsOf(b));
  }

  lemma ForeignRouteCall(db: Db, t: nat, c: Call, b: nat)
    requires t != b && (c.CreateRoute? || c.PatchRoute?)
    ensures Of(Answer(db, t, c).0, b) == Of(db, b)
  {
    match c
    case CreateRoute(number, display, journey, newId) =>
      FilterAppend(db.routes, Route(newId, t, number, display, true, journey), RoutesOf(b));
    case PatchRoute(id, p) =>
      UpdateOutsideFilter(db.routes, RouteKey(id, t), PatchRouteWith(p), RoutesOf(b));
  }

  lemma ForeignMessageCall(db: Db, t: nat, c: Call, b: nat)
    requires t != b && (c.Reserve? || c.RecordSent? || c.RecordFailed?)
    ensures Of(Answer(db, t, c).0, b) == Of(db, b)
  {
    match c
    case Reserve(key, request, caller, newId, raced) =>
      var db' := Answer(db, t, c).0;
      if db' != db {
        FilterAppend(db.messages, db'.messages[|db.messages|], MessagesOf(b));
      }
    case RecordSent(id, wamid) =>
      UpdateOutsideFilter(db.messages, MessageKey(id, t), SetSent(wamid), MessagesOf(b));
    case RecordFailed(id, e) =>
      UpdateOutsideFilter(db.messages, MessageKey(id, t), SetFailed(e), MessagesOf(b));
  }

  /** No call of another tenant changes a row of b, whatever the tables hold. */
  lemma ForeignCallsKeepRows(db: Db, t: nat, c: Call, b: nat)
    requires t != b
    ensures Of(Answer(db, t, c).0, b) == Of(db, b)
  {
    if c.PutContact? || c.PatchContact? || c.RevokeContact? { ForeignContactCall(db, t, c, b); }
    else if c.CreateRoute? || c.PatchRoute? { ForeignRouteCall(db, t, c, b); }
    else if c.Reserve? || c.RecordSent? || c.RecordFailed? { ForeignMessageCall(db, t, c, b); }
  }

  // ---- b's own call sees b's rows only, exactly when no unique value it claims is taken ------------------

  /** A row the clause selects has a counterpart among p's rows. */
  predicate OwnIfAny<T(!new)>(rows: seq<T>, where: T -> bool, p: T -> bool) {
    First(rows, where).Some? ==> First(Filter(rows, p), where).Some?
  }

  predicate RouteTaken(routes: seq<Route>, number: string, id: nat) {
    First(routes, RouteNumber(number)).Some? || First(routes, RouteId(id)).Some?
  }

  /** The reservation gets as far as inserting, and the key is not there. */
  predicate Inserts(db: Db, b: nat, key: Option<string>, raced: bool) {
    && First(db.routes, ActiveOf(b)).Some? && Existing(db, b, key, raced).None?
    && (key.Some? ==> First(db.messages, Keyed(b, key.value)).None?)
  }

  /** What the call can look up before it writes: no other tenant holds the globally unique value that
      decides its branch, unless b holds it too. */
  predicate Free(db: Db, b: nat, c: Call) {
    match c
    case PutContact(phone, _, _, _, _, newId) =>
      (match First(db.contacts, ContactPhone(phone))
       case Some(held) => held.tenant == b
       case None => OwnIfAny(db.contacts, ContactId(newId), ContactsOf(b)))
    case CreateRoute(number, _, _, newId) =>
      RouteTaken(db.routes, number, newId) ==> RouteTaken(Filter(db.routes, RoutesOf(b)), number, newId)
    case Reserve(key, _, _, newId, raced) =>
      Inserts(db, b, key, raced) ==> OwnIfAny(db.messages, MessageId(newId), MessagesOf(b))
    case _ => true
  }

  /** b's call answers and acts on b's rows as it does on the whole tables. */
  ghost predicate Local(db: Db, b: nat, c: Call) {
    Answer(Of(db, b), b, c) == (Of(Answer(db, b, c).0, b), Answer(db, b, c).1)
  }

  /** b is answered the same on b's rows alone. */
  predicate SameAnswer(db: Db, b: nat, c: Call) { Answer(Of(db, b), b, c).1 == Answer(db, b, c).1 }

  lemma PutContactLocal(db: Db, b: nat, c: Call)
    requires c.PutContact?
    ensures Free(db, b, c) ==> Local(db, b, c)
    ensures SameAnswer(db, b, c) ==> Free(db, b, c)
  {
    FirstInFilter(db.contacts, ContactPhone(c.phone), ContactsOf(b));
    var added := Contact(c.newId, c.phone, c.user, b, Some(c.orgUnit), c.status, c.locale);
    FilterAppend(db.contacts, added, ContactsOf(b));
    if Owned(db.contacts, ContactPhone(c.phone), ContactsOf(b)) {
      UpdateInFilter(db.contacts, ContactPhone(c.phone), Rebind(c.user, c.orgUnit, c.status, c.locale), ContactsOf(b));
    }
    if First(Filter(db.contacts, ContactsOf(b)), ContactId(c.newId)).Some? {
      var own := First(Filter(db.contacts, ContactsOf(b)), ContactId(c.newId)).value;
      assert own in db.contacts && ContactId(c.newId)(own);
    }
  }

  lemma ContactChangeLocal(db: Db, b: nat, c: Call)
    requires c.PatchContact? || c.RevokeContact?
    ensures Local(db, b, c)
  {
    FirstInFilter(db.contacts, ContactKey(c.id, b), ContactsOf(b));
    match c
    case PatchContact(id, p) => UpdateInFilter(db.contacts, ContactKey(id, b), PatchContactWith(p), ContactsOf(b));
    case RevokeContact(id) => UpdateInFilter(db.contacts, ContactKey(id, b), Revoke(), ContactsOf(b));
  }

  /** What b's rows hold, the table holds. */
  lemma TakenInFilter(routes: seq<Route>, b: nat, number: string, id: nat)
    ensures RouteTaken(Filter(routes, RoutesOf(b)), number, id) ==> RouteTaken(routes, number, id)
  {
    var mine := Filter(routes, RoutesOf(b));
    if First(mine, RouteNumber(number)).Some? {
      assert First(mine, RouteNumber(number)).value in routes;
    }
    if First(mine, RouteId(id)).Some? {
      assert First(mine, RouteId(id)).value in routes;
    }
  }

  lemma RouteCallLocal(db: Db, b: nat, c: Call)
    requires c.CreateRoute? || c.PatchRoute?
    ensures Free(db, b, c) ==> Local(db, b, c)
    ensures SameAnswer(db, b, c) ==> Free(db, b, c)
  {
    match c
    case CreateRoute(number, display, journey, newId) =>
      TakenInFilter(db.routes, b, number, newId);
      FilterAppend(db.routes, Route(newId, b, number, display, true, journey), RoutesOf(b));
    case PatchRoute(id, p) =>
      FirstInFilter(db.routes, RouteKey(id, b), RoutesOf(b));
      UpdateInFilter(db.routes, RouteKey(id, b), PatchRouteWith(p), RoutesOf(b));
  }

  /** What a reservation reads of b's own rows it reads the same from b's rows alone. */
  lemma ReserveReads(db: Db, b: nat, key: Option<string>, newId: nat)
    ensures First(db.routes, ActiveOf(b)) == First(Of(db, b).routes, ActiveOf(b))
    ensures key.Some? ==> First(db.messages, Keyed(b, key.value)) == First(Of(db, b).messages, Keyed(b, key.value))
    ensures First(Of(db, b).messages, MessageId(newId)).Some? ==> First(db.messages, MessageId(newId)).Some?
  {
    FirstInFilter(db.routes, ActiveOf(b), RoutesOf(b));
    if key.Some? { FirstInFilter(db.messages, Keyed(b, key.value), MessagesOf(b)); }
    var mine := Filter(db.messages, MessagesOf(b));
    if First(mine, MessageId(newId)).Some? {
      assert First(mine, MessageId(newId)).value in db.messages;
    }
  }

  lemma FreeReserveIsLocal(db: Db, b: nat, c: Call)
    requires c.Reserve? && Free(db, b, c)
    ensures Local(db, b, c)
  {
    ReserveReads(db, b, c.key, c.newId);
    var db' := Answer(db, b, c).0;
    if db' != db { FilterAppend(db.messages, db'.messages[|db.messages|], MessagesOf(b)); }
  }

  lemma SameReserveIsFree(db: Db, b: nat, c: Call)
    requires c.Reserve? && SameAnswer(db, b, c)
    ensures Free(db, b, c)
  {
    ReserveReads(db, b, c.key, c.newId);
  }

  lemma ReserveLocal(db: Db, b: nat, c: Call)
    requires c.Reserve?
    ensures Free(db, b, c) ==> Local(db, b, c)
    ensures SameAnswer(db, b, c) ==> Free(db, b, c)
  {
    if Free(db, b, c) { FreeReserveIsLocal(db, b, c); }
    if SameAnswer(db, b, c) { SameReserveIsFree(db, b, c); }
  }

  /** A change of one of b's messages by id. */
  lemma RecordLocal(messages: seq<Message>, b: nat, id: nat, change: Message -> Message)
    requires forall m: Message | m.tenant == b :: change(m).tenant == b
    ensures var mine := Filter(messages, MessagesOf(b));
      && First(mine, MessageKey(id, b)) == First(messages, MessageKey(id, b))
      && Filter(UpdateFirst(messages, MessageKey(id, b), change), MessagesOf(b))
         == UpdateFirst(mine, MessageKey(id, b), change)
  {
    FirstInFilter(messages, MessageKey(id, b), MessagesOf(b));
    UpdateInFilter(messages, MessageKey(id, b), change, MessagesOf(b));
  }

  lemma ReadLocal(db: Db, b: nat, c: Call)
    requires c.ListContacts? || c.GetContact? || c.ListRoutes? || c.GetMessage?
    ensures Local(db, b, c)
  {
    match c
    case ListContacts(status, user, _, _) => FilterFilter(db.contacts, Listed(b, status, user), ContactsOf(b));
    case GetContact(id) => FirstInFilter(db.contacts, ContactKey(id, b), ContactsOf(b));
    case ListRoutes => FilterFilter(db.routes, RoutesOf(b), RoutesOf(b));
    case GetMessage(id) => FirstInFilter(db.messages, MessageKey(id, b), MessagesOf(b));
  }

  /** For any tables and any call of b: the call is local exactly when it is free, and when it is not, b
      sees it in the answer. */
  lemma LocalIffFree(db: Db, b: nat, c: Call)
    ensures Local(db, b, c) <==> Free(db, b, c)
    ensures SameAnswer(db, b, c) <==> Free(db, b, c)
  {
    if c.PutContact? { PutContactLocal(db, b, c); }
    else if c.PatchContact? || c.RevokeContact? { ContactChangeLocal(db, b, c); }
    else if c.CreateRoute? || c.PatchRoute? { RouteCallLocal(db, b, c); }
    else if c.Reserve? { ReserveLocal(db, b, c); }
    else if c.RecordSent? { RecordLocal(db.messages, b, c.id, SetSent(c.wamid)); }
    else if c.RecordFailed? { RecordLocal(db.messages, b, c.id, SetFailed(c.failure)); }
    else { ReadLocal(db, b, c); }
  }

  // ---- histories ------------------------------------------------------------------------------------------

  datatype Event = Event(tenant: nat, call: Call)

  function Final(db: Db, h: seq<Event>): Db
    decreases |h|
  {
    if h == [] then db else Final(Answer(db, h[0].tenant, h[0].call).0, h[1..])
  }

  /** What b is answered in the course of h. */
  function Answers(db: Db, h: seq<Event>, b: nat): seq<Response>
    decreases |h|
  {
    if h == [] then [] else
    var (db', r) := Answer(db, h[0].tenant, h[0].call);
    (if h[0].tenant == b then [r] else []) + Answers(db', h[1..], b)
  }

  function EventsOf(b: nat): Event -> bool { (e: Event) => e.tenant == b }

  function Purge(h: seq<Event>, b: nat): seq<Event> { Filter(h, EventsOf(b)) }

  /** Each of b's own calls is free of the tables at its moment. */
  predicate FreeAlong(db: Db, h: seq<Event>, b: nat)
    decreases |h|
  {
    h == [] || (&& (h[0].tenant == b ==> Free(db, b, h[0].call))
                && FreeAlong(Answer(db, h[0].tenant, h[0].call).0, h[1..], b))
  }

  /** Purge theorem: for any tables and any history, deleting every other tenant's calls leaves all of b's
      answers as they were exactly when each of b's calls was free at its moment; and then b's rows end the
      same too. */
  lemma {:induction false} PurgeIsInvisibleIff(db: Db, h: seq<Event>, b: nat)
    ensures Answers(db, h, b) == Answers(Of(db, b), Purge(h, b), b) <==> FreeAlong(db, h, b)
    ensures FreeAlong(db, h, b) ==> Of(Final(db, h), b) == Final(Of(db, b), Purge(h, b))
    decreases |h|
  {
    if h != [] {
      var (t, c) := (h[0].tenant, h[0].call);
      var (db', r) := Answer(db, t, c);
      PurgeIsInvisibleIff(db', h[1..], b);
      if t == b {
        LocalIffFree(db, b, c);
        var (own', q) := Answer(Of(db, b), b, c);
        assert Purge(h, b)[0] == h[0] && Purge(h, b)[1..] == Purge(h[1..], b);
        FirstAnswer(r, Answers(db', h[1..], b), q, Answers(own', Purge(h[1..], b), b));
      } else {
        ForeignCallsKeepRows(db, t, c, b);
      }
    }
  }

  lemma FirstAnswer(r: Response, x: seq<Response>, q: Response, y: seq<Response>)
    ensures [r] + x == [q] + y <==> r == q && x == y
  {
    assert ([r] + x)[0] == r && ([r] + x)[1..] == x;
    assert ([q] + y)[0] == q && ([q] + y)[1..] == y;
  }

  // ---- enough to know the calls, not the moments --------------------------------------------------------------

  /** Two calls claim the same phone number, phone_number_id or fresh id. */
  predicate Collide(x: Call, y: Call) {
    || (x.PutContact? && y.PutContact? && (x.phone == y.phone || x.newId == y.newId))
    || (x.CreateRoute? && y.CreateRoute? && (x.number == y.number || x.newId == y.newId))
    || (x.Reserve? && y.Reserve? && x.newId == y.newId)
  }

  /** The globally unique values a call of b claims are not held by another tenant's row. */
  ghost predicate Unclaimed(db: Db, b: nat, c: Call) {
    match c
    case PutContact(phone, _, _, _, _, newId) =>
      Within(db.contacts, ContactPhone(phone), ContactsOf(b)) && Within(db.contacts, ContactId(newId), ContactsOf(b))
    case CreateRoute(number, _, _, newId) =>
      Within(db.routes, RouteNumber(number), RoutesOf(b)) && Within(db.routes, RouteId(newId), RoutesOf(b))
    case Reserve(_, _, _, newId, _) => Within(db.messages, MessageId(newId), MessagesOf(b))
    case _ => true
  }

  /** b's calls collide neither with other tenants' calls anywhere in h nor with other tenants' rows. */
  ghost predicate Apart(db: Db, h: seq<Event>, b: nat) {
    && (forall k | 0 <= k < |h| && h[k].tenant == b :: Unclaimed(db, b, h[k].call))
    && (forall j, k | 0 <= j < |h| && 0 <= k < |h| && h[j].tenant != b && h[k].tenant == b ::
          !Collide(h[j].call, h[k].call))
  }

  lemma WithinIsOwned<T(!new)>(rows: seq<T>, where: T -> bool, p: T -> bool)
    requires Within(rows, where, p)
    ensures Owned(rows, where, p) && OwnIfAny(rows, where, p)
  {
    if First(rows, where).Some? {
      var i :| 0 <= i < |rows| && rows[i] == First(rows, where).value;
    }
    FirstInFilter(rows, where, p);
  }

  lemma UnclaimedIsFree(db: Db, b: nat, c: Call)
    requires Unclaimed(db, b, c)
    ensures Free(db, b, c)
  {
    match c
    case PutContact(phone, _, _, _, _, newId) =>
      WithinIsOwned(db.contacts, ContactPhone(phone), ContactsOf(b));
      WithinIsOwned(db.contacts, ContactId(newId), ContactsOf(b));
    case CreateRoute(number, _, _, newId) =>
      WithinIsOwned(db.routes, RouteNumber(number), RoutesOf(b));
      WithinIsOwned(db.routes, RouteId(newId), RoutesOf(b));
    case Reserve(_, _, _, newId, _) => WithinIsOwned(db.messages, MessageId(newId), MessagesOf(b));
    case _ =>
  }

  lemma WithinAppend<T(!new)>(rows: seq<T>, x: T, key: T -> bool, p: T -> bool)
    requires Within(rows, key, p) && (key(x) ==> p(x))
    ensures Within(rows + [x], key, p)
  {
  }

  /** A call keeps the values another call of b claims unclaimed. */
  lemma UnclaimedKept(db: Db, t: nat, x: Call, b: nat, y: Call)
    requires Unclaimed(db, b, y) && (t == b || !Collide(x, y))
    ensures Unclaimed(Answer(db, t, x).0, b, y)
  {
    match y
    case PutContact(phone, _, _, _, _, newId) =>
      UnclaimedContactKept(db, t, x, b, ContactPhone(phone));
      UnclaimedContactKept(db, t, x, b, ContactId(newId));
    case CreateRoute(number, _, _, newId) =>
      UnclaimedRouteKept(db, t, x, b, RouteNumber(number));
      UnclaimedRouteKept(db, t, x, b, RouteId(newId));
    case Reserve(_, _, _, newId, _) => UnclaimedMessageKept(db, t, x, b, newId);
    case _ =>
  }

  lemma UnclaimedContactKept(db: Db, t: nat, x: Call, b: nat, key: Contact -> bool)
    requires Within(db.contacts, key, ContactsOf(b))
    requires forall c: Contact, d: Contact | c.id == d.id && c.phone == d.phone :: key(c) == key(d)
    requires t == b || (x.PutContact? ==> forall c: Contact | c.id == x.newId && c.phone == x.phone :: !key(c))
    ensures Within(Answer(db, t, x).0.contacts, key, ContactsOf(b))
  {
    match x
    case PutContact(phone, user, orgUnit, status, locale, newId) =>
      WithinAppend(db.contacts, Contact(newId, phone, user, t, Some(orgUnit), status, locale), key, ContactsOf(b))
        by { assert key(Contact(newId, phone, user, t, Some(orgUnit), status, locale)) ==> t == b; }
      WithinUpdate(db.contacts, ContactPhone(phone), Rebind(user, orgUnit, status, locale), key, ContactsOf(b));
    case PatchContact(id, p) =>
      WithinUpdate(db.contacts, ContactKey(id, t), PatchContactWith(p), key, ContactsOf(b));
    case RevokeContact(id) =>
      WithinUpdate(db.contacts, ContactKey(id, t), Revoke(), key, ContactsOf(b));
    case _ =>
  }

  lemma UnclaimedRouteKept(db: Db, t: nat, x: Call, b: nat, key: Route -> bool)
    requires Within(db.routes, key, RoutesOf(b))
    requires forall c: Route, d: Route | c.id == d.id && c.phoneNumberId == d.phoneNumberId :: key(c) == key(d)
    requires t == b || (x.CreateRoute? ==> forall c: Route | c.id == x.newId && c.phoneNumberId == x.number :: !key(c))
    ensures Within(Answer(db, t, x).0.routes, key, RoutesOf(b))
  {
    match x
    case CreateRoute(number, display, journey, newId) =>
      WithinAppend(db.routes, Route(newId, t, number, display, true, journey), key, RoutesOf(b))
        by { assert key(Route(newId, t, number, display, true, journey)) ==> t == b; }
    case PatchRoute(id, p) =>
      WithinUpdate(db.routes, RouteKey(id, t), PatchRouteWith(p), key, RoutesOf(b));
    case _ =>
  }

  lemma UnclaimedMessageKept(db: Db, t: nat, x: Call, b: nat, newId: nat)
    requires Within(db.messages, MessageId(newId), MessagesOf(b)) && (t == b || (x.Reserve? ==> x.newId != newId))
    ensures Within(Answer(db, t, x).0.messages, MessageId(newId), MessagesOf(b))
  {
    match x
    case Reserve(_, _, _, _, _) =>
    case RecordSent(id, wamid) =>
      WithinUpdate(db.messages, MessageKey(id, t), SetSent(wamid), MessageId(newId), MessagesOf(b));
    case RecordFailed(id, e) =>
      WithinUpdate(db.messages, MessageKey(id, t), SetFailed(e), MessageId(newId), MessagesOf(b));
    case _ =>
  }

  lemma {:induction false} ApartIsFreeAlong(db: Db, h: seq<Event>, b: nat)
    requires Apart(db, h, b)
    ensures FreeAlong(db, h, b)
    decreases |h|
  {
    if h != [] {
      var (t, c) := (h[0].tenant, h[0].call);
      var db' := Answer(db, t, c).0;
      if t == b { UnclaimedIsFree(db, b, c); }
      forall k | 0 <= k < |h[1..]| && h[1..][k].tenant == b ensures Unclaimed(db', b, h[1..][k].call) {
        assert h[1..][k] == h[k + 1];
        UnclaimedKept(db, t, c, b, h[k + 1].call);
      }
      forall j, k | 0 <= j < |h[1..]| && 0 <= k < |h[1..]| && h[1..][j].tenant != b && h[1..][k].tenant == b
        ensures !Collide(h[1..][j].call, h[1..][k].call)
      {
        assert h[1..][j] == h[j + 1] && h[1..][k] == h[k + 1];
      }
      ApartIsFreeAlong(db', h[1..], b);
    }
  }

  /** Whatever the order of the calls, if numbers and ids do not collide the purge is invisible. */
  lemma PurgeIsInvisible(db: Db, h: seq<Event>, b: nat)
    requires Apart(db, h, b)
    ensures Answers(db, h, b) == Answers(Of(db, b), Purge(h, b), b)
    ensures Of(Final(db, h), b) == Final(Of(db, b), Purge(h, b))
  {
    ApartIsFreeAlong(db, h, b);
    PurgeIsInvisibleIff(db, h, b);
  }

  function Bind(phone: string, id: nat): Call { PutContact(phone, 1, 1, Active, En, id) }

  /** Who binds a phone first decides: if another tenant does, b's later binding is turned away and the purge
      shows; if b does, the other tenant's attempt does not show, though the calls collide. */
  lemma FirstBindingDecides(a: nat, b: nat, phone: string, x: nat, y: nat)
    requires a != b && x != y
    ensures var db := Db([], [], []);
            var (lost, kept) := ([Event(a, Bind(phone, x)), Event(b, Bind(phone, y))],
                                 [Event(b, Bind(phone, y)), Event(a, Bind(phone, x))]);
            && !FreeAlong(db, lost, b) && Answers(db, lost, b) != Answers(Of(db, b), Purge(lost, b), b)
            && FreeAlong(db, kept, b) && !Apart(db, kept, b)
             && Answers(db, kept, b) == Answers(Of(db, b), Purge(kept, b), b)
  {
    var db := Db([], [], []);
    var (e0, e1) := (Event(a, Bind(phone, x)), Event(b, Bind(phone, y)));
    var (lost, kept) := ([e0, e1], [e1, e0]);
    var (db0, db1) := (Answer(db, a, e0.call).0, Answer(db, b, e1.call).0);
    assert db0.contacts == [] + [Contact(x, phone, 1, a, Some(1), Active, En)];
    assert ContactPhone(phone)(db0.contacts[0]);
    assert First(db0.contacts, ContactPhone(phone)) == Some(db0.contacts[0]);
    assert lost[1..] == [e1] && kept[1..] == [e0];
    assert !FreeAlong(db0, [e1], b);
    assert [e0][1..] == [] && FreeAlong(db1, [e0], b);
    assert Collide(kept[1].call, kept[0].call);
    PurgeIsInvisibleIff(db, lost, b);
    PurgeIsInvisibleIff(db, kept, b);
  }

  /** What b is answered when the purge shows. */
  lemma CollisionIsVisible(a: nat, b: nat, phone: string, x: nat, y: nat)
    requires a != b && x != y
    ensures var db := Db([], [], []);
            var h := [Event(a, Bind(phone, x)), Event(b, Bind(phone, y))];
            && Answers(db, h, b) == [Error(409, "PHONE_BOUND_TO_OTHER_TENANT")]
            && Answers(db, Purge(h, b), b) == [OneContact(Contact(y, phone, 1, b, Some(1), Active, En))]
  {
    var db := Db([], [], []);
    var h0, h1 := Event(a, Bind(phone, x)), Event(b, Bind(phone, y));
    var h := [h0, h1];
    assert h[1..] == [h1] && [h1][1..] == [];
    assert Filter([], EventsOf(b)) == [];
    assert Filter([h1], EventsOf(b)) == [h1];
    assert Purge(h, b) == [h1];
    var db1 := Answer(db, a, h0.call).0;
    assert db1.contacts == [Contact(x, phone, 1, a, Some(1), Active, En)];
    assert First(db1.contacts, ContactPhone(phone)) == Some(db1.contacts[0]);
    var r := Answer(db1, b, h1.call).1;
    assert r == Error(409, "PHONE_BOUND_TO_OTHER_TENANT");
    assert Answers(db1, [h1], b) == [r] + [];
    assert Answers(db, h, b) == [] + Answers(db1, [h1], b);
    var c := OneContact(Contact(y, phone, 1, b, Some(1), Active, En));
    assert Answer(db, b, h1.call).1 == c;
    assert Answers(db, [h1], b) == [c] + [];
  }
}
