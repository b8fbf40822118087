/** api/routes.py: the tables behind /v1, each endpoint as a function of them, and the class whose
    methods are the endpoints.

    Ids (gen_random_uuid) come with the call.  A table is in creation order, so ORDER BY created_at is
    its own order.  Row-level security is the tenant in every WHERE clause on messages. */
module Api {
  import opened Wrappers
  import opened Rows

  datatype ContactStatus = PendingContact | Active | Suspended | Revoked

  datatype Locale = En | Hi | Pa

  datatype Contact = Contact(
    id: nat, phone: string, user: nat, tenant: nat, orgUnit: Option<nat>, status: ContactStatus, locale: Locale)

  datatype Route = Route(
    id: nat, tenant: nat, phoneNumberId: string, display: string, active: bool, journey: Option<nat>)

  datatype MessageKind = TextMessage | TemplateMessage | ButtonsMessage

  /** The request body; stored whole as the payload. */
  datatype Request = Request(to: string, kind: MessageKind, content: string)

  datatype MessageState = Pending | Sent | Failed

  datatype Failure = Failure(code: string, message: string, retryable: bool)

  datatype Message = Message(
    id: nat, tenant: nat, route: nat, payload: Request, key: Option<string>, caller: string,
    state: MessageState, wamid: Option<string>, error: Option<Failure>)

  datatype Db = Db(contacts: seq<Contact>, routes: seq<Route>, messages: seq<Message>)

  datatype ContactPatch = ContactPatch(
    status: Option<ContactStatus>, locale: Option<Locale>, orgUnit: Option<nat>)

  datatype RoutePatch = RoutePatch(active: Option<bool>, display: Option<string>, journey: Option<nat>)

  datatype Response =
    | OneContact(contact: Contact)
    | Contacts(contacts: seq<Contact>)
    | OneRoute(route: Route)
    | Routes(routes: seq<Route>)
    | OneMessage(code: nat, message: Message)
    | Reserved(id: nat, phoneNumberId: string)   // no answer yet: the caller goes on to Meta
    | NoContent
    | Error(code: nat, detail: string)

  // ---- WHERE clauses and SET lists ----------------------------------------------------------------

  function ContactPhone(phone: string): Contact -> bool { (c: Contact) => c.phone == phone }
  function ContactKey(id: nat, t: nat): Contact -> bool { (c: Contact) => c.id == id && c.tenant == t }
  function ContactId(id: nat): Contact -> bool { (c: Contact) => c.id == id }
  function ContactsOf(t: nat): Contact -> bool { (c: Contact) => c.tenant == t }
  function Listed(t: nat, status: Option<ContactStatus>, user: Option<nat>): Contact -> bool {
    (c: Contact) => c.tenant == t && (status.None? || c.status == status.value) && (user.None? || c.user == user.value)
  }
  function Rebind(user: nat, orgUnit: nat, status: ContactStatus, locale: Locale): Contact -> Contact {
    (c: Contact) => c.(user := user, orgUnit := Some(orgUnit), status := status, locale := locale)
  }
  function PatchContactWith(p: ContactPatch): Contact -> Contact {
    (c: Contact) => c.(status := Or(p.status, c.status), locale := Or(p.locale, c.locale),
             orgUnit := if p.orgUnit.Some? then p.orgUnit else c.orgUnit)
  }
  function Revoke(): Contact -> Contact { (c: Contact) => c.(status := Revoked) }

  function RouteNumber(n: string): Route -> bool { (r: Route) => r.phoneNumberId == n }
  function RouteKey(id: nat, t: nat): Route -> bool { (r: Route) => r.id == id && r.tenant == t }
  function RouteId(id: nat): Route -> bool { (r: Route) => r.id == id }
  function RoutesOf(t: nat): Route -> bool { (r: Route) => r.tenant == t }
  function ActiveOf(t: nat): Route -> bool { (r: Route) => r.tenant == t && r.active }
  function PatchRouteWith(p: RoutePatch): Route -> Route {
    (r: Route) => r.(active := Or(p.active, r.active), display := Or(p.display, r.display),
             journey := if p.journey.Some? then p.journey else r.journey)
  }

  function MessageId(id: nat): Message -> bool { (m: Message) => m.id == id }
  function MessageKey(id: nat, t: nat): Message -> bool { (m: Message) => m.id == id && m.tenant == t }
  function MessagesOf(t: nat): Message -> bool { (m: Message) => m.tenant == t }
  function Keyed(t: nat, key: string): Message -> bool { (m: Message) => m.tenant == t && m.key == Some(key) }
  function SetSent(wamid: string): Message -> Message {
    (m: Message) => m.(state := Sent, wamid := Some(wamid), error := None)
  }
  function SetFailed(e: Failure): Message -> Message { (m: Message) => m.(state := Failed, error := Some(e)) }

  function Or<T>(o: Option<T>, default: T): T { match o case Some(v) => v case None => default }

  function Page<T>(rows: seq<T>, limit: nat, offset: nat): seq<T> {
    var rest := if offset < |rows| then rows[offset..] else [];
    if limit < |rest| then rest[..limit] else rest
  }

  // ---- endpoints as functions -----------------------------------------------------------------------

  function PutContactSpec(db: Db, t: nat, phone: string, user: nat, orgUnit: nat, status: ContactStatus,
                          locale: Locale, newId: nat): (Db, Response)
  {
    match First(db.contacts, ContactPhone(phone))
    case None =>
      if First(db.contacts, ContactId(newId)).Some? then (db, Error(500, "DUPLICATE_ID")) else
      var c := Contact(newId, phone, user, t, Some(orgUnit), status, locale);
      (db.(contacts := db.contacts + [c]), OneContact(c))
    case Some(c) =>
      if c.tenant != t then (db, Error(409, "PHONE_BOUND_TO_OTHER_TENANT")) else
      var change := Rebind(user, orgUnit, status, locale);
      (db.(contacts := UpdateFirst(db.contacts, ContactPhone(phone), change)), OneContact(change(c)))
  }

  function ListContactsSpec(db: Db, t: nat, status: Option<ContactStatus>, user: Option<nat>,
                            limit: nat, offset: nat): Response
  {
    Contacts(Page(Filter(db.contacts, Listed(t, status, user)), limit, offset))
  }

  function GetContactSpec(db: Db, t: nat, id: nat): Response {
    match First(db.contacts, ContactKey(id, t))
    case None => Error(404, "CONTACT_NOT_FOUND")
    case Some(c) => OneContact(c)
  }

  function PatchContactSpec(db: Db, t: nat, id: nat, p: ContactPatch): (Db, Response) {
    if p == ContactPatch(None, None, None) then (db, Error(422, "NO_FIELDS_TO_UPDATE")) else
    match First(db.contacts, ContactKey(id, t))
    case None => (db, Error(404, "CONTACT_NOT_FOUND"))
    case Some(c) =>
      (db.(contacts := UpdateFirst(db.contacts, ContactKey(id, t), PatchContactWith(p))),
       OneContact(PatchContactWith(p)(c)))
  }

  function RevokeContactSpec(db: Db, t: nat, id: nat): (Db, Response) {
    if First(db.contacts, ContactKey(id, t)).None? then (db, Error(404, "CONTACT_NOT_FOUND"))
    else (db.(contacts := UpdateFirst(db.contacts, ContactKey(id, t), Revoke())), NoContent)
  }

  function CreateRouteSpec(db: Db, t: nat, number: string, display: string, journey: Option<nat>, newId: nat)
    : (Db, Response)
  {
    if First(db.routes, RouteNumber(number)).Some? || First(db.routes, RouteId(newId)).Some? then
      (db, Error(409, "PHONE_NUMBER_ID_ALREADY_REGISTERED"))
    else
      var r := Route(newId, t, number, display, true, journey);
      (db.(routes := db.routes + [r]), OneRoute(r))
  }

  function ListRoutesSpec(db: Db, t: nat): Response { Response.Routes(Filter(db.routes, RoutesOf(t))) }

  function PatchRouteSpec(db: Db, t: nat, id: nat, p: RoutePatch): (Db, Response) {
    if p == RoutePatch(None, None, None) then (db, Error(422, "NO_FIELDS_TO_UPDATE")) else
    match First(db.routes, RouteKey(id, t))
    case None => (db, Error(404, "ROUTE_NOT_FOUND"))
    case Some(r) =>
      (db.(routes := UpdateFirst(db.routes, RouteKey(id, t), PatchRouteWith(p))), OneRoute(PatchRouteWith(p)(r)))
  }

  function GetMessageSpec(db: Db, t: nat, id: nat): Response {
    match First(db.messages, MessageKey(id, t))
    case None => Error(404, "MESSAGE_NOT_FOUND")
    case Some(m) => OneMessage(200, m)
  }

  /** The row already holding the idempotency key, as far as the caller looks: an empty key is not
      looked up, and a reservation racing with this one is not seen. */
  function Existing(db: Db, t: nat, key: Option<string>, raced: bool): Option<Message> {
    if key.None? || key.value == "" || raced then None else First(db.messages, Keyed(t, key.value))
  }

  /** send_message up to the Meta call: the reservation and the verdict on the row it finds. */
  function ReserveSpec(db: Db, t: nat, key: Option<string>, request: Request, caller: string, newId: nat, raced: bool)
    : (Db, Response)
  {
    match First(db.routes, ActiveOf(t))
    case None => (db, Error(409, "NO_ACTIVE_ROUTE"))
    case Some(route) =>
      match Existing(db, t, key, raced)
      case Some(m) =>
        (db, if m.payload != request then Error(422, "IDEMPOTENCY_KEY_REUSED")
             else match m.state
                  case Sent => OneMessage(200, m)
                  case Pending => Error(409, "IDEMPOTENCY_KEY_IN_FLIGHT")
                  case Failed => Reserved(m.id, route.phoneNumberId))
      case None =>
        if First(db.messages, MessageId(newId)).Some?
           || (key.Some? && First(db.messages, Keyed(t, key.value)).Some?) then
          (db, Error(409, "IDEMPOTENCY_KEY_IN_FLIGHT"))
        else
          (db.(messages := db.messages + [Message(newId, t, route.id, request, key, caller, Pending, None, None)]),
           Reserved(newId, route.phoneNumberId))
  }

  function RecordSentSpec(db: Db, t: nat, id: nat, wamid: string): (Db, Response) {
    match First(db.messages, MessageKey(id, t))
    case None => (db, Error(500, "NO_ROW"))
    case Some(m) =>
      (db.(messages := UpdateFirst(db.messages, MessageKey(id, t), SetSent(wamid))),
       OneMessage(201, SetSent(wamid)(m)))
  }

  function RecordFailedSpec(db: Db, t: nat, id: nat, e: Failure): (Db, Response) {
    (db.(messages := UpdateFirst(db.messages, MessageKey(id, t), SetFailed(e))), Error(502, e.code))
  }

  // ---- what each endpoint answers and leaves, row by row and field by field -----------------------------

  /** Row k is the first with this phone... */
  ghost predicate HasPhone(cs: seq<Contact>, phone: string, k: nat) {
    k < |cs| && cs[k].phone == phone && forall j | 0 <= j < k :: cs[j].phone != phone
  }

  /** ...the first of the tenant with this id... */
  ghost predicate IsContact(cs: seq<Contact>, t: nat, id: nat, k: nat) {
    k < |cs| && cs[k].id == id && cs[k].tenant == t && forall j | 0 <= j < k :: !(cs[j].id == id && cs[j].tenant == t)
  }

  ghost predicate IsRoute(rs: seq<Route>, t: nat, id: nat, k: nat) {
    k < |rs| && rs[k].id == id && rs[k].tenant == t && forall j | 0 <= j < k :: !(rs[j].id == id && rs[j].tenant == t)
  }

  ghost predicate IsMessage(ms: seq<Message>, t: nat, id: nat, k: nat) {
    k < |ms| && ms[k].id == id && ms[k].tenant == t && forall j | 0 <= j < k :: !(ms[j].id == id && ms[j].tenant == t)
  }

  /** ...the tenant's first active route... */
  ghost predicate Serves(rs: seq<Route>, t: nat, k: nat) {
    k < |rs| && rs[k].tenant == t && rs[k].active && forall j | 0 <= j < k :: !(rs[j].tenant == t && rs[j].active)
  }

  /** ...the tenant's first message with this key. */
  ghost predicate HoldsKey(ms: seq<Message>, t: nat, key: string, k: nat) {
    && k < |ms| && ms[k].tenant == t && ms[k].key == Some(key)
    && forall j | 0 <= j < k :: !(ms[j].tenant == t && ms[j].key == Some(key))
  }

  ghost predicate PutContactMeans(db: Db, t: nat, phone: string, user: nat, orgUnit: nat, status: ContactStatus,
                                  locale: Locale, newId: nat, db': Db, r: Response)
  {
    && db' == db.(contacts := db'.contacts)
    && (forall k: nat | HasPhone(db.contacts, phone, k) ::
          if db.contacts[k].tenant != t then r == Error(409, "PHONE_BOUND_TO_OTHER_TENANT") && db' == db
          else
            && r == OneContact(Contact(db.contacts[k].id, phone, user, t, Some(orgUnit), status, locale))
            && db'.contacts == db.contacts[k := r.contact])
    && ((forall k | 0 <= k < |db.contacts| :: db.contacts[k].phone != phone) ==>
          if exists k :: 0 <= k < |db.contacts| && db.contacts[k].id == newId then
            r == Error(500, "DUPLICATE_ID") && db' == db
          else
            && r == OneContact(Contact(newId, phone, user, t, Some(orgUnit), status, locale))
            && db'.contacts == db.contacts + [r.contact])
  }

  lemma PutContactIs(db: Db, t: nat, phone: string, user: nat, orgUnit: nat, status: ContactStatus, locale: Locale,
                     newId: nat)
    ensures var (db', r) := PutContactSpec(db, t, phone, user, orgUnit, status, locale, newId);
      PutContactMeans(db, t, phone, user, orgUnit, status, locale, newId, db', r)
  {
    forall k: nat | HasPhone(db.contacts, phone, k)
      ensures First(db.contacts, ContactPhone(phone)) == Some(db.contacts[k])
      ensures UpdateFirst(db.contacts, ContactPhone(phone), Rebind(user, orgUnit, status, locale))
              == db.contacts[k := Contact(db.contacts[k].id, phone, user, db.contacts[k].tenant, Some(orgUnit), status,
                                          locale)]
    {
      FirstIs(db.contacts, ContactPhone(phone), k);
    }
  }

  /** The page of the rows at the given positions. */
  ghost predicate PageOf<T(!new)>(rows: seq<T>, at: seq<nat>, limit: nat, offset: nat, page: seq<T>) {
    && (forall i, j | 0 <= i < j < |at| :: at[i] < at[j]) && (forall i | 0 <= i < |at| :: at[i] < |rows|)
    && |page| == (if |at| <= offset then 0 else if |at| - offset < limit then |at| - offset else limit)
    && forall i | 0 <= i < |page| :: page[i] == rows[at[offset + i]]
  }

  ghost predicate ListContactsMeans(db: Db, t: nat, status: Option<ContactStatus>, user: Option<nat>, limit: nat,
                                    offset: nat, r: Response)
  {
    r.Contacts? && exists at ::
      && PageOf(db.contacts, at, limit, offset, r.contacts)
      && forall k | 0 <= k < |db.contacts| :: k in at <==>
           && db.contacts[k].tenant == t
           && (status == None || status == Some(db.contacts[k].status))
           && (user == None || user == Some(db.contacts[k].user))
  }

  lemma ListContactsIs(db: Db, t: nat, status: Option<ContactStatus>, user: Option<nat>, limit: nat, offset: nat)
    ensures ListContactsMeans(db, t, status, user, limit, offset, ListContactsSpec(db, t, status, user, limit, offset))
  {
    var at := FilterAt(db.contacts, Listed(t, status, user));
    assert PageOf(db.contacts, at, limit, offset, ListContactsSpec(db, t, status, user, limit, offset).contacts);
  }

  ghost predicate GetContactMeans(db: Db, t: nat, id: nat, r: Response) {
    && (forall k: nat | IsContact(db.contacts, t, id, k) :: r == OneContact(db.contacts[k]))
    && (r == Error(404, "CONTACT_NOT_FOUND") || exists k: nat :: IsContact(db.contacts, t, id, k))
  }

  lemma GetContactIs(db: Db, t: nat, id: nat)
    ensures GetContactMeans(db, t, id, GetContactSpec(db, t, id))
  {
    ContactThere(db.contacts, t, id);
  }

  lemma ContactThere(cs: seq<Contact>, t: nat, id: nat)
    ensures First(cs, ContactKey(id, t)).None? ==> forall k: nat :: !IsContact(cs, t, id, k)
    ensures First(cs, ContactKey(id, t)).Some? ==> exists k: nat :: IsContact(cs, t, id, k)
    ensures forall k: nat | IsContact(cs, t, id, k) :: First(cs, ContactKey(id, t)) == Some(cs[k])
    ensures forall k: nat, change: Contact -> Contact | IsContact(cs, t, id, k) ::
              UpdateFirst(cs, ContactKey(id, t), change) == cs[k := change(cs[k])]
  {
    var n := IndexOf(cs, ContactKey(id, t));
    if n < |cs| {
      forall j | 0 <= j < n ensures !(cs[j].id == id && cs[j].tenant == t) { assert !ContactKey(id, t)(cs[j]); }
      assert IsContact(cs, t, id, n);
    }
    forall k: nat | IsContact(cs, t, id, k)
      ensures First(cs, ContactKey(id, t)) == Some(cs[k])
      ensures forall change: Contact -> Contact ::
                UpdateFirst(cs, ContactKey(id, t), change) == cs[k := change(cs[k])]
    {
      FirstIs(cs, ContactKey(id, t), k);
    }
  }

  ghost predicate PatchContactMeans(db: Db, t: nat, id: nat, p: ContactPatch, db': Db, r: Response) {
    && db' == db.(contacts := db'.contacts)
    && if p.status.None? && p.locale.None? && p.orgUnit.None? then r == Error(422, "NO_FIELDS_TO_UPDATE") && db' == db
       else if !exists k: nat :: IsContact(db.contacts, t, id, k) then r == Error(404, "CONTACT_NOT_FOUND") && db' == db
       else forall k: nat | IsContact(db.contacts, t, id, k) ::
         var c := db.contacts[k];
         && r.OneContact? && db'.contacts == db.contacts[k := r.contact]
         && r.contact == c.(status := r.contact.status, locale := r.contact.locale, orgUnit := r.contact.orgUnit)
         && r.contact.status == (if p.status.Some? then p.status.value else c.status)
         && r.contact.locale == (if p.locale.Some? then p.locale.value else c.locale)
         && r.contact.orgUnit == if p.orgUnit.Some? then p.orgUnit else c.orgUnit
  }

  lemma PatchContactIs(db: Db, t: nat, id: nat, p: ContactPatch)
    ensures var (db', r) := PatchContactSpec(db, t, id, p); PatchContactMeans(db, t, id, p, db', r)
  {
    ContactThere(db.contacts, t, id);
  }

  ghost predicate RevokeContactMeans(db: Db, t: nat, id: nat, db': Db, r: Response) {
    && db' == db.(contacts := db'.contacts)
    && (r == NoContent <==> exists k: nat :: IsContact(db.contacts, t, id, k))
    && (r != NoContent ==> r == Error(404, "CONTACT_NOT_FOUND") && db' == db)
    && forall k: nat | IsContact(db.contacts, t, id, k) ::
         db'.contacts == db.contacts[k := db.contacts[k].(status := Revoked)]
  }

  lemma RevokeContactIs(db: Db, t: nat, id: nat)
    ensures var (db', r) := RevokeContactSpec(db, t, id); RevokeContactMeans(db, t, id, db', r)
  {
    ContactThere(db.contacts, t, id);
  }

  ghost predicate CreateRouteMeans(db: Db, t: nat, number: string, display: string, journey: Option<nat>, newId: nat,
                                   db': Db, r: Response)
  {
    if exists k :: 0 <= k < |db.routes| && (db.routes[k].phoneNumberId == number || db.routes[k].id == newId) then
      r == Error(409, "PHONE_NUMBER_ID_ALREADY_REGISTERED") && db' == db
    else
      && r == OneRoute(Route(newId, t, number, display, true, journey))
      && db' == db.(routes := db.routes + [r.route])
  }

  lemma CreateRouteIs(db: Db, t: nat, number: string, display: string, journey: Option<nat>, newId: nat)
    ensures var (db', r) := CreateRouteSpec(db, t, number, display, journey, newId);
      CreateRouteMeans(db, t, number, display, journey, newId, db', r)
  {
    forall k | 0 <= k < |db.routes| && First(db.routes, RouteNumber(number)).None?
      ensures db.routes[k].phoneNumberId != number
    {
      assert !RouteNumber(number)(db.routes[k]);
    }
    forall k | 0 <= k < |db.routes| && First(db.routes, RouteId(newId)).None? ensures db.routes[k].id != newId {
      assert !RouteId(newId)(db.routes[k]);
    }
    FoundAt(db.routes, RouteNumber(number));
    FoundAt(db.routes, RouteId(newId));
  }

  lemma FoundAt<T(!new)>(rows: seq<T>, where: T -> bool)
    ensures First(rows, where).Some? ==> exists k :: 0 <= k < |rows| && where(rows[k])
  {}

  ghost predicate ListRoutesMeans(db: Db, t: nat, r: Response) {
    r.Routes? && exists at ::
      && PageOf(db.routes, at, |at|, 0, r.routes)
      && forall k | 0 <= k < |db.routes| :: k in at <==> db.routes[k].tenant == t
  }

  lemma ListRoutesIs(db: Db, t: nat)
    ensures ListRoutesMeans(db, t, ListRoutesSpec(db, t))
  {
    var at := FilterAt(db.routes, RoutesOf(t));
    assert PageOf(db.routes, at, |at|, 0, ListRoutesSpec(db, t).routes);
  }

  lemma RouteThere(rs: seq<Route>, t: nat, id: nat)
    ensures First(rs, RouteKey(id, t)).None? ==> forall k: nat :: !IsRoute(rs, t, id, k)
    ensures First(rs, RouteKey(id, t)).Some? ==> exists k: nat :: IsRoute(rs, t, id, k)
    ensures forall k: nat | IsRoute(rs, t, id, k) :: First(rs, RouteKey(id, t)) == Some(rs[k])
    ensures forall k: nat, change: Route -> Route | IsRoute(rs, t, id, k) ::
              UpdateFirst(rs, RouteKey(id, t), change) == rs[k := change(rs[k])]
  {
    var n := IndexOf(rs, RouteKey(id, t));
    if n < |rs| {
      forall j | 0 <= j < n ensures !(rs[j].id == id && rs[j].tenant == t) { assert !RouteKey(id, t)(rs[j]); }
      assert IsRoute(rs, t, id, n);
    }
    forall k: nat | IsRoute(rs, t, id, k)
      ensures First(rs, RouteKey(id, t)) == Some(rs[k])
      ensures forall change: Route -> Route :: UpdateFirst(rs, RouteKey(id, t), change) == rs[k := change(rs[k])]
    {
      FirstIs(rs, RouteKey(id, t), k);
    }
  }

  ghost predicate PatchRouteMeans(db: Db, t: nat, id: nat, p: RoutePatch, db': Db, r: Response) {
    && db' == db.(routes := db'.routes)
    && if p.active.None? && p.display.None? && p.journey.None? then r == Error(422, "NO_FIELDS_TO_UPDATE") && db' == db
       else if !exists k: nat :: IsRoute(db.routes, t, id, k) then r == Error(404, "ROUTE_NOT_FOUND") && db' == db
       else forall k: nat | IsRoute(db.routes, t, id, k) ::
         var x := db.routes[k];
         && r.OneRoute? && db'.routes == db.routes[k := r.route]
         && r.route == x.(active := r.route.active, display := r.route.display, journey := r.route.journey)
         && r.route.active == (if p.active.Some? then p.active.value else x.active)
         && r.route.display == (if p.display.Some? then p.display.value else x.display)
         && r.route.journey == if p.journey.Some? then p.journey else x.journey
  }

  lemma PatchRouteIs(db: Db, t: nat, id: nat, p: RoutePatch)
    ensures var (db', r) := PatchRouteSpec(db, t, id, p); PatchRouteMeans(db, t, id, p, db', r)
  {
    RouteThere(db.routes, t, id);
  }

  ghost predicate GetMessageMeans(db: Db, t: nat, id: nat, r: Response) {
    && (forall k: nat | IsMessage(db.messages, t, id, k) :: r == OneMessage(200, db.messages[k]))
    && (r == Error(404, "MESSAGE_NOT_FOUND") || exists k: nat :: IsMessage(db.messages, t, id, k))
  }

  lemma MessageThere(ms: seq<Message>, t: nat, id: nat)
    ensures First(ms, MessageKey(id, t)).None? ==> forall k: nat :: !IsMessage(ms, t, id, k)
    ensures First(ms, MessageKey(id, t)).Some? ==> exists k: nat :: IsMessage(ms, t, id, k)
    ensures forall k: nat | IsMessage(ms, t, id, k) :: First(ms, MessageKey(id, t)) == Some(ms[k])
    ensures forall k: nat, change: Message -> Message | IsMessage(ms, t, id, k) ::
              UpdateFirst(ms, MessageKey(id, t), change) == ms[k := change(ms[k])]
  {
    var n := IndexOf(ms, MessageKey(id, t));
    if n < |ms| {
      forall j | 0 <= j < n ensures !(ms[j].id == id && ms[j].tenant == t) { assert !MessageKey(id, t)(ms[j]); }
      assert IsMessage(ms, t, id, n);
    }
    forall k: nat | IsMessage(ms, t, id, k)
      ensures First(ms, MessageKey(id, t)) == Some(ms[k])
      ensures forall change: Message -> Message ::
                UpdateFirst(ms, MessageKey(id, t), change) == ms[k := change(ms[k])]
    {
      FirstIs(ms, MessageKey(id, t), k);
    }
  }

  lemma GetMessageIs(db: Db, t: nat, id: nat)
    ensures GetMessageMeans(db, t, id, GetMessageSpec(db, t, id))
  {
    MessageThere(db.messages, t, id);
  }

  /** The caller finds message k under its key. */
  ghost predicate Finds(ms: seq<Message>, t: nat, key: Option<string>, raced: bool, k: nat) {
    key.Some? && key.value != "" && !raced && HoldsKey(ms, t, key.value, k)
  }

  ghost predicate ReserveMeans(db: Db, t: nat, key: Option<string>, request: Request, caller: string, newId: nat,
                               raced: bool, db': Db, r: Response)
  {
    && db' == db.(messages := db'.messages)
    && (r == Error(409, "NO_ACTIVE_ROUTE") <==>
          forall k | 0 <= k < |db.routes| :: !(db.routes[k].tenant == t && db.routes[k].active))
    && (r == Error(409, "NO_ACTIVE_ROUTE") ==> db' == db)
    && forall route: nat | Serves(db.routes, t, route) ::
         && (r.Reserved? ==> r.phoneNumberId == db.routes[route].phoneNumberId)
         && (forall k: nat | Finds(db.messages, t, key, raced, k) :: FoundMeans(db, request, k, db', r))
         && ((forall k: nat :: !Finds(db.messages, t, key, raced, k)) ==>
               if exists k :: 0 <= k < |db.messages| && (db.messages[k].id == newId ||
                    (db.messages[k].tenant == t && key.Some? && db.messages[k].key == key)) then
                 r == Error(409, "IDEMPOTENCY_KEY_IN_FLIGHT") && db' == db
               else
                 && r.Reserved? && r.id == newId
                 && db'.messages == db.messages + [Message(newId, t, db.routes[route].id, request, key, caller,
                                                           Pending, None, None)])
  }

  /** The verdict on message k: another body, sent, in flight, or failed and reserved anew as it is. */
  ghost predicate FoundMeans(db: Db, request: Request, k: nat, db': Db, r: Response)
    requires k < |db.messages|
  {
    var m := db.messages[k];
    && db' == db
    && (m.payload != request ==> r == Error(422, "IDEMPOTENCY_KEY_REUSED"))
    && (m.payload == request && m.state == Sent ==> r == OneMessage(200, m))
    && (m.payload == request && m.state == Pending ==> r == Error(409, "IDEMPOTENCY_KEY_IN_FLIGHT"))
    && (m.payload == request && m.state == Failed ==> r.Reserved? && r.id == m.id)
  }

  lemma RouteServes(rs: seq<Route>, t: nat)
    ensures First(rs, ActiveOf(t)).None? <==> forall k | 0 <= k < |rs| :: !(rs[k].tenant == t && rs[k].active)
    ensures First(rs, ActiveOf(t)).None? ==> forall k: nat :: !Serves(rs, t, k)
    ensures forall k: nat | Serves(rs, t, k) :: First(rs, ActiveOf(t)) == Some(rs[k])
  {
    forall k | 0 <= k < |rs| && First(rs, ActiveOf(t)).None? ensures !(rs[k].tenant == t && rs[k].active) {
      assert !ActiveOf(t)(rs[k]);
    }
    forall k: nat | Serves(rs, t, k) ensures First(rs, ActiveOf(t)) == Some(rs[k]) { FirstIs(rs, ActiveOf(t), k); }
  }

  lemma KeyFinds(ms: seq<Message>, t: nat, key: string)
    ensures First(ms, Keyed(t, key)).None? <==>
              forall k | 0 <= k < |ms| :: !(ms[k].tenant == t && ms[k].key == Some(key))
    ensures First(ms, Keyed(t, key)).Some? ==> exists k: nat :: HoldsKey(ms, t, key, k)
    ensures forall k: nat | HoldsKey(ms, t, key, k) :: First(ms, Keyed(t, key)) == Some(ms[k])
  {
    var n := IndexOf(ms, Keyed(t, key));
    forall j | 0 <= j < n ensures !(ms[j].tenant == t && ms[j].key == Some(key)) { assert !Keyed(t, key)(ms[j]); }
    if n < |ms| {
      assert HoldsKey(ms, t, key, n);
      FirstIs(ms, Keyed(t, key), n);
    }
    forall k: nat | HoldsKey(ms, t, key, k) ensures First(ms, Keyed(t, key)) == Some(ms[k]) {
      FirstIs(ms, Keyed(t, key), k);
    }
  }

  /** The call finds what the lookup finds. */
  lemma ExistingFinds(db: Db, t: nat, key: Option<string>, raced: bool)
    ensures Existing(db, t, key, raced).None? <==> forall k: nat :: !Finds(db.messages, t, key, raced, k)
    ensures forall k: nat | Finds(db.messages, t, key, raced, k) :: Existing(db, t, key, raced) == Some(db.messages[k])
  {
    if key.Some? {
      KeyFinds(db.messages, t, key.value);
      if Existing(db, t, key, raced).Some? {
        var k: nat :| HoldsKey(db.messages, t, key.value, k);
        assert Finds(db.messages, t, key, raced, k);
      }
    }
  }

  lemma IdTaken(ms: seq<Message>, id: nat)
    ensures First(ms, MessageId(id)).Some? <==> exists k :: 0 <= k < |ms| && ms[k].id == id
  {
    forall k | 0 <= k < |ms| && First(ms, MessageId(id)).None? ensures ms[k].id != id { assert !MessageId(id)(ms[k]); }
  }

  lemma ReserveIs(db: Db, t: nat, key: Option<string>, request: Request, caller: string, newId: nat, raced: bool)
    ensures var (db', r) := ReserveSpec(db, t, key, request, caller, newId, raced);
      ReserveMeans(db, t, key, request, caller, newId, raced, db', r)
  {
    RouteServes(db.routes, t);
    ExistingFinds(db, t, key, raced);
    if Existing(db, t, key, raced).None? {
      IdOrKeyTaken(db.messages, t, key, newId);
    }
  }

  lemma IdOrKeyTaken(ms: seq<Message>, t: nat, key: Option<string>, id: nat)
    ensures First(ms, MessageId(id)).Some? || (key.Some? && First(ms, Keyed(t, key.value)).Some?) <==>
            exists k :: 0 <= k < |ms| && (ms[k].id == id || (ms[k].tenant == t && key.Some? && ms[k].key == key))
  {
    IdTaken(ms, id);
    if key.Some? { KeyFinds(ms, t, key.value); }
  }

  ghost predicate RecordSentMeans(db: Db, t: nat, id: nat, wamid: string, db': Db, r: Response) {
    && db' == db.(messages := db'.messages)
    && ((forall k: nat :: !IsMessage(db.messages, t, id, k)) ==> r == Error(500, "NO_ROW") && db' == db)
    && forall k: nat | IsMessage(db.messages, t, id, k) ::
         && r == OneMessage(201, db.messages[k].(state := Sent, wamid := Some(wamid), error := None))
         && db'.messages == db.messages[k := r.message]
  }

  lemma RecordSentIs(db: Db, t: nat, id: nat, wamid: string)
    ensures var (db', r) := RecordSentSpec(db, t, id, wamid); RecordSentMeans(db, t, id, wamid, db', r)
  {
    MessageThere(db.messages, t, id);
  }

  ghost predicate RecordFailedMeans(db: Db, t: nat, id: nat, e: Failure, db': Db, r: Response) {
    && db' == db.(messages := db'.messages) && r == Error(502, e.code)
    && ((forall k: nat :: !IsMessage(db.messages, t, id, k)) ==> db' == db)
    && forall k: nat | IsMessage(db.messages, t, id, k) ::
         db'.messages == db.messages[k := db.messages[k].(state := Failed, error := Some(e))]
  }

  lemma RecordFailedIs(db: Db, t: nat, id: nat, e: Failure)
    ensures var (db', r) := RecordFailedSpec(db, t, id, e); RecordFailedMeans(db, t, id, e, db', r)
  {
    MessageThere(db.messages, t, id);
    if First(db.messages, MessageKey(id, t)).None? {
      UpdateFirstNone(db.messages, MessageKey(id, t), SetFailed(e));
    }
  }

  // ---- one /v1 transaction ----------------------------------------------------------------------------

  datatype Call =
    | PutContact(phone: string, user: nat, orgUnit: nat, status: ContactStatus, locale: Locale, newId: nat)
    | ListContacts(wanted: Option<ContactStatus>, ofUser: Option<nat>, limit: nat, offset: nat)
    | GetContact(id: nat)
    | PatchContact(id: nat, contactPatch: ContactPatch)
    | RevokeContact(id: nat)
    | CreateRoute(number: string, display: string, journey: Option<nat>, newId: nat)
    | ListRoutes
    | PatchRoute(id: nat, routePatch: RoutePatch)
    | GetMessage(id: nat)
    | Reserve(key: Option<string>, request: Request, caller: string, newId: nat, raced: bool)
    | RecordSent(id: nat, wamid: string)
    | RecordFailed(id: nat, failure: Failure)

  function Answer(db: Db, t: nat, c: Call): (Db, Response) {
    match c
    case PutContact(phone, user, orgUnit, status, locale, newId) =>
      PutContactSpec(db, t, phone, user, orgUnit, status, locale, newId)
    case ListContacts(status, user, limit, offset) => (db, ListContactsSpec(db, t, status, user, limit, offset))
    case GetContact(id) => (db, GetContactSpec(db, t, id))
    case PatchContact(id, p) => PatchContactSpec(db, t, id, p)
    case RevokeContact(id) => RevokeContactSpec(db, t, id)
    case CreateRoute(number, display, journey, newId) => CreateRouteSpec(db, t, number, display, journey, newId)
    case ListRoutes => (db, ListRoutesSpec(db, t))
    case PatchRoute(id, p) => PatchRouteSpec(db, t, id, p)
    case GetMessage(id) => (db, GetMessageSpec(db, t, id))
    case Reserve(key, request, caller, newId, raced) => ReserveSpec(db, t, key, request, caller, newId, raced)
    case RecordSent(id, wamid) => RecordSentSpec(db, t, id, wamid)
    case RecordFailed(id, e) => RecordFailedSpec(db, t, id, e)
  }

  // ---- the service --------------------------------------------------------------------------------------

  class Service {
    var contacts: seq<Contact>
    var routes: seq<Route>
    var messages: seq<Message>

    function View(): Db
      reads this
    {
      Db(contacts, routes, messages)
    }

    constructor ()
      ensures View() == Db([], [], [])
    {
      contacts, routes, messages := [], [], [];
    }

    method PutContact(t: nat, phone: string, user: nat, orgUnit: nat, status: ContactStatus, locale: Locale, newId: nat)
      returns (r: Response)
      modifies this
      ensures (View(), r) == PutContactSpec(old(View()), t, phone, user, orgUnit, status, locale, newId)
      ensures PutContactMeans(old(View()), t, phone, user, orgUnit, status, locale, newId, View(), r)
    {
      PutContactIs(View(), t, phone, user, orgUnit, status, locale, newId);
      var found := SelectFirst(contacts, ContactPhone(phone));
      if found.None? {
        var clash := SelectFirst(contacts, ContactId(newId));
        if clash.Some? { return Error(500, "DUPLICATE_ID"); }
        var c := Contact(newId, phone, user, t, Some(orgUnit), status, locale);
        contacts := contacts + [c];
        return OneContact(c);
      }
      if found.value.tenant != t { return Error(409, "PHONE_BOUND_TO_OTHER_TENANT"); }
      contacts := Update(contacts, ContactPhone(phone), Rebind(user, orgUnit, status, locale));
      r := OneContact(Rebind(user, orgUnit, status, locale)(found.value));
    }

    method ListContacts(t: nat, status: Option<ContactStatus>, user: Option<nat>, limit: nat, offset: nat)
      returns (r: Response)
      ensures r == ListContactsSpec(View(), t, status, user, limit, offset)
      ensures ListContactsMeans(View(), t, status, user, limit, offset, r)
    {
      ListContactsIs(View(), t, status, user, limit, offset);
      var rows := Select(contacts, Listed(t, status, user));
      r := Contacts(Page(rows, limit, offset));
    }

    method GetContact(t: nat, id: nat) returns (r: Response)
      ensures r == GetContactSpec(View(), t, id)
      ensures GetContactMeans(View(), t, id, r)
    {
      GetContactIs(View(), t, id);
      var found := SelectFirst(contacts, ContactKey(id, t));
      r := if found.None? then Error(404, "CONTACT_NOT_FOUND") else OneContact(found.value);
    }

    method PatchContact(t: nat, id: nat, p: ContactPatch) returns (r: Response)
      modifies this
      ensures (View(), r) == PatchContactSpec(old(View()), t, id, p)
      ensures PatchContactMeans(old(View()), t, id, p, View(), r)
    {
      PatchContactIs(View(), t, id, p);
      if p == ContactPatch(None, None, None) { return Error(422, "NO_FIELDS_TO_UPDATE"); }
      var found := SelectFirst(contacts, ContactKey(id, t));
      if found.None? { return Error(404, "CONTACT_NOT_FOUND"); }
      contacts := Update(contacts, ContactKey(id, t), PatchContactWith(p));
      r := OneContact(PatchContactWith(p)(found.value));
    }

    method RevokeContact(t: nat, id: nat) returns (r: Response)
      modifies this
      ensures (View(), r) == RevokeContactSpec(old(View()), t, id)
      ensures RevokeContactMeans(old(View()), t, id, View(), r)
    {
      RevokeContactIs(View(), t, id);
      var found := SelectFirst(contacts, ContactKey(id, t));
      if found.None? { return Error(404, "CONTACT_NOT_FOUND"); }
      contacts := Update(contacts, ContactKey(id, t), Revoke());
      r := NoContent;
    }

    method CreateRoute(t: nat, number: string, display: string, journey: Option<nat>, newId: nat)
      returns (r: Response)
      modifies this
      ensures (View(), r) == CreateRouteSpec(old(View()), t, number, display, journey, newId)
      ensures CreateRouteMeans(old(View()), t, number, display, journey, newId, View(), r)
    {
      CreateRouteIs(View(), t, number, display, journey, newId);
      var sameNumber := SelectFirst(routes, RouteNumber(number));
      var sameId := SelectFirst(routes, RouteId(newId));
      if sameNumber.Some? || sameId.Some? { return Error(409, "PHONE_NUMBER_ID_ALREADY_REGISTERED"); }
      var row := Route(newId, t, number, display, true, journey);
      routes := routes + [row];
      r := OneRoute(row);
    }

    method ListRoutes(t: nat) returns (r: Response)
      ensures r == ListRoutesSpec(View(), t)
      ensures ListRoutesMeans(View(), t, r)
    {
      ListRoutesIs(View(), t);
      var rows := Select(routes, RoutesOf(t));
      r := Response.Routes(rows);
    }

    method PatchRoute(t: nat, id: nat, p: RoutePatch) returns (r: Response)
      modifies this
      ensures (View(), r) == PatchRouteSpec(old(View()), t, id, p)
      ensures PatchRouteMeans(old(View()), t, id, p, View(), r)
    {
      PatchRouteIs(View(), t, id, p);
      if p == RoutePatch(None, None, None) { return Error(422, "NO_FIELDS_TO_UPDATE"); }
      var found := SelectFirst(routes, RouteKey(id, t));
      if found.None? { return Error(404, "ROUTE_NOT_FOUND"); }
      routes := Update(routes, RouteKey(id, t), PatchRouteWith(p));
      r := OneRoute(PatchRouteWith(p)(found.value));
    }

    method GetMessage(t: nat, id: nat) returns (r: Response)
      ensures r == GetMessageSpec(View(), t, id)
      ensures GetMessageMeans(View(), t, id, r)
    {
      GetMessageIs(View(), t, id);
      var found := SelectFirst(messages, MessageKey(id, t));
      r := if found.None? then Error(404, "MESSAGE_NOT_FOUND") else OneMessage(200, found.value);
    }

    method Reserve(t: nat, key: Option<string>, request: Request, caller: string, newId: nat, raced: bool)
      returns (r: Response)
      modifies this
      ensures (View(), r) == ReserveSpec(old(View()), t, key, request, caller, newId, raced)
      ensures ReserveMeans(old(View()), t, key, request, caller, newId, raced, View(), r)
    {
      ReserveIs(View(), t, key, request, caller, newId, raced);
      var route := SelectFirst(routes, ActiveOf(t));
      if route.None? { return Error(409, "NO_ACTIVE_ROUTE"); }
      if key.Some? && key.value != "" && !raced {
        var existing := SelectFirst(messages, Keyed(t, key.value));
        if existing.Some? {
          var m := existing.value;
          if m.payload != request { return Error(422, "IDEMPOTENCY_KEY_REUSED"); }
          if m.state == Sent { return OneMessage(200, m); }
          if m.state == Pending { return Error(409, "IDEMPOTENCY_KEY_IN_FLIGHT"); }
          return Reserved(m.id, route.value.phoneNumberId);
        }
      }
      var sameId := SelectFirst(messages, MessageId(newId));
      var sameKey: Option<Message> := None;
      if key.Some? { sameKey := SelectFirst(messages, Keyed(t, key.value)); }
      if sameId.Some? || sameKey.Some? { return Error(409, "IDEMPOTENCY_KEY_IN_FLIGHT"); }
      messages := messages + [Message(newId, t, route.value.id, request, key, caller, Pending, None, None)];
      r := Reserved(newId, route.value.phoneNumberId);
    }

    method RecordSent(t: nat, id: nat, wamid: string) returns (r: Response)
      modifies this
      ensures (View(), r) == RecordSentSpec(old(View()), t, id, wamid)
      ensures RecordSentMeans(old(View()), t, id, wamid, View(), r)
    {
      RecordSentIs(View(), t, id, wamid);
      var found := SelectFirst(messages, MessageKey(id, t));
      if found.None? { return Error(500, "NO_ROW"); }
      messages := Update(messages, MessageKey(id, t), SetSent(wamid));
      r := OneMessage(201, SetSent(wamid)(found.value));
    }

    method RecordFailed(t: nat, id: nat, e: Failure) returns (r: Response)
      modifies this
      ensures (View(), r) == RecordFailedSpec(old(View()), t, id, e)
      ensures RecordFailedMeans(old(View()), t, id, e, View(), r)
    {
      RecordFailedIs(View(), t, id, e);
      messages := Update(messages, MessageKey(id, t), SetFailed(e));
      r := Error(502, e.code);
    }
  }
}
