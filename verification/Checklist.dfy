/** deal/checklist.py: the document requirements of a deal type, doc.checklist_item, and the counts the
    gap message is made of.  The unique index on (deal_id, type_key) makes the table a map. */
module Checklist {
  import opened Wrappers
  import Rows

  /** doc.type, in its sort order; a classification may also carry a key the registry does not know. */
  datatype DocType =
    | BookingForm | Pan | Aadhaar | TaxInvoiceVehicle | DeliveryNote | Form21 | Form22 | InsurancePolicy
    | RcBook | LoanSanctionLetter | BankStatement3M | TradeInEvaluation | RcBookTradein | CompanyPan
    | GstRegistration | OtherType(key: string)

  datatype DealType = Retail | RetailFinanced | RetailExchange | Corporate

  datatype Requirement = Blocking | Optional

  datatype Item = Item(requirement: Requirement, satisfied: bool, document: Option<nat>)

  /** By deal and document type. */
  type Items = map<(nat, DocType), Item>

  // ---- default requirements -------------------------------------------------------------------------

  function DefaultCount(t: DealType): nat { if t == Retail then 9 else 11 }

  /** Entry i of the default list. */
  function DefaultAt(t: DealType, i: nat): (DocType, Requirement)
    requires i < DefaultCount(t)
  {
    match i
    case 0 => (BookingForm, Blocking)
    case 1 => (Pan, Blocking)
    case 2 => (Aadhaar, Blocking)
    case 3 => (TaxInvoiceVehicle, Blocking)
    case 4 => (DeliveryNote, Blocking)
    case 5 => (Form21, Blocking)
    case 6 => (Form22, Blocking)
    case 7 => (InsurancePolicy, Blocking)
    case 8 => (RcBook, Optional)
    case 9 => (match t
               case RetailFinanced => (LoanSanctionLetter, Blocking)
               case RetailExchange => (TradeInEvaluation, Blocking)
               case _ => (CompanyPan, Blocking))
    case _ => (match t
               case RetailFinanced => (BankStatement3M, Blocking)
               case RetailExchange => (RcBookTradein, Blocking)
               case _ => (GstRegistration, Blocking))
  }

  /** What a deal type asks of a document type. */
  function DefaultOf(t: DealType, x: DocType): Option<Requirement> {
    match x
    case LoanSanctionLetter => if t == RetailFinanced then Some(Blocking) else None
    case BankStatement3M => if t == RetailFinanced then Some(Blocking) else None
    case TradeInEvaluation => if t == RetailExchange then Some(Blocking) else None
    case RcBookTradein => if t == RetailExchange then Some(Blocking) else None
    case CompanyPan => if t == Corporate then Some(Blocking) else None
    case GstRegistration => if t == Corporate then Some(Blocking) else None
    case RcBook => Some(Optional)
    case OtherType(_) => None
    case _ => Some(Blocking)
  }

  function PositionOf(t: DealType, x: DocType): nat
    requires DefaultOf(t, x).Some?
  {
    match x
    case BookingForm => 0 case Pan => 1 case Aadhaar => 2 case TaxInvoiceVehicle => 3
    case DeliveryNote => 4 case Form21 => 5 case Form22 => 6 case InsurancePolicy => 7
    case RcBook => 8
    case LoanSanctionLetter => 9 case TradeInEvaluation => 9 case CompanyPan => 9
    case _ => 10
  }

  /** The list names each required type once, with its requirement. */
  lemma DefaultsListed(t: DealType, x: DocType)
    ensures DefaultOf(t, x).Some? ==>
              PositionOf(t, x) < DefaultCount(t) && DefaultAt(t, PositionOf(t, x)) == (x, DefaultOf(t, x).value)
    ensures forall i | 0 <= i < DefaultCount(t) && DefaultAt(t, i).0 == x ::
              DefaultOf(t, x) == Some(DefaultAt(t, i).1) && i == PositionOf(t, x)
  {}

  // ---- initialise ------------------------------------------------------------------------------------

  /** INSERT ... ON CONFLICT (deal_id, type_key) DO NOTHING. */
  function InsertItem(items: Items, d: nat, entry: (DocType, Requirement)): Items {
    if (d, entry.0) in items then items else items[(d, entry.0) := Item(entry.1, false, None)]
  }

  function InsertDefaults(items: Items, d: nat, t: DealType, n: nat): Items
    requires n <= DefaultCount(t)
  {
    if n == 0 then items else InsertItem(InsertDefaults(items, d, t, n - 1), d, DefaultAt(t, n - 1))
  }

  function InitialiseSpec(items: Items, d: nat, t: DealType): Items { InsertDefaults(items, d, t, DefaultCount(t)) }

  /** The deal has these items and no others. */
  ghost predicate ExactlyDefaults(items: Items, d: nat, t: DealType) {
    forall x: DocType ::
      && ((d, x) in items <==> DefaultOf(t, x).Some?)
      && ((d, x) in items ==> items[(d, x)].requirement == DefaultOf(t, x).value)
  }

  lemma {:induction false} InsertDefaultsMeans(items: Items, d: nat, t: DealType, n: nat, k: (nat, DocType))
    requires n <= DefaultCount(t)
    ensures var r := InsertDefaults(items, d, t, n);
      var added := k.0 == d && DefaultOf(t, k.1).Some? && PositionOf(t, k.1) < n;
      && (k in r <==> k in items || added)
      && (k in items ==> r[k] == items[k])
      && (k !in items && added ==> r[k] == Item(DefaultOf(t, k.1).value, false, None))
  {
    DefaultsListed(t, k.1);
    if n > 0 {
      InsertDefaultsMeans(items, d, t, n - 1, k);
    }
  }

  /** initialise_checklist adds what is missing of the defaults, unsatisfied, and keeps every item there is. */
  lemma InitialiseMeans(items: Items, d: nat, t: DealType, k: (nat, DocType))
    ensures var r := InitialiseSpec(items, d, t);
      && (k in r <==> k in items || (k.0 == d && DefaultOf(t, k.1).Some?))
      && (k in items ==> r[k] == items[k])
      && (k !in items && k in r ==> r[k] == Item(DefaultOf(t, k.1).value, false, None))
  {
    DefaultsListed(t, k.1);
    InsertDefaultsMeans(items, d, t, DefaultCount(t), k);
  }

  /** What is asked of every deal... */
  const COMMON := {BookingForm, Pan, Aadhaar, TaxInvoiceVehicle, DeliveryNote, Form21, Form22, InsurancePolicy}

  /** ...and what more of each type of deal. */
  function Extra(t: DealType): set<DocType> {
    match t
    case Retail => {}
    case RetailFinanced => {LoanSanctionLetter, BankStatement3M}
    case RetailExchange => {TradeInEvaluation, RcBookTradein}
    case Corporate => {CompanyPan, GstRegistration}
  }

  /** A deal without items gets exactly the defaults of its type, none satisfied: the eight common documents and
      the two of its type block, the registration book does not. */
  lemma FreshChecklist(items: Items, d: nat, t: DealType)
    requires forall x: DocType :: (d, x) !in items
    ensures ExactlyDefaults(InitialiseSpec(items, d, t), d, t)
    ensures var r := InitialiseSpec(items, d, t);
      && (forall x: DocType :: (d, x) in r <==> x in COMMON + Extra(t) + {RcBook})
      && (forall x: DocType | (d, x) in r ::
            r[(d, x)] == Item(if x == RcBook then Optional else Blocking, false, None))
  {
    forall x: DocType
      ensures ((d, x) in InitialiseSpec(items, d, t) <==> DefaultOf(t, x).Some?)
      ensures (d, x) in InitialiseSpec(items, d, t) ==>
                InitialiseSpec(items, d, t)[(d, x)] == Item(DefaultOf(t, x).value, false, None)
      ensures DefaultOf(t, x) == if x == RcBook then Some(Optional)
                                 else if x in COMMON + Extra(t) then Some(Blocking) else None
    {
      InitialiseMeans(items, d, t, (d, x));
    }
  }

  /** When two sessions race to create one deal, the loser initialises the winner's: the checklist stays that
      of the deal's type exactly when the loser's type is the same or plain retail. */
  lemma ReinitialiseKeepsIff(items: Items, d: nat, t: DealType, loser: DealType)
    requires ExactlyDefaults(items, d, t)
    ensures ExactlyDefaults(InitialiseSpec(items, d, loser), d, t) <==> loser == t || loser == Retail
  {
    var r := InitialiseSpec(items, d, loser);
    forall x: DocType
      ensures (d, x) in r <==> DefaultOf(t, x).Some? || DefaultOf(loser, x).Some?
      ensures (d, x) in items ==> r[(d, x)] == items[(d, x)]
    {
      InitialiseMeans(items, d, loser, (d, x));
    }
    var extra := match loser
                 case RetailFinanced => LoanSanctionLetter
                 case RetailExchange => TradeInEvaluation
                 case _ => CompanyPan;
    assert loser != t && loser != Retail ==> (d, extra) in r && DefaultOf(t, extra).None?;
  }

  // ---- satisfy ---------------------------------------------------------------------------------------

  function MarkSpec(items: Items, d: nat, x: DocType, document: nat): Items {
    if (d, x) in items then items[(d, x) := items[(d, x)].(satisfied := true, document := Some(document))] else items
  }

  // ---- build -----------------------------------------------------------------------------------------

  datatype ChecklistState = ChecklistState(
    bookingNumber: string, blockingTotal: nat, blockingSatisfied: nat, blockingMissing: seq<DocType>,
    received: seq<DocType>, isComplete: bool)

  function TypeAt(i: nat): DocType {
    match i
    case 0 => BookingForm case 1 => Pan case 2 => Aadhaar case 3 => TaxInvoiceVehicle
    case 4 => DeliveryNote case 5 => Form21 case 6 => Form22 case 7 => InsurancePolicy
    case 8 => RcBook case 9 => LoanSanctionLetter case 10 => BankStatement3M
    case 11 => TradeInEvaluation case 12 => RcBookTradein case 13 => CompanyPan
    case _ => GstRegistration
  }

  function SortOf(x: DocType): nat
    requires !x.OtherType?
    ensures SortOf(x) < 15 && TypeAt(SortOf(x)) == x
  {
    match x
    case BookingForm => 0 case Pan => 1 case Aadhaar => 2 case TaxInvoiceVehicle => 3
    case DeliveryNote => 4 case Form21 => 5 case Form22 => 6 case InsurancePolicy => 7
    case RcBook => 8 case LoanSanctionLetter => 9 case BankStatement3M => 10
    case TradeInEvaluation => 11 case RcBookTradein => 12 case CompanyPan => 13
    case GstRegistration => 14
  }

  /** The registry's sort order. */
  lemma SortIs()
    ensures [TypeAt(0), TypeAt(1), TypeAt(2), TypeAt(3), TypeAt(4), TypeAt(5), TypeAt(6), TypeAt(7)] ==
            [BookingForm, Pan, Aadhaar, TaxInvoiceVehicle, DeliveryNote, Form21, Form22, InsurancePolicy]
    ensures [TypeAt(8), TypeAt(9), TypeAt(10), TypeAt(11), TypeAt(12), TypeAt(13), TypeAt(14)] ==
            [RcBook, LoanSanctionLetter, BankStatement3M, TradeInEvaluation, RcBookTradein, CompanyPan, GstRegistration]
  {}

  /** The foreign key on doc.type. */
  ghost predicate KnownTypes(items: Items) { forall k | k in items :: !k.1.OtherType? }

  /** The deal's items of one requirement, by sort. */
  function Listed(items: Items, d: nat, r: Requirement, n: nat): (rows: seq<DocType>)
    ensures forall x | x in rows :: (d, x) in items && items[(d, x)].requirement == r
    ensures forall i | 0 <= i < n && (d, TypeAt(i)) in items && items[(d, TypeAt(i))].requirement == r ::
              TypeAt(i) in rows
  {
    if n == 0 then [] else
    var rest := Listed(items, d, r, n - 1);
    var k := (d, TypeAt(n - 1));
    if k in items && items[k].requirement == r then rest + [TypeAt(n - 1)] else rest
  }

  /** ORDER BY requirement DESC, sort. */
  function Listing(items: Items, d: nat): seq<DocType> {
    Listed(items, d, Optional, 15) + Listed(items, d, Blocking, 15)
  }

  lemma ListingComplete(items: Items, d: nat, x: DocType)
    requires KnownTypes(items)
    ensures x in Listing(items, d) <==> (d, x) in items
  {
    if (d, x) in items {
      assert TypeAt(SortOf(x)) == x;
      assert x in Listed(items, d, items[(d, x)].requirement, 15);
    }
  }

  /** Optional rows come first. */
  lemma ListingSplit(items: Items, d: nat, i: nat)
    requires i < |Listing(items, d)|
    ensures (d, Listing(items, d)[i]) in items
    ensures items[(d, Listing(items, d)[i])].requirement == Blocking <==> i >= |Listed(items, d, Optional, 15)|
  {
    var x := Listing(items, d)[i];
    assert if i < |Listed(items, d, Optional, 15)| then x in Listed(items, d, Optional, 15)
           else x in Listed(items, d, Blocking, 15);
  }

  predicate IsMissing(items: Items, d: nat, x: DocType) {
    (d, x) in items && items[(d, x)].requirement == Blocking && !items[(d, x)].satisfied
  }

  /** Every blocking item of the deal is satisfied, and there is one. */
  ghost predicate Complete(items: Items, d: nat) {
    && (exists x: DocType :: (d, x) in items && items[(d, x)].requirement == Blocking)
    && (forall x: DocType :: !IsMissing(items, d, x))
  }

  function Missing(items: Items, d: nat): DocType -> bool { (x: DocType) => IsMissing(items, d, x) }

  function Received(items: Items, d: nat): DocType -> bool {
    (x: DocType) => (d, x) in items && items[(d, x)].satisfied
  }

  lemma BuildMeans(items: Items, d: nat, total: nat, missing: seq<DocType>, received: seq<DocType>)
    requires KnownTypes(items) && total == |Listed(items, d, Blocking, 15)|
    requires missing == Rows.Filter(Listing(items, d), Missing(items, d))
    requires received == Rows.Filter(Listing(items, d), Received(items, d))
    ensures forall x :: x in missing <==> IsMissing(items, d, x)
    ensures forall x :: x in received <==> (d, x) in items && items[(d, x)].satisfied
    ensures total > 0 && missing == [] <==> Complete(items, d)
  {
    forall x: DocType ensures x in Listing(items, d) <==> (d, x) in items { ListingComplete(items, d, x); }
    if total > 0 {
      var x := Listed(items, d, Blocking, 15)[0];
      assert (d, x) in items && items[(d, x)].requirement == Blocking;
      if missing != [] { assert IsMissing(items, d, missing[0]); }
    }
    if Complete(items, d) {
      var x: DocType :| (d, x) in items && items[(d, x)].requirement == Blocking;
      assert TypeAt(SortOf(x)) == x;
      assert x in Listed(items, d, Blocking, 15);
    }
  }

  class Table {
    var items: Items

    constructor ()
      ensures items == map[]
    {
      items := map[];
    }

    method Initialise(d: nat, t: DealType) returns (count: nat)
      modifies this
      ensures items == InitialiseSpec(old(items), d, t)
      ensures |items| == |old(items)| + count
    {
      count := 0;
      var i := 0;
      while i < DefaultCount(t)
        invariant i <= DefaultCount(t) && items == InsertDefaults(old(items), d, t, i)
        invariant |items| == |old(items)| + count
      {
        var entry := DefaultAt(t, i);
        if (d, entry.0) !in items {
          items := items[(d, entry.0) := Item(entry.1, false, None)];
          count := count + 1;
        }
        i := i + 1;
      }
    }

    method MarkSatisfied(d: nat, x: DocType, document: nat)
      modifies this
      ensures items == MarkSpec(old(items), d, x, document)
      ensures items.Keys == old(items).Keys
      ensures forall k | k in items && k != (d, x) :: items[k] == old(items)[k]
      ensures (d, x) in items ==>
                items[(d, x)] == Item(old(items)[(d, x)].requirement, true, Some(document))
    {
      if (d, x) in items {
        items := items[(d, x) := items[(d, x)].(satisfied := true, document := Some(document))];
      }
    }

    /** The loop over the rows of the query. */
    method CountRows(d: nat) returns (total: nat, satisfied: nat, missing: seq<DocType>, received: seq<DocType>)
      ensures total == |Listed(items, d, Blocking, 15)| == satisfied + |missing|
      ensures missing == Rows.Filter(Listing(items, d), Missing(items, d))
      ensures received == Rows.Filter(Listing(items, d), Received(items, d))
    {
      var rows := Listing(items, d);
      ghost var optional := |Listed(items, d, Optional, 15)|;
      total, satisfied, missing, received := 0, 0, [], [];
      var i := 0;
      while i < |rows|
        invariant i <= |rows|
        invariant missing == Rows.Filter(rows[..i], Missing(items, d))
        invariant received == Rows.Filter(rows[..i], Received(items, d))
        invariant total == satisfied + |missing|
        invariant total == if i <= optional then 0 else i - optional
      {
        var x := rows[i];
        ListingSplit(items, d, i);
        var item := items[(d, x)];
        Rows.FilterNext(rows, i, Missing(items, d));
        Rows.FilterNext(rows, i, Received(items, d));
        if item.satisfied { received := received + [x]; }
        if item.requirement == Blocking {
          total := total + 1;
          if item.satisfied { satisfied := satisfied + 1; } else { missing := missing + [x]; }
        }
        i := i + 1;
      }
      assert rows[..i] == rows;
    }

    /** The counts and lists over the deal's rows, given the deal's booking number or none (which raises):
        complete exactly when no blocking item is missing and there is at least one; missing and received
        list those items and no others, in the query's order. */
    method Build(d: nat, number: Option<string>) returns (q: Option<ChecklistState>)
      requires KnownTypes(items)
      ensures q.Some? <==> number.Some?
      ensures q.Some? ==>
        && Some(q.value.bookingNumber) == number
        && (q.value.isComplete <==> Complete(items, d))
        && (q.value.isComplete <==>
              && (exists x: DocType :: (d, x) in items && items[(d, x)].requirement == Blocking)
              && (forall x: DocType | (d, x) in items && items[(d, x)].requirement == Blocking ::
                    items[(d, x)].satisfied))
        && q.value.blockingMissing == Rows.Filter(Listing(items, d), Missing(items, d))
        && q.value.received == Rows.Filter(Listing(items, d), Received(items, d))
        && (forall x :: x in q.value.blockingMissing <==>
              (d, x) in items && items[(d, x)].requirement == Blocking && !items[(d, x)].satisfied)
        && (forall x :: x in q.value.received <==> (d, x) in items && items[(d, x)].satisfied)
        && q.value.blockingTotal == |Listed(items, d, Blocking, 15)|
           == q.value.blockingSatisfied + |q.value.blockingMissing|
    {
      if number.None? { return None; }
      var total, satisfied, missing, received := CountRows(d);
      BuildMeans(items, d, total, missing, received);
      q := Some(ChecklistState(number.value, total, satisfied, missing, received, total > 0 && satisfied == total));
    }
  }
}
