/**
  The orders page: the tab filter, the status badge colour and label, and one
  step of the polling loop that refreshes the list, chimes for brand-new
  orders, auto-prints them and keeps the ledger of printed order ids.

  The HTTP request, its headers and JSON body, the toasts, the audio, the
  ten-second timer and navigation are not part of this model: one poll step
  receives the server's reply as a `Reply` value.
*/
module Orders {
  import opened Wrappers
  import opened OrderTypes
  import Seqs

  // ---------------------------------------------------------------------
  // Tabs, badge colours and labels
  // ---------------------------------------------------------------------

  /** The tab value that shows every order. */
  const AllTab: string := "all"

  /** The test `order.status === status`, as a function value. */
  function WithStatus(status: string): Order -> bool
  {
    (o: Order) => o.status == status
  }

  /** `filterOrders`: the whole list for the "all" tab, otherwise the orders with that status, in order. */
  function FilterOrders(orders: seq<Order>, status: string): (shown: seq<Order>)
    ensures status == AllTab ==> shown == orders
    ensures status != AllTab ==> forall k :: 0 <= k < |shown| ==> shown[k].status == status
    ensures Seqs.IsSubsequence(shown, orders)
    ensures status != AllTab ==>
      forall o :: multiset(shown)[o] == if o.status == status then multiset(orders)[o] else 0
  {
    var keep := WithStatus(status);
    if status == AllTab then
      var everything := (o: Order) => true;
      Seqs.FilterKeepsAll(orders, everything);
      Seqs.FilterIsSubsequence(orders, everything);
      orders
    else
      Seqs.FilterIsSubsequence(orders, keep);
      FilterAllPass(orders, keep);
      Seqs.FilterMultiset(orders, keep);
      Seqs.Filter(orders, keep)
  }

  /** Every element a filter keeps passes its test. */
  lemma FilterAllPass(s: seq<Order>, p: Order -> bool)
    ensures forall k :: 0 <= k < |Seqs.Filter(s, p)| ==> p(Seqs.Filter(s, p)[k])
  {
    Seqs.FilterMembers(s, p);
  }

  /** A tab other than "all" shows exactly the orders with that status. */
  lemma FilterOrdersExact(orders: seq<Order>, status: string)
    requires status != AllTab
    ensures forall o :: o in FilterOrders(orders, status) <==> o in orders && o.status == status
  {
    Seqs.FilterMembers(orders, WithStatus(status));
  }

  /** The badge colour of each documented status. */
  function Colour(st: Status): string
  {
    match st
    case New => "bg-blue-500"
    case PendingPayment => "bg-orange-500"
    case Paid => "bg-green-500"
    case Preparing => "bg-yellow-500"
    case OutForDelivery => "bg-purple-500"
    case Completed => "bg-gray-500"
    case Canceled => "bg-red-500"
    case Failed => "bg-red-600"
  }

  /** The Hebrew label of each documented status. */
  function Label(st: Status): string
  {
    match st
    case New => "חדש"
    case PendingPayment => "ממתין לתשלום"
    case Paid => "שולם"
    case Preparing => "בהכנה"
    case OutForDelivery => "בדרך"
    case Completed => "הושלם"
    case Canceled => "בוטל"
    case Failed => "נכשל"
  }

  /** The colour used for a status string the table does not know. */
  const FallbackColour: string := "bg-gray-500"

  /** `getStatusColor`: the documented statuses have their colour, anything else is grey. */
  function StatusColor(status: string): (colour: string)
    ensures IsStatusName(status) ==> colour == Colour(ParseStatus(status).value)
    ensures !IsStatusName(status) ==> colour == FallbackColour
  {
    match ParseStatus(status)
    case Some(st) => Colour(st)
    case None => FallbackColour
  }

  /** `getStatusLabel`: the documented statuses have their label, anything else is shown as it came. */
  function StatusLabel(status: string): (caption: string)
    ensures IsStatusName(status) ==> caption == Label(ParseStatus(status).value)
    ensures !IsStatusName(status) ==> caption == status
  {
    match ParseStatus(status)
    case Some(st) => Label(st)
    case None => status
  }

  /** The eight documented statuses have eight different colours. */
  lemma ColoursDistinct(a: Status, b: Status)
    requires StatusColor(a.Name()) == StatusColor(b.Name())
    ensures a == b
  {
    ParseName(a);
    ParseName(b);
  }

  /** Grey marks exactly a completed order or a status the table does not know. */
  lemma GreyIffCompletedOrUnknown(status: string)
    ensures StatusColor(status) == FallbackColour <==> status == Completed.Name() || !IsStatusName(status)
  {
    if IsStatusName(status) {
      var st := ParseStatus(status).value;
      assert st.Name() == status;
    }
  }

  /** The eight documented statuses have eight different labels. */
  lemma LabelsDistinct(a: Status, b: Status)
    requires StatusLabel(a.Name()) == StatusLabel(b.Name())
    ensures a == b
  {
    ParseName(a);
    ParseName(b);
  }

  /** A label is never itself a wire status name: every documented status is translated. */
  lemma LabelNeverWireName(status: string)
    ensures !IsStatusName(StatusLabel(status))
  {
    if IsStatusName(status) {
      var st := ParseStatus(status).value;
      var l := Label(st);
      assert ParseStatus(l).None?;
    }
  }

  // ---------------------------------------------------------------------
  // Brand-new orders and auto-printing
  // ---------------------------------------------------------------------

  predicate IsNewOrder(o: Order)
  {
    o.status == New.Name()
  }

  /** The ids of a list of orders, in order. */
  function Ids(orders: seq<Order>): (ids: seq<int>)
    ensures |ids| == |orders|
    ensures forall k :: 0 <= k < |ids| ==> ids[k] == orders[k].id
  {
    if orders == [] then [] else [orders[0].id] + Ids(orders[1..])
  }

  /** The ids of the orders in status "new", in the order the server listed them. */
  function NewOrderIds(orders: seq<Order>): seq<int>
  {
    Ids(Seqs.Filter(orders, IsNewOrder))
  }

  /** An id is remembered exactly when some "new" order in the reply carries it. */
  lemma NewOrderIdsExact(orders: seq<Order>, id: int)
    ensures id in NewOrderIds(orders) <==> exists o :: o in orders && o.status == New.Name() && o.id == id
  {
    var news := Seqs.Filter(orders, IsNewOrder);
    Seqs.FilterMembers(orders, IsNewOrder);
    if id in NewOrderIds(orders) {
      var k :| 0 <= k < |news| && NewOrderIds(orders)[k] == id;
      assert news[k] in news;
    }
    if exists o :: o in orders && o.status == New.Name() && o.id == id {
      var o :| o in orders && o.status == New.Name() && o.id == id;
      assert o in news;
      var k :| 0 <= k < |news| && news[k] == o;
      assert NewOrderIds(orders)[k] == id;
    }
  }

  /** The test `!ids.includes(order.id)`, as a function value. */
  function Unseen(ids: seq<int>): Order -> bool
  {
    (o: Order) => o.id !in ids
  }

  /** The "new" orders of a reply whose id the previous poll did not see. */
  function BrandNew(orders: seq<Order>, lastIds: seq<int>): seq<Order>
  {
    Seqs.Filter(Seqs.Filter(orders, IsNewOrder), Unseen(lastIds))
  }

  /** Brand-new orders are exactly the "new" orders of the reply with an id not seen last time, in reply order. */
  lemma BrandNewExact(orders: seq<Order>, lastIds: seq<int>)
    ensures forall o :: o in BrandNew(orders, lastIds) <==> o in orders && o.status == New.Name() && o.id !in lastIds
    ensures Seqs.IsSubsequence(BrandNew(orders, lastIds), orders)
  {
    var news := Seqs.Filter(orders, IsNewOrder);
    Seqs.FilterMembers(orders, IsNewOrder);
    Seqs.FilterMembers(news, Unseen(lastIds));
    Seqs.FilterFilter(orders, IsNewOrder, Unseen(lastIds));
    Seqs.FilterIsSubsequence(orders, Seqs.Both(IsNewOrder, Unseen(lastIds)));
  }

  /**
    The ids the auto-print pass sends to the printer, in order: each
    brand-new order whose id the pre-poll ledger does not hold.
  */
  function AutoPrintIds(arrivals: seq<Order>, ledger: seq<int>): (ids: seq<int>)
  {
    if arrivals == [] then []
    else
      var o := arrivals[|arrivals| - 1];
      AutoPrintIds(arrivals[..|arrivals| - 1], ledger) + (if o.id in ledger then [] else [o.id])
  }

  /**
    Auto-print prints each arrival whose id is not in the ledger, and only
    those: never an id the ledger already holds, never more than arrived.
  */
  lemma {:induction false} AutoPrintExact(arrivals: seq<Order>, ledger: seq<int>)
    ensures forall id :: id in AutoPrintIds(arrivals, ledger) <==>
      id !in ledger && exists o :: o in arrivals && o.id == id
    ensures |AutoPrintIds(arrivals, ledger)| <= |arrivals|
  {
    if arrivals != [] {
      var init := arrivals[..|arrivals| - 1];
      var o := arrivals[|arrivals| - 1];
      AutoPrintExact(init, ledger);
      assert arrivals == init + [o];
      forall id | id !in ledger && exists o' :: o' in arrivals && o'.id == id
        ensures id in AutoPrintIds(arrivals, ledger)
      {
        var o' :| o' in arrivals && o'.id == id;
        if o' != o {
          assert o' in init;
        }
      }
    }
  }

  /** Arrivals whose ids are all in the ledger print nothing. */
  lemma {:induction false} AutoPrintNothingNew(arrivals: seq<Order>, ledger: seq<int>)
    requires forall o :: o in arrivals ==> o.id in ledger
    ensures AutoPrintIds(arrivals, ledger) == []
  {
    if arrivals != [] {
      var init := arrivals[..|arrivals| - 1];
      assert forall o :: o in init ==> o in arrivals;
      AutoPrintNothingNew(init, ledger);
      assert arrivals[|arrivals| - 1] in arrivals;
    }
  }

  /** With no arrivals nothing is printed. */
  lemma NoArrivalsNoPrint(ledger: seq<int>)
    ensures AutoPrintIds([], ledger) == []
  {
  }

  /**
    The ledger after the auto-print pass, as the page computes it: every
    write is the pre-poll ledger plus the id just printed, so only the last
    write survives.
  */
  function LedgerAfter(pre: seq<int>, arrivals: seq<Order>): (ledger: seq<int>)
    ensures AutoPrintIds(arrivals, pre) == [] ==> ledger == pre
    ensures AutoPrintIds(arrivals, pre) != [] ==>
      exists k :: 0 <= k < |arrivals| && arrivals[k].id !in pre && ledger == pre + [arrivals[k].id]
        && forall j :: k < j < |arrivals| ==> arrivals[j].id in pre
  {
    var printed := AutoPrintIds(arrivals, pre);
    if printed == [] then pre
    else
      LastPrinted(arrivals, pre);
      pre + [printed[|printed| - 1]]
  }

  /** The last id auto-print prints is that of the last arrival the ledger lacks. */
  lemma {:induction false} LastPrinted(arrivals: seq<Order>, pre: seq<int>)
    requires AutoPrintIds(arrivals, pre) != []
    ensures var printed := AutoPrintIds(arrivals, pre);
      exists k :: 0 <= k < |arrivals| && arrivals[k].id !in pre && printed[|printed| - 1] == arrivals[k].id
        && forall j :: k < j < |arrivals| ==> arrivals[j].id in pre
  {
    var last := |arrivals| - 1;
    if arrivals[last].id !in pre {
      assert AutoPrintIds(arrivals, pre)[|AutoPrintIds(arrivals, pre)| - 1] == arrivals[last].id;
    } else {
      var init := arrivals[..last];
      assert AutoPrintIds(arrivals, pre) == AutoPrintIds(init, pre);
      LastPrinted(init, pre);
      var k :| 0 <= k < |init| && init[k].id !in pre
        && AutoPrintIds(init, pre)[|AutoPrintIds(init, pre)| - 1] == init[k].id
        && forall j :: k < j < |init| ==> init[j].id in pre;
      assert arrivals[k] == init[k];
      assert forall j :: k < j < |arrivals| ==> arrivals[j].id in pre by {
        forall j | k < j < |arrivals| ensures arrivals[j].id in pre {
          if j < last {
            assert arrivals[j] == init[j];
          }
        }
      }
    }
  }

  /** An order in status "new" with the given id and otherwise empty fields. */
  function NewOrderWithId(id: int): (o: Order)
    ensures o.id == id && IsNewOrder(o)
  {
    Order(id, "", "", "", "", None, 0.0, 0.0, 0.0, New.Name(), "", "", "", [])
  }

  /**
    As written, two unprinted brand-new orders 1 and 2 are both printed but
    the ledger records only 2; after a reload (which forgets the ids seen
    last) the same reply prints order 1 a second time.
  */
  lemma LedgerLosesEarlierIds()
    ensures var reply := [NewOrderWithId(1), NewOrderWithId(2)];
      var arrivals := BrandNew(reply, []);
      AutoPrintIds(arrivals, []) == [1, 2]
      && LedgerAfter([], arrivals) == [2]
      && AutoPrintIds(BrandNew(reply, []), LedgerAfter([], arrivals)) == [1]
  {
    var reply := [NewOrderWithId(1), NewOrderWithId(2)];
    assert Seqs.Filter(reply, IsNewOrder) == reply by {
      Seqs.FilterKeepsAll(reply, IsNewOrder);
    }
    assert BrandNew(reply, []) == reply by {
      Seqs.FilterKeepsAll(reply, Unseen([]));
    }
    var first := [NewOrderWithId(1)];
    assert reply[..1] == first;
    assert first[..0] == [];
    assert AutoPrintIds(first, []) == [1];
    assert AutoPrintIds(reply, []) == [1, 2];
    assert LedgerAfter([], reply) == [2];
    assert AutoPrintIds(first, [2]) == [1];
    assert AutoPrintIds(reply, [2]) == [1];
  }

  /** The ledger the pass evidently intends: the pre-poll ledger plus every id it printed. */
  function IntendedLedger(pre: seq<int>, arrivals: seq<Order>): (ledger: seq<int>)
    ensures |pre| <= |ledger| && ledger[..|pre|] == pre
    ensures forall id :: id in AutoPrintIds(arrivals, pre) ==> id in ledger
  {
    pre + AutoPrintIds(arrivals, pre)
  }

  /**
    With the intended ledger, whatever ids are remembered as seen, the
    same reply never prints an order a second time.
  */
  lemma IntendedLedgerNoReprint(reply: seq<Order>, pre: seq<int>, lastIds: seq<int>)
    ensures AutoPrintIds(BrandNew(reply, lastIds), IntendedLedger(pre, BrandNew(reply, []))) == []
  {
    var ledger := IntendedLedger(pre, BrandNew(reply, []));
    var again := BrandNew(reply, lastIds);
    BrandNewExact(reply, lastIds);
    BrandNewExact(reply, []);
    AutoPrintExact(BrandNew(reply, []), pre);
    AutoPrintExact(again, ledger);
    forall o | o in again ensures o.id in ledger {
      assert o in BrandNew(reply, []);
    }
    AutoPrintNothingNew(again, ledger);
  }

  // ---------------------------------------------------------------------
  // One poll step
  // ---------------------------------------------------------------------

  /** How the orders request ended, as far as the page distinguishes. */
  datatype Reply =
    | HttpError(status: int)                                // a response that is not OK
    | Unreachable                                            // the request itself failed
    | NotJson                                                // an OK response whose content type is not JSON
    | Body(success: bool, orders: Option<seq<Order>>)        // a JSON body; `orders` is None when it is not an array

  /** The storage keys of the login session, removed on logout. */
  const TokenKey: string := "pos_token"
  const ApiUrlKey: string := "pos_api_url"
  const DeviceNameKey: string := "device_name"

  /** A stored value the page treats as present: the key exists and is not empty. */
  predicate Stored(storage: map<string, string>, key: string)
  {
    key in storage && storage[key] != ""
  }

  /** The poll runs only with both a token and an API URL. */
  predicate HasCredentials(storage: map<string, string>)
  {
    Stored(storage, TokenKey) && Stored(storage, ApiUrlKey)
  }

  /** A reply the page takes in: a JSON body with `success` set and an array of orders. */
  predicate Accepted(reply: Reply)
  {
    reply.Body? && reply.success && reply.orders.Some?
  }

  /** `handleLogout`'s effect on storage. */
  function Logout(storage: map<string, string>): (after: map<string, string>)
    ensures !Stored(after, TokenKey) && !Stored(after, ApiUrlKey) && DeviceNameKey !in after
    ensures forall k :: k in storage && k != TokenKey && k != ApiUrlKey && k != DeviceNameKey ==>
      k in after && after[k] == storage[k]
    ensures forall k :: k in after ==> k in storage
  {
    storage - {TokenKey, ApiUrlKey, DeviceNameKey}
  }

  class OrdersPage {
    /** The orders last received. */
    var orders: seq<Order>
    /** The ids of the "new" orders in the last accepted reply. */
    var lastOrderIds: seq<int>
    /** The ledger of order ids already auto-printed. */
    var printedOrderIds: seq<int>
    /** The ledger as persisted under "printed_order_ids"; None while never written. */
    var savedLedger: Option<seq<int>>
    var soundEnabled: bool
    var autoPrintEnabled: bool
    /** The string-valued storage keys of the session (token, API URL, device name). */
    var storage: map<string, string>

    /**
      A freshly mounted page: no orders, no ids seen, sound on, the ledger and
      the auto-print switch restored from storage (auto-print defaults to on).
    */
    constructor (storage: map<string, string>, savedLedger: Option<seq<int>>, savedAutoPrint: Option<bool>)
      ensures this.storage == storage && this.savedLedger == savedLedger
      ensures orders == [] && lastOrderIds == [] && soundEnabled
      ensures printedOrderIds == (if savedLedger.Some? then savedLedger.value else [])
      ensures autoPrintEnabled == (if savedAutoPrint.Some? then savedAutoPrint.value else true)
    {
      this.storage := storage;
      this.savedLedger := savedLedger;
      orders := [];
      lastOrderIds := [];
      soundEnabled := true;
      printedOrderIds := if savedLedger.Some? then savedLedger.value else [];
      autoPrintEnabled := if savedAutoPrint.Some? then savedAutoPrint.value else true;
    }

    /**
      One poll. Returns the ids handed to the printer, in order, and whether
      the new-order chime sounded.
    */
    method Poll(reply: Reply) returns (printed: seq<int>, chimed: bool)
      modifies this
      ensures soundEnabled == old(soundEnabled) && autoPrintEnabled == old(autoPrintEnabled)
      // without credentials, or with a reply the page does not take in, nothing happens
      ensures !HasCredentials(old(storage)) || (!Accepted(reply) && reply != HttpError(401)) ==>
        unchanged(this) && printed == [] && !chimed
      // 401: the session keys are dropped and nothing else changes
      ensures HasCredentials(old(storage)) && reply == HttpError(401) ==>
        storage == Logout(old(storage))
        && orders == old(orders) && lastOrderIds == old(lastOrderIds)
        && printedOrderIds == old(printedOrderIds) && savedLedger == old(savedLedger)
        && printed == [] && !chimed
      // an accepted reply
      ensures HasCredentials(old(storage)) && Accepted(reply) ==>
        var arrivals := BrandNew(reply.orders.value, old(lastOrderIds));
        orders == reply.orders.value
        && lastOrderIds == NewOrderIds(reply.orders.value)
        && storage == old(storage)
        && chimed == (soundEnabled && arrivals != [])
        && printed == (if autoPrintEnabled then AutoPrintIds(arrivals, old(printedOrderIds)) else [])
        && printedOrderIds == (if autoPrintEnabled then IntendedLedger(old(printedOrderIds), arrivals) else old(printedOrderIds))
        && savedLedger == (if printed == [] then old(savedLedger) else Some(printedOrderIds))
    {
      printed, chimed := [], false;
      if !HasCredentials(storage) {
        return;
      }
      match reply
      case HttpError(status) =>
        if status == 401 {
          storage := Logout(storage);
        }
      case Unreachable =>
      case NotJson =>
      case Body(success, list) =>
        if success && list.Some? {
          var received := list.value;
          var news := Seqs.Filter(received, IsNewOrder);
          var newIds := Ids(news);
          var arrivals := Seqs.Filter(news, Unseen(lastOrderIds));
          if |arrivals| > 0 {
            if soundEnabled {
              chimed := true;
            }
            if autoPrintEnabled {
              printed := AutoPrint(arrivals);
            }
          }
          lastOrderIds := newIds;
          orders := received;
        }
    }

    /**
      The auto-print pass over the brand-new orders: each one whose id the
      pre-poll ledger lacks is printed, and its id is added to the ledger in
      memory and in storage. The page itself sets the ledger to the pre-poll
      ledger plus that one id (`LedgerAfter`); this pass keeps every printed
      id, as `IntendedLedger` says.
    */
    method AutoPrint(arrivals: seq<Order>) returns (printed: seq<int>)
      modifies this
      ensures printed == AutoPrintIds(arrivals, old(printedOrderIds))
      ensures printedOrderIds == IntendedLedger(old(printedOrderIds), arrivals)
      ensures savedLedger == (if printed == [] then old(savedLedger) else Some(printedOrderIds))
      ensures orders == old(orders) && lastOrderIds == old(lastOrderIds) && storage == old(storage)
      ensures soundEnabled == old(soundEnabled) && autoPrintEnabled == old(autoPrintEnabled)
    {
      printed := [];
      var pre := printedOrderIds;
      var i := 0;
      while i < |arrivals|
        invariant 0 <= i <= |arrivals|
        invariant printed == AutoPrintIds(arrivals[..i], pre)
        invariant printedOrderIds == pre + printed
        invariant savedLedger == (if printed == [] then old(savedLedger) else Some(printedOrderIds))
        invariant orders == old(orders) && lastOrderIds == old(lastOrderIds) && storage == old(storage)
        invariant soundEnabled == old(soundEnabled) && autoPrintEnabled == old(autoPrintEnabled)
      {
        assert arrivals[..i + 1][..i] == arrivals[..i];
        var o := arrivals[i];
        if o.id !in pre {
          printed := printed + [o.id];
          printedOrderIds := printedOrderIds + [o.id];
          savedLedger := Some(printedOrderIds);
        }
        i := i + 1;
      }
      assert arrivals[..i] == arrivals;
    }
  }
}
