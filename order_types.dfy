/**
  The order records the remote API delivers (`Order`, `OrderItem`) and the
  eight-valued order status enumeration.

  `status`, `payment_method` and `shipping_method` arrive as JSON strings and
  every consumer compares or prints them as strings, so the records keep the
  raw string; `Status` enumerates the values the API documents. Optional
  strings that are only ever tested for truthiness are plain strings, with the
  empty string standing for an absent field.
*/
module OrderTypes {
  import opened Wrappers

  datatype Status =
    | New | Preparing | OutForDelivery | Completed
    | Canceled | PendingPayment | Paid | Failed
  {
    /** The wire spelling of the status. */
    function Name(): string
    {
      match this
      case New => "new"
      case Preparing => "preparing"
      case OutForDelivery => "out_for_delivery"
      case Completed => "completed"
      case Canceled => "canceled"
      case PendingPayment => "pending_payment"
      case Paid => "paid"
      case Failed => "failed"
    }
  }

  /** `s` is the wire spelling of one of the eight statuses. */
  predicate IsStatusName(s: string)
  {
    exists st: Status :: st.Name() == s
  }

  /** The status a wire string denotes, if any. */
  function ParseStatus(s: string): (r: Option<Status>)
    ensures r.Some? ==> r.value.Name() == s
    ensures r.None? <==> !IsStatusName(s)
  {
    match s
    case "new" => Some(New)
    case "preparing" => Some(Preparing)
    case "out_for_delivery" => Some(OutForDelivery)
    case "completed" => Some(Completed)
    case "canceled" => Some(Canceled)
    case "pending_payment" => Some(PendingPayment)
    case "paid" => Some(Paid)
    case "failed" => Some(Failed)
    case _ => None
  }

  /** Parsing inverts naming. */
  lemma ParseName(st: Status)
    ensures ParseStatus(st.Name()) == Some(st)
  {
  }

  /** One chosen sub-item of a choice group (`{ name }`). */
  datatype SubItem = SubItem(name: string)

  /** A named choice group and the sub-items chosen in it. */
  datatype Choice = Choice(group: string, items: seq<SubItem>)

  /** `OrderItem.options`; absent `choices` is the empty list, absent `note` the empty string. */
  datatype ItemOptions = ItemOptions(choices: seq<Choice>, note: string)

  datatype OrderItem = OrderItem(
    name: string,
    qty: int,
    unitPrice: real,
    total: real,
    options: Option<ItemOptions>)
  {
    /** The item's choice groups, empty when it has no options. */
    function Choices(): seq<Choice>
    {
      if options.Some? then options.value.choices else []
    }

    /** The item's note, empty when it has no options. */
    function Note(): string
    {
      if options.Some? then options.value.note else ""
    }
  }

  datatype DeliveryZone = DeliveryZone(nameHe: string, nameAr: string)

  datatype Order = Order(
    id: int,
    customerName: string,
    customerPhone: string,
    customerAddress: string,
    shippingMethod: string,
    deliveryZone: Option<DeliveryZone>,
    subtotal: real,
    deliveryFee: real,
    total: real,
    status: string,
    paymentMethod: string,
    notes: string,
    createdAt: string,
    items: seq<OrderItem>)
}
