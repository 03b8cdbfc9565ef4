/**
  The ESC/POS receipt that `ThermalPrinterService.formatReceipt` builds for
  an order, as a layout of tagged pieces: each piece is one `receipt +=` of
  the service and renders to the exact characters that step appends.

  The Epson ESC/POS commands used are `ESC @` (initialise), `ESC a n`
  (justification: 0 left, 1 centre), `ESC ! n` (print mode: 0x00 normal,
  0x10 double height, 0x30 double height and width) and `GS V 0` (full cut).

  JavaScript renders the numbers of an order (id, quantities, amounts) with
  its own number-to-string conversion; that conversion is the parameter
  `show` here.
*/
module Receipt {
  import opened OrderTypes
  import Seqs

  const ESC: char := '\U{1B}'
  const GS: char := '\U{1D}'

  datatype Piece =
    | Init                          // ESC @
    | AlignCenter                   // ESC a 1
    | AlignLeft                     // ESC a 0
    | ModeDouble                    // ESC ! 0x30
    | ModeLarge                     // ESC ! 0x10
    | ModeNormal                    // ESC ! 0x00
    | Banner                        // a rule of '=' signs
    | BannerClose                   // a rule of '=' signs and an empty line
    | OrderNumber(id: int)
    | CustomerLine(name: string)
    | PhoneLine(phone: string)
    | AddressLine(address: string)
    | BlankLine
    | Rule                          // a rule of '-' signs
    | ItemsTitle
    | ItemHeader(qty: int, itemName: string)
    | ChoiceGroup(group: string)
    | ChoiceItem(subName: string)
    | ItemNote(note: string)
    | ItemTotal(itemTotal: real)
    | SubtotalLine(subtotal: real)
    | DeliveryFeeLine(fee: real)
    | TotalLine(total: real)
    | RuleClose                     // a rule of '-' signs and an empty line
    | NotesTitle
    | NotesText(notes: string)
    | PaymentLine(payment: string)
    | ShippingLine(shipping: string)
    | Thanks
    | Cut                           // GS V 0

  const EqualsRule: string := "===================="
  const DashRule: string := "--------------------"
  const Shekel: string := " ש\"ח"

  /** The characters one piece appends to the receipt. */
  function Line(p: Piece, show: real -> string): string
  {
    match p
    case Init => [ESC, '@']
    case AlignCenter => [ESC, 'a', '\U{1}']
    case AlignLeft => [ESC, 'a', '\0']
    case ModeDouble => [ESC, '!', '\U{30}']
    case ModeLarge => [ESC, '!', '\U{10}']
    case ModeNormal => [ESC, '!', '\0']
    case Banner => EqualsRule + "\n"
    case BannerClose => EqualsRule + "\n\n"
    case OrderNumber(id) => "הזמנה #" + show(id as real) + "\n"
    case CustomerLine(name) => "לקוח: " + name + "\n"
    case PhoneLine(phone) => "טלפון: " + phone + "\n"
    case AddressLine(address) => "כתובת: " + address + "\n"
    case BlankLine => "\n"
    case Rule => DashRule + "\n"
    case ItemsTitle => "פריטים:\n"
    case ItemHeader(qty, name) => show(qty as real) + "x " + name + "\n"
    case ChoiceGroup(group) => "  " + group + ":\n"
    case ChoiceItem(name) => "    + " + name + "\n"
    case ItemNote(note) => "  הערה: " + note + "\n"
    case ItemTotal(total) => "  " + show(total) + Shekel + "\n\n"
    case SubtotalLine(subtotal) => "סכום ביניים: " + show(subtotal) + Shekel + "\n"
    case DeliveryFeeLine(fee) => "דמי משלוח: " + show(fee) + Shekel + "\n"
    case TotalLine(total) => "סה\"כ: " + show(total) + Shekel + "\n"
    case RuleClose => DashRule + "\n\n"
    case NotesTitle => "הערות:\n"
    case NotesText(notes) => notes + "\n\n"
    case PaymentLine(payment) => "אמצעי תשלום: " + payment + "\n"
    case ShippingLine(shipping) => "אופן משלוח: " + shipping + "\n"
    case Thanks => "תודה רבה!\n\n\n"
    case Cut => [GS, 'V', '\0']
  }

  /** The string a layout prints as: the characters `render` gives each piece, in order. */
  function Flatten(ps: seq<Piece>, render: Piece -> string): string
  {
    if ps == [] then "" else Flatten(ps[..|ps| - 1], render) + render(ps[|ps| - 1])
  }

  lemma {:induction false} FlattenConcat(a: seq<Piece>, b: seq<Piece>, render: Piece -> string)
    ensures Flatten(a + b, render) == Flatten(a, render) + Flatten(b, render)
  {
    if b == [] {
      assert a + b == a;
    } else {
      var b' := b[..|b| - 1];
      assert (a + b)[..|a + b| - 1] == a + b';
      FlattenConcat(a, b', render);
    }
  }

  /** The printer's rendering of pieces for a given number-to-string conversion. */
  function Render(show: real -> string): Piece -> string
  {
    p => Line(p, show)
  }

  /** Initialisation, the centred order banner and the customer block. */
  function Head(o: Order): seq<Piece>
  {
    [Init, AlignCenter, ModeDouble, Banner, OrderNumber(o.id), BannerClose,
     AlignLeft, ModeNormal, CustomerLine(o.customerName)]
    + (if o.customerPhone != "" then [PhoneLine(o.customerPhone)] else [])
    + (if o.customerAddress != "" then [AddressLine(o.customerAddress)] else [])
    + [BlankLine, Rule, ItemsTitle, Rule]
  }

  /** One line per chosen sub-item, in order. */
  function SubItemsLayout(subs: seq<SubItem>): seq<Piece>
  {
    if subs == [] then []
    else SubItemsLayout(subs[..|subs| - 1]) + [ChoiceItem(subs[|subs| - 1].name)]
  }

  /** A choice group's label followed by its sub-items. */
  function ChoiceLayout(c: Choice): seq<Piece>
  {
    [ChoiceGroup(c.group)] + SubItemsLayout(c.items)
  }

  function ChoicesLayout(cs: seq<Choice>): seq<Piece>
  {
    if cs == [] then []
    else ChoicesLayout(cs[..|cs| - 1]) + ChoiceLayout(cs[|cs| - 1])
  }

  /** Quantity and name, the choice groups, the note if any, and the line total. */
  function ItemLayout(item: OrderItem): seq<Piece>
  {
    [ItemHeader(item.qty, item.name)]
    + ChoicesLayout(item.Choices())
    + (if item.Note() != "" then [ItemNote(item.Note())] else [])
    + [ItemTotal(item.total)]
  }

  function ItemsLayout(items: seq<OrderItem>): seq<Piece>
  {
    if items == [] then []
    else ItemsLayout(items[..|items| - 1]) + ItemLayout(items[|items| - 1])
  }

  /** Totals, the optional notes, payment and shipping lines, the thanks and the cut. */
  function Tail(o: Order): seq<Piece>
  {
    Totals(o) + Extras(o)
  }

  /** The subtotal, the delivery fee when positive, and the total. */
  function Totals(o: Order): seq<Piece>
  {
    [Rule, ModeLarge, SubtotalLine(o.subtotal)]
    + (if o.deliveryFee > 0.0 then [DeliveryFeeLine(o.deliveryFee)] else [])
    + [ModeDouble, TotalLine(o.total), ModeNormal, RuleClose]
  }

  /** The notes, payment and shipping lines of the fields that are set, the thanks and the cut. */
  function Extras(o: Order): seq<Piece>
  {
    (if o.notes != "" then [NotesTitle, NotesText(o.notes)] else [])
    + (if o.paymentMethod != "" then [PaymentLine(o.paymentMethod)] else [])
    + (if o.shippingMethod != "" then [ShippingLine(o.shippingMethod)] else [])
    + [BlankLine, AlignCenter, Thanks, Cut]
  }

  /** The receipt of an order, piece by piece. */
  function Layout(o: Order): seq<Piece>
  {
    Head(o) + ItemsLayout(o.items) + Tail(o)
  }

  /** The receipt of an order as the string sent to the printer. */
  function ReceiptText(o: Order, show: real -> string): string
  {
    Flatten(Layout(o), Render(show))
  }

  /** Pieces that only the item section produces. */
  predicate IsItemPiece(p: Piece)
  {
    p.ItemHeader? || p.ChoiceGroup? || p.ChoiceItem? || p.ItemNote? || p.ItemTotal?
  }

  lemma {:induction false} SubItemsLayoutPieces(subs: seq<SubItem>)
    ensures forall p :: p in SubItemsLayout(subs) ==> p.ChoiceItem?
  {
    if subs != [] {
      SubItemsLayoutPieces(subs[..|subs| - 1]);
    }
  }

  lemma {:induction false} ChoicesLayoutPieces(cs: seq<Choice>)
    ensures forall p :: p in ChoicesLayout(cs) ==> p.ChoiceGroup? || p.ChoiceItem?
  {
    if cs != [] {
      ChoicesLayoutPieces(cs[..|cs| - 1]);
      SubItemsLayoutPieces(cs[|cs| - 1].items);
    }
  }

  /** The item section holds item pieces only. */
  lemma {:induction false} ItemsLayoutPieces(items: seq<OrderItem>)
    ensures forall p :: p in ItemsLayout(items) ==> IsItemPiece(p)
  {
    if items != [] {
      ItemsLayoutPieces(items[..|items| - 1]);
      ChoicesLayoutPieces(items[|items| - 1].Choices());
    }
  }

  /**
    The receipt opens with the initialise command `ESC @` and closes with the
    full-cut command `GS V 0`.
  */
  lemma InitThenCut(o: Order, show: real -> string)
    ensures |ReceiptText(o, show)| >= 5
    ensures ReceiptText(o, show)[..2] == [ESC, '@']
    ensures ReceiptText(o, show)[|ReceiptText(o, show)| - 3..] == [GS, 'V', '\0']
  {
    var l, render := Layout(o), Render(show);
    LayoutEnds(o);
    var middle := l[1..|l| - 1];
    assert l == [Init] + middle + [Cut];
    FlattenBracketed(Init, middle, Cut, render);
    RenderInitAndCut(show);
    Bracketed([ESC, '@'], Flatten(middle, render), [GS, 'V', '\0']);
  }

  /** The characters of the initialise and cut pieces. */
  lemma RenderInitAndCut(show: real -> string)
    ensures Render(show)(Init) == [ESC, '@']
    ensures Render(show)(Cut) == [GS, 'V', '\0']
  {
  }

  /** A string bracketed by two others starts with the first and ends with the last. */
  lemma Bracketed(a: string, m: string, c: string)
    ensures (a + m + c)[..|a|] == a
    ensures (a + m + c)[|a + m + c| - |c|..] == c
  {
  }

  /** A piece after a layout renders after it. */
  lemma FlattenSnoc(ps: seq<Piece>, p: Piece, render: Piece -> string)
    ensures Flatten(ps + [p], render) == Flatten(ps, render) + render(p)
  {
    assert (ps + [p])[..|ps|] == ps;
  }

  /** A piece in front of a layout renders in front of it. */
  lemma FlattenCons(p: Piece, rest: seq<Piece>, render: Piece -> string)
    ensures Flatten([p] + rest, render) == render(p) + Flatten(rest, render)
  {
    FlattenConcat([p], rest, render);
    FlattenSingle(p, render);
  }

  /** A layout bracketed by two pieces renders as the first piece, the layout, and the last piece. */
  lemma FlattenBracketed(first: Piece, middle: seq<Piece>, last: Piece, render: Piece -> string)
    ensures Flatten([first] + middle + [last], render) == render(first) + Flatten(middle, render) + render(last)
  {
    FlattenSnoc([first] + middle, last, render);
    FlattenCons(first, middle, render);
  }

  /** The layout starts with the initialise piece and ends with the cut. */
  lemma LayoutEnds(o: Order)
    ensures |Layout(o)| >= 2
    ensures Layout(o)[0] == Init
    ensures Layout(o)[|Layout(o)| - 1] == Cut
  {
    var h, t := Head(o), Tail(o);
    assert h[0] == Init;
    assert t[|t| - 1] == Cut by {
      assert Extras(o)[|Extras(o)| - 1] == Cut;
    }
  }

  lemma FlattenSingle(p: Piece, render: Piece -> string)
    ensures Flatten([p], render) == render(p)
  {
    assert [p][..0] == [];
  }

  /** Outside the item section, a piece is in the receipt iff it is in the head or the tail. */
  lemma OutsideItems(o: Order, p: Piece)
    requires !IsItemPiece(p)
    ensures p in Layout(o) <==> p in Head(o) || p in Tail(o)
  {
    ItemsLayoutPieces(o.items);
  }

  /** The receipt lines that print an optional order field. */
  datatype OptionalField = Phone | Address | Notes | Payment | Shipping

  /** The order field an optional line prints (empty when absent). */
  function FieldText(o: Order, f: OptionalField): string
  {
    match f
    case Phone => o.customerPhone
    case Address => o.customerAddress
    case Notes => o.notes
    case Payment => o.paymentMethod
    case Shipping => o.shippingMethod
  }

  /** The line printing that field. */
  function FieldLine(o: Order, f: OptionalField): Piece
  {
    match f
    case Phone => PhoneLine(o.customerPhone)
    case Address => AddressLine(o.customerAddress)
    case Notes => NotesText(o.notes)
    case Payment => PaymentLine(o.paymentMethod)
    case Shipping => ShippingLine(o.shippingMethod)
  }

  /**
    The phone, address, notes, payment and shipping lines each appear exactly
    when the order field is set (non-empty); payment and shipping print the
    raw field value.
  */
  lemma OptionalLine(o: Order, f: OptionalField)
    ensures FieldLine(o, f) in Layout(o) <==> FieldText(o, f) != ""
  {
    OutsideItems(o, FieldLine(o, f));
    match f
    case Phone => HeadPhone(o); NotInTail(o, FieldLine(o, f));
    case Address => HeadAddress(o); NotInTail(o, FieldLine(o, f));
    case Notes => TailNotes(o); NotInHead(o, FieldLine(o, f));
    case Payment => TailPayment(o); NotInHead(o, FieldLine(o, f));
    case Shipping => TailShipping(o); NotInHead(o, FieldLine(o, f));
  }

  lemma HeadPhone(o: Order)
    ensures PhoneLine(o.customerPhone) in Head(o) <==> o.customerPhone != ""
  {
  }

  lemma HeadAddress(o: Order)
    ensures AddressLine(o.customerAddress) in Head(o) <==> o.customerAddress != ""
  {
  }

  lemma TailNotes(o: Order)
    ensures NotesText(o.notes) in Tail(o) <==> o.notes != ""
  {
  }

  lemma TailPayment(o: Order)
    ensures PaymentLine(o.paymentMethod) in Tail(o) <==> o.paymentMethod != ""
  {
  }

  lemma TailShipping(o: Order)
    ensures ShippingLine(o.shippingMethod) in Tail(o) <==> o.shippingMethod != ""
  {
  }

  /** The tail prints no customer line; the head prints no notes, payment or shipping line. */
  lemma NotInTail(o: Order, p: Piece)
    requires p.PhoneLine? || p.AddressLine?
    ensures p !in Tail(o)
  {
  }

  lemma NotInHead(o: Order, p: Piece)
    requires p.NotesText? || p.PaymentLine? || p.ShippingLine?
    ensures p !in Head(o)
  {
  }

  /** The delivery-fee line appears exactly when the fee is positive, and shows that fee. */
  lemma DeliveryFeeLineIffPositive(o: Order)
    ensures DeliveryFeeLine(o.deliveryFee) in Layout(o) <==> o.deliveryFee > 0.0
  {
    OutsideItems(o, DeliveryFeeLine(o.deliveryFee));
  }

  /** Every delivery-fee line of the receipt shows the order's fee. */
  lemma DeliveryFeeLineShowsFee(o: Order)
    ensures forall p :: p in Layout(o) && p.DeliveryFeeLine? ==> p.fee == o.deliveryFee
  {
    forall p | p in Layout(o) && p.DeliveryFeeLine? ensures p.fee == o.deliveryFee {
      OutsideItems(o, p);
    }
  }

  /** The subtotal and total lines are always present. */
  lemma TotalsPresent(o: Order)
    ensures SubtotalLine(o.subtotal) in Layout(o)
    ensures TotalLine(o.total) in Layout(o)
  {
  }

  /** The "{qty}x {name}" lines. */
  predicate IsHeader(p: Piece)
  {
    p.ItemHeader?
  }

  /** The "  {group}:" lines. */
  predicate IsGroup(p: Piece)
  {
    p.ChoiceGroup?
  }

  /** The item-header pieces an item list yields, one per item, in order. */
  function Headers(items: seq<OrderItem>): (r: seq<Piece>)
  {
    if items == [] then []
    else Headers(items[..|items| - 1]) + [ItemHeader(items[|items| - 1].qty, items[|items| - 1].name)]
  }

  /** The k-th header names the k-th item. */
  lemma {:induction false} HeadersAt(items: seq<OrderItem>)
    ensures |Headers(items)| == |items|
    ensures forall k :: 0 <= k < |items| ==> Headers(items)[k] == ItemHeader(items[k].qty, items[k].name)
  {
    if items != [] {
      HeadersAt(items[..|items| - 1]);
    }
  }

  /** The pieces of an item after its header line. */
  function ItemBody(item: OrderItem): seq<Piece>
  {
    ChoicesLayout(item.Choices())
    + (if item.Note() != "" then [ItemNote(item.Note())] else [])
    + [ItemTotal(item.total)]
  }

  lemma ItemBodyPieces(item: OrderItem)
    ensures forall p :: p in ItemBody(item) ==> p.ChoiceGroup? || p.ChoiceItem? || p.ItemNote? || p.ItemTotal?
  {
    ChoicesLayoutPieces(item.Choices());
  }

  lemma ItemHeaderOnly(item: OrderItem)
    ensures Seqs.Filter(ItemLayout(item), IsHeader) == [ItemHeader(item.qty, item.name)]
  {
    assert ItemLayout(item) == [ItemHeader(item.qty, item.name)] + ItemBody(item);
    Seqs.FilterConcat([ItemHeader(item.qty, item.name)], ItemBody(item), IsHeader);
    ItemBodyPieces(item);
    Seqs.FilterDropsAll(ItemBody(item), IsHeader);
  }

  lemma {:induction false} ItemsLayoutHeaders(items: seq<OrderItem>)
    ensures Seqs.Filter(ItemsLayout(items), IsHeader) == Headers(items)
  {
    if items != [] {
      var init, last := items[..|items| - 1], items[|items| - 1];
      ItemsLayoutHeaders(init);
      Seqs.FilterConcat(ItemsLayout(init), ItemLayout(last), IsHeader);
      ItemHeaderOnly(last);
    }
  }

  /**
    Items are printed in order: the "{qty}x {name}" lines of the receipt are
    exactly one per item of the order, in the order of `items`.
  */
  lemma ItemsInOrder(o: Order)
    ensures Seqs.Filter(Layout(o), IsHeader) == Headers(o.items)
  {
    var h, items, t := Head(o), ItemsLayout(o.items), Tail(o);
    Seqs.FilterConcat(h + items, t, IsHeader);
    Seqs.FilterConcat(h, items, IsHeader);
    NoHeadersOutsideItems(o);
    ItemsLayoutHeaders(o.items);
  }

  lemma NoHeadersOutsideItems(o: Order)
    ensures Seqs.Filter(Head(o), IsHeader) == []
    ensures Seqs.Filter(Tail(o), IsHeader) == []
  {
    NoHeadersInHead(o);
    Seqs.FilterConcat(Totals(o), Extras(o), IsHeader);
    NoHeadersInTotals(o);
    NoHeadersInExtras(o);
  }

  lemma NoHeadersInHead(o: Order)
    ensures Seqs.Filter(Head(o), IsHeader) == []
  {
    Seqs.FilterDropsAll(Head(o), IsHeader);
  }

  lemma NoHeadersInTotals(o: Order)
    ensures Seqs.Filter(Totals(o), IsHeader) == []
  {
    Seqs.FilterDropsAll(Totals(o), IsHeader);
  }

  lemma NoHeadersInExtras(o: Order)
    ensures Seqs.Filter(Extras(o), IsHeader) == []
  {
    Seqs.FilterDropsAll(Extras(o), IsHeader);
  }

  /**
    Each item yields its "{qty}x {name}" line first and its total line last,
    with the "  הערה: {note}" line in between exactly when the item has a
    non-empty note.
  */
  lemma ItemShape(item: OrderItem)
    ensures ItemLayout(item)[0] == ItemHeader(item.qty, item.name)
    ensures ItemLayout(item)[|ItemLayout(item)| - 1] == ItemTotal(item.total)
    ensures ItemNote(item.Note()) in ItemLayout(item) <==> item.Note() != ""
  {
    assert ItemLayout(item) == [ItemHeader(item.qty, item.name)] + ItemBody(item);
    ChoicesLayoutPieces(item.Choices());
  }

  /**
    Between an item's header and its total, there is one "  {group}:" line
    per choice group.
  */
  lemma ItemChoiceGroups(item: OrderItem)
    ensures |Seqs.Filter(ItemLayout(item), IsGroup)| == |item.Choices()|
  {
    var cl := ChoicesLayout(item.Choices());
    var noteAndTotal := (if item.Note() != "" then [ItemNote(item.Note())] else []) + [ItemTotal(item.total)];
    assert ItemLayout(item) == [ItemHeader(item.qty, item.name)] + (cl + noteAndTotal);
    Seqs.FilterConcat([ItemHeader(item.qty, item.name)], cl + noteAndTotal, IsGroup);
    Seqs.FilterConcat(cl, noteAndTotal, IsGroup);
    Seqs.FilterDropsAll([ItemHeader(item.qty, item.name)], IsGroup);
    Seqs.FilterDropsAll(noteAndTotal, IsGroup);
    ChoiceGroupCount(item.Choices());
  }

  lemma {:induction false} ChoiceGroupCount(cs: seq<Choice>)
    ensures |Seqs.Filter(ChoicesLayout(cs), IsGroup)| == |cs|
  {
    var isGroup := IsGroup;
    if cs != [] {
      var init, last := cs[..|cs| - 1], cs[|cs| - 1];
      ChoiceGroupCount(init);
      Seqs.FilterConcat(ChoicesLayout(init), ChoiceLayout(last), isGroup);
      Seqs.FilterConcat([ChoiceGroup(last.group)], SubItemsLayout(last.items), isGroup);
      SubItemsLayoutPieces(last.items);
      Seqs.FilterDropsAll(SubItemsLayout(last.items), isGroup);
    }
  }
}
