/**
  The receipt as `formatReceipt` builds it: one string, extended left to
  right, one piece (or one unconditional run of pieces) at a time. Each
  function here takes the string built so far and returns it extended by
  one section of the receipt; `StepsMatchLayout` shows that the result is
  the flattened layout of `Receipt`, whatever the rendering of a piece.
*/
module ReceiptSteps {
  import opened OrderTypes
  import opened Receipt

  /** The banner pieces printed before the optional customer lines. */
  function BannerRun(o: Order): seq<Piece>
  {
    [Init, AlignCenter, ModeDouble, Banner, OrderNumber(o.id), BannerClose,
     AlignLeft, ModeNormal, CustomerLine(o.customerName)]
  }

  const ItemsTitleRun: seq<Piece> := [BlankLine, Rule, ItemsTitle, Rule]
  const ClosingRun: seq<Piece> := [BlankLine, AlignCenter, Thanks, Cut]

  function SubtotalRun(o: Order): seq<Piece>
  {
    [Rule, ModeLarge, SubtotalLine(o.subtotal)]
  }

  function TotalRun(o: Order): seq<Piece>
  {
    [ModeDouble, TotalLine(o.total), ModeNormal, RuleClose]
  }

  function NotesRun(o: Order): seq<Piece>
  {
    [NotesTitle, NotesText(o.notes)]
  }

  function HeadSteps(o: Order, render: Piece -> string): string
  {
    var r := Flatten(BannerRun(o), render);
    var r := if o.customerPhone != "" then r + render(PhoneLine(o.customerPhone)) else r;
    var r := if o.customerAddress != "" then r + render(AddressLine(o.customerAddress)) else r;
    r + Flatten(ItemsTitleRun, render)
  }

  function SubItemsSteps(r: string, subs: seq<SubItem>, render: Piece -> string): string
  {
    if subs == [] then r
    else SubItemsSteps(r, subs[..|subs| - 1], render) + render(ChoiceItem(subs[|subs| - 1].name))
  }

  function ChoicesSteps(r: string, cs: seq<Choice>, render: Piece -> string): string
  {
    if cs == [] then r
    else
      var c := cs[|cs| - 1];
      SubItemsSteps(ChoicesSteps(r, cs[..|cs| - 1], render) + render(ChoiceGroup(c.group)), c.items, render)
  }

  function ItemSteps(r: string, item: OrderItem, render: Piece -> string): string
  {
    var r := ChoicesSteps(r + render(ItemHeader(item.qty, item.name)), item.Choices(), render);
    var r := if item.Note() != "" then r + render(ItemNote(item.Note())) else r;
    r + render(ItemTotal(item.total))
  }

  function ItemsSteps(r: string, items: seq<OrderItem>, render: Piece -> string): string
  {
    if items == [] then r
    else ItemSteps(ItemsSteps(r, items[..|items| - 1], render), items[|items| - 1], render)
  }

  function TotalsSteps(r: string, o: Order, render: Piece -> string): string
  {
    var r := r + Flatten(SubtotalRun(o), render);
    var r := if o.deliveryFee > 0.0 then r + render(DeliveryFeeLine(o.deliveryFee)) else r;
    r + Flatten(TotalRun(o), render)
  }

  function ExtrasSteps(r: string, o: Order, render: Piece -> string): string
  {
    var r := if o.notes != "" then r + Flatten(NotesRun(o), render) else r;
    var r := if o.paymentMethod != "" then r + render(PaymentLine(o.paymentMethod)) else r;
    var r := if o.shippingMethod != "" then r + render(ShippingLine(o.shippingMethod)) else r;
    r + Flatten(ClosingRun, render)
  }

  /** The whole receipt, section after section. */
  function Steps(o: Order, render: Piece -> string): string
  {
    ExtrasSteps(TotalsSteps(ItemsSteps(HeadSteps(o, render), o.items, render), o, render), o, render)
  }

  lemma Assoc(a: string, b: string, c: string)
    ensures a + b + c == a + (b + c)
  {
  }

  /** An optional single piece flattens to its rendering or to nothing. */
  lemma FlattenOptional(c: bool, p: Piece, render: Piece -> string)
    ensures Flatten(if c then [p] else [], render) == if c then render(p) else ""
  {
    if c {
      FlattenSingle(p, render);
    }
  }

  lemma {:induction false} SubItemsStepsFlatten(r: string, subs: seq<SubItem>, render: Piece -> string)
    ensures SubItemsSteps(r, subs, render) == r + Flatten(SubItemsLayout(subs), render)
  {
    if subs != [] {
      var init, p := subs[..|subs| - 1], ChoiceItem(subs[|subs| - 1].name);
      SubItemsStepsFlatten(r, init, render);
      FlattenSnoc(SubItemsLayout(init), p, render);
      Assoc(r, Flatten(SubItemsLayout(init), render), render(p));
    }
  }

  lemma {:induction false} ChoicesStepsFlatten(r: string, cs: seq<Choice>, render: Piece -> string)
    ensures ChoicesSteps(r, cs, render) == r + Flatten(ChoicesLayout(cs), render)
  {
    if cs != [] {
      var init, c := cs[..|cs| - 1], cs[|cs| - 1];
      var fi := Flatten(ChoicesLayout(init), render);
      var g := render(ChoiceGroup(c.group));
      var fs := Flatten(SubItemsLayout(c.items), render);
      ChoicesStepsFlatten(r, init, render);
      SubItemsStepsFlatten(ChoicesSteps(r, init, render) + g, c.items, render);
      FlattenSingle(ChoiceGroup(c.group), render);
      FlattenConcat([ChoiceGroup(c.group)], SubItemsLayout(c.items), render);
      FlattenConcat(ChoicesLayout(init), ChoiceLayout(c), render);
      Assoc(r, fi, g);
      Assoc(r, fi + g, fs);
      Assoc(fi, g, fs);
    }
  }

  /** The text of an item's optional note line. */
  function NoteText(item: OrderItem, render: Piece -> string): string
  {
    if item.Note() != "" then render(ItemNote(item.Note())) else ""
  }

  lemma ItemStepsParts(r: string, item: OrderItem, render: Piece -> string)
    ensures ItemSteps(r, item, render)
         == r + render(ItemHeader(item.qty, item.name)) + Flatten(ChoicesLayout(item.Choices()), render)
            + NoteText(item, render) + render(ItemTotal(item.total))
  {
    ChoicesStepsFlatten(r + render(ItemHeader(item.qty, item.name)), item.Choices(), render);
  }

  lemma ItemLayoutParts(item: OrderItem, render: Piece -> string)
    ensures Flatten(ItemLayout(item), render)
         == render(ItemHeader(item.qty, item.name)) + Flatten(ChoicesLayout(item.Choices()), render)
            + NoteText(item, render) + render(ItemTotal(item.total))
  {
    var h, t := [ItemHeader(item.qty, item.name)], [ItemTotal(item.total)];
    var n := if item.Note() != "" then [ItemNote(item.Note())] else [];
    var cl := ChoicesLayout(item.Choices());
    FlattenSingle(h[0], render);
    FlattenSingle(t[0], render);
    FlattenOptional(item.Note() != "", ItemNote(item.Note()), render);
    FlattenConcat(h + cl + n, t, render);
    FlattenConcat(h + cl, n, render);
    FlattenConcat(h, cl, render);
  }

  lemma ItemStepsFlatten(r: string, item: OrderItem, render: Piece -> string)
    ensures ItemSteps(r, item, render) == r + Flatten(ItemLayout(item), render)
  {
    var hs, fcl := render(ItemHeader(item.qty, item.name)), Flatten(ChoicesLayout(item.Choices()), render);
    var ns, ts := NoteText(item, render), render(ItemTotal(item.total));
    ItemStepsParts(r, item, render);
    ItemLayoutParts(item, render);
    Assoc(r, hs, fcl);
    Assoc(r, hs + fcl, ns);
    Assoc(r, hs + fcl + ns, ts);
  }

  lemma {:induction false} ItemsStepsFlatten(r: string, items: seq<OrderItem>, render: Piece -> string)
    ensures ItemsSteps(r, items, render) == r + Flatten(ItemsLayout(items), render)
  {
    if items != [] {
      var init, last := items[..|items| - 1], items[|items| - 1];
      ItemsStepsFlatten(r, init, render);
      ItemStepsFlatten(ItemsSteps(r, init, render), last, render);
      FlattenConcat(ItemsLayout(init), ItemLayout(last), render);
      Assoc(r, Flatten(ItemsLayout(init), render), Flatten(ItemLayout(last), render));
    }
  }

  lemma HeadStepsFlatten(o: Order, render: Piece -> string)
    ensures HeadSteps(o, render) == Flatten(Head(o), render)
  {
    var o1 := if o.customerPhone != "" then [PhoneLine(o.customerPhone)] else [];
    var o2 := if o.customerAddress != "" then [AddressLine(o.customerAddress)] else [];
    FlattenOptional(o.customerPhone != "", PhoneLine(o.customerPhone), render);
    FlattenOptional(o.customerAddress != "", AddressLine(o.customerAddress), render);
    assert Head(o) == BannerRun(o) + o1 + o2 + ItemsTitleRun;
    FlattenConcat(BannerRun(o) + o1 + o2, ItemsTitleRun, render);
    FlattenConcat(BannerRun(o) + o1, o2, render);
    FlattenConcat(BannerRun(o), o1, render);
  }

  lemma TotalsStepsFlatten(r: string, o: Order, render: Piece -> string)
    ensures TotalsSteps(r, o, render) == r + Flatten(Totals(o), render)
  {
    var f := if o.deliveryFee > 0.0 then [DeliveryFeeLine(o.deliveryFee)] else [];
    var a, b, c := Flatten(SubtotalRun(o), render), Flatten(f, render), Flatten(TotalRun(o), render);
    FlattenOptional(o.deliveryFee > 0.0, DeliveryFeeLine(o.deliveryFee), render);
    assert Totals(o) == SubtotalRun(o) + f + TotalRun(o);
    FlattenConcat(SubtotalRun(o) + f, TotalRun(o), render);
    FlattenConcat(SubtotalRun(o), f, render);
    Assoc(r, a, b);
    Assoc(r, a + b, c);
  }

  lemma ExtrasStepsFlatten(r: string, o: Order, render: Piece -> string)
    ensures ExtrasSteps(r, o, render) == r + Flatten(Extras(o), render)
  {
    var n := if o.notes != "" then NotesRun(o) else [];
    var p := if o.paymentMethod != "" then [PaymentLine(o.paymentMethod)] else [];
    var s := if o.shippingMethod != "" then [ShippingLine(o.shippingMethod)] else [];
    var a, b, c, d := Flatten(n, render), Flatten(p, render), Flatten(s, render), Flatten(ClosingRun, render);
    assert o.notes == "" ==> a == "";
    FlattenOptional(o.paymentMethod != "", PaymentLine(o.paymentMethod), render);
    FlattenOptional(o.shippingMethod != "", ShippingLine(o.shippingMethod), render);
    assert Extras(o) == n + p + s + ClosingRun;
    FlattenConcat(n + p + s, ClosingRun, render);
    FlattenConcat(n + p, s, render);
    FlattenConcat(n, p, render);
    Assoc(r, a, b);
    Assoc(r, a + b, c);
    Assoc(r, a + b + c, d);
  }

  /** Building the receipt step by step yields the flattened layout. */
  lemma StepsMatchLayout(o: Order, render: Piece -> string)
    ensures Steps(o, render) == Flatten(Layout(o), render)
  {
    var h, i, t, e := Flatten(Head(o), render), Flatten(ItemsLayout(o.items), render),
      Flatten(Totals(o), render), Flatten(Extras(o), render);
    HeadStepsFlatten(o, render);
    ItemsStepsFlatten(HeadSteps(o, render), o.items, render);
    TotalsStepsFlatten(h + i, o, render);
    ExtrasStepsFlatten(h + i + t, o, render);
    FlattenConcat(Head(o) + ItemsLayout(o.items), Tail(o), render);
    FlattenConcat(Head(o), ItemsLayout(o.items), render);
    FlattenConcat(Totals(o), Extras(o), render);
    Assoc(h + i, t, e);
  }
}
