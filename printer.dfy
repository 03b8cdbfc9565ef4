/**
  `ThermalPrinterService`: the one-field printer session (the connected
  Bluetooth device, if any) and the operations that read and update it.

  The Bluetooth LE plugin (initialise, device picker, connect, disconnect,
  write) is not part of this model: each call's outcome is a parameter of
  the operation that makes it.
*/
module Printer {
  import opened Wrappers
  import opened OrderTypes
  import opened Receipt
  import opened ReceiptSteps

  /** A Bluetooth device as the plugin reports it; an absent name is the empty string. */
  datatype BleDevice = BleDevice(deviceId: string, name: string)

  /** How one call into the Bluetooth plugin ended. */
  datatype Link = LinkOk | LinkFailed

  /** The errors the service throws. */
  datatype PrinterError =
    | BluetoothUnavailable   // initialize: the plugin could not start
    | ConnectFailed          // connectToPrinter: any step failed
    | NotConnected           // printReceipt / sendCommand without a device
    | SendFailed             // sendCommand: the write failed

  class ThermalPrinterService {
    /** The connected printer, if any. */
    var device: Option<BleDevice>

    constructor ()
      ensures device == None
    {
      device := None;
    }

    /** There is a session exactly when a device is held. */
    function IsConnected(): (connected: bool)
      reads this
      ensures connected <==> device.Some?
    {
      device != None
    }

    /** The connected printer's name; none without a device or when the device has no name. */
    function PrinterName(): (name: Option<string>)
      reads this
      ensures device.None? ==> name.None?
      ensures name.Some? ==> device.Some? && name.value == device.value.name && name.value != ""
      ensures device.Some? && device.value.name != "" ==> name.Some?
    {
      if device.Some? && device.value.name != "" then Some(device.value.name) else None
    }

    /** Starting the Bluetooth stack fails only when the plugin does; the session is untouched. */
    method Initialize(init: Link) returns (r: Outcome<PrinterError>)
      ensures r.Pass? <==> init == LinkOk
      ensures r.Fail? ==> r.error == BluetoothUnavailable
    {
      if init == LinkOk {
        r := Pass;
      } else {
        r := Fail(BluetoothUnavailable);
      }
    }

    /**
      Initialise the plugin, let the user pick a device, connect to it, and
      only then remember it: `init`, `picked` (None when the picker fails or
      is dismissed) and `connect` are the outcomes of those three plugin calls.
    */
    method ConnectToPrinter(init: Link, picked: Option<BleDevice>, connect: Link)
      returns (r: Outcome<PrinterError>)
      modifies this
      ensures r.Pass? <==> init == LinkOk && picked.Some? && connect == LinkOk
      ensures r.Pass? ==> device == picked
      ensures r.Fail? ==> r.error == ConnectFailed && device == old(device)
    {
      if init == LinkFailed || picked.None? {
        return Fail(ConnectFailed);
      }
      if connect == LinkFailed {
        return Fail(ConnectFailed);
      }
      device := picked;
      r := Pass;
    }

    /**
      Drop the session. Without a device nothing happens and the plugin is not
      called; otherwise `link` is the outcome of the plugin's disconnect: the
      device is forgotten on success and kept on failure (the error is logged
      and swallowed).
    */
    method Disconnect(link: Link)
      modifies this
      ensures old(device).None? ==> device == old(device)
      ensures old(device).Some? && link == LinkOk ==> device.None?
      ensures old(device).Some? && link == LinkFailed ==> device == old(device)
    {
      if device.Some? {
        if link == LinkOk {
          device := None;
        }
      }
    }

    /**
      Hand a command string to the printer. `written` is what reaches the
      plugin's write call (None when nothing does); `write` is that call's
      outcome.
    */
    method SendCommand(command: string, write: Link) returns (written: Option<string>, r: Outcome<PrinterError>)
      ensures device.None? ==> written.None? && r == Fail(NotConnected)
      ensures device.Some? ==> written == Some(command)
      ensures device.Some? ==> (r.Pass? <==> write == LinkOk)
      ensures device.Some? && r.Fail? ==> r.error == SendFailed
    {
      if device.None? {
        return None, Fail(NotConnected);
      }
      written := Some(command);
      if write == LinkOk {
        r := Pass;
      } else {
        r := Fail(SendFailed);
      }
    }

    /**
      Build the receipt string for an order by appending to it section after
      section, walking the items, their choice groups and the chosen
      sub-items in order. `render` gives the characters each piece appends
      (`Render(show)` on the printer); consecutive unconditional pieces are
      appended as one run.
    */
    method FormatReceipt(order: Order, render: Piece -> string) returns (receipt: string)
      ensures receipt == Flatten(Layout(order), render)
    {
      // initialise, the centred double-size banner, then the customer in normal text
      receipt := Flatten(BannerRun(order), render);
      if order.customerPhone != "" {
        receipt := receipt + render(PhoneLine(order.customerPhone));
      }
      if order.customerAddress != "" {
        receipt := receipt + render(AddressLine(order.customerAddress));
      }
      receipt := receipt + Flatten(ItemsTitleRun, render);
      ghost var head := receipt;
      var items := order.items;
      var i := 0;
      while i < |items|
        invariant 0 <= i <= |items|
        invariant receipt == ItemsSteps(head, items[..i], render)
      {
        receipt := FormatItem(receipt, items[i], render);
        assert items[..i + 1][..i] == items[..i];
        i := i + 1;
      }
      assert items[..i] == items;
      // totals: larger subtotal and fee, double total
      receipt := receipt + Flatten(SubtotalRun(order), render);
      if order.deliveryFee > 0.0 {
        receipt := receipt + render(DeliveryFeeLine(order.deliveryFee));
      }
      receipt := receipt + Flatten(TotalRun(order), render);
      if order.notes != "" {
        receipt := receipt + Flatten(NotesRun(order), render);
      }
      if order.paymentMethod != "" {
        receipt := receipt + render(PaymentLine(order.paymentMethod));
      }
      if order.shippingMethod != "" {
        receipt := receipt + render(ShippingLine(order.shippingMethod));
      }
      // centred thanks, then the cut
      receipt := receipt + Flatten(ClosingRun, render);
      StepsMatchLayout(order, render);
    }

    /** One item: its "qty x name" line, its choice groups with their sub-items, its note if any, and its total. */
    static method FormatItem(receipt: string, item: OrderItem, render: Piece -> string) returns (r: string)
      ensures r == ItemSteps(receipt, item, render)
    {
      r := receipt + render(ItemHeader(item.qty, item.name));
      ghost var headed := r;
      if item.options.Some? && |item.options.value.choices| > 0 {
        var choices := item.options.value.choices;
        var j := 0;
        while j < |choices|
          invariant 0 <= j <= |choices|
          invariant r == ChoicesSteps(headed, choices[..j], render)
        {
          var choice := choices[j];
          r := r + render(ChoiceGroup(choice.group));
          ghost var labelled := r;
          var k := 0;
          while k < |choice.items|
            invariant 0 <= k <= |choice.items|
            invariant r == SubItemsSteps(labelled, choice.items[..k], render)
          {
            r := r + render(ChoiceItem(choice.items[k].name));
            assert choice.items[..k + 1][..k] == choice.items[..k];
            k := k + 1;
          }
          assert choice.items[..k] == choice.items;
          assert choices[..j + 1][..j] == choices[..j];
          j := j + 1;
        }
        assert choices[..j] == choices;
      }
      if item.options.Some? && item.options.value.note != "" {
        r := r + render(ItemNote(item.options.value.note));
      }
      r := r + render(ItemTotal(item.total));
    }

    /**
      Print an order's receipt: refused without a device before anything is
      formatted or written; otherwise the formatted receipt is what reaches
      the plugin's write call, and the print fails exactly when that write
      does, with the send error rethrown.
    */
    method PrintReceipt(order: Order, show: real -> string, write: Link)
      returns (written: Option<string>, r: Outcome<PrinterError>)
      ensures device.None? ==> written.None? && r == Fail(NotConnected)
      ensures device.Some? ==> written == Some(ReceiptText(order, show))
      ensures device.Some? ==> (r.Pass? <==> write == LinkOk)
      ensures device.Some? && r.Fail? ==> r.error == SendFailed
    {
      if device.None? {
        return None, Fail(NotConnected);
      }
      var receipt := FormatReceipt(order, Render(show));
      written, r := SendCommand(receipt, write);
    }
  }
}
