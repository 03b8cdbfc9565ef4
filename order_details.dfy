/**
  The order details dialog: the table of status changes it offers for an
  order, and when a status change request is made and counted as done.

  The PUT request itself, its timing and logging, and the toasts are not part
  of this model: the request's outcome is a `StatusReply` parameter.
*/
module OrderDetails {
  import opened OrderTypes

  /** How a button is drawn: the cancel action is destructive. */
  datatype Variant = Default | Destructive

  /** One offered change: the target status (its wire string), the button caption and its look. */
  datatype StatusOption = StatusOption(value: string, caption: string, variant: Variant)

  /** `getNextStatusOptions`: the buttons offered for an order in the given status. */
  function NextStatusOptions(current: string): seq<StatusOption>
  {
    match current
    case "new" =>
      [StatusOption("preparing", "בהכנה", Default), StatusOption("canceled", "בטל", Destructive)]
    case "preparing" =>
      [StatusOption("completed", "הושלמה", Default), StatusOption("canceled", "בטל", Destructive)]
    case "out_for_delivery" =>
      [StatusOption("completed", "סמן כהושלם", Default)]
    case _ => []
  }

  /** The target statuses offered from `current`, in button order. */
  function Targets(current: string): seq<string>
  {
    var options := NextStatusOptions(current);
    seq(|options|, k requires 0 <= k < |options| => options[k].value)
  }

  /** The table, status by status. */
  lemma TargetTable(current: string)
    ensures current == New.Name() ==> Targets(current) == [Preparing.Name(), Canceled.Name()]
    ensures current == Preparing.Name() ==> Targets(current) == [Completed.Name(), Canceled.Name()]
    ensures current == OutForDelivery.Name() ==> Targets(current) == [Completed.Name()]
    ensures current != New.Name() && current != Preparing.Name() && current != OutForDelivery.Name() ==>
      Targets(current) == []
  {
  }

  /** Every offered target is a documented status, and "new" is never one. */
  lemma TargetsAreStatuses(current: string)
    ensures forall t :: t in Targets(current) ==> IsStatusName(t) && t != New.Name()
  {
    assert Preparing.Name() == "preparing";
    assert Completed.Name() == "completed";
    assert Canceled.Name() == "canceled";
  }

  /** A status offers changes exactly when it is new, preparing or out for delivery. */
  lemma OffersIff(st: Status)
    ensures NextStatusOptions(st.Name()) != [] <==> st == New || st == Preparing || st == OutForDelivery
  {
  }

  /** The destructive look marks exactly the cancel action. */
  lemma DestructiveIffCancel(current: string, option: StatusOption)
    requires option in NextStatusOptions(current)
    ensures option.variant == Destructive <==> option.value == Canceled.Name()
  {
  }

  /** Following offered changes reaches, within two steps, a status that offers nothing. */
  lemma ChangesEndWithinTwoSteps(current: string, next: string, after: string)
    requires next in Targets(current) && after in Targets(next)
    ensures Targets(after) == []
  {
    TargetTable(current);
    TargetTable(next);
    TargetTable(after);
  }

  /** How the status request ended. */
  datatype StatusReply =
    | NotOk(status: int)          // a response that is not OK
    | Unreachable                 // the request itself failed
    | Unreadable                  // an OK response whose body is not JSON
    | Replied(success: bool)      // an OK response with a JSON body

  /** What `handleStatusChange` did. */
  datatype StatusChange =
    | NoRequest        // no token or no API URL: nothing is sent
    | Errored          // the request failed: an error toast
    | Unconfirmed      // an OK reply without `success`: nothing more happens
    | Updated          // success: the list is refreshed, then the dialog closes

  /**
    `handleStatusChange`. `token` and `apiUrl` are the stored values (the
    empty string when absent); `reply` is how the request ended when it is made.
  */
  function HandleStatusChange(token: string, apiUrl: string, reply: StatusReply): (r: StatusChange)
    ensures r == NoRequest <==> token == "" || apiUrl == ""
    ensures r == Updated <==> token != "" && apiUrl != "" && reply == Replied(true)
    ensures r == Errored <==> token != "" && apiUrl != "" && !reply.Replied?
  {
    if token == "" || apiUrl == "" then NoRequest
    else
      match reply
      case NotOk(_) => Errored
      case Unreachable => Errored
      case Unreadable => Errored
      case Replied(success) => if success then Updated else Unconfirmed
  }
}
