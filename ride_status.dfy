/** src/components/RideStatus.tsx: how the rider's card presents a request,
    namely its status colour and text and whether a cancel button is offered. */
module RideStatus {
  import opened Common
  import opened RideRecords
  import opened UseRideRequest

  const Orange := "#ff9800"
  const Blue := "#2196F3"
  const Green := "#4CAF50"
  const Red := "#f44336"
  const Grey := "#666"
  const UnknownStatus := "Unknown status"

  /** `getStatusColor` */
  function StatusColor(status: string): string {
    match status
    case "pending" => Orange
    case "accepted" => Blue
    case "on_way" => Green
    case "arrived" => Green
    case "completed" => Green
    case "cancelled" => Red
    case _ => Grey
  }

  /** `getStatusText` */
  function StatusText(status: string): string {
    match status
    case "pending" => "Looking for available cart..."
    case "accepted" => "Cart assigned! Getting ready..."
    case "on_way" => "Your cart is on the way!"
    case "arrived" => "Your cart has arrived!"
    case "completed" => "Ride completed. Thank you!"
    case "cancelled" => "Ride was cancelled."
    case _ => UnknownStatus
  }

  /** The colour groups: waiting is orange, assigned is blue, cancelled is red,
      the three stages from departure on share green, and a status outside the
      six is grey. */
  lemma StatusColorGroups(status: string)
    ensures StatusColor(status) == Orange <==> ParseStatus(status) == Some(Pending)
    ensures StatusColor(status) == Blue <==> ParseStatus(status) == Some(Accepted)
    ensures StatusColor(status) == Red <==> ParseStatus(status) == Some(Cancelled)
    ensures StatusColor(status) == Green <==> ParseStatus(status) in {Some(OnWay), Some(Arrived), Some(Completed)}
    ensures StatusColor(status) == Grey <==> ParseStatus(status).None?
  {
  }

  /** The card's text is the hook's status message for the six statuses, and
      'Unknown status' (where the hook's message is '') for any other. */
  lemma StatusTextIsStatusMessage(r: RideRequest)
    ensures ParseStatus(r.status).Some? ==> StatusText(r.status) == StatusMessage(Some(r))
    ensures ParseStatus(r.status).None? ==> StatusText(r.status) == UnknownStatus && StatusMessage(Some(r)) == ""
  {
  }

  /** What the card shows. */
  datatype Card = Card(color: string, text: string, cancelButton: bool, cancelEnabled: bool)

  /** The card for a request: nothing without one; the cancel button only
      for a pending request when a cancel handler is given, disabled while
      loading. */
  function Render(request: Option<RideRequest>, hasOnCancel: bool, loading: bool): (card: Option<Card>)
    ensures card.None? <==> request.None?
    ensures card.Some? ==>
              && card.value.color == StatusColor(request.value.status)
              && card.value.text == StatusText(request.value.status)
              && (card.value.cancelButton <==> ParseStatus(request.value.status) == Some(Pending) && hasOnCancel)
              && (card.value.cancelEnabled <==> !loading)
  {
    if request.None? then None
    else
      var status := request.value.status;
      Some(Card(StatusColor(status), StatusText(status), status == "pending" && hasOnCancel, !loading))
  }

  /** A request the card offers to cancel is one the hook counts as active. */
  lemma CancelOnlyWhenActive(request: Option<RideRequest>, hasOnCancel: bool, loading: bool)
    ensures var card := Render(request, hasOnCancel, loading);
            card.Some? && card.value.cancelButton ==> HasActiveRequest(request)
  {
  }
}
