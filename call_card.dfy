/**
 * components/call-card.tsx: how one wake call is shown. The status picks a badge
 * colour and a capitalised label; the cancel button appears only for a call that is
 * still ahead, still scheduled, and whose list passed a cancel handler.
 */
module CallCard {
  import opened Wrappers
  import opened Text
  import opened Types

  const BlueBadge := "bg-blue-100 text-blue-800 dark:bg-blue-900 dark:text-blue-300"
  const GreenBadge := "bg-green-100 text-green-800 dark:bg-green-900 dark:text-green-300"
  const RedBadge := "bg-red-100 text-red-800 dark:bg-red-900 dark:text-red-300"
  const YellowBadge := "bg-yellow-100 text-yellow-800 dark:bg-yellow-900 dark:text-yellow-300"
  const GrayBadge := "bg-gray-100 text-gray-800 dark:bg-gray-900 dark:text-gray-300"

  /** `getStatusColor`: the badge classes for a status string. */
  function StatusColor(status: string): string {
    match status
    case "scheduled" => BlueBadge
    case "completed" => GreenBadge
    case "failed" => RedBadge
    case "missed" => YellowBadge
    case _ => GrayBadge
  }

  /**
   * Scheduled, completed, failed and missed calls each get a colour of their own;
   * every other status, cancelled included, gets the gray default.
   */
  lemma StatusColors(status: string)
    ensures StatusColor(StatusName(Scheduled)) == BlueBadge
    ensures StatusColor(StatusName(Completed)) == GreenBadge
    ensures StatusColor(StatusName(Failed)) == RedBadge
    ensures StatusColor(StatusName(Missed)) == YellowBadge
    ensures StatusColor(StatusName(Cancelled)) == GrayBadge
    ensures status !in {"scheduled", "completed", "failed", "missed"} ==> StatusColor(status) == GrayBadge
    ensures BlueBadge != GreenBadge && BlueBadge != RedBadge && BlueBadge != YellowBadge && BlueBadge != GrayBadge
    ensures GreenBadge != RedBadge && GreenBadge != YellowBadge && GreenBadge != GrayBadge
    ensures RedBadge != YellowBadge && RedBadge != GrayBadge && YellowBadge != GrayBadge
  {
    // the colour names have different lengths, except blue and gray, which differ in the last colour name
    assert |BlueBadge| == |GrayBadge| == 61 && |GreenBadge| == 65;
    assert |RedBadge| == 57 && |YellowBadge| == 69;
    assert BlueBadge[53] == 'b' && GrayBadge[53] == 'g';
    assert StatusName(Cancelled)[1] == 'a';
  }

  /** The badge text: `status.charAt(0).toUpperCase() + status.slice(1)`. */
  function StatusLabel(status: string): string {
    if status == [] then "" else [ToUpperChar(status[0])] + status[1..]
  }

  /** The label keeps the status and only upper-cases its first letter. */
  lemma StatusLabelSpec(status: string)
    ensures |StatusLabel(status)| == |status|
    ensures status != [] ==> StatusLabel(status)[0] == ToUpperChar(status[0])
    ensures forall i :: 0 < i < |status| ==> StatusLabel(status)[i] == status[i]
    ensures ToLower(StatusLabel(status)) == ToLower(status)
  {
    if status != [] {
      var badge := StatusLabel(status);
      assert ToLower(badge)[0] == ToLower(status)[0];
      forall i | 0 < i < |status| ensures ToLower(badge)[i] == ToLower(status)[i] {
        assert badge[i] == status[i];
      }
    }
  }

  /** The five badges as the user sees them. */
  lemma StatusLabels(s: Status)
    ensures StatusLabel(StatusName(s)) ==
      match s
      case Scheduled => "Scheduled"
      case Completed => "Completed"
      case Failed => "Failed"
      case Missed => "Missed"
      case Cancelled => "Cancelled"
  {
  }

  predicate IsUpcoming(call: WakeCall, now: int) {
    call.scheduledAt > now
  }

  /** The cancel button is rendered: upcoming, still scheduled, and a handler was passed. */
  predicate ShowsCancel(call: WakeCall, now: int, hasOnCancel: bool) {
    IsUpcoming(call, now) && call.status == Scheduled && hasOnCancel
  }

  /** The "Reason:" line: rendered, with the reason, only when the reason is truthy (non-empty). */
  function ReasonLine(call: WakeCall): Option<string> {
    if call.reason != "" then Some(call.reason) else None
  }

  /** What pressing the button asks for: the id handed to `onCancel`, if the button is there. */
  function CancelRequest(call: WakeCall, now: int, hasOnCancel: bool): seq<string> {
    if ShowsCancel(call, now, hasOnCancel) then [call.id] else []
  }
}
