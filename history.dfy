/**
 * app/history/page.tsx: the call history, narrowed by a case-insensitive search on the
 * reason and by a status filter, with counts of completed, failed and missed calls.
 */
module History {
  import opened Text
  import opened Types
  import opened Lists
  import CallCard

  /** The filter callback: the reason contains the search term, ignoring case, and the status passes. */
  predicate Matches(call: WakeCall, searchTerm: string, statusFilter: string) {
    Contains(ToLower(call.reason), ToLower(searchTerm))
    && (statusFilter == "all" || StatusName(call.status) == statusFilter)
  }

  function Matching(searchTerm: string, statusFilter: string): WakeCall -> bool {
    (c: WakeCall) => Matches(c, searchTerm, statusFilter)
  }

  /** `filteredCalls`: the matching calls, in their original order. */
  function FilteredCalls(calls: seq<WakeCall>, searchTerm: string, statusFilter: string): (r: seq<WakeCall>)
    ensures forall c :: c in r <==> c in calls && Matches(c, searchTerm, statusFilter)
    ensures IsSubsequence(r, calls)
  {
    FilterIsSubsequence(calls, Matching(searchTerm, statusFilter));
    Filter(calls, Matching(searchTerm, statusFilter))
  }

  /** An empty search with "all" statuses shows the whole history. */
  lemma NoFilterShowsAll(calls: seq<WakeCall>)
    ensures FilteredCalls(calls, "", "all") == calls
  {
    forall i | 0 <= i < |calls| ensures Matches(calls[i], "", "all") {
      assert IsPrefix(ToLower(""), ToLower(calls[i].reason));
    }
    FilterKeepsAll(calls, Matching("", "all"));
  }

  /** Choosing a status shows calls of that status only. */
  lemma StatusFilterExact(calls: seq<WakeCall>, searchTerm: string, status: Status)
    ensures forall c :: c in FilteredCalls(calls, searchTerm, StatusName(status)) ==> c.status == status
  {
    forall c | c in FilteredCalls(calls, searchTerm, StatusName(status)) ensures c.status == status {
      StatusNameInjective(c.status, status);
    }
  }

  /**
   * The history's cards are rendered without `onCancel`. A call found by a non-empty search
   * shows its "Reason:" line, that line holds the search term ignoring case, and it has no
   * cancel button.
   */
  lemma SearchHitShowsReason(calls: seq<WakeCall>, searchTerm: string, statusFilter: string, now: int)
    requires searchTerm != ""
    ensures forall c :: c in FilteredCalls(calls, searchTerm, statusFilter) ==>
      && CallCard.ReasonLine(c).Some?
      && Contains(ToLower(CallCard.ReasonLine(c).value), ToLower(searchTerm))
      && CallCard.CancelRequest(c, now, false) == []
  {
    forall c | c in FilteredCalls(calls, searchTerm, statusFilter)
      ensures CallCard.ReasonLine(c).Some?
    {
      var k := ContainsAt(ToLower(c.reason), ToLower(searchTerm));
    }
  }

  /** The figures on the four stats cards. */
  datatype Stats = Stats(total: nat, completed: nat, failed: nat, missed: nat)

  function WithStatus(status: Status): WakeCall -> bool {
    (c: WakeCall) => c.status == status
  }

  /** `calls.filter(call => call.status === status).length`. */
  function CountStatus(calls: seq<WakeCall>, status: Status): nat {
    |Filter(calls, WithStatus(status))|
  }

  /** `getStatusStats`. */
  function GetStatusStats(calls: seq<WakeCall>): Stats {
    Stats(|calls|, CountStatus(calls, Completed), CountStatus(calls, Failed), CountStatus(calls, Missed))
  }

  /** Every call has exactly one of the five statuses, so their counts add up to the length. */
  lemma {:induction false} StatusCountsSum(calls: seq<WakeCall>)
    ensures CountStatus(calls, Scheduled) + CountStatus(calls, Completed) + CountStatus(calls, Failed)
            + CountStatus(calls, Missed) + CountStatus(calls, Cancelled) == |calls|
    decreases |calls|
  {
    if calls != [] {
      StatusCountsSum(calls[1..]);
    }
  }

  /** The three outcome cards never add up to more than the total card. */
  lemma StatsBounded(calls: seq<WakeCall>)
    ensures var st := GetStatusStats(calls);
      st.total == |calls| && st.completed + st.failed + st.missed <= st.total
  {
    StatusCountsSum(calls);
  }
}
