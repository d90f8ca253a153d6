/**
 * app/dashboard/page.tsx: the dashboard splits the user's calls into upcoming and past,
 * lets an upcoming call be cancelled (removed from the list by id), and greets the user.
 */
module Dashboard {
  import opened Wrappers
  import opened Text
  import opened Types
  import opened Lists
  import CallCard

  /** A call belongs on the upcoming tab: still ahead of now and still scheduled. */
  predicate IsUpcoming(call: WakeCall, now: int) {
    call.scheduledAt > now && call.status == Scheduled
  }

  /** A call belongs on the history tab: its time has come, or it is no longer scheduled. */
  predicate IsPast(call: WakeCall, now: int) {
    call.scheduledAt <= now || call.status != Scheduled
  }

  /** The filter callbacks of the page, one named value each so that every use denotes the same function. */
  function Upcoming(now: int): WakeCall -> bool {
    (c: WakeCall) => IsUpcoming(c, now)
  }

  function Past(now: int): WakeCall -> bool {
    (c: WakeCall) => IsPast(c, now)
  }

  function OtherId(id: string): WakeCall -> bool {
    (c: WakeCall) => c.id != id
  }

  function SameId(id: string): WakeCall -> bool {
    (c: WakeCall) => c.id == id
  }

  /** `upcomingCalls`. */
  function UpcomingCalls(calls: seq<WakeCall>, now: int): (r: seq<WakeCall>)
    ensures forall c :: c in r <==> c in calls && IsUpcoming(c, now)
    ensures IsSubsequence(r, calls)
  {
    FilterIsSubsequence(calls, Upcoming(now));
    Filter(calls, Upcoming(now))
  }

  /** `pastCalls`. */
  function PastCalls(calls: seq<WakeCall>, now: int): (r: seq<WakeCall>)
    ensures forall c :: c in r <==> c in calls && IsPast(c, now)
    ensures IsSubsequence(r, calls)
  {
    FilterIsSubsequence(calls, Past(now));
    Filter(calls, Past(now))
  }

  /** The two tabs partition the list: each call is on exactly one, and none is lost or doubled. */
  lemma TabsPartition(calls: seq<WakeCall>, now: int)
    ensures |UpcomingCalls(calls, now)| + |PastCalls(calls, now)| == |calls|
    ensures multiset(UpcomingCalls(calls, now)) + multiset(PastCalls(calls, now)) == multiset(calls)
    ensures forall c :: c in calls ==> (c in UpcomingCalls(calls, now) <==> c !in PastCalls(calls, now))
  {
    FilterSplit(calls, Upcoming(now), Past(now));
  }

  /** Every card on the upcoming tab offers cancelling; no past call would, even with a handler. */
  lemma CancelOnlyOnUpcoming(calls: seq<WakeCall>, now: int)
    ensures forall c :: c in UpcomingCalls(calls, now) ==> CallCard.ShowsCancel(c, now, true)
    ensures forall c :: c in PastCalls(calls, now) ==> !CallCard.ShowsCancel(c, now, true)
  {
  }

  /** `prev.filter(call => call.id !== id)`. */
  function WithoutId(calls: seq<WakeCall>, id: string): (r: seq<WakeCall>)
    ensures forall c :: c in r <==> c in calls && c.id != id
    ensures IsSubsequence(r, calls)
  {
    FilterIsSubsequence(calls, OtherId(id));
    Filter(calls, OtherId(id))
  }

  /** Cancelling an id that no call has leaves the list as it was. */
  lemma CancelUnknownId(calls: seq<WakeCall>, id: string)
    requires forall c :: c in calls ==> c.id != id
    ensures WithoutId(calls, id) == calls
  {
    FilterKeepsAll(calls, OtherId(id));
  }

  /** Cancelling takes the call off the upcoming tab and leaves every other upcoming call there. */
  lemma CancelRemovesCard(calls: seq<WakeCall>, now: int, call: WakeCall)
    requires call in UpcomingCalls(calls, now)
    ensures call !in UpcomingCalls(WithoutId(calls, call.id), now)
    ensures forall c :: c in UpcomingCalls(calls, now) && c.id != call.id ==> c in UpcomingCalls(WithoutId(calls, call.id), now)
    ensures |WithoutId(calls, call.id)| < |calls|
  {
    FilterSplit(calls, OtherId(call.id), SameId(call.id));
    assert call in Filter(calls, SameId(call.id));
  }

  /**
   * Pressing cancel on an upcoming card hands its id to `handleCancelCall`, which takes that
   * card off the upcoming tab and keeps the others; a past card has no cancel button.
   */
  lemma CancelButtonRemovesCard(calls: seq<WakeCall>, now: int, call: WakeCall)
    requires call in UpcomingCalls(calls, now)
    ensures CallCard.CancelRequest(call, now, true) == [call.id]
    ensures var after := WithoutId(calls, CallCard.CancelRequest(call, now, true)[0]);
      && call !in UpcomingCalls(after, now)
      && forall c :: c in UpcomingCalls(calls, now) && c.id != call.id ==> c in UpcomingCalls(after, now)
    ensures forall c :: c in PastCalls(calls, now) ==> CallCard.CancelRequest(c, now, true) == []
  {
    CancelOnlyOnUpcoming(calls, now);
    CancelRemovesCard(calls, now, call);
  }

  /** The greeting: the profile name, else the part of the email before "@", else "User". */
  function WelcomeName(user: Option<AuthUser>): (name: string)
    ensures name != ""
    ensures user.Some? && user.value.metadataName.Some? && user.value.metadataName.value != "" ==>
      name == user.value.metadataName.value
    ensures (user.Some? && (user.value.metadataName.None? || user.value.metadataName.value == "")
             && user.value.email.Some? && BeforeFirst(user.value.email.value, '@') != "") ==>
      name == BeforeFirst(user.value.email.value, '@') && IsPrefix(name, user.value.email.value) && '@' !in name
    ensures !(user.Some? && user.value.metadataName.Some? && user.value.metadataName.value != "")
            && !(user.Some? && user.value.email.Some? && BeforeFirst(user.value.email.value, '@') != "") ==>
      name == "User"
  {
    if user.Some? && user.value.metadataName.Some? && user.value.metadataName.value != "" then
      user.value.metadataName.value
    else if user.Some? && user.value.email.Some? && BeforeFirst(user.value.email.value, '@') != "" then
      BeforeFirst(user.value.email.value, '@')
    else
      "User"
  }

  /** A greeting for an address shows exactly its local part. */
  lemma WelcomeFromEmail(local: string, domain: string)
    requires local != "" && '@' !in local
    ensures WelcomeName(Some(AuthUser("u", Some(local + "@" + domain), None))) == local
  {
    BeforeFirstOf(local, '@', domain);
  }

  /** The page's starting list: three calls of user1 in January 2024 (times in ms since the epoch, UTC). */
  const MockCalls: seq<WakeCall> := [
    WakeCall("1", "user1", 19737 * 86400000 + 7 * 3600000, "Important client meeting", Scheduled, 0, None,
             19732 * 86400000 + 10 * 3600000, None),
    WakeCall("2", "user1", 19734 * 86400000 + 6 * 3600000 + 30 * 60000, "Flight to New York", Completed, 0, None,
             19730 * 86400000 + 15 * 3600000 + 30 * 60000, None),
    WakeCall("3", "user1", 19732 * 86400000 + 8 * 3600000, "Job interview", Failed, 2, None,
             19727 * 86400000 + 12 * 3600000, None)
  ]

  /** From 2024-01-15T07:00Z on, the starting list has nothing upcoming: every card lands in history. */
  lemma MockCallsAllPast(now: int)
    requires now >= 19737 * 86400000 + 7 * 3600000
    ensures UpcomingCalls(MockCalls, now) == []
    ensures PastCalls(MockCalls, now) == MockCalls
  {
    FilterKeepsAll(MockCalls, Past(now));
    TabsPartition(MockCalls, now);
  }

  class DashboardPage {
    var calls: seq<WakeCall>

    constructor ()
      ensures calls == MockCalls
    {
      calls := MockCalls;
    }

    /** `handleCancelCall(id)`: drops every call with that id. */
    method HandleCancelCall(id: string)
      modifies this
      ensures calls == WithoutId(old(calls), id)
    {
      calls := WithoutId(calls, id);
    }
  }
}
