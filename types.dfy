/** The records the client shares between pages (types/index.ts). */
module Types {
  import opened Wrappers

  /** The five states a wake call goes through. */
  datatype Status = Scheduled | Completed | Failed | Missed | Cancelled

  /** The status as the string the store and the UI use. */
  function StatusName(s: Status): (name: string)
    ensures name != [] && name != "all"
  {
    match s
    case Scheduled => "scheduled"
    case Completed => "completed"
    case Failed => "failed"
    case Missed => "missed"
    case Cancelled => "cancelled"
  }

  /** Distinct statuses have distinct names, so comparing names compares statuses. */
  lemma StatusNameInjective(s: Status, t: Status)
    ensures StatusName(s) == StatusName(t) <==> s == t
  {
    if s != t {
      // the names differ in their first or second character
      assert StatusName(s)[0] != StatusName(t)[0] || StatusName(s)[1] != StatusName(t)[1];
    }
  }

  /**
   * A stored wake call. Timestamps are instants in milliseconds (`new Date(..)` of
   * the stored ISO-8601 text); `retries` is written by the call-placement engine only.
   */
  datatype WakeCall = WakeCall(
    id: string,
    userId: string,
    scheduledAt: int,
    reason: string,
    status: Status,
    retries: nat,
    phoneNumber: Option<string>,
    createdAt: int,
    updatedAt: Option<int>)

  /** The signed-in user as the auth provider reports it: id, email and `user_metadata.name`. */
  datatype AuthUser = AuthUser(id: string, email: Option<string>, metadataName: Option<string>)
}
