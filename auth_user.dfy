/** The signed-in user's ID as the client pages read it from storage. */
module AuthUser {
  import opened Common

  /** `getAuthUserId`: nothing when no user is stored (or the stored text
      is empty); otherwise the `_id` that `parseId` extracts, where
      `parseId` answers none when `JSON.parse` throws or there is no `_id`. */
  function GetAuthUserId(stored: Option<string>, parseId: string -> Option<string>): (r: Option<string>)
    ensures (stored.None? || stored.value == "") ==> r.None?
    ensures stored.Some? && stored.value != "" ==> r == parseId(stored.value)
  {
    if stored.None? || stored.value == "" then None else parseId(stored.value)
  }

  /** `!ownerId`: the pages refuse a missing or empty ID. */
  predicate Authenticated(ownerId: Option<string>)
  {
    ownerId.Some? && ownerId.value != ""
  }
}
