/** What both account pages derive from the signed-in user's row: whether
    the subscription is still running and the session balance shown. */
module Account {
  import opened Wrappers
  import opened Schema

  /** A subscription runs while its expiry lies after the current instant
      (integer milliseconds); no user or no expiry is not running. */
  function IsSubscriptionActive(user: Option<User>, now: int): (r: bool)
    ensures r ==> user.Some? && user.value.subscriptionExpiresAt.Some?
    ensures user.Some? && user.value.subscriptionExpiresAt.Some? ==> (r <==> now < user.value.subscriptionExpiresAt.value)
  {
    user.Some? && user.value.subscriptionExpiresAt.Some? && user.value.subscriptionExpiresAt.value > now
  }

  /** The balance the pages show: no user, no value and zero all show as 0. */
  function SessionsRemainingShown(user: Option<User>): (r: int)
    ensures user.None? || user.value.sessionsRemaining.None? ==> r == 0
    ensures user.Some? && user.value.sessionsRemaining.Some? ==> r == user.value.sessionsRemaining.value
  {
    if user.Some? && user.value.sessionsRemaining.Some? then user.value.sessionsRemaining.value else 0
  }

  /** A student straight after the first login is shown as having no running
      subscription and no sessions, whatever the time. */
  lemma {:induction false} FirstLoginShowsNothing(u: UpsertUser, created: int, now: int)
    ensures !IsSubscriptionActive(Some(NewUser(u, created)), now)
    ensures SessionsRemainingShown(Some(NewUser(u, created))) == 0
  {
  }
}
