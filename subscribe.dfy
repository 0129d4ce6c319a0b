/** The subscription page: days left on the plan, the session-usage line,
    and the button under each plan card. */
module SubscribePage {
  import opened Wrappers
  import opened Schema
  import opened Account
  import Routes

  const MsPerDay := 1000 * 60 * 60 * 24

  /** The quotient rounded up, on integers, for a positive divisor. */
  function CeilDiv(a: int, b: int): (r: int)
    requires b > 0
    ensures (r - 1) * b < a <= r * b
  {
    -((-a) / b)
  }

  /** Whole days left, a part day counting as a day; 0 without an expiry
      and never negative. */
  function CalculateDaysRemaining(user: Option<User>, now: int): (r: nat)
    ensures user.None? || user.value.subscriptionExpiresAt.None? ==> r == 0
    ensures r > 0 <==> IsSubscriptionActive(user, now)
    ensures r > 0 ==> var left := user.value.subscriptionExpiresAt.value - now;
                      (r - 1) * MsPerDay < left <= r * MsPerDay
  {
    if user.None? || user.value.subscriptionExpiresAt.None? then 0
    else
      var days := CeilDiv(user.value.subscriptionExpiresAt.value - now, MsPerDay);
      if days < 0 then 0 else days
  }

  /** Right after a purchase the page shows the plan's full duration. */
  lemma {:induction false} DaysRemainingAfterPurchase(u: User, customerId: string, subscriptionId: string,
                                                      plan: Plan, now: int)
    ensures CalculateDaysRemaining(Some(Routes.Subscribed(u, customerId, subscriptionId, plan, now)), now)
            == PlanOf(plan).duration
  {
    var d := PlanOf(plan).duration as int;
    var r := CalculateDaysRemaining(Some(Routes.Subscribed(u, customerId, subscriptionId, plan, now)), now);
    assert (r - 1) * MsPerDay < d * MsPerDay <= r * MsPerDay;
  }

  /** Waiting never adds days. */
  lemma {:induction false} DaysRemainingMonotone(user: Option<User>, now: int, later: int)
    requires now <= later
    ensures CalculateDaysRemaining(user, later) <= CalculateDaysRemaining(user, now)
  {
  }

  /** The usage line under the current plan: sessions used, computed as the
      plan's sessions minus the balance; nothing is shown without a plan. */
  function SessionsUsed(user: Option<User>): (r: Option<int>)
    ensures r.Some? <==> user.Some? && user.value.currentPlan.Some?
    ensures r.Some? ==> r.value + SessionsRemainingShown(user) == PlanOf(user.value.currentPlan.value).sessions
  {
    if user.Some? && user.value.currentPlan.Some? then
      Some(PlanOf(user.value.currentPlan.value).sessions - SessionsRemainingShown(user))
    else None
  }

  /** The progress bar's value: the share of the plan's sessions used, in percent. */
  function UsagePercent(user: Option<User>): (r: Option<real>)
    ensures r.Some? <==> SessionsUsed(user).Some?
    ensures r.Some? ==> (r.value == 0.0 <==> SessionsUsed(user).value == 0)
    ensures r.Some? && 0 <= SessionsUsed(user).value <= PlanOf(user.value.currentPlan.value).sessions ==>
              0.0 <= r.value <= 100.0
  {
    match SessionsUsed(user)
    case None => None
    case Some(used) => Some(used as real / PlanOf(user.value.currentPlan.value).sessions as real * 100.0)
  }

  /** A fresh purchase shows no session used and an empty bar. */
  lemma {:induction false} UsageAfterPurchase(u: User, customerId: string, subscriptionId: string, plan: Plan, now: int)
    ensures SessionsUsed(Some(Routes.Subscribed(u, customerId, subscriptionId, plan, now))) == Some(0)
    ensures UsagePercent(Some(Routes.Subscribed(u, customerId, subscriptionId, plan, now))) == Some(0.0)
  {
  }

  /** Each session the server opens shows as one more session used. */
  lemma {:induction false} UsageAfterSessionOpened(u: User, now: int)
    requires u.currentPlan.Some? && u.sessionsRemaining.Some?
    ensures SessionsUsed(Some(Routes.Debited(u, now))) == Some(SessionsUsed(Some(u)).value + 1)
  {
  }

  datatype PlanButton = PlanButton(disabled: bool, caption: string)

  const CurrentPlanLabel := "الخطة الحالية"
  const RenewLabel := "تجديد"
  const ChoosePlanLabel := "اختر الخطة"

  predicate IsCurrentPlan(plan: Plan, user: Option<User>) {
    user.Some? && user.value.currentPlan == Some(plan)
  }

  /** The running plan's button is disabled; the plan held but expired
      offers renewal; every other plan can be chosen. */
  function PlanButtonFor(plan: Plan, user: Option<User>, now: int): (b: PlanButton)
    ensures b.disabled <==> b.caption == CurrentPlanLabel
    ensures b.disabled <==> IsCurrentPlan(plan, user) && IsSubscriptionActive(user, now)
    ensures b.caption == RenewLabel <==> IsCurrentPlan(plan, user) && !IsSubscriptionActive(user, now)
    ensures b.caption == ChoosePlanLabel <==> !IsCurrentPlan(plan, user)
  {
    var current := IsCurrentPlan(plan, user);
    var active := IsSubscriptionActive(user, now);
    PlanButton(current && active, if current && active then CurrentPlanLabel else if current then RenewLabel else ChoosePlanLabel)
  }

  /** At most one plan card has its button disabled. */
  lemma {:induction false} AtMostOneDisabled(p: Plan, q: Plan, user: Option<User>, now: int)
    requires PlanButtonFor(p, user, now).disabled && PlanButtonFor(q, user, now).disabled
    ensures p == q
  {
  }

  /** Right after buying a plan its button is disabled and every other plan
      can be chosen. */
  lemma {:induction false} ButtonsAfterPurchase(u: User, customerId: string, subscriptionId: string,
                                                plan: Plan, other: Plan, now: int)
    requires other != plan
    ensures var user := Some(Routes.Subscribed(u, customerId, subscriptionId, plan, now));
            && PlanButtonFor(plan, user, now) == PlanButton(true, CurrentPlanLabel)
            && PlanButtonFor(other, user, now) == PlanButton(false, ChoosePlanLabel)
  {
  }
}
