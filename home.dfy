/** The dashboard: overall mastery, the per-subject breakdown with its
    focus and strength lists, the list of recent sessions, and the gate in
    front of a new chat session. */
module HomePage {
  import opened Wrappers
  import opened Rows
  import opened Schema
  import opened Mastery
  import opened Account
  import Routes

  // ------------------------------------------------------------ averages

  /** A row's score as a number; a row without a score counts as 0. */
  function RowScore(a: PerformanceAnalytics): real {
    a.score.GetOr(0.0)
  }

  function Sum(xs: seq<real>): real {
    if xs == [] then 0.0 else Sum(xs[..|xs| - 1]) + xs[|xs| - 1]
  }

  /** The mean, rounded to the nearest whole percentage. */
  function Average(xs: seq<real>): int
    requires |xs| > 0
  {
    RoundHalfUp(Sum(xs) / |xs| as real)
  }

  predicate IsPercentage(x: real) {
    0.0 <= x <= 100.0
  }

  lemma {:induction false} SumBounds(xs: seq<real>)
    requires forall i :: 0 <= i < |xs| ==> IsPercentage(xs[i])
    ensures 0.0 <= Sum(xs) <= 100.0 * |xs| as real
  {
    if xs != [] {
      SumBounds(xs[..|xs| - 1]);
    }
  }

  /** The rounded mean of percentages is a whole percentage. */
  lemma {:induction false} AverageBounds(xs: seq<real>)
    requires |xs| > 0
    requires forall i :: 0 <= i < |xs| ==> IsPercentage(xs[i])
    ensures 0 <= Average(xs) <= 100
  {
    SumBounds(xs);
    var n := |xs| as real;
    var m := Sum(xs) / n;
    assert m * n == Sum(xs);
    RoundHalfUpBetween(m, 0, 100);
  }

  lemma {:induction false} SumConstant(xs: seq<real>, c: real)
    requires forall i :: 0 <= i < |xs| ==> xs[i] == c
    ensures Sum(xs) == |xs| as real * c
  {
    if xs != [] {
      SumConstant(xs[..|xs| - 1], c);
    }
  }

  /** Every row with the same whole score `c` averages to `c`. */
  lemma {:induction false} AverageConstant(xs: seq<real>, c: int)
    requires |xs| > 0
    requires forall i :: 0 <= i < |xs| ==> xs[i] == c as real
    ensures Average(xs) == c
  {
    SumConstant(xs, c as real);
    var n := |xs| as real;
    assert Sum(xs) / n == c as real;
  }

  function Scores(rows: seq<PerformanceAnalytics>): (r: seq<real>)
    ensures |r| == |rows|
    ensures forall i :: 0 <= i < |rows| ==> r[i] == RowScore(rows[i])
  {
    seq(|rows|, i requires 0 <= i < |rows| => RowScore(rows[i]))
  }

  /** The dashboard's headline figure: 0 without rows, otherwise the mean
      score over all of them, rows without a score counting as 0. */
  function CalculateOverallMastery(analytics: Option<seq<PerformanceAnalytics>>): (r: int)
    ensures analytics.None? || analytics.value == [] ==> r == 0
    ensures analytics.Some? && analytics.value != [] ==>
              var mean := Sum(Scores(analytics.value)) / |analytics.value| as real;
              mean - 0.5 < r as real <= mean + 0.5
  {
    if analytics.None? || analytics.value == [] then 0
    else Average(Scores(analytics.value))
  }

  /** With every stored score a percentage, so is the overall mastery. */
  lemma {:induction false} OverallMasteryBounds(analytics: Option<seq<PerformanceAnalytics>>)
    requires analytics.Some? ==> forall i :: 0 <= i < |analytics.value| ==> IsPercentage(RowScore(analytics.value[i]))
    ensures 0 <= CalculateOverallMastery(analytics) <= 100
  {
    if analytics.Some? && analytics.value != [] {
      AverageBounds(Scores(analytics.value));
    }
  }

  // ---------------------------------------------------- subject breakdown

  /** Each value of `xs` once, in order of first occurrence, as a `Set` spread back into an array. */
  function Dedup<T(==)>(xs: seq<T>): (r: seq<T>)
    ensures forall i :: 0 <= i < |r| ==> r[i] in xs
    ensures forall i :: 0 <= i < |xs| ==> xs[i] in r
    ensures forall i, j :: 0 <= i < j < |r| ==> r[i] != r[j]
  {
    if xs == [] then []
    else
      var d := Dedup(xs[..|xs| - 1]);
      if xs[|xs| - 1] in d then d else d + [xs[|xs| - 1]]
  }

  lemma {:induction false} DedupAppend<T>(xs: seq<T>, x: T)
    ensures Dedup(xs + [x]) == if x in Dedup(xs) then Dedup(xs) else Dedup(xs) + [x]
  {
    assert (xs + [x])[..|xs|] == xs;
  }

  /** Where `x` first occurs in `xs`. */
  function FirstIndex<T(==)>(xs: seq<T>, x: T): (k: nat)
    requires x in xs
    ensures k < |xs| && xs[k] == x && x !in xs[..k]
  {
    if x in xs[..|xs| - 1] then FirstIndex(xs[..|xs| - 1], x) else |xs| - 1
  }

  /** Dedup keeps the values in the order of their first occurrence. */
  lemma {:induction false} DedupFirstOccurrenceOrder<T>(xs: seq<T>)
    ensures forall i, j :: 0 <= i < j < |Dedup(xs)| ==> FirstIndex(xs, Dedup(xs)[i]) < FirstIndex(xs, Dedup(xs)[j])
  {
    if xs != [] {
      var init := xs[..|xs| - 1];
      DedupFirstOccurrenceOrder(init);
      var d := Dedup(init);
      forall i, j | 0 <= i < j < |Dedup(xs)|
        ensures FirstIndex(xs, Dedup(xs)[i]) < FirstIndex(xs, Dedup(xs)[j])
      {
        assert Dedup(xs)[i] == d[i];
        assert FirstIndex(xs, d[i]) == FirstIndex(init, d[i]);
        if j < |d| {
          assert FirstIndex(xs, d[j]) == FirstIndex(init, d[j]);
        } else {
          assert Dedup(xs)[j] == xs[|xs| - 1] && xs[|xs| - 1] !in init;
        }
      }
    }
  }

  /** Deduplicating twice changes nothing. */
  lemma {:induction false} DedupIdempotent<T>(xs: seq<T>)
    ensures Dedup(Dedup(xs)) == Dedup(xs)
  {
    DedupDistinct(Dedup(xs));
  }

  lemma {:induction false} DedupDistinct<T>(xs: seq<T>)
    requires forall i, j :: 0 <= i < j < |xs| ==> xs[i] != xs[j]
    ensures Dedup(xs) == xs
  {
    if xs != [] {
      var init := xs[..|xs| - 1];
      DedupDistinct(init);
      assert xs[|xs| - 1] !in init;
      assert init + [xs[|xs| - 1]] == xs;
    }
  }

  function Subjects(rows: seq<PerformanceAnalytics>): (r: seq<string>)
    ensures |r| == |rows|
    ensures forall i :: 0 <= i < |rows| ==> r[i] == rows[i].subject
  {
    if rows == [] then [] else Subjects(rows[..|rows| - 1]) + [rows[|rows| - 1].subject]
  }

  /** The scores of the rows on subject `s`, in row order. */
  function ScoresOf(rows: seq<PerformanceAnalytics>, s: string): (r: seq<real>)
    ensures |r| > 0 <==> s in Subjects(rows)
  {
    if rows == [] then []
    else
      var last := rows[|rows| - 1];
      ScoresOf(rows[..|rows| - 1], s) + (if last.subject == s then [RowScore(last)] else [])
  }

  /** The weak areas of the rows on subject `s`, concatenated in row order. */
  function WeakOf(rows: seq<PerformanceAnalytics>, s: string): (r: seq<string>)
    ensures s !in Subjects(rows) ==> r == []
  {
    if rows == [] then []
    else
      var last := rows[|rows| - 1];
      WeakOf(rows[..|rows| - 1], s) + (if last.subject == s then last.weakAreas.GetOr([]) else [])
  }

  datatype SubjectEntry = SubjectEntry(subject: string, averageScore: int, weakAreas: seq<string>)

  /** The accumulator entry of one subject: `scores` and `weakAreas` pushed row by row. */
  datatype Group = Group(scores: seq<real>, weakAreas: seq<string>)

  function EntryOf(subject: string, g: Group): SubjectEntry
    requires |g.scores| > 0
  {
    SubjectEntry(subject, Average(g.scores), Dedup(g.weakAreas))
  }

  /** The breakdown by definition: one entry per subject in order of first
      appearance, averaged over that subject's rows only. */
  function Breakdown(rows: seq<PerformanceAnalytics>): (r: seq<SubjectEntry>)
    ensures |r| == |Dedup(Subjects(rows))|
  {
    var keys := Dedup(Subjects(rows));
    seq(|keys|, j requires 0 <= j < |keys| => EntryOf(keys[j], Group(ScoresOf(rows, keys[j]), WeakOf(rows, keys[j]))))
  }

  /** `acc` and its key order hold exactly the grouping of `rows`. */
  ghost predicate Grouped(rows: seq<PerformanceAnalytics>, acc: map<string, Group>, order: seq<string>) {
    && order == Dedup(Subjects(rows))
    && (forall k :: k in acc <==> k in order)
    && (forall k :: k in acc ==> acc[k] == Group(ScoresOf(rows, k), WeakOf(rows, k)))
  }

  /** The accumulator after one more row: a new subject gets an entry at
      the end of the key order, and the row is pushed onto its subject's entry. */
  function AddRow(acc: map<string, Group>, row: PerformanceAnalytics): map<string, Group> {
    var g := if row.subject in acc then acc[row.subject] else Group([], []);
    acc[row.subject := Group(g.scores + [RowScore(row)], g.weakAreas + row.weakAreas.GetOr([]))]
  }

  function AddKey(order: seq<string>, row: PerformanceAnalytics): seq<string> {
    if row.subject in order then order else order + [row.subject]
  }

  /** The `reduce` as a fold over the rows: the accumulator and its key
      order after every row has been added. */
  function GroupRows(rows: seq<PerformanceAnalytics>): (map<string, Group>, seq<string>) {
    if rows == [] then (map[], [])
    else
      var (acc, order) := GroupRows(rows[..|rows| - 1]);
      (AddRow(acc, rows[|rows| - 1]), AddKey(order, rows[|rows| - 1]))
  }

  lemma {:induction false} GroupRowsSnoc(pre: seq<PerformanceAnalytics>, row: PerformanceAnalytics)
    ensures GroupRows(pre + [row]) == (AddRow(GroupRows(pre).0, row), AddKey(GroupRows(pre).1, row))
  {
    assert (pre + [row])[..|pre|] == pre;
  }

  /** The fold computes exactly the grouping. */
  lemma {:induction false} GroupRowsGrouped(rows: seq<PerformanceAnalytics>)
    ensures Grouped(rows, GroupRows(rows).0, GroupRows(rows).1)
  {
    if rows != [] {
      var pre, row := rows[..|rows| - 1], rows[|rows| - 1];
      GroupRowsGrouped(pre);
      LastSplit(rows);
      GroupedStep(pre, row, GroupRows(pre).0, GroupRows(pre).1);
    }
  }

  lemma {:induction false} GroupedStep(pre: seq<PerformanceAnalytics>, row: PerformanceAnalytics,
                                       acc: map<string, Group>, order: seq<string>)
    requires Grouped(pre, acc, order)
    ensures Grouped(pre + [row], AddRow(acc, row), AddKey(order, row))
  {
    var acc', order' := AddRow(acc, row), AddKey(order, row);
    SubjectsSnoc(pre, row);
    DedupAppend(Subjects(pre), row.subject);
    assert forall k :: k in acc' <==> k in order';
    forall k | k in acc'
      ensures acc'[k] == Group(ScoresOf(pre + [row], k), WeakOf(pre + [row], k))
    {
      if k !in acc {
        assert k !in Dedup(Subjects(pre));
      }
      GroupedEntry(pre, row, acc, k);
    }
  }

  /** The entry of one subject after one more row. */
  lemma {:induction false} GroupedEntry(pre: seq<PerformanceAnalytics>, row: PerformanceAnalytics,
                                        acc: map<string, Group>, k: string)
    requires k in acc || k == row.subject
    requires k in acc ==> acc[k] == Group(ScoresOf(pre, k), WeakOf(pre, k))
    requires k !in acc ==> k !in Subjects(pre)
    ensures AddRow(acc, row)[k] == Group(ScoresOf(pre + [row], k), WeakOf(pre + [row], k))
  {
    var rows := pre + [row];
    assert ScoresOf(rows, k) == ScoresOf(pre, k) + (if row.subject == k then [RowScore(row)] else [])
        && WeakOf(rows, k) == WeakOf(pre, k) + (if row.subject == k then row.weakAreas.GetOr([]) else [])
    by {
      assert rows[..|rows| - 1] == pre && rows[|rows| - 1] == row;
    }
    if k !in acc {
      assert ScoresOf(pre, k) == [] && WeakOf(pre, k) == [];
    }
  }

  /** The `reduce` into `acc`: one dictionary entry per subject, created on
      its first row, with every row's score and weak areas pushed onto it. */
  method GroupBySubject(rows: seq<PerformanceAnalytics>) returns (acc: map<string, Group>, order: seq<string>)
    ensures order == Dedup(Subjects(rows))
    ensures forall k :: k in acc <==> k in order
    ensures forall k :: k in acc ==> acc[k] == Group(ScoresOf(rows, k), WeakOf(rows, k))
  {
    acc := map[];
    order := [];
    var i := 0;
    while i < |rows|
      invariant 0 <= i <= |rows|
      invariant (acc, order) == GroupRows(rows[..i])
      invariant forall k :: k in acc <==> k in order
    {
      var item := rows[i];
      ghost var acc0, order0 := acc, order;
      if item.subject !in acc {
        acc := acc[item.subject := Group([], [])];
        order := order + [item.subject];
      }
      var g := acc[item.subject];
      acc := acc[item.subject := Group(g.scores + [RowScore(item)], g.weakAreas + item.weakAreas.GetOr([]))];
      assert acc == AddRow(acc0, item) && order == AddKey(order0, item);
      PrefixSnoc(rows, i);
      GroupRowsSnoc(rows[..i], item);
      i := i + 1;
    }
    assert rows[..i] == rows;
    GroupRowsGrouped(rows);
  }

  /** Lists the grouped subjects in insertion order with their rounded mean
      and de-duplicated weak areas; no rows at all is an empty breakdown. */
  method GetSubjectBreakdown(analytics: Option<seq<PerformanceAnalytics>>) returns (r: seq<SubjectEntry>)
    ensures analytics.None? ==> r == []
    ensures analytics.Some? ==> r == Breakdown(analytics.value)
  {
    if analytics.None? {
      return [];
    }
    var acc, order := GroupBySubject(analytics.value);
    r := seq(|order|, j requires 0 <= j < |order| => EntryOf(order[j], acc[order[j]]));
  }

  function EntrySubjects(entries: seq<SubjectEntry>): (r: seq<string>)
    ensures |r| == |entries| && forall j :: 0 <= j < |entries| ==> r[j] == entries[j].subject
  {
    seq(|entries|, j requires 0 <= j < |entries| => entries[j].subject)
  }

  /** The breakdown lists every subject that has a row, only those, and
      each once, in order of first appearance. */
  lemma {:induction false} BreakdownSubjects(rows: seq<PerformanceAnalytics>)
    ensures EntrySubjects(Breakdown(rows)) == Dedup(Subjects(rows))
    ensures forall i :: 0 <= i < |rows| ==> rows[i].subject in EntrySubjects(Breakdown(rows))
    ensures forall j :: 0 <= j < |Breakdown(rows)| ==> Breakdown(rows)[j].subject in Subjects(rows)
    ensures forall j, k :: 0 <= j < k < |Breakdown(rows)| ==> Breakdown(rows)[j].subject != Breakdown(rows)[k].subject
  {
    var keys := Dedup(Subjects(rows));
    var b := Breakdown(rows);
    var names := EntrySubjects(b);
    assert names == keys;
    forall i | 0 <= i < |rows|
      ensures rows[i].subject in names
    {
      assert Subjects(rows)[i] == rows[i].subject;
    }
  }

  /** Number of scores grouped under the given subjects. */
  function GroupedCount(rows: seq<PerformanceAnalytics>, keys: seq<string>): nat {
    if keys == [] then 0 else GroupedCount(rows, keys[..|keys| - 1]) + |ScoresOf(rows, keys[|keys| - 1])|
  }

  lemma {:induction false} GroupedCountAppend(rows: seq<PerformanceAnalytics>, row: PerformanceAnalytics, keys: seq<string>)
    requires forall i, j :: 0 <= i < j < |keys| ==> keys[i] != keys[j]
    ensures GroupedCount(rows + [row], keys) == GroupedCount(rows, keys) + (if row.subject in keys then 1 else 0)
  {
    var rows' := rows + [row];
    assert rows'[..|rows'| - 1] == rows;
    if keys != [] {
      var init := keys[..|keys| - 1];
      GroupedCountAppend(rows, row, init);
      assert keys == init + [keys[|keys| - 1]];
    }
  }

  /** Every row is grouped under exactly one subject: the groups' sizes add
      up to the number of rows. */
  lemma {:induction false} EveryRowGroupedOnce(rows: seq<PerformanceAnalytics>)
    ensures GroupedCount(rows, Dedup(Subjects(rows))) == |rows|
  {
    if rows != [] {
      var init := rows[..|rows| - 1];
      var row := rows[|rows| - 1];
      var d := Dedup(Subjects(init));
      EveryRowGroupedOnce(init);
      LastSplit(rows);
      SubjectsSnoc(init, row);
      DedupAppend(Subjects(init), row.subject);
      GroupedCountAppend(init, row, d);
      if row.subject !in d {
        assert |ScoresOf(rows, row.subject)| == 1 by {
          assert ScoresOf(rows, row.subject) == ScoresOf(init, row.subject) + [RowScore(row)];
          assert ScoresOf(init, row.subject) == [];
        }
        GroupedCountNewKey(rows, d, row.subject);
      }
    }
  }

  lemma {:induction false} PrefixSnoc<T>(s: seq<T>, i: nat)
    requires i < |s|
    ensures s[..i + 1] == s[..i] + [s[i]]
  {
  }

  lemma {:induction false} SubjectsSnoc(rows: seq<PerformanceAnalytics>, row: PerformanceAnalytics)
    ensures Subjects(rows + [row]) == Subjects(rows) + [row.subject]
  {
    assert (rows + [row])[..|rows|] == rows;
  }

  lemma {:induction false} LastSplit<T>(s: seq<T>)
    requires s != []
    ensures s == s[..|s| - 1] + [s[|s| - 1]]
  {
  }

  lemma {:induction false} GroupedCountNewKey(rows: seq<PerformanceAnalytics>, keys: seq<string>, k: string)
    ensures GroupedCount(rows, keys + [k]) == GroupedCount(rows, keys) + |ScoresOf(rows, k)|
  {
    var keys' := keys + [k];
    assert keys'[..|keys'| - 1] == keys && keys'[|keys'| - 1] == k;
  }

  /** With every stored score a percentage, each subject's average is one too. */
  lemma {:induction false} BreakdownAverageBounds(rows: seq<PerformanceAnalytics>)
    requires forall i :: 0 <= i < |rows| ==> IsPercentage(RowScore(rows[i]))
    ensures forall j :: 0 <= j < |Breakdown(rows)| ==> 0 <= Breakdown(rows)[j].averageScore <= 100
  {
    var keys := Dedup(Subjects(rows));
    forall j | 0 <= j < |keys|
      ensures 0 <= Breakdown(rows)[j].averageScore <= 100
    {
      ScoresOfPercentages(rows, keys[j]);
      AverageBounds(ScoresOf(rows, keys[j]));
    }
  }

  lemma {:induction false} ScoresOfPercentages(rows: seq<PerformanceAnalytics>, s: string)
    requires forall i :: 0 <= i < |rows| ==> IsPercentage(RowScore(rows[i]))
    ensures forall i :: 0 <= i < |ScoresOf(rows, s)| ==> IsPercentage(ScoresOf(rows, s)[i])
  {
    if rows != [] {
      ScoresOfPercentages(rows[..|rows| - 1], s);
    }
  }

  // ------------------------------------------------ focus and strengths

  predicate NeedsFocus(e: SubjectEntry) {
    e.averageScore < 60
  }

  predicate IsStrength(e: SubjectEntry) {
    e.averageScore >= 80
  }

  /** No subject is listed both as needing focus and as a strength, and the
      badges agree: focus subjects show low mastery, strengths high. */
  lemma {:induction false} FocusAndStrengthsDisjoint(entries: seq<SubjectEntry>)
    ensures forall i, j :: 0 <= i < |Select(entries, NeedsFocus)| && 0 <= j < |Select(entries, IsStrength)| ==>
              Select(entries, NeedsFocus)[i] != Select(entries, IsStrength)[j]
    ensures forall i :: 0 <= i < |Select(entries, NeedsFocus)| ==>
              MasteryLevel(Select(entries, NeedsFocus)[i].averageScore as real) == Low
    ensures forall j :: 0 <= j < |Select(entries, IsStrength)| ==>
              MasteryLevel(Select(entries, IsStrength)[j].averageScore as real) == High
  {
  }

  // ------------------------------------------------------ recent sessions

  const ShownSessionLimit := 5

  /** The sessions listed on the dashboard: the first five, or all of them. */
  function ShownSessions(sessions: Option<seq<ChatSession>>): (r: seq<ChatSession>)
    ensures |r| <= ShownSessionLimit
    ensures sessions.None? ==> r == []
    ensures sessions.Some? ==> |r| <= |sessions.value| && r == sessions.value[..|r|]
    ensures sessions.Some? && |sessions.value| <= ShownSessionLimit ==> r == sessions.value
  {
    if sessions.None? then []
    else if |sessions.value| <= ShownSessionLimit then sessions.value
    else sessions.value[..ShownSessionLimit]
  }

  /** The "view all sessions" link. */
  predicate ShowsViewAll(sessions: Option<seq<ChatSession>>) {
    sessions.Some? && |sessions.value| > ShownSessionLimit
  }

  /** The link appears exactly when some session is left off the list. */
  lemma {:induction false} ViewAllIffSessionsHidden(sessions: Option<seq<ChatSession>>)
    ensures ShowsViewAll(sessions) <==> sessions.Some? && |ShownSessions(sessions)| < |sessions.value|
  {
  }

  // ------------------------------------------------------ new-session gate

  datatype Toast = Toast(title: string, description: string)

  const ExpiredToast := Toast("اشتراك منتهي الصلاحية", "يرجى تجديد اشتراكك لإنشاء جلسات جديدة")
  const NoSessionsToast := Toast("لا توجد جلسات متبقية", "لقد استنفدت جميع جلساتك المتاحة. يرجى ترقية خطتك.")
  const ChatPath := "/chat"

  /** The client lets the user on to the chat page only with a running
      subscription and a positive balance. */
  predicate CanCreateSession(user: Option<User>, now: int) {
    IsSubscriptionActive(user, now) && SessionsRemainingShown(user) > 0
  }

  /** The dashboard's UI state that the new-session button changes. */
  class HomeView {
    var subscriptionModalOpen: bool
    var toasts: seq<Toast>
    var location: string

    constructor(path: string)
      ensures !subscriptionModalOpen && toasts == [] && location == path
    {
      subscriptionModalOpen := false;
      toasts := [];
      location := path;
    }

    /** An expired subscription is reported first, an empty balance second;
        both open the subscription dialog and stay on the page. Otherwise
        the browser goes to the chat page. */
    method HandleCreateSession(user: Option<User>, now: int)
      modifies this
      ensures !IsSubscriptionActive(user, now) ==>
                subscriptionModalOpen && toasts == old(toasts) + [ExpiredToast] && location == old(location)
      ensures IsSubscriptionActive(user, now) && SessionsRemainingShown(user) <= 0 ==>
                subscriptionModalOpen && toasts == old(toasts) + [NoSessionsToast] && location == old(location)
      ensures CanCreateSession(user, now) ==>
                location == ChatPath && subscriptionModalOpen == old(subscriptionModalOpen) && toasts == old(toasts)
    {
      if !IsSubscriptionActive(user, now) {
        toasts := toasts + [ExpiredToast];
        subscriptionModalOpen := true;
        return;
      }
      if SessionsRemainingShown(user) <= 0 {
        toasts := toasts + [NoSessionsToast];
        subscriptionModalOpen := true;
        return;
      }
      location := ChatPath;
    }
  }

  /** Whoever the client lets through also passes the server's own check. */
  lemma {:induction false} GateImpliesServerCredit(user: Option<User>, now: int)
    requires CanCreateSession(user, now)
    ensures Routes.HasCredit(user)
  {
  }

  /** Right after a purchase the gate is open. */
  lemma {:induction false} PurchaseOpensGate(u: User, customerId: string, subscriptionId: string, plan: Plan, now: int)
    ensures CanCreateSession(Some(Routes.Subscribed(u, customerId, subscriptionId, plan, now)), now)
  {
  }

  /** The client's gate is stricter than the server's: an expired account
      that still holds credits is refused here but accepted by the server. */
  lemma {:induction false} ServerIgnoresExpiry()
    ensures var u := User("u", None, None, None, None, None, None, Some(Basic), Some(0), Some(2), 0, 0);
            Routes.HasCredit(Some(u)) && !CanCreateSession(Some(u), 1)
  {
  }
}
