/** One window a day, sealed once, with its hour and its items. */
module NoonWindow {
  import opened Common
  import opened NoonModel

  /** A queued window has items and a notification, and no other window has a notification. */
  ghost predicate WindowOk(s: Db, date: int)
    requires date in s.windows
  {
    var w := s.windows[date];
    && (w.state == Queued ==> HasItems(s, date))
    && (w.state == Queued <==> Notified(s, date))
  }

  ghost predicate NotificationOk(s: Db, n: Notification) {
    && n.window in s.windows && s.windows[n.window].state == Queued
    && Opens(n.window) <= n.createdAt < Closes(n.window)
  }

  ghost predicate Inv(s: Db) {
    && (forall d | d in s.windows :: WindowOk(s, d))
    && (forall i | 0 <= i < |s.items| :: s.items[i].window in s.windows)
    && (forall i | 0 <= i < |s.notifications| :: NotificationOk(s, s.notifications[i]))
    && (forall i, j | 0 <= i < j < |s.notifications| :: s.notifications[i].window != s.notifications[j].window)
  }

  predicate Left(s: Db, date: int) { date in s.windows && s.windows[date].state != Collecting }

  /** Rows are only added, and once a window has left collecting its row and its notification stay as they are. */
  ghost predicate Sealed(s: Db, t: Db) {
    && s.items <= t.items && s.notifications <= t.notifications
    && (forall d | Left(s, d) ::
          && d in t.windows && t.windows[d] == s.windows[d]
          && (forall i | |s.notifications| <= i < |t.notifications| :: t.notifications[i].window != d))
  }

  // ---------------------------------------------------------------- the calendar

  /** A date and an hour locate the instant. */
  lemma Calendar(local: int)
    ensures var d, h := DateOf(local), HourOf(local);
            && 0 <= h < 24 && d * DAY_US + h * HOUR_US <= local < d * DAY_US + (h + 1) * HOUR_US
            && (h >= 12 <==> Opens(d) <= local) && (h == 12 <==> Opens(d) <= local < Closes(d))
  {
    var r := local % DAY_US;
    assert local == DateOf(local) * DAY_US + r;
    assert r / HOUR_US * HOUR_US <= r < (r / HOUR_US + 1) * HOUR_US;
  }

  /** The noons of other days: earlier ones are past, later ones are ahead. */
  lemma OtherNoons(local: int, date: int)
    ensures date < DateOf(local) ==> Closes(date) <= local
    ensures DateOf(local) < date ==> local < Opens(date)
  {
    Calendar(local);
    if date < DateOf(local) { assert (date + 1) * DAY_US <= DateOf(local) * DAY_US; }
    if DateOf(local) < date { assert (DateOf(local) + 1) * DAY_US <= date * DAY_US; }
  }

  /** An item goes to the window of the next noon: it is still ahead, and less than a day away. */
  lemma AssignedAhead(local: int)
    ensures local < Opens(AssignedDate(local)) <= local + DAY_US
  {
    Calendar(local);
  }

  // ---------------------------------------------------------------- steps

  lemma AssignKeeps(s: Db, evaluation: nat, binding: nat, local: int, now: int)
    requires Inv(s)
    ensures Inv(Assign(s, evaluation, binding, local, now)) && Sealed(s, Assign(s, evaluation, binding, local, now))
  {
    var t := Assign(s, evaluation, binding, local, now);
    var date := AssignedDate(local);
    assert date !in s.windows ==> !Notified(s, date) by {
      forall i | 0 <= i < |s.notifications| ensures s.notifications[i].window in s.windows {
        assert NotificationOk(s, s.notifications[i]);
      }
    }
    forall d | d in t.windows ensures WindowOk(t, d) {
      if d in s.windows {
        assert WindowOk(s, d);
        ItemsStay(s, t, d);
      }
    }
    forall i | 0 <= i < |t.notifications| ensures NotificationOk(t, t.notifications[i]) {
      assert NotificationOk(s, s.notifications[i]);
    }
  }

  lemma ItemsStay(s: Db, t: Db, date: int)
    requires s.items <= t.items
    ensures HasItems(s, date) ==> HasItems(t, date)
  {
    if HasItems(s, date) {
      var i :| 0 <= i < |s.items| && s.items[i].window == date;
      assert t.items[i].window == date;
    }
  }

  lemma SkipKeeps(s: Db, today: int)
    requires Inv(s)
    ensures var t := s.(windows := SkipPast(s.windows, today)); Inv(t) && Sealed(s, t)
  {
    var t := s.(windows := SkipPast(s.windows, today));
    forall d | d in t.windows ensures WindowOk(t, d) { assert WindowOk(s, d); }
    forall i | 0 <= i < |t.notifications| ensures NotificationOk(t, t.notifications[i]) {
      assert NotificationOk(s, s.notifications[i]);
    }
  }

  lemma SealTodayKeeps(s: Db, binding: nat, local: int)
    requires Inv(s) && SealToday(s, binding, local).Some?
    ensures Inv(SealToday(s, binding, local).value) && Sealed(s, SealToday(s, binding, local).value)
  {
    var t := SealToday(s, binding, local).value;
    var today := DateOf(local);
    Calendar(local);
    forall i | 0 <= i < |s.notifications| ensures NotificationOk(s, s.notifications[i]) {}
    assert today in s.windows ==> WindowOk(s, today);
    if t.notifications != s.notifications {
      QueueKeeps(s, today, local);
    } else {
      forall d | d in t.windows ensures WindowOk(t, d) { if d in s.windows { assert WindowOk(s, d); } }
      forall i | 0 <= i < |t.notifications| ensures NotificationOk(t, t.notifications[i]) {
        assert NotificationOk(s, s.notifications[i]);
      }
    }
  }

  lemma QueueKeeps(s: Db, today: int, local: int)
    requires Inv(s) && today in s.windows && s.windows[today].state == Collecting
    requires Opens(today) <= local < Closes(today) && HasItems(s, today)
    ensures Inv(Queue(s, today, local)) && Sealed(s, Queue(s, today, local))
  {
    var t := Queue(s, today, local);
    assert WindowOk(s, today);
    assert t.notifications == s.notifications + [Notification(today, local)];
    forall d | d in t.windows ensures WindowOk(t, d) {
      assert WindowOk(s, d);
      if Notified(s, d) {
        var i :| 0 <= i < |s.notifications| && s.notifications[i].window == d;
        assert t.notifications[i].window == d;
      }
      if d == today { assert t.notifications[|s.notifications|].window == d; }
    }
    forall i | 0 <= i < |t.notifications| ensures NotificationOk(t, t.notifications[i]) {
      if i < |s.notifications| { assert NotificationOk(s, s.notifications[i]); }
    }
  }

  lemma SealedTransitive(s: Db, t: Db, u: Db)
    requires Sealed(s, t) && Sealed(t, u)
    ensures Sealed(s, u)
  {
    forall d | Left(s, d)
      ensures d in u.windows && u.windows[d] == s.windows[d]
      ensures forall i | |s.notifications| <= i < |u.notifications| :: u.notifications[i].window != d
    {
      assert t.windows[d] == s.windows[d] && Left(t, d);
      forall i | |s.notifications| <= i < |u.notifications| ensures u.notifications[i].window != d {
        if i < |t.notifications| { assert u.notifications[i] == t.notifications[i]; }
      }
    }
  }

  lemma StepKeeps(s: Db, c: Call)
    requires Inv(s)
    ensures Inv(Step(s, c)) && Sealed(s, Step(s, c))
  {
    match c
    case CallAssign(evaluation, binding, local, now) => AssignKeeps(s, evaluation, binding, local, now);
    case CallSeal(binding, local) =>
      var m := s.(windows := SkipPast(s.windows, DateOf(local)));
      SkipKeeps(s, DateOf(local));
      if SealToday(m, binding, local).Some? {
        SealTodayKeeps(m, binding, local);
        SealedTransitive(s, m, Step(s, c));
      }
  }

  // ---------------------------------------------------------------- runs, with any clock

  lemma {:induction false} RunKeeps(s: Db, calls: seq<Call>)
    requires Inv(s)
    ensures Inv(Run(s, calls)) && Sealed(s, Run(s, calls))
    decreases |calls|
  {
    if calls != [] {
      var front := calls[..|calls| - 1];
      RunKeeps(s, front);
      StepKeeps(Run(s, front), calls[|calls| - 1]);
      SealedTransitive(s, Run(s, front), Run(s, calls));
    }
  }

  lemma {:induction false} RunAppend(s: Db, calls: seq<Call>, more: seq<Call>)
    ensures Run(Run(s, calls), more) == Run(s, calls + more)
    decreases |more|
  {
    if more == [] {
      assert calls + more == calls;
    } else {
      RunAppend(s, calls, more[..|more| - 1]);
      assert (calls + more)[..|calls + more| - 1] == calls + more[..|more| - 1];
    }
  }

  /**
    After every run, whatever the clock and the config bindings of its calls: a queued window has an item and
    exactly one notification, created within its hour; no other window has one.
   */
  lemma {:induction false} QueuedInItsHour(calls: seq<Call>, date: int)
    requires date in Run(EMPTY, calls).windows
    ensures var s := Run(EMPTY, calls);
            && (s.windows[date].state == Queued <==> Notified(s, date))
            && (s.windows[date].state == Queued ==> HasItems(s, date))
            && (forall i | 0 <= i < |s.notifications| && s.notifications[i].window == date ::
                  Opens(date) <= s.notifications[i].createdAt < Closes(date))
            && (forall i, j | 0 <= i < j < |s.notifications| :: s.notifications[i].window != s.notifications[j].window)
  {
    RunKeeps(EMPTY, calls);
    var s := Run(EMPTY, calls);
    assert WindowOk(s, date);
    forall i | 0 <= i < |s.notifications| && s.notifications[i].window == date
      ensures Opens(date) <= s.notifications[i].createdAt < Closes(date)
    {
      assert NotificationOk(s, s.notifications[i]);
    }
  }

  /** A window leaves collecting at most once, with any clock: from then on its row stays, and no notification joins it. */
  lemma {:induction false} SealedForGood(calls: seq<Call>, more: seq<Call>, date: int)
    requires Left(Run(EMPTY, calls), date)
    ensures var s, t := Run(EMPTY, calls), Run(EMPTY, calls + more);
            && date in t.windows && t.windows[date] == s.windows[date]
            && s.items <= t.items && s.notifications <= t.notifications
            && (forall i | |s.notifications| <= i < |t.notifications| :: t.notifications[i].window != date)
  {
    RunKeeps(EMPTY, calls);
    RunKeeps(Run(EMPTY, calls), more);
    RunAppend(EMPTY, calls, more);
  }

  // ---------------------------------------------------------------- when an item joins a sealed window

  /** A seal at or after a date's noon that is not rolled back closes the window of that date, if there is one to close. */
  predicate Seals(s: Db, c: Call, date: int) {
    && c.CallSeal? && Opens(date) <= c.local
    && (date in s.windows || DateOf(c.local) == date)
    && (DateOf(c.local) in s.windows && s.windows[DateOf(c.local)].state == Collecting ==>
          s.windows[DateOf(c.local)].binding == c.binding)
  }

  ghost predicate SealedBy(calls: seq<Call>, i: nat, date: int)
    requires i < |calls|
  {
    Seals(Run(EMPTY, calls[..i]), calls[i], date)
  }

  /** A call takes a window out of collecting if and only if it seals it. */
  lemma LeavesBySeal(s: Db, c: Call, date: int)
    ensures Left(Step(s, c), date) <==> Left(s, date) || Seals(s, c, date)
  {
    if c.CallSeal? {
      Calendar(c.local);
      OtherNoons(c.local, date);
    }
  }

  /** A window has left collecting if and only if a call of the run sealed it. */
  lemma {:induction false} LeftIffSealed(calls: seq<Call>, date: int)
    ensures Left(Run(EMPTY, calls), date) <==> exists i: nat :: i < |calls| && SealedBy(calls, i, date)
    decreases |calls|
  {
    if calls != [] {
      var n := |calls| - 1;
      var front := calls[..n];
      LeftIffSealed(front, date);
      LeavesBySeal(Run(EMPTY, front), calls[n], date);
      forall i: nat | i < n ensures SealedBy(front, i, date) <==> SealedBy(calls, i, date) {
        assert front[..i] == calls[..i];
      }
      assert SealedBy(calls, n, date) <==> Seals(Run(EMPTY, front), calls[n], date);
    }
  }

  /** An item is added to a window that does not collect any more. */
  ghost predicate JoinsSealed(s: Db, t: Db, date: int) {
    Left(s, date) && exists i :: |s.items| <= i < |t.items| && t.items[i].window == date
  }

  /**
    After any run, a call adds an item to a sealed window if and only if it assigns a new evaluation to a date
    that an earlier call has sealed.
   */
  lemma {:induction false} JoinsSealedExactly(calls: seq<Call>, c: Call, date: int)
    ensures var s := Run(EMPTY, calls);
            JoinsSealed(s, Step(s, c), date) <==>
              && c.CallAssign? && AssignedDate(c.local) == date && !HasEvaluation(s, c.evaluation)
              && exists i: nat :: i < |calls| && SealedBy(calls, i, date)
  {
    var s := Run(EMPTY, calls);
    LeftIffSealed(calls, date);
    if c.CallAssign? && AssignedDate(c.local) == date && !HasEvaluation(s, c.evaluation) {
      assert Step(s, c).items[|s.items|].window == date;
    }
  }

  /** Such a call reads a clock behind the noon that the earlier seal had reached. */
  lemma {:induction false} JoinsSealedInThePast(calls: seq<Call>, c: Call, date: int)
    requires JoinsSealed(Run(EMPTY, calls), Step(Run(EMPTY, calls), c), date)
    ensures exists i: nat :: i < |calls| && SealedBy(calls, i, date) && c.local < Opens(date) <= calls[i].local
  {
    JoinsSealedExactly(calls, c, date);
    AssignedAhead(c.local);
    var i: nat :| i < |calls| && SealedBy(calls, i, date);
    assert c.local < Opens(date) <= calls[i].local;
  }

  ghost predicate Monotone(calls: seq<Call>) {
    forall i, j | 0 <= i < j < |calls| :: calls[i].local <= calls[j].local
  }

  /** So with a clock that never goes back, no item joins a window that has left collecting. */
  lemma {:induction false} NoItemJoinsSealed(calls: seq<Call>, more: seq<Call>, date: int)
    requires Monotone(calls + more) && Left(Run(EMPTY, calls), date)
    ensures forall i | |Run(EMPTY, calls).items| <= i < |Run(EMPTY, calls + more).items| ::
              Run(EMPTY, calls + more).items[i].window != date
    decreases |more|
  {
    if more == [] {
      assert calls + more == calls;
    } else {
      var all, front := calls + more, calls + more[..|more| - 1];
      assert all[..|all| - 1] == front;
      assert forall i | 0 <= i < |front| :: front[i] == all[i];
      NoItemJoinsSealed(calls, more[..|more| - 1], date);
      SealedForGood(calls, more[..|more| - 1], date);
      var s, t := Run(EMPTY, front), Run(EMPTY, all);
      if JoinsSealed(s, t, date) { JoinsSealedInThePast(front, all[|all| - 1], date); }
      StepKeepsItems(s, all[|all| - 1]);
      forall i | |Run(EMPTY, calls).items| <= i < |t.items| ensures t.items[i].window != date {
        if i < |s.items| { assert t.items[i] == s.items[i]; }
      }
    }
  }

  lemma StepKeepsItems(s: Db, c: Call)
    ensures s.items <= Step(s, c).items
  {
  }

  /** A run with such a call: the clock steps back across noon, and the item joins a window that was sealed. */
  lemma BackwardClockBreaksSeal()
    ensures var calls, late := [CallSeal(1, Opens(0))], CallAssign(7, 1, Opens(0) - 1, Opens(0) - 1);
            var s := Run(EMPTY, calls);
            JoinsSealed(s, Step(s, late), 0) && Step(s, late).items == [Item(0, 7)]
  {
    var calls, late := [CallSeal(1, Opens(0))], CallAssign(7, 1, Opens(0) - 1, Opens(0) - 1);
    assert calls[..0] == [] && Run(EMPTY, calls[..0]) == EMPTY;
    assert SealedBy(calls, 0, 0);
    JoinsSealedExactly(calls, late, 0);
    assert Run(EMPTY, calls).items == [];
  }

  // ---------------------------------------------------------------- what a seal makes of a window

  /** The call that assigned an item: a new evaluation, at a time whose next noon is that of the date. */
  ghost predicate AssignedBy(calls: seq<Call>, k: nat, date: int)
    requires k < |calls|
  {
    && calls[k].CallAssign? && Opens(date) - DAY_US <= calls[k].local < Opens(date)
    && forall m | 0 <= m < k && calls[m].CallAssign? :: calls[m].evaluation != calls[k].evaluation
  }

  lemma AssignedWhen(local: int, date: int)
    ensures AssignedDate(local) == date <==> Opens(date) - DAY_US <= local < Opens(date)
  {
    AssignedAhead(local);
    var d := AssignedDate(local);
    if d < date { assert Opens(d) + DAY_US <= Opens(date); }
    if date < d { assert Opens(date) + DAY_US <= Opens(d); }
  }

  /** An evaluation has an item exactly when some call of the run assigned it. */
  lemma {:induction false} EvaluationsAreAssigned(calls: seq<Call>, evaluation: nat)
    ensures HasEvaluation(Run(EMPTY, calls), evaluation) <==>
              exists k :: 0 <= k < |calls| && calls[k].CallAssign? && calls[k].evaluation == evaluation
    decreases |calls|
  {
    if calls != [] {
      var n := |calls| - 1;
      var s, t := Run(EMPTY, calls[..n]), Run(EMPTY, calls);
      EvaluationsAreAssigned(calls[..n], evaluation);
      StepKeepsItems(s, calls[n]);
      if HasEvaluation(s, evaluation) {
        var i :| 0 <= i < |s.items| && s.items[i].evaluation == evaluation;
        assert t.items[i].evaluation == evaluation;
      }
      if calls[n].CallAssign? && calls[n].evaluation == evaluation && !HasEvaluation(s, evaluation) {
        assert t.items[|s.items|].evaluation == evaluation;
      }
      if k :| 0 <= k < |calls| && calls[k].CallAssign? && calls[k].evaluation == evaluation && k < n { assert calls[..n][k] == calls[k]; }
    }
  }

  /** The items of a window are those that calls of the run assigned to it. */
  lemma {:induction false} ItemsAreAssigned(calls: seq<Call>, date: int)
    ensures HasItems(Run(EMPTY, calls), date) <==> exists k: nat :: k < |calls| && AssignedBy(calls, k, date)
    decreases |calls|
  {
    if calls != [] {
      var n := |calls| - 1;
      var front := calls[..n];
      var s, t := Run(EMPTY, front), Run(EMPTY, calls);
      ItemsAreAssigned(front, date);
      StepKeepsItems(s, calls[n]);
      ItemsStay(s, t, date);
      forall k: nat | k < n ensures AssignedBy(front, k, date) <==> AssignedBy(calls, k, date) {}
      if calls[n].CallAssign? {
        EvaluationsAreAssigned(front, calls[n].evaluation);
        AssignedWhen(calls[n].local, date);
        LastIsNew(calls, date);
        if AssignedBy(calls, n, date) { assert t.items[|s.items|].window == date; }
      }
    }
  }

  lemma LastIsNew(calls: seq<Call>, date: int)
    requires calls != [] && calls[|calls| - 1].CallAssign?
    ensures var n := |calls| - 1;
            AssignedBy(calls, n, date) <==>
              && Opens(date) - DAY_US <= calls[n].local < Opens(date)
              && !(exists k :: 0 <= k < n && calls[..n][k].CallAssign? && calls[..n][k].evaluation == calls[n].evaluation)
  {
    var n := |calls| - 1;
    forall k | 0 <= k < n ensures calls[..n][k] == calls[k] {}
  }

  /** The seal of one window: its hour and its items decide. */
  lemma SealOutcome(s: Db, c: Call, date: int)
    requires Inv(s) && Seals(s, c, date) && !Left(s, date)
    ensures var t := Step(s, c);
            var inHour := Opens(date) <= c.local < Closes(date);
            var state := if !inHour then Skipped else if HasItems(s, date) then Queued else Empty;
            && date in t.windows
            && t.windows[date] == (if date in s.windows then s.windows[date].(state := state) else Window(c.binding, state, c.local))
            && (inHour && HasItems(s, date) ==> t.notifications == s.notifications + [Notification(date, c.local)])
            && t.items == s.items
  {
    var m := s.(windows := SkipPast(s.windows, DateOf(c.local)));
    Calendar(c.local);
    OtherNoons(c.local, date);
    if date in s.windows { assert WindowOk(s, date); }
    assert HasItems(m, date) == HasItems(s, date) && Notified(m, date) == Notified(s, date);
    if date !in s.windows {
      forall i | 0 <= i < |s.items| ensures s.items[i].window != date {}
    }
  }

  /** A seal leaves every window alone that it does not seal. */
  lemma SealTouchesNoOther(s: Db, c: Call, date: int)
    requires c.CallSeal? && (Left(s, date) || !Seals(s, c, date))
    ensures var t := Step(s, c);
            (date in t.windows <==> date in s.windows) && (date in s.windows ==> t.windows[date] == s.windows[date])
  {
    Calendar(c.local);
    OtherNoons(c.local, date);
  }

  ghost predicate AssignedBefore(calls: seq<Call>, i: nat, date: int)
    requires i <= |calls|
  {
    exists k: nat :: k < i && AssignedBy(calls, k, date)
  }

  ghost predicate FirstSeal(calls: seq<Call>, i: nat, date: int)
    requires i < |calls|
  {
    SealedBy(calls, i, date) && forall k: nat | k < i :: !SealedBy(calls, k, date)
  }

  /**
    Over every run, with any clock: the first call that seals a date decides for good.  The window is queued, with
    one notification stamped with that call's clock, if and only if the clock was within the hour and an item had
    been assigned to the date; it is empty if within the hour without one, and skipped otherwise.
   */
  lemma {:induction false} FirstSealDecides(calls: seq<Call>, i: nat, date: int)
    requires i < |calls| && FirstSeal(calls, i, date)
    ensures var t := Run(EMPTY, calls);
            var inHour := Opens(date) <= calls[i].local < Closes(date);
            var filled := AssignedBefore(calls, i, date);
            && date in t.windows
            && (t.windows[date].state == Queued <==> inHour && filled)
            && (t.windows[date].state == Empty <==> inHour && !filled)
            && (t.windows[date].state == Skipped <==> !inHour)
            && (inHour && filled ==> Notification(date, calls[i].local) in t.notifications)
  {
    var after := calls[..i + 1];
    assert after + calls[i + 1..] == calls && after[..i] == calls[..i];
    BeforeFirstSeal(calls, i, date);
    SealOutcome(Run(EMPTY, calls[..i]), calls[i], date);
    assert Run(EMPTY, after) == Step(Run(EMPTY, calls[..i]), calls[i]);
    SealedForGood(after, calls[i + 1..], date);
    NotificationStays(Run(EMPTY, after), Run(EMPTY, calls), Notification(date, calls[i].local));
  }

  lemma BeforeFirstSeal(calls: seq<Call>, i: nat, date: int)
    requires i < |calls| && FirstSeal(calls, i, date)
    ensures var s := Run(EMPTY, calls[..i]);
            Inv(s) && !Left(s, date) && (HasItems(s, date) <==> AssignedBefore(calls, i, date))
  {
    var before := calls[..i];
    forall k: nat | k < i ensures SealedBy(before, k, date) <==> SealedBy(calls, k, date) { assert before[..k] == calls[..k]; }
    LeftIffSealed(before, date);
    RunKeeps(EMPTY, before);
    ItemsAreAssigned(before, date);
    forall k: nat | k < i ensures AssignedBy(before, k, date) <==> AssignedBy(calls, k, date) {}
  }

  lemma NotificationStays(s: Db, t: Db, n: Notification)
    requires s.notifications <= t.notifications
    ensures n in s.notifications ==> n in t.notifications
  {
    if n in s.notifications {
      var x :| 0 <= x < |s.notifications| && s.notifications[x] == n;
      assert t.notifications[x] == n;
    }
  }

  /** A window is created collecting, under the binding of the call that first assigned to its date. */
  lemma AssignmentCreates(s: Db, evaluation: nat, binding: nat, local: int, now: int, date: int)
    requires Inv(s) && Opens(date) - DAY_US <= local < Opens(date)
    ensures var t := Assign(s, evaluation, binding, local, now);
            && t.windows == (if date in s.windows then s.windows else s.windows[date := Window(binding, Collecting, now)])
            && t.notifications == s.notifications
            && t.items == (if exists i :: 0 <= i < |s.items| && s.items[i].evaluation == evaluation then s.items
                           else s.items + [Item(date, evaluation)])
  {
    AssignedWhen(local, date);
  }

  // ---------------------------------------------------------------- as it runs

  class NoonAuthority {
    var windows: map<int, Window>
    var items: seq<Item>
    var notifications: seq<Notification>

    constructor ()
      ensures Rows() == EMPTY
    {
      windows, items, notifications := map[], [], [];
    }

    function Rows(): Db
      reads this
    {
      Db(windows, items, notifications)
    }

    /** The item assignment of _persist_candidates, for one ambiguous evaluation. */
    method AssignItem(evaluation: nat, binding: nat, local: int, now: int)
      modifies this`windows, this`items
      ensures Rows() == Assign(old(Rows()), evaluation, binding, local, now)
    {
      var date := DateOf(local);
      if HourOf(local) >= 12 { date := date + 1; }
      if date !in windows { windows := windows[date := Window(binding, Collecting, now)]; }
      var known := HasEvaluation(Rows(), evaluation);
      if !known { items := items + [Item(date, evaluation)]; }
    }

    /** enqueue_noon_digest_notification: one row a window. */
    method EnqueueNotification(date: int, committedAt: int)
      modifies this`notifications
      ensures notifications == (if Notified(old(Rows()), date) then old(notifications)
                                else old(notifications) + [Notification(date, committedAt)])
    {
      if !Notified(Rows(), date) { notifications := notifications + [Notification(date, committedAt)]; }
    }

    /** seal_noon_window; the drift error puts the skipped windows back. */
    method SealNoonWindow(binding: nat, local: int)
      modifies this
      ensures Rows() == Seal(old(Rows()), binding, local)
    {
      var today, hour := DateOf(local), HourOf(local);
      var before := windows;
      windows := SkipPast(windows, today);
      if today !in windows {
        if hour == 12 {
          windows := windows[today := Window(binding, Empty, local)];
        } else if hour >= 13 {
          windows := windows[today := Window(binding, Skipped, local)];
        }
        return;
      }
      if windows[today].state != Collecting { return; }
      if windows[today].binding != binding {
        windows := before;
        return;
      }
      if hour != 12 {
        if hour >= 13 { windows := windows[today := windows[today].(state := Skipped)]; }
        return;
      }
      if !HasItems(Rows(), today) {
        windows := windows[today := windows[today].(state := Empty)];
        return;
      }
      EnqueueNotification(today, local);
      windows := windows[today := windows[today].(state := Queued)];
    }
  }
}
