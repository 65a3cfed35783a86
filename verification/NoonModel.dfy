/**
  The noon window of ambiguous items: when items join it and when it is sealed.  Times are
  microseconds of Seoul local time, which is a fixed nine hours ahead of UTC.
 */
module NoonModel {
  import opened Common

  datatype WindowState = Collecting | Queued | Empty | Skipped
  datatype Window = Window(binding: nat, state: WindowState, createdAt: int)
  datatype Item = Item(window: int, evaluation: nat)
  datatype Notification = Notification(window: int, createdAt: int)

  /** Windows by local date (days since the epoch). */
  datatype Db = Db(windows: map<int, Window>, items: seq<Item>, notifications: seq<Notification>)

  const HOUR_US: int := 3_600_000_000
  const DAY_US: int := 86_400_000_000

  function DateOf(local: int): int { local / DAY_US }

  function HourOf(local: int): int { local % DAY_US / HOUR_US }

  /** Noon of a date, and the end of its window. */
  function Opens(date: int): int { date * DAY_US + 12 * HOUR_US }

  function Closes(date: int): int { Opens(date) + HOUR_US }

  // ---------------------------------------------------------------- item assignment

  function AssignedDate(local: int): int { if HourOf(local) < 12 then DateOf(local) else DateOf(local) + 1 }

  predicate HasEvaluation(s: Db, evaluation: nat) {
    exists i | 0 <= i < |s.items| :: s.items[i].evaluation == evaluation
  }

  /** INSERT OR IGNORE of the window, then of the item; `now` was read before `local` and only stamps the row. */
  function Assign(s: Db, evaluation: nat, binding: nat, local: int, now: int): Db {
    var date := AssignedDate(local);
    var windows := if date in s.windows then s.windows else s.windows[date := Window(binding, Collecting, now)];
    s.(windows := windows, items := if HasEvaluation(s, evaluation) then s.items else s.items + [Item(date, evaluation)])
  }

  // ---------------------------------------------------------------- seal_noon_window

  predicate HasItems(s: Db, date: int) {
    exists i | 0 <= i < |s.items| :: s.items[i].window == date
  }

  predicate Notified(s: Db, date: int) {
    exists i | 0 <= i < |s.notifications| :: s.notifications[i].window == date
  }

  /** Windows of earlier dates that still collect are skipped. */
  function SkipPast(windows: map<int, Window>, today: int): map<int, Window> {
    map d | d in windows :: if d < today && windows[d].state == Collecting then windows[d].(state := Skipped) else windows[d]
  }

  function Close(s: Db, date: int, state: WindowState): Db
    requires date in s.windows
  {
    s.(windows := s.windows[date := s.windows[date].(state := state)])
  }

  function Queue(s: Db, date: int, local: int): Db
    requires date in s.windows
  {
    Close(s.(notifications := if Notified(s, date) then s.notifications else s.notifications + [Notification(date, local)]),
          date, Queued)
  }

  /** The window of the day still collects under another configuration. */
  predicate Drifts(s: Db, binding: nat, local: int) {
    var today := DateOf(local);
    today in s.windows && s.windows[today].state == Collecting && s.windows[today].binding != binding
  }

  /** The window of the day, after earlier ones were skipped; None is the drift error, which rolls back. */
  function SealToday(s: Db, binding: nat, local: int): Option<Db> {
    var today, hour := DateOf(local), HourOf(local);
    if today !in s.windows then
      if hour == 12 then Some(s.(windows := s.windows[today := Window(binding, Empty, local)]))
      else if hour >= 13 then Some(s.(windows := s.windows[today := Window(binding, Skipped, local)]))
      else Some(s)
    else if s.windows[today].state != Collecting then Some(s)
    else if Drifts(s, binding, local) then None
    else if hour < 12 then Some(s)
    else if hour >= 13 then Some(Close(s, today, Skipped))
    else if !HasItems(s, today) then Some(Close(s, today, Empty))
    else Some(Queue(s, today, local))
  }

  function Seal(s: Db, binding: nat, local: int): Db {
    var r := SealToday(s.(windows := SkipPast(s.windows, DateOf(local))), binding, local);
    if r.None? then s else r.value
  }

  // ---------------------------------------------------------------- runs

  datatype Call = CallAssign(evaluation: nat, binding: nat, local: int, now: int) | CallSeal(binding: nat, local: int)

  function Step(s: Db, c: Call): Db {
    match c
    case CallAssign(evaluation, binding, local, now) => Assign(s, evaluation, binding, local, now)
    case CallSeal(binding, local) => Seal(s, binding, local)
  }

  function Run(s: Db, calls: seq<Call>): Db
    decreases |calls|
  {
    if calls == [] then s else Step(Run(s, calls[..|calls| - 1]), calls[|calls| - 1])
  }

  const EMPTY: Db := Db(map[], [], [])
}
