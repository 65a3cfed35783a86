/**
  DurableCollection as it runs: rows and loops updated in place, with a possible stop between
  any two transactions, against a remote channel that changes between any two requests.
 */
module Collection {
  import opened Common
  import opened CollectionModel

  datatype Cursor = Cursor(publishedAt: int, id: nat)

  datatype Interval = Interval(floorAt: int, upperAt: int, base: nat, upper: nat, next: nat, floorApplies: bool,
                               complete: bool, overlapNext: Option<nat>)

  datatype Outcome = Collected(persisted: nat, complete: bool, promoted: bool) | Stopped | Failed

  /** Work left in an interval: its primary pages first, then its overlap pages. */
  ghost function PrimaryLeft(iv: Interval): int { if iv.complete then 0 else 1 + iv.upper - iv.next }

  ghost function OverlapLeft(iv: Interval): int {
    if iv.overlapNext.None? then iv.base + 1 else iv.base - iv.overlapNext.value
  }

  ghost predicate Less(a: Interval, b: Interval) {
    PrimaryLeft(a) < PrimaryLeft(b) || (PrimaryLeft(a) == PrimaryLeft(b) && OverlapLeft(a) < OverlapLeft(b))
  }

  class DurableCollection {
    const world: World
    // the drivers leave both at their defaults
    const overlap: int
    const overlapIds: int
    // whether the process dies at its k-th point between two transactions
    const dies: nat -> bool
    var clock: nat
    var requests: nat
    var cursor: Option<Cursor>
    var interval: Option<Interval>
    var store: Store
    // where the first interval began and ended; fixed by the first promotion
    ghost var firstFloor: int
    ghost var firstUpper: nat
    // the instant at which the interval in force was fixed
    ghost var fixedAt: nat
    // how many posts pages have brought so far
    ghost var brought: nat

    constructor (w: World, overlap: int, overlapIds: int, dies: nat -> bool)
      requires Truthful(w)
      ensures Valid() && world == w && cursor.None? && interval.None?
    {
      world, clock, requests, cursor, interval := w, 0, 0, None, None;
      this.overlap, this.overlapIds, this.dies := overlap, overlapIds, dies;
      fixedAt, brought := 0, 0;
      store := Store(map[], {}, {});
      firstFloor, firstUpper := 0, 0;
    }

    // ---------------------------------------------------------------- invariant

    /** Where the overlap below an interval begins, and what it may leave out as too old. */
    function OverlapFrom(iv: Interval): nat { Max(0, iv.base - overlapIds) }

    function OverlapFloor(iv: Interval): int {
      if iv.floorApplies then Max(iv.floorAt, iv.upperAt - overlap) else iv.upperAt - overlap
    }

    /** The newest id that the channel reported at an instant, or the base if it reported none. */
    function Newest(t: nat, base: nat): nat { if world.latest(t).None? then base else world.latest(t).value }

    function Base(): nat
      reads this`cursor
    {
      if cursor.Some? then cursor.value.id else 0
    }

    ghost predicate IntervalOk(iv: Interval)
      reads this`cursor, this`clock, this`store, this`fixedAt
    {
      && iv.upper == Newest(fixedAt, iv.base)
      && iv.base == (if cursor.Some? then cursor.value.id else 0) && iv.floorApplies == cursor.None?
      && iv.base <= iv.next <= iv.upper <= world.top(clock)
      && fixedAt <= clock && overlapIds >= 1
      && (iv.overlapNext.Some? ==>
            && iv.complete && OverlapFrom(iv) < iv.overlapNext.value <= iv.base
            && Rereads(world, fixedAt, clock, store, OverlapFrom(iv), iv.overlapNext.value, OverlapFloor(iv), None))
      && Covers(world, clock, store, iv.base, if iv.complete then iv.upper else iv.next,
                if iv.floorApplies then Some(iv.floorAt) else None)
    }

    /** Nothing the channel still holds up to the cursor is missing, but for what predates the first floor. */
    ghost predicate NoGap()
      reads this`cursor, this`clock, this`store, this`firstFloor, this`firstUpper
    {
      cursor.Some? ==>
        && cursor.value.id <= world.top(clock) && firstUpper <= cursor.value.id
        && Covers(world, clock, store, 0, firstUpper, Some(firstFloor))
        && Covers(world, clock, store, firstUpper, cursor.value.id, None)
    }

    ghost predicate Valid()
      reads this`cursor, this`clock, this`store, this`firstFloor, this`firstUpper, this`interval, this`fixedAt
    {
      Truthful(world) && NoGap() && (interval.Some? ==> IntervalOk(interval.value))
    }

    /** Time passes and rows are added: the invariant holds at the later instant. */
    twostate lemma Later()
      requires old(Valid()) && old(clock) <= clock && Extends(old(store), store)
      requires cursor == old(cursor) && interval == old(interval) && fixedAt == old(fixedAt)
      requires firstFloor == old(firstFloor) && firstUpper == old(firstUpper)
      ensures Valid()
    {
      assert Follows(world, old(clock), clock);
      if cursor.Some? {
        CoversLater(world, old(clock), clock, old(store), store, 0, firstUpper, Some(firstFloor));
        CoversLater(world, old(clock), clock, old(store), store, firstUpper, cursor.value.id, None);
      }
      if interval.Some? {
        var iv := interval.value;
        CoversLater(world, old(clock), clock, old(store), store, iv.base, if iv.complete then iv.upper else iv.next,
                    if iv.floorApplies then Some(iv.floorAt) else None);
        if iv.overlapNext.Some? {
          RereadsLater(world, fixedAt, old(clock), clock, old(store), store, OverlapFrom(iv), iv.overlapNext.value,
                       OverlapFloor(iv), None);
        }
      }
    }

    /**
      A promotion: never backwards, with nothing missing between the old cursor and the new one, and with the
      overlap below the old cursor read again since the interval was fixed.
     */
    ghost predicate MovedFrom(was: Option<Cursor>)
      reads this`cursor, this`clock, this`store, this`firstFloor, this`interval, this`fixedAt
    {
      var base := if was.Some? then was.value.id else 0;
      && interval.None? && cursor.Some? && base <= cursor.value.id
      && Covers(world, clock, store, base, cursor.value.id, if was.Some? then None else Some(firstFloor))
      && fixedAt <= clock && cursor.value.id == Newest(fixedAt, base)
      && (was.Some? ==>
            Rereads(world, fixedAt, clock, store, Max(0, base - overlapIds), base, cursor.value.publishedAt - overlap, None))
    }

    /** Points were passed, and at the last of them the process died. */
    predicate Died(from: nat, to: nat) { from < to && dies(to - 1) }

    // ---------------------------------------------------------------- pages

    /** _page: one request, filtered, sorted and cut. */
    method Page(r: Request, pageSize: nat) returns (page: seq<Post>, hasMore: bool, ghost at: nat)
      requires Valid() && pageSize >= 1 && r.limit == pageSize + 1
      modifies this`clock, this`requests
      ensures Valid() && clock == old(clock) + 1 && requests == old(requests) + 1 && at == clock
      ensures var o := Ordered(world.rows(clock, r), r);
              hasMore == (|o| > pageSize) && page == if hasMore then o[..pageSize] else o
    {
      clock := clock + 1;
      requests := requests + 1;
      Later();
      at := clock;
      var ordered := Ordered(world.rows(clock, r), r);
      hasMore := |ordered| > pageSize;
      page := if hasMore then ordered[..pageSize] else ordered;
    }

    /** _persist_page: one transaction over the page, in order. */
    method PersistPage(page: seq<Post>, observedAt: int)
      requires Valid()
      modifies this`store, this`brought
      ensures store == PersistAll(old(store), page, observedAt) && Valid() && brought == old(brought) + |page|
    {
      for i := 0 to |page|
        invariant store == PersistAll(old(store), page[..i], observedAt) && brought == old(brought)
      {
        assert page[..i + 1][..i] == page[..i];
        store := Persist(store, page[i], observedAt);
      }
      assert page[..|page|] == page;
      PersistAllAdds(old(store), page, observedAt);
      brought := brought + |page|;
      Later();
    }

    /** A page is read and then stored: what it covers is covered from now on. */
    method StorePage(r: Request, pageSize: nat, observedAt: int) returns (page: seq<Post>, hasMore: bool)
      requires Valid() && pageSize >= 1 && r.limit == pageSize + 1
      modifies this`clock, this`requests, this`store, this`brought
      ensures Valid() && clock == old(clock) + 1 && requests == old(requests) + 1 && Extends(old(store), store)
      ensures brought == old(brought) + |page|
      ensures hasMore ==> |page| == pageSize && r.after < page[pageSize - 1].id <= r.upper
      ensures r.ceiling.None? ==> Covers(world, clock, store, r.after, if hasMore then page[pageSize - 1].id else r.upper, r.floor)
      ensures r.floor.Some? ==>
                Rereads(world, clock, clock, store, r.after, if hasMore then page[pageSize - 1].id else r.upper, r.floor.value, r.ceiling)
    {
      ghost var at;
      page, hasMore, at := Page(r, pageSize);
      if hasMore { NextPosition(world, at, r, pageSize); }
      ghost var before := store;
      PersistPage(page, observedAt);
      PersistAllAdds(before, page, observedAt);
      if r.ceiling.None? { PageCovers(world, at, r, pageSize, before, observedAt); }
      if r.floor.Some? { PageRereads(world, at, r, pageSize, before, observedAt); }
    }

    // ---------------------------------------------------------------- collect_channel

    /**
      The interval in force, or a new one: from the cursor to the newest id that the channel reports now, with the
      lookback as its floor if there is no cursor.  It is refused only when that id lies before the cursor.
     */
    method FixInterval(now: int, lookback: int) returns (ok: bool)
      requires Valid() && overlapIds >= 1
      modifies this`clock, this`interval, this`fixedAt
      ensures Valid() && old(clock) <= clock <= old(clock) + 1
      ensures old(interval).Some? ==> ok && interval == old(interval) && fixedAt == old(fixedAt)
      ensures old(interval).None? ==> (ok <==> Base() <= Newest(old(clock) + 1, Base()))
      ensures old(interval).None? && ok ==>
                && clock == fixedAt == old(clock) + 1 && interval.Some?
                && Fixed(interval.value, cursor, now, lookback, old(clock) + 1)
                && interval.value.next == interval.value.base && !interval.value.complete && interval.value.overlapNext.None?
      ensures !ok ==> interval.None? && fixedAt == old(fixedAt)
    {
      if interval.Some? { return true; }
      var floor := if cursor.Some? then cursor.value.publishedAt else now - lookback;
      var base := if cursor.Some? then cursor.value.id else 0;
      clock := clock + 1;
      Later();
      var newest := world.latest(clock);
      var upper := if newest.None? then base else newest.value;
      if upper < base { return false; }
      interval := Some(Interval(floor, now, base, upper, base, cursor.None?, false, None));
      fixedAt := clock;
      return true;
    }

    /** What an interval that a call fixed at instant `at` says for as long as it is in force. */
    ghost predicate Fixed(iv: Interval, from: Option<Cursor>, now: int, lookback: int, at: nat) {
      && iv.upperAt == now && iv.floorApplies == from.None?
      && iv.upper == Newest(at, iv.base)
      && (from.Some? ==> iv.base == from.value.id && iv.floorAt == from.value.publishedAt)
      && (from.None? ==> iv.base == 0 && iv.floorAt == now - lookback)
    }

    /** The primary page of an interval that is not complete yet, in two transactions. */
    method PrimaryPage(now: int, pageSize: nat, point: nat) returns (count: nat, stopped: bool)
      requires Valid() && pageSize >= 1 && interval.Some? && !interval.value.complete
      modifies this`clock, this`requests, this`store, this`interval, this`brought
      ensures Valid() && requests == old(requests) + 1 && clock >= old(clock) && Extends(old(store), store)
      ensures brought == old(brought) + count && stopped == dies(point)
      ensures interval.Some? && Frozen(old(interval).value, interval.value)
      ensures if stopped then interval == old(interval)
              else interval.value.overlapNext == old(interval).value.overlapNext
                   && PrimaryLeft(interval.value) < PrimaryLeft(old(interval).value)
    {
      var iv := interval.value;
      var floor := if iv.floorApplies then Some(iv.floorAt) else None;
      var r := Request(floor, None, iv.next, iv.upper, pageSize + 1);
      var page, hasMore := StorePage(r, pageSize, now);
      count := |page|;
      if dies(point) { return count, true; }
      if hasMore { Advance(iv.(next := page[|page| - 1].id)); } else { Advance(iv.(complete := true)); }
      return count, false;
    }

    /** The transaction that records a stored primary page. */
    method Advance(to: Interval)
      requires Valid() && interval.Some? && !interval.value.complete && Frozen(interval.value, to)
      requires to.overlapNext == interval.value.overlapNext
      requires interval.value.next <= to.next <= to.upper
      requires Covers(world, clock, store, interval.value.next, if to.complete then to.upper else to.next,
                      if to.floorApplies then Some(to.floorAt) else None)
      modifies this`interval
      ensures Valid() && interval == Some(to)
    {
      interval := Some(to);
    }

    /** What an overlap pass over the interval in force is given. */
    ghost predicate OverlapPass(floor: int, ceiling: Option<int>, after: nat, upper: nat)
      reads this`interval
    {
      && interval.Some? && interval.value.complete && upper == interval.value.base && ceiling.None?
      && floor == OverlapFloor(interval.value)
      && after == (if interval.value.overlapNext.None? then OverlapFrom(interval.value) else interval.value.overlapNext.value)
    }

    /** The overlap up to a position has been read again since the interval was fixed. */
    ghost predicate OverlapRead(position: nat)
      reads this`interval, this`fixedAt, this`clock, this`store
    {
      && interval.Some? && fixedAt <= clock && OverlapFrom(interval.value) <= position <= interval.value.base
      && Rereads(world, fixedAt, clock, store, OverlapFrom(interval.value), position, OverlapFloor(interval.value), None)
    }

    /**
      _reconcile: pages of a stretch, each followed, if asked, by a transaction that records how far it got.
      What the channel still holds up to `reached` was read again; short of the end, every page was full.
     */
    method Reconcile(floor: int, ceiling: Option<int>, after: nat, upper: nat, pageSize: nat, maxPages: nat, observedAt: int, record: bool,
                     from: nat)
      returns (persisted: nat, done: bool, stopped: bool, ghost reached: nat, point: nat)
      requires Valid() && pageSize >= 1 && after <= upper <= world.top(clock)
      requires record ==> OverlapPass(floor, ceiling, after, upper)
      modifies this`clock, this`requests, this`store, this`interval, this`brought
      ensures Valid() && old(requests) <= requests <= old(requests) + maxPages
      ensures Extends(old(store), store) && old(clock) <= clock && brought == old(brought) + persisted
      ensures from <= point && (stopped ==> Died(from, point))
      ensures Rereads(world, old(clock), clock, store, after, reached, floor, ceiling)
      ensures done ==> reached == upper
      ensures !done && !stopped ==> requests == old(requests) + maxPages && persisted == maxPages * pageSize
      ensures !record ==> interval == old(interval)
      ensures record ==> interval.Some? && interval.value == old(interval).value.(overlapNext := interval.value.overlapNext)
      ensures record && !done && !stopped && maxPages >= 1 ==> OverlapLeft(interval.value) < OverlapLeft(old(interval).value)
      ensures record && done ==> OverlapRead(upper)
    {
      var position := after;
      persisted, reached, point := 0, after, from;
      for i := 0 to maxPages
        invariant Valid() && requests == old(requests) + i && Extends(old(store), store) && old(clock) <= clock
        invariant brought == old(brought) + persisted && from <= point
        invariant after <= position <= upper <= world.top(clock) && reached == position && persisted == i * pageSize
        invariant Rereads(world, old(clock), clock, store, after, position, floor, ceiling)
        invariant !record ==> interval == old(interval)
        invariant record ==> interval.Some? && interval.value == old(interval).value.(overlapNext := interval.value.overlapNext)
        invariant record ==> OverlapRead(position)
        invariant i == 0 ==> interval == old(interval) && position == after
        invariant record && i > 0 ==> interval.value.overlapNext == Some(position)
                                      && OverlapLeft(interval.value) < OverlapLeft(old(interval).value)
      {
        var page, hasMore := ReconcilePage(floor, ceiling, after, position, upper, pageSize, observedAt, record, old(clock));
        persisted := persisted + |page|;
        if !hasMore { return persisted, true, false, upper, point; }
        position := page[|page| - 1].id;
        reached := position;
        point := point + 1;
        if dies(point - 1) { return persisted, false, true, reached, point; }
        if record { RecordOverlap(position); }
      }
      return persisted, false, false, position, point;
    }

    /** The transaction that records how far an overlap pass got. */
    method RecordOverlap(position: nat)
      requires Valid() && OverlapRead(position) && interval.value.complete && OverlapFrom(interval.value) < position
      modifies this`interval
      ensures Valid() && interval == Some(old(interval).value.(overlapNext := Some(position)))
    {
      interval := Some(interval.value.(overlapNext := Some(position)));
    }

    /** One page of a pass: what was read again reaches its last post, or the end. */
    method ReconcilePage(floor: int, ceiling: Option<int>, after: nat, position: nat, upper: nat, pageSize: nat,
                         observedAt: int, record: bool, ghost since: nat)
      returns (page: seq<Post>, hasMore: bool)
      requires Valid() && pageSize >= 1 && since <= clock && after <= position <= upper <= world.top(clock)
      requires Rereads(world, since, clock, store, after, position, floor, ceiling)
      requires record ==> OverlapRead(position) && ceiling.None? && floor == OverlapFloor(interval.value) && upper == interval.value.base
      modifies this`clock, this`requests, this`store, this`brought
      ensures Valid() && requests == old(requests) + 1 && Extends(old(store), store)
      ensures old(clock) <= clock && upper <= world.top(clock) && brought == old(brought) + |page|
      ensures hasMore ==> |page| == pageSize && position < page[|page| - 1].id <= upper
      ensures Rereads(world, since, clock, store, after, if hasMore then page[|page| - 1].id else upper, floor, ceiling)
      ensures record ==> OverlapRead(if hasMore then page[|page| - 1].id else upper)
    {
      var r := Request(Some(floor), ceiling, position, upper, pageSize + 1);
      page, hasMore := StorePage(r, pageSize, observedAt);
      assert Follows(world, old(clock), clock);
      ghost var to := if hasMore then page[|page| - 1].id else upper;
      ReadFurther(world, since, old(clock), clock, old(store), store, after, position, to, floor, ceiling);
      if record {
        ReadFurther(world, fixedAt, old(clock), clock, old(store), store, OverlapFrom(interval.value), position, to, floor, None);
      }
    }

    /** The cursor moves to the end of the complete interval, which is removed in the same transaction. */
    method Promote()
      requires Valid() && interval.Some? && interval.value.complete && OverlapRead(interval.value.base)
      modifies this`cursor, this`interval, this`firstFloor, this`firstUpper
      ensures Valid() && interval.None?
      ensures cursor == Some(Cursor(old(interval).value.upperAt, old(interval).value.upper))
      ensures MovedFrom(old(cursor))
      ensures if old(cursor).Some? then firstFloor == old(firstFloor) && firstUpper == old(firstUpper)
              else firstFloor == old(interval).value.floorAt && firstUpper == old(interval).value.upper
    {
      var iv := interval.value;
      if cursor.None? { firstFloor, firstUpper := iv.floorAt, iv.upper; }
      cursor := Some(Cursor(iv.upperAt, iv.upper));
      interval := None;
    }

    /** Arguments that are refused before anything is read. */
    predicate Refused(pageSize: int, maxOverlapPages: int, maxRemotePages: Option<int>) {
      pageSize < 1 || maxOverlapPages < 1 || overlapIds < 1 || (maxRemotePages.Some? && maxRemotePages.value < 1)
    }

    /** The call ended with the promotion of this interval. */
    ghost predicate Promoted(was: Option<Cursor>, iv: Interval)
      reads this`cursor, this`clock, this`store, this`firstFloor, this`interval, this`fixedAt
    {
      MovedFrom(was) && cursor == Some(Cursor(iv.upperAt, iv.upper)) && (was.None? ==> firstFloor == iv.floorAt)
    }

    /**
      One bounded invocation.  Whatever it returns and wherever it stops, nothing is lost; the cursor
      moves only by a promotion, whose whole interval is covered; otherwise an unstopped call leaves less work.
      `worked` is the interval it worked on: the one in force, or one fixed by this call.
     */
    method CollectChannel(now: int, pageSize: int, lookback: int, maxOverlapPages: int, maxRemotePages: Option<int>, from: nat)
      returns (result: Outcome, ghost worked: Interval, point: nat)
      requires Valid()
      modifies this
      ensures Valid() && Extends(old(store), store)
      ensures cursor != old(cursor) || (result.Collected? && result.promoted) ==> MovedFrom(old(cursor))
      ensures result.Failed? <==>
                || Refused(pageSize, maxOverlapPages, maxRemotePages)
                || (old(interval).None? && Newest(old(clock) + 1, old(Base())) < old(Base()))
      ensures from <= point && (result.Stopped? ==> Died(from, point))
      ensures result.Failed? ==> cursor == old(cursor) && interval == old(interval) && store == old(store)
      ensures result.Collected? ==>
                if old(interval).Some? then worked == old(interval).value && fixedAt == old(fixedAt)
                else Fixed(worked, old(cursor), now, lookback, old(clock) + 1) && fixedAt == old(clock) + 1
      ensures result.Collected? ==> result.complete == result.promoted && result.persisted == brought - old(brought)
      ensures result.Collected? && result.promoted ==> Promoted(old(cursor), worked)
      ensures result.Collected? && !result.promoted ==> interval.Some? && Frozen(worked, interval.value) && cursor == old(cursor)
      ensures result.Collected? && !result.promoted ==> Less(interval.value, worked)
      ensures maxRemotePages.Some? ==> requests <= old(requests) + Max(0, maxRemotePages.value)
    {
      worked, point := Interval(0, 0, 0, 0, 0, false, false, None), from;
      if pageSize < 1 || maxOverlapPages < 1 || overlapIds < 1 || (maxRemotePages.Some? && maxRemotePages.value < 1) {
        return Failed, worked, point;
      }
      var fixed := FixInterval(now, lookback);
      if !fixed { return Failed, worked, point; }
      worked, point := interval.value, point + 1;
      if dies(point - 1) { return Stopped, worked, point; }
      result, point := CollectInterval(now, pageSize, maxOverlapPages, maxRemotePages, point);
    }

    /** The part of an invocation that follows the fixing of the interval. */
    method CollectInterval(now: int, pageSize: nat, maxOverlapPages: nat, maxRemotePages: Option<int>, from: nat)
      returns (result: Outcome, point: nat)
      requires Valid() && interval.Some? && pageSize >= 1 && maxOverlapPages >= 1
      requires maxRemotePages.Some? ==> maxRemotePages.value >= 1
      modifies this
      ensures Valid() && Extends(old(store), store) && fixedAt == old(fixedAt) && !result.Failed?
      ensures from <= point && (result.Stopped? ==> Died(from, point))
      ensures cursor != old(cursor) || (result.Collected? && result.promoted) ==> MovedFrom(old(cursor))
      ensures result.Collected? ==> result.complete == result.promoted && result.persisted == brought - old(brought)
      ensures result.Collected? && result.promoted ==> Promoted(old(cursor), old(interval).value)
      ensures result.Collected? && !result.promoted ==> interval.Some? && Frozen(old(interval).value, interval.value)
      ensures result.Collected? && !result.promoted ==> Less(interval.value, old(interval).value) && cursor == old(cursor)
      ensures maxRemotePages.Some? ==> requests <= old(requests) + maxRemotePages.value
    {
      var count: nat, stopped := 0, false;
      var primary := !interval.value.complete;
      point := from;
      if primary {
        count, stopped := PrimaryPage(now, pageSize, point);
        point := point + 1;
        if stopped { return Stopped, point; }
      }
      point := point + 1;
      if dies(point - 1) { return Stopped, point; }
      if !interval.value.complete { return Collected(count, false, false), point; }
      var budget := maxOverlapPages;
      if maxRemotePages.Some? {
        var left := maxRemotePages.value - (if primary then 1 else 0);
        budget := if maxOverlapPages <= left then maxOverlapPages else left;
      }
      if budget < 1 { return Collected(count, false, false), point; }
      var persisted, promoted, halted;
      persisted, promoted, halted, point := OverlapThenPromote(now, pageSize, budget, point);
      if halted { return Stopped, point; }
      return Collected(count + persisted, promoted, promoted), point;
    }

    /** The overlap pages, and the promotion once they reach the base. */
    method OverlapThenPromote(now: int, pageSize: nat, budget: nat, from: nat)
      returns (persisted: nat, promoted: bool, stopped: bool, point: nat)
      requires Valid() && pageSize >= 1 && budget >= 1 && interval.Some? && interval.value.complete
      modifies this
      ensures Valid() && Extends(old(store), store) && requests <= old(requests) + budget
      ensures fixedAt == old(fixedAt) && brought == old(brought) + persisted
      ensures from <= point && (stopped ==> Died(from, point))
      ensures promoted ==> Promoted(old(cursor), old(interval).value)
      ensures !promoted ==> cursor == old(cursor) && interval.Some? && Frozen(old(interval).value, interval.value)
      ensures !promoted && !stopped ==> Less(interval.value, old(interval).value)
    {
      var done, halted;
      persisted, done, halted, point := OverlapPages(now, pageSize, budget, from);
      if halted || !done { return persisted, false, halted, point; }
      point := point + 1;
      if dies(point - 1) { return persisted, false, true, point; }
      Promote();
      return persisted, true, dies(point), point + 1;
    }

    /** The overlap below the base is read again, from where the last invocation left off. */
    method OverlapPages(now: int, pageSize: nat, budget: nat, from: nat)
      returns (persisted: nat, done: bool, stopped: bool, point: nat)
      requires Valid() && pageSize >= 1 && budget >= 1 && interval.Some? && interval.value.complete
      modifies this`clock, this`requests, this`store, this`interval, this`brought
      ensures from <= point && (stopped ==> Died(from, point))
      ensures Valid() && old(requests) <= requests <= old(requests) + budget
      ensures Extends(old(store), store) && brought == old(brought) + persisted
      ensures interval.Some? && interval.value == old(interval).value.(overlapNext := interval.value.overlapNext)
      ensures !done && !stopped ==> OverlapLeft(interval.value) < OverlapLeft(old(interval).value)
      ensures done ==> OverlapRead(interval.value.base)
    {
      ghost var reached;
      var iv := interval.value;
      var floor := if iv.floorApplies then Max(iv.floorAt, iv.upperAt - overlap) else iv.upperAt - overlap;
      var after: nat := if iv.overlapNext.None? then Max(0, iv.base - overlapIds) else iv.overlapNext.value;
      persisted, done, stopped, reached, point := Reconcile(floor, None, after, iv.base, pageSize, budget, now, true, from);
    }

    /**
      The drivers' loop, which reads the clock anew for every call.  It ends, and unless a call stops or fails it
      ends with a promotion.  Begun without an interval in force, it moves the cursor to the newest id that the
      channel reported at its start (where it was, if none), dated by the first reading: every post that the channel
      still holds from the old cursor up to that id is stored, the first time from the lookback on.
     */
    method CollectUntilComplete(readings: nat -> int, pageSize: int, lookback: int, maxOverlapPages: int, maxRemotePages: Option<int>,
                                from: nat)
      returns (result: Outcome, point: nat)
      requires Valid()
      modifies this
      ensures Valid() && Extends(old(store), store)
      ensures from <= point && (result.Stopped? ==> Died(from, point))
      ensures result.Failed? ==>
                || Refused(pageSize, maxOverlapPages, maxRemotePages)
                || (old(interval).None? && Newest(old(clock) + 1, old(Base())) < old(Base()))
      ensures result.Collected? ==> result.promoted && MovedFrom(old(cursor))
      ensures result.Collected? && old(interval).None? ==>
                var u := old(clock) + 1;
                var base := if old(cursor).Some? then old(cursor).value.id else 0;
                && u <= clock && cursor.value.publishedAt == readings(0)
                && cursor.value.id == (if world.latest(u).Some? then world.latest(u).value else base)
                && Covers(world, clock, store, base, cursor.value.id,
                          if old(cursor).Some? then None else Some(readings(0) - lookback))
    {
      ghost var first;
      result, first, point := Repeat(readings, pageSize, lookback, maxOverlapPages, maxRemotePages, from);
    }

    /** The first call, and then the others until its interval is promoted. */
    method Repeat(readings: nat -> int, pageSize: int, lookback: int, maxOverlapPages: int, maxRemotePages: Option<int>, from: nat)
      returns (result: Outcome, ghost first: Interval, point: nat)
      requires Valid()
      modifies this
      ensures Valid() && Extends(old(store), store)
      ensures from <= point && (result.Stopped? ==> Died(from, point))
      ensures result.Failed? ==>
                || Refused(pageSize, maxOverlapPages, maxRemotePages)
                || (old(interval).None? && Newest(old(clock) + 1, old(Base())) < old(Base()))
      ensures result.Collected? ==> result.promoted && Promoted(old(cursor), first)
      ensures result.Collected? && old(interval).None? ==>
                fixedAt == old(clock) + 1 && Fixed(first, old(cursor), readings(0), lookback, old(clock) + 1)
    {
      result, first, point := CollectChannel(readings(0), pageSize, lookback, maxOverlapPages, maxRemotePages, from);
      if result.Collected? && !result.complete {
        result, point := Continue(readings, pageSize, lookback, maxOverlapPages, maxRemotePages, point);
      }
    }

    /** Every further call works on the interval in force. */
    method Continue(readings: nat -> int, pageSize: int, lookback: int, maxOverlapPages: int, maxRemotePages: Option<int>, from: nat)
      returns (result: Outcome, point: nat)
      requires Valid() && interval.Some? && !Refused(pageSize, maxOverlapPages, maxRemotePages)
      modifies this
      ensures Valid() && Extends(old(store), store) && !result.Failed?
      ensures from <= point && (result.Stopped? ==> Died(from, point))
      ensures result.Collected? ==> result.promoted && Promoted(old(cursor), old(interval).value) && fixedAt == old(fixedAt)
    {
      var calls: nat := 1;
      ghost var worked;
      point := from;
      result := Collected(0, false, false);
      while result.Collected? && !result.complete
        invariant Valid() && Extends(old(store), store) && !result.Failed?
        invariant from <= point && (result.Stopped? ==> Died(from, point))
        invariant result.Collected? ==> result.complete == result.promoted && fixedAt == old(fixedAt)
        invariant result.Collected? && !result.promoted ==>
                    interval.Some? && Frozen(old(interval).value, interval.value) && cursor == old(cursor)
        invariant result.Collected? && result.promoted ==> Promoted(old(cursor), old(interval).value)
        decreases result.Collected? && !result.complete, if interval.Some? then PrimaryLeft(interval.value) else 0,
                  if interval.Some? then OverlapLeft(interval.value) else 0
      {
        result, worked, point := CollectChannel(readings(calls), pageSize, lookback, maxOverlapPages, maxRemotePages, point);
        calls := calls + 1;
      }
    }

    /**
      reconcile_channel: a deep re-read that stores rows and moves neither cursor nor interval.  Every post of the
      time span that the channel still holds up to `reached` was read again, and that is the newest id unless
      the pages ran out.
     */
    method ReconcileChannel(lower: int, upperBound: int, pageSize: int, maxPages: int, observedAt: int, from: nat)
      returns (persisted: Option<nat>, ghost reached: nat, point: nat)
      requires Valid()
      modifies this`clock, this`requests, this`store, this`interval, this`brought
      ensures Valid() && Extends(old(store), store) && interval == old(interval)
      ensures persisted.Some? ==> persisted.value == brought - old(brought)
      ensures persisted.None? && pageSize >= 1 && maxPages >= 1 && lower <= upperBound ==> Died(from, point)
      ensures old(requests) <= requests <= old(requests) + Max(0, maxPages)
      ensures pageSize < 1 || maxPages < 1 || lower > upperBound ==> persisted.None? && clock == old(clock) && store == old(store)
      ensures Rereads(world, old(clock), clock, store, 0, reached, lower, Some(upperBound))
      ensures persisted.Some? && world.latest(old(clock) + 1).Some? && reached != world.latest(old(clock) + 1).value ==>
                requests == old(requests) + maxPages && persisted.value == maxPages * pageSize
    {
      persisted, reached, point := None, 0, from;
      if pageSize < 1 || maxPages < 1 || lower > upperBound { return; }
      clock := clock + 1;
      Later();
      var newest := world.latest(clock);
      if newest.None? { return Some(0), 0, point; }
      ghost var since := clock;
      var n, done, stopped;
      n, done, stopped, reached, point := Reconcile(lower, Some(upperBound), 0, newest.value, pageSize, maxPages, observedAt, false, from);
      ReadSince(world, old(clock), since, clock, store, 0, reached, lower, Some(upperBound));
      if !stopped { persisted := Some(n); }
    }
  }

  /** What an interval keeps from its creation to its promotion. */
  ghost predicate Frozen(a: Interval, b: Interval) {
    b == a.(next := b.next, complete := b.complete, overlapNext := b.overlapNext)
  }

  /** A stretch read earlier, and the adjoining one just now. */
  lemma ReadFurther(w: World, since: nat, t: nat, u: nat, st: Store, more: Store, lo: nat, mid: nat, hi: nat, floor: int,
                    ceiling: Option<int>)
    requires Truthful(w) && since <= t <= u && Extends(st, more) && mid <= w.top(t)
    requires Rereads(w, since, t, st, lo, mid, floor, ceiling) && Rereads(w, u, u, more, mid, hi, floor, ceiling)
    ensures Rereads(w, since, u, more, lo, hi, floor, ceiling)
  {
    RereadsLater(w, since, t, u, st, more, lo, mid, floor, ceiling);
    RereadsJoin(w, since, u, more, lo, mid, hi, floor, ceiling);
  }

  /** Two adjoining stretches of which the second was read just now. */
  lemma RereadsJoin(w: World, since: nat, t: nat, st: Store, lo: nat, mid: nat, hi: nat, floor: int, ceiling: Option<int>)
    requires since <= t && Rereads(w, since, t, st, lo, mid, floor, ceiling) && Rereads(w, t, t, st, mid, hi, floor, ceiling)
    ensures Rereads(w, since, t, st, lo, hi, floor, ceiling)
  {
    ReadSince(w, since, t, t, st, mid, hi, floor, ceiling);
  }

  lemma ReadSince(w: World, earlier: nat, since: nat, t: nat, st: Store, lo: nat, hi: nat, floor: int, ceiling: Option<int>)
    requires earlier <= since && Rereads(w, since, t, st, lo, hi, floor, ceiling)
    ensures Rereads(w, earlier, t, st, lo, hi, floor, ceiling)
  {
    forall id | id in w.at(t) && lo < id <= hi && Within(w.at(t)[id], floor, ceiling) ensures ReadAgain(w, earlier, t, st, id) {
      assert ReadAgain(w, since, t, st, id);
    }
  }
}
