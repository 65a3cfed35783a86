/**
  What the durable collector reads and writes: a remote channel seen at successive instants,
  the page that one request yields, and the rows that a page leaves behind.
 */
module CollectionModel {
  import opened Common

  datatype Post = Post(id: nat, publishedAt: int, content: nat, snapshot: nat)

  /** One collect call: posts published from `floor` on, with after < id <= upper, up to `limit` of them. */
  datatype Request = Request(floor: Option<int>, ceiling: Option<int>, after: nat, upper: nat, limit: nat)

  /**
    The remote channel over time: what it holds at each instant, the highest id ever assigned by then,
    the newest id it reports, and the rows it answers to a request.
   */
  datatype World = World(at: nat -> map<nat, Post>, top: nat -> nat, latest: nat -> Option<nat>,
                         rows: (nat, Request) -> seq<Post>)

  predicate Matches(r: Request, p: Post) {
    && (r.floor.None? || r.floor.value <= p.publishedAt)
    && (r.ceiling.None? || p.publishedAt <= r.ceiling.value)
    && r.after < p.id <= r.upper
  }

  // ---------------------------------------------------------------- one page

  function Insert(p: Post, s: seq<Post>): (r: seq<Post>)
    ensures |r| == |s| + 1
  {
    if s == [] then [p]
    else if p.id <= s[0].id then [p] + s
    else [s[0]] + Insert(p, s[1..])
  }

  /** The matching rows in ascending id order. */
  function Ordered(rows: seq<Post>, r: Request): seq<Post> {
    if rows == [] then []
    else if Matches(r, rows[|rows| - 1]) then Insert(rows[|rows| - 1], Ordered(rows[..|rows| - 1], r))
    else Ordered(rows[..|rows| - 1], r)
  }

  ghost predicate Ascending(s: seq<Post>) { forall i, j | 0 <= i < j < |s| :: s[i].id < s[j].id }

  ghost predicate DistinctIds(s: seq<Post>) { forall i, j | 0 <= i < j < |s| :: s[i].id != s[j].id }

  lemma {:induction false} InsertAscends(p: Post, s: seq<Post>)
    requires Ascending(s) && forall x | x in s :: x.id != p.id
    ensures Ascending(Insert(p, s)) && forall x :: x in Insert(p, s) <==> x == p || x in s
  {
    if s != [] && p.id > s[0].id {
      forall x | x in s[1..] ensures x.id != p.id { assert x in s; }
      InsertAscends(p, s[1..]);
      var r := Insert(p, s[1..]);
      assert s == [s[0]] + s[1..];
      forall j | 0 <= j < |r| ensures s[0].id < r[j].id { assert r[j] in r; }
    }
  }

  /** Ordered sorts the matching rows and loses none. */
  lemma {:induction false} OrderedSorts(rows: seq<Post>, r: Request)
    requires DistinctIds(rows)
    ensures Ascending(Ordered(rows, r)) && forall x :: x in Ordered(rows, r) <==> x in rows && Matches(r, x)
  {
    if rows != [] {
      var front, last := rows[..|rows| - 1], rows[|rows| - 1];
      OrderedSorts(front, r);
      assert rows == front + [last];
      if Matches(r, last) {
        forall x | x in Ordered(front, r) ensures x.id != last.id {
          assert x in front;
          var k :| 0 <= k < |front| && front[k] == x;
          assert rows[k].id != rows[|rows| - 1].id;
        }
        InsertAscends(last, Ordered(front, r));
      }
    }
  }

  // ---------------------------------------------------------------- what is assumed of the remote

  /** The answer holds the smallest matching posts up to the limit: a missing one comes after the limit-th. */
  ghost predicate Answers(rows: seq<Post>, posts: map<nat, Post>, r: Request) {
    && DistinctIds(rows)
    && (forall x | x in rows && Matches(r, x) :: x.id in posts && posts[x.id] == x)
    && (forall id | id in posts && Matches(r, posts[id]) ::
          || posts[id] in rows
          || (|Ordered(rows, r)| >= r.limit > 0 && Ordered(rows, r)[r.limit - 1].id < id))
  }

  /** Posts may disappear or be edited, but keep their publication time, and new ones get higher ids. */
  ghost predicate Follows(w: World, t: nat, u: nat) {
    && w.top(t) <= w.top(u)
    && (forall id | id in w.at(u) && id <= w.top(t) :: id in w.at(t) && w.at(t)[id].publishedAt == w.at(u)[id].publishedAt)
  }

  ghost predicate Truthful(w: World) {
    && (forall t: nat, id: nat | id in w.at(t) :: w.at(t)[id].id == id && id <= w.top(t))
    && (forall t: nat, u: nat | t <= u :: Follows(w, t, u))
    && (forall t: nat | w.latest(t).Some? :: w.latest(t).value <= w.top(t))
    && (forall t: nat, r: Request :: Answers(w.rows(t, r), w.at(t), r))
  }

  /** For instance a channel that never changes and answers every request with all it holds. */
  lemma FixedChannelIsTruthful(posts: seq<Post>, top: nat)
    requires DistinctIds(posts) && forall p | p in posts :: p.id <= top
    ensures var held := map id | 0 <= id <= top && exists p :: p in posts && p.id == id :: ById(posts, id);
            Truthful(World(_ => held, _ => top, _ => Some(top), (_, _) => posts))
  {
    var held := map id | 0 <= id <= top && exists p :: p in posts && p.id == id :: ById(posts, id);
    forall p | p in posts ensures p.id in held && held[p.id] == p {
      var i :| 0 <= i < |posts| && posts[i] == p;
      var j :| 0 <= j < |posts| && posts[j] == ById(posts, p.id);
      assert i < j || j < i || i == j;
    }
    forall id | id in held ensures held[id].id == id && held[id] in posts {}
  }

  ghost function ById(posts: seq<Post>, id: nat): Post
    requires exists p :: p in posts && p.id == id
  {
    var p :| p in posts && p.id == id; p
  }

  // ---------------------------------------------------------------- stored rows

  /** source_posts, source_post_versions and source_post_observations, all filled by INSERT OR IGNORE. */
  datatype Store = Store(posts: map<nat, int>, versions: set<(nat, nat)>, observations: set<(nat, nat, nat, int)>)

  function Persist(st: Store, p: Post, observedAt: int): Store {
    Store(if p.id in st.posts then st.posts else st.posts[p.id := p.publishedAt],
          st.versions + {(p.id, p.content)},
          st.observations + {(p.id, p.content, p.snapshot, observedAt)})
  }

  function PersistAll(st: Store, page: seq<Post>, observedAt: int): Store {
    if page == [] then st else Persist(PersistAll(st, page[..|page| - 1], observedAt), page[|page| - 1], observedAt)
  }

  ghost predicate Has(st: Store, p: Post, observedAt: int) {
    p.id in st.posts && (p.id, p.content) in st.versions && (p.id, p.content, p.snapshot, observedAt) in st.observations
  }

  ghost predicate Extends(st: Store, more: Store) {
    && (forall id | id in st.posts :: id in more.posts && more.posts[id] == st.posts[id])
    && st.versions <= more.versions && st.observations <= more.observations
  }

  /** A page adds exactly its posts and removes or overwrites nothing. */
  lemma {:induction false} PersistAllAdds(st: Store, page: seq<Post>, observedAt: int)
    ensures var more := PersistAll(st, page, observedAt);
            && Extends(st, more) && (forall p | p in page :: Has(more, p, observedAt))
            && (forall id :: id in more.posts <==> id in st.posts || exists p :: p in page && p.id == id)
  {
    if page != [] {
      var front, last := page[..|page| - 1], page[|page| - 1];
      PersistAllAdds(st, front, observedAt);
      assert page == front + [last];
      var m := PersistAll(st, front, observedAt);
      forall p | p in page ensures Has(Persist(m, last, observedAt), p, observedAt) {
        if p in front { assert Has(m, p, observedAt); }
      }
      forall id ensures id in Persist(m, last, observedAt).posts <==> id in st.posts || exists p :: p in page && p.id == id {
        if id == last.id { assert last in page; }
        if id in st.posts || exists p :: p in front && p.id == id { assert id in m.posts; }
        if exists p :: p in front && p.id == id {
          var p :| p in front && p.id == id;
          assert p in page;
        }
      }
    }
  }

  ghost predicate OnThePage(page: seq<Post>, observedAt: int, o: (nat, nat, nat, int)) {
    exists p :: p in page && o == (p.id, p.content, p.snapshot, observedAt)
  }

  /** And nothing else: new rows are of posts on the page, with their time, content and snapshot. */
  lemma {:induction false} PersistAllAddsOnly(st: Store, page: seq<Post>, observedAt: int)
    ensures var more := PersistAll(st, page, observedAt);
            && (forall id | id in more.posts && id !in st.posts :: exists p :: p in page && p.id == id && p.publishedAt == more.posts[id])
            && (forall v | v in more.versions && v !in st.versions :: exists p :: p in page && v == (p.id, p.content))
            && (forall o | o in more.observations && o !in st.observations :: OnThePage(page, observedAt, o))
  {
    if page != [] {
      var front, last := page[..|page| - 1], page[|page| - 1];
      PersistAllAddsOnly(st, front, observedAt);
      assert page == front + [last];
      var m, more := PersistAll(st, front, observedAt), PersistAll(st, page, observedAt);
      forall id | id in more.posts && id !in st.posts ensures exists p :: p in page && p.id == id && p.publishedAt == more.posts[id] {
        if id !in m.posts { assert last in page; }
        else {
          var p :| p in front && p.id == id && p.publishedAt == m.posts[id];
          assert p in page;
        }
      }
      forall v | v in more.versions && v !in st.versions ensures exists p :: p in page && v == (p.id, p.content) {
        if v !in m.versions { assert last in page; }
        else {
          var p :| p in front && v == (p.id, p.content);
          assert p in page;
        }
      }
      forall o | o in more.observations && o !in st.observations ensures OnThePage(page, observedAt, o) {
        if o !in m.observations { assert last in page; }
        else {
          var p :| p in front && o == (p.id, p.content, p.snapshot, observedAt);
          assert p in page;
        }
      }
    }
  }

  /** Persisting rows that are already there changes nothing, so a page read again after a crash is harmless. */
  lemma {:induction false} PersistKnown(st: Store, page: seq<Post>, observedAt: int)
    requires forall p | p in page :: Has(st, p, observedAt)
    ensures PersistAll(st, page, observedAt) == st
  {
    if page != [] {
      var last := page[|page| - 1];
      forall p | p in page[..|page| - 1] ensures Has(st, p, observedAt) { assert p in page; }
      PersistKnown(st, page[..|page| - 1], observedAt);
      assert last in page && Has(st, last, observedAt);
      assert st.versions + {(last.id, last.content)} == st.versions;
      assert st.observations + {(last.id, last.content, last.snapshot, observedAt)} == st.observations;
    }
  }

  lemma {:induction false} PersistTwice(st: Store, page: seq<Post>, observedAt: int)
    ensures PersistAll(PersistAll(st, page, observedAt), page, observedAt) == PersistAll(st, page, observedAt)
  {
    PersistAllAdds(st, page, observedAt);
    PersistKnown(PersistAll(st, page, observedAt), page, observedAt);
  }

  // ---------------------------------------------------------------- coverage

  /** Every post that the channel still holds in (lo, hi], from the floor on, has been stored. */
  ghost predicate Covers(w: World, t: nat, st: Store, lo: nat, hi: nat, floor: Option<int>) {
    forall id | id in w.at(t) && lo < id <= hi && (floor.None? || floor.value <= w.at(t)[id].publishedAt) :: id in st.posts
  }

  /** Coverage of assigned ids survives time and more rows. */
  lemma CoversLater(w: World, t: nat, u: nat, st: Store, more: Store, lo: nat, hi: nat, floor: Option<int>)
    requires Truthful(w) && t <= u && hi <= w.top(t) && Extends(st, more) && Covers(w, t, st, lo, hi, floor)
    ensures Covers(w, u, more, lo, hi, floor)
  {
    assert Follows(w, t, u);
  }

  /** The post was stored with the content that it had at some instant from `since` on. */
  ghost predicate ReadAgain(w: World, since: nat, t: nat, st: Store, id: nat) {
    exists u: nat :: since <= u <= t && id in w.at(u) && (id, w.at(u)[id].content) in st.versions
  }

  predicate Within(p: Post, floor: int, ceiling: Option<int>) {
    floor <= p.publishedAt && (ceiling.None? || p.publishedAt <= ceiling.value)
  }

  /** Every post that the channel still holds in (lo, hi], published within the bounds, was read again since then. */
  ghost predicate Rereads(w: World, since: nat, t: nat, st: Store, lo: nat, hi: nat, floor: int, ceiling: Option<int>) {
    forall id | id in w.at(t) && lo < id <= hi && Within(w.at(t)[id], floor, ceiling) :: ReadAgain(w, since, t, st, id)
  }

  lemma RereadsLater(w: World, since: nat, t: nat, u: nat, st: Store, more: Store, lo: nat, hi: nat, floor: int,
                     ceiling: Option<int>)
    requires Truthful(w) && t <= u && hi <= w.top(t) && Extends(st, more) && Rereads(w, since, t, st, lo, hi, floor, ceiling)
    ensures Rereads(w, since, u, more, lo, hi, floor, ceiling)
  {
    assert Follows(w, t, u);
    forall id | id in w.at(u) && lo < id <= hi && Within(w.at(u)[id], floor, ceiling) ensures ReadAgain(w, since, u, more, id) {
      assert ReadAgain(w, since, t, st, id);
    }
  }

  /** The posts of a page are stored as they are at the instant of its request. */
  lemma PageRereads(w: World, t: nat, r: Request, pageSize: nat, st: Store, observedAt: int)
    requires Truthful(w) && pageSize >= 1 && r.limit == pageSize + 1 && r.floor.Some?
    ensures var o := Ordered(w.rows(t, r), r);
            var page := if |o| > pageSize then o[..pageSize] else o;
            var more := PersistAll(st, page, observedAt);
            Rereads(w, t, t, more, r.after, if |o| > pageSize then page[pageSize - 1].id else r.upper,
                    r.floor.value, r.ceiling)
  {
    var o := Ordered(w.rows(t, r), r);
    var page := if |o| > pageSize then o[..pageSize] else o;
    var more := PersistAll(st, page, observedAt);
    var hi := if |o| > pageSize then page[pageSize - 1].id else r.upper;
    PersistAllAdds(st, page, observedAt);
    if |o| > pageSize { NextPosition(w, t, r, pageSize); }
    forall id | id in w.at(t) && r.after < id <= hi && Within(w.at(t)[id], r.floor.value, r.ceiling)
      ensures ReadAgain(w, t, t, more, id)
    {
      OnPage(w, t, r, pageSize, id);
      assert Has(more, w.at(t)[id], observedAt);
    }
  }

  /** A matching post up to the last one of the page is on the page. */
  lemma OnPage(w: World, t: nat, r: Request, pageSize: nat, id: nat)
    requires Truthful(w) && pageSize >= 1 && r.limit == pageSize + 1
    requires id in w.at(t) && Matches(r, w.at(t)[id])
    requires var o := Ordered(w.rows(t, r), r); |o| > pageSize ==> id <= o[pageSize - 1].id
    ensures var o := Ordered(w.rows(t, r), r);
            w.at(t)[id] in (if |o| > pageSize then o[..pageSize] else o)
  {
    var o := Ordered(w.rows(t, r), r);
    var page := if |o| > pageSize then o[..pageSize] else o;
    var p := w.at(t)[id];
    assert Answers(w.rows(t, r), w.at(t), r);
    OrderedSorts(w.rows(t, r), r);
    assert p.id == id;
    assert p in w.rows(t, r) && p in o;
    var k :| 0 <= k < |o| && o[k] == p;
    assert |o| > pageSize ==> !(o[pageSize - 1].id < o[k].id);
    assert page[k] == p;
  }

  /** A full page leaves a last post beyond the position, and within the request. */
  lemma NextPosition(w: World, t: nat, r: Request, pageSize: nat)
    requires Truthful(w) && pageSize >= 1 && |Ordered(w.rows(t, r), r)| > pageSize
    ensures r.after < Ordered(w.rows(t, r), r)[..pageSize][pageSize - 1].id <= r.upper
  {
    var o := Ordered(w.rows(t, r), r);
    assert Answers(w.rows(t, r), w.at(t), r);
    OrderedSorts(w.rows(t, r), r);
    assert o[pageSize - 1] in o;
  }

  /**
    One page read at instant t covers up to its last post when more remain, and all of the request otherwise.
   */
  lemma PageCovers(w: World, t: nat, r: Request, pageSize: nat, st: Store, observedAt: int)
    requires Truthful(w) && pageSize >= 1 && r.limit == pageSize + 1 && r.ceiling.None?
    ensures var o := Ordered(w.rows(t, r), r);
            var page := if |o| > pageSize then o[..pageSize] else o;
            var more := PersistAll(st, page, observedAt);
            && (forall p | p in page :: p.id in w.at(t) && Matches(r, p))
            && (if |o| > pageSize
                then Covers(w, t, more, r.after, page[pageSize - 1].id, r.floor) && r.after < page[pageSize - 1].id <= r.upper
                else Covers(w, t, more, r.after, r.upper, r.floor))
  {
    var o := Ordered(w.rows(t, r), r);
    var page := if |o| > pageSize then o[..pageSize] else o;
    var more := PersistAll(st, page, observedAt);
    assert Answers(w.rows(t, r), w.at(t), r);
    OrderedSorts(w.rows(t, r), r);
    PersistAllAdds(st, page, observedAt);
    forall p | p in page ensures p.id in w.at(t) && Matches(r, p) { assert p in o; }
    var hi := if |o| > pageSize then page[pageSize - 1].id else r.upper;
    if |o| > pageSize { NextPosition(w, t, r, pageSize); }
    forall id | id in w.at(t) && r.after < id <= hi && (r.floor.None? || r.floor.value <= w.at(t)[id].publishedAt)
      ensures id in more.posts
    {
      OnPage(w, t, r, pageSize, id);
      assert Has(more, w.at(t)[id], observedAt);
    }
  }
}
