/**
 Mesh inventory paging: internal/daemon/mesh_application.go cuts a snapshot into pages that
 fit the transport, keeps the rest of it in a bounded and expiring cache, and the client puts
 the pages together again.

 Sessions and artifacts are paged by the same code over different item types, so the items
 are a type parameter; whether a page fits the transport is an arbitrary predicate.
 */
module MeshPages {
  import opened Wrappers
  import opened Records
  import opened MeshCursor
  import opened Text

  const PageItemMax: nat := 256
  const PageTtl: nat := 30 * 1_000_000_000
  const PageCacheMax: nat := 64
  const ClientPageMax: nat := 4096

  /** A snapshot or one page of it. The epoch is the boot id of the daemon that made it. */
  datatype Inventory<T> = Inventory(epoch: string, revision: nat, scopes: seq<string>, items: seq<T>, next: string)

  /** How many items a request may ask for; 0 stands for the most. */
  function PageLimit(requested: int, maximum: nat): Option<nat> {
    if requested == 0 then Some(maximum) else if requested < 1 || requested > maximum then None else Some(requested)
  }

  /** Every number of items from one to the most may be asked for, and none at all asks for the most. */
  lemma LimitIs(requested: int, maximum: nat)
    ensures PageLimit(requested, maximum).Some? <==> 0 <= requested <= maximum
    ensures PageLimit(requested, maximum).Some? && maximum > 0 ==>
              && 0 < PageLimit(requested, maximum).value <= maximum
              && (requested > 0 ==> PageLimit(requested, maximum).value == requested)
              && (requested == 0 ==> PageLimit(requested, maximum).value == maximum)
  {
  }

  // ---- one page ---------------------------------------------------------------------------------------------

  /** The page from `offset` to `end`, with the cursor of what follows. */
  function Page<T>(full: Inventory<T>, prefix: string, offset: nat, end: nat): Inventory<T>
    requires offset <= end <= |full.items|
  {
    full.(items := full.items[offset..end], next := if end == |full.items| then ""
      else Cursor(prefix, full.revision, end))
  }

  /** The longest run of items whose every prefix fits, up to the limit. */
  ghost predicate Greedy<T>(full: Inventory<T>, prefix: string, offset: nat, limit: nat, fits: Inventory<T> -> bool,
      end: nat)
    requires offset <= |full.items|
  {
    && offset <= end <= |full.items| && end - offset <= limit
    && (forall k :: offset < k <= end ==> fits(Page(full, prefix, offset, k)))
    && (end == |full.items| || end - offset == limit || !fits(Page(full, prefix, offset, end + 1)))
  }

  /** One page, grown item by item while the whole page with its cursor fits. */
  method BuildPage<T>(full: Inventory<T>, prefix: string, offset: nat, limit: nat, fits: Inventory<T> -> bool)
    returns (page: Option<Inventory<T>>, end: nat)
    requires offset <= |full.items|
    ensures offset == |full.items| ==>
              && end == offset
              && page == (if fits(Page(full, prefix, offset, offset)) then Some(Page(full, prefix, offset, offset))
                          else None)
    ensures offset < |full.items| ==>
              && Greedy(full, prefix, offset, limit, fits, end)
              && page == if end == offset then None else Some(Page(full, prefix, offset, end))
  {
    hide Cursor;
    var current := full.(items := [], next := "");
    if offset == |full.items| {
      assert current == Page(full, prefix, offset, offset);
      if !fits(current) { return None, offset; }
      return Some(current), offset;
    }
    end := offset;
    while end < |full.items| && end - offset < limit
      invariant offset <= end <= |full.items| && end - offset <= limit
      invariant current == if end == offset then full.(items := [], next := "") else Page(full, prefix, offset, end)
      invariant forall k :: offset < k <= end ==> fits(Page(full, prefix, offset, k))
    {
      var candidate := current.(items := current.items + [full.items[end]], next := "");
      if end + 1 < |full.items| { candidate := candidate.(next := Cursor(prefix, full.revision, end + 1)); }
      assert full.items[offset..end] + [full.items[end]] == full.items[offset..end + 1];
      if !fits(candidate) { break; }
      current := candidate;
      end := end + 1;
    }
    if end == offset { return None, offset; }
    return Some(current), end;
  }

  // ---- the server ---------------------------------------------------------------------------------------------

  datatype Cached<T> = Cached(created: Time, full: Inventory<T>)

  /** The cache only loses entries between two operations on it. */
  ghost predicate Kept<T>(was: map<string, Cached<T>>, now: map<string, Cached<T>>) {
    forall k <- now :: k in was && now[k] == was[k]
  }

  lemma Removing<T>(m: map<string, Cached<T>>, k: string)
    requires k in m
    ensures |m - {k}| == |m| - 1
  {
    assert (m - {k}).Keys == m.Keys - {k};
  }

  lemma Adding<T>(m: map<string, Cached<T>>, k: string, v: Cached<T>)
    ensures |m[k := v]| <= |m| + 1
  {
    assert m[k := v].Keys == m.Keys + {k};
  }

  // ---- the server over time ---------------------------------------------------------------------------------------

  /** Every snapshot ever made, by epoch and revision, with the peer it was made for. */
  type Snapshots<T> = map<(string, nat), (string, Inventory<T>)>

  datatype Server<T> = Server(epoch: string, revision: nat, pages: map<string, Cached<T>>, made: Snapshots<T>)

  datatype ServerEvent<T> =
    | First(peer: string, full: Inventory<T>, answer: Option<Inventory<T>>)
    | Further(peer: string, cursor: string, answer: Option<Inventory<T>>)
    | Forgets            // expiry or eviction
    | Counts             // the revision counter serves other requests as well
    | Restarts(boot: string)

  /** The cache lost entries and gained at most this one. */
  ghost predicate CachedAtMost<T(!new)>(was: map<string, Cached<T>>, now: map<string, Cached<T>>, key: string,
      full: Inventory<T>) {
    Kept(was, now) || exists kept, at :: Kept(was, kept) && now == kept[key := Cached(at, full)]
  }

  /** The entries within the time to live. */
  function Unexpired<T>(pages: map<string, Cached<T>>, now: Time): map<string, Cached<T>> {
    map k | k in pages && now - pages[k].created <= PageTtl :: pages[k]
  }

  /** What eviction keeps: everything while there is room for one more, and otherwise all but the oldest entries. */
  ghost predicate MakesRoom<T>(was: map<string, Cached<T>>, kept: map<string, Cached<T>>) {
    && Kept(was, kept)
    && (if |was| < PageCacheMax then kept == was else |kept| == PageCacheMax - 1)
    && (forall k: string, e: string :: k in kept && e in was && e !in kept ==> was[e].created <= kept[k].created)
  }

  /** The answer cut from a snapshot at an offset: the longest fitting run within the limit, or an error when not even
      one item fits. */
  ghost predicate Answers<T>(full: Inventory<T>, prefix: string, offset: nat, limit: nat, fits: Inventory<T> -> bool,
      page: Option<Inventory<T>>)
    requires offset <= |full.items|
  {
    if offset == |full.items| then
      page == if fits(Page(full, prefix, offset, offset)) then Some(Page(full, prefix, offset, offset)) else None
    else exists end ::
      && Greedy(full, prefix, offset, limit, fits, end)
      && page == if end == offset then None else Some(Page(full, prefix, offset, end))
  }

  /** A first request: the answer is cut from the snapshot made for it, and when more pages follow, the whole
      snapshot is kept under the peer and revision, beside the unexpired entries as far as there is room. */
  ghost predicate FirstStep<T(!new)>(s: Server<T>, peer: string, prefix: string, limit: nat, scopes: seq<string>,
      items: seq<T>, fits: Inventory<T> -> bool, now: Time, page: Option<Inventory<T>>, s': Server<T>) {
    var full := Inventory(s.epoch, s.revision + 1, scopes, items, "");
    && Answers(full, prefix, 0, limit, fits, page)
    && s'.epoch == s.epoch && s'.revision == s.revision + 1
      && s'.made == s.made[(s.epoch, full.revision) := (peer, full)]
    && if page.None? || page.value.next == "" then s'.pages == s.pages
       else exists kept ::
         && MakesRoom(Unexpired(s.pages, now), kept)
         && s'.pages == kept[PageKey(peer, full.revision) := Cached(now, full)]
  }

  /** The snapshot a cursor speaks of is kept for the peer, within the time to live, and goes on at the offset. */
  predicate Continues<T>(pages: map<string, Cached<T>>, peer: string, rev: nat, offset: nat, now: Time) {
    && PageKey(peer, rev) in pages && now - pages[PageKey(peer, rev)].created <= PageTtl
    && offset < |pages[PageKey(peer, rev)].full.items|
  }

  /** A further request: an error unless the snapshot is kept, and otherwise the answer cut from it at the offset; the
      entry is dropped exactly when its end has been served. */
  ghost predicate FurtherStep<T(!new)>(s: Server<T>, peer: string, prefix: string, rev: nat, offset: nat, limit: nat,
      fits: Inventory<T> -> bool, now: Time, page: Option<Inventory<T>>, s': Server<T>) {
    && s'.epoch == s.epoch && s'.revision == s.revision && s'.made == s.made
    && if Continues(s.pages, peer, rev, offset, now) then
         && Answers(s.pages[PageKey(peer, rev)].full, prefix, offset, limit, fits, page)
         && s'.pages == Unexpired(s.pages, now)
              - (if page.Some? && page.value.next == "" then {PageKey(peer, rev)} else {})
       else page.None? && s'.pages == Unexpired(s.pages, now)
  }

  /** One request to list, whole: its limit and its cursor are checked before anything is built or looked up. */
  ghost predicate ListStep<T(!new)>(s: Server<T>, peer: string, prefix: string, requested: int, cursor: string,
      scopes: seq<string>, items: seq<T>, fits: Inventory<T> -> bool, now: Time, page: Option<Inventory<T>>,
      s': Server<T>) {
    if PageLimit(requested, PageItemMax).None? || (cursor != "" && ParseCursor(prefix, cursor).None?) then
      page.None? && s' == s
    else if cursor == "" then
      FirstStep(s, peer, prefix, PageLimit(requested, PageItemMax).value, scopes, items, fits, now, page, s')
    else
      var (rev, offset) := ParseCursor(prefix, cursor).value;
      FurtherStep(s, peer, prefix, rev, offset, PageLimit(requested, PageItemMax).value, fits, now, page, s')
  }

  /** One step, for the item kind whose cursors have this prefix. */
  ghost predicate ServerStep<T(!new)>(s: Server<T>, e: ServerEvent<T>, s': Server<T>, prefix: string) {
    match e
    case First(peer, full, answer) =>
      && full.epoch == s.epoch && full.revision == s.revision + 1 && full.next == ""
      && s'.epoch == s.epoch && s'.revision == s.revision + 1
        && s'.made == s.made[(s.epoch, full.revision) := (peer, full)]
      && (answer.Some? ==> exists end: nat :: end <= |full.items| && answer.value == Page(full, prefix, 0, end))
      && CachedAtMost(s.pages, s'.pages, PageKey(peer, full.revision), full)
      && (answer.Some? && answer.value.next != "" ==>
            PageKey(peer, full.revision) in s'.pages && s'.pages[PageKey(peer, full.revision)].full == full)
    case Further(peer, cursor, answer) =>
      && s'.epoch == s.epoch && s'.revision == s.revision && s'.made == s.made && Kept(s.pages, s'.pages)
      && (answer.Some? ==>
            && ParseCursor(prefix, cursor).Some?
            && var (rev, offset) := ParseCursor(prefix, cursor).value;
               PageKey(peer, rev) in s.pages && offset < |s.pages[PageKey(peer, rev)].full.items|
               && exists end: nat :: offset < end <= |s.pages[PageKey(peer, rev)].full.items|
                                     && answer.value == Page(s.pages[PageKey(peer, rev)].full, prefix, offset, end))
    case Forgets => s' == s.(pages := s'.pages) && Kept(s.pages, s'.pages)
    case Counts => s' == s.(revision := s.revision + 1)
    case Restarts(boot) =>
      // boot ids are drawn at random, never reused
      boot != s.epoch && (forall k <- s.made :: k.0 != boot) && s' == s.(epoch := boot, revision := 0, pages := map[])
  }

  class PageServer<T(==, !new)> {
    var epoch: string
    var revision: nat
    var pages: map<string, Cached<T>>
    ghost var made: Snapshots<T>

    ghost function State(): Server<T> reads this { Server(epoch, revision, pages, made) }

    constructor (epoch: string)
      ensures State() == Server(epoch, 0, map[], map[])
    {
      this.epoch, revision, pages := epoch, 0, map[];
      made := map[];
    }

    method NextRevision() returns (r: nat)
      modifies this`revision
      ensures r == revision == old(revision) + 1
    {
      revision := revision + 1;
      return revision;
    }

    /** Drops every entry older than the time to live. */
    method Prune(now: Time)
      modifies this`pages
      ensures pages == Unexpired(old(pages), now)
    {
      var keys := pages.Keys;
      ghost var before := pages;
      while keys != {}
        invariant keys <= before.Keys
        invariant pages == map k | k in before && (k in keys || now - before[k].created <= PageTtl) :: before[k]
        decreases keys
      {
        var k :| k in keys;
        keys := keys - {k};
        if now - pages[k].created > PageTtl { pages := pages - {k}; }
      }
    }

    /** Evicts oldest entries until there is room for one more. */
    method Bound()
      modifies this`pages
      ensures MakesRoom(old(pages), pages)
      ensures forall k, e :: k in pages && e in old(pages) && e !in pages ==> old(pages)[e].created <= pages[k].created
    {
      ghost var before := pages;
      while |pages| >= PageCacheMax
        invariant Kept(before, pages) && (|before| < PageCacheMax ==> pages == before)
        invariant |before| >= PageCacheMax ==> |pages| >= PageCacheMax - 1
        invariant forall k, e :: k in pages && e in before && e !in pages ==> before[e].created <= pages[k].created
        decreases |pages|
      {
        var oldest := Oldest();
        Removing(pages, oldest);
        pages := pages - {oldest};
      }
    }

    method Oldest() returns (oldest: string)
      requires |pages| > 0
      ensures oldest in pages && forall k <- pages :: pages[oldest].created <= pages[k].created
    {
      var keys := pages.Keys;
      assert |pages.Keys| == |pages|;
      oldest :| oldest in keys;
      while keys != {}
        invariant keys <= pages.Keys && oldest in pages
        invariant forall k <- pages.Keys - keys :: pages[oldest].created <= pages[k].created
        decreases keys
      {
        var k :| k in keys;
        keys := keys - {k};
        if pages[k].created < pages[oldest].created { oldest := k; }
      }
    }

    /** The first page of a new snapshot; the snapshot is kept exactly when more pages follow. */
    method FirstPage(peer: string, prefix: string, scopes: seq<string>, items: seq<T>, limit: nat,
        fits: Inventory<T> -> bool, now: Time)
      returns (page: Option<Inventory<T>>, ghost full: Inventory<T>)
      modifies this
      ensures full == Inventory(old(epoch), old(revision) + 1, scopes, items, "")
      ensures FirstStep(old(State()), peer, prefix, limit, scopes, items, fits, now, page, State())
      ensures page.Some? && page.value.next != "" ==>
          PageKey(peer, full.revision) in pages && pages[PageKey(peer, full.revision)] == Cached(now, full)
      ensures ServerStep(old(State()), First(peer, full, page), State(), prefix)
      ensures |old(pages)| <= PageCacheMax ==> |pages| <= PageCacheMax
    {
      hide ServerStep, CachedAtMost, Answers, MakesRoom, PageKey, Cursor;
      var rev := NextRevision();
      var snapshot := Inventory(epoch, rev, scopes, items, "");
      full := snapshot;
      made := made[(epoch, rev) := (peer, snapshot)];
      var end;
      page, end := BuildPage(snapshot, prefix, 0, limit, fits);
      assert Answers(full, prefix, 0, limit, fits, page) by { CutIsAnswer(full, prefix, limit, fits, page, end); }
      CursorIsText(prefix, rev, end);
      if page.Some? && end < |items| {
        Prune(now);
        Bound();
        ghost var kept := pages;
        assert MakesRoom(Unexpired(old(pages), now), kept);
        pages := pages[PageKey(peer, rev) := Cached(now, snapshot)];
      }
      FirstIsServerStep(old(State()), peer, prefix, limit, scopes, items, fits, now, page, State());
    }

    /** A further page, cut from the kept snapshot of exactly this peer and revision, or an error. */
    method NextPage(peer: string, prefix: string, rev: nat, offset: nat, limit: nat, fits: Inventory<T> -> bool,
        now: Time)
      returns (page: Option<Inventory<T>>)
      modifies this`pages
      ensures FurtherStep(old(State()), peer, prefix, rev, offset, limit, fits, now, page, State())
      ensures page.Some? <==>
                && PageKey(peer, rev) in old(pages) && now - old(pages)[PageKey(peer, rev)].created <= PageTtl
                && offset < |old(pages)[PageKey(peer, rev)].full.items| && limit > 0
                && fits(Page(old(pages)[PageKey(peer, rev)].full, prefix, offset, offset + 1))
      ensures PageKey(peer, rev) in pages <==>
                && PageKey(peer, rev) in old(pages) && now - old(pages)[PageKey(peer, rev)].created <= PageTtl
                && !(page.Some? && page.value.next == "")
      ensures forall cursor ::
                ParseCursor(prefix, cursor) == Some((rev, offset)) ==>
                  ServerStep(old(State()), Further(peer, cursor, page), State(), prefix)
    {
      hide ParseCursor, Cursor, PageKey;
      var key := PageKey(peer, rev);
      Prune(now);
      if key !in pages || offset >= |pages[key].full.items| { return None; }
      var end;
      page, end := BuildPage(pages[key].full, prefix, offset, limit, fits);
      CursorIsText(prefix, pages[key].full.revision, end);
      if page.None? { return; }
      if end == |pages[key].full.items| { pages := pages - {key}; }
    }

    /** The whole request: its limit and its cursor are checked before anything is built or looked up. */
    method List(peer: string, prefix: string, requested: int, cursor: string, scopes: seq<string>, items: seq<T>,
        fits: Inventory<T> -> bool, now: Time)
      returns (page: Option<Inventory<T>>)
      modifies this
      ensures ListStep(old(State()), peer, prefix, requested, cursor, scopes, items, fits, now, page, State())
      ensures requested < 0 || requested > PageItemMax || (cursor != "" && ParseCursor(prefix, cursor).None?) ==>
                page.None? && State() == old(State())
      ensures PageLimit(requested, PageItemMax).Some? && cursor == "" ==>
                ServerStep(old(State()), First(peer, Inventory(old(epoch), old(revision) + 1, scopes, items, ""), page),
                  State(), prefix)
      ensures PageLimit(requested, PageItemMax).Some? && cursor != "" && ParseCursor(prefix, cursor).Some? ==>
                ServerStep(old(State()), Further(peer, cursor, page), State(), prefix)
      ensures PageLimit(requested, PageItemMax).Some? && cursor != "" && ParseCursor(prefix, cursor).Some? ==>
                var (rev, offset) := ParseCursor(prefix, cursor).value;
                page.Some? <==> Continues(old(pages), peer, rev, offset, now)
                                && fits(Page(old(pages)[PageKey(peer, rev)].full, prefix, offset, offset + 1))
      ensures page.Some? ==> |page.value.items| <= if requested == 0 then PageItemMax else requested
    {
      hide ServerStep, ParseCursor, FirstStep, FurtherStep;
      var limit := PageLimit(requested, PageItemMax);
      if limit.None? { return None; }
      if cursor == "" {
        ghost var full;
        page, full := FirstPage(peer, prefix, scopes, items, limit.value, fits, now);
        AnswerIsBounded(old(State()), peer, prefix, limit.value, scopes, items, fits, now, page, State());
        return;
      }
      var parsed := ParseCursor(prefix, cursor);
      if parsed.None? { return None; }
      page := NextPage(peer, prefix, parsed.value.0, parsed.value.1, limit.value, fits, now);
      FurtherIsBounded(old(State()), peer, prefix, parsed.value.0, parsed.value.1, limit.value, fits, now, page,
        State());
    }
  }

  lemma AnswerIsBounded<T(!new)>(s: Server<T>, peer: string, prefix: string, limit: nat, scopes: seq<string>,
      items: seq<T>, fits: Inventory<T> -> bool, now: Time, page: Option<Inventory<T>>, s': Server<T>)
    requires FirstStep(s, peer, prefix, limit, scopes, items, fits, now, page, s')
    ensures page.Some? ==> |page.value.items| <= limit
  {
  }

  lemma FurtherIsBounded<T(!new)>(s: Server<T>, peer: string, prefix: string, rev: nat, offset: nat, limit: nat,
      fits: Inventory<T> -> bool, now: Time, page: Option<Inventory<T>>, s': Server<T>)
    requires FurtherStep(s, peer, prefix, rev, offset, limit, fits, now, page, s')
    ensures page.Some? ==> |page.value.items| <= limit
  {
  }

  lemma FirstIsServerStep<T(!new)>(s: Server<T>, peer: string, prefix: string, limit: nat, scopes: seq<string>,
      items: seq<T>, fits: Inventory<T> -> bool, now: Time, page: Option<Inventory<T>>, s': Server<T>)
    requires FirstStep(s, peer, prefix, limit, scopes, items, fits, now, page, s')
    ensures ServerStep(s, First(peer, Inventory(s.epoch, s.revision + 1, scopes, items, ""), page), s', prefix)
    ensures |s.pages| <= PageCacheMax ==> |s'.pages| <= PageCacheMax
  {
    hide PageKey, Cursor, Greedy;
    var full := Inventory(s.epoch, s.revision + 1, scopes, items, "");
    if page.None? || page.value.next == "" {
      assert Kept(s.pages, s'.pages);
    } else {
      var kept :| MakesRoom(Unexpired(s.pages, now), kept)
        && s'.pages == kept[PageKey(peer, full.revision) := Cached(now, full)];
      assert Kept(s.pages, kept);
      Adding(kept, PageKey(peer, full.revision), Cached(now, full));
    }
    assert page.Some? ==> exists end: nat :: end <= |full.items| && page.value == Page(full, prefix, 0, end) by {
      FirstIsAPage(full, prefix, limit, fits, page);
    }
  }

  lemma CutIsAnswer<T(!new)>(full: Inventory<T>, prefix: string, limit: nat, fits: Inventory<T> -> bool,
      page: Option<Inventory<T>>, end: nat)
    requires 0 == |full.items| ==>
        page == if fits(Page(full, prefix, 0, 0)) then Some(Page(full, prefix, 0, 0)) else None
    requires 0 < |full.items| ==>
        Greedy(full, prefix, 0, limit, fits, end) && page == if end == 0 then None else Some(Page(full, prefix, 0, end))
    ensures Answers(full, prefix, 0, limit, fits, page)
  {
  }

  lemma FirstIsAPage<T(!new)>(full: Inventory<T>, prefix: string, limit: nat, fits: Inventory<T> -> bool,
      page: Option<Inventory<T>>)
    requires Answers(full, prefix, 0, limit, fits, page)
    ensures page.Some? ==> exists end: nat :: end <= |full.items| && page.value == Page(full, prefix, 0, end)
  {
  }

  lemma CursorIsText(prefix: string, revision: nat, offset: nat)
    ensures Cursor(prefix, revision, offset) != ""
  {
  }

  /** A kept snapshot is the one made for exactly the peer and revision of its key, in this boot. */
  ghost predicate ServerInv<T(!new)>(s: Server<T>) {
    && (forall k <- s.pages ::
          var full := s.pages[k].full;
          full.epoch == s.epoch && (s.epoch, full.revision) in s.made && s.made[(s.epoch, full.revision)].1 == full
          && k == PageKey(s.made[(s.epoch, full.revision)].0, full.revision))
    && (forall k <- s.made :: k.0 == s.epoch ==> k.1 <= s.revision)
    && (forall k <- s.made :: s.made[k].1.epoch == k.0 && s.made[k].1.revision == k.1 && s.made[k].1.next == "")
  }

  /** Snapshots are never changed or forgotten. */
  ghost predicate Remembers<T(!new)>(a: Snapshots<T>, b: Snapshots<T>) { forall k <- a :: k in b && b[k] == a[k] }

  /** The answer to a first request is the beginning of a snapshot made for the peer. */
  ghost predicate HonestFirst<T(!new)>(made: Snapshots<T>, peer: string, prefix: string, p: Inventory<T>) {
    && (p.epoch, p.revision) in made && made[(p.epoch, p.revision)].0 == peer
    && exists end: nat ::
      end <= |made[(p.epoch, p.revision)].1.items|
      && p == Page(made[(p.epoch, p.revision)].1, prefix, 0, end)
  }

  /** The answer to a cursor is a run of that revision's snapshot for the peer, from exactly the cursor's offset. */
  ghost predicate HonestNext<T(!new)>(made: Snapshots<T>, peer: string, prefix: string, cursor: string,
      p: Inventory<T>) {
    && ParseCursor(prefix, cursor).Some? && p.revision == ParseCursor(prefix, cursor).value.0
    && (p.epoch, p.revision) in made && made[(p.epoch, p.revision)].0 == peer
    && var offset := ParseCursor(prefix, cursor).value.1;
       exists end: nat :: offset < end <= |made[(p.epoch, p.revision)].1.items|
         && p == Page(made[(p.epoch, p.revision)].1, prefix, offset, end)
  }

  ghost predicate HonestEvent<T(!new)>(made: Snapshots<T>, prefix: string, e: ServerEvent<T>) {
    && (e.First? && e.answer.Some? ==> HonestFirst(made, e.peer, prefix, e.answer.value))
    && (e.Further? && e.answer.Some? ==> HonestNext(made, e.peer, prefix, e.cursor, e.answer.value))
  }

  lemma ServerStepKeeps<T(!new)>(s: Server<T>, e: ServerEvent<T>, s': Server<T>, prefix: string)
    requires ServerInv(s) && ServerStep(s, e, s', prefix)
    ensures ServerInv(s') && Remembers(s.made, s'.made) && HonestEvent(s'.made, prefix, e)
  {
    match e
    case First(peer, full, answer) =>
      assert (s.epoch, full.revision) !in s.made;
      forall k <- s'.pages
        ensures var f := s'.pages[k].full;
                && f.epoch == s'.epoch && (s'.epoch, f.revision) in s'.made && s'.made[(s'.epoch, f.revision)].1 == f
                && k == PageKey(s'.made[(s'.epoch, f.revision)].0, f.revision)
      {
        if s'.pages[k].full != full || k != PageKey(peer, full.revision) {
          assert k in s.pages && s'.pages[k] == s.pages[k];
        }
      }
    case Further(peer, cursor, answer) =>
      if answer.Some? {
        var (rev, offset) := ParseCursor(prefix, cursor).value;
        var cached := s.pages[PageKey(peer, rev)].full;
        PageKeyInjective(peer, rev, s.made[(s.epoch, cached.revision)].0, cached.revision);
      }
    case _ =>
  }

  ghost predicate ServerRun<T(!new)>(states: seq<Server<T>>, events: seq<ServerEvent<T>>, prefix: string) {
    && |states| == |events| + 1 && states[0].pages == map[] && states[0].made == map[]
    && forall i :: 0 <= i < |events| ==> ServerStep(states[i], events[i], states[i + 1], prefix)
  }

  lemma {:induction false} ServerRunInv<T(!new)>(states: seq<Server<T>>, events: seq<ServerEvent<T>>, prefix: string,
      i: nat)
    requires ServerRun(states, events, prefix) && i < |states|
    ensures ServerInv(states[i])
    decreases i
  {
    if i > 0 {
      ServerRunInv(states, events, prefix, i - 1);
      ServerStepKeeps(states[i - 1], events[i - 1], states[i - 1 + 1], prefix);
    }
  }

  lemma {:induction false} StillRemembered<T(!new)>(states: seq<Server<T>>, events: seq<ServerEvent<T>>, prefix: string,
      i: nat, j: nat)
    requires ServerRun(states, events, prefix) && i <= j < |states|
    ensures Remembers(states[i].made, states[j].made)
    decreases j - i
  {
    if i < j {
      StillRemembered(states, events, prefix, i, j - 1);
      ServerRunInv(states, events, prefix, j - 1);
      ServerStepKeeps(states[j - 1], events[j - 1], states[j - 1 + 1], prefix);
    }
  }

  lemma RememberedHonest<T(!new)>(a: Snapshots<T>, b: Snapshots<T>, prefix: string, e: ServerEvent<T>)
    requires HonestEvent(a, prefix, e) && Remembers(a, b)
    ensures HonestEvent(b, prefix, e)
  {
    if e.First? && e.answer.Some? { assert HonestFirst(b, e.peer, prefix, e.answer.value); }
    if e.Further? && e.answer.Some? { assert HonestNext(b, e.peer, prefix, e.cursor, e.answer.value); }
  }

  /** Every answer of a run is honest, measured against all the snapshots the run ever made. */
  lemma RunIsHonest<T(!new)>(states: seq<Server<T>>, events: seq<ServerEvent<T>>, prefix: string, i: nat)
    requires ServerRun(states, events, prefix) && i < |events|
    ensures HonestEvent(states[|events|].made, prefix, events[i])
  {
    ServerRunInv(states, events, prefix, i);
    ServerStepKeeps(states[i], events[i], states[i + 1], prefix);
    StillRemembered(states, events, prefix, i + 1, |events|);
    RememberedHonest(states[i + 1].made, states[|events|].made, prefix, events[i]);
  }

  // ---- the client --------------------------------------------------------------------------------------------------

  datatype ClientError = CallFailed | CursorChanged | TooManyItems | EmptyContinuation | NotContiguous | TooManyPages

  /** The cursor the client sends with its k-th request. */
  function Sent<T>(answers: nat -> Option<Inventory<T>>, k: nat): string {
    if k == 0 || answers(k - 1).None? then "" else answers(k - 1).value.next
  }

  /** Everything the client does from its k-th call on, with what it has so far: the outcome and the number of calls. */
  function Collected<T(==)>(answers: nat -> Option<Inventory<T>>, prefix: string, k: nat,
      sofar: Inventory<T>): (Result<Inventory<T>, ClientError>, nat)
    decreases ClientPageMax - k
  {
    if k >= ClientPageMax then (Err(TooManyPages), k)
    else if answers(k).None? then (Err(CallFailed), k + 1)
    else
      var page := answers(k).value;
      if k > 0 && (page.epoch != sofar.epoch || page.revision != sofar.revision || page.scopes != sofar.scopes) then
        (Err(CursorChanged), k + 1)
      else if |page.items| > PageItemMax then (Err(TooManyItems), k + 1)
      else
        var more := if k == 0 then page else sofar.(items := sofar.items + page.items);
        if page.next == "" then (Ok(more.(next := "")), k + 1)
        else if page.items == [] then (Err(EmptyContinuation), k + 1)
        else if ParseCursor(prefix, page.next) != Some((more.revision, |more.items|)) then (Err(NotContiguous), k + 1)
        else Collected(answers, prefix, k + 1, more)
  }

  /** The first `n` answers are honest about the requests they answer. */
  ghost predicate HonestAnswers<T(!new)>(answers: nat -> Option<Inventory<T>>, n: nat, made: Snapshots<T>, peer: string,
      prefix: string) {
    forall k :: 0 <= k < n && answers(k).Some? ==>
      if k == 0 then HonestFirst(made, peer, prefix, answers(0).value)
        else HonestNext(made, peer, prefix, Sent(answers, k), answers(k).value)
  }

  /** The client's loop; answers(k) is what its k-th call returns. */
  method FetchAll<T(==)>(answers: nat -> Option<Inventory<T>>, prefix: string)
      returns (res: Result<Inventory<T>, ClientError>, ghost calls: nat)
    ensures res == Collected(answers, prefix, 0, Inventory("", 0, [], [], "")).0
    ensures calls == Collected(answers, prefix, 0, Inventory("", 0, [], [], "")).1
  {
    hide ParseCursor;
    var response: Inventory<T> := Inventory("", 0, [], [], "");
    ghost var expected := Collected(answers, prefix, 0, response);
    var cursor := "";
    var pageNumber := 0;
    while true
      invariant 0 <= pageNumber <= ClientPageMax
      invariant Collected(answers, prefix, pageNumber, response) == expected
      decreases ClientPageMax - pageNumber
    {
      if pageNumber >= ClientPageMax { return Err(TooManyPages), pageNumber; }
      var answer := answers(pageNumber);
      if answer.None? { return Err(CallFailed), pageNumber + 1; }
      var page := answer.value;
      if pageNumber == 0 {
        response := page.(items := []);
      } else if page.epoch != response.epoch || page.revision != response.revision || page.scopes != response.scopes {
        return Err(CursorChanged), pageNumber + 1;
      }
      if |page.items| > PageItemMax { return Err(TooManyItems), pageNumber + 1; }
      assert [] + page.items == page.items;
      response := response.(items := response.items + page.items);
      cursor := page.next;
      pageNumber := pageNumber + 1;
      if cursor == "" {
        response := response.(next := "");
        return Ok(response), pageNumber;
      }
      if |page.items| == 0 { return Err(EmptyContinuation), pageNumber; }
      var parsed := ParseCursor(prefix, cursor);
      if parsed.None? || parsed.value.0 != response.revision || parsed.value.1 != |response.items| {
        return Err(NotContiguous), pageNumber;
      }
    }
  }

  /** What the client has after k pages: nothing, or the beginning of one snapshot made for it. */
  ghost predicate Begun<T(!new)>(sofar: Inventory<T>, k: nat, made: Snapshots<T>, peer: string) {
    k > 0 ==>
      && (sofar.epoch, sofar.revision) in made && made[(sofar.epoch, sofar.revision)].0 == peer
      && var full := made[(sofar.epoch, sofar.revision)].1;
         sofar.scopes == full.scopes && |sofar.items| <= |full.items| && sofar.items == full.items[..|sofar.items|]
         && sofar.epoch == full.epoch && sofar.revision == full.revision
  }

  /** A listing that completes against an honest server is exactly one snapshot, made for this peer. */
  lemma {:induction false} CompletedIsExact<T(!new)>(answers: nat -> Option<Inventory<T>>, prefix: string, k: nat,
      sofar: Inventory<T>, peer: string, made: Snapshots<T>)
    requires Begun(sofar, k, made, peer) && forall s <- made :: made[s].1.next == ""
    requires k > 0 ==> ParseCursor(prefix, Sent(answers, k)) == Some((sofar.revision, |sofar.items|))
    ensures var (res, calls) := Collected(answers, prefix, k, sofar);
            res.Ok? && HonestAnswers(answers, calls, made, peer, prefix) ==>
              (res.value.epoch, res.value.revision) in made
                && made[(res.value.epoch, res.value.revision)] == (peer, res.value)
    decreases ClientPageMax - k
  {
    hide ParseCursor, HonestNext, HonestFirst;
    var (res, calls) := Collected(answers, prefix, k, sofar);
    if res.Ok? && HonestAnswers(answers, calls, made, peer, prefix) {
      var page := answers(k).value;
      var more := if k == 0 then page else sofar.(items := sofar.items + page.items);
      CallsGrow(answers, prefix, k, sofar);
      NextIsHonest(answers, calls, made, peer, prefix, k);
      Grown(answers, k, made, peer, prefix, sofar, more);
      if page.next != "" { CompletedIsExact(answers, prefix, k + 1, more, peer, made); }
    }
  }

  lemma {:induction false} CallsGrow<T>(answers: nat -> Option<Inventory<T>>, prefix: string, k: nat,
      sofar: Inventory<T>)
    ensures k < ClientPageMax ==> Collected(answers, prefix, k, sofar).1 > k
    decreases ClientPageMax - k
  {
    hide ParseCursor;
    if k < ClientPageMax && answers(k).Some? {
      var page := answers(k).value;
      if k + 1 < ClientPageMax {
        CallsGrow(answers, prefix, k + 1, if k == 0 then page else sofar.(items := sofar.items + page.items));
      }
    }
  }

  lemma NextIsHonest<T(!new)>(answers: nat -> Option<Inventory<T>>, n: nat, made: Snapshots<T>, peer: string,
      prefix: string, k: nat)
    requires HonestAnswers(answers, n, made, peer, prefix) && k < n && answers(k).Some?
    ensures if k == 0 then HonestFirst(made, peer, prefix, answers(0).value)
        else HonestNext(made, peer, prefix, Sent(answers, k), answers(k).value)
  {
  }

  /** One honest page more is one run of the snapshot more. */
  lemma Grown<T(!new)>(answers: nat -> Option<Inventory<T>>, k: nat, made: Snapshots<T>, peer: string, prefix: string,
                       before: Inventory<T>, after: Inventory<T>)
    requires answers(k).Some? && Begun(before, k, made, peer)
    requires if k == 0 then HonestFirst(made, peer, prefix, answers(0).value)
        else HonestNext(made, peer, prefix, Sent(answers, k), answers(k).value)
    requires k == 0 ==> after == answers(0).value
    requires k > 0 ==>
        after == before.(items := before.items + answers(k).value.items)
        && before.epoch == answers(k).value.epoch
                       && ParseCursor(prefix, Sent(answers, k)) == Some((before.revision, |before.items|))
    ensures Begun(after, k + 1, made, peer)
    ensures answers(k).value.next == "" ==> after.items == made[(after.epoch, after.revision)].1.items
  {
    hide ParseCursor;
    var p := answers(k).value;
    var full := made[(p.epoch, p.revision)].1;
    if k == 0 {
      var end: nat :| end <= |full.items| && p == Page(full, prefix, 0, end);
      CursorIsText(prefix, full.revision, end);
    } else {
      var end: nat :| |before.items| < end <= |full.items| && p == Page(full, prefix, |before.items|, end);
      CursorIsText(prefix, full.revision, end);
      assert full.items[..|before.items|] + full.items[|before.items|..end] == full.items[..end];
    }
  }

  /** Call k of the client is served by the server's step at(k). */
  ghost predicate Served<T(!new)>(events: seq<ServerEvent<T>>, prefix: string, peer: string,
      answers: nat -> Option<Inventory<T>>, at: nat -> nat, n: nat) {
    forall k: nat :: k < n && answers(k).Some? ==>
      && at(k) < |events|
      && if k == 0 then events[at(0)].First? && events[at(0)].peer == peer && events[at(0)].answer == answers(0)
         else events[at(k)] == Further(peer, Sent(answers, k), answers(k))
  }

  /** The answers one client gets at any moments of any run of the server are honest, so by CompletedIsExact a
      completed listing is exactly one snapshot, made for that client, under every interleaving of other peers,
      evictions, expiry and restarts. */
  lemma AnswersOfARun<T(!new)>(states: seq<Server<T>>, events: seq<ServerEvent<T>>, prefix: string, peer: string,
                               answers: nat -> Option<Inventory<T>>, at: nat -> nat, n: nat)
    requires ServerRun(states, events, prefix) && Served(events, prefix, peer, answers, at, n)
    ensures HonestAnswers(answers, n, states[|events|].made, peer, prefix)
    ensures forall k <- states[|events|].made :: states[|events|].made[k].1.next == ""
  {
    forall k: nat | k < n && answers(k).Some?
      ensures if k == 0 then HonestFirst(states[|events|].made, peer, prefix, answers(0).value)
              else HonestNext(states[|events|].made, peer, prefix, Sent(answers, k), answers(k).value)
    {
      RunIsHonest(states, events, prefix, at(k));
    }
    ServerRunInv(states, events, prefix, |events|);
  }

  /** Collecting keeps the epoch and revision of the first answer. */
  lemma {:induction false} FirstAnswerDecides<T>(answers: nat -> Option<Inventory<T>>, prefix: string, k: nat,
      sofar: Inventory<T>)
    requires k > 0 ==>
        answers(0).Some? && sofar.epoch == answers(0).value.epoch
        && sofar.revision == answers(0).value.revision
    ensures var (res, calls) := Collected(answers, prefix, k, sofar);
            res.Ok? ==> answers(0).Some? && calls > 0 && res.value.epoch == answers(0).value.epoch
                        && res.value.revision == answers(0).value.revision
    decreases ClientPageMax - k
  {
    hide ParseCursor;
    if k < ClientPageMax && answers(k).Some? {
      var page := answers(k).value;
      if k + 1 < ClientPageMax {
        FirstAnswerDecides(answers, prefix, k + 1, if k == 0 then page else sofar.(items := sofar.items + page.items));
      }
    }
  }

  /** A client that completes against a server holds exactly the snapshot that its first request was answered from,
      under every interleaving of other peers, evictions, expiry and restarts with its own calls. */
  lemma CompletedClientHasItsSnapshot<T(!new)>(states: seq<Server<T>>, events: seq<ServerEvent<T>>, prefix: string,
      peer: string, answers: nat -> Option<Inventory<T>>, at: nat -> nat)
    requires ServerRun(states, events, prefix)
    requires Served(events, prefix, peer, answers, at, Collected(answers, prefix, 0, Inventory("", 0, [], [], "")).1)
    ensures var (res, calls) := Collected(answers, prefix, 0, Inventory("", 0, [], [], ""));
            res.Ok? ==> at(0) < |events| && events[at(0)].First? && events[at(0)].peer == peer
                        && events[at(0)].full == res.value
  {
    var blank: Inventory<T> := Inventory("", 0, [], [], "");
    var (res, calls) := Collected(answers, prefix, 0, blank);
    if res.Ok? {
      hide Collected, ParseCursor, HonestAnswers;
      FirstAnswerDecides(answers, prefix, 0, blank);
      AnswersOfARun(states, events, prefix, peer, answers, at, calls);
      CompletedIsExact(answers, prefix, 0, blank, peer, states[|events|].made);
      FirstMakes(states, events, prefix, at(0));
      StillRemembered(states, events, prefix, at(0) + 1, |events|);
    }
  }

  lemma FirstMakes<T(!new)>(states: seq<Server<T>>, events: seq<ServerEvent<T>>, prefix: string, i: nat)
    requires ServerRun(states, events, prefix) && i < |events| && events[i].First? && events[i].answer.Some?
    ensures var e := events[i]; var key := (e.answer.value.epoch, e.answer.value.revision);
            key in states[i + 1].made && states[i + 1].made[key] == (e.peer, e.full)
  {
    assert ServerStep(states[i], events[i], states[i + 1], prefix);
  }

  // ---- client and server together ----------------------------------------------------------------------------------

  /** The client makes its k-th call. */
  predicate Asks<T>(answers: nat -> Option<Inventory<T>>, k: nat) {
    k == 0 || (answers(k - 1).Some? && answers(k - 1).value.next != "")
  }

  /** Every call the client makes is one request to the server, all within the time to live of the first; between two
      calls anything may happen there, but the client's own snapshot is neither evicted nor lost in a restart. */
  ghost predicate Undisturbed<T(!new)>(before: nat -> Server<T>, after: nat -> Server<T>, time: nat -> Time,
      answers: nat -> Option<Inventory<T>>, peer: string, prefix: string, requested: int, full: Inventory<T>,
      fits: Inventory<T> -> bool) {
    && full.epoch == before(0).epoch && full.revision == before(0).revision + 1 && full.next == ""
    && (forall k: nat :: Asks(answers, k) ==>
          ListStep(before(k), peer, prefix, requested, Sent(answers, k), full.scopes, full.items, fits, time(k),
            answers(k), after(k)))
    && (forall k: nat :: time(0) <= time(k) <= time(0) + PageTtl)
    && (forall k: nat :: PageKey(peer, full.revision) in after(k).pages ==>
          PageKey(peer, full.revision) in before(k + 1).pages
          && before(k + 1).pages[PageKey(peer, full.revision)] == after(k).pages[PageKey(peer, full.revision)])
  }

  predicate FitsAlone<T>(full: Inventory<T>, prefix: string, k: nat, fits: Inventory<T> -> bool)
    requires k < |full.items|
  {
    fits(Page(full, prefix, k, k + 1))
  }

  /** Every item fits a page of its own. */
  predicate ItemsFit<T>(full: Inventory<T>, prefix: string, fits: Inventory<T> -> bool) {
    && (full.items == [] ==> fits(Page(full, prefix, 0, 0)))
    && (forall k: nat :: k < |full.items| ==> FitsAlone(full, prefix, k, fits))
  }

  /** An answer at an offset goes on when the next item fits. */
  lemma AnswerGoesOn<T(!new)>(full: Inventory<T>, prefix: string, offset: nat, limit: nat, fits: Inventory<T> -> bool,
      page: Option<Inventory<T>>) returns (end: nat)
    requires offset <= |full.items| && Answers(full, prefix, offset, limit, fits, page) && ItemsFit(full, prefix, fits)
    requires limit > 0 && (offset == |full.items| ==> offset == 0)
    ensures offset <= end <= |full.items| && end - offset <= limit && (offset < |full.items| ==> offset < end)
    ensures page == Some(Page(full, prefix, offset, end))
    ensures page.value.next == "" <==> end == |full.items|
  {
    hide Cursor;
    if offset == |full.items| {
      end := offset;
    } else {
      end :| Greedy(full, prefix, offset, limit, fits, end)
        && page == if end == offset then None else Some(Page(full, prefix, offset, end));
      assert FitsAlone(full, prefix, offset, fits);
    }
    CursorIsText(prefix, full.revision, end);
  }

  /** From any call on, an undisturbed client collects the rest of the snapshot. */
  lemma {:induction false} CollectsTheRest<T(!new)>(before: nat -> Server<T>, after: nat -> Server<T>,
      time: nat -> Time,
      answers: nat -> Option<Inventory<T>>, peer: string, prefix: string, requested: int, full: Inventory<T>,
      fits: Inventory<T> -> bool, k: nat, sofar: Inventory<T>)
    requires Undisturbed(before, after, time, answers, peer, prefix, requested, full, fits)
    requires Lacks(prefix, '.') && PageLimit(requested, PageItemMax).Some? && ItemsFit(full, prefix, fits)
    requires 1 <= full.revision <= MaxUint64 && |full.items| <= MaxOffset
    requires Asks(answers, k) && |sofar.items| <= |full.items|
    requires k == 0 ==> sofar == Inventory("", 0, [], [], "")
    requires k > 0 ==>
               && |sofar.items| < |full.items| && sofar.(next := "") == full.(items := full.items[..|sofar.items|])
               && Sent(answers, k) == Cursor(prefix, full.revision, |sofar.items|) && |sofar.items| > 0
               && PageKey(peer, full.revision) in before(k).pages
               && before(k).pages[PageKey(peer, full.revision)] == Cached(time(0), full)
    ensures var (res, calls) := Collected(answers, prefix, k, sofar);
            && (res == Ok(full) || res == Err(TooManyPages))
            && (k < ClientPageMax && |full.items| - |sofar.items| <= ClientPageMax - k ==> res == Ok(full))
    decreases ClientPageMax - k
  {
    hide ParseCursor, Cursor, PageKey, Lacks, Undisturbed, Answers;
    if k < ClientPageMax {
      var offset := |sofar.items|;
      var end := CallGoesOn(before, after, time, answers, peer, prefix, requested, full, fits, k, offset);
      var page := answers(k).value;
      var more := if k == 0 then page else sofar.(items := sofar.items + page.items);
      assert full.items[..offset] + full.items[offset..end] == full.items[..end] == full.items[0..end];
      assert full.items[..|full.items|] == full.items;
      assert more.(next := "") == full.(items := full.items[..end]);
      if end < |full.items| {
        CursorRoundTrip(prefix, full.revision, end);
        CollectsTheRest(before, after, time, answers, peer, prefix, requested, full, fits, k + 1, more);
      }
    }
  }

  /** One call of an undisturbed client: the answer goes on from the offset, and the snapshot is there for the next. */
  lemma CallGoesOn<T(!new)>(before: nat -> Server<T>, after: nat -> Server<T>, time: nat -> Time,
      answers: nat -> Option<Inventory<T>>, peer: string, prefix: string, requested: int, full: Inventory<T>,
      fits: Inventory<T> -> bool, k: nat, offset: nat) returns (end: nat)
    requires Undisturbed(before, after, time, answers, peer, prefix, requested, full, fits)
    requires Lacks(prefix, '.') && PageLimit(requested, PageItemMax).Some? && ItemsFit(full, prefix, fits)
    requires full.revision <= MaxUint64 && |full.items| <= MaxOffset && Asks(answers, k)
    requires k == 0 ==> offset == 0
    requires k > 0 ==>
               && 0 < offset < |full.items| && Sent(answers, k) == Cursor(prefix, full.revision, offset)
               && PageKey(peer, full.revision) in before(k).pages
               && before(k).pages[PageKey(peer, full.revision)] == Cached(time(0), full)
    ensures offset <= end <= |full.items| && end - offset <= PageItemMax && (offset < |full.items| ==> offset < end)
    ensures full.next == "" && answers(k) == Some(Page(full, prefix, offset, end))
    ensures answers(k).value.next == "" <==> end == |full.items|
    ensures end < |full.items| ==>
              && Asks(answers, k + 1) && Sent(answers, k + 1) == Cursor(prefix, full.revision, end)
              && PageKey(peer, full.revision) in before(k + 1).pages
              && before(k + 1).pages[PageKey(peer, full.revision)] == Cached(time(0), full)
  {
    hide ParseCursor, Cursor, PageKey, Lacks, Answers, ItemsFit, MakesRoom;
    var limit := PageLimit(requested, PageItemMax).value;
    assert ListStep(before(k), peer, prefix, requested, Sent(answers, k), full.scopes, full.items, fits, time(k),
        answers(k), after(k));
    if k > 0 {
      CursorIsText(prefix, full.revision, offset);
      CursorRoundTrip(prefix, full.revision, offset);
      assert FurtherStep(before(k), peer, prefix, full.revision, offset, limit, fits, time(k), answers(k), after(k));
    } else {
      assert full == Inventory(before(0).epoch, before(0).revision + 1, full.scopes, full.items, "");
      assert FirstStep(before(0), peer, prefix, limit, full.scopes, full.items, fits, time(0), answers(0), after(0));
    }
    end := AnswerGoesOn(full, prefix, offset, limit, fits, answers(k));
    assert time(0) <= time(k) <= time(0) + PageTtl;
    if end < |full.items| {
      assert PageKey(peer, full.revision) in after(k).pages
        && after(k).pages[PageKey(peer, full.revision)] == Cached(time(0), full);
    }
  }

  /** A client whose calls are undisturbed within the time to live gets exactly the snapshot of its first call, whatever
      the page sizes and whatever else the server does meanwhile, when every item fits a page; only a listing of more
      than 4096 pages is given up. */
  lemma UndisturbedClientGetsItsSnapshot<T(!new)>(before: nat -> Server<T>, after: nat -> Server<T>, time: nat -> Time,
      answers: nat -> Option<Inventory<T>>, peer: string, prefix: string, requested: int, full: Inventory<T>,
      fits: Inventory<T> -> bool)
    requires Undisturbed(before, after, time, answers, peer, prefix, requested, full, fits)
    requires Lacks(prefix, '.') && PageLimit(requested, PageItemMax).Some? && ItemsFit(full, prefix, fits)
    requires full.revision <= MaxUint64 && |full.items| <= MaxOffset
    ensures var (res, calls) := Collected(answers, prefix, 0, Inventory("", 0, [], [], ""));
            && (res == Ok(full) || res == Err(TooManyPages))
            && (|full.items| <= ClientPageMax ==> res == Ok(full))
  {
    assert full.revision >= 1;
    CollectsTheRest(before, after, time, answers, peer, prefix, requested, full, fits, 0, Inventory("", 0, [], [], ""));
  }
}
