/**
 Saved searches: a coarse prefilter in the database, an exact match in the matcher, one
 notification per search and ad, and a throttle per search
 (services/favorites-savedsearch/internal/repo/savedsearch.go,
 services/favorites-savedsearch/internal/domain/savedsearch.go:56-102,
 services/favorites-savedsearch/internal/matcher/matcher.go:61-112).
 */
module SavedSearch {
  import opened Clock
  import opened Collections

  type SearchId = nat
  type UserId = nat
  type AdId = nat

  datatype Query = Query(
    text: string,
    categoryId: string,
    regionId: int,
    cityId: int,
    priceMin: Option<int>,
    priceMax: Option<int>,
    currency: string,
    attrs: map<string, string>)

  datatype Search = Search(
    id: SearchId,
    user: UserId,
    name: string,
    query: Query,
    categoryKey: Option<string>,  // coarse keys; none matches any
    regionKey: Option<int>,
    notify: bool,
    lastNotified: Option<Time>)

  datatype AdView = AdView(
    id: AdId,
    categoryId: string,
    regionId: int,
    cityId: Option<int>,
    price: int,
    currency: string,
    title: string,
    description: string,
    attrs: map<string, string>)

  /* Exact matching */

  function Lower(c: char): char {
    if 'A' <= c <= 'Z' then (c as int + 32) as char else c
  }

  function ToLower(s: string): (r: string)
    ensures |r| == |s|
  {
    seq(|s|, i requires 0 <= i < |s| => Lower(s[i]))
  }

  predicate EqualFold(s: string, t: string) {
    ToLower(s) == ToLower(t)
  }

  predicate IsSpace(c: char) {
    c == ' ' || '\t' <= c <= '\r'
  }

  function TrimSpace(s: string): string
    decreases |s|
  {
    if s == "" then ""
    else if IsSpace(s[0]) then TrimSpace(s[1..])
    else if IsSpace(s[|s| - 1]) then TrimSpace(s[..|s| - 1])
    else s
  }

  predicate Contains(s: string, part: string) {
    part <= s || (s != "" && Contains(s[1..], part))
  }

  predicate MatchesText(text: string, ad: AdView) {
    var needle := ToLower(TrimSpace(text));
    needle == "" || Contains(ToLower(ad.title), needle) || Contains(ToLower(ad.description), needle)
  }

  /** An attribute the ad does not have reads as an empty value. */
  function AttrOf(attrs: map<string, string>, slug: string): string {
    if slug in attrs then attrs[slug] else ""
  }

  predicate Matches(q: Query, ad: AdView) {
    && (q.categoryId == "" || q.categoryId == ad.categoryId)
    && (q.regionId == 0 || q.regionId == ad.regionId)
    && (q.cityId == 0 || ad.cityId == Some(q.cityId))
    && (q.currency == "" || EqualFold(q.currency, ad.currency))
    && (q.priceMin.Some? ==> q.priceMin.value <= ad.price)
    && (q.priceMax.Some? ==> ad.price <= q.priceMax.value)
    && (forall slug | slug in q.attrs :: AttrOf(ad.attrs, slug) == q.attrs[slug])
    && (q.text == "" || MatchesText(q.text, ad))
  }

  /* The coarse prefilter */

  function CoarseCategory(categoryId: string): Option<string> {
    if categoryId == "" then None else Some(categoryId)
  }

  function CoarseRegion(regionId: int): Option<int> {
    if regionId == 0 then None else Some(regionId)
  }

  /** A column matches when it is NULL or equal to the key; nothing is equal to a NULL key. */
  predicate KeyMatches<T(==)>(column: Option<T>, key: Option<T>) {
    column.None? || (key.Some? && column == key)
  }

  predicate IsCandidate(s: Search, ad: AdView) {
    s.notify && KeyMatches(s.categoryKey, CoarseCategory(ad.categoryId)) && KeyMatches(s.regionKey, CoarseRegion(ad.regionId))
  }

  function CandidateFor(ad: AdView): Search -> bool { (s: Search) => IsCandidate(s, ad) }

  function MatchesAd(ad: AdView): Search -> bool { (s: Search) => Matches(s.query, ad) }

  function Wanted(ad: AdView): Search -> bool { (s: Search) => s.notify && Matches(s.query, ad) }

  function Candidates(searches: seq<Search>, ad: AdView): seq<Search> {
    Filter(searches, CandidateFor(ad))
  }

  /** The coarse keys are those of the query, as they were set when the search was saved. */
  predicate KeysOf(s: Search) {
    s.categoryKey == CoarseCategory(s.query.categoryId) && s.regionKey == CoarseRegion(s.query.regionId)
  }

  /** The prefilter loses nothing: the candidates that match are exactly the searches with
      notifications on that match. */
  lemma {:induction false} CandidatesLoseNothing(searches: seq<Search>, ad: AdView)
    requires forall i :: 0 <= i < |searches| ==> KeysOf(searches[i])
    ensures Filter(Candidates(searches, ad), MatchesAd(ad)) == Filter(searches, Wanted(ad))
  {
    if searches != [] {
      var n := |searches| - 1;
      var init, s := searches[..n], searches[n];
      CandidatesLoseNothing(init, ad);
      assert KeysOf(s);
      if IsCandidate(s, ad) {
        FilterSnoc(Candidates(init, ad), s, MatchesAd(ad));
      } else {
        assert !Wanted(ad)(s);
        assert Candidates(searches, ad) == Candidates(init, ad);
      }
    }
  }

  /* Recording a match */

  datatype Event = SearchMatched(search: SearchId, user: UserId, ad: AdId, name: string)

  /** `sentAt` keeps, beside each event of the outbox, the database clock it was enqueued at. */
  datatype Db = Db(searches: seq<Search>, matches: set<(SearchId, AdId)>, outbox: seq<Event>, sentAt: seq<Time>)

  const EMPTY: Db := Db([], {}, [], [])

  predicate Throttled(s: Search, throttle: int, now: Time) {
    s.lastNotified.Some? && s.lastNotified.value > now - throttle * SECOND
  }

  function Touch(id: SearchId, throttle: int, now: Time): Search -> Search {
    (s: Search) => if s.id == id && !Throttled(s, throttle, now) then s.(lastNotified := Some(now)) else s
  }

  predicate MayNotify(searches: seq<Search>, id: SearchId, throttle: int, now: Time) {
    exists i | 0 <= i < |searches| :: searches[i].id == id && !Throttled(searches[i], throttle, now)
  }

  predicate HasSearch(searches: seq<Search>, id: SearchId) {
    exists i | 0 <= i < |searches| :: searches[i].id == id
  }

  function CreateTx(db: Db, s: Search): Db {
    db.(searches := db.searches + [s.(categoryKey := CoarseCategory(s.query.categoryId),
                                      regionKey := CoarseRegion(s.query.regionId), lastNotified := None)])
  }

  function Other(id: SearchId): Search -> bool { (s: Search) => s.id != id }

  predicate Owns(searches: seq<Search>, id: SearchId, user: UserId) {
    exists i | 0 <= i < |searches| :: searches[i].id == id && searches[i].user == user
  }

  /** Deleting a search takes its recorded matches with it. */
  function DeleteTx(db: Db, id: SearchId, user: UserId): Db {
    if !Owns(db.searches, id, user) then db
    else db.(searches := Filter(db.searches, Other(id)), matches := set m | m in db.matches && m.0 != id)
  }

  /** The new tables, and whether the event was enqueued; a search that is gone fails the
      foreign key of the match. */
  function RecordTx(db: Db, id: SearchId, ad: AdId, throttle: int, ev: Event, now: Time): Option<(Db, bool)> {
    if !HasSearch(db.searches, id) then None
    else if (id, ad) in db.matches then Some((db, false))
    else
      var noted := db.(matches := db.matches + {(id, ad)});
      if !MayNotify(db.searches, id, throttle, now) then Some((noted, false))
      else Some((noted.(searches := Map(db.searches, Touch(id, throttle, now)),
                        outbox := db.outbox + [ev], sentAt := db.sentAt + [now]), true))
  }

  class Store {
    var searches: seq<Search>
    var matches: set<(SearchId, AdId)>
    var outbox: seq<Event>
    ghost var sentAt: seq<Time>

    ghost function Tables(): Db
      reads this
    {
      Db(searches, matches, outbox, sentAt)
    }

    constructor ()
      ensures Tables() == EMPTY
    {
      searches, matches, outbox, sentAt := [], {}, [], [];
    }

    method CreateSavedSearch(id: SearchId, user: UserId, name: string, query: Query, notify: bool)
      modifies this
      ensures Tables() == CreateTx(old(Tables()), Search(id, user, name, query, None, None, notify, None))
    {
      searches := searches + [Search(id, user, name, query, CoarseCategory(query.categoryId), CoarseRegion(query.regionId),
                                     notify, None)];
    }

    method RecordMatchWithEvent(id: SearchId, ad: AdId, throttle: int, ev: Event, now: Time) returns (r: Option<bool>)
      modifies this
      ensures match RecordTx(old(Tables()), id, ad, throttle, ev, now)
              case None => r == None && Tables() == old(Tables())
              case Some((db, published)) => r == Some(published) && Tables() == db
    {
      if !HasSearch(searches, id) {
        return None;
      }
      if (id, ad) in matches {
        return Some(false);
      }
      matches := matches + {(id, ad)};
      if !MayNotify(searches, id, throttle, now) {
        return Some(false);
      }
      searches := Map(searches, Touch(id, throttle, now));
      outbox := outbox + [ev];
      sentAt := sentAt + [now];
      r := Some(true);
    }
  }

  /** The matcher's step for one candidate. */
  function Recorded(db: Db, s: Search, ad: AdView, throttle: int, now: Time): Option<(Db, bool)> {
    if !Matches(s.query, ad) then Some((db, false))
    else RecordTx(db, s.id, ad.id, throttle, SearchMatched(s.id, s.user, ad.id, s.name), now)
  }

  /** What one run of the matcher leaves, how many events it enqueued, and whether it got through:
      candidates are taken in turn, `clock(k)` being the database clock at the k-th, and a failing
      write ends the run. */
  function Notify(db: Db, candidates: seq<Search>, ad: AdView, throttle: int, clock: nat -> Time): (Db, nat, bool) {
    if candidates == [] then (db, 0, true) else
    var n := |candidates| - 1;
    var (before, notified, ok) := Notify(db, candidates[..n], ad, throttle, clock);
    if !ok then (before, notified, false)
    else
      match Recorded(before, candidates[n], ad, throttle, clock(n))
      case None => (before, notified, false)
      case Some((after, published)) => (after, if published then notified + 1 else notified, true)
  }

  class Matcher {
    const store: Store
    const throttle: int

    constructor (store: Store, throttle: int)
      ensures this.store == store && this.throttle == throttle
    {
      this.store, this.throttle := store, throttle;
    }

    /** Handles one approved ad; says whether the message may be acknowledged. */
    method Handle(found: Option<AdView>, clock: nat -> Time) returns (notified: nat, ok: bool)
      modifies store
      ensures var before := old(store.Tables());
              (store.Tables(), notified, ok) ==
                if found.None? then (before, 0, true)
                else Notify(before, Candidates(before.searches, found.value), found.value, throttle, clock)
    {
      notified, ok := 0, true;
      if found.None? {
        return;
      }
      var ad := found.value;
      var candidates := Candidates(store.searches, ad);
      hide Recorded;
      hide Candidates;
      ghost var before := store.Tables();
      for k := 0 to |candidates|
        invariant (store.Tables(), notified, true) == Notify(before, candidates[..k], ad, throttle, clock)
      {
        assert candidates[..k + 1][..k] == candidates[..k];
        var published := Consider(candidates[k], ad, clock(k));
        if published.None? {
          FailsForGood(before, candidates, k + 1, ad, throttle, clock);
          ok := false;
          return;
        }
        if published.value {
          notified := notified + 1;
        }
      }
      assert candidates[..|candidates|] == candidates;
    }

    method Consider(s: Search, ad: AdView, now: Time) returns (published: Option<bool>)
      modifies store
      ensures match Recorded(old(store.Tables()), s, ad, throttle, now)
              case None => published == None && store.Tables() == old(store.Tables())
              case Some((db, p)) => published == Some(p) && store.Tables() == db
    {
      if !Matches(s.query, ad) {
        return Some(false);
      }
      published := store.RecordMatchWithEvent(s.id, ad.id, throttle, SearchMatched(s.id, s.user, ad.id, s.name), now);
    }
  }

  lemma {:induction false} FailsForGood(db: Db, candidates: seq<Search>, k: nat, ad: AdView, throttle: int, clock: nat -> Time)
    requires k <= |candidates| && !Notify(db, candidates[..k], ad, throttle, clock).2
    ensures Notify(db, candidates, ad, throttle, clock) == Notify(db, candidates[..k], ad, throttle, clock)
  {
    if k == |candidates| {
      assert candidates[..k] == candidates;
    } else {
      var init := candidates[..|candidates| - 1];
      assert init[..k] == candidates[..k];
      FailsForGood(db, init, k, ad, throttle, clock);
    }
  }

  /* Runs */

  /** A matcher at work: the ad it read, and the candidates still ahead. */
  datatype Task = Task(ad: AdView, ahead: seq<Search>)

  /** `born` are the ids ever given to a search. */
  datatype State = State(db: Db, born: set<SearchId>, tasks: seq<Task>)

  const INIT: State := State(EMPTY, {}, [])

  datatype Action =
    | Save(search: Search)
    | Remove(id: SearchId, user: UserId)
    | Approved(ad: AdView)  // also a redelivery, and with whatever the ad has become
    | Record(task: nat, now: Time)
    | Crash(task: nat)

  ghost predicate Enabled(s: State, a: Action) {
    match a
    case Save(search) => search.id !in s.born
    case Remove(_, _) => true
    case Approved(_) => true
    case Record(k, _) => k < |s.tasks| && s.tasks[k].ahead != []
    case Crash(k) => k < |s.tasks|
  }

  ghost function Apply(s: State, a: Action, throttle: int): State
    requires Enabled(s, a)
  {
    match a
    case Save(search) => s.(db := CreateTx(s.db, search), born := s.born + {search.id})
    case Remove(id, user) => s.(db := DeleteTx(s.db, id, user))
    case Approved(ad) => s.(tasks := s.tasks + [Task(ad, Candidates(s.db.searches, ad))])
    case Record(k, now) =>
      var t := s.tasks[k];
      (match Recorded(s.db, t.ahead[0], t.ad, throttle, now)
       case None => s.(tasks := s.tasks[k := Task(t.ad, [])])
       case Some((db, _)) => s.(db := db, tasks := s.tasks[k := Task(t.ad, t.ahead[1..])]))
    case Crash(k) => s.(tasks := s.tasks[k := Task(s.tasks[k].ad, [])])
  }

  ghost predicate Run(states: seq<State>, actions: seq<Action>, throttle: int) {
    && |states| == |actions| + 1
    && states[0] == INIT
    && forall i {:trigger actions[i]} :: 0 <= i < |actions| ==>
         Enabled(states[i], actions[i]) && states[i + 1] == Apply(states[i], actions[i], throttle)
  }

  ghost predicate SearchesInv(s: State) {
    && (forall i :: 0 <= i < |s.db.searches| ==> KeysOf(s.db.searches[i]) && s.db.searches[i].id in s.born)
    && (forall i, j :: 0 <= i < j < |s.db.searches| ==> s.db.searches[i].id != s.db.searches[j].id)
  }

  /** An event's pair is recorded as long as its search is there. */
  ghost predicate PairsInv(s: State) {
    && |s.db.sentAt| == |s.db.outbox|
    && (forall i, j :: 0 <= i < j < |s.db.outbox| ==>
          (s.db.outbox[i].search, s.db.outbox[i].ad) != (s.db.outbox[j].search, s.db.outbox[j].ad))
    && (forall i :: 0 <= i < |s.db.outbox| ==> s.db.outbox[i].search in s.born)
    && (forall i :: 0 <= i < |s.db.outbox| && HasSearch(s.db.searches, s.db.outbox[i].search) ==>
          (s.db.outbox[i].search, s.db.outbox[i].ad) in s.db.matches)
  }

  ghost predicate Remembers(s: State)
    requires |s.db.sentAt| == |s.db.outbox|
  {
    forall i, k :: 0 <= i < |s.db.outbox| && 0 <= k < |s.db.searches| && s.db.searches[k].id == s.db.outbox[i].search ==>
      s.db.searches[k].lastNotified.Some? && s.db.sentAt[i] <= s.db.searches[k].lastNotified.value
  }

  /** A search remembers its latest event, and its events keep their distance. */
  ghost predicate ThrottleInv(s: State, throttle: int) {
    && |s.db.sentAt| == |s.db.outbox|
    && Remembers(s)
    && (forall i, j :: 0 <= i < j < |s.db.outbox| && s.db.outbox[i].search == s.db.outbox[j].search ==>
          s.db.sentAt[i] + throttle * SECOND <= s.db.sentAt[j])
  }

  ghost predicate Inv(s: State, throttle: int) {
    SearchesInv(s) && PairsInv(s) && ThrottleInv(s, throttle)
  }

  /** Searches that a deletion leaves were there before, and are still different. */
  lemma {:induction false} Survivors(searches: seq<Search>, left: seq<Search>, id: SearchId)
    requires left == Filter(searches, Other(id))
    requires forall i, j :: 0 <= i < j < |searches| ==> searches[i].id != searches[j].id
    ensures forall i, j :: 0 <= i < j < |left| ==> left[i].id != left[j].id
    ensures forall i :: 0 <= i < |left| ==> left[i].id != id && exists k :: 0 <= k < |searches| && searches[k] == left[i]
  {
    if searches != [] {
      var n := |searches| - 1;
      var init, kept := searches[..n], Filter(searches[..n], Other(id));
      Survivors(init, kept, id);
      assert left == kept + if Other(id)(searches[n]) then [searches[n]] else [];
      hide Filter;
      forall i | 0 <= i < |kept|
        ensures kept[i].id != searches[n].id && exists k :: 0 <= k < |searches| && searches[k] == kept[i]
      {
        var k :| 0 <= k < n && init[k] == kept[i];
        assert searches[k] == kept[i];
      }
      forall i | 0 <= i < |left| ensures left[i].id != id && exists k :: 0 <= k < |searches| && searches[k] == left[i] {
        if i < |kept| {
          assert left[i] == kept[i];
        } else {
          assert left[i] == searches[n];
        }
      }
    }
  }

  lemma RemoveKeepsInv(s: State, id: SearchId, user: UserId, throttle: int, s': State)
    requires Inv(s, throttle) && s' == s.(db := DeleteTx(s.db, id, user))
    ensures Inv(s', throttle)
  {
    if Owns(s.db.searches, id, user) {
      var left := s'.db.searches;
      Survivors(s.db.searches, left, id);
      hide Filter;
      forall x | HasSearch(left, x) ensures HasSearch(s.db.searches, x) && x != id {
        var k :| 0 <= k < |left| && left[k].id == x;
        var m :| 0 <= m < |s.db.searches| && s.db.searches[m] == left[k];
      }
    }
  }

  lemma SaveKeepsInv(s: State, search: Search, throttle: int, s': State)
    requires Inv(s, throttle) && search.id !in s.born
    requires s' == s.(db := CreateTx(s.db, search), born := s.born + {search.id})
    ensures Inv(s', throttle)
  {
    forall id | HasSearch(s'.db.searches, id) && id != search.id ensures HasSearch(s.db.searches, id) {
      var i :| 0 <= i < |s'.db.searches| && s'.db.searches[i].id == id;
      assert s.db.searches[i].id == id;
    }
  }

  lemma RecordKeepsInv(s: State, id: SearchId, ad: AdId, throttle: int, ev: Event, now: Time, s': State)
    requires Inv(s, throttle) && throttle >= 0
    requires ev.search == id && ev.ad == ad
    requires RecordTx(s.db, id, ad, throttle, ev, now).Some?
    requires s' == s.(db := RecordTx(s.db, id, ad, throttle, ev, now).value.0)
    ensures Inv(s', throttle)
  {
    forall x ensures HasSearch(s'.db.searches, x) <==> HasSearch(s.db.searches, x) {
      if i :| 0 <= i < |s.db.searches| && s.db.searches[i].id == x {
        assert s'.db.searches[i].id == x;
      }
      if i :| 0 <= i < |s'.db.searches| && s'.db.searches[i].id == x {
        assert s.db.searches[i].id == x;
      }
    }
    if |s'.db.outbox| > |s.db.outbox| {
      NewEventKeepsPairs(s, id, ad, s');
      NewEventKeepsDistance(s, id, throttle, now, s');
      hide PairsInv;
      hide ThrottleInv;
    }
  }

  lemma NewEventKeepsPairs(s: State, id: SearchId, ad: AdId, s': State)
    requires SearchesInv(s) && PairsInv(s)
    requires HasSearch(s.db.searches, id) && (id, ad) !in s.db.matches && s'.born == s.born
    requires s'.db.matches == s.db.matches + {(id, ad)} && |s'.db.sentAt| == |s'.db.outbox|
    requires |s'.db.outbox| == |s.db.outbox| + 1 && s.db.outbox <= s'.db.outbox
    requires s'.db.outbox[|s.db.outbox|].search == id && s'.db.outbox[|s.db.outbox|].ad == ad
    requires forall x :: HasSearch(s'.db.searches, x) <==> HasSearch(s.db.searches, x)
    ensures PairsInv(s')
  {
  }

  /** The search touched remembers the new event, the others what they did. */
  lemma LatestIsRemembered(s: State, id: SearchId, throttle: int, now: Time, s': State)
    requires SearchesInv(s) && ThrottleInv(s, throttle) && throttle >= 0
    requires MayNotify(s.db.searches, id, throttle, now)
    requires s'.db.searches == Map(s.db.searches, Touch(id, throttle, now))
    requires |s'.db.outbox| == |s.db.outbox| + 1 && s.db.outbox <= s'.db.outbox && s'.db.sentAt == s.db.sentAt + [now]
    requires s'.db.outbox[|s.db.outbox|].search == id
    ensures Remembers(s')
  {
    var n := |s.db.outbox|;
    var m :| 0 <= m < |s.db.searches| && s.db.searches[m].id == id && !Throttled(s.db.searches[m], throttle, now);
    forall i, k | 0 <= i <= n && 0 <= k < |s.db.searches| && s'.db.searches[k].id == s'.db.outbox[i].search
      ensures s'.db.searches[k].lastNotified.Some? && s'.db.sentAt[i] <= s'.db.searches[k].lastNotified.value
    {
      assert s'.db.searches[k] == Touch(id, throttle, now)(s.db.searches[k]);
      assert i < n ==> s'.db.outbox[i] == s.db.outbox[i] && s'.db.sentAt[i] == s.db.sentAt[i];
      if s.db.searches[k].id == id {
        assert k == m;
      }
    }
  }

  lemma NewEventKeepsDistance(s: State, id: SearchId, throttle: int, now: Time, s': State)
    requires SearchesInv(s) && ThrottleInv(s, throttle) && throttle >= 0
    requires MayNotify(s.db.searches, id, throttle, now)
    requires s'.db.searches == Map(s.db.searches, Touch(id, throttle, now))
    requires |s'.db.outbox| == |s.db.outbox| + 1 && s.db.outbox <= s'.db.outbox && s'.db.sentAt == s.db.sentAt + [now]
    requires s'.db.outbox[|s.db.outbox|].search == id
    ensures ThrottleInv(s', throttle)
  {
    var n := |s.db.outbox|;
    var m :| 0 <= m < |s.db.searches| && s.db.searches[m].id == id && !Throttled(s.db.searches[m], throttle, now);
    assert forall i :: 0 <= i < n ==> s'.db.outbox[i] == s.db.outbox[i] && s'.db.sentAt[i] == s.db.sentAt[i];
    forall i | 0 <= i < n && s.db.outbox[i].search == id ensures s.db.sentAt[i] + throttle * SECOND <= now {
      assert s.db.searches[m].lastNotified.Some?;
    }
    LatestIsRemembered(s, id, throttle, now, s');
    hide Map;
    hide Touch;
  }

  lemma RecordedKeepsInv(s: State, c: Search, ad: AdView, throttle: int, now: Time, s': State)
    requires Inv(s, throttle) && throttle >= 0
    requires Recorded(s.db, c, ad, throttle, now).Some?
    requires s'.db == Recorded(s.db, c, ad, throttle, now).value.0 && s'.born == s.born
    ensures Inv(s', throttle)
  {
    if Matches(c.query, ad) {
      RecordKeepsInv(s, c.id, ad.id, throttle, SearchMatched(c.id, c.user, ad.id, c.name), now, s.(db := s'.db));
    }
    hide Recorded;
    SameTables(s.(db := s'.db), s', throttle);
  }

  lemma SameTables(s: State, s': State, throttle: int)
    requires s'.db == s.db && s'.born == s.born
    ensures Inv(s, throttle) <==> Inv(s', throttle)
  {
  }

  lemma StepKeepsInv(s: State, a: Action, throttle: int, s': State)
    requires Inv(s, throttle) && throttle >= 0 && Enabled(s, a) && s' == Apply(s, a, throttle)
    ensures Inv(s', throttle)
  {
    hide Inv;
    hide CreateTx;
    hide DeleteTx;
    hide Recorded;
    match a
    case Save(search) => SaveKeepsInv(s, search, throttle, s');
    case Remove(id, user) => RemoveKeepsInv(s, id, user, throttle, s');
    case Record(k, now) =>
      var t := s.tasks[k];
      if Recorded(s.db, t.ahead[0], t.ad, throttle, now).Some? {
        RecordedKeepsInv(s, t.ahead[0], t.ad, throttle, now, s');
      } else {
        SameTables(s, s', throttle);
      }
    case Approved(_) => SameTables(s, s', throttle);
    case Crash(_) => SameTables(s, s', throttle);
  }

  lemma {:induction false} RunKeepsInv(states: seq<State>, actions: seq<Action>, throttle: int, i: nat)
    requires Run(states, actions, throttle) && throttle >= 0 && i < |states|
    ensures Inv(states[i], throttle)
  {
    if i > 0 {
      RunKeepsInv(states, actions, throttle, i - 1);
      StepKeepsInv(states[i - 1], actions[i - 1], throttle, states[i]);
    }
  }

  /** However many matchers run, over whatever redeliveries: a search and an ad are notified
      about at most once, and two events of one search are at least the throttle apart. */
  lemma NotifiedOnceAndApart(states: seq<State>, actions: seq<Action>, throttle: int, i: nat, m: nat, n: nat)
    requires Run(states, actions, throttle) && throttle >= 0 && i < |states| && m < n < |states[i].db.outbox|
    requires states[i].db.outbox[m].search == states[i].db.outbox[n].search
    ensures states[i].db.outbox[m].ad != states[i].db.outbox[n].ad
    ensures n < |states[i].db.sentAt| && states[i].db.sentAt[m] + throttle * SECOND <= states[i].db.sentAt[n]
  {
    RunKeepsInv(states, actions, throttle, i);
  }

  /** At any moment of a run, the candidates that match an ad are the searches that want it. */
  lemma CandidatesAreTheWanted(states: seq<State>, actions: seq<Action>, throttle: int, i: nat, ad: AdView)
    requires Run(states, actions, throttle) && throttle >= 0 && i < |states|
    ensures Filter(Candidates(states[i].db.searches, ad), MatchesAd(ad)) == Filter(states[i].db.searches, Wanted(ad))
  {
    RunKeepsInv(states, actions, throttle, i);
    CandidatesLoseNothing(states[i].db.searches, ad);
  }
}
