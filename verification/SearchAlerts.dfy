/**
 What a saved search lets through and what an approved ad sets off, read off the fields
 (services/favorites-savedsearch/internal/domain/savedsearch.go:56-102,
 services/favorites-savedsearch/internal/repo/savedsearch.go:66-124,
 services/favorites-savedsearch/internal/matcher/matcher.go:64-112).
 */
module SearchAlerts {
  import opened Clock
  import opened Collections
  import opened SavedSearch

  /* Text */

  /** The same letter, whatever its case. */
  predicate SameLetter(a: char, b: char) {
    || a == b
    || ('A' <= a <= 'Z' && b as int == a as int + 32)
    || ('A' <= b <= 'Z' && a as int == b as int + 32)
  }

  predicate SameWord(s: string, t: string) {
    |s| == |t| && forall i | 0 <= i < |s| :: SameLetter(s[i], t[i])
  }

  predicate StandsAt(text: string, i: int, part: string) {
    0 <= i <= |text| - |part| && text[i..i + |part|] == part
  }

  predicate MentionedAt(text: string, i: int, needle: string) {
    0 <= i <= |text| - |needle| && SameWord(text[i..i + |needle|], needle)
  }

  /** `needle` stands somewhere in `text`, in whatever case. */
  ghost predicate Mentions(text: string, needle: string) {
    exists i :: MentionedAt(text, i, needle)
  }

  predicate AllSpace(s: string) {
    forall i | 0 <= i < |s| :: IsSpace(s[i])
  }

  /** `core` is `text` without the white space around it. */
  ghost predicate IsCore(text: string, core: string) {
    && (core != "" ==> !IsSpace(core[0]) && !IsSpace(core[|core| - 1]))
    && exists front, back :: text == front + core + back && AllSpace(front) && AllSpace(back)
  }

  lemma LowerIsSameLetter(a: char, b: char)
    ensures Lower(a) == Lower(b) <==> SameLetter(a, b)
  {
    assert 'A' <= a <= 'Z' ==> Lower(a) as int == a as int + 32;
    assert 'A' <= b <= 'Z' ==> Lower(b) as int == b as int + 32;
  }

  lemma FoldsAreSameLetters(s: string, t: string)
    ensures ToLower(s) == ToLower(t) <==> SameWord(s, t)
  {
    if |s| == |t| {
      forall i | 0 <= i < |s| ensures ToLower(s)[i] == ToLower(t)[i] <==> SameLetter(s[i], t[i]) {
        LowerIsSameLetter(s[i], t[i]);
      }
    } else {
      assert |ToLower(s)| != |ToLower(t)|;
    }
  }

  lemma {:induction false} TrimmedIsTheCore(text: string)
    ensures IsCore(text, TrimSpace(text))
    decreases |text|
  {
    if text == "" {
      assert text == "" + "" + "" && AllSpace("");
    } else if IsSpace(text[0]) {
      TrimmedIsTheCore(text[1..]);
      WiderCore(text[..1], text[1..], TrimSpace(text[1..]), "");
      assert text == text[..1] + text[1..] + "";
    } else if IsSpace(text[|text| - 1]) {
      var n := |text| - 1;
      TrimmedIsTheCore(text[..n]);
      WiderCore("", text[..n], TrimSpace(text[..n]), text[n..]);
      assert text == "" + text[..n] + text[n..];
    } else {
      assert text == "" + text + "" && AllSpace("");
    }
  }

  lemma WiderCore(front: string, text: string, core: string, back: string)
    requires AllSpace(front) && AllSpace(back) && IsCore(text, core)
    ensures IsCore(front + text + back, core)
  {
    var f, b :| text == f + core + b && AllSpace(f) && AllSpace(b);
    assert front + text + back == (front + f) + core + (b + back);
    assert AllSpace(front + f) && AllSpace(b + back);
  }

  lemma {:induction false} ContainsSomewhere(s: string, part: string)
    ensures Contains(s, part) <==> exists i :: StandsAt(s, i, part)
    decreases |s|
  {
    if part <= s {
      assert StandsAt(s, 0, part);
    } else if s != "" {
      ContainsSomewhere(s[1..], part);
      if i :| StandsAt(s[1..], i, part) {
        Shift(s, i + 1, part);
      }
      if i :| StandsAt(s, i, part) {
        assert i > 0;
        Shift(s, i, part);
      }
    }
  }

  lemma Shift(s: string, i: int, part: string)
    requires s != "" && i > 0
    ensures StandsAt(s, i, part) <==> StandsAt(s[1..], i - 1, part)
  {
    if i <= |s| - |part| {
      assert s[i..i + |part|] == s[1..][i - 1..i - 1 + |part|];
    }
  }

  lemma LoweredMentions(text: string, needle: string)
    ensures Contains(ToLower(text), ToLower(needle)) <==> Mentions(text, needle)
  {
    var low, part := ToLower(text), ToLower(needle);
    ContainsSomewhere(low, part);
    forall i ensures StandsAt(low, i, part) <==> MentionedAt(text, i, needle) {
      if 0 <= i <= |text| - |needle| {
        assert low[i..i + |part|] == ToLower(text[i..i + |needle|]);
        FoldsAreSameLetters(text[i..i + |needle|], needle);
      }
    }
  }

  /* Matching */

  /** The reasons for an ad to be no match. */
  ghost predicate Misses(q: Query, ad: AdView) {
    || (q.categoryId != "" && ad.categoryId != q.categoryId)
    || (q.regionId != 0 && ad.regionId != q.regionId)
    || (q.cityId != 0 && (ad.cityId.None? || ad.cityId.value != q.cityId))
    || (q.currency != "" && !SameWord(q.currency, ad.currency))
    || (q.priceMin.Some? && ad.price < q.priceMin.value)
    || (q.priceMax.Some? && ad.price > q.priceMax.value)
    || (exists slug :: slug in q.attrs && MissesAttr(q.attrs[slug], ad, slug))
    || !(forall core :: IsCore(q.text, core) ==> core == "" || Mentions(ad.title, core) || Mentions(ad.description, core))
  }

  /** An attribute asked for with an empty value is met by an ad without it. */
  predicate MissesAttr(value: string, ad: AdView, slug: string) {
    if slug in ad.attrs then ad.attrs[slug] != value else value != ""
  }

  /** The first and the last character that is no white space bound every other core. */
  lemma CoreReaches(text: string, a: string, front: string, b: string, back: string) returns (at: nat)
    requires IsCore(text, a) && a != ""
    requires text == front + b + back && AllSpace(front) && AllSpace(back)
    ensures |front| <= at && at + |a| <= |front| + |b| && text[at..at + |a|] == a
  {
    var f, g :| text == f + a + g && AllSpace(f) && AllSpace(g);
    at := |f|;
    assert forall i :: 0 <= i < |front| ==> text[i] == front[i];
    assert forall i :: |front| + |b| <= i < |text| ==> text[i] == back[i - |front| - |b|];
    assert text[at] == a[0] && text[at + |a| - 1] == a[|a| - 1];
  }

  /** A text has one core. */
  lemma CoreIsUnique(text: string, a: string, b: string)
    requires IsCore(text, a) && IsCore(text, b)
    ensures a == b
  {
    var f, g :| text == f + a + g && AllSpace(f) && AllSpace(g);
    var h, k :| text == h + b + k && AllSpace(h) && AllSpace(k);
    if a != "" {
      var at := CoreReaches(text, a, h, b, k);
      var _ := CoreReaches(text, b, f, a, g);
      assert at == |h| && text[|h|..|h| + |b|] == b;
    } else if b != "" {
      var _ := CoreReaches(text, b, f, a, g);
    }
  }

  lemma TextMatches(text: string, ad: AdView)
    ensures (text == "" || MatchesText(text, ad)) <==>
              forall core :: IsCore(text, core) ==> core == "" || Mentions(ad.title, core) || Mentions(ad.description, core)
  {
    var needle := TrimSpace(text);
    TrimmedIsTheCore(text);
    LoweredMentions(ad.title, needle);
    LoweredMentions(ad.description, needle);
    forall core | IsCore(text, core) ensures core == needle {
      CoreIsUnique(text, core, needle);
    }
    assert text == "" ==> needle == "";
    assert ToLower(needle) == "" <==> needle == "";
  }

  /** A search takes an ad unless there is a reason against it: bounds of the price are met by
      the bound itself, letters are compared without case, the text is looked for without the
      white space around it, and an attribute the ad lacks reads as empty. */
  lemma MatchesUnlessMisses(q: Query, ad: AdView)
    ensures Matches(q, ad) <==> !Misses(q, ad)
  {
    FoldsAreSameLetters(q.currency, ad.currency);
    TextMatches(q.text, ad);
    hide IsCore;
    hide Mentions;
    hide MatchesText;
    hide SameWord;
    forall slug | slug in q.attrs ensures AttrOf(ad.attrs, slug) == q.attrs[slug] <==> !MissesAttr(q.attrs[slug], ad, slug) {}
  }

  /* One approved ad */

  ghost predicate DistinctSearches(searches: seq<Search>) {
    forall i, j :: 0 <= i < j < |searches| ==> searches[i].id != searches[j].id
  }

  /** The search was notified less than the throttle ago. */
  predicate Recent(s: Search, throttle: int, now: Time) {
    s.lastNotified.Some? && now < s.lastNotified.value + throttle * SECOND
  }

  /** The searches of `after` are those of `before`, but for when some of them were last notified. */
  ghost predicate OnlyTouched(before: seq<Search>, after: seq<Search>) {
    |after| == |before| && forall i :: 0 <= i < |before| ==> after[i].(lastNotified := before[i].lastNotified) == before[i]
  }

  /** Recording a match, for a search that is there: the pair is noted, and the event is sent
      exactly when the pair is new and the search was not notified lately; then the search is
      the only one to remember the moment. */
  lemma RecordingAMatch(db: Db, k: nat, ad: AdId, throttle: int, ev: Event, now: Time)
    requires DistinctSearches(db.searches) && k < |db.searches|
    ensures RecordTx(db, db.searches[k].id, ad, throttle, ev, now).Some?
    ensures var (after, sent) := RecordTx(db, db.searches[k].id, ad, throttle, ev, now).value;
            && (sent <==> (db.searches[k].id, ad) !in db.matches && !Recent(db.searches[k], throttle, now))
            && after.matches == db.matches + {(db.searches[k].id, ad)}
            && after.outbox == db.outbox + (if sent then [ev] else [])
            && after.sentAt == db.sentAt + (if sent then [now] else [])
            && OnlyTouched(db.searches, after.searches)
            && after.searches[k].lastNotified == (if sent then Some(now) else db.searches[k].lastNotified)
            && (forall i :: 0 <= i < |db.searches| && i != k ==> after.searches[i] == db.searches[i])
  {
    assert db.searches[k].id == db.searches[k].id;
    assert HasSearch(db.searches, db.searches[k].id);
    assert MayNotify(db.searches, db.searches[k].id, throttle, now) <==> !Throttled(db.searches[k], throttle, now);
    if (db.searches[k].id, ad) in db.matches {
      assert db.matches + {(db.searches[k].id, ad)} == db.matches;
    }
  }

  /** A match of a search that is gone fails. */
  lemma GoneSearchesFail(db: Db, id: SearchId, ad: AdId, throttle: int, ev: Event, now: Time)
    ensures RecordTx(db, id, ad, throttle, ev, now).None? <==> forall i :: 0 <= i < |db.searches| ==> db.searches[i].id != id
  {
  }

  /** The event that tells a search's owner of an ad. */
  ghost predicate Tells(ev: Event, s: Search, ad: AdView) {
    ev.search == s.id && ev.user == s.user && ev.ad == ad.id && ev.name == s.name
  }

  /** The pairs noted so far: those of the searches taken that match. */
  ghost predicate Noted(db: Db, taken: seq<Search>, ad: AdView, matches: set<(SearchId, AdId)>) {
    forall m :: m in matches <==>
      m in db.matches || (m.1 == ad.id && exists k :: 0 <= k < |taken| && taken[k].id == m.0 && !Misses(taken[k].query, ad))
  }

  /** The events sent so far: one for each search taken that is to be told, and no other. */
  ghost predicate Sent(db: Db, taken: seq<Search>, ad: AdView, throttle: int, clock: nat -> Time, events: seq<Event>) {
    && (forall k :: 0 <= k < |taken| ==> (HasEventFor(events, taken[k], ad) <==> IsTold(db, taken[k], ad, throttle, clock(k))))
    && (forall e :: 0 <= e < |events| ==> exists k :: 0 <= k < |taken| && Tells(events[e], taken[k], ad))
    && (forall e, f :: 0 <= e < f < |events| ==> events[e].search != events[f].search)
  }

  ghost predicate HasEventFor(events: seq<Event>, s: Search, ad: AdView) {
    exists e :: 0 <= e < |events| && Tells(events[e], s, ad)
  }

  /** What a matcher that is alone has done after the candidates `taken`. */
  ghost predicate Alerted(db: Db, taken: seq<Search>, ad: AdView, throttle: int, clock: nat -> Time, after: Db, notified: nat) {
    && OnlyTouched(db.searches, after.searches)
    && Noted(db, taken, ad, after.matches)
    && db.outbox <= after.outbox && |after.outbox| == |db.outbox| + notified
    && Sent(db, taken, ad, throttle, clock, after.outbox[|db.outbox|..])
  }

  /** The search matches, the pair is new, and the search was not notified lately. */
  ghost predicate IsTold(db: Db, s: Search, ad: AdView, throttle: int, now: Time) {
    !Misses(s.query, ad) && (s.id, ad.id) !in db.matches && !Recent(s, throttle, now)
  }

  /** A search not taken yet is as it was. */
  ghost predicate Untaken(db: Db, taken: seq<Search>, after: Db) {
    && |after.searches| == |db.searches|
    && forall i :: 0 <= i < |db.searches| && (forall k :: 0 <= k < |taken| ==> taken[k].id != db.searches[i].id) ==>
         after.searches[i] == db.searches[i]
  }

  lemma PassedOver(db: Db, init: seq<Search>, s: Search, ad: AdView, throttle: int, clock: nat -> Time, after: Db, notified: nat)
    requires Alerted(db, init, ad, throttle, clock, after, notified) && Untaken(db, init, after)
    requires DistinctSearches(init + [s]) && Misses(s.query, ad)
    ensures Alerted(db, init + [s], ad, throttle, clock, after, notified) && Untaken(db, init + [s], after)
  {
    hide Misses;
    NotedNext(db, init, s, ad, after.matches, after.matches);
    SentNext(db, init, s, ad, throttle, clock, after.outbox[|db.outbox|..], []);
    assert after.outbox[|db.outbox|..] + [] == after.outbox[|db.outbox|..];
    UntakenNext(db, init, s, after, after);
  }

  lemma NotedNext(db: Db, init: seq<Search>, s: Search, ad: AdView, before: set<(SearchId, AdId)>, after: set<(SearchId, AdId)>)
    requires Noted(db, init, ad, before)
    requires after == if Misses(s.query, ad) then before else before + {(s.id, ad.id)}
    ensures Noted(db, init + [s], ad, after)
  {
    hide Misses;
    var taken := init + [s];
    forall m ensures m in after <==>
               m in db.matches || (m.1 == ad.id && exists k :: 0 <= k < |taken| && taken[k].id == m.0 && !Misses(taken[k].query, ad))
    {
      if k :| 0 <= k < |init| && init[k].id == m.0 && !Misses(init[k].query, ad) {
        assert taken[k] == init[k];
      }
      if m == (s.id, ad.id) {
        assert taken[|init|] == s;
      }
    }
  }

  lemma NewId(init: seq<Search>, s: Search)
    requires DistinctSearches(init + [s])
    ensures forall k :: 0 <= k < |init| ==> init[k].id != s.id
  {
    forall k | 0 <= k < |init| ensures init[k].id != s.id {
      assert (init + [s])[k].id != (init + [s])[|init|].id;
    }
  }

  lemma UntakenNext(db: Db, init: seq<Search>, s: Search, before: Db, after: Db)
    requires Untaken(db, init, before) && |after.searches| == |before.searches|
    requires forall i :: 0 <= i < |before.searches| && db.searches[i].id != s.id ==> after.searches[i] == before.searches[i]
    ensures Untaken(db, init + [s], after)
  {
    var taken := init + [s];
    forall i | 0 <= i < |db.searches| && (forall k :: 0 <= k < |taken| ==> taken[k].id != db.searches[i].id)
      ensures after.searches[i] == db.searches[i]
    {
      assert taken[|init|] == s;
      forall k | 0 <= k < |init| ensures init[k].id != db.searches[i].id {
        assert taken[k] == init[k];
      }
    }
  }

  lemma SentNext(db: Db, init: seq<Search>, s: Search, ad: AdView, throttle: int, clock: nat -> Time, events: seq<Event>, more: seq<Event>)
    requires Sent(db, init, ad, throttle, clock, events) && DistinctSearches(init + [s])
    requires more == if IsTold(db, s, ad, throttle, clock(|init|)) then [SearchMatched(s.id, s.user, ad.id, s.name)] else []
    ensures Sent(db, init + [s], ad, throttle, clock, events + more)
  {
    hide IsTold;
    NewId(init, s);
    var taken, all := init + [s], events + more;
    forall e | 0 <= e < |events| ensures events[e].search != s.id {
      var k :| 0 <= k < |init| && Tells(events[e], init[k], ad);
    }
    forall k | 0 <= k < |taken| ensures HasEventFor(all, taken[k], ad) <==> IsTold(db, taken[k], ad, throttle, clock(k)) {
      if k < |init| {
        assert taken[k] == init[k];
        if e :| 0 <= e < |events| && Tells(events[e], init[k], ad) {
          assert Tells(all[e], init[k], ad);
        }
        if e :| 0 <= e < |all| && Tells(all[e], init[k], ad) {
          assert e < |events|;
          assert all[e] == events[e];
        }
      } else if more != [] {
        assert Tells(all[|events|], s, ad);
      }
    }
    forall e | 0 <= e < |all| ensures exists k :: 0 <= k < |taken| && Tells(all[e], taken[k], ad) {
      if e < |events| {
        var k :| 0 <= k < |init| && Tells(events[e], init[k], ad);
        assert taken[k] == init[k];
      } else {
        assert Tells(all[e], taken[|init|], ad);
      }
    }
  }

  lemma {:induction false} AlertsSoFar(db: Db, cs: seq<Search>, ad: AdView, throttle: int, clock: nat -> Time)
    requires DistinctSearches(db.searches) && DistinctSearches(cs)
    requires forall k :: 0 <= k < |cs| ==> cs[k] in db.searches
    ensures var (after, notified, ok) := Notify(db, cs, ad, throttle, clock);
            ok && Alerted(db, cs, ad, throttle, clock, after, notified) && Untaken(db, cs, after)
  {
    if cs != [] {
      var n := |cs| - 1;
      var init, s := cs[..n], cs[n];
      assert cs == init + [s];
      AlertsSoFar(db, init, ad, throttle, clock);
      var (before, notified, ok) := Notify(db, init, ad, throttle, clock);
      MatchesUnlessMisses(s.query, ad);
      if Misses(s.query, ad) {
        PassedOver(db, init, s, ad, throttle, clock, before, notified);
      } else {
        TakenUp(db, init, s, ad, throttle, clock, before, notified);
      }
    }
  }

  lemma TakenUp(db: Db, init: seq<Search>, s: Search, ad: AdView, throttle: int, clock: nat -> Time, before: Db, notified: nat)
    requires Alerted(db, init, ad, throttle, clock, before, notified) && Untaken(db, init, before)
    requires DistinctSearches(db.searches) && DistinctSearches(init + [s]) && s in db.searches && !Misses(s.query, ad)
    ensures var r := RecordTx(before, s.id, ad.id, throttle, SearchMatched(s.id, s.user, ad.id, s.name), clock(|init|));
            && r.Some?
            && Alerted(db, init + [s], ad, throttle, clock, r.value.0, notified + if r.value.1 then 1 else 0)
            && Untaken(db, init + [s], r.value.0)
  {
    hide Misses;
    hide RecordTx;
    hide Sent;
    NewId(init, s);
    var i :| 0 <= i < |db.searches| && db.searches[i] == s;
    var ev, n := SearchMatched(s.id, s.user, ad.id, s.name), |db.outbox|;
    assert before.searches[i] == s;
    RecordingAMatch(before, i, ad.id, throttle, ev, clock(|init|));
    var (after, sent) := RecordTx(before, s.id, ad.id, throttle, ev, clock(|init|)).value;
    var more := if sent then [ev] else [];
    assert after.outbox[n..] == before.outbox[n..] + more;
    NotedNext(db, init, s, ad, before.matches, after.matches);
    assert (s.id, ad.id) in before.matches <==> (s.id, ad.id) in db.matches;
    SentNext(db, init, s, ad, throttle, clock, before.outbox[n..], more);
    UntakenNext(db, init, s, before, after);
  }

  lemma {:induction false} FilterIsDistinct(searches: seq<Search>, keep: Search -> bool)
    requires DistinctSearches(searches)
    ensures DistinctSearches(Filter(searches, keep))
  {
    if searches != [] {
      var n := |searches| - 1;
      var init := searches[..n];
      FilterIsDistinct(init, keep);
      FilterMembers(init, keep);
      forall k | 0 <= k < |Filter(init, keep)| ensures Filter(init, keep)[k].id != searches[n].id {
        assert Filter(init, keep)[k] in Filter(init, keep);
        var m :| 0 <= m < n && init[m] == Filter(init, keep)[k];
        assert searches[m].id != searches[n].id;
      }
    }
  }

  ghost predicate SomeoneIsTold(ev: Event, searches: seq<Search>, ad: AdView) {
    exists s :: s in searches && s.notify && !Misses(s.query, ad) && Tells(ev, s, ad)
  }

  lemma SameIdSameSearch(searches: seq<Search>, s: Search, t: Search)
    requires DistinctSearches(searches) && s in searches && t in searches && s.id == t.id
    ensures s == t
  {
  }

  lemma WantedAreCandidates(searches: seq<Search>, s: Search, ad: AdView)
    requires s in searches && forall i :: 0 <= i < |searches| ==> KeysOf(searches[i])
    ensures s.notify && !Misses(s.query, ad) ==> IsCandidate(s, ad)
  {
    assert KeysOf(s);
  }

  /** The candidates are distinct, and those a search wants the ad through are among them. */
  lemma CandidatesOf(searches: seq<Search>, ad: AdView)
    requires DistinctSearches(searches) && forall i :: 0 <= i < |searches| ==> KeysOf(searches[i])
    ensures var cs := Candidates(searches, ad);
            && DistinctSearches(cs)
            && (forall s :: s in cs ==> s in searches && s.notify)
            && (forall s :: s in searches && s.notify && !Misses(s.query, ad) ==> s in cs)
  {
    FilterIsDistinct(searches, CandidateFor(ad));
    FilterMembers(searches, CandidateFor(ad));
    hide Filter;
    hide Misses;
    forall s | s in searches && s.notify && !Misses(s.query, ad) ensures IsCandidate(s, ad) {
      WantedAreCandidates(searches, s, ad);
    }
  }

  lemma WhoIsNoted(db: Db, cs: seq<Search>, ad: AdView, matches: set<(SearchId, AdId)>)
    requires DistinctSearches(db.searches) && Noted(db, cs, ad, matches)
    requires forall s :: s in cs ==> s in db.searches && s.notify
    requires forall s :: s in db.searches && s.notify && !Misses(s.query, ad) ==> s in cs
    ensures forall s :: s in db.searches ==>
              ((s.id, ad.id) in matches <==> (s.id, ad.id) in db.matches || (s.notify && !Misses(s.query, ad)))
  {
    hide Misses;
    forall s | s in db.searches
      ensures (s.id, ad.id) in matches <==> (s.id, ad.id) in db.matches || (s.notify && !Misses(s.query, ad))
    {
      if s.notify && !Misses(s.query, ad) {
        var k :| 0 <= k < |cs| && cs[k] == s;
      }
      if k :| 0 <= k < |cs| && cs[k].id == s.id && !Misses(cs[k].query, ad) {
        SameIdSameSearch(db.searches, cs[k], s);
      }
    }
  }

  lemma WhoIsTold(db: Db, cs: seq<Search>, ad: AdView, throttle: int, clock: nat -> Time, events: seq<Event>)
    requires Sent(db, cs, ad, throttle, clock, events)
    requires forall s :: s in cs ==> s in db.searches && s.notify
    requires forall s :: s in db.searches && s.notify && !Misses(s.query, ad) ==> s in cs
    ensures forall s :: s in db.searches && s.notify && !Misses(s.query, ad) ==>
              exists k :: 0 <= k < |cs| && cs[k] == s
                && (HasEventFor(events, s, ad) <==> (s.id, ad.id) !in db.matches && !Recent(s, throttle, clock(k)))
    ensures forall e :: 0 <= e < |events| ==> SomeoneIsTold(events[e], db.searches, ad)
  {
    hide Misses;
    forall s | s in db.searches && s.notify && !Misses(s.query, ad)
      ensures exists k :: 0 <= k < |cs| && cs[k] == s
                && (HasEventFor(events, s, ad) <==> (s.id, ad.id) !in db.matches && !Recent(s, throttle, clock(k)))
    {
      var k :| 0 <= k < |cs| && cs[k] == s;
      assert HasEventFor(events, cs[k], ad) <==> IsTold(db, cs[k], ad, throttle, clock(k));
    }
    forall e | 0 <= e < |events| ensures SomeoneIsTold(events[e], db.searches, ad) {
      var k :| 0 <= k < |cs| && Tells(events[e], cs[k], ad);
      assert HasEventFor(events, cs[k], ad);
    }
  }

  /** Handling an approved ad by a matcher that is alone never fails. Afterwards the pair is
      noted for exactly the searches that want notifications and have no reason against the ad,
      besides those noted before. Each of them is told, once, exactly when its pair is new and it
      was not notified within the throttle; nobody else is told anything, and no other pair and
      no other column of a search has changed. */
  lemma ApprovalAlerts(db: Db, ad: AdView, throttle: int, clock: nat -> Time)
    requires DistinctSearches(db.searches) && forall i :: 0 <= i < |db.searches| ==> KeysOf(db.searches[i])
    ensures var cs := Candidates(db.searches, ad);
            var (after, notified, ok) := Notify(db, cs, ad, throttle, clock);
            && ok && db.outbox <= after.outbox && |after.outbox| == |db.outbox| + notified
            && OnlyTouched(db.searches, after.searches)
            && (forall m :: m in after.matches && m !in db.matches ==> m.1 == ad.id)
            && (forall s :: s in db.searches ==>
                  ((s.id, ad.id) in after.matches <==> (s.id, ad.id) in db.matches || (s.notify && !Misses(s.query, ad))))
            && (forall s :: s in db.searches && s.notify && !Misses(s.query, ad) ==>
                  exists k :: 0 <= k < |cs| && cs[k] == s
                    && (HasEventFor(after.outbox[|db.outbox|..], s, ad) <==>
                          (s.id, ad.id) !in db.matches && !Recent(s, throttle, clock(k))))
            && (forall e :: 0 <= e < notified ==> SomeoneIsTold(after.outbox[|db.outbox|..][e], db.searches, ad))
            && (forall e, f :: 0 <= e < f < notified ==>
                  after.outbox[|db.outbox|..][e].search != after.outbox[|db.outbox|..][f].search)
  {
    var cs := Candidates(db.searches, ad);
    CandidatesOf(db.searches, ad);
    hide Candidates;
    hide Misses;
    AlertsSoFar(db, cs, ad, throttle, clock);
    var (after, notified, ok) := Notify(db, cs, ad, throttle, clock);
    hide Notify;
    WhoIsNoted(db, cs, ad, after.matches);
    WhoIsTold(db, cs, ad, throttle, clock, after.outbox[|db.outbox|..]);
  }

  /* Saving and deleting */

  /** A search is saved as it was given, never notified so far, and is a candidate for exactly
      the ads of the category and the region it names, or of any where it names none. */
  lemma SavedAsGiven(db: Db, s: Search, ad: AdView)
    ensures |CreateTx(db, s).searches| == |db.searches| + 1 && db.searches <= CreateTx(db, s).searches
    ensures var saved := CreateTx(db, s).searches[|db.searches|];
            && saved.id == s.id && saved.user == s.user && saved.name == s.name && saved.query == s.query
            && saved.notify == s.notify && saved.lastNotified == None
            && (IsCandidate(saved, ad) <==>
                  && s.notify
                  && (s.query.categoryId == "" || s.query.categoryId == ad.categoryId)
                  && (s.query.regionId == 0 || s.query.regionId == ad.regionId))
    ensures CreateTx(db, s).(searches := db.searches) == db
  {
  }

  /** Only its owner deletes a search; then it is gone with the pairs noted for it, and the
      others stay. */
  lemma DeletedByItsOwner(db: Db, id: SearchId, user: UserId)
    ensures var after := DeleteTx(db, id, user);
            var owned := exists s :: s in db.searches && s.id == id && s.user == user;
            && (forall s :: s in after.searches <==> s in db.searches && !(owned && s.id == id))
            && (forall m :: m in after.matches <==> m in db.matches && !(owned && m.0 == id))
            && after.outbox == db.outbox && after.sentAt == db.sentAt
  {
    FilterMembers(db.searches, Other(id));
    if s :| s in db.searches && s.id == id && s.user == user {
      assert Owns(db.searches, id, user);
    }
  }
}
