/**
 View counts: increments gathered in a buffer, drained in one step and added to the ads in
 one batch (services/listing/internal/views/counter.go,
 services/listing/internal/worker/views.go:48-67, services/listing/internal/app/service.go:139-166).
 */
module Views {
  import opened Collections
  import opened Listing

  type Counts = map<AdId, int>

  function Get(m: Counts, id: AdId): int {
    if id in m then m[id] else 0
  }

  function Add(m: Counts, id: AdId, n: int): Counts {
    m[id := Get(m, id) + n]
  }

  /** Both tallies together. */
  function Merge(m: Counts, n: Counts): Counts {
    map id | id in m.Keys + n.Keys :: Get(m, id) + Get(n, id)
  }

  function NonZero(m: Counts): Counts {
    map id | id in m && m[id] != 0 :: m[id]
  }

  class Counter {
    var buffer: Counts

    constructor ()
      ensures buffer == map[]
    {
      buffer := map[];
    }

    method Incr(id: AdId)
      modifies this
      ensures buffer == Add(old(buffer), id, 1)
    {
      buffer := buffer[id := (if id in buffer then buffer[id] else 0) + 1];
    }

    method Buffered(id: AdId) returns (n: int)
      ensures n == Get(buffer, id)
    {
      if id !in buffer {
        return 0;
      }
      n := buffer[id];
    }

    /** Takes the whole buffer and leaves it empty. */
    method Drain() returns (out: Counts)
      modifies this
      ensures out == NonZero(old(buffer)) && buffer == map[]
    {
      var data := buffer;
      buffer := map[];
      out := map[];
      var keys := data.Keys;
      while keys != {}
        invariant keys <= data.Keys
        invariant out == map id | id in data && id !in keys && data[id] != 0 :: data[id]
        decreases keys
      {
        var id :| id in keys;
        if data[id] != 0 {
          out := out[id := data[id]];
        }
        keys := keys - {id};
      }
    }

    /** Puts counts back, on top of what has been counted since. */
    method Restore(counts: Counts)
      modifies this
      ensures buffer == Merge(old(buffer), counts)
    {
      var keys := counts.Keys;
      while keys != {}
        invariant keys <= counts.Keys
        invariant buffer.Keys == old(buffer).Keys + (counts.Keys - keys)
        invariant forall id :: id in buffer ==> buffer[id] == Get(old(buffer), id) + if id in keys then 0 else Get(counts, id)
        decreases keys
      {
        var id :| id in keys;
        buffer := buffer[id := (if id in buffer then buffer[id] else 0) + counts[id]];
        keys := keys - {id};
      }
    }
  }

  lemma GetNonZero(m: Counts)
    ensures forall id :: Get(NonZero(m), id) == Get(m, id)
  {
  }

  lemma GetMerge(m: Counts, n: Counts)
    ensures forall id :: Get(Merge(m, n), id) == Get(m, id) + Get(n, id)
  {
  }

  /** The ads there are, with their buffered views added. */
  function WithViews(ads: map<AdId, Ad>, counts: Counts): map<AdId, Ad> {
    map id | id in ads :: ads[id].(views := ads[id].views + Get(counts, id))
  }

  lemma NonZeroViews(ads: map<AdId, Ad>, m: Counts)
    ensures WithViews(ads, m) == Viewed(ads, NonZero(m))
  {
    GetNonZero(m);
  }

  lemma NoViews(ads: map<AdId, Ad>)
    ensures Viewed(ads, map[]) == ads
  {
  }

  class ViewFlusher {
    const repo: AdRepo
    const counter: Counter

    constructor (repo: AdRepo, counter: Counter)
      ensures this.repo == repo && this.counter == counter
    {
      this.repo, this.counter := repo, counter;
    }

    /** One flush alone: every ad keeps its total, written or still buffered, unless the write fails
        and the return of the counts too, which loses the buffered views, or the write was committed
        unheard and they are returned, which counts them twice. */
    method Flush(write: Ending, restoreFails: bool)
      modifies repo, counter
      ensures repo.ads == if write.RolledBack? then old(repo.ads) else WithViews(old(repo.ads), old(counter.buffer))
      ensures forall id :: Get(counter.buffer, id) == if write.Confirmed? || restoreFails then 0 else old(Get(counter.buffer, id))
      ensures repo.outbox == old(repo.outbox) && repo.processed == old(repo.processed)
    {
      var counts := counter.Drain();
      GetNonZero(old(counter.buffer));
      NonZeroViews(repo.ads, old(counter.buffer));
      hide NonZero;
      if counts == map[] {
        NoViews(repo.ads);
        assert forall id :: Get(old(counter.buffer), id) == Get(counts, id);
        return;
      }
      hide WithViews;
      if !write.RolledBack? {
        repo.AddViews(counts);
      }
      if !write.Confirmed? && !restoreFails {
        counter.Restore(counts);
      }
    }
  }

  /* Any number of flushers and readers */

  /** A flush between draining and writing, or putting its counts back one by one. */
  datatype Flusher = Holding(counts: Counts) | Restoring(counts: Counts) | Over

  /** `views` are the persisted counts of the ads there are, `total` the increments ever made,
      `gone` those that left with a deleted ad, a crash or a failed restore, `twice` those written
      by a flusher that took the write for failed. */
  datatype State = State(views: Counts, buffer: Counts, flushers: seq<Flusher>, total: Counts, gone: Counts, twice: Counts)

  const INIT: State := State(map[], map[], [], map[], map[], map[])

  datatype Action =
    | AddAd(id: AdId)
    | RemoveAd(id: AdId)
    | View(id: AdId)
    | Take
    | Persist(flusher: nat)
    | PersistFails(flusher: nat)
    | PersistUnheard(flusher: nat)
    | RestoreOne(flusher: nat, id: AdId)
    | Crash(flusher: nat)  // also a restore that gives up

  ghost predicate Enabled(s: State, a: Action) {
    match a
    case AddAd(id) => id !in s.views && id !in s.total && id !in s.gone && id !in s.twice  // a new id
    case RemoveAd(id) => id in s.views
    case View(_) => true
    case Take => true
    case Persist(k) => k < |s.flushers| && s.flushers[k].Holding?
    case PersistFails(k) => k < |s.flushers| && s.flushers[k].Holding?
    case PersistUnheard(k) => k < |s.flushers| && s.flushers[k].Holding?
    case RestoreOne(k, id) => k < |s.flushers| && s.flushers[k].Restoring? && id in s.flushers[k].counts
    case Crash(k) => k < |s.flushers| && !s.flushers[k].Over?
  }

  /** What a batch update adds to the ads there are. */
  function Written(views: Counts, counts: Counts): Counts {
    map id | id in views :: views[id] + Get(counts, id)
  }

  /** What it leaves aside. */
  function Unmatched(views: Counts, counts: Counts): Counts {
    map id | id in counts && id !in views :: counts[id]
  }

  /** What it takes in. */
  function Matched(views: Counts, counts: Counts): Counts {
    map id | id in counts && id in views :: counts[id]
  }

  ghost function Apply(s: State, a: Action): State
    requires Enabled(s, a)
  {
    match a
    case AddAd(id) => s.(views := s.views[id := 0])
    case RemoveAd(id) => s.(views := s.views - {id}, gone := Add(s.gone, id, s.views[id]))
    case View(id) => s.(buffer := Add(s.buffer, id, 1), total := Add(s.total, id, 1))
    case Take => s.(buffer := map[], flushers := s.flushers + [Holding(NonZero(s.buffer))])
    case Persist(k) =>
      s.(views := Written(s.views, s.flushers[k].counts),
         gone := Merge(s.gone, Unmatched(s.views, s.flushers[k].counts)),
         flushers := s.flushers[k := Over])
    case PersistUnheard(k) =>
      s.(views := Written(s.views, s.flushers[k].counts),
         twice := Merge(s.twice, Matched(s.views, s.flushers[k].counts)),
         flushers := s.flushers[k := Restoring(s.flushers[k].counts)])
    case PersistFails(k) => s.(flushers := s.flushers[k := Restoring(s.flushers[k].counts)])
    case RestoreOne(k, id) =>
      s.(buffer := Add(s.buffer, id, s.flushers[k].counts[id]),
         flushers := s.flushers[k := Restoring(s.flushers[k].counts - {id})])
    case Crash(k) => s.(gone := Merge(s.gone, s.flushers[k].counts), flushers := s.flushers[k := Over])
  }

  ghost predicate Run(states: seq<State>, actions: seq<Action>) {
    && |states| == |actions| + 1
    && states[0] == INIT
    && forall i {:trigger actions[i]} :: 0 <= i < |actions| ==>
         Enabled(states[i], actions[i]) && states[i + 1] == Apply(states[i], actions[i])
  }

  function Carried(id: AdId): Flusher -> int {
    (f: Flusher) => if f.Over? then 0 else Get(f.counts, id)
  }

  function InFlight(s: State, id: AdId): int {
    Sum(s.flushers, Carried(id))
  }

  /** Where every view of an ad is. */
  function Accounted(s: State, id: AdId): int {
    Get(s.views, id) + Get(s.buffer, id) + InFlight(s, id) + Get(s.gone, id)
  }

  ghost predicate NonNegative(m: Counts) {
    forall id :: id in m ==> 0 <= m[id]
  }

  ghost predicate Inv(s: State) {
    && (forall id :: Accounted(s, id) == Get(s.total, id) + Get(s.twice, id))
    && NonNegative(s.views) && NonNegative(s.buffer) && NonNegative(s.gone)
    && forall k :: 0 <= k < |s.flushers| && !s.flushers[k].Over? ==> NonNegative(s.flushers[k].counts)
  }

  /** Views once written or gone do not come back into the buffer. */
  ghost predicate BankGrows(s: State, s': State) {
    forall id :: Get(s.views, id) + Get(s.gone, id) <= Get(s'.views, id) + Get(s'.gone, id)
  }

  /** What a step adds to the views of an ad in the hands of flushers. */
  function Moved(s: State, a: Action, id: AdId): int
    requires (a.Persist? || a.Crash?) ==> a.flusher < |s.flushers| && !s.flushers[a.flusher].Over?
    requires a.RestoreOne? ==> a.flusher < |s.flushers| && s.flushers[a.flusher].Restoring?
  {
    match a
    case Take => Get(s.buffer, id)
    case Persist(k) => -Get(s.flushers[k].counts, id)
    case Crash(k) => -Get(s.flushers[k].counts, id)
    case RestoreOne(k, x) => if x == id then -Get(s.flushers[k].counts, id) else 0
    case _ => 0
  }

  lemma InFlightAfter(s: State, a: Action, s': State, id: AdId)
    requires Enabled(s, a) && s' == Apply(s, a)
    ensures InFlight(s', id) == InFlight(s, id) + Moved(s, a, id)
  {
    if a.Take? {
      SumSnoc(s.flushers, Holding(NonZero(s.buffer)), Carried(id));
    } else if a.Persist? || a.PersistFails? || a.PersistUnheard? || a.RestoreOne? || a.Crash? {
      SumUpdate(s.flushers, a.flusher, s'.flushers[a.flusher], Carried(id));
    }
    hide Sum;
  }

  lemma BatchAdds(views: Counts, counts: Counts, id: AdId)
    ensures Get(Written(views, counts), id) == Get(views, id) + Get(Matched(views, counts), id)
    ensures Get(Matched(views, counts), id) + Get(Unmatched(views, counts), id) == Get(counts, id)
  {
  }

  lemma AccountKept(s: State, a: Action, s': State, id: AdId)
    requires Enabled(s, a) && s' == Apply(s, a)
    requires Accounted(s, id) == Get(s.total, id) + Get(s.twice, id)
    ensures Accounted(s', id) == Get(s'.total, id) + Get(s'.twice, id)
  {
    InFlightAfter(s, a, s', id);
    if a.Persist? || a.PersistUnheard? {
      BatchAdds(s.views, s.flushers[a.flusher].counts, id);
      GetMerge(s.gone, Unmatched(s.views, s.flushers[a.flusher].counts));
      GetMerge(s.twice, Matched(s.views, s.flushers[a.flusher].counts));
    } else if a.Crash? {
      GetMerge(s.gone, s.flushers[a.flusher].counts);
    }
    hide InFlight;
    hide Merge;
    hide Written;
    hide Unmatched;
    hide Matched;
    hide NonZero;
  }

  lemma SignsOfMerge(m: Counts, n: Counts)
    requires NonNegative(m) && NonNegative(n)
    ensures NonNegative(Merge(m, n))
  {
  }

  lemma SignsOfNonZero(m: Counts)
    requires NonNegative(m)
    ensures NonNegative(NonZero(m))
  {
  }

  /** A batch update adds to the ads it finds and leaves the rest aside. */
  lemma BatchSplits(views: Counts, counts: Counts)
    requires NonNegative(views) && NonNegative(counts)
    ensures NonNegative(Written(views, counts)) && NonNegative(Unmatched(views, counts))
    ensures forall id :: Get(views, id) <= Get(Written(views, counts), id)
  {
  }

  lemma SignsKept(s: State, a: Action, s': State)
    requires Inv(s) && Enabled(s, a) && s' == Apply(s, a)
    ensures NonNegative(s'.views) && NonNegative(s'.buffer) && NonNegative(s'.gone)
    ensures forall k :: 0 <= k < |s'.flushers| && !s'.flushers[k].Over? ==> NonNegative(s'.flushers[k].counts)
  {
    hide Accounted;
    if a.Take? {
      SignsOfNonZero(s.buffer);
    } else if a.Persist? || a.PersistUnheard? {
      BatchSplits(s.views, s.flushers[a.flusher].counts);
      SignsOfMerge(s.gone, Unmatched(s.views, s.flushers[a.flusher].counts));
    } else if a.Crash? {
      SignsOfMerge(s.gone, s.flushers[a.flusher].counts);
    }
    hide Merge;
    hide Written;
    hide Unmatched;
    hide NonZero;
  }

  lemma BankStep(s: State, a: Action, s': State)
    requires Inv(s) && Enabled(s, a) && s' == Apply(s, a)
    ensures BankGrows(s, s')
  {
    hide Accounted;
    if a.Persist? || a.PersistUnheard? {
      BatchSplits(s.views, s.flushers[a.flusher].counts);
      GetMerge(s.gone, Unmatched(s.views, s.flushers[a.flusher].counts));
    } else if a.Crash? {
      GetMerge(s.gone, s.flushers[a.flusher].counts);
    }
    hide Merge;
    hide Written;
    hide Unmatched;
    hide NonZero;
  }

  lemma StepKeepsInv(s: State, a: Action, s': State)
    requires Inv(s) && Enabled(s, a) && s' == Apply(s, a)
    ensures Inv(s') && BankGrows(s, s')
  {
    SignsKept(s, a, s');
    BankStep(s, a, s');
    forall id ensures Accounted(s', id) == Get(s'.total, id) + Get(s'.twice, id) {
      AccountKept(s, a, s', id);
    }
  }

  lemma {:induction false} RunKeepsInv(states: seq<State>, actions: seq<Action>, i: nat)
    requires Run(states, actions) && i < |states|
    ensures Inv(states[i])
  {
    if i > 0 {
      RunKeepsInv(states, actions, i - 1);
      StepKeepsInv(states[i - 1], actions[i - 1], states[i]);
    }
  }

  /** Under any interleaving, the views written, buffered and in the hands of flushers are
      exactly the increments, less those that went with a deleted ad, a crash or a failed restore,
      and once more those whose write was committed unheard. */
  lemma ViewsConserved(states: seq<State>, actions: seq<Action>, i: nat, id: AdId)
    requires Run(states, actions) && i < |states|
    ensures var s := states[i];
            Get(s.views, id) + Get(s.buffer, id) + InFlight(s, id) == Get(s.total, id) - Get(s.gone, id) + Get(s.twice, id)
    ensures 0 <= Get(states[i].gone, id)
  {
    RunKeepsInv(states, actions, i);
  }

  /** While the ad is there and no flusher of its views crashes or gives up, none is gone. */
  ghost predicate Lossless(s: State, a: Action, id: AdId) {
    && !(a.RemoveAd? && a.id == id) && (a.Persist? ==> id in s.views)
    && (a.Crash? ==> a.flusher < |s.flushers| && !s.flushers[a.flusher].Over? && Get(s.flushers[a.flusher].counts, id) == 0)
  }

  lemma {:induction false} NothingGone(states: seq<State>, actions: seq<Action>, i: nat, id: AdId)
    requires Run(states, actions) && i < |states|
    requires forall k {:trigger actions[k]} :: 0 <= k < i ==> Lossless(states[k], actions[k], id)
    ensures Get(states[i].gone, id) == 0
  {
    if i > 0 {
      NothingGone(states, actions, i - 1, id);
      assert Lossless(states[i - 1], actions[i - 1], id);
    }
  }

  /** While every committed write of its views is heard of, none is counted twice. */
  ghost predicate Hears(s: State, a: Action, id: AdId) {
    a.PersistUnheard? && a.flusher < |s.flushers| && !s.flushers[a.flusher].Over? ==> Get(s.flushers[a.flusher].counts, id) == 0
  }

  lemma {:induction false} NothingTwice(states: seq<State>, actions: seq<Action>, i: nat, id: AdId)
    requires Run(states, actions) && i < |states|
    requires forall k {:trigger actions[k]} :: 0 <= k < i ==> Hears(states[k], actions[k], id)
    ensures Get(states[i].twice, id) == 0
  {
    if i > 0 {
      NothingTwice(states, actions, i - 1, id);
      assert Hears(states[i - 1], actions[i - 1], id);
    }
  }

  /** One view, written by a flusher that takes its write for failed and puts the view back. */
  lemma LostWriteCountsTwice() returns (states: seq<State>, actions: seq<Action>)
    ensures Run(states, actions) && |actions| == 5
    ensures Get(states[5].total, 1) == 1 && Get(states[5].views, 1) == 1 && Get(states[5].buffer, 1) == 1
  {
    var one: Counts := map[1 := 1];
    var s1 := INIT.(views := map[1 := 0]);
    var s2 := s1.(buffer := one, total := one);
    var s3 := s2.(buffer := map[], flushers := [Holding(one)]);
    var s4 := s3.(views := one, flushers := [Restoring(one)], twice := one);
    var s5 := s4.(buffer := one, flushers := [Restoring(map[])]);
    assert NonZero(one) == one && Written(s3.views, one) == one && Matched(s3.views, one) == one;
    assert Merge(map[], one) == one && one - {1} == map[];
    states := [INIT, s1, s2, s3, s4, s5];
    actions := [AddAd(1), View(1), Take, PersistUnheard(0), RestoreOne(0, 1)];
  }

  lemma {:induction false} BankOnlyGrows(states: seq<State>, actions: seq<Action>, i: nat, j: nat, id: AdId)
    requires Run(states, actions) && i <= j < |states|
    ensures Get(states[i].views, id) + Get(states[i].gone, id) <= Get(states[j].views, id) + Get(states[j].gone, id)
  {
    if i < j {
      BankOnlyGrows(states, actions, i, j - 1, id);
      RunKeepsInv(states, actions, j - 1);
      StepKeepsInv(states[j - 1], actions[j - 1], states[j]);
    }
  }

  /** A card adds the buffer, read last, to the count its row had, read first: whatever flushers
      do in between, it never shows more views than there were and were counted twice. */
  lemma DisplayedNeverExceedsTrue(states: seq<State>, actions: seq<Action>, i: nat, j: nat, id: AdId)
    requires Run(states, actions) && i <= j < |states|
    ensures Get(states[i].views, id) + Get(states[j].buffer, id) <= Get(states[j].total, id) + Get(states[j].twice, id)
  {
    RunKeepsInv(states, actions, i);
    RunKeepsInv(states, actions, j);
    BankOnlyGrows(states, actions, i, j, id);
    var s := states[j];
    assert Accounted(s, id) == Get(s.total, id) + Get(s.twice, id);
    SumNonNegative(s.flushers, Carried(id));
  }
}
