/**
 Paid bumps: a schedule of days per promotion, a table of claimed days and any number
 of sweeping workers (services/payments/internal/worker/bump.go:57-111,
 services/payments/internal/repo/ad_promotion.go:45-98).
 */
module Bumps {
  import opened Clock
  import opened Collections
  import opened RefundArithmetic

  /** One scheduled day of one promotion: the key of a claim. */
  datatype Slot = Slot(promotion: PromotionId, day: int)

  datatype Bump = Bump(slot: Slot, ad: AdId, startsAt: Time)

  /* Which days are due */

  /** The row's scheduled days, first to last. */
  function Expand(p: AdPromotion, n: nat): seq<Bump>
    requires n <= |p.schedule|
  {
    if n == 0 then [] else Expand(p, n - 1) + [Bump(Slot(p.id, p.schedule[n - 1]), p.adId, p.startsAt)]
  }

  function ExpandAll(promotions: seq<AdPromotion>): seq<Bump> {
    if promotions == [] then [] else
    var p := promotions[|promotions| - 1];
    ExpandAll(promotions[..|promotions| - 1]) + if p.status.Active? then Expand(p, |p.schedule|) else []
  }

  function Ripe(claimed: set<Slot>, now: Time): Bump -> bool {
    (b: Bump) => b.startsAt + b.slot.day * DAY <= now && b.slot !in claimed
  }

  /** Inserts after every bump that starts no later. */
  function InsertByStart(b: Bump, sorted: seq<Bump>): seq<Bump> {
    if sorted == [] || sorted[|sorted| - 1].startsAt <= b.startsAt then sorted + [b]
    else InsertByStart(b, sorted[..|sorted| - 1]) + [sorted[|sorted| - 1]]
  }

  function SortByStart(bumps: seq<Bump>): seq<Bump> {
    if bumps == [] then [] else InsertByStart(bumps[|bumps| - 1], SortByStart(bumps[..|bumps| - 1]))
  }

  function Ready(promotions: seq<AdPromotion>, claimed: set<Slot>, now: Time): seq<Bump> {
    SortByStart(Filter(ExpandAll(promotions), Ripe(claimed, now)))
  }

  /** At most `limit` ready bumps, those of the oldest promotions first. */
  function DueBumps(promotions: seq<AdPromotion>, claimed: set<Slot>, now: Time, limit: nat): seq<Bump> {
    var ready := Ready(promotions, claimed, now);
    if |ready| <= limit then ready else ready[..limit]
  }

  /** What "due" means: an active promotion whose schedule names the day, the day come and not claimed. */
  ghost predicate IsDue(promotions: seq<AdPromotion>, claimed: set<Slot>, now: Time, b: Bump) {
    && b.slot !in claimed && b.startsAt + b.slot.day * DAY <= now
    && exists i :: 0 <= i < |promotions| && ScheduledBy(promotions[i], b)
  }

  ghost predicate ScheduledBy(p: AdPromotion, b: Bump) {
    p.status.Active? && p.id == b.slot.promotion && p.adId == b.ad && p.startsAt == b.startsAt && b.slot.day in p.schedule
  }

  ghost predicate OldestFirst(bumps: seq<Bump>) {
    forall i, j :: 0 <= i < j < |bumps| ==> bumps[i].startsAt <= bumps[j].startsAt
  }

  lemma {:induction false} ExpandMembers(p: AdPromotion, n: nat, b: Bump)
    requires n <= |p.schedule|
    ensures b in Expand(p, n)
       <==> b.slot.promotion == p.id && b.ad == p.adId && b.startsAt == p.startsAt && b.slot.day in p.schedule[..n]
  {
    if n > 0 {
      ExpandMembers(p, n - 1, b);
      assert p.schedule[..n] == p.schedule[..n - 1] + [p.schedule[n - 1]];
    }
  }

  lemma {:induction false} ExpandAllMembers(promotions: seq<AdPromotion>, b: Bump)
    ensures b in ExpandAll(promotions) <==> exists i :: 0 <= i < |promotions| && ScheduledBy(promotions[i], b)
  {
    if promotions != [] {
      var n := |promotions| - 1;
      var init, p := promotions[..n], promotions[n];
      ExpandAllMembers(init, b);
      ExpandMembers(p, |p.schedule|, b);
      assert p.schedule[..|p.schedule|] == p.schedule;
      assert b in ExpandAll(promotions) <==> b in ExpandAll(init) || ScheduledBy(p, b);
      if i :| 0 <= i < n && ScheduledBy(init[i], b) {
        assert ScheduledBy(promotions[i], b);
      }
      if i :| 0 <= i < n && ScheduledBy(promotions[i], b) {
        assert ScheduledBy(init[i], b);
      }
    }
  }

  lemma {:induction false} InsertKeepsAll(b: Bump, sorted: seq<Bump>)
    ensures multiset(InsertByStart(b, sorted)) == multiset(sorted) + multiset{b}
  {
    if sorted != [] && sorted[|sorted| - 1].startsAt > b.startsAt {
      InsertKeepsAll(b, sorted[..|sorted| - 1]);
      assert sorted == sorted[..|sorted| - 1] + [sorted[|sorted| - 1]];
    }
  }

  /** Inserting keeps the order, and everything at or below a bound there. */
  lemma {:induction false} InsertKeepsOrder(b: Bump, sorted: seq<Bump>, bound: Time)
    requires OldestFirst(sorted) && b.startsAt <= bound
    requires forall i :: 0 <= i < |sorted| ==> sorted[i].startsAt <= bound
    ensures OldestFirst(InsertByStart(b, sorted))
    ensures forall i :: 0 <= i < |InsertByStart(b, sorted)| ==> InsertByStart(b, sorted)[i].startsAt <= bound
  {
    if sorted != [] && sorted[|sorted| - 1].startsAt > b.startsAt {
      var n := |sorted| - 1;
      InsertKeepsOrder(b, sorted[..n], sorted[n].startsAt);
    }
  }

  lemma LatestStart(b: Bump, sorted: seq<Bump>) returns (bound: Time)
    requires OldestFirst(sorted)
    ensures b.startsAt <= bound && forall i :: 0 <= i < |sorted| ==> sorted[i].startsAt <= bound
  {
    bound := if sorted == [] || sorted[|sorted| - 1].startsAt <= b.startsAt then b.startsAt else sorted[|sorted| - 1].startsAt;
  }

  lemma {:induction false} SortOrders(bumps: seq<Bump>)
    ensures OldestFirst(SortByStart(bumps))
  {
    if bumps != [] {
      var n := |bumps| - 1;
      SortOrders(bumps[..n]);
      var bound := LatestStart(bumps[n], SortByStart(bumps[..n]));
      InsertKeepsOrder(bumps[n], SortByStart(bumps[..n]), bound);
      hide OldestFirst;
    }
  }

  lemma {:induction false} SortKeepsAll(bumps: seq<Bump>)
    ensures multiset(SortByStart(bumps)) == multiset(bumps)
  {
    if bumps != [] {
      var n := |bumps| - 1;
      SortKeepsAll(bumps[..n]);
      InsertKeepsAll(bumps[n], SortByStart(bumps[..n]));
      assert SortByStart(bumps) == InsertByStart(bumps[n], SortByStart(bumps[..n]));
      hide InsertByStart;
      hide SortByStart;
      assert bumps == bumps[..n] + [bumps[n]];
    }
  }

  lemma ReadyIsDue(promotions: seq<AdPromotion>, claimed: set<Slot>, now: Time)
    ensures OldestFirst(Ready(promotions, claimed, now))
    ensures forall b :: b in Ready(promotions, claimed, now) <==> IsDue(promotions, claimed, now, b)
  {
    var all, ready := ExpandAll(promotions), Ready(promotions, claimed, now);
    var ripe := Filter(all, Ripe(claimed, now));
    SortOrders(ripe);
    SortKeepsAll(ripe);
    FilterMembers(all, Ripe(claimed, now));
    hide SortByStart;
    hide OldestFirst;
    forall b ensures b in ready <==> IsDue(promotions, claimed, now, b) {
      assert b in ready <==> b in multiset(ripe);
      ExpandAllMembers(promotions, b);
    }
  }

  /** A batch holds only due bumps, oldest promotions first; one left out for the limit is of
      no older a promotion than any that got in. */
  lemma BatchIsTheOldestDue(promotions: seq<AdPromotion>, claimed: set<Slot>, now: Time, limit: nat)
    ensures var due := DueBumps(promotions, claimed, now, limit);
            && |due| <= limit && OldestFirst(due)
            && (forall b :: b in due ==> IsDue(promotions, claimed, now, b))
            && (forall b :: IsDue(promotions, claimed, now, b) ==>
                  b in due || (|due| == limit && forall d :: d in due ==> d.startsAt <= b.startsAt))
  {
    var ready, due := Ready(promotions, claimed, now), DueBumps(promotions, claimed, now, limit);
    ReadyIsDue(promotions, claimed, now);
    hide IsDue;
    hide Ready;
    forall b | b in ready && b !in due ensures |due| == limit && forall d :: d in due ==> d.startsAt <= b.startsAt {
      assert forall j :: 0 <= j < |due| ==> due[j] != b && due[j] == ready[j];
      var k :| 0 <= k < |ready| && ready[k] == b;
    }
  }

  ghost predicate DistinctSlots(bumps: seq<Bump>) {
    forall i, j :: 0 <= i < j < |bumps| ==> bumps[i].slot != bumps[j].slot
  }

  /** Rows have ids of their own, and a schedule names each of its days once. */
  ghost predicate ProperSchedules(promotions: seq<AdPromotion>) {
    && (forall i, j :: 0 <= i < j < |promotions| ==> promotions[i].id != promotions[j].id)
    && (forall k :: 0 <= k < |promotions| ==> ProperSchedule(promotions[k].schedule))
  }

  ghost predicate ProperSchedule(days: seq<int>) {
    forall i, j :: 0 <= i < j < |days| ==> days[i] != days[j]
  }

  lemma DistinctSnoc(bumps: seq<Bump>, b: Bump)
    requires DistinctSlots(bumps) && forall x :: x in bumps ==> x.slot != b.slot
    ensures DistinctSlots(bumps + [b])
  {
  }

  lemma {:induction false} ExpandIsDistinct(p: AdPromotion, n: nat)
    requires n <= |p.schedule| && ProperSchedule(p.schedule)
    ensures DistinctSlots(Expand(p, n))
  {
    if n > 0 {
      ExpandIsDistinct(p, n - 1);
      forall x | x in Expand(p, n - 1) ensures x.slot.day != p.schedule[n - 1] {
        ExpandMembers(p, n - 1, x);
      }
      DistinctSnoc(Expand(p, n - 1), Bump(Slot(p.id, p.schedule[n - 1]), p.adId, p.startsAt));
    }
  }

  lemma {:induction false} ExpandAllIsDistinct(promotions: seq<AdPromotion>)
    requires ProperSchedules(promotions)
    ensures DistinctSlots(ExpandAll(promotions))
  {
    if promotions != [] {
      var n := |promotions| - 1;
      var init, p := promotions[..n], promotions[n];
      assert forall k :: 0 <= k < n ==> init[k] == promotions[k];
      assert ProperSchedule(promotions[n].schedule);
      ExpandAllIsDistinct(init);
      ExpandIsDistinct(p, |p.schedule|);
      forall x, y | x in ExpandAll(init) && y in Expand(p, |p.schedule|) ensures x.slot != y.slot {
        ExpandAllMembers(init, x);
        ExpandMembers(p, |p.schedule|, y);
      }
    }
  }

  lemma {:induction false} FilterIsDistinct(bumps: seq<Bump>, keep: Bump -> bool)
    requires DistinctSlots(bumps)
    ensures DistinctSlots(Filter(bumps, keep))
  {
    if bumps != [] {
      var n := |bumps| - 1;
      FilterIsDistinct(bumps[..n], keep);
      FilterMembers(bumps[..n], keep);
      if keep(bumps[n]) {
        forall x | x in bumps[..n] ensures x.slot != bumps[n].slot {}
        DistinctSnoc(Filter(bumps[..n], keep), bumps[n]);
      }
    }
  }

  lemma {:induction false} InsertIsDistinct(b: Bump, sorted: seq<Bump>)
    requires DistinctSlots(sorted) && forall x :: x in sorted ==> x.slot != b.slot
    ensures DistinctSlots(InsertByStart(b, sorted))
  {
    if sorted == [] || sorted[|sorted| - 1].startsAt <= b.startsAt {
      DistinctSnoc(sorted, b);
    } else {
      var n := |sorted| - 1;
      InsertIsDistinct(b, sorted[..n]);
      InsertKeepsAll(b, sorted[..n]);
      forall x | x in InsertByStart(b, sorted[..n]) ensures x.slot != sorted[n].slot {
        assert x in multiset(InsertByStart(b, sorted[..n]));
      }
      DistinctSnoc(InsertByStart(b, sorted[..n]), sorted[n]);
    }
  }

  lemma {:induction false} SortIsDistinct(bumps: seq<Bump>)
    requires DistinctSlots(bumps)
    ensures DistinctSlots(SortByStart(bumps))
  {
    if bumps != [] {
      var n := |bumps| - 1;
      SortIsDistinct(bumps[..n]);
      SortKeepsAll(bumps[..n]);
      forall x | x in SortByStart(bumps[..n]) ensures x.slot != bumps[n].slot {
        assert x in multiset(SortByStart(bumps[..n]));
        assert x in bumps[..n];
      }
      InsertIsDistinct(bumps[n], SortByStart(bumps[..n]));
    }
  }

  /** No day is in a batch twice. */
  lemma BatchNamesDaysOnce(promotions: seq<AdPromotion>, claimed: set<Slot>, now: Time, limit: nat)
    requires ProperSchedules(promotions)
    ensures DistinctSlots(DueBumps(promotions, claimed, now, limit))
  {
    ExpandAllIsDistinct(promotions);
    FilterIsDistinct(ExpandAll(promotions), Ripe(claimed, now));
    SortIsDistinct(Filter(ExpandAll(promotions), Ripe(claimed, now)));
  }

  /* The store and the worker */

  datatype Answer = Bumped | NotActive | Unreachable

  /** How the calls of one step go. */
  datatype Luck = Luck(claimFails: bool, answer: Answer, releaseFails: bool)

  /** The claims after one step of a worker that is alone. */
  function AfterStep(claimed: set<Slot>, slot: Slot, luck: Luck): set<Slot> {
    if luck.claimFails || slot in claimed then claimed
    else if luck.answer == Unreachable && !luck.releaseFails then claimed
    else claimed + {slot}
  }

  predicate StepBumps(claimed: set<Slot>, slot: Slot, luck: Luck) {
    !luck.claimFails && slot !in claimed && luck.answer == Bumped
  }

  /** The worker gets as far as calling the listing service. */
  predicate BeginsCall(claimed: set<Slot>, slot: Slot, luck: Luck) {
    !luck.claimFails && slot !in claimed
  }

  function AfterSteps(claimed: set<Slot>, due: seq<Bump>, luck: nat -> Luck): set<Slot> {
    if due == [] then claimed else
    var n := |due| - 1;
    AfterStep(AfterSteps(claimed, due[..n], luck), due[n].slot, luck(n))
  }

  function BumpCount(claimed: set<Slot>, due: seq<Bump>, luck: nat -> Luck): nat {
    if due == [] then 0 else
    var n := |due| - 1;
    BumpCount(claimed, due[..n], luck)
      + if StepBumps(AfterSteps(claimed, due[..n], luck), due[n].slot, luck(n)) then 1 else 0
  }

  class Bumper {
    var promotions: seq<AdPromotion>
    var claimed: set<Slot>

    constructor (promotions: seq<AdPromotion>)
      ensures this.promotions == promotions && claimed == {}
    {
      this.promotions, claimed := promotions, {};
    }

    method ClaimBump(slot: Slot) returns (claimedNow: bool)
      modifies this`claimed
      ensures claimedNow == (slot !in old(claimed))
      ensures claimed == old(claimed) + {slot}
    {
      claimedNow := slot !in claimed;
      claimed := claimed + {slot};
    }

    method ReleaseBump(slot: Slot)
      modifies this`claimed
      ensures claimed == old(claimed) - {slot}
    {
      claimed := claimed - {slot};
    }

    /** Runs one due bump; true when the ad was really bumped. */
    method RunOne(b: Bump, luck: Luck) returns (bumped: bool)
      modifies this`claimed
      ensures claimed == AfterStep(old(claimed), b.slot, luck)
      ensures bumped == StepBumps(old(claimed), b.slot, luck)
    {
      if luck.claimFails {
        return false;
      }
      var claimedNow := ClaimBump(b.slot);
      if !claimedNow {
        return false;
      }
      if luck.answer == Unreachable {
        if !luck.releaseFails {
          ReleaseBump(b.slot);
        }
        return false;
      }
      bumped := luck.answer == Bumped;
    }

    /** One batch; returns how many ads were bumped. */
    method Sweep(now: Time, batch: nat, luck: nat -> Luck) returns (bumped: nat)
      modifies this`claimed
      ensures var due := DueBumps(promotions, old(claimed), now, batch);
              claimed == AfterSteps(old(claimed), due, luck) && bumped == BumpCount(old(claimed), due, luck)
    {
      var due := DueBumps(promotions, claimed, now, batch);
      bumped := 0;
      for i := 0 to |due|
        invariant claimed == AfterSteps(old(claimed), due[..i], luck)
        invariant bumped == BumpCount(old(claimed), due[..i], luck)
      {
        assert due[..i + 1][..i] == due[..i];
        var ok := RunOne(due[i], luck(i));
        if ok {
          bumped := bumped + 1;
        }
      }
      assert due[..|due|] == due;
    }
  }

  /* Any number of workers */

  datatype Worker =
    | Sweeping(queue: seq<Bump>)
    | Holding(current: Bump, rest: seq<Bump>)
    | Releasing(current: Bump, rest: seq<Bump>)

  datatype Verdict = Done | Skipped | Lost

  /** A claim that nobody will act on again. */
  datatype Closed = Closed(slot: Slot, verdict: Verdict)

  /** `closed` is what workers reported and what they lost, in order; `effects` the bumps that
      Listing really carried out. */
  datatype State = State(
    promotions: seq<AdPromotion>,
    claimed: set<Slot>,
    workers: seq<Worker>,
    closed: seq<Closed>,
    effects: seq<Slot>)

  datatype Action =
    | ChangePromotions(promotions: seq<AdPromotion>)  // anything else that happens to paid services
    | StartSweep(worker: nat, now: Time, limit: nat)
    | NewWorker
    | Claim(worker: nat)
    | ClaimFails(worker: nat)
    | ReportBumped(worker: nat)
    | ReportNotActive(worker: nat)
    | LoseAnswer(worker: nat, bumpedAnyway: bool)  // an error tells nothing about the effect
    | Release(worker: nat)
    | ReleaseFails(worker: nat)
    | Crash(worker: nat)

  predicate Holds(w: Worker) { w.Holding? || w.Releasing? }

  ghost predicate Enabled(s: State, a: Action) {
    match a
    case ChangePromotions(_) => true
    case NewWorker => true
    case StartSweep(w, _, _) => w < |s.workers| && s.workers[w] == Sweeping([])
    case Claim(w) => w < |s.workers| && s.workers[w].Sweeping? && s.workers[w].queue != []
    case ClaimFails(w) => w < |s.workers| && s.workers[w].Sweeping? && s.workers[w].queue != []
    case ReportBumped(w) => w < |s.workers| && s.workers[w].Holding?
    case ReportNotActive(w) => w < |s.workers| && s.workers[w].Holding?
    case LoseAnswer(w, _) => w < |s.workers| && s.workers[w].Holding?
    case Release(w) => w < |s.workers| && s.workers[w].Releasing?
    case ReleaseFails(w) => w < |s.workers| && s.workers[w].Releasing?
    case Crash(w) => w < |s.workers|
  }

  ghost function Apply(s: State, a: Action): State
    requires Enabled(s, a)
  {
    match a
    case ChangePromotions(promotions) => s.(promotions := promotions)
    case NewWorker => s.(workers := s.workers + [Sweeping([])])
    case StartSweep(w, now, limit) =>
      s.(workers := s.workers[w := Sweeping(DueBumps(s.promotions, s.claimed, now, limit))])
    case Claim(w) =>
      var b, rest := s.workers[w].queue[0], s.workers[w].queue[1..];
      if b.slot in s.claimed then s.(workers := s.workers[w := Sweeping(rest)])
      else s.(claimed := s.claimed + {b.slot}, workers := s.workers[w := Holding(b, rest)])
    case ClaimFails(w) => s.(workers := s.workers[w := Sweeping(s.workers[w].queue[1..])])
    case ReportBumped(w) =>
      var slot := s.workers[w].current.slot;
      s.(workers := s.workers[w := Sweeping(s.workers[w].rest)],
         closed := s.closed + [Closed(slot, Done)], effects := s.effects + [slot])
    case ReportNotActive(w) =>
      s.(workers := s.workers[w := Sweeping(s.workers[w].rest)],
         closed := s.closed + [Closed(s.workers[w].current.slot, Skipped)])
    case LoseAnswer(w, bumpedAnyway) =>
      s.(workers := s.workers[w := Releasing(s.workers[w].current, s.workers[w].rest)],
         effects := if bumpedAnyway then s.effects + [s.workers[w].current.slot] else s.effects)
    case Release(w) =>
      s.(claimed := s.claimed - {s.workers[w].current.slot}, workers := s.workers[w := Sweeping(s.workers[w].rest)])
    case ReleaseFails(w) =>
      s.(closed := s.closed + [Closed(s.workers[w].current.slot, Lost)], workers := s.workers[w := Sweeping(s.workers[w].rest)])
    case Crash(w) =>
      s.(closed := if Holds(s.workers[w]) then s.closed + [Closed(s.workers[w].current.slot, Lost)] else s.closed,
         workers := s.workers[w := Sweeping([])])
  }

  const INIT: State := State([], {}, [], [], [])

  ghost predicate Run(states: seq<State>, actions: seq<Action>) {
    && |states| == |actions| + 1
    && states[0] == INIT
    && forall i {:trigger actions[i]} :: 0 <= i < |actions| ==>
         Enabled(states[i], actions[i]) && states[i + 1] == Apply(states[i], actions[i])
  }

  ghost predicate Held(s: State, slot: Slot) {
    exists w :: 0 <= w < |s.workers| && Holds(s.workers[w]) && s.workers[w].current.slot == slot
  }

  ghost predicate OneHolder(s: State) {
    forall v, w :: 0 <= v < w < |s.workers| && Holds(s.workers[v]) && Holds(s.workers[w]) ==>
      s.workers[v].current.slot != s.workers[w].current.slot
  }

  ghost predicate IsClosed(s: State, slot: Slot) {
    exists i :: 0 <= i < |s.closed| && s.closed[i].slot == slot
  }

  /** Every claim is in exactly one place: held by one worker, or closed by one verdict. */
  ghost predicate Inv(s: State) {
    && OneHolder(s)
    && (forall i, j :: 0 <= i < j < |s.closed| ==> s.closed[i].slot != s.closed[j].slot)
    && (forall slot :: IsClosed(s, slot) ==> !Held(s, slot))
    && (forall slot :: slot in s.claimed <==> Held(s, slot) || IsClosed(s, slot))
  }

  lemma HeldAfter(s: State, s': State, w: nat, worker: Worker, slot: Slot)
    requires w < |s.workers| && s'.workers == s.workers[w := worker]
    requires OneHolder(s)
    ensures Held(s', slot) <==>
              (Holds(worker) && worker.current.slot == slot)
              || (Held(s, slot) && !(Holds(s.workers[w]) && s.workers[w].current.slot == slot))
  {
    if v :| 0 <= v < |s.workers| && Holds(s.workers[v]) && s.workers[v].current.slot == slot {
      if v != w {
        assert s'.workers[v] == s.workers[v];
      }
    }
    if Holds(worker) && worker.current.slot == slot {
      assert s'.workers[w] == worker;
    }
    if v :| 0 <= v < |s'.workers| && Holds(s'.workers[v]) && s'.workers[v].current.slot == slot {
      if v != w {
        assert s.workers[v] == s'.workers[v];
      }
    }
  }

  /** A step of worker `w` closes its claim, or leaves the log of verdicts alone. */
  lemma ClosedAfter(s: State, s': State, slot: Slot)
    requires s'.closed == s.closed || (|s'.closed| == |s.closed| + 1 && s.closed <= s'.closed)
    ensures IsClosed(s', slot) <==>
              IsClosed(s, slot) || (|s'.closed| > |s.closed| && s'.closed[|s.closed|].slot == slot)
  {
  }

  lemma StepKeepsInv(s: State, a: Action, s': State)
    requires Inv(s) && Enabled(s, a) && s' == Apply(s, a)
    ensures Inv(s') && s.closed <= s'.closed
  {
    forall slot ensures IsClosed(s', slot) <==>
        IsClosed(s, slot) || (|s'.closed| > |s.closed| && s'.closed[|s.closed|].slot == slot)
    {
      ClosedAfter(s, s', slot);
    }
    if a.ChangePromotions? {
      forall slot ensures Held(s', slot) <==> Held(s, slot) {}
    } else if a.NewWorker? {
      forall slot ensures Held(s', slot) <==> Held(s, slot) {
        if v :| 0 <= v < |s.workers| && Holds(s.workers[v]) && s.workers[v].current.slot == slot {
          assert s'.workers[v] == s.workers[v];
        }
      }
    } else {
      WorkerStep(s, a, s');
    }
  }

  /** What worker `w` holds after a step, and the others go on holding. */
  lemma HoldersAfter(s: State, a: Action, s': State)
    requires Inv(s) && Enabled(s, a) && s' == Apply(s, a)
    requires !a.ChangePromotions? && !a.NewWorker?
    ensures OneHolder(s')
    ensures forall slot :: Held(s', slot) <==>
              (Holds(s'.workers[a.worker]) && s'.workers[a.worker].current.slot == slot)
              || (Held(s, slot) && !(Holds(s.workers[a.worker]) && s.workers[a.worker].current.slot == slot))
  {
    var w := a.worker;
    hide DueBumps;
    forall slot
      ensures Held(s', slot) <==>
                (Holds(s'.workers[w]) && s'.workers[w].current.slot == slot)
                || (Held(s, slot) && !(Holds(s.workers[w]) && s.workers[w].current.slot == slot))
    {
      HeldAfter(s, s', w, s'.workers[w], slot);
    }
    forall v | 0 <= v < |s.workers| && Holds(s.workers[v]) ensures Held(s, s.workers[v].current.slot) {}
    hide Held;
    hide IsClosed;
  }

  lemma WorkerStep(s: State, a: Action, s': State)
    requires Inv(s) && Enabled(s, a) && s' == Apply(s, a)
    requires !a.ChangePromotions? && !a.NewWorker?
    requires forall slot :: IsClosed(s', slot) <==>
        IsClosed(s, slot) || (|s'.closed| > |s.closed| && s'.closed[|s.closed|].slot == slot)
    ensures Inv(s')
  {
    HoldersAfter(s, a, s');
    hide DueBumps;
    hide OneHolder;
    forall i | 0 <= i < |s.closed| ensures IsClosed(s, s.closed[i].slot) {}
    hide IsClosed;
    if Holds(s.workers[a.worker]) {
      assert Held(s, s.workers[a.worker].current.slot);
    }
    hide Held;
  }

  lemma {:induction false} RunKeepsInv(states: seq<State>, actions: seq<Action>, i: nat)
    requires Run(states, actions) && i < |states|
    ensures Inv(states[i])
  {
    if i > 0 {
      RunKeepsInv(states, actions, i - 1);
      StepKeepsInv(states[i - 1], actions[i - 1], states[i]);
    }
  }

  lemma {:induction false} ClosedGrows(states: seq<State>, actions: seq<Action>, i: nat, j: nat)
    requires Run(states, actions) && i <= j < |states|
    ensures states[i].closed <= states[j].closed
  {
    if i < j {
      ClosedGrows(states, actions, i, j - 1);
      RunKeepsInv(states, actions, j - 1);
      StepKeepsInv(states[j - 1], actions[j - 1], states[j]);
    }
  }

  /** Whatever the number of workers and whichever of them crash: a day is claimed by at most
      one of them at a time, and gets at most one verdict, so at most one reported bump. */
  lemma OneVerdictPerDay(states: seq<State>, actions: seq<Action>, i: nat, slot: Slot)
    requires Run(states, actions) && i < |states|
    ensures OneHolder(states[i])
    ensures forall k, m :: 0 <= k < m < |states[i].closed| ==> states[i].closed[k].slot != states[i].closed[m].slot
    ensures slot in states[i].claimed <==> Held(states[i], slot) || IsClosed(states[i], slot)
    ensures IsClosed(states[i], slot) ==> !Held(states[i], slot)
  {
    RunKeepsInv(states, actions, i);
  }

  /** A day with a verdict is never due again and never claimed again, whatever its promotion becomes. */
  lemma NeverDueAgain(states: seq<State>, actions: seq<Action>, i: nat, j: nat, k: nat, now: Time, b: Bump)
    requires Run(states, actions) && i <= j < |states|
    requires k < |states[i].closed| && states[i].closed[k].slot == b.slot
    ensures k < |states[j].closed| && states[j].closed[k] == states[i].closed[k]
    ensures !IsDue(states[j].promotions, states[j].claimed, now, b)
    ensures !Held(states[j], b.slot)
  {
    ClosedGrows(states, actions, i, j);
    RunKeepsInv(states, actions, j);
    assert states[j].closed[k].slot == b.slot;
    assert IsClosed(states[j], b.slot);
  }

  /* A worker that is alone */

  /** The actions of a worker on its next day, as its calls go. An answer that never came tells
      nothing about the bump, so it may have happened `anyway`. */
  function ActionsFor(w: nat, claimed: set<Slot>, slot: Slot, luck: Luck, anyway: bool): seq<Action> {
    if luck.claimFails then [ClaimFails(w)]
    else if slot in claimed then [Claim(w)]
    else
      match luck.answer
      case Bumped => [Claim(w), ReportBumped(w)]
      case NotActive => [Claim(w), ReportNotActive(w)]
      case Unreachable => [Claim(w), LoseAnswer(w, anyway), if luck.releaseFails then ReleaseFails(w) else Release(w)]
  }

  /** The actions lead from one state to the other, each being possible where it is taken. */
  ghost predicate Leads(s: State, actions: seq<Action>, s': State)
    decreases |actions|
  {
    if actions == [] then s' == s
    else Enabled(s, actions[0]) && Leads(Apply(s, actions[0]), actions[1..], s')
  }

  lemma {:induction false} LeadsOn(s: State, first: seq<Action>, mid: State, second: seq<Action>, s': State)
    requires Leads(s, first, mid) && Leads(mid, second, s')
    ensures Leads(s, first + second, s')
    decreases |first|
  {
    hide Apply;
    hide Enabled;
    if first == [] {
      assert first + second == second;
    } else {
      LeadsOn(Apply(s, first[0]), first[1..], mid, second, s');
      assert (first + second)[1..] == first[1..] + second;
    }
  }

  lemma LeadsOne(s: State, a: Action)
    requires Enabled(s, a)
    ensures Leads(s, [a], Apply(s, a))
  {
  }

  lemma LeadsFirst(s: State, a: Action, actions: seq<Action>, s': State)
    requires Enabled(s, a) && Leads(Apply(s, a), actions, s')
    ensures Leads(s, [a] + actions, s')
  {
    assert ([a] + actions)[1..] == actions;
  }

  /** What the machine makes of one day: a day reported, or found inactive, keeps its claim, a
      claim is given up only when no answer came and the release got through, and the ad is
      bumped when the bump was reported or happened unheard. */
  lemma OneDayInTheMachine(s: State, w: nat, b: Bump, rest: seq<Bump>, luck: Luck, anyway: bool) returns (s': State)
    requires w < |s.workers| && s.workers[w] == Sweeping([b] + rest)
    ensures Leads(s, ActionsFor(w, s.claimed, b.slot, luck, anyway), s')
    ensures s'.claimed == AfterStep(s.claimed, b.slot, luck)
    ensures s'.effects == s.effects
              + if StepBumps(s.claimed, b.slot, luck) || (BeginsCall(s.claimed, b.slot, luck) && luck.answer.Unreachable? && anyway)
                then [b.slot] else []
    ensures s'.promotions == s.promotions && s'.workers == s.workers[w := Sweeping(rest)]
  {
    hide DueBumps;
    hide Leads;
    assert ([b] + rest)[1..] == rest;
    if luck.claimFails {
      s' := Apply(s, ClaimFails(w));
      LeadsOne(s, ClaimFails(w));
    } else if b.slot in s.claimed {
      s' := Apply(s, Claim(w));
      LeadsOne(s, Claim(w));
    } else {
      var s1 := Apply(s, Claim(w));
      var answer := match luck.answer
        case Bumped => ReportBumped(w)
        case NotActive => ReportNotActive(w)
        case Unreachable => LoseAnswer(w, anyway);
      var s2 := Apply(s1, answer);
      if luck.answer.Unreachable? {
        var last := if luck.releaseFails then ReleaseFails(w) else Release(w);
        s' := Apply(s2, last);
        LeadsOne(s2, last);
        LeadsFirst(s1, answer, [last], s');
        assert [answer] + [last] == [answer, last];
        LeadsFirst(s, Claim(w), [answer, last], s');
        assert [Claim(w)] + [answer, last] == [Claim(w), answer, last];
      } else {
        s' := s2;
        LeadsOne(s1, answer);
        LeadsFirst(s, Claim(w), [answer], s');
        assert [Claim(w)] + [answer] == [Claim(w), answer];
      }
    }
  }

  lemma {:induction false} DaysInTheMachine(s: State, w: nat, queue: seq<Bump>, n: nat, luck: nat -> Luck)
    returns (actions: seq<Action>, s': State)
    requires w < |s.workers| && s.workers[w] == Sweeping(queue) && n <= |queue|
    ensures Leads(s, actions, s')
    ensures s'.claimed == AfterSteps(s.claimed, queue[..n], luck)
    ensures |s'.effects| == |s.effects| + BumpCount(s.claimed, queue[..n], luck)
    ensures s'.promotions == s.promotions && s'.workers == s.workers[w := Sweeping(queue[n..])]
  {
    hide Leads;
    if n == 0 {
      actions, s' := [], s;
      LeadsNowhere(s);
    } else {
      var before, mid := DaysInTheMachine(s, w, queue, n - 1, luck);
      assert queue[n - 1..] == [queue[n - 1]] + queue[n..] && queue[..n][..n - 1] == queue[..n - 1];
      s' := OneDayInTheMachine(mid, w, queue[n - 1], queue[n..], luck(n - 1), false);
      var last := ActionsFor(w, mid.claimed, queue[n - 1].slot, luck(n - 1), false);
      hide AfterStep;
      hide StepBumps;
      hide ActionsFor;
      actions := before + last;
      LeadsOn(s, before, mid, last, s');
    }
  }

  lemma LeadsNowhere(s: State)
    ensures Leads(s, [], s)
  {
  }

  /** A whole sweep of a worker that is alone is one of the machine's runs: the same batch, the
      same claims after it, and as many ads bumped as it counts. */
  lemma SweepIsARun(s: State, w: nat, now: Time, limit: nat, luck: nat -> Luck) returns (actions: seq<Action>, s': State)
    requires w < |s.workers| && s.workers[w] == Sweeping([])
    ensures Leads(s, [StartSweep(w, now, limit)] + actions, s')
    ensures var due := DueBumps(s.promotions, s.claimed, now, limit);
            && s'.claimed == AfterSteps(s.claimed, due, luck)
            && |s'.effects| == |s.effects| + BumpCount(s.claimed, due, luck)
    ensures s'.promotions == s.promotions && s'.workers == s.workers
  {
    hide Leads;
    hide DueBumps;
    hide AfterSteps;
    hide BumpCount;
    var due := DueBumps(s.promotions, s.claimed, now, limit);
    var s1 := Apply(s, StartSweep(w, now, limit));
    actions, s' := DaysInTheMachine(s1, w, due, |due|, luck);
    assert due[..|due|] == due && due[|due|..] == [];
    LeadsFirst(s, StartSweep(w, now, limit), actions, s');
  }

  /* Real bumps, and days that are done with */

  function Reported(s: State, slot: Slot): nat {
    if Closed(slot, Done) in s.closed then 1 else 0
  }

  /** An error came back although Listing had bumped the day's ad. */
  ghost predicate BumpedUnheard(s: State, a: Action, slot: Slot) {
    && a.LoseAnswer? && a.bumpedAnyway && a.worker < |s.workers|
    && s.workers[a.worker].Holding? && s.workers[a.worker].current.slot == slot
  }

  /** How many of the first `i` actions lost the answer to a bump of the day. */
  ghost function Unheard(states: seq<State>, actions: seq<Action>, i: nat, slot: Slot): nat
    requires i <= |actions| && i < |states|
  {
    if i == 0 then 0
    else Unheard(states, actions, i - 1, slot) + if BumpedUnheard(states[i - 1], actions[i - 1], slot) then 1 else 0
  }

  /** A step adds a real bump of the day exactly when it reports one or loses the answer to one. */
  lemma StepCountsBumps(s: State, a: Action, s': State, slot: Slot)
    requires Inv(s) && Enabled(s, a) && s' == Apply(s, a)
    ensures multiset(s'.effects)[slot] - multiset(s.effects)[slot]
         == Reported(s', slot) - Reported(s, slot) + if BumpedUnheard(s, a, slot) then 1 else 0
  {
    hide DueBumps;
    if a.ReportBumped? {
      assert Held(s, s.workers[a.worker].current.slot);
      assert forall k :: 0 <= k < |s.closed| ==> IsClosed(s, s.closed[k].slot);
    }
  }

  /** In every run, the real bumps of a day are the one reported, if it is, and those whose
      answers were lost. So a day is bumped at most once exactly while at most one of these
      happened, and if no answer to a bump was lost, exactly when it was reported. */
  lemma {:induction false} RealBumpsCounted(states: seq<State>, actions: seq<Action>, i: nat, slot: Slot)
    requires Run(states, actions) && i < |states|
    ensures multiset(states[i].effects)[slot] == Reported(states[i], slot) + Unheard(states, actions, i, slot)
    ensures multiset(states[i].effects)[slot] <= 1 <==>
              Unheard(states, actions, i, slot) <= if Closed(slot, Done) in states[i].closed then 0 else 1
    ensures Unheard(states, actions, i, slot) == 0 ==>
              multiset(states[i].effects)[slot] == if Closed(slot, Done) in states[i].closed then 1 else 0
  {
    if i > 0 {
      RealBumpsCounted(states, actions, i - 1, slot);
      RunKeepsInv(states, actions, i - 1);
      StepCountsBumps(states[i - 1], actions[i - 1], states[i], slot);
    }
  }

  /** A day that a worker reported, as bumped or as an inactive ad's, stays claimed in every
      later state and is never due again. */
  lemma ReportedDaysAreDone(states: seq<State>, actions: seq<Action>, i: nat, j: nat, now: Time, b: Bump)
    requires Run(states, actions) && i < j < |states|
    requires actions[i].ReportBumped? || actions[i].ReportNotActive?
    requires states[i].workers[actions[i].worker].current.slot == b.slot
    ensures b.slot in states[j].claimed && !IsDue(states[j].promotions, states[j].claimed, now, b)
  {
    var k := |states[i].closed|;
    assert Enabled(states[i], actions[i]) && states[i + 1] == Apply(states[i], actions[i]);
    NeverDueAgain(states, actions, i + 1, j, k, now, b);
    ClosedGrows(states, actions, i + 1, j);
    RunKeepsInv(states, actions, j);
    assert IsClosed(states[j], states[j].closed[k].slot);
  }

  /* What is reported once may have happened twice. */

  const PAID: AdPromotion := AdPromotion(5, 7, 1, "BUMP", None, Active, 100, 0, None, [0], None)
  const FIRST: Bump := Bump(Slot(5, 0), 7, 0)
  const ACTIONS: seq<Action> := [
    ChangePromotions([PAID]), NewWorker,
    StartSweep(0, 0, 10), Claim(0), LoseAnswer(0, true), Release(0),
    StartSweep(0, 0, 10), Claim(0), ReportBumped(0)]

  /** The one worker between sweeps, after the given verdicts and effects. */
  function Between(claimed: set<Slot>, closed: seq<Closed>, effects: seq<Slot>): State {
    State([PAID], claimed, [Sweeping([])], closed, effects)
  }

  /** An answer lost on the way frees the day although the ad was bumped: one bump is
      reported, two are carried out. */
  lemma LostAnswerBumpsTwice() returns (states: seq<State>)
    ensures Run(states, ACTIONS)
    ensures states[9].closed == [Closed(FIRST.slot, Done)] && states[9].effects == [FIRST.slot, FIRST.slot]
  {
    hide Apply;
    hide Enabled;
    var s1 := BuyBump();
    var s3, s4 := SweepAndClaim([]);
    var s5 := LoseAndRelease(s4);
    var s7, s8 := SweepAndClaim([FIRST.slot]);
    Report(s8);
    states := [INIT, s1, Between({}, [], []), s3, s4, s5, Between({}, [], [FIRST.slot]), s7, s8,
               Between({FIRST.slot}, [Closed(FIRST.slot, Done)], [FIRST.slot, FIRST.slot])];
  }

  lemma BuyBump() returns (s1: State)
    ensures Enabled(INIT, ACTIONS[0]) && s1 == Apply(INIT, ACTIONS[0])
    ensures Enabled(s1, ACTIONS[1]) && Apply(s1, ACTIONS[1]) == Between({}, [], [])
  {
    s1 := Apply(INIT, ACTIONS[0]);
  }

  lemma SweepAndClaim(effects: seq<Slot>) returns (s1: State, s2: State)
    ensures var s0 := Between({}, [], effects);
            && Enabled(s0, ACTIONS[2]) && s1 == Apply(s0, ACTIONS[2])
            && Enabled(s1, ACTIONS[3]) && s2 == Apply(s1, ACTIONS[3])
    ensures s2 == State([PAID], {FIRST.slot}, [Holding(FIRST, [])], [], effects)
  {
    OneDue();
    hide DueBumps;
    s1 := Apply(Between({}, [], effects), ACTIONS[2]);
    assert s1.workers[0].queue == [FIRST] && [FIRST][1..] == [];
    s2 := Apply(s1, ACTIONS[3]);
  }

  lemma LoseAndRelease(s: State) returns (s1: State)
    requires s == State([PAID], {FIRST.slot}, [Holding(FIRST, [])], [], [])
    ensures Enabled(s, ACTIONS[4]) && s1 == Apply(s, ACTIONS[4])
    ensures Enabled(s1, ACTIONS[5]) && Apply(s1, ACTIONS[5]) == Between({}, [], [FIRST.slot])
  {
    s1 := Apply(s, ACTIONS[4]);
  }

  lemma Report(s: State)
    requires s == State([PAID], {FIRST.slot}, [Holding(FIRST, [])], [], [FIRST.slot])
    ensures Enabled(s, ACTIONS[8])
    ensures Apply(s, ACTIONS[8]) == Between({FIRST.slot}, [Closed(FIRST.slot, Done)], [FIRST.slot, FIRST.slot])
  {
  }

  lemma OneDue()
    ensures DueBumps([PAID], {}, 0, 10) == [FIRST]
  {
    ExpandsToOne();
    FilterSnoc([], FIRST, Ripe({}, 0));
    assert [] + [FIRST] == [FIRST];
    SortsOne(FIRST);
  }

  lemma ExpandsToOne()
    ensures ExpandAll([PAID]) == [FIRST]
  {
  }

  lemma SortsOne(b: Bump)
    ensures SortByStart([b]) == [b]
  {
  }
}
