/**
 Any number of relays over one outbox, and the copies of its events that a durable
 consumer is handed: at least once, in any order, again after a crash
 (pkg/shared/outbox/relay.go:56-151, pkg/shared/natsx/natsx.go:81-148).
 */
module BusRuns {
  import opened Collections
  import opened Bus

  /** A relay inside its transaction: the rows it locked, how far it got, what it heard stored. */
  datatype RelayState = Idle | Passing(picked: seq<nat>, next: nat, heard: seq<nat>)

  /** A message of the stream, as the consumer sees it. */
  datatype Copy = Copy(event: nat, fate: Fate, delivered: nat)

  /** `published[e]` is the mark on the e-th event of the outbox. */
  datatype BusState = BusState(published: seq<bool>, relays: seq<RelayState>, copies: seq<Copy>)

  const EMPTY_BUS: BusState := BusState([], [], [])

  datatype RelayAction =
    | StartRelay
    | Begin(relay: nat, batch: nat)
    | Publish(relay: nat, reply: Reply, deduplicated: bool)
    | Commit(relay: nat)
    | Rollback(relay: nat)  // an error or a crash: the marks and the locks are gone, the messages are not

  /** The rows that some relay's transaction holds. */
  ghost predicate Locked(b: BusState, e: nat) {
    exists k :: 0 <= k < |b.relays| && b.relays[k].Passing? && e in b.relays[k].picked
  }

  /** The first `batch` open rows among the first `n`, skipping locked ones. */
  ghost function PickOpen(b: BusState, n: nat, batch: nat): (picked: seq<nat>)
    requires n <= |b.published|
    ensures |picked| <= batch
    ensures forall e :: e in picked ==> e < n && !b.published[e] && !Locked(b, e)
  {
    if n == 0 then [] else
    var picked := PickOpen(b, n - 1, batch);
    if |picked| < batch && !b.published[n - 1] && !Locked(b, n - 1) then picked + [n - 1] else picked
  }

  /** A relay takes the rows in the order they were written, and leaves an open row that nobody
      holds for later only when its batch is full of earlier ones. */
  lemma {:induction false} OldestRowsFirst(b: BusState, n: nat, batch: nat, e: nat)
    requires n <= |b.published|
    ensures var picked := PickOpen(b, n, batch);
            && (forall i, j :: 0 <= i < j < |picked| ==> picked[i] < picked[j])
            && (e < n && !b.published[e] && !Locked(b, e) && e !in picked ==>
                  |picked| == batch && forall i :: 0 <= i < |picked| ==> picked[i] < e)
  {
    if n > 0 {
      OldestRowsFirst(b, n - 1, batch, e);
      var before, picked := PickOpen(b, n - 1, batch), PickOpen(b, n, batch);
      assert forall i :: 0 <= i < |before| ==> before[i] in before && picked[i] == before[i];
      if e in before {
        var i :| 0 <= i < |before| && before[i] == e;
        assert picked[i] == e;
      }
      if |picked| > |before| {
        assert picked[|before|] == n - 1;
      }
    }
  }

  ghost predicate InStream(b: BusState, e: nat) {
    exists c :: 0 <= c < |b.copies| && b.copies[c].event == e
  }

  ghost predicate RelayEnabled(b: BusState, a: RelayAction) {
    match a
    case StartRelay => true
    case Begin(k, _) => k < |b.relays| && b.relays[k].Idle?
    case Publish(k, reply, deduplicated) =>
      // the broker may drop a message only as a duplicate of one it has
      k < |b.relays| && b.relays[k].Passing? && b.relays[k].next < |b.relays[k].picked|
      && (deduplicated ==> InStream(b, b.relays[k].picked[b.relays[k].next]))
    case Commit(k) => k < |b.relays| && b.relays[k].Passing? && b.relays[k].next == |b.relays[k].picked|
    case Rollback(k) => k < |b.relays|
  }

  ghost function RelayStep(b: BusState, a: RelayAction): BusState
    requires RelayEnabled(b, a)
  {
    match a
    case StartRelay => b.(relays := b.relays + [Idle])
    case Begin(k, batch) => b.(relays := b.relays[k := Passing(PickOpen(b, |b.published|, batch), 0, [])])
    case Publish(k, reply, deduplicated) =>
      var r := b.relays[k];
      var e := r.picked[r.next];
      b.(relays := b.relays[k := Passing(r.picked, r.next + 1, if reply == Accepted then r.heard + [e] else r.heard)],
         copies := if Stores(reply) && !deduplicated then b.copies + [Copy(e, Unanswered, 0)] else b.copies)
    case Commit(k) =>
      var r := b.relays[k];
      b.(published := seq(|b.published|, e requires 0 <= e < |b.published| => b.published[e] || e in r.heard),
         relays := b.relays[k := Idle])
    case Rollback(k) => b.(relays := b.relays[k := Idle])
  }

  /** A business transaction adds `n` events to the outbox. */
  function Enqueue(b: BusState, n: nat): BusState {
    b.(published := b.published + seq(n, _ => false))
  }

  /** A delivery may be made while the message is pending and its deliveries are not used up. */
  predicate CanDeliver(b: BusState, c: nat, maxDeliver: int) {
    c < |b.copies| && b.copies[c].fate == Unanswered && (maxDeliver <= 0 || b.copies[c].delivered < maxDeliver)
  }

  function Deliver(b: BusState, c: nat): BusState
    requires c < |b.copies|
  {
    b.(copies := b.copies[c := b.copies[c].(delivered := b.copies[c].delivered + 1)])
  }

  /** The consumer's answer to one attempt; a message already settled keeps its fate. */
  function Answer(b: BusState, c: nat, handled: bool, attempt: nat, maxDeliver: int): BusState
    requires c < |b.copies|
  {
    if b.copies[c].fate != Unanswered then b
    else b.(copies := b.copies[c := b.copies[c].(fate := FateAfter(true, handled, Some(attempt), maxDeliver))])
  }

  /** Handled to the end at least once. */
  ghost predicate Settled(b: BusState, e: nat) {
    exists c :: 0 <= c < |b.copies| && b.copies[c].event == e && b.copies[c].fate == Acked
  }

  ghost predicate BusInv(b: BusState) {
    && (forall c :: 0 <= c < |b.copies| ==> b.copies[c].event < |b.published|)
    && (forall e :: 0 <= e < |b.published| && b.published[e] ==> InStream(b, e))
    && (forall k :: 0 <= k < |b.relays| && b.relays[k].Passing? ==> RelayInv(b, b.relays[k]))
    && (forall j, k :: 0 <= j < k < |b.relays| && b.relays[j].Passing? && b.relays[k].Passing? ==>
          forall e :: e in b.relays[j].picked ==> e !in b.relays[k].picked)
  }

  ghost predicate RelayInv(b: BusState, r: RelayState)
    requires r.Passing?
  {
    && r.next <= |r.picked|
    && (forall e :: e in r.picked ==> e < |b.published| && !b.published[e])
    && (forall e :: e in r.heard ==> e in r.picked && InStream(b, e))
  }

  /** What is in the stream stays in it, and marks stay. */
  ghost predicate StreamGrows(b: BusState, b': BusState) {
    && |b.published| <= |b'.published|
    && |b.copies| <= |b'.copies|
    && (forall c :: 0 <= c < |b.copies| ==> b'.copies[c].event == b.copies[c].event)
    && (forall e :: 0 <= e < |b.published| && b.published[e] ==> b'.published[e])
  }

  lemma InStreamGrows(b: BusState, b': BusState, e: nat)
    requires StreamGrows(b, b') && InStream(b, e)
    ensures InStream(b', e)
  {
  }

  lemma PublishKeepsBus(b: BusState, a: RelayAction, b': BusState)
    requires BusInv(b) && a.Publish? && RelayEnabled(b, a) && b' == RelayStep(b, a)
    ensures BusInv(b') && StreamGrows(b, b')
  {
    var r := b.relays[a.relay];
    var e := r.picked[r.next];
    assert RelayInv(b, r) && e in r.picked;
    forall x | InStream(b, x) ensures InStream(b', x) {
      InStreamGrows(b, b', x);
    }
    if a.reply == Accepted {
      assert InStream(b', e) by {
        if !a.deduplicated {
          assert b'.copies[|b.copies|].event == e;
        }
      }
    }
    forall k | 0 <= k < |b'.relays| && b'.relays[k].Passing? ensures RelayInv(b', b'.relays[k]) {
      assert k != a.relay ==> RelayInv(b, b.relays[k]);
    }
  }

  lemma CommitKeepsBus(b: BusState, a: RelayAction, b': BusState)
    requires BusInv(b) && a.Commit? && RelayEnabled(b, a) && b' == RelayStep(b, a)
    ensures BusInv(b') && StreamGrows(b, b')
  {
    assert RelayInv(b, b.relays[a.relay]);
    forall x | InStream(b, x) ensures InStream(b', x) {
      InStreamGrows(b, b', x);
    }
    forall k | 0 <= k < |b'.relays| && b'.relays[k].Passing? ensures RelayInv(b', b'.relays[k]) {
      assert RelayInv(b, b.relays[k]);
      var j := if k < a.relay then k else a.relay;
      var m := if k < a.relay then a.relay else k;
      assert forall e :: e in b.relays[j].picked ==> e !in b.relays[m].picked;
    }
  }

  lemma BeginKeepsBus(b: BusState, a: RelayAction, b': BusState)
    requires BusInv(b) && a.Begin? && RelayEnabled(b, a) && b' == RelayStep(b, a)
    ensures BusInv(b') && StreamGrows(b, b')
  {
  }

  /** No relay step breaks the outbox: a marked event is in the stream, and no two relays hold one row. */
  lemma RelayStepKeepsBus(b: BusState, a: RelayAction, b': BusState)
    requires BusInv(b) && RelayEnabled(b, a) && b' == RelayStep(b, a)
    ensures BusInv(b') && StreamGrows(b, b')
  {
    if a.Publish? {
      PublishKeepsBus(b, a, b');
    } else if a.Commit? {
      CommitKeepsBus(b, a, b');
    } else if a.Begin? {
      BeginKeepsBus(b, a, b');
    } else {
      forall x | InStream(b, x) ensures InStream(b', x) {
        InStreamGrows(b, b', x);
      }
      forall k | 0 <= k < |b'.relays| && b'.relays[k].Passing? ensures RelayInv(b', b'.relays[k]) {
        assert RelayInv(b, b.relays[k]);
      }
    }
  }

  /** Enqueuing, delivering and answering leave the outbox and the stream as they are. */
  lemma OtherStepsKeepBus(b: BusState, b': BusState)
    requires BusInv(b) && b'.relays == b.relays && |b'.copies| == |b.copies|
    requires forall c :: 0 <= c < |b.copies| ==> b'.copies[c].event == b.copies[c].event
    requires |b.published| <= |b'.published|
    requires forall e :: 0 <= e < |b'.published| ==> b'.published[e] == (e < |b.published| && b.published[e])
    ensures BusInv(b') && StreamGrows(b, b')
  {
  }

  /** Nothing left to do: every event marked, and every message acknowledged rather than given up. */
  ghost predicate Drained(b: BusState) {
    && (forall e :: 0 <= e < |b.published| ==> b.published[e])
    && (forall c :: 0 <= c < |b.copies| ==> b.copies[c].fate == Acked)
  }

  lemma DrainedIsSettled(b: BusState, e: nat)
    requires BusInv(b) && Drained(b) && e < |b.published|
    ensures Settled(b, e)
  {
    assert InStream(b, e);
  }
}
