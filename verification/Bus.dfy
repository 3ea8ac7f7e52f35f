/**
 The transactional outbox, its relays and the stream they feed
 (pkg/shared/outbox/relay.go:94-173), and what a consumer's answer does to a message
 (pkg/shared/natsx/natsx.go:107-159). An event is known by its position in the outbox.
 */
module Bus {
  import opened Collections

  /* One pass of a relay */

  /** A row of the outbox; a payload that does not parse has no event. */
  datatype Row<+E> = Row(id: nat, event: Option<E>, published: bool)

  /** What the broker did with one message, and whether the relay heard of it. */
  datatype Reply = Accepted | AcceptedUnheard | Refused

  predicate Stores(reply: Reply) { reply != Refused }

  /** The first `batch` unpublished rows that no other relay has locked. */
  function Pick<E>(rows: seq<Row<E>>, locked: set<nat>, batch: nat): seq<Row<E>> {
    if rows == [] then [] else
    var n := |rows| - 1;
    var picked := Pick(rows[..n], locked, batch);
    if |picked| < batch && !rows[n].published && rows[n].id !in locked then picked + [rows[n]] else picked
  }

  /** Ids of the messages heard to be stored. */
  function Heard<E>(msgs: seq<Row<E>>, replies: nat -> Reply): seq<nat> {
    if msgs == [] then [] else
    var n := |msgs| - 1;
    Heard(msgs[..n], replies) + if msgs[n].event.Some? && replies(n) == Accepted then [msgs[n].id] else []
  }

  function Stored<E>(msgs: seq<Row<E>>, replies: nat -> Reply): seq<E> {
    if msgs == [] then [] else
    var n := |msgs| - 1;
    Stored(msgs[..n], replies) + if msgs[n].event.Some? && Stores(replies(n)) then [msgs[n].event.value] else []
  }

  function Mark<E>(ids: seq<nat>): Row<E> -> Row<E> {
    (r: Row<E>) => if r.id in ids then r.(published := true) else r
  }

  class Relay<E(==)> {
    var rows: seq<Row<E>>
    var stream: seq<E>

    constructor (rows: seq<Row<E>>)
      ensures this.rows == rows && stream == []
    {
      this.rows, stream := rows, [];
    }

    method PublishBatch(msgs: seq<Row<E>>, replies: nat -> Reply) returns (published: seq<nat>)
      modifies this`stream
      ensures published == Heard(msgs, replies)
      ensures stream == old(stream) + Stored(msgs, replies)
    {
      published := [];
      for i := 0 to |msgs|
        invariant published == Heard(msgs[..i], replies)
        invariant stream == old(stream) + Stored(msgs[..i], replies)
      {
        assert msgs[..i + 1][..i] == msgs[..i];
        if msgs[i].event.None? {
          continue;
        }
        if Stores(replies(i)) {
          stream := stream + [msgs[i].event.value];
        }
        if replies(i) != Accepted {
          continue;
        }
        published := published + [msgs[i].id];
      }
      assert msgs[..|msgs|] == msgs;
    }

    /** One pass. Marking and committing can fail as one: then no row is marked, although
        messages are already out. */
    method RunOnce(locked: set<nat>, batch: nat, replies: nat -> Reply, commits: bool) returns (n: Option<nat>)
      modifies this
      ensures var msgs := Pick(old(rows), locked, batch);
              && stream == old(stream) + Stored(msgs, replies)
              && rows == (if commits then Map(old(rows), Mark(Heard(msgs, replies))) else old(rows))
              && n == if commits then Some(|Heard(msgs, replies)|) else None
    {
      var msgs := Pick(rows, locked, batch);
      if |msgs| == 0 {
        assert rows == Map(rows, Mark(Heard(msgs, replies)));
        return if commits then Some(0) else None;
      }
      var published := PublishBatch(msgs, replies);
      if !commits {
        return None;
      }
      rows := Map(rows, Mark(published));
      n := Some(|published|);
    }
  }

  ghost predicate UniqueIds<E>(rows: seq<Row<E>>) {
    forall i, j :: 0 <= i < j < |rows| ==> rows[i].id != rows[j].id
  }

  lemma {:induction false} PickedRows<E>(rows: seq<Row<E>>, locked: set<nat>, batch: nat, r: Row<E>)
    ensures |Pick(rows, locked, batch)| <= batch
    ensures r in Pick(rows, locked, batch) ==> r in rows && !r.published && r.id !in locked
    ensures r in rows && !r.published && r.id !in locked && |Pick(rows, locked, batch)| < batch
        ==> r in Pick(rows, locked, batch)
  {
    if rows != [] {
      PickedRows(rows[..|rows| - 1], locked, batch, r);
      assert rows == rows[..|rows| - 1] + [rows[|rows| - 1]];
    }
  }

  function Free<E>(locked: set<nat>): Row<E> -> bool {
    (r: Row<E>) => !r.published && r.id !in locked
  }

  /** The rows picked are the first ones of the table that are neither published nor locked, in
      the order of the table, as many as there are up to the limit. */
  lemma {:induction false} PickedInOrder<E>(rows: seq<Row<E>>, locked: set<nat>, batch: nat)
    ensures var free := Filter(rows, Free(locked));
            Pick(rows, locked, batch) == if |free| <= batch then free else free[..batch]
  {
    if rows != [] {
      PickedInOrder(rows[..|rows| - 1], locked, batch);
    }
  }

  ghost predicate HeardAt<E>(msgs: seq<Row<E>>, replies: nat -> Reply, id: nat, i: nat) {
    i < |msgs| && msgs[i].id == id && msgs[i].event.Some? && replies(i) == Accepted
  }

  lemma {:induction false} HeardIsAccepted<E>(msgs: seq<Row<E>>, replies: nat -> Reply, id: nat)
    ensures id in Heard(msgs, replies) <==> exists i: nat :: HeardAt(msgs, replies, id, i)
  {
    if msgs != [] {
      var n: nat := |msgs| - 1;
      var init := msgs[..n];
      HeardIsAccepted(init, replies, id);
      assert id in Heard(msgs, replies) <==> id in Heard(init, replies) || HeardAt(msgs, replies, id, n);
      forall i: nat ensures HeardAt(msgs, replies, id, i) <==> HeardAt(init, replies, id, i) || (i == n && HeardAt(msgs, replies, id, n)) {}
      hide Heard;
      hide HeardAt;
    }
  }

  lemma {:induction false} AcceptedIsStored<E>(msgs: seq<Row<E>>, replies: nat -> Reply, i: nat)
    requires i < |msgs| && msgs[i].event.Some? && Stores(replies(i))
    ensures msgs[i].event.value in Stored(msgs, replies)
  {
    var n := |msgs| - 1;
    if i < n {
      AcceptedIsStored(msgs[..n], replies, i);
    }
  }

  /** The `i`-th message carries this event, and the broker stores it, heard of or not. */
  ghost predicate StoredAt<E>(msgs: seq<Row<E>>, replies: nat -> Reply, e: E, i: nat) {
    i < |msgs| && msgs[i].event == Some(e) && (replies(i) == Accepted || replies(i) == AcceptedUnheard)
  }

  /** A pass puts an event in the stream exactly when the broker stores its message. */
  lemma {:induction false} StreamGets<E>(msgs: seq<Row<E>>, replies: nat -> Reply, e: E)
    ensures e in Stored(msgs, replies) <==> exists i: nat :: StoredAt(msgs, replies, e, i)
  {
    if msgs != [] {
      var n: nat := |msgs| - 1;
      var init := msgs[..n];
      StreamGets(init, replies, e);
      assert e in Stored(msgs, replies) <==> e in Stored(init, replies) || StoredAt(msgs, replies, e, n);
      forall i: nat ensures StoredAt(msgs, replies, e, i) <==> StoredAt(init, replies, e, i) || (i == n && StoredAt(msgs, replies, e, n)) {}
      hide Stored;
      hide StoredAt;
    }
  }

  /** A pass marks a row exactly when the broker was heard to store its event, and leaves
      nothing else different; a row whose event is out but unmarked will be published again. */
  lemma MarkedExactlyWhenHeard<E>(rows: seq<Row<E>>, locked: set<nat>, batch: nat, replies: nat -> Reply, k: nat)
    requires UniqueIds(rows) && k < |rows| && !rows[k].published
    ensures var msgs := Pick(rows, locked, batch);
            var after := Map(rows, Mark(Heard(msgs, replies)));
            && (after[k].published <==>
                  exists i: nat :: i < |msgs| && msgs[i] == rows[k] && HeardAt(msgs, replies, rows[k].id, i))
            && (after[k].published ==> rows[k].event.value in Stored(msgs, replies))
            && after[k] == rows[k].(published := after[k].published)
  {
    var msgs := Pick(rows, locked, batch);
    HeardIsAccepted(msgs, replies, rows[k].id);
    forall i | 0 <= i < |msgs| && msgs[i].id == rows[k].id ensures msgs[i] == rows[k] {
      PickedRows(rows, locked, batch, msgs[i]);
      var j :| 0 <= j < |rows| && rows[j] == msgs[i];
    }
    if i: nat :| HeardAt(msgs, replies, rows[k].id, i) {
      AcceptedIsStored(msgs, replies, i);
    }
  }

  /* What a consumer's answer does to a message */

  datatype Fate = Unanswered | Acked | Dead

  /** The last attempt: give the message up rather than ask for it again. */
  predicate DecideAck(delivered: nat, maxDeliver: int) {
    maxDeliver > 0 && delivered >= maxDeliver
  }

  function FateAfter(parsed: bool, handled: bool, delivered: Option<nat>, maxDeliver: int): Fate {
    if !parsed then Dead
    else if handled then Acked
    else if DecideAck(if delivered.Some? then delivered.value else 1, maxDeliver) then Dead
    else Unanswered
  }

  /** Where a message stands after its first `n` attempts, when the k-th of them went `outcomes(k)`. */
  function FateOf(outcomes: nat -> bool, n: nat, maxDeliver: int): Fate {
    if n == 0 then Unanswered
    else if FateOf(outcomes, n - 1, maxDeliver) != Unanswered then FateOf(outcomes, n - 1, maxDeliver)
    else FateAfter(true, outcomes(n), Some(n), maxDeliver)
  }

  /** The whole life of a message: it is acknowledged by the first attempt that handles it, given
      up once the last attempt allowed has failed, and offered again until then. Without a limit it is
      offered again until it is handled. One that does not parse is given up at once, and an
      attempt of unknown number counts as the first. */
  lemma {:induction false} LifeOfAMessage(outcomes: nat -> bool, n: nat, maxDeliver: int)
    ensures FateOf(outcomes, n, maxDeliver) == Acked <==>
              exists k :: 1 <= k <= n && outcomes(k) && (maxDeliver > 0 ==> k <= maxDeliver)
    ensures FateOf(outcomes, n, maxDeliver) == Dead <==>
              0 < maxDeliver <= n && forall k :: 1 <= k <= maxDeliver ==> !outcomes(k)
    ensures forall handled, delivered :: FateAfter(false, handled, delivered, maxDeliver) == Dead
    ensures forall handled :: FateAfter(true, handled, None, maxDeliver) == FateAfter(true, handled, Some(1), maxDeliver)
  {
    if n > 0 {
      LifeOfAMessage(outcomes, n - 1, maxDeliver);
    }
  }

  const BACKOFF: seq<int> := [1, 5, 15]

  function BackoffSchedule(maxDeliver: int): seq<int> {
    if 0 < maxDeliver < |BACKOFF| then BACKOFF[..maxDeliver] else BACKOFF
  }

  /** JetStream accepts no more pauses than deliveries: the pauses are one, five and fifteen
      seconds, and of these the first ones as far as deliveries go. */
  lemma BackoffFits(maxDeliver: int)
    ensures var pauses := BackoffSchedule(maxDeliver);
            && |pauses| == (if maxDeliver <= 0 || maxDeliver > 3 then 3 else maxDeliver)
            && pauses[0] == 1 && (|pauses| > 1 ==> pauses[1] == 5) && (|pauses| > 2 ==> pauses[2] == 15)
  {
  }
}
