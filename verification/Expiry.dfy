/**
 The sweeps that expire ads and take down paid promotions whose time is over
 (services/listing/internal/worker/expiry.go, services/listing/internal/repo/ad.go:152-199 and 254-302).
 */
module Expiry {
  import opened Clock
  import opened Collections
  import opened Listing
  import opened ListingService

  datatype Kind = Ads | Promotions

  /** A sweep's reason to touch an ad. */
  predicate Due(kind: Kind, a: Ad, now: Time) {
    match kind
    case Ads => ExpiryDue(a, now)
    case Promotions => PromoOver(a, now)
  }

  /** The instant that made it due. */
  function Deadline(kind: Kind, a: Ad): Option<Time> {
    match kind
    case Ads => a.expiresAt
    case Promotions => a.promoEndsAt
  }

  function Swept(kind: Kind, a: Ad): Ad {
    match kind
    case Ads => a.(status := Expired)
    case Promotions => a.(isTop := false, promotionRank := 0, promoEndsAt := None)
  }

  function Report(kind: Kind, id: AdId, a: Ad): AdEvent {
    match kind
    case Ads => NewAdEvent(AdExpired, id, a.(status := Expired))
    case Promotions => NewAdEvent(AdUpdated, id, a)
  }

  /** What the sweep's query returns: due ads, each once, longest overdue first; all of them
      when the limit is not reached. */
  ghost predicate DueBatch(kind: Kind, ads: map<AdId, Ad>, now: Time, limit: nat, batch: seq<AdId>) {
    && |batch| <= limit
    && (forall i :: 0 <= i < |batch| ==> batch[i] in ads && Due(kind, ads[batch[i]], now))
    && (forall i, j :: 0 <= i < j < |batch| ==> batch[i] != batch[j])
    && (forall i, j :: 0 <= i < j < |batch| ==> Deadline(kind, ads[batch[i]]).value <= Deadline(kind, ads[batch[j]]).value)
    && (forall id :: id in ads && Due(kind, ads[id], now) && id !in batch ==>
          |batch| == limit && forall i :: 0 <= i < |batch| ==> Deadline(kind, ads[batch[i]]).value <= Deadline(kind, ads[id]).value)
  }

  /** The ad is in the batch and its write went through; `fails(k)` says that the k-th did not. */
  predicate Reached(batch: seq<AdId>, id: AdId, fails: nat -> bool) {
    exists k | 0 <= k < |batch| :: batch[k] == id && !fails(k)
  }

  /** The ads after a batch. */
  function After(kind: Kind, ads: map<AdId, Ad>, batch: seq<AdId>, fails: nat -> bool): map<AdId, Ad> {
    map id | id in ads ::
      if Reached(batch, id, fails) then Swept(kind, ads[id]) else ads[id]
  }

  function News(kind: Kind, ads: map<AdId, Ad>, batch: seq<AdId>, fails: nat -> bool): seq<AdEvent>
    requires forall i :: 0 <= i < |batch| ==> batch[i] in ads
  {
    if batch == [] then [] else
    var n := |batch| - 1;
    News(kind, ads, batch[..n], fails) + if fails(n) then [] else [Report(kind, batch[n], ads[batch[n]])]
  }

  class Expirer {
    const repo: AdRepo
    const batchSize: nat

    constructor (repo: AdRepo, batchSize: nat)
      ensures this.repo == repo && this.batchSize == batchSize
    {
      this.repo, this.batchSize := repo, batchSize;
    }

    /** One ad of a batch, listed as `a`; the write checks the deadline again, by its own clock. */
    method SweepOne(kind: Kind, id: AdId, a: Ad, clock: Time, fails: bool) returns (done: bool)
      modifies repo
      ensures done == (!fails && id in old(repo.ads) && Due(kind, old(repo.ads)[id], clock))
      ensures repo.ads == if done then old(repo.ads)[id := Swept(kind, old(repo.ads)[id])] else old(repo.ads)
      ensures repo.outbox == old(repo.outbox) + if done then [Report(kind, id, a)] else []
      ensures repo.processed == old(repo.processed)
    {
      if fails {
        return false;
      }
      match kind
      case Ads => done := repo.ExpireWithEvent(id, clock, NewAdEvent(AdExpired, id, a.(status := Expired)));
      case Promotions => done := repo.ClearPromotionWithEvent(id, clock, NewAdEvent(AdUpdated, id, a));
    }

    /** One sweep alone, with the clock not going back: exactly the listed ads are swept, each
        with its event, in order, but for those whose write failed. */
    method Sweep(kind: Kind, now: Time, batch: seq<AdId>, clock: nat -> Time, fails: nat -> bool) returns (swept: nat)
      requires DueBatch(kind, repo.ads, now, batchSize, batch)
      requires forall k :: now <= clock(k)
      modifies repo
      ensures repo.ads == After(kind, old(repo.ads), batch, fails)
      ensures repo.outbox == old(repo.outbox) + News(kind, old(repo.ads), batch, fails)
      ensures swept == |News(kind, old(repo.ads), batch, fails)|
      ensures repo.processed == old(repo.processed)
    {
      ghost var listed := repo.ads;
      var rows := seq(|batch|, i requires 0 <= i < |batch| && batch[i] in repo.ads reads repo => repo.ads[batch[i]]);
      swept := 0;
      NothingSwept(kind, listed, fails);
      hide After;
      hide News;
      assert batch[..0] == [];
      for k := 0 to |batch|
        invariant repo.ads == After(kind, listed, batch[..k], fails)
        invariant repo.outbox == old(repo.outbox) + News(kind, listed, batch[..k], fails)
        invariant swept == |News(kind, listed, batch[..k], fails)|
        invariant repo.processed == old(repo.processed)
      {
        NotYetSwept(kind, listed, batch, k, fails);
        var done := SweepOne(kind, batch[k], rows[k], clock(k), fails(k));
        OneMoreSwept(kind, listed, batch, k, fails);
        if done {
          swept := swept + 1;
        }
      }
      assert batch[..|batch|] == batch;
    }
  }

  lemma NothingSwept(kind: Kind, ads: map<AdId, Ad>, fails: nat -> bool)
    ensures After(kind, ads, [], fails) == ads && News(kind, ads, [], fails) == []
  {
  }

  lemma NotYetSwept(kind: Kind, ads: map<AdId, Ad>, batch: seq<AdId>, k: nat, fails: nat -> bool)
    requires k < |batch| && batch[k] in ads
    requires forall i, j :: 0 <= i < j < |batch| ==> batch[i] != batch[j]
    ensures batch[k] in After(kind, ads, batch[..k], fails)
    ensures After(kind, ads, batch[..k], fails)[batch[k]] == ads[batch[k]]
  {
  }

  lemma OneMoreSwept(kind: Kind, ads: map<AdId, Ad>, batch: seq<AdId>, k: nat, fails: nat -> bool)
    requires k < |batch| && forall i :: 0 <= i < |batch| ==> batch[i] in ads
    requires forall i, j :: 0 <= i < j < |batch| ==> batch[i] != batch[j]
    ensures News(kind, ads, batch[..k + 1], fails)
         == News(kind, ads, batch[..k], fails) + if fails(k) then [] else [Report(kind, batch[k], ads[batch[k]])]
    ensures After(kind, ads, batch[..k + 1], fails)
         == if fails(k) then After(kind, ads, batch[..k], fails)
            else After(kind, ads, batch[..k], fails)[batch[k] := Swept(kind, ads[batch[k]])]
  {
    var before, after := batch[..k], batch[..k + 1];
    assert after == before + [batch[k]] && after[..k] == before;
    forall id ensures Reached(after, id, fails) <==> Reached(before, id, fails) || (id == batch[k] && !fails(k)) {
      ReachedOneMore(before, batch[k], id, fails);
    }
    hide Reached;
    hide Swept;
  }

  lemma ReachedOneMore(before: seq<AdId>, next: AdId, id: AdId, fails: nat -> bool)
    ensures Reached(before + [next], id, fails) <==> Reached(before, id, fails) || (id == next && !fails(|before|))
  {
  }

  /** A sweep that was not cut short and had no failing write leaves nothing that was due at its start. */
  lemma SweepFinishes(kind: Kind, ads: map<AdId, Ad>, now: Time, limit: nat, batch: seq<AdId>, fails: nat -> bool)
    requires DueBatch(kind, ads, now, limit, batch) && |batch| < limit
    requires forall k :: 0 <= k < |batch| ==> !fails(k)
    ensures forall id :: id in ads ==> !Due(kind, After(kind, ads, batch, fails)[id], now)
  {
    forall id | id in ads ensures !Due(kind, After(kind, ads, batch, fails)[id], now) {
      if id in batch {
        var k :| 0 <= k < |batch| && batch[k] == id;
        assert !fails(k);
      }
    }
  }
}
