/**
 The search index: the document an ad is projected to, the synchronisation of one ad and
 the full reindex by pages (services/search/internal/indexer/indexer.go,
 services/listing/internal/repo/ad.go:430-459, services/listing/internal/transport/export.go).
 */
module SearchIndex {
  import opened Clock
  import opened Collections
  import opened Listing

  datatype Doc = Doc(
    id: AdId,
    title: string,
    description: string,
    categoryId: string,
    regionId: int,
    cityId: Option<int>,
    price: int,
    currency: string,
    status: Status,
    attrs: map<string, string>,
    createdAt: int,
    bumpedAt: Option<int>,
    isTop: bool,
    promotionRank: int,
    promoEndsAt: Option<int>,
    location: Option<(real, real)>)

  function AttrMap(values: seq<AttributeValue>): map<string, string> {
    if values == [] then map[]
    else AttrMap(values[..|values| - 1])[values[|values| - 1].slug := values[|values| - 1].value]
  }

  function UnixOf(t: Option<Time>): Option<int> {
    if t.Some? then Some(Unix(t.value)) else None
  }

  function BuildDoc(id: AdId, a: Ad): Doc {
    Doc(id, a.title, a.description, a.categoryId, a.regionId, a.cityId, a.price, a.currency, a.status,
        AttrMap(a.attributes), Unix(a.createdAt), UnixOf(a.bumpedAt), a.isTop, a.promotionRank, UnixOf(a.promoEndsAt),
        if a.lat.Some? && a.lng.Some? then Some((a.lat.value, a.lng.value)) else None)
  }

  /** A whole number of seconds that an instant falls in. */
  ghost predicate SecondOf(t: Time, seconds: int) {
    seconds * SECOND <= t < (seconds + 1) * SECOND
  }

  ghost predicate SecondOfOption(t: Option<Time>, seconds: Option<int>) {
    (t.Some? <==> seconds.Some?) && (t.Some? ==> SecondOf(t.value, seconds.value))
  }

  /** Of several values of one attribute the last one counts. */
  ghost predicate LastValue(values: seq<AttributeValue>, i: nat) {
    i < |values| && forall j :: i < j < |values| ==> values[j].slug != values[i].slug
  }

  /** The document shows the ad: each column under its own name, instants in whole seconds, the
      attributes the ad has, and its place if both coordinates are known. */
  ghost predicate Shows(d: Doc, id: AdId, a: Ad) {
    && d.id == id && d.title == a.title && d.description == a.description
    && d.categoryId == a.categoryId && d.regionId == a.regionId && d.cityId == a.cityId
    && d.price == a.price && d.currency == a.currency && d.status == a.status
    && d.isTop == a.isTop && d.promotionRank == a.promotionRank
    && SecondOf(a.createdAt, d.createdAt) && SecondOfOption(a.bumpedAt, d.bumpedAt) && SecondOfOption(a.promoEndsAt, d.promoEndsAt)
    && (d.location.Some? <==> a.lat.Some? && a.lng.Some?)
    && (d.location.Some? ==> a.lat == Some(d.location.value.0) && a.lng == Some(d.location.value.1))
    && ShowsAttributes(d.attrs, a.attributes)
  }

  ghost predicate HasSlug(values: seq<AttributeValue>, slug: string) {
    exists i :: 0 <= i < |values| && values[i].slug == slug
  }

  ghost predicate ShowsAttributes(attrs: map<string, string>, values: seq<AttributeValue>) {
    && (forall slug :: slug in attrs <==> HasSlug(values, slug))
    && forall i: nat :: LastValue(values, i) ==> values[i].slug in attrs && attrs[values[i].slug] == values[i].value
  }

  lemma {:induction false} AttrMapKeys(values: seq<AttributeValue>, slug: string)
    ensures slug in AttrMap(values) <==> HasSlug(values, slug)
  {
    if values != [] {
      var n := |values| - 1;
      AttrMapKeys(values[..n], slug);
      assert values == values[..n] + [values[n]];
      assert HasSlug(values, slug) <==> HasSlug(values[..n], slug) || values[n].slug == slug;
    }
  }

  lemma {:induction false} AttrMapValue(values: seq<AttributeValue>, i: nat)
    requires LastValue(values, i)
    ensures values[i].slug in AttrMap(values) && AttrMap(values)[values[i].slug] == values[i].value
  {
    var n := |values| - 1;
    if i < n {
      assert values[..n][i] == values[i] && values[n].slug != values[i].slug;
      AttrMapValue(values[..n], i);
    }
  }

  lemma AttrMapShows(values: seq<AttributeValue>)
    ensures ShowsAttributes(AttrMap(values), values)
  {
    forall slug ensures slug in AttrMap(values) <==> HasSlug(values, slug) {
      AttrMapKeys(values, slug);
    }
    forall i: nat | LastValue(values, i)
      ensures values[i].slug in AttrMap(values) && AttrMap(values)[values[i].slug] == values[i].value
    {
      AttrMapValue(values, i);
    }
    hide AttrMap;
    hide HasSlug;
  }

  lemma BuildDocShows(id: AdId, a: Ad)
    ensures Shows(BuildDoc(id, a), id, a)
  {
    AttrMapShows(a.attributes);
    hide AttrMap;
    hide ShowsAttributes;
  }

  function Lookup<V>(m: map<AdId, V>, id: AdId): Option<V> {
    if id in m then Some(m[id]) else None
  }

  /** What the index should hold of an ad: its document while it is active, nothing otherwise. */
  function DocOf(id: AdId, found: Option<Ad>): Option<Doc> {
    if found.Some? && found.value.status == Active then Some(BuildDoc(id, found.value)) else None
  }

  function Truth(ads: map<AdId, Ad>): map<AdId, Doc> {
    map id | id in ads && ads[id].status == Active :: BuildDoc(id, ads[id])
  }

  /* Announcements */

  /** The ad a write is about. */
  function Target(w: Write): Option<AdId> {
    match w
    case MarkProcessed(_) => None
    case AddViews(_) => None
    case _ => Some(w.id)
  }

  /** The event a write carries is about the ad it writes. */
  predicate Aimed(w: Write) {
    Target(w).Some? ==> w.ev.adId == w.id
  }

  /** What the index can see of an ad: its document and, read apart, its attributes. */
  function Visible(ads: map<AdId, Ad>, id: AdId): (Option<Doc>, seq<AttributeValue>, bool) {
    (DocOf(id, Lookup(ads, id)), if id in ads then ads[id].attributes else [], id in ads)
  }

  /** No write changes what the index can see of an ad without an event about that ad. */
  lemma ChangesAreAnnounced(db: Db, w: Write, id: AdId)
    requires Aimed(w) && Perform(db, w).Ok?
    ensures var db' := Perform(db, w).value;
            && (db'.outbox == db.outbox || (|db'.outbox| == |db.outbox| + 1 && db.outbox <= db'.outbox))
            && (Visible(db.ads, id) != Visible(db'.ads, id) ==> db'.outbox != db.outbox && db'.outbox[|db.outbox|].adId == id)
  {
    hide BuildDoc;
    if w.AddViews? && id in db.ads {
      ViewsAreInvisible(db.ads, w.counts, id);
    }
  }

  lemma ViewsAreInvisible(ads: map<AdId, Ad>, counts: map<AdId, int>, id: AdId)
    requires id in ads
    ensures Visible(Viewed(ads, counts), id) == Visible(ads, id)
  {
  }

  /* The source's pages */

  datatype Row = Row(id: AdId, ad: Ad)

  /** The table in the order of its primary key. */
  ghost predicate Ascending(rows: seq<Row>) {
    forall i, j :: 0 <= i < j < |rows| ==> rows[i].id < rows[j].id
  }

  const MAX_PAGE_LIMIT: nat := 100
  const DEFAULT_PAGE_LIMIT: nat := 20
  const PAGE_SIZE: nat := 100

  function ClampLimit(limit: int): (n: nat)
    ensures 0 < n <= MAX_PAGE_LIMIT
    ensures n == if limit <= 0 then 20 else if limit <= 100 then limit else 100
  {
    if limit <= 0 then DEFAULT_PAGE_LIMIT else if limit > MAX_PAGE_LIMIT then MAX_PAGE_LIMIT else limit
  }

  function ActiveAfter(after: Option<AdId>): Row -> bool {
    (r: Row) => r.ad.status == Active && (after.None? || r.id > after.value)
  }

  function ActiveRows(rows: seq<Row>): seq<Row> {
    Filter(rows, ActiveAfter(None))
  }

  /** One page of active ads past the cursor, and the cursor past the page. */
  method ListActive(rows: seq<Row>, after: Option<AdId>, limit: int) returns (page: seq<Row>, next: Option<AdId>)
    ensures var rest := Filter(rows, ActiveAfter(after));
            && page == rest[..if |rest| < ClampLimit(limit) then |rest| else ClampLimit(limit)]
            && next == if page == [] then None else Some(page[|page| - 1].id)
  {
    var rest := Filter(rows, ActiveAfter(after));
    page := if |rest| < ClampLimit(limit) then rest else rest[..ClampLimit(limit)];
    next := if page == [] then None else Some(page[|page| - 1].id);
  }

  /** Moving the cursor to a row of the active list leaves exactly the rows behind it. */
  lemma {:induction false} CursorSkips(rows: seq<Row>, k: nat)
    requires Ascending(rows) && k < |ActiveRows(rows)|
    ensures Filter(rows, ActiveAfter(Some(ActiveRows(rows)[k].id))) == ActiveRows(rows)[k + 1..]
  {
    var n := |rows| - 1;
    var init, last := rows[..n], rows[n];
    var cursor := ActiveRows(rows)[k].id;
    FilterMembers(init, ActiveAfter(None));
    if k < |ActiveRows(init)| {
      CursorSkips(init, k);
      assert ActiveRows(rows)[k] == ActiveRows(init)[k];
      assert ActiveRows(init)[k] in init;
    } else {
      assert ActiveRows(rows)[k] == last;
      forall i | 0 <= i < |init| ensures !ActiveAfter(Some(cursor))(init[i]) {}
      FilterNone(init, ActiveAfter(Some(cursor)));
    }
  }

  /* The index */

  function Upserted(index: map<AdId, Doc>, rows: seq<Row>): map<AdId, Doc> {
    if rows == [] then index else
    var r := rows[|rows| - 1];
    Upserted(index, rows[..|rows| - 1])[r.id := BuildDoc(r.id, r.ad)]
  }

  function Ids(rows: seq<Row>): seq<AdId> {
    Map(rows, (r: Row) => r.id)
  }

  class Indexer {
    var index: map<AdId, Doc>
    var upserts: seq<AdId>  // every upsert sent, in order

    constructor ()
      ensures index == map[] && upserts == []
    {
      index, upserts := map[], [];
    }

    method UpsertDocument(doc: Doc)
      modifies this
      ensures index == old(index)[doc.id := doc] && upserts == old(upserts) + [doc.id]
    {
      index := index[doc.id := doc];
      upserts := upserts + [doc.id];
    }

    method DeleteDocument(id: AdId)
      modifies this`index
      ensures index == old(index) - {id}
    {
      index := index - {id};
    }

    /** Brings one ad's document to the state just read. */
    method Sync(id: AdId, found: Option<Ad>)
      modifies this
      ensures Lookup(index, id) == DocOf(id, found)
      ensures id in index <==> found.Some? && found.value.status == Active
      ensures id in index ==> Shows(index[id], id, found.value)
      ensures forall other :: other != id ==> Lookup(index, other) == Lookup(old(index), other)
    {
      if found.None? || found.value.status != Active {
        DeleteDocument(id);
        return;
      }
      BuildDocShows(id, found.value);
      hide Shows;
      UpsertDocument(BuildDoc(id, found.value));
    }

    /** Upserts a page; `fails(k)` says that the k-th document of the whole reindex cannot be built
        or is refused. */
    method UpsertPage(page: seq<Row>, total: nat, fails: nat -> bool) returns (n: nat, ok: bool)
      modifies this
      ensures n <= |page| && (ok <==> n == |page|) && (!ok ==> fails(total + n))
      ensures upserts == old(upserts) + Ids(page[..n])
      ensures index == Upserted(old(index), page[..n])
    {
      for i := 0 to |page|
        invariant upserts == old(upserts) + Ids(page[..i])
        invariant index == Upserted(old(index), page[..i])
      {
        if fails(total + i) {
          return i, false;
        }
        UpsertDocument(BuildDoc(page[i].id, page[i].ad));
        assert page[..i + 1][..i] == page[..i];
        assert Ids(page[..i + 1]) == Ids(page[..i]) + [page[i].id];
      }
      return |page|, true;
    }

    /** Upserts every active ad of an unchanging table, page by page, each exactly once and in
        order; a failing document ends the reindex, and so does a page that cannot be read,
        `unreadable(k)` being about the page after the first k ads. */
    method Reindex(rows: seq<Row>, fails: nat -> bool, unreadable: nat -> bool) returns (total: nat, ok: bool)
      requires Ascending(rows)
      modifies this
      ensures total <= |ActiveRows(rows)|
      ensures upserts == old(upserts) + Ids(ActiveRows(rows)[..total])
      ensures index == Upserted(old(index), ActiveRows(rows)[..total])
      ensures ok ==> total == |ActiveRows(rows)|
      ensures !ok ==> unreadable(total) || (total < |ActiveRows(rows)| && fails(total))
    {
      StartOf(rows, index);
      hide ActiveRows;
      hide Upserted;
      hide Ids;
      ghost var active := ActiveRows(rows);
      var after: Option<AdId> := None;
      total, ok := 0, true;
      while true
        invariant ok && total <= |active|
        invariant after == if total == 0 then None else Some(active[total - 1].id)
        invariant upserts == old(upserts) + Ids(active[..total])
        invariant index == Upserted(old(index), active[..total])
        decreases |active| - total
      {
        if unreadable(total) {
          return total, false;
        }
        PageFollows(rows, total);
        var page, next := ListActive(rows, after, PAGE_SIZE);
        assert page <= active[total..];
        var n, pageOk := UpsertPage(page, total, fails);
        Appended(active, total, page[..n], old(index));
        assert upserts == old(upserts) + (Ids(active[..total]) + Ids(page[..n]));
        total := total + n;
        if !pageOk {
          return total, false;
        }
        assert page[..n] == page;
        if next.None? || |page| == 0 {
          break;
        }
        after := next;
      }
      assert active[..|active|] == active;
    }
  }

  lemma StartOf(rows: seq<Row>, index: map<AdId, Doc>)
    ensures Ids(ActiveRows(rows)[..0]) == []
    ensures Upserted(index, ActiveRows(rows)[..0]) == index
  {
  }

  /** Past the first `total` active ads, the rest of them are left. */
  lemma PageFollows(rows: seq<Row>, total: nat)
    requires Ascending(rows) && total <= |ActiveRows(rows)|
    ensures var after := if total == 0 then None else Some(ActiveRows(rows)[total - 1].id);
            Filter(rows, ActiveAfter(after)) == ActiveRows(rows)[total..]
  {
    if total > 0 {
      CursorSkips(rows, total - 1);
    }
  }

  lemma Appended(active: seq<Row>, total: nat, part: seq<Row>, index: map<AdId, Doc>)
    requires total <= |active| && part <= active[total..]
    ensures Ids(active[..total]) + Ids(part) == Ids(active[..total + |part|])
    ensures Upserted(Upserted(index, active[..total]), part) == Upserted(index, active[..total + |part|])
  {
    assert active[..total] + part == active[..total + |part|];
    UpsertedConcat(index, active[..total], part);
  }

  lemma {:induction false} UpsertedConcat(index: map<AdId, Doc>, s: seq<Row>, t: seq<Row>)
    ensures Upserted(Upserted(index, s), t) == Upserted(index, s + t)
  {
    if t == [] {
      assert s + t == s;
    } else {
      assert (s + t)[..|s + t| - 1] == s + t[..|t| - 1];
      UpsertedConcat(index, s, t[..|t| - 1]);
    }
  }

  /** The rows of a table as a table of ads. */
  function Table(rows: seq<Row>): (ads: map<AdId, Ad>)
  {
    if rows == [] then map[] else Table(rows[..|rows| - 1])[rows[|rows| - 1].id := rows[|rows| - 1].ad]
  }

  lemma {:induction false} TableRows(rows: seq<Row>, id: AdId)
    requires Ascending(rows)
    ensures id in Table(rows) <==> exists i :: 0 <= i < |rows| && rows[i].id == id
    ensures forall i :: 0 <= i < |rows| && rows[i].id == id ==> Table(rows)[id] == rows[i].ad
  {
    if rows != [] {
      TableRows(rows[..|rows| - 1], id);
      assert forall i :: 0 <= i < |rows| - 1 ==> rows[..|rows| - 1][i] == rows[i];
    }
  }

  lemma UpsertedSnoc(index: map<AdId, Doc>, rows: seq<Row>, r: Row)
    ensures Upserted(index, rows + [r]) == Upserted(index, rows)[r.id := BuildDoc(r.id, r.ad)]
  {
  }

  /** The entry the index should have of an ad after an upsert of every active row. */
  function Refreshed(index: map<AdId, Doc>, ads: map<AdId, Ad>, id: AdId): Option<Doc> {
    if id in ads && ads[id].status == Active then Some(BuildDoc(id, ads[id])) else Lookup(index, id)
  }

  lemma RefreshedOneMore(index: map<AdId, Doc>, after: map<AdId, Doc>, ads: map<AdId, Ad>, r: Row, id: AdId)
    requires Lookup(after, id) == Refreshed(index, ads, id)
    requires r.id == id ==> id !in ads
    ensures Lookup(if r.ad.status == Active then after[r.id := BuildDoc(r.id, r.ad)] else after, id)
         == Refreshed(index, ads[r.id := r.ad], id)
  {
  }

  lemma {:induction false} UpsertedRows(index: map<AdId, Doc>, rows: seq<Row>, id: AdId)
    requires Ascending(rows)
    ensures Lookup(Upserted(index, ActiveRows(rows)), id) == Refreshed(index, Table(rows), id)
  {
    if rows != [] {
      var n := |rows| - 1;
      var init, r := rows[..n], rows[n];
      UpsertedRows(index, init, id);
      TableRows(init, id);
      RefreshedOneMore(index, Upserted(index, ActiveRows(init)), Table(init), r, id);
      UpsertedSnoc(index, ActiveRows(init), r);
      FilterSnoc(init, r, ActiveAfter(None));
      assert init + [r] == rows;
      assert ActiveRows(init) + [] == ActiveRows(init);
      hide Refreshed;
      hide Lookup;
      hide Upserted;
    }
  }

  lemma {:induction false} FilterAscends(rows: seq<Row>, keep: Row -> bool)
    requires Ascending(rows)
    ensures Ascending(Filter(rows, keep))
  {
    if rows != [] {
      var n := |rows| - 1;
      FilterAscends(rows[..n], keep);
      FilterMembers(rows[..n], keep);
      var kept := Filter(rows[..n], keep);
      forall i | 0 <= i < |kept| ensures kept[i].id < rows[n].id {
        assert kept[i] in rows[..n];
      }
    }
  }

  /** The ids a full reindex upserts are those of the active ads, each once, in order. */
  lemma EachActiveAdOnce(rows: seq<Row>)
    requires Ascending(rows)
    ensures var ids := Ids(ActiveRows(rows));
            && (forall i, j :: 0 <= i < j < |ids| ==> ids[i] < ids[j])
            && (forall id :: id in ids <==> id in Table(rows) && Table(rows)[id].status == Active)
  {
    FilterAscends(rows, ActiveAfter(None));
    FilterMembers(rows, ActiveAfter(None));
    var active, ids := ActiveRows(rows), Ids(ActiveRows(rows));
    assert forall r :: r in active <==> r in rows && r.ad.status == Active;
    hide ActiveRows;
    hide Filter;
    forall id ensures id in ids <==> id in Table(rows) && Table(rows)[id].status == Active {
      TableRows(rows, id);
      hide Table;
      if id in ids {
        var k :| 0 <= k < |ids| && ids[k] == id;
        assert active[k] in rows;
      }
      if id in Table(rows) && Table(rows)[id].status == Active {
        var i :| 0 <= i < |rows| && rows[i].id == id;
        assert rows[i] in active;
        var k :| 0 <= k < |active| && active[k] == rows[i];
        assert ids[k] == id;
      }
    }
  }

  /** After a full reindex, the entry of every active ad shows it. */
  lemma ReindexedShows(index: map<AdId, Doc>, rows: seq<Row>, r: Row)
    requires Ascending(rows) && r in rows && r.ad.status == Active
    ensures var after := Upserted(index, ActiveRows(rows)); r.id in after && Shows(after[r.id], r.id, r.ad)
  {
    UpsertedRows(index, rows, r.id);
    TableRows(rows, r.id);
    BuildDocShows(r.id, r.ad);
    var i :| 0 <= i < |rows| && rows[i] == r;
    hide BuildDoc;
    hide Shows;
    hide Upserted;
  }

  /** A reindex adds and refreshes but never removes: it reaches the truth exactly when every
      document indexed before belonged to an ad still active. */
  lemma ReindexReachesTruthIff(index: map<AdId, Doc>, rows: seq<Row>)
    requires Ascending(rows)
    ensures Upserted(index, ActiveRows(rows)) == Truth(Table(rows))
       <==> forall id :: id in index ==> id in Table(rows) && Table(rows)[id].status == Active
  {
    var after, truth := Upserted(index, ActiveRows(rows)), Truth(Table(rows));
    forall id ensures Lookup(after, id) == if id in truth then Some(truth[id]) else Lookup(index, id) {
      UpsertedRows(index, rows, id);
    }
    forall id | id in after ensures Lookup(after, id) == Some(after[id]) {}
    if forall id :: id in index ==> id in truth {
      forall id ensures Lookup(after, id) == Lookup(truth, id) {
        assert Lookup(after, id) == if id in truth then Some(truth[id]) else Lookup(index, id);
      }
      SameEntries(after, truth);
    } else {
      var id :| id in index && id !in truth;
      assert Lookup(after, id) == Some(index[id]);
    }
  }

  lemma SameEntries(m: map<AdId, Doc>, n: map<AdId, Doc>)
    requires forall id :: Lookup(m, id) == Lookup(n, id)
    ensures m == n
  {
    forall id | id in m ensures id in n && n[id] == m[id] {
      assert Lookup(m, id) == Lookup(n, id);
    }
    forall id | id in n ensures id in m {
      assert Lookup(m, id) == Lookup(n, id);
    }
  }
}
