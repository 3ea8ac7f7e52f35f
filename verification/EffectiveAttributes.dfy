/**
 The attributes that apply to a category: its own and its ancestors', each once, taken from
 where it is linked highest (services/catalog/internal/repo/attribute.go:99-142).
 */
module EffectiveAttributes {
  import opened Categories

  type AttributeId = nat

  /** An attribute linked to a category. */
  datatype Link = Link(category: CategoryId, attribute: AttributeId, sortOrder: int)

  /** A row of the query: the link and the level of the category it hangs on. */
  datatype Row = Row(attribute: AttributeId, sortOrder: int, source: CategoryId, level: nat)

  datatype Effective = Effective(attribute: AttributeId, sortOrder: int, source: CategoryId, inherited: bool)

  function RowOf(cats: Table, l: Link): Row
    requires l.category in cats
  {
    Row(l.attribute, l.sortOrder, l.category, cats[l.category].level)
  }

  /** The links of the categories whose path the query matches. */
  ghost predicate Joined(cats: Table, links: set<Link>, id: CategoryId, l: Link)
    requires id in cats
  {
    l in links && l.category in cats && PathMatches(cats[id].path, cats[l.category].path)
  }

  /** What the query returns: exactly the joined links, by level and then by sort order. */
  ghost predicate QueryResult(cats: Table, links: set<Link>, id: CategoryId, rows: seq<Row>)
    requires id in cats
  {
    && (forall l :: Joined(cats, links, id, l) ==> RowOf(cats, l) in rows)
    && (forall i :: 0 <= i < |rows| ==>
          exists l :: Joined(cats, links, id, l) && RowOf(cats, l) == rows[i])
    && forall i, j :: 0 <= i < j < |rows| ==>
         rows[i].level < rows[j].level || (rows[i].level == rows[j].level && rows[i].sortOrder <= rows[j].sortOrder)
  }

  /** Keeps the first row of each attribute. */
  function FirstOfEach(rows: seq<Row>, id: CategoryId): seq<Effective> {
    if rows == [] then [] else
    var r := rows[|rows| - 1];
    var out := FirstOfEach(rows[..|rows| - 1], id);
    if exists k | 0 <= k < |out| :: out[k].attribute == r.attribute then out
    else out + [Effective(r.attribute, r.sortOrder, r.source, r.source != id)]
  }

  /** The loop over the query's rows, with the set of attributes seen. */
  method Collect(rows: seq<Row>, id: CategoryId) returns (out: seq<Effective>)
    ensures out == FirstOfEach(rows, id)
  {
    out := [];
    var seen: set<AttributeId> := {};
    for i := 0 to |rows|
      invariant out == FirstOfEach(rows[..i], id)
      invariant forall a :: a in seen <==> exists k :: 0 <= k < |out| && out[k].attribute == a
    {
      var r := rows[i];
      assert rows[..i + 1][..i] == rows[..i];
      if r.attribute in seen {
        continue;
      }
      seen := seen + {r.attribute};
      ghost var before := out;
      out := out + [Effective(r.attribute, r.sortOrder, r.source, r.source != id)];
      forall a ensures a in seen <==> exists k :: 0 <= k < |out| && out[k].attribute == a {
        if k :| 0 <= k < |before| && before[k].attribute == a {
          assert out[k].attribute == a;
        }
        assert out[|before|].attribute == r.attribute;
      }
    }
    assert rows[..|rows|] == rows;
  }

  ghost predicate Lists(out: seq<Effective>, a: AttributeId) {
    exists k :: 0 <= k < |out| && out[k].attribute == a
  }

  ghost predicate Mentions(rows: seq<Row>, a: AttributeId) {
    exists i :: 0 <= i < |rows| && rows[i].attribute == a
  }

  /** The attributes of the rows are listed, each once. */
  lemma {:induction false} EachListedOnce(rows: seq<Row>, id: CategoryId)
    ensures forall j, k :: 0 <= j < k < |FirstOfEach(rows, id)| ==>
              FirstOfEach(rows, id)[j].attribute != FirstOfEach(rows, id)[k].attribute
    ensures forall a :: Lists(FirstOfEach(rows, id), a) <==> Mentions(rows, a)
  {
    if rows != [] {
      var n := |rows| - 1;
      var init, r := rows[..n], rows[n];
      var before, out := FirstOfEach(init, id), FirstOfEach(rows, id);
      EachListedOnce(init, id);
      var e := Effective(r.attribute, r.sortOrder, r.source, r.source != id);
      assert out == if Lists(before, r.attribute) then before else before + [e];
      assert Lists(out, r.attribute) by {
        if !Lists(before, r.attribute) {
          assert out[|before|].attribute == r.attribute;
        }
      }
      hide FirstOfEach;
      forall a ensures Lists(out, a) <==> Mentions(rows, a) {
        if k :| 0 <= k < |before| && before[k].attribute == a {
          assert out[k].attribute == a;
        }
        if i :| 0 <= i < n && init[i].attribute == a {
          assert rows[i].attribute == a;
        }
        if i :| 0 <= i < n && rows[i].attribute == a {
          assert init[i].attribute == a;
        }
        assert Mentions(rows, a) <==> Mentions(init, a) || r.attribute == a;
        assert Lists(out, a) <==> Lists(before, a) || r.attribute == a;
      }
    }
  }

  /** The entry repeats the `i`-th row, and no earlier row has its attribute. */
  ghost predicate TakenFrom(rows: seq<Row>, id: CategoryId, e: Effective, i: nat) {
    && i < |rows| && e == Effective(rows[i].attribute, rows[i].sortOrder, rows[i].source, rows[i].source != id)
    && forall j :: 0 <= j < i ==> rows[j].attribute != e.attribute
  }

  lemma {:induction false} TakenFromFirst(rows: seq<Row>, id: CategoryId, k: nat) returns (i: nat)
    requires k < |FirstOfEach(rows, id)|
    ensures TakenFrom(rows, id, FirstOfEach(rows, id)[k], i)
  {
    var n := |rows| - 1;
    var init := rows[..n];
    var before := FirstOfEach(init, id);
    EachListedOnce(init, id);
    assert forall j :: 0 <= j < n ==> init[j] == rows[j];
    if k < |before| {
      i := TakenFromFirst(init, id, k);
    } else {
      i := n;
      assert !Lists(before, rows[n].attribute);
      forall j | 0 <= j < n ensures rows[j].attribute != rows[n].attribute {
        assert init[j].attribute == rows[j].attribute;
        assert !Mentions(init, rows[n].attribute);
      }
    }
  }

  /** Entries keep the order of the rows they are taken from. */
  lemma {:induction false} TakenInOrder(rows: seq<Row>, id: CategoryId, j: nat, k: nat) returns (a: nat, b: nat)
    requires j < k < |FirstOfEach(rows, id)|
    ensures TakenFrom(rows, id, FirstOfEach(rows, id)[j], a) && TakenFrom(rows, id, FirstOfEach(rows, id)[k], b) && a < b
  {
    var n := |rows| - 1;
    var init := rows[..n];
    var before := FirstOfEach(init, id);
    assert forall i :: 0 <= i < n ==> init[i] == rows[i];
    if k < |before| {
      a, b := TakenInOrder(init, id, j, k);
    } else {
      a := TakenFromFirst(init, id, j);
      b := TakenFromFirst(rows, id, k);
      assert FirstOfEach(rows, id)[j] == before[j];
      assert TakenFrom(rows, id, before[j], a);
      if b < n {
        EachListedOnce(init, id);
        assert init[b].attribute == rows[n].attribute;
        assert Mentions(init, rows[n].attribute);
        assert false;
      }
    }
  }

  /** An attribute linked to a category of the parent chain of `id`. */
  ghost predicate LinkedOnChain(cats: Table, links: set<Link>, id: CategoryId, l: Link)
    requires Valid(cats) && id in cats
  {
    l in links && l.category in cats && l.category in Chain(cats, id)
  }

  /** The entry is a link of the chain, and none of its attribute hangs on a higher category. */
  ghost predicate FromTheTop(cats: Table, links: set<Link>, id: CategoryId, e: Effective)
    requires Valid(cats) && id in cats
  {
    && LinkedOnChain(cats, links, id, Link(e.source, e.attribute, e.sortOrder))
    && (e.inherited <==> e.source != id)
    && forall l :: LinkedOnChain(cats, links, id, l) && l.attribute == e.attribute ==> cats[e.source].level <= cats[l.category].level
  }

  lemma JoinedIsLinked(cats: Table, links: set<Link>, id: CategoryId, l: Link)
    requires Valid(cats) && AllClean(cats) && id in cats
    ensures Joined(cats, links, id, l) <==> LinkedOnChain(cats, links, id, l)
  {
    if l.category in cats {
      PathIsTheParentChain(cats, id, l.category);
    }
  }

  lemma EntryFromTheTop(cats: Table, links: set<Link>, id: CategoryId, rows: seq<Row>, k: nat)
    requires Valid(cats) && AllClean(cats) && id in cats && QueryResult(cats, links, id, rows)
    requires k < |FirstOfEach(rows, id)|
    ensures FromTheTop(cats, links, id, FirstOfEach(rows, id)[k])
  {
    var e := FirstOfEach(rows, id)[k];
    var i := TakenFromFirst(rows, id, k);
    hide FirstOfEach;
    var top :| Joined(cats, links, id, top) && RowOf(cats, top) == rows[i];
    assert top == Link(e.source, e.attribute, e.sortOrder);
    JoinedIsLinked(cats, links, id, top);
    forall l | LinkedOnChain(cats, links, id, l) && l.attribute == e.attribute
      ensures cats[e.source].level <= cats[l.category].level
    {
      JoinedIsLinked(cats, links, id, l);
      var j :| 0 <= j < |rows| && rows[j] == RowOf(cats, l);
    }
  }

  ghost predicate ComesFirst(cats: Table, e: Effective, f: Effective) {
    && e.source in cats && f.source in cats
    && (cats[e.source].level < cats[f.source].level
        || (cats[e.source].level == cats[f.source].level && e.sortOrder <= f.sortOrder))
  }

  /** With clean slugs: each attribute linked anywhere on the parent chain is listed once, as
      linked by the ancestor nearest the root that links it, and marked inherited exactly when
      that is not the category itself; those of higher ancestors come first, and those of one
      ancestor by its sort order. */
  lemma EachAttributeFromTheTop(cats: Table, links: set<Link>, id: CategoryId, rows: seq<Row>)
    requires Valid(cats) && AllClean(cats) && id in cats && QueryResult(cats, links, id, rows)
    ensures var out := FirstOfEach(rows, id);
            && (forall j, k :: 0 <= j < k < |out| ==> out[j].attribute != out[k].attribute)
            && (forall l :: LinkedOnChain(cats, links, id, l) ==> Lists(out, l.attribute))
            && (forall k :: 0 <= k < |out| ==> FromTheTop(cats, links, id, out[k]))
            && (forall j, k :: 0 <= j < k < |out| ==> ComesFirst(cats, out[j], out[k]))
  {
    var out := FirstOfEach(rows, id);
    EachListedOnce(rows, id);
    forall j, k | 0 <= j < k < |out| ensures ComesFirst(cats, out[j], out[k]) {
      var a, b := TakenInOrder(rows, id, j, k);
      hide FirstOfEach;
      var l :| Joined(cats, links, id, l) && RowOf(cats, l) == rows[a];
      var m :| Joined(cats, links, id, m) && RowOf(cats, m) == rows[b];
    }
    forall k | 0 <= k < |out| ensures FromTheTop(cats, links, id, out[k]) {
      EntryFromTheTop(cats, links, id, rows, k);
    }
    hide FirstOfEach;
    hide FromTheTop;
    forall l | LinkedOnChain(cats, links, id, l) ensures Mentions(rows, l.attribute) {
      JoinedIsLinked(cats, links, id, l);
      var i :| 0 <= i < |rows| && rows[i] == RowOf(cats, l);
    }
  }
}
