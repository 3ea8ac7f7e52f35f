/**
 The flat list of categories as a tree of heap nodes
 (services/catalog/internal/domain/category.go:33-54).
 */
module CategoryTree {
  import opened Collections
  import opened Categories

  /** A category of the list, with its id. */
  datatype Entry = Entry(id: CategoryId, category: Category)

  class TreeNode {
    const entry: Entry
    var children: seq<TreeNode>

    constructor (entry: Entry)
      ensures this.entry == entry && children == []
    {
      this.entry, children := entry, [];
    }
  }

  ghost predicate UniqueIds(cats: seq<Entry>) {
    forall i, j :: 0 <= i < j < |cats| ==> cats[i].id != cats[j].id
  }

  predicate Present(cats: seq<Entry>, id: CategoryId) {
    exists i | 0 <= i < |cats| :: cats[i].id == id
  }

  /** Where a category goes: under its parent if that is in the list, else among the roots. */
  function Under(all: seq<Entry>, e: Entry): Option<CategoryId> {
    if e.category.parent.Some? && Present(all, e.category.parent.value) then e.category.parent else None
  }

  /** The ids that go under `place`, in the order of the list. */
  function PlacedUnder(all: seq<Entry>, cats: seq<Entry>, place: Option<CategoryId>): seq<CategoryId> {
    if cats == [] then [] else
    var e := cats[|cats| - 1];
    PlacedUnder(all, cats[..|cats| - 1], place) + if Under(all, e) == place then [e.id] else []
  }

  ghost function NodesOf(nodes: map<CategoryId, TreeNode>, ids: seq<CategoryId>): seq<TreeNode>
    requires forall i :: 0 <= i < |ids| ==> ids[i] in nodes
  {
    seq(|ids|, i requires 0 <= i < |ids| => nodes[ids[i]])
  }

  lemma {:induction false} PlacedAreListed(all: seq<Entry>, cats: seq<Entry>, place: Option<CategoryId>, id: CategoryId)
    ensures id in PlacedUnder(all, cats, place) <==> exists i :: 0 <= i < |cats| && cats[i].id == id && Under(all, cats[i]) == place
  {
    if cats != [] {
      var n := |cats| - 1;
      PlacedAreListed(all, cats[..n], place, id);
      assert forall i :: 0 <= i < n ==> cats[..n][i] == cats[i];
      if i :| 0 <= i < n && cats[..n][i].id == id && Under(all, cats[..n][i]) == place {
        assert cats[i].id == id;
      }
    }
  }

  /** Where a category belongs: under the listed category that its parent field names, and among
      the roots when that field is empty or names none of the list. */
  ghost predicate Belongs(all: seq<Entry>, e: Entry, place: Option<CategoryId>) {
    match place
    case Some(p) => e.category.parent == Some(p) && exists k :: 0 <= k < |all| && all[k].id == p
    case None => e.category.parent.None? || forall k :: 0 <= k < |all| ==> all[k].id != e.category.parent.value
  }

  /** Every category of the list stands where it belongs and nowhere else, once, and those of
      one place stand in the order of the list. */
  lemma {:induction false} EachPlacedOnce(all: seq<Entry>, cats: seq<Entry>, place: Option<CategoryId>)
    requires UniqueIds(cats)
    ensures forall i :: 0 <= i < |cats| ==> (cats[i].id in PlacedUnder(all, cats, place) <==> Belongs(all, cats[i], place))
    ensures var ids := PlacedUnder(all, cats, place); forall i, j :: 0 <= i < j < |ids| ==> ids[i] != ids[j]
    ensures forall i, j :: 0 <= i < j < |cats| && Belongs(all, cats[i], place) && Belongs(all, cats[j], place) ==>
              Before(PlacedUnder(all, cats, place), cats[i].id, cats[j].id)
  {
    if cats != [] {
      var n := |cats| - 1;
      var init := cats[..n];
      EachPlacedOnce(all, init, place);
      assert forall i :: 0 <= i < n ==> init[i] == cats[i];
      PlacedAreListed(all, init, place, cats[n].id);
      forall i, j | 0 <= i < j < |cats| && Belongs(all, cats[i], place) && Belongs(all, cats[j], place)
        ensures Before(PlacedUnder(all, cats, place), cats[i].id, cats[j].id)
      {
        if j < n {
          assert init[i] == cats[i] && init[j] == cats[j];
          BeforeGrows(PlacedUnder(all, init, place), PlacedUnder(all, cats, place), cats[i].id, cats[j].id);
        } else {
          var ids := PlacedUnder(all, init, place);
          assert init[i].id in ids;
          var m :| 0 <= m < |ids| && ids[m] == cats[i].id;
          assert PlacedUnder(all, cats, place)[m] == cats[i].id && PlacedUnder(all, cats, place)[|ids|] == cats[j].id;
        }
      }
    }
    forall i | 0 <= i < |cats| ensures cats[i].id in PlacedUnder(all, cats, place) <==> Belongs(all, cats[i], place) {
      PlacedAreListed(all, cats, place, cats[i].id);
      UnderIsWhereItBelongs(all, cats[i], place);
    }
  }

  ghost predicate Before(ids: seq<CategoryId>, a: CategoryId, b: CategoryId) {
    exists m, n :: 0 <= m < n < |ids| && ids[m] == a && ids[n] == b
  }

  lemma BeforeGrows(ids: seq<CategoryId>, longer: seq<CategoryId>, a: CategoryId, b: CategoryId)
    requires ids <= longer && Before(ids, a, b)
    ensures Before(longer, a, b)
  {
    var m, n :| 0 <= m < n < |ids| && ids[m] == a && ids[n] == b;
    assert longer[m] == a && longer[n] == b;
  }

  lemma UnderIsWhereItBelongs(all: seq<Entry>, e: Entry, place: Option<CategoryId>)
    ensures Under(all, e) == place <==> Belongs(all, e, place)
  {
  }

  /** The node of an id, for ids that have one. */
  ghost predicate AllMade(nodes: map<CategoryId, TreeNode>, ids: seq<CategoryId>) {
    forall i :: 0 <= i < |ids| ==> ids[i] in nodes
  }

  /** One more category goes to the end of its place, and nowhere else. */
  lemma OneMorePlaced(nodes: map<CategoryId, TreeNode>, all: seq<Entry>, done: seq<Entry>, e: Entry, place: Option<CategoryId>)
    requires e.id in nodes && AllMade(nodes, PlacedUnder(all, done, place))
    ensures AllMade(nodes, PlacedUnder(all, done + [e], place))
    ensures NodesOf(nodes, PlacedUnder(all, done + [e], place))
         == NodesOf(nodes, PlacedUnder(all, done, place)) + if Under(all, e) == place then [nodes[e.id]] else []
  {
  }

  /** A node for every category, none linked yet. */
  method MakeNodes(cats: seq<Entry>) returns (nodes: map<CategoryId, TreeNode>)
    requires UniqueIds(cats)
    ensures forall id :: id in nodes <==> Present(cats, id)
    ensures forall id :: id in nodes ==> fresh(nodes[id]) && nodes[id].children == [] && nodes[id].entry.id == id
    ensures forall i :: 0 <= i < |cats| ==> cats[i].id in nodes && nodes[cats[i].id].entry == cats[i]
  {
    nodes := map[];
    for i := 0 to |cats|
      invariant forall id :: id in nodes ==> fresh(nodes[id]) && nodes[id].children == [] && nodes[id].entry.id == id
      invariant forall id :: id in nodes ==> Present(cats, id)
      invariant forall j :: 0 <= j < i ==> cats[j].id in nodes && nodes[cats[j].id].entry == cats[j]
    {
      var node := new TreeNode(cats[i]);
      nodes := nodes[cats[i].id := node];
    }
  }

  /** Puts one category's node in its place. */
  method Attach(nodes: map<CategoryId, TreeNode>, cats: seq<Entry>, e: Entry, roots: seq<TreeNode>) returns (grown: seq<TreeNode>)
    requires forall id :: id in nodes <==> Present(cats, id)
    requires forall id :: id in nodes ==> nodes[id].entry.id == id
    requires e.id in nodes
    modifies nodes.Values
    ensures grown == roots + if Under(cats, e) == None then [nodes[e.id]] else []
    ensures forall p :: p in nodes ==>
              nodes[p].children == old(nodes[p].children) + if Under(cats, e) == Some(p) then [nodes[e.id]] else []
  {
    grown := roots;
    var n := nodes[e.id];
    if e.category.parent.None? {
      grown := grown + [n];
    } else if e.category.parent.value in nodes {
      var parent := nodes[e.category.parent.value];
      parent.children := parent.children + [n];
    } else {
      grown := grown + [n];
    }
  }

  /** The forest of the categories `done` so far: its roots, and the children of each node. */
  ghost predicate Forest(nodes: map<CategoryId, TreeNode>, cats: seq<Entry>, done: seq<Entry>, roots: seq<TreeNode>,
                         children: map<CategoryId, seq<TreeNode>>)
  {
    && children.Keys == nodes.Keys
    && (forall place :: AllMade(nodes, PlacedUnder(cats, done, place)))
    && roots == NodesOf(nodes, PlacedUnder(cats, done, None))
    && forall p :: p in nodes ==> children[p] == NodesOf(nodes, PlacedUnder(cats, done, Some(p)))
  }

  lemma AttachedOne(nodes: map<CategoryId, TreeNode>, cats: seq<Entry>, done: seq<Entry>, e: Entry, after: seq<Entry>,
                    roots: seq<TreeNode>, grown: seq<TreeNode>,
                    children: map<CategoryId, seq<TreeNode>>, children': map<CategoryId, seq<TreeNode>>)
    requires e.id in nodes && after == done + [e] && children'.Keys == nodes.Keys
    requires Forest(nodes, cats, done, roots, children)
    requires grown == roots + if Under(cats, e) == None then [nodes[e.id]] else []
    requires forall p :: p in nodes ==> children'[p] == children[p] + if Under(cats, e) == Some(p) then [nodes[e.id]] else []
    ensures Forest(nodes, cats, after, grown, children')
  {
    forall place
      ensures AllMade(nodes, PlacedUnder(cats, after, place))
      ensures NodesOf(nodes, PlacedUnder(cats, after, place))
           == NodesOf(nodes, PlacedUnder(cats, done, place)) + if Under(cats, e) == place then [nodes[e.id]] else []
    {
      OneMorePlaced(nodes, cats, done, e, place);
    }
  }

  /** What can be read off a tree: a node is among the children of exactly its parent, and among
      the roots exactly when it has no parent in the list. */
  ghost predicate Linked(nodes: map<CategoryId, TreeNode>, cats: seq<Entry>, roots: seq<TreeNode>,
                         children: map<CategoryId, seq<TreeNode>>)
  {
    && (forall i :: 0 <= i < |cats| ==> cats[i].id in nodes)
    && (forall i, p :: 0 <= i < |cats| && p in nodes && p in children ==>
          (nodes[cats[i].id] in children[p] <==> cats[i].category.parent == Some(p)))
    && (forall i :: 0 <= i < |cats| ==>
          (nodes[cats[i].id] in roots <==>
             cats[i].category.parent.None? || forall k :: 0 <= k < |cats| ==> cats[k].id != cats[i].category.parent.value))
  }

  lemma NodeIsPlaced(nodes: map<CategoryId, TreeNode>, cats: seq<Entry>, i: nat, place: Option<CategoryId>)
    requires UniqueIds(cats) && i < |cats|
    requires forall k :: 0 <= k < |cats| ==> cats[k].id in nodes && nodes[cats[k].id].entry == cats[k]
    requires AllMade(nodes, PlacedUnder(cats, cats, place))
    ensures nodes[cats[i].id] in NodesOf(nodes, PlacedUnder(cats, cats, place)) <==> Belongs(cats, cats[i], place)
  {
    var ids := PlacedUnder(cats, cats, place);
    EachPlacedOnce(cats, cats, place);
    if k :| 0 <= k < |ids| && nodes[ids[k]] == nodes[cats[i].id] {
      PlacedAreListed(cats, cats, place, ids[k]);
      var m :| 0 <= m < |cats| && cats[m].id == ids[k];
      assert nodes[cats[m].id].entry == cats[m] && nodes[cats[i].id].entry == cats[i];
    }
    if Belongs(cats, cats[i], place) {
      var k :| 0 <= k < |ids| && ids[k] == cats[i].id;
      assert NodesOf(nodes, ids)[k] == nodes[cats[i].id];
    }
  }

  lemma ForestIsLinked(nodes: map<CategoryId, TreeNode>, cats: seq<Entry>, roots: seq<TreeNode>,
                       children: map<CategoryId, seq<TreeNode>>)
    requires UniqueIds(cats)
    requires forall id :: id in nodes <==> Present(cats, id)
    requires forall k :: 0 <= k < |cats| ==> cats[k].id in nodes && nodes[cats[k].id].entry == cats[k]
    requires Forest(nodes, cats, cats, roots, children)
    ensures Linked(nodes, cats, roots, children)
  {
    forall i, p | 0 <= i < |cats| && p in nodes && p in children
      ensures nodes[cats[i].id] in children[p] <==> cats[i].category.parent == Some(p)
    {
      NodeIsPlaced(nodes, cats, i, Some(p));
    }
    forall i | 0 <= i < |cats| ensures nodes[cats[i].id] in roots <==> Belongs(cats, cats[i], None) {
      NodeIsPlaced(nodes, cats, i, None);
    }
  }

  /** Children keep the order of the list; a category whose parent is not listed is a root. */
  method BuildTree(cats: seq<Entry>) returns (roots: seq<TreeNode>, ghost nodes: map<CategoryId, TreeNode>)
    requires UniqueIds(cats)
    ensures forall id :: id in nodes <==> Present(cats, id)
    ensures forall i :: 0 <= i < |cats| ==> cats[i].id in nodes && fresh(nodes[cats[i].id]) && nodes[cats[i].id].entry == cats[i]
    ensures Forest(nodes, cats, cats, roots, map p | p in nodes :: nodes[p].children)
    ensures Linked(nodes, cats, roots, map p | p in nodes :: nodes[p].children)
  {
    hide Linked;
    hide Forest;
    hide PlacedUnder;
    hide Under;
    hide Present;
    var made := MakeNodes(cats);
    nodes, roots := made, [];
    ghost var children := map p | p in made :: made[p].children;
    NothingPlaced(made, cats, children);
    assert cats[..0] == [];
    for i := 0 to |cats|
      invariant children == map p | p in made :: made[p].children
      invariant Forest(made, cats, cats[..i], roots, children)
    {
      var grown := Attach(made, cats, cats[i], roots);
      ghost var children' := map p | p in made :: made[p].children;
      assert cats[..i + 1] == cats[..i] + [cats[i]];
      AttachedOne(made, cats, cats[..i], cats[i], cats[..i + 1], roots, grown, children, children');
      roots, children := grown, children';
    }
    assert cats[..|cats|] == cats;
    ForestIsLinked(made, cats, roots, children);
  }

  lemma NothingPlaced(nodes: map<CategoryId, TreeNode>, cats: seq<Entry>, children: map<CategoryId, seq<TreeNode>>)
    requires children.Keys == nodes.Keys && forall p :: p in nodes ==> children[p] == []
    ensures Forest(nodes, cats, [], [], children)
  {
  }
}
