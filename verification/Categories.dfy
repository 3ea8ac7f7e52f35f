/**
 The tree of categories and the path stored with each of them: a path prefix stands for
 the chain of parents (services/catalog/internal/app/service.go:81-162,
 services/catalog/internal/repo/category.go:66-121,
 services/catalog/internal/repo/attribute.go:99-112).
 */
module Categories {
  import opened Collections

  type CategoryId = nat

  datatype Category = Category(
    parent: Option<CategoryId>,
    slug: string,
    name: string,
    level: nat,
    path: string,
    sortOrder: int,
    active: bool)

  datatype Error = CategoryNotFound | ParentNotFound | HasChildren | SlugConflict

  type Table = map<CategoryId, Category>

  /* The store */

  predicate SlugTaken(cats: Table, slug: string) {
    exists id | id in cats :: cats[id].slug == slug
  }

  predicate HasChild(cats: Table, id: CategoryId) {
    exists c | c in cats :: cats[c].parent == Some(id)
  }

  function CreateTx(cats: Table, id: CategoryId, parent: Option<CategoryId>, slug: string, name: string, sortOrder: int, active: bool)
    : Result<Table, Error>
  {
    if parent.Some? && parent.value !in cats then Err(ParentNotFound)
    else if SlugTaken(cats, slug) then Err(SlugConflict)
    else
      var level := if parent.Some? then cats[parent.value].level + 1 else 0;
      var path := if parent.Some? then cats[parent.value].path + "/" + slug else slug;
      Ok(cats[id := Category(parent, slug, name, level, path, sortOrder, active)])
  }

  /** Neither slug nor parent can be changed, so paths are stable. */
  function UpdateTx(cats: Table, id: CategoryId, name: string, sortOrder: int, active: bool): Result<Table, Error> {
    if id !in cats then Err(CategoryNotFound)
    else Ok(cats[id := cats[id].(name := name, sortOrder := sortOrder, active := active)])
  }

  function DeleteTx(cats: Table, id: CategoryId): Result<Table, Error> {
    if id !in cats then Err(CategoryNotFound) else if HasChild(cats, id) then Err(HasChildren) else Ok(cats - {id})
  }

  class Catalog {
    var cats: Table

    constructor ()
      ensures cats == map[]
    {
      cats := map[];
    }

    /** `id` is the generated one. */
    method Create(id: CategoryId, parent: Option<CategoryId>, slug: string, name: string, sortOrder: int, active: bool)
      returns (r: Result<Category, Error>)
      modifies this
      ensures match CreateTx(old(cats), id, parent, slug, name, sortOrder, active)
              case Err(e) => r == Err(e) && cats == old(cats)
              case Ok(after) => r == Ok(after[id]) && cats == after
    {
      var level, path := 0, slug;
      if parent.Some? {
        if parent.value !in cats {
          return Err(ParentNotFound);
        }
        level := cats[parent.value].level + 1;
        path := cats[parent.value].path + "/" + slug;
      }
      if SlugTaken(cats, slug) {
        return Err(SlugConflict);
      }
      var cat := Category(parent, slug, name, level, path, sortOrder, active);
      cats := cats[id := cat];
      r := Ok(cat);
    }

    method Update(id: CategoryId, name: string, sortOrder: int, active: bool) returns (r: Result<Category, Error>)
      modifies this
      ensures match UpdateTx(old(cats), id, name, sortOrder, active)
              case Err(e) => r == Err(e) && cats == old(cats)
              case Ok(after) => r == Ok(after[id]) && cats == after
    {
      if id !in cats {
        return Err(CategoryNotFound);
      }
      var cat := cats[id].(name := name, sortOrder := sortOrder, active := active);
      cats := cats[id := cat];
      r := Ok(cat);
    }

    method Delete(id: CategoryId) returns (r: Result<(), Error>)
      modifies this
      ensures match DeleteTx(old(cats), id)
              case Err(e) => r == Err(e) && cats == old(cats)
              case Ok(after) => r.Ok? && cats == after
    {
      if id !in cats {
        return Err(CategoryNotFound);
      }
      if HasChild(cats, id) {
        return Err(HasChildren);
      }
      cats := cats - {id};
      r := Ok(());
    }
  }

  /* The tree */

  /** Parents are there, one level up, and paths are the parent's path and the own slug, which is never empty. */
  ghost predicate Valid(cats: Table) {
    && (forall id :: id in cats ==> Placed(cats, id) && cats[id].slug != "")
    && (forall a, b :: a in cats && b in cats && cats[a].slug == cats[b].slug ==> a == b)
  }

  ghost predicate Placed(cats: Table, id: CategoryId)
    requires id in cats
  {
    var c := cats[id];
    match c.parent
    case None => c.level == 0 && c.path == c.slug
    case Some(p) => p in cats && c.level == cats[p].level + 1 && c.path == cats[p].path + "/" + c.slug
  }

  datatype Action =
    | Create(id: CategoryId, parent: Option<CategoryId>, slug: string, name: string, sortOrder: int, active: bool)
    | Update(id: CategoryId, name: string, sortOrder: int, active: bool)
    | Delete(id: CategoryId)

  /** What an action makes of the table; a refused one leaves it. Generated ids are new, and a
      request to create without a slug or a name is turned away before it gets to the service. */
  ghost predicate Step(cats: Table, a: Action, cats': Table) {
    match a
    case Create(id, parent, slug, name, sortOrder, active) =>
      var r := CreateTx(cats, id, parent, slug, name, sortOrder, active);
      id !in cats && cats' == if slug != "" && name != "" && r.Ok? then r.value else cats
    case Update(id, name, sortOrder, active) =>
      var r := UpdateTx(cats, id, name, sortOrder, active);
      cats' == if r.Ok? then r.value else cats
    case Delete(id) =>
      var r := DeleteTx(cats, id);
      cats' == if r.Ok? then r.value else cats
  }

  ghost predicate Run(states: seq<Table>, actions: seq<Action>) {
    && |states| == |actions| + 1
    && states[0] == map[]
    && forall i {:trigger actions[i]} :: 0 <= i < |actions| ==> Step(states[i], actions[i], states[i + 1])
  }

  /** A new category, of a new slug, under a parent that is there. */
  lemma NewOneKeepsValid(cats: Table, id: CategoryId, c: Category)
    requires Valid(cats) && id !in cats && c.slug != "" && !SlugTaken(cats, c.slug)
    requires Placed(cats[id := c], id)
    ensures Valid(cats[id := c])
  {
    forall x | x in cats ensures Placed(cats[id := c], x) {
      assert Placed(cats, x);
    }
  }

  /** Other names, order and activity. */
  lemma RewordingKeepsValid(cats: Table, id: CategoryId, name: string, sortOrder: int, active: bool)
    requires Valid(cats) && id in cats
    ensures Valid(cats[id := cats[id].(name := name, sortOrder := sortOrder, active := active)])
  {
    var after := cats[id := cats[id].(name := name, sortOrder := sortOrder, active := active)];
    forall x | x in after ensures Placed(after, x) && after[x].slug == cats[x].slug {
      assert Placed(cats, x);
    }
  }

  lemma RemovalKeepsValid(cats: Table, id: CategoryId)
    requires Valid(cats) && !HasChild(cats, id)
    ensures Valid(cats - {id})
  {
    forall x | x in cats - {id} ensures Placed(cats - {id}, x) {
      assert Placed(cats, x) && cats[x].parent != Some(id);
    }
  }

  lemma StepKeepsValid(cats: Table, a: Action, cats': Table)
    requires Valid(cats) && Step(cats, a, cats')
    ensures Valid(cats')
  {
    hide Valid;
    hide SlugTaken;
    hide HasChild;
    match a
    case Create(id, parent, slug, name, sortOrder, active) =>
      if cats' != cats {
        assert cats'[id].slug == slug && cats' == cats[id := cats'[id]];
        NewOneKeepsValid(cats, id, cats'[id]);
      }
    case Update(id, name, sortOrder, active) =>
      if id in cats {
        RewordingKeepsValid(cats, id, name, sortOrder, active);
      }
    case Delete(id) =>
      if id in cats && !HasChild(cats, id) {
        RemovalKeepsValid(cats, id);
      }
  }

  lemma {:induction false} RunKeepsValid(states: seq<Table>, actions: seq<Action>, i: nat)
    requires Run(states, actions) && i < |states|
    ensures Valid(states[i])
  {
    if i > 0 {
      RunKeepsValid(states, actions, i - 1);
      StepKeepsValid(states[i - 1], actions[i - 1], states[i]);
    }
  }

  /** A category and its ancestors, from itself up to a root. */
  ghost function Chain(cats: Table, id: CategoryId): seq<CategoryId>
    requires Valid(cats) && id in cats
    decreases cats[id].level
  {
    assert Placed(cats, id);
    [id] + if cats[id].parent.None? then [] else Chain(cats, cats[id].parent.value)
  }

  /* Matching paths */

  /** SQL's LIKE: `%` is any string, `_` any character, a backslash quotes the next one. */
  predicate Like(s: string, pattern: string)
    decreases |s| + |pattern|
  {
    if pattern == "" then s == ""
    else if pattern[0] == '%' then Like(s, pattern[1..]) || (s != "" && Like(s[1..], pattern))
    else if pattern[0] == '\\' then |pattern| >= 2 && s != "" && s[0] == pattern[1] && Like(s[1..], pattern[2..])
    else s != "" && (pattern[0] == '_' || pattern[0] == s[0]) && Like(s[1..], pattern[1..])
  }

  /** How the query finds a category's ancestors. */
  predicate PathMatches(path: string, ancestor: string) {
    path == ancestor || Like(path, ancestor + "/%")
  }

  /** Free of everything LIKE gives a meaning to, and of the separator after its first character. */
  predicate Clean(slug: string) {
    Literal(slug) && Flat(slug)
  }

  predicate Flat(slug: string) {
    forall k | 0 < k < |slug| :: slug[k] != '/'
  }

  predicate Literal(s: string) {
    '%' !in s && '_' !in s && '\\' !in s
  }

  lemma {:induction false} AnythingLikePercent(s: string)
    ensures Like(s, "%")
  {
    if s != "" {
      AnythingLikePercent(s[1..]);
    }
  }

  /** A literal prefix before the final `%` makes LIKE a prefix test. */
  lemma {:induction false} LiteralLike(s: string, prefix: string)
    requires Literal(prefix)
    ensures Like(s, prefix + "%") <==> prefix <= s
  {
    if prefix == "" {
      assert prefix + "%" == "%";
      AnythingLikePercent(s);
    } else {
      assert prefix[0] in prefix;
      assert (prefix + "%")[1..] == prefix[1..] + "%";
      if s != "" {
        assert prefix[1..] <= prefix[1..];
        LiteralLike(s[1..], prefix[1..]);
        assert prefix <= s <==> prefix[0] == s[0] && prefix[1..] <= s[1..] by {
          if prefix[0] == s[0] && prefix[1..] <= s[1..] {
            assert prefix == [prefix[0]] + prefix[1..] && s == [s[0]] + s[1..];
          }
        }
      }
    }
  }

  ghost predicate AllClean(cats: Table) {
    forall id :: id in cats ==> Clean(cats[id].slug)
  }

  ghost predicate AllFlat(cats: Table) {
    forall id :: id in cats ==> Flat(cats[id].slug)
  }

  lemma {:induction false} PathsAreLiteral(cats: Table, id: CategoryId)
    requires Valid(cats) && AllClean(cats) && id in cats
    ensures Literal(cats[id].path)
    decreases cats[id].level
  {
    assert Placed(cats, id);
    if cats[id].parent.Some? {
      PathsAreLiteral(cats, cats[id].parent.value);
    }
  }

  lemma PathIsNotEmpty(cats: Table, id: CategoryId)
    requires Valid(cats) && id in cats
    ensures cats[id].path != ""
  {
    assert Placed(cats, id);
  }

  /** Past the separator before the last segment, and the segment's first character, there is none. */
  lemma SlashPlaces(above: string, slug: string)
    requires Flat(slug)
    ensures var path := above + "/" + slug; forall n :: |above| + 1 < n < |path| ==> path[n] != '/'
  {
    var path := above + "/" + slug;
    forall n | |above| + 1 < n < |path| ensures path[n] != '/' {
      assert path[n] == slug[n - |above| - 1];
    }
  }

  /** No path is another one with a separator after it. */
  lemma {:induction false} NoSlashTwin(cats: Table, x: CategoryId, y: CategoryId)
    requires Valid(cats) && AllFlat(cats) && x in cats && y in cats
    ensures cats[x].path != cats[y].path + "/"
    decreases |cats[x].path|
  {
    assert Placed(cats, x);
    PathIsNotEmpty(cats, y);
    var path, slug := cats[x].path, cats[x].slug;
    if path == cats[y].path + "/" {
      assert path[|path| - 1] == '/' && slug[|slug| - 1] == path[|path| - 1];
      if cats[x].parent.Some? {
        var above := cats[cats[x].parent.value].path;
        assert slug == "/";
        assert cats[y].path == path[..|path| - 1] == above + "/";
        NoSlashTwin(cats, y, cats[x].parent.value);
      }
    }
  }

  /** A path splits into an upper path and a last segment in one way. */
  lemma SplitIsUnique(cats: Table, p: CategoryId, x: string, q: CategoryId, y: string)
    requires Valid(cats) && AllFlat(cats) && p in cats && q in cats && Flat(x) && Flat(y)
    requires cats[p].path + "/" + x == cats[q].path + "/" + y
    ensures cats[p].path == cats[q].path && x == y
  {
    var s, m, n := cats[p].path + "/" + x, |cats[p].path|, |cats[q].path|;
    assert cats[p].path == s[..m] && cats[q].path == s[..n] && s[m] == '/' && s[n] == '/';
    assert x == s[m + 1..] && y == s[n + 1..];
    assert n == m + 1 ==> s[..n] == s[..m] + "/";
    assert m == n + 1 ==> s[..m] == s[..n] + "/";
    SlashPlaces(cats[p].path, x);
    SlashPlaces(cats[q].path, y);
    NoSlashTwin(cats, q, p);
    NoSlashTwin(cats, p, q);
  }

  /** Only a nested category's path has a separator after its first character. */
  lemma NestedHasSlash(cats: Table, id: CategoryId)
    requires Valid(cats) && AllFlat(cats) && id in cats
    ensures cats[id].parent.Some? <==> exists k :: 0 < k < |cats[id].path| && cats[id].path[k] == '/'
  {
    assert Placed(cats, id);
    if cats[id].parent.Some? {
      PathIsNotEmpty(cats, cats[id].parent.value);
      assert cats[id].path[|cats[cats[id].parent.value].path|] == '/';
    }
  }

  /** Different categories have different paths. */
  lemma SamePathSameCategory(cats: Table, a: CategoryId, b: CategoryId)
    requires Valid(cats) && AllFlat(cats) && a in cats && b in cats && cats[a].path == cats[b].path
    ensures a == b
  {
    assert Placed(cats, a) && Placed(cats, b);
    NestedHasSlash(cats, a);
    NestedHasSlash(cats, b);
    if cats[a].parent.Some? {
      SplitIsUnique(cats, cats[a].parent.value, cats[a].slug, cats[b].parent.value, cats[b].slug);
    }
  }

  /** What is above a path with one more segment is that path or something above it. */
  lemma PrefixSplits(cats: Table, a: CategoryId, p: CategoryId, slug: string)
    requires Valid(cats) && AllFlat(cats) && a in cats && p in cats && Flat(slug)
    ensures cats[a].path + "/" <= cats[p].path + "/" + slug
       <==> cats[a].path == cats[p].path || cats[a].path + "/" <= cats[p].path
  {
    var above, n := cats[p].path, |cats[a].path|;
    var path := above + "/" + slug;
    if cats[a].path + "/" <= path {
      assert path[n] == (cats[a].path + "/")[n] == '/';
      assert cats[a].path == path[..n] && above == path[..|above|];
      assert n == |above| + 1 ==> path[..n] == above + "/";
      assert n < |above| ==> cats[a].path + "/" == path[..n + 1] == above[..n + 1];
      SlashPlaces(above, slug);
      NoSlashTwin(cats, a, p);
    }
  }

  lemma PrefixHasSlash(a: string, s: string)
    requires a != "" && a + "/" <= s
    ensures exists k :: 0 < k < |s| && s[k] == '/'
  {
    assert s[|a|] == (a + "/")[|a|];
  }

  lemma {:induction false} PrefixIsChain(cats: Table, t: CategoryId, a: CategoryId)
    requires Valid(cats) && AllFlat(cats) && t in cats && a in cats
    ensures cats[t].path == cats[a].path || cats[a].path + "/" <= cats[t].path <==> a in Chain(cats, t)
    decreases cats[t].level
  {
    assert Placed(cats, t);
    if cats[t].path == cats[a].path {
      SamePathSameCategory(cats, t, a);
    }
    match cats[t].parent
    case None =>
      NestedHasSlash(cats, t);
      PathIsNotEmpty(cats, a);
      if cats[a].path + "/" <= cats[t].path {
        PrefixHasSlash(cats[a].path, cats[t].path);
      }
    case Some(p) =>
      PrefixIsChain(cats, p, a);
      PrefixSplits(cats, a, p, cats[t].slug);
  }

  /** With clean slugs, the path test finds exactly a category's ancestors and itself. */
  lemma PathIsTheParentChain(cats: Table, t: CategoryId, a: CategoryId)
    requires Valid(cats) && AllClean(cats) && t in cats && a in cats
    ensures PathMatches(cats[t].path, cats[a].path) <==> a in Chain(cats, t)
  {
    PathsAreLiteral(cats, a);
    assert cats[a].path + "/%" == (cats[a].path + "/") + "%";
    LiteralLike(cats[t].path, cats[a].path + "/");
    PrefixIsChain(cats, t, a);
  }

  /* What is written can be read */

  /** A request to create fails for want of its parent or for its slug, in that order; the others
      for want of the category, and a deletion also while there are children. */
  lemma RefusedExactlyWhen(cats: Table, id: CategoryId, parent: Option<CategoryId>, slug: string, name: string, sortOrder: int, active: bool)
    ensures var orphan := parent.Some? && parent.value !in cats;
            var taken := exists c :: c in cats && cats[c].slug == slug;
            match CreateTx(cats, id, parent, slug, name, sortOrder, active)
            case Ok(_) => !orphan && !taken
            case Err(e) => if orphan then e == ParentNotFound else taken && e == SlugConflict
    ensures UpdateTx(cats, id, name, sortOrder, active).Err? <==> id !in cats
    ensures UpdateTx(cats, id, name, sortOrder, active).Err? ==> UpdateTx(cats, id, name, sortOrder, active).error == CategoryNotFound
    ensures var parental := exists c :: c in cats && cats[c].parent == Some(id);
            match DeleteTx(cats, id)
            case Ok(after) => id in cats && !parental && after.Keys == cats.Keys - {id} && forall c :: c in after ==> after[c] == cats[c]
            case Err(e) => if id !in cats then e == CategoryNotFound else parental && e == HasChildren
  {
  }

  /** The action is about this category. */
  predicate Names(a: Action, id: CategoryId) { a.id == id }

  /** A category reads as its last write left it: names, order and activity from the last
      creation or update, and everything else from its creation. */
  lemma {:induction false} ReadsTheLastWrite(states: seq<Table>, actions: seq<Action>, i: nat, j: nat, id: CategoryId)
    requires Run(states, actions) && i < j < |states|
    requires Names(actions[i], id) && !actions[i].Delete? && id in states[i + 1]
    requires forall k :: i < k < j ==> !Names(actions[k], id)
    ensures id in states[j]
    ensures states[j][id].name == actions[i].name && states[j][id].sortOrder == actions[i].sortOrder
         && states[j][id].active == actions[i].active
    ensures actions[i].Create? ==> states[j][id].parent == actions[i].parent && states[j][id].slug == actions[i].slug
    ensures actions[i].Create? ==>
              match actions[i].parent
              case None => states[j][id].level == 0 && states[j][id].path == actions[i].slug
              case Some(p) => p in states[i] && states[j][id].level == states[i][p].level + 1
                              && states[j][id].path == states[i][p].path + "/" + actions[i].slug
  {
    assert Step(states[i], actions[i], states[i + 1]);
    if j > i + 1 {
      ReadsTheLastWrite(states, actions, i, j - 1, id);
      assert Step(states[j - 1], actions[j - 1], states[j]);
      assert !Names(actions[j - 1], id);
    }
  }

  /** Where a category stands never changes: slug, parent, level and path are those it was created with. */
  lemma {:induction false} PathsAreStable(states: seq<Table>, actions: seq<Action>, i: nat, j: nat, id: CategoryId)
    requires Run(states, actions) && i <= j < |states| && id in states[i]
    requires forall k :: i <= k < j ==> !(actions[k].Delete? && Names(actions[k], id))
    ensures id in states[j]
    ensures states[j][id].parent == states[i][id].parent && states[j][id].slug == states[i][id].slug
         && states[j][id].level == states[i][id].level && states[j][id].path == states[i][id].path
  {
    if j > i {
      PathsAreStable(states, actions, i, j - 1, id);
      assert Step(states[j - 1], actions[j - 1], states[j]);
      assert !(actions[j - 1].Delete? && Names(actions[j - 1], id));
    }
  }

  /** No step touches a category that it is not about. */
  lemma OthersAreLeftAlone(cats: Table, a: Action, cats': Table, id: CategoryId)
    requires Step(cats, a, cats') && a.id != id
    ensures id in cats' <==> id in cats
    ensures id in cats ==> cats'[id] == cats[id]
  {
  }
}
