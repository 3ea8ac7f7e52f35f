/**
 Why slugs must be free of the separator, after their first character, and of LIKE's special
 characters, which nothing in the service checks: one slug that is not, among clean ones, makes
 the path test name a stranger as an ancestor, or miss a parent. Among slugs without separators
 it is told exactly which slugs do.
 */
module UncleanSlugs {
  import opened Collections
  import opened Categories

  /** The path test is wrong about this pair. */
  ghost predicate Errs(cats: Table, t: CategoryId, a: CategoryId) {
    Valid(cats) && t in cats && a in cats && !(PathMatches(cats[t].path, cats[a].path) <==> a in Chain(cats, t))
  }

  ghost predicate OthersClean(cats: Table, slug: string) {
    forall id :: id in cats && cats[id].slug != slug ==> Clean(cats[id].slug)
  }

  /** Neither special characters nor separators. */
  predicate Plain(slug: string) {
    Literal(slug) && '/' !in slug
  }

  ghost predicate OthersPlain(cats: Table, slug: string) {
    forall id :: id in cats && cats[id].slug != slug ==> Plain(cats[id].slug)
  }

  ghost predicate HasSlug(cats: Table, slug: string) {
    exists id :: id in cats && cats[id].slug == slug
  }

  /** A table that creations, updates and deletions lead to. */
  ghost predicate Reachable(cats: Table) {
    exists states, actions :: Leads(states, actions, cats)
  }

  ghost predicate Leads(states: seq<Table>, actions: seq<Action>, cats: Table) {
    Run(states, actions) && states[|actions|] == cats
  }

  /** In some reachable table that has the slug, all others being clean, the path test errs. */
  ghost predicate Unsafe(slug: string) {
    exists cats, t, a :: Reachable(cats) && HasSlug(cats, slug) && OthersClean(cats, slug) && Errs(cats, t, a)
  }

  /** The same where no other slug has a separator either. */
  ghost predicate UnsafeAmongPlain(slug: string) {
    exists cats, t, a :: Reachable(cats) && HasSlug(cats, slug) && OthersPlain(cats, slug) && Errs(cats, t, a)
  }

  /** Read as a pattern, the slug quotes a special character. */
  predicate Quotes(p: string) {
    p != "" &&
      if p[0] == '\\' && |p| >= 2 then !Literal([p[1]]) || Quotes(p[2..]) else Quotes(p[1..])
  }

  /** Read as a pattern, the slug still stands for itself. */
  predicate MatchesItself(s: string) {
    Like(s + "/", s + "/")
  }

  /** A slug without separators, among others without: the path test can err exactly when it has
      special characters, unless it quotes one and still stands for itself. */
  lemma UnsafeAmongPlainIff(s: string)
    requires s != "" && '/' !in s
    ensures UnsafeAmongPlain(s) <==> !Literal(s) && !(Quotes(s) && MatchesItself(s))
  {
    if UnsafeAmongPlain(s) && (Literal(s) || (Quotes(s) && MatchesItself(s))) {
      var cats, t, a :| Reachable(cats) && HasSlug(cats, s) && OthersPlain(cats, s) && Errs(cats, t, a);
      NeverErrs(cats, s, t, a);
    } else if !Literal(s) && !(Quotes(s) && MatchesItself(s)) {
      var cats, t, a := DeceptiveErrs(s);
    }
  }

  /** Such slugs there are. */
  lemma SomeUncleanAreSafe()
    ensures var s := "%\\%"; !Literal(s) && Quotes(s) && MatchesItself(s)
  {
    var s, p := "%\\%", "%\\%/";
    assert s[1..] == "\\%" && '%' in ['%'] && s[0] in s;
    assert Like("/", "/") by {
      assert "/"[1..] == "";
    }
    assert Like("%/", "\\%/") by {
      assert "%/"[1..] == "/" && "\\%/"[2..] == "/";
    }
    assert p[1..] == "\\%/" && p[1..][1..] == "%/";
    assert Like("%/", p);
    assert Like("\\%/", p);
    assert s + "/" == p;
  }

  lemma DeceptiveErrs(s: string) returns (cats: Table, t: CategoryId, a: CategoryId)
    requires s != "" && '/' !in s && !Literal(s) && !(Quotes(s) && MatchesItself(s))
    ensures Reachable(cats) && HasSlug(cats, s) && OthersPlain(cats, s) && Errs(cats, t, a)
  {
    if MatchesItself(s) {
      assert s != "\\" by {
        assert ("\\" + "/")[1] == '/';
      }
      cats, t, a := TwinErrs(s);
    } else {
      cats, t, a := OwnChildErrs(s);
    }
  }

  /** The part of a slug before a separator that is not its first character. */
  function Head(s: string): string {
    if s == "" then "" else [s[0]] + BeforeSlash(s[1..])
  }

  function BeforeSlash(s: string): string {
    if s == "" || s[0] == '/' then "" else [s[0]] + BeforeSlash(s[1..])
  }

  /** Special characters do not come before a separator, nor the backslash with the percent sign. */
  predicate Unmixed(s: string) {
    if '/' in s then Literal(Head(s)) else !('%' in s && '\\' in s)
  }

  /** For such a slug, among any clean ones, the test can err exactly when it is not clean. */
  lemma UnsafeIffUnclean(s: string)
    requires s != "" && Unmixed(s)
    ensures Unsafe(s) <==> !Clean(s)
  {
    if Clean(s) && Unsafe(s) {
      var cats, t, a :| Reachable(cats) && HasSlug(cats, s) && OthersClean(cats, s) && Errs(cats, t, a);
      PathIsTheParentChain(cats, t, a);
    } else if !Clean(s) {
      var cats, t, a := UncleanSlugErrs(s);
    }
  }

  lemma UncleanSlugErrs(s: string) returns (cats: Table, t: CategoryId, a: CategoryId)
    requires s != "" && Unmixed(s) && !Clean(s)
    ensures Reachable(cats) && HasSlug(cats, s) && OthersClean(cats, s) && Errs(cats, t, a)
  {
    if '/' in s {
      cats, t, a := SlashErrs(s);
    } else {
      if Quotes(s) && MatchesItself(s) {
        QuotesBackslash(s);
        WithoutPercent(s, s);
      }
      cats, t, a := DeceptiveErrs(s);
    }
  }

  /* Tables */

  function Root(slug: string): Category { Category(None, slug, "name", 0, slug, 0, true) }

  function Child(parent: CategoryId, path: string, slug: string): Category {
    Category(Some(parent), slug, "name", 1, path + "/" + slug, 0, true)
  }

  lemma OneMore(cats: Table, id: CategoryId, parent: Option<CategoryId>, slug: string)
    requires Reachable(cats) && id !in cats && slug != "" && !SlugTaken(cats, slug)
    requires parent.Some? ==> parent.value in cats
    ensures Reachable(CreateTx(cats, id, parent, slug, "name", 0, true).value)
  {
    var states, actions :| Leads(states, actions, cats);
    var a := Create(id, parent, slug, "name", 0, true);
    var after := CreateTx(cats, id, parent, slug, "name", 0, true).value;
    assert Step(cats, a, after);
    assert Leads(states + [after], actions + [a], after);
  }

  lemma TwoRoots(x: string, y: string)
    requires x != "" && y != "" && x != y
    ensures Reachable(map[0 := Root(x), 1 := Root(y)])
  {
    assert Leads([map[]], [], map[]);
    OneMore(map[], 0, None, x);
    OneMore(map[0 := Root(x)], 1, None, y);
    assert map[0 := Root(x)][1 := Root(y)] == map[0 := Root(x), 1 := Root(y)];
  }

  lemma ReachableIsValid(cats: Table)
    requires Reachable(cats)
    ensures Valid(cats)
  {
    var states, actions :| Leads(states, actions, cats);
    RunKeepsValid(states, actions, |actions|);
  }

  /* Separators */

  lemma {:induction false} BeforeSlashIsPrefix(s: string)
    ensures var x := BeforeSlash(s);
            && x <= s && '/' !in x && ('/' in s ==> |x| < |s| && s[|x|] == '/')
  {
    if s != "" && s[0] != '/' {
      BeforeSlashIsPrefix(s[1..]);
    }
  }

  /** `books/old` passes for a subcategory of `books`. */
  lemma SlashErrs(s: string) returns (cats: Table, t: CategoryId, a: CategoryId)
    requires '/' in s && Literal(Head(s)) && !Clean(s)
    ensures Reachable(cats) && HasSlug(cats, s) && OthersClean(cats, s) && Errs(cats, t, a)
  {
    var x := Head(s);
    BeforeSlashIsPrefix(s[1..]);
    FlatIsItsHead(s);
    assert forall k | 0 < k < |x| :: x[k] == BeforeSlash(s[1..])[k - 1];
    assert s[|x|] == s[1..][|x| - 1] == '/';
    assert x + "/" <= s;
    cats, t, a := map[0 := Root(x), 1 := Root(s)], 1, 0;
    assert Clean(x);
    TwoRoots(x, s);
    ReachableIsValid(cats);
    assert cats[1].slug == s && Chain(cats, 1) == [1];
    assert x + "/%" == (x + "/") + "%";
    LiteralLike(s, x + "/");
  }

  lemma {:induction false} WholeBeforeSlash(s: string)
    ensures '/' !in s ==> BeforeSlash(s) == s
  {
    if s != "" {
      WholeBeforeSlash(s[1..]);
    }
  }

  lemma FlatIsItsHead(s: string)
    requires s != ""
    ensures Flat(s) <==> '/' !in s[1..]
    ensures Flat(s) ==> Head(s) == s
  {
    assert forall k | 0 < k < |s| :: s[k] == s[1..][k - 1];
    WholeBeforeSlash(s[1..]);
  }

  /* Strangers */

  /** A text the pattern accepts: wildcards filled in, quotes taken off. */
  function Twin(p: string): string {
    if p == "" then ""
    else if p[0] == '\\' then if |p| >= 2 then [p[1]] + Twin(p[2..]) else ""
    else [if p[0] == '%' || p[0] == '_' then 'x' else p[0]] + Twin(p[1..])
  }

  /** One more character, and what accepts it in a pattern. */
  lemma LikeOneMore(c: char, s: string, head: string, pattern: string)
    requires Like(s, pattern)
    requires (head == [c] && c != '\\') || head == "_" || head == "%" || head == ['\\', c]
    ensures Like([c] + s, head + pattern)
  {
    var u, q := [c] + s, head + pattern;
    assert u[1..] == s && q[|head|..] == pattern;
    if head == "%" {
      assert Like(s, q);
    }
  }

  /** A pattern `p` at the end of which a backslash quotes the separator is no exception. */
  lemma {:induction false} TwinMatches(p: string, rest: string, pattern: string)
    requires Like(rest, pattern)
    ensures Like(Twin(p) + "/" + rest, p + "/" + pattern)
  {
    var u, q := Twin(p) + "/" + rest, p + "/" + pattern;
    hide Like;
    if p == "" || p == "\\" {
      LikeOneMore('/', rest, p + "/", pattern);
      assert u == ['/'] + rest;
    } else {
      var k := if p[0] == '\\' then 2 else 1;
      TwinMatches(p[k..], rest, pattern);
      LikeOneMore(Twin(p)[0], Twin(p[k..]) + "/" + rest, p[..k], p[k..] + "/" + pattern);
      assert u == [Twin(p)[0]] + (Twin(p[k..]) + "/" + rest);
      assert q == p[..k] + (p[k..] + "/" + pattern);
    }
  }

  lemma {:induction false} TwinIsPlain(p: string)
    requires '/' !in p && !Quotes(p)
    ensures Plain(Twin(p)) && (Twin(p) == "" ==> p == "" || p == "\\")
  {
    if p != "" && p != "\\" {
      var k := if p[0] == '\\' then 2 else 1;
      TwinIsPlain(p[k..]);
      if k == 2 {
        assert p[1] in [p[1]];
      }
    }
  }

  lemma RootsAndChild(s: string, twin: string, c: string, cats: Table)
    requires s != "" && twin != "" && c != "" && s != twin && s != c && twin != c
    requires cats == map[0 := Root(s), 1 := Root(twin), 2 := Child(1, twin, c)]
    ensures Reachable(cats) && Valid(cats) && Chain(cats, 2) == [2, 1]
  {
    TwoRoots(s, twin);
    OneMore(map[0 := Root(s), 1 := Root(twin)], 2, Some(1), c);
    assert map[0 := Root(s), 1 := Root(twin)][2 := Child(1, twin, c)] == cats;
    ReachableIsValid(cats);
    assert Chain(cats, 1) == [1];
  }

  /** With a slug `a_b`, a subcategory of `axb` passes for one of `a_b`. */
  lemma TwinErrs(s: string) returns (cats: Table, t: CategoryId, a: CategoryId)
    requires s != "" && s != "\\" && '/' !in s && !Literal(s) && !Quotes(s)
    ensures Reachable(cats) && HasSlug(cats, s) && OthersPlain(cats, s) && Errs(cats, t, a)
  {
    var twin := Twin(s);
    TwinIsPlain(s);
    var c := if twin == "c" then "d" else "c";
    cats, t, a := map[0 := Root(s), 1 := Root(twin), 2 := Child(1, twin, c)], 2, 0;
    assert cats[0].slug == s && Plain(c);
    RootsAndChild(s, twin, c, cats);
    hide Reachable;
    hide Chain;
    AnythingLikePercent(c);
    TwinMatches(s, c, "%");
    assert s + "/" + "%" == s + "/%";
  }

  /* Own subcategories */

  lemma {:induction false} NeedsSlash(u: string, p: string)
    requires '/' !in u && '/' !in p
    ensures !Like(u, p + "/%")
    decreases |u| + |p|
  {
    var q := p + "/%";
    if p != "" {
      assert q[1..] == p[1..] + "/%";
      if p[0] == '%' {
        NeedsSlash(u, p[1..]);
        if u != "" {
          NeedsSlash(u[1..], p);
        }
      } else if p[0] == '\\' {
        if |p| >= 2 {
          assert q[2..] == p[2..] + "/%";
          if u != "" {
            NeedsSlash(u[1..], p[2..]);
          }
        }
      } else if u != "" {
        NeedsSlash(u[1..], p[1..]);
      }
    }
  }

  /** What matches below a name matches it up to the separator. */
  lemma {:induction false} UpToTheSlash(u: string, w: string, p: string)
    requires '/' !in u && '/' !in w && '/' !in p
    requires Like(u + "/" + w, p + "/%")
    ensures Like(u + "/", p + "/")
    decreases |u| + |p|
  {
    var text, pattern, name, q := u + "/" + w, p + "/%", u + "/", p + "/";
    assert u != "" ==> text[1..] == u[1..] + "/" + w && name[1..] == u[1..] + "/";
    assert u == "" ==> text[1..] == w;
    if p == "" {
      assert pattern[0] == '/' && text[0] == '/' && q == "/" && name == "/";
      assert Like("/"[1..], "/"[1..]);
    } else {
      assert pattern[1..] == p[1..] + "/%" && q[1..] == p[1..] + "/";
      if p[0] == '%' {
        if Like(text, pattern[1..]) {
          UpToTheSlash(u, w, p[1..]);
        } else if u == "" {
          NeedsSlash(w, p);
        } else {
          UpToTheSlash(u[1..], w, p);
        }
      } else if p[0] == '\\' {
        if |p| == 1 {
          assert pattern[1] == '/' && text[0] == '/' && u == "" && q[1] == '/';
          assert name[1..] == "" && q[2..] == "";
        } else {
          assert pattern[2..] == p[2..] + "/%" && q[2..] == p[2..] + "/" && u != "";
          UpToTheSlash(u[1..], w, p[2..]);
        }
      } else if u == "" {
        NeedsSlash(w, p[1..]);
      } else {
        UpToTheSlash(u[1..], w, p[1..]);
      }
    }
  }

  /** A slug that does not stand for itself hides a category from its own subcategories. */
  lemma OwnChildErrs(s: string) returns (cats: Table, t: CategoryId, a: CategoryId)
    requires s != "" && '/' !in s && !Literal(s) && !MatchesItself(s)
    ensures Reachable(cats) && HasSlug(cats, s) && OthersPlain(cats, s) && Errs(cats, t, a)
  {
    cats, t, a := map[0 := Root(s), 1 := Child(0, s, "c")], 1, 0;
    assert cats[0].slug == s && Plain("c");
    assert Leads([map[]], [], map[]);
    OneMore(map[], 0, None, s);
    OneMore(map[0 := Root(s)], 1, Some(0), "c");
    assert map[0 := Root(s)][1 := Child(0, s, "c")] == cats;
    ReachableIsValid(cats);
    assert Chain(cats, 0) == [0] && Chain(cats, 1) == [1, 0];
    hide Reachable;
    hide Chain;
    if Like(s + "/" + "c", s + "/%") {
      UpToTheSlash(s, "c", s);
    }
    assert |s + "/" + "c"| > |s|;
  }

  lemma {:induction false} QuotesBackslash(p: string)
    requires Quotes(p)
    ensures '\\' in p
  {
    if p[0] != '\\' {
      QuotesBackslash(p[1..]);
    }
  }

  /** Without a percent sign no text is longer than its pattern, and quotes make it shorter. */
  lemma {:induction false} WithoutPercent(u: string, p: string)
    requires '%' !in p && '/' !in u && '/' !in p && Like(u + "/", p + "/")
    ensures |u| <= |p| && ('\\' in p ==> |u| < |p|)
  {
    var text, q := u + "/", p + "/";
    assert u != "" ==> text[1..] == u[1..] + "/";
    assert u == "" ==> text[1..] == "";
    if p == "" {
      assert q[1..] == "" && text[1..] == "";
    } else if p[0] == '\\' {
      if |p| == 1 {
        assert q[1] == '/' && text[0] == '/' && u == "";
      } else {
        assert q[2..] == p[2..] + "/" && u != "";
        WithoutPercent(u[1..], p[2..]);
      }
    } else if u != "" {
      assert q[1..] == p[1..] + "/";
      WithoutPercent(u[1..], p[1..]);
    }
  }

  /* Why a slug that quotes a special character and stands for itself is safe */

  lemma {:induction false} LikeConcat(u: string, p: string, v: string, q: string)
    requires Like(u, p) && Like(v, q)
    ensures Like(u + v, p + q)
    decreases |u| + |p|
  {
    assert p != "" ==> (p + q)[1..] == p[1..] + q;
    assert u != "" ==> (u + v)[1..] == u[1..] + v;
    if p == "" {
      assert u + v == v && p + q == q;
    } else if p[0] == '%' {
      if Like(u, p[1..]) {
        LikeConcat(u, p[1..], v, q);
      } else {
        LikeConcat(u[1..], p, v, q);
      }
    } else if p[0] == '\\' {
      assert (p + q)[2..] == p[2..] + q && (p + q)[1] == p[1];
      LikeConcat(u[1..], p[2..], v, q);
    } else {
      LikeConcat(u[1..], p[1..], v, q);
    }
  }

  lemma {:induction false} LiteralIsItself(x: string)
    requires Literal(x)
    ensures Like(x, x)
  {
    if x != "" {
      assert x[0] in x;
      LiteralIsItself(x[1..]);
    }
  }

  lemma {:induction false} QuotedIsKept(u: string, p: string)
    requires Quotes(p) && Like(u, p)
    ensures !Literal(u)
    decreases |u| + |p|
  {
    if p[0] == '%' {
      if Like(u, p[1..]) {
        QuotedIsKept(u, p[1..]);
      } else {
        QuotedIsKept(u[1..], p);
      }
    } else if p[0] == '\\' {
      assert u[0] == p[1] && u[0] in u && u[0] in [p[1]];
      if Literal([p[1]]) {
        QuotedIsKept(u[1..], p[2..]);
      }
    } else {
      QuotedIsKept(u[1..], p[1..]);
    }
  }

  lemma {:induction false} QuotesBefore(s: string, post: string)
    requires Quotes(s)
    ensures Quotes(s + post)
  {
    var k := if s[0] == '\\' && |s| >= 2 then 2 else 1;
    assert (s + post)[k..] == s[k..] + post;
    if |s| > 1 && (k == 1 || Literal([s[1]])) {
      QuotesBefore(s[k..], post);
    }
  }

  lemma {:induction false} QuotesAfter(pre: string, s: string)
    requires Literal(pre) && Quotes(s)
    ensures Quotes(pre + s)
  {
    if pre == "" {
      assert pre + s == s;
    } else {
      assert pre[0] in pre && (pre + s)[1..] == pre[1..] + s;
      QuotesAfter(pre[1..], s);
    }
  }

  /** Literal text at the end of a pattern is somewhere in what it matches. */
  lemma {:induction false} TailIsThere(u: string, p: string, tail: string) returns (k: nat)
    requires tail != "" && Literal(tail) && Like(u, p + (tail + "%"))
    ensures k <= |u| && tail <= u[k..]
    decreases |u| + |p|
  {
    var q := p + (tail + "%");
    if p == "" {
      assert q == tail + "%";
      LiteralLike(u, tail);
      k := 0;
    } else if p == "\\" {
      assert q[1] == tail[0] && q[2..] == tail[1..] + "%";
      LiteralLike(u[1..], tail[1..]);
      assert tail == [tail[0]] + tail[1..] && u == [u[0]] + u[1..];
      k := 0;
    } else {
      var j := if p[0] == '\\' then 2 else 1;
      assert q[j..] == p[j..] + (tail + "%");
      if p[0] == '%' && Like(u, q[1..]) {
        k := TailIsThere(u, p[1..], tail);
      } else {
        k := TailIsThere(u[1..], if p[0] == '%' then p else p[j..], tail);
        assert u[1..][k..] == u[k + 1..];
        k := k + 1;
      }
    }
  }

  lemma SlugIsThere(u: string, p: string, slug: string) returns (x: string, y: string)
    requires Literal(slug) && Like(u, p + ("/" + slug + "/" + "%"))
    ensures u == x + "/" + slug + "/" + y
  {
    var tail := "/" + slug + "/";
    var k := TailIsThere(u, p, tail);
    x, y := u[..k], u[k + |tail|..];
    assert u[k..] == tail + y;
  }

  ghost predicate NoSeparators(cats: Table) {
    forall id :: id in cats ==> '/' !in cats[id].slug
  }

  /** Without the last segment, what stood between two separators still does, or is the last one now. */
  lemma StillBetween(above: string, last: string, x: string, slug: string, y: string) returns (z: string)
    requires '/' !in last && above + "/" + last == x + "/" + slug + "/" + y
    ensures above == x + "/" + slug || above == x + "/" + slug + "/" + z
  {
    var path, e := above + "/" + last, |x| + |slug| + 1;
    assert path[e] == '/';
    assert forall j | |above| < j < |path| :: path[j] == last[j - |above| - 1];
    assert above == path[..|above|] && path[..e] == x + "/" + slug;
    z := if e < |above| then above[e + 1..] else "";
    if e < |above| {
      assert above == path[..e] + "/" + z;
    }
  }

  /** What stands between two separators of a path is the slug of an ancestor. */
  lemma {:induction false} SegmentIsAncestor(cats: Table, t: CategoryId, a: CategoryId, x: string, y: string)
    requires Valid(cats) && NoSeparators(cats) && t in cats && a in cats
    requires cats[t].path == x + "/" + cats[a].slug + "/" + y
    ensures a in Chain(cats, t)
    decreases cats[t].level
  {
    assert Placed(cats, t);
    assert cats[t].path[|x|] in cats[t].path;
    if cats[t].parent.Some? {
      var p := cats[t].parent.value;
      var z := StillBetween(cats[p].path, cats[t].slug, x, cats[a].slug, y);
      if cats[p].path == x + "/" + cats[a].slug {
        LastSegment(cats, p, x, cats[a].slug);
        OnChain(cats, p);
      } else {
        SegmentIsAncestor(cats, p, a, x, z);
      }
    }
  }

  lemma OnChain(cats: Table, id: CategoryId)
    requires Valid(cats) && id in cats
    ensures id in Chain(cats, id)
  {
  }

  /** A text has one last separator. */
  lemma SameTail(above: string, last: string, x: string, slug: string)
    requires '/' !in last && '/' !in slug && above + "/" + last == x + "/" + slug
    ensures last == slug
  {
    var path, m, k := above + "/" + last, |above|, |x|;
    assert path[m] == '/' && path[k] == '/';
    assert forall j | m < j < |path| :: path[j] == last[j - m - 1];
    assert forall j | k < j < |path| :: path[j] == slug[j - k - 1];
    assert path[m + 1..] == last && path[k + 1..] == slug;
  }

  lemma LastSegment(cats: Table, p: CategoryId, x: string, slug: string)
    requires Valid(cats) && NoSeparators(cats) && p in cats && '/' !in slug
    requires cats[p].path == x + "/" + slug
    ensures cats[p].slug == slug
  {
    assert Placed(cats, p);
    assert cats[p].path[|x|] in cats[p].path;
    if cats[p].parent.Some? {
      SameTail(cats[cats[p].parent.value].path, cats[p].slug, x, slug);
    }
  }

  /** A path with a special character in it goes through the one slug that has any. */
  lemma {:induction false} GoesThrough(cats: Table, t: CategoryId, c: CategoryId)
    requires Valid(cats) && t in cats && c in cats && OthersPlain(cats, cats[c].slug)
    ensures c in Chain(cats, t) || Literal(cats[t].path)
    decreases cats[t].level
  {
    assert Placed(cats, t);
    if cats[t].parent.Some? {
      GoesThrough(cats, cats[t].parent.value, c);
    }
  }

  lemma {:induction false} PathMatchesItself(cats: Table, id: CategoryId, s: string)
    requires Valid(cats) && id in cats && OthersPlain(cats, s) && MatchesItself(s)
    ensures Like(cats[id].path + "/", cats[id].path + "/")
    decreases cats[id].level
  {
    assert Placed(cats, id);
    var slug := cats[id].slug;
    if slug != s {
      LiteralIsItself(slug + "/");
    }
    if cats[id].parent.Some? {
      var above := cats[cats[id].parent.value].path + "/";
      PathMatchesItself(cats, cats[id].parent.value, s);
      LikeConcat(above, above, slug + "/", slug + "/");
      assert above + (slug + "/") == cats[id].path + "/";
    }
  }

  /** The test finds every ancestor. */
  lemma AncestorsMatch(cats: Table, s: string, t: CategoryId, a: CategoryId)
    requires Valid(cats) && NoSeparators(cats) && OthersPlain(cats, s) && MatchesItself(s)
    requires t in cats && a in cats && a in Chain(cats, t)
    ensures PathMatches(cats[t].path, cats[a].path)
  {
    PrefixIsChain(cats, t, a);
    var path, above := cats[t].path, cats[a].path + "/";
    hide Chain;
    if path != cats[a].path {
      PathMatchesItself(cats, a, s);
      AnythingLikePercent(path[|above|..]);
      LikeConcat(above, above, path[|above|..], "%");
      hide Like;
      assert above + path[|above|..] == path && above + "%" == cats[a].path + "/%";
    }
  }

  /** And nothing else: a plain slug at the end of a pattern has to be in the path, and so has a
      quoted special character. */
  lemma OnlyAncestorsMatch(cats: Table, s: string, t: CategoryId, a: CategoryId)
    requires Valid(cats) && NoSeparators(cats) && OthersPlain(cats, s) && Quotes(s)
    requires t in cats && a in cats && PathMatches(cats[t].path, cats[a].path)
    ensures a in Chain(cats, t)
  {
    PrefixIsChain(cats, t, a);
    hide Chain;
    if cats[t].path != cats[a].path {
      if cats[a].slug == s {
        PatternQuotes(cats, a, s);
        QuotedIsKept(cats[t].path, cats[a].path + "/%");
        GoesThrough(cats, t, a);
      } else {
        PlainSlugIsThere(cats, t, a);
      }
    }
    hide Like;
  }

  lemma PlainSlugIsThere(cats: Table, t: CategoryId, a: CategoryId)
    requires Valid(cats) && NoSeparators(cats) && t in cats && a in cats && Literal(cats[a].slug)
    requires Like(cats[t].path, cats[a].path + "/%")
    ensures a in Chain(cats, t)
  {
    hide Like;
    hide Chain;
    assert Placed(cats, a);
    var path, above := cats[t].path, cats[a].path;
    if cats[a].parent.None? {
      assert above + "/%" == (above + "/") + "%";
      LiteralLike(path, above + "/");
      PrefixIsChain(cats, t, a);
    } else {
      var p := cats[cats[a].parent.value].path;
      assert above + "/%" == p + ("/" + cats[a].slug + "/" + "%");
      var x, y := SlugIsThere(path, p, cats[a].slug);
      SegmentIsAncestor(cats, t, a, x, y);
    }
  }

  lemma PatternQuotes(cats: Table, a: CategoryId, s: string)
    requires Valid(cats) && a in cats && OthersPlain(cats, s) && Quotes(s) && cats[a].slug == s
    ensures Quotes(cats[a].path + "/%")
  {
    assert Placed(cats, a);
    QuotesBefore(s, "/%");
    if cats[a].parent.Some? {
      var p := cats[a].parent.value;
      GoesThrough(cats, p, a);
      NotAbove(cats, a, p);
      QuotesAfter(cats[p].path + "/", s + "/%");
      assert (cats[p].path + "/") + (s + "/%") == cats[a].path + "/%";
    }
  }

  lemma {:induction false} LevelsFall(cats: Table, t: CategoryId, a: CategoryId)
    requires Valid(cats) && t in cats && a in Chain(cats, t)
    ensures a in cats && cats[a].level <= cats[t].level
    decreases cats[t].level
  {
    assert Placed(cats, t);
    if a != t {
      LevelsFall(cats, cats[t].parent.value, a);
    }
  }

  lemma NotAbove(cats: Table, a: CategoryId, p: CategoryId)
    requires Valid(cats) && a in cats && cats[a].parent == Some(p)
    ensures p in cats && a !in Chain(cats, p)
  {
    assert Placed(cats, a);
    if a in Chain(cats, p) {
      LevelsFall(cats, p, a);
    }
  }

  lemma NeverErrs(cats: Table, s: string, t: CategoryId, a: CategoryId)
    requires Valid(cats) && '/' !in s && OthersPlain(cats, s) && t in cats && a in cats
    requires Literal(s) || (Quotes(s) && MatchesItself(s))
    ensures PathMatches(cats[t].path, cats[a].path) <==> a in Chain(cats, t)
  {
    if Literal(s) {
      assert AllClean(cats) by {
        assert forall id :: id in cats ==> Plain(cats[id].slug);
      }
      PathIsTheParentChain(cats, t, a);
    } else {
      assert NoSeparators(cats);
      if a in Chain(cats, t) {
        AncestorsMatch(cats, s, t, a);
      }
      if PathMatches(cats[t].path, cats[a].path) {
        OnlyAncestorsMatch(cats, s, t, a);
      }
    }
  }
}
