/**
 * The bounded search of a directory tree (findEntries in butler-agent-filesystem-tools.ts): a depth-first walk that
 * stops early. A loop whose child filled the output still pushes one more match before it notices; the result
 * is nevertheless the first matches of the full walk.
 */
module DirectoryWalk {
  import opened Options

  datatype EntryType = File | Directory | Symlink | OtherType
  datatype Entry = Entry(path: string, name: string, entryType: EntryType)

  /** A finite tree; `children` is the sorted listing of a directory and is not looked at for anything else. */
  datatype Node = Node(entry: Entry, children: seq<Node>)

  const MAX_DEPTH: int := 5
  const DEFAULT_DEPTH: int := 2
  const DEFAULT_LIMIT: int := 100
  const MAX_LIMIT: int := 200

  function Truncated(x: real): int {
    if x >= 0.0 then x.Floor else -((-x).Floor)
  }

  /** clampInteger; None stands for a missing or non-finite number. */
  function Clamp(value: Option<real>, fallback: int, least: int, most: int): (n: int)
    requires least <= fallback <= most
    ensures least <= n <= most
    ensures value.None? ==> n == fallback
    ensures value.Some? ==>
              var x := value.value;
              && (x <= least as real ==> n == least) && (x >= most as real ==> n == most)
              && (least as real <= x <= most as real ==>
                    if x >= 0.0 then n as real <= x < n as real + 1.0 else n as real - 1.0 < x <= n as real)
  {
    if value.None? then fallback
    else
      var n := if Truncated(value.value) < least then least else Truncated(value.value);
      if n > most then most else n
  }

  // ---------------------------------------------------------------- the full walk

  function Descends(node: Node, depth: nat, maxDepth: nat): bool {
    node.entry.entryType == Directory && depth < maxDepth
  }

  /** Everything below, directories before what they hold, down to the depth bound. */
  function PreOrder(children: seq<Node>, depth: nat, maxDepth: nat): seq<Entry>
    decreases children, 0
  {
    if children == [] then [] else OneChild(children[0], depth, maxDepth) + PreOrder(children[1..], depth, maxDepth)
  }

  function OneChild(child: Node, depth: nat, maxDepth: nat): seq<Entry>
    decreases child, 1
  {
    [child.entry] + if Descends(child, depth, maxDepth) then PreOrder(child.children, depth + 1, maxDepth) else []
  }

  function Matching(wanted: Entry -> bool, entries: seq<Entry>): seq<Entry> {
    if entries == [] then []
    else if wanted(entries[0]) then [entries[0]] + Matching(wanted, entries[1..]) else Matching(wanted, entries[1..])
  }

  function FullWalk(root: Node, maxDepth: nat): seq<Entry> {
    [root.entry] + if maxDepth > 0 then PreOrder(root.children, 1, maxDepth) else []
  }

  function First<T>(limit: nat, s: seq<T>): seq<T> {
    if |s| > limit then s[..limit] else s
  }

  // ---------------------------------------------------------------- lemmas

  lemma {:induction false} MatchingOfSum(wanted: Entry -> bool, a: seq<Entry>, b: seq<Entry>)
    ensures Matching(wanted, a + b) == Matching(wanted, a) + Matching(wanted, b)
  {
    if a == [] {
      assert a + b == b;
    } else {
      MatchingOfSum(wanted, a[1..], b);
      assert (a + b)[1..] == a[1..] + b;
    }
  }

  lemma {:induction false} PreOrderOfSum(a: seq<Node>, b: seq<Node>, depth: nat, maxDepth: nat)
    ensures PreOrder(a + b, depth, maxDepth) == PreOrder(a, depth, maxDepth) + PreOrder(b, depth, maxDepth)
    decreases |a|
  {
    hide OneChild;
    if a == [] {
      assert a + b == b;
    } else {
      PreOrderOfSum(a[1..], b, depth, maxDepth);
      assert (a + b)[1..] == a[1..] + b;
    }
  }

  /** The path leads to the entry: through directories only, each step to a child. */
  ghost predicate LeadsTo(children: seq<Node>, path: seq<nat>, e: Entry)
    decreases |path|
  {
    path != [] && path[0] < |children| &&
    var child := children[path[0]];
    if |path| == 1 then child.entry == e
    else child.entry.entryType == Directory && LeadsTo(child.children, path[1..], e)
  }

  /** What the full walk lists is the root and whatever a path of at most `maxDepth` steps leads to. */
  lemma WalkReaches(root: Node, maxDepth: nat, e: Entry)
    ensures e in FullWalk(root, maxDepth)
            <==> e == root.entry || exists path :: |path| <= maxDepth && LeadsTo(root.children, path, e)
  {
    hide PreOrder;
    if maxDepth > 0 {
      ChildrenReach(root.children, 1, maxDepth, e);
    } else {
      assert forall path :: LeadsTo(root.children, path, e) ==> |path| > 0;
    }
  }

  lemma PathBegins(children: seq<Node>, path: seq<nat>, e: Entry)
    requires children != []
    ensures LeadsTo(children, path, e) ==> path != []
    ensures path != [] && path[0] == 0 ==> (LeadsTo(children, path, e) <==> LeadsTo([children[0]], path, e))
    ensures path != [] && path[0] > 0 ==>
              (LeadsTo(children, path, e) <==> LeadsTo(children[1..], [path[0] - 1] + path[1..], e))
    ensures LeadsTo([children[0]], path, e) ==> path != [] && path[0] == 0
  {
    if path != [] && path[0] > 0 { assert ([path[0] - 1] + path[1..])[1..] == path[1..]; }
  }

  lemma PathIsThere(children: seq<Node>, path: seq<nat>, e: Entry)
    ensures LeadsTo(children, path, e) ==> path != [] && children != []
  {
  }

  lemma {:induction false} ChildrenReach(children: seq<Node>, depth: nat, maxDepth: nat, e: Entry)
    requires depth <= maxDepth
    ensures e in PreOrder(children, depth, maxDepth)
            <==> exists path :: |path| <= maxDepth - depth + 1 && LeadsTo(children, path, e)
    decreases children, 0
  {
    hide OneChild, LeadsTo;
    var most := maxDepth - depth + 1;
    if children == [] {
      forall path ensures !LeadsTo(children, path, e) { PathIsThere(children, path, e); }
    } else {
      ChildReaches(children[0], depth, maxDepth, e);
      ChildrenReach(children[1..], depth, maxDepth, e);
      if path :| |path| <= most && LeadsTo(children, path, e) {
        PathBegins(children, path, e);
        assert path[0] > 0 ==> |[path[0] - 1] + path[1..]| <= most;
      }
      if path :| |path| <= most && LeadsTo([children[0]], path, e) {
        PathBegins(children, path, e);
      }
      if path :| |path| <= most && LeadsTo(children[1..], path, e) {
        PathIsThere(children[1..], path, e);
        var longer := [path[0] + 1] + path[1..];
        assert [longer[0] - 1] + longer[1..] == path;
        PathBegins(children, longer, e);
      }
    }
  }

  lemma {:induction false} ChildReaches(child: Node, depth: nat, maxDepth: nat, e: Entry)
    requires depth <= maxDepth
    ensures e in OneChild(child, depth, maxDepth)
            <==> exists path :: |path| <= maxDepth - depth + 1 && LeadsTo([child], path, e)
    decreases child, 1
  {
    hide PreOrder;
    assert LeadsTo([child], [0], e) <==> child.entry == e;
    forall path | |path| > 1 ensures LeadsTo([child], path, e)
                                     <==> path[0] == 0 && child.entry.entryType == Directory
                                          && LeadsTo(child.children, path[1..], e) { }
    if depth < maxDepth {
      ChildrenReach(child.children, depth + 1, maxDepth, e);
      if path :| |path| <= maxDepth - depth && LeadsTo(child.children, path, e) {
        assert ([0] + path)[1..] == path;
      }
    }
  }

  /** Once the limit is reached, nothing appended matters. */
  lemma FirstIgnoresTheRest<T>(limit: nat, a: seq<T>, b: seq<T>, c: seq<T>)
    requires First(limit, a) == First(limit, b)
    ensures First(limit, a + c) == First(limit, b + c)
    ensures |a| >= limit ==> First(limit, a) == First(limit, b + c)
  {
    if |a| > limit || |b| > limit {
      assert (a + c)[..limit] == First(limit, a + c);
    }
  }

  /** The matches of the first `i` children and what lies below them. */
  function Found(wanted: Entry -> bool, children: seq<Node>, depth: nat, maxDepth: nat): seq<Entry> {
    Matching(wanted, PreOrder(children, depth, maxDepth))
  }

  lemma FoundOfOneMore(wanted: Entry -> bool, children: seq<Node>, i: nat, depth: nat, maxDepth: nat)
    requires i < |children|
    ensures Found(wanted, children[..i + 1], depth, maxDepth)
         == Found(wanted, children[..i], depth, maxDepth)
            + (if wanted(children[i].entry) then [children[i].entry] else [])
            + (if Descends(children[i], depth, maxDepth) then Found(wanted, children[i].children, depth + 1, maxDepth)
               else [])
  {
    hide Descends;
    var below := if Descends(children[i], depth, maxDepth) then PreOrder(children[i].children, depth + 1, maxDepth)
      else [];
    assert children[..i + 1] == children[..i] + [children[i]];
    PreOrderOfSum(children[..i], [children[i]], depth, maxDepth);
    assert PreOrder([children[i]], depth, maxDepth) == [children[i].entry] + below;
    MatchingOfSum(wanted, PreOrder(children[..i], depth, maxDepth), [children[i].entry] + below);
    assert ([children[i].entry] + below)[1..] == below;
  }

  lemma FoundOfPrefix(wanted: Entry -> bool, children: seq<Node>, i: nat, depth: nat, maxDepth: nat)
    requires i <= |children|
    ensures Found(wanted, children, depth, maxDepth)
         == Found(wanted, children[..i], depth, maxDepth) + Found(wanted, children[i..], depth, maxDepth)
  {
    assert children == children[..i] + children[i..];
    PreOrderOfSum(children[..i], children[i..], depth, maxDepth);
    MatchingOfSum(wanted, PreOrder(children[..i], depth, maxDepth), PreOrder(children[i..], depth, maxDepth));
  }

  // ---------------------------------------------------------------- the walk

  class Search {
    const wanted: Entry -> bool
    const maxDepth: nat
    const limit: nat
    var output: seq<Entry>

    constructor (wanted: Entry -> bool, maxDepth: nat, limit: nat)
      ensures this.wanted == wanted && this.maxDepth == maxDepth && this.limit == limit && output == []
    {
      this.wanted, this.maxDepth, this.limit, output := wanted, maxDepth, limit, [];
    }

    /** All loops push to the same output; up to the limit it is what the full walk finds. */
    method Walk(children: seq<Node>, depth: nat)
      modifies this
      ensures First(limit, output) == First(limit, old(output) + Found(wanted, children, depth, maxDepth))
      decreases children
    {
      hide First, Found;
      ghost var before := output;
      Whole(children, depth);
      if |output| >= limit {
        FirstIgnoresTheRest(limit, output, output, Found(wanted, children, depth, maxDepth));
        return;
      }
      for i := 0 to |children|
        invariant First(limit, output) == First(limit, before + Found(wanted, children[..i], depth, maxDepth))
      {
        var child := children[i];
        ghost var done := before + Found(wanted, children[..i], depth, maxDepth);
        ghost var self := if wanted(child.entry) then [child.entry] else [];
        FirstIgnoresTheRest(limit, output, done, self);
        assert output + self == if wanted(child.entry) then output + [child.entry] else output;
        FoundOfPrefix(wanted, children, i, depth, maxDepth);
        FoundOfOneMore(wanted, children, i, depth, maxDepth);
        if wanted(child.entry) {
          output := output + [child.entry];
        }
        if |output| >= limit {
          StopsInTime(before, done, self, children, i, depth);
          return;
        }
        if child.entry.entryType == Directory && depth < maxDepth {
          ghost var found := output;
          Walk(child.children, depth + 1);
          FirstIgnoresTheRest(limit, found, done + self, Found(wanted, child.children, depth + 1, maxDepth));
        }
        OneMore(before, done, self, children, i, depth);
      }
      assert children[..|children|] == children;
    }

    lemma Whole(children: seq<Node>, depth: nat)
      ensures Found(wanted, children[..0], depth, maxDepth) == []
      ensures output + [] == output
    {
    }

    lemma StopsInTime(before: seq<Entry>, done: seq<Entry>, self: seq<Entry>, children: seq<Node>, i: nat, depth: nat)
      requires i < |children| && done == before + Found(wanted, children[..i], depth, maxDepth)
      requires self == if wanted(children[i].entry) then [children[i].entry] else []
      requires |output| >= limit && First(limit, output) == First(limit, done + self)
      ensures First(limit, output) == First(limit, before + Found(wanted, children, depth, maxDepth))
    {
      hide First, Found;
      FoundOfOneMore(wanted, children, i, depth, maxDepth);
      FoundOfPrefix(wanted, children, i + 1, depth, maxDepth);
      var below := if Descends(children[i], depth, maxDepth)
        then Found(wanted, children[i].children, depth + 1, maxDepth) else [];
      var rest := below + Found(wanted, children[i + 1..], depth, maxDepth);
      assert before + Found(wanted, children, depth, maxDepth) == done + self + rest;
      FirstIgnoresTheRest(limit, output, done + self, rest);
    }

    lemma OneMore(before: seq<Entry>, done: seq<Entry>, self: seq<Entry>, children: seq<Node>, i: nat, depth: nat)
      requires i < |children| && done == before + Found(wanted, children[..i], depth, maxDepth)
      requires self == if wanted(children[i].entry) then [children[i].entry] else []
      ensures before + Found(wanted, children[..i + 1], depth, maxDepth)
           == if Descends(children[i], depth, maxDepth)
              then done + self + Found(wanted, children[i].children, depth + 1, maxDepth) else done + self
    {
      hide Found, Descends;
      FoundOfOneMore(wanted, children, i, depth, maxDepth);
    }
  }

  /** For every tree, filter, depth and limit: exactly the first `limit` matches of the full walk, in its order. */
  method FindEntries(root: Node, wanted: Entry -> bool, depthAsked: Option<real>, limitAsked: Option<real>)
      returns (found: seq<Entry>)
    ensures var maxDepth, limit := Clamp(depthAsked, DEFAULT_DEPTH, 0, MAX_DEPTH),
                                   Clamp(limitAsked, DEFAULT_LIMIT, 1, MAX_LIMIT);
            found == First(limit, Matching(wanted, FullWalk(root, maxDepth)))
  {
    hide Clamp, PreOrder, First;
    var maxDepth, limit := Clamp(depthAsked, DEFAULT_DEPTH, 0, MAX_DEPTH),
                           Clamp(limitAsked, DEFAULT_LIMIT, 1, MAX_LIMIT);
    var search := new Search(wanted, maxDepth, limit);
    if wanted(root.entry) {
      search.output := [root.entry];
    }
    ghost var first := search.output;
    assert first == if wanted(root.entry) then [root.entry] else [];
    assert FullWalk(root, maxDepth)[1..] == if maxDepth > 0 then PreOrder(root.children, 1, maxDepth) else [];
    assert Matching(wanted, FullWalk(root, maxDepth)) == first + Matching(wanted, FullWalk(root, maxDepth)[1..]);
    if maxDepth > 0 && |search.output| < limit {
      search.Walk(root.children, 1);
    } else {
      FirstIgnoresTheRest(limit, first, first, Matching(wanted, FullWalk(root, maxDepth)[1..]));
      assert maxDepth == 0 ==> first + Matching(wanted, FullWalk(root, maxDepth)[1..]) == first;
    }
    found := First(limit, search.output);
  }
}
