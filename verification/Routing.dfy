/** Route order and choice, path prefixes and the weighted cluster split of `internal/gateway/routing.go`. */
module Routing {
  import opened Common
  import opened GatewayConfigs
  import opened WeightedPick
  import opened Strategies

  datatype Compiled = Compiled(config: Route, order: nat)

  // ------------------------------------------------------------ the order of routes

  /** Higher priority first, then exact paths, then longer prefixes, then declaration order. */
  predicate Before(a: Compiled, b: Compiled) {
    var x, y := a.config, b.config;
    var exactX, exactY := x.match_.pathExact != "", y.match_.pathExact != "";
    var lenX, lenY := |x.match_.pathPrefix|, |y.match_.pathPrefix|;
    if x.priority != y.priority then x.priority > y.priority
    else if exactX != exactY then exactX
    else if lenX != lenY then lenX > lenY
    else a.order < b.order
  }

  lemma BeforeIsTotal(a: Compiled, b: Compiled)
    requires a.order != b.order
    ensures Before(a, b) <==> !Before(b, a)
  {}

  lemma BeforeIsTransitive(a: Compiled, b: Compiled, c: Compiled)
    requires Before(a, b) && Before(b, c)
    ensures Before(a, c)
  {}

  predicate InOrder(routes: seq<Compiled>) {
    forall i, j | 0 <= i < j < |routes| :: Before(routes[i], routes[j])
  }

  /** The routes as declared, each with its position. */
  function Declared(values: seq<Route>): (rs: seq<Compiled>)
    ensures |rs| == |values| && forall i | 0 <= i < |values| :: rs[i] == Compiled(values[i], i)
  {
    seq(|values|, i requires 0 <= i < |values| => Compiled(values[i], i))
  }

  predicate Arranges(routes: seq<Compiled>, values: seq<Route>) {
    InOrder(routes) && multiset(routes) == multiset(Declared(values))
  }

  /** Builds the list and sorts it: each route in turn goes in front of the first one it comes before. */
  method CompileRoutes(values: seq<Route>) returns (routes: seq<Compiled>)
    ensures Arranges(routes, values)
  {
    routes := [];
    for index := 0 to |values|
      invariant InOrder(routes)
      invariant multiset(routes) == multiset(Declared(values)[..index])
      invariant forall i | 0 <= i < |routes| :: routes[i].order < index
    {
      var route := Compiled(values[index], index);
      ghost var before := routes;
      routes := InsertRoute(routes, route);
      InsertedMultiset(before, route, routes, values, index);
    }
    assert Declared(values)[..|values|] == Declared(values);
  }

  lemma InsertedMultiset(before: seq<Compiled>, route: Compiled, after: seq<Compiled>, values: seq<Route>, index: nat)
    requires index < |values| && route == Compiled(values[index], index)
    requires multiset(after) == multiset(before) + multiset{route}
    requires multiset(before) == multiset(Declared(values)[..index])
    requires forall i | 0 <= i < |before| :: before[i].order < index
    ensures multiset(after) == multiset(Declared(values)[..index + 1])
    ensures forall i | 0 <= i < |after| :: after[i].order < index + 1
  {
    assert Declared(values)[..index + 1] == Declared(values)[..index] + [route];
    forall i | 0 <= i < |after| ensures after[i].order < index + 1 {
      assert after[i] in multiset(after);
      assert after[i] == route || after[i] in multiset(before);
    }
  }

  method InsertRoute(routes: seq<Compiled>, route: Compiled) returns (r: seq<Compiled>)
    requires InOrder(routes) && forall i | 0 <= i < |routes| :: routes[i].order != route.order
    ensures InOrder(r) && multiset(r) == multiset(routes) + multiset{route}
  {
    var k := |routes|;
    while k > 0 && Before(route, routes[k - 1])
      invariant 0 <= k <= |routes|
      invariant forall i | k <= i < |routes| :: Before(route, routes[i])
    {
      k := k - 1;
    }
    r := routes[..k] + [route] + routes[k..];
    InsertInOrder(routes, route, k);
    assert routes == routes[..k] + routes[k..];
  }

  lemma InsertInOrder(routes: seq<Compiled>, route: Compiled, k: nat)
    requires InOrder(routes) && k <= |routes| && (forall i | 0 <= i < |routes| :: routes[i].order != route.order)
    requires forall i | k <= i < |routes| :: Before(route, routes[i])
    requires k > 0 ==> !Before(route, routes[k - 1])
    ensures InOrder(routes[..k] + [route] + routes[k..])
  {
    forall i | 0 <= i < k ensures Before(routes[i], route) {
      BeforeIsTotal(routes[k - 1], route);
      if i < k - 1 {
        BeforeIsTransitive(routes[i], routes[k - 1], route);
      }
    }
  }

  // ------------------------------------------------------------ the first match is the best match

  type Matcher = Route -> bool

  /** The loop that serves a request takes the first compiled route that matches. */
  method SelectRoute(routes: seq<Compiled>, matches: Matcher) returns (selected: Option<Compiled>)
    ensures selected.None? ==> forall i | 0 <= i < |routes| :: !matches(routes[i].config)
    ensures selected.Some? ==> exists k: nat :: FirstMatch(routes, matches, k) && selected.value == routes[k]
  {
    selected := None;
    var i := 0;
    while i < |routes|
      invariant 0 <= i <= |routes|
      invariant forall j | 0 <= j < i :: !matches(routes[j].config)
    {
      if matches(routes[i].config) {
        assert FirstMatch(routes, matches, i);
        return Some(routes[i]);
      }
      i := i + 1;
    }
  }

  ghost predicate FirstMatch(routes: seq<Compiled>, matches: Matcher, k: nat) {
    k < |routes| && matches(routes[k].config) && forall j | 0 <= j < k :: !matches(routes[j].config)
  }

  /** `best` is declared, matches, and comes before every other declared route that matches. */
  ghost predicate Best(values: seq<Route>, matches: Matcher, best: Compiled) {
    && best.order < |values| && best == Compiled(values[best.order], best.order) && matches(best.config)
    && forall i | 0 <= i < |values| && matches(values[i]) && i != best.order :: Before(best, Declared(values)[i])
  }

  lemma ArrangedMember(routes: seq<Compiled>, values: seq<Route>, i: nat) returns (k: nat)
    requires Arranges(routes, values) && i < |values|
    ensures k < |routes| && routes[k] == Declared(values)[i]
  {
    assert Declared(values)[i] in multiset(routes);
    k :| 0 <= k < |routes| && routes[k] == Declared(values)[i];
  }

  lemma MemberDeclared(routes: seq<Compiled>, values: seq<Route>, k: nat)
    requires Arranges(routes, values) && k < |routes|
    ensures routes[k].order < |values| && routes[k] == Compiled(values[routes[k].order], routes[k].order)
  {
    assert routes[k] in multiset(Declared(values));
  }

  /** Whatever matching means: the first match in the compiled list is the best match among the declared routes. */
  lemma FirstIsBest(routes: seq<Compiled>, values: seq<Route>, matches: Matcher, k: nat)
    requires Arranges(routes, values) && FirstMatch(routes, matches, k)
    ensures Best(values, matches, routes[k])
  {
    MemberDeclared(routes, values, k);
    forall i | 0 <= i < |values| && matches(values[i]) && i != routes[k].order
      ensures Before(routes[k], Declared(values)[i])
    {
      var at := ArrangedMember(routes, values, i);
    }
  }

  lemma NoMatchMeansNone(routes: seq<Compiled>, values: seq<Route>, matches: Matcher)
    requires Arranges(routes, values) && forall i | 0 <= i < |routes| :: !matches(routes[i].config)
    ensures forall i | 0 <= i < |values| :: !matches(values[i])
  {
    forall i | 0 <= i < |values| ensures !matches(values[i]) {
      var k := ArrangedMember(routes, values, i);
    }
  }

  /**
   The best match field by field: no match has a higher priority; among those of its priority, none is exact
   unless it is; among those, none has a longer prefix; among those, none is declared earlier.
   */
  predicate BestByFields(values: seq<Route>, matches: Matcher, k: nat) {
    && k < |values| && matches(values[k])
    && forall i | 0 <= i < |values| && matches(values[i]) ::
         && values[i].priority <= values[k].priority
         && (values[i].priority == values[k].priority && values[i].match_.pathExact != "" ==> values[k].match_.pathExact != "")
         && (values[i].priority == values[k].priority && (values[i].match_.pathExact == "" <==> values[k].match_.pathExact == "") ==>
               && |values[i].match_.pathPrefix| <= |values[k].match_.pathPrefix|
               && (|values[i].match_.pathPrefix| == |values[k].match_.pathPrefix| ==> k <= i))
  }

  lemma BestIsByFields(values: seq<Route>, matches: Matcher, best: Compiled)
    requires Best(values, matches, best)
    ensures BestByFields(values, matches, best.order)
  {
    forall i | 0 <= i < |values| && matches(values[i])
      ensures values[i].priority <= values[best.order].priority
    {
      if i != best.order { assert Before(best, Declared(values)[i]); }
    }
  }

  /** Compiling the routes and taking the first match: none exactly if no declared route matches, else the best one. */
  method ChooseRoute(values: seq<Route>, matches: Matcher) returns (selected: Option<Compiled>)
    ensures selected.None? <==> forall i | 0 <= i < |values| :: !matches(values[i])
    ensures selected.Some? ==> Best(values, matches, selected.value) && BestByFields(values, matches, selected.value.order)
  {
    var routes := CompileRoutes(values);
    selected := SelectRoute(routes, matches);
    if selected.None? {
      NoMatchMeansNone(routes, values, matches);
    } else {
      ghost var k: nat :| FirstMatch(routes, matches, k) && selected.value == routes[k];
      FirstIsBest(routes, values, matches, k);
      BestIsByFields(values, matches, selected.value);
      assert matches(values[selected.value.order]);
    }
  }

  lemma BestIsUnique(values: seq<Route>, matches: Matcher, a: Compiled, b: Compiled)
    requires Best(values, matches, a) && Best(values, matches, b)
    ensures a == b
  {
    if a.order != b.order {
      assert Before(a, Declared(values)[b.order]) && Before(b, Declared(values)[a.order]);
      BeforeIsTotal(a, b);
    }
  }

  // ------------------------------------------------------------ path prefixes are whole segments

  predicate StartsWith(s: string, prefix: string) {
    |prefix| <= |s| && s[..|prefix|] == prefix
  }

  predicate EndsInSlash(s: string) { s != "" && s[|s| - 1] == '/' }

  predicate PathPrefixMatch(path: string, prefix: string) {
    if prefix == "/" then StartsWith(path, "/")
    else StartsWith(path, prefix) && (|path| == |prefix| || EndsInSlash(prefix) || path[|prefix|] == '/')
  }

  /** The segments between slashes; never empty. */
  function Split(s: string): (xs: seq<string>)
    ensures xs != []
  {
    if s == "" then [""]
    else if s[0] == '/' then [""] + Split(s[1..])
    else Extended(s[0], Split(s[1..]))
  }

  function Extended(c: char, xs: seq<string>): seq<string>
    requires xs != []
  {
    [[c] + xs[0]] + xs[1..]
  }

  function Join(xs: seq<string>): string
    requires xs != []
  {
    if |xs| == 1 then xs[0] else xs[0] + "/" + Join(xs[1..])
  }

  lemma JoinExtended(c: char, xs: seq<string>)
    requires xs != []
    ensures Join(Extended(c, xs)) == [c] + Join(xs)
  {
    assert Extended(c, xs)[1..] == xs[1..];
    if |xs| > 1 {
      assert [c] + xs[0] + "/" + Join(xs[1..]) == [c] + (xs[0] + "/" + Join(xs[1..]));
    }
  }

  lemma JoinEmptyFirst(xs: seq<string>)
    requires xs != []
    ensures Join([""] + xs) == "/" + Join(xs)
  {
    assert ([""] + xs)[1..] == xs;
  }

  lemma ExtendedJoins(c: char, xs: seq<string>, ys: seq<string>)
    requires xs != []
    ensures Extended(c, xs + ys) == Extended(c, xs) + ys
  {
    assert (xs + ys)[1..] == xs[1..] + ys;
  }

  lemma {:induction false} JoinSplit(s: string)
    ensures Join(Split(s)) == s
  {
    if s != "" {
      JoinSplit(s[1..]);
      if s[0] == '/' {
        JoinEmptyFirst(Split(s[1..]));
      } else {
        JoinExtended(s[0], Split(s[1..]));
      }
      assert s == [s[0]] + s[1..];
    }
  }

  lemma {:induction false} SplitJoins(a: string, b: string)
    ensures Split(a + "/" + b) == Split(a) + Split(b)
  {
    var whole := a + "/" + b;
    if a == "" {
      assert whole[1..] == b && whole[0] == '/';
    } else {
      SplitJoins(a[1..], b);
      assert whole[1..] == a[1..] + "/" + b && whole[0] == a[0];
      if a[0] == '/' {
        assert [""] + (Split(a[1..]) + Split(b)) == [""] + Split(a[1..]) + Split(b);
      } else {
        ExtendedJoins(a[0], Split(a[1..]), Split(b));
      }
    }
  }

  lemma {:induction false} JoinParts(xs: seq<string>, ys: seq<string>)
    requires xs != [] && ys != []
    ensures Join(xs + ys) == Join(xs) + "/" + Join(ys)
  {
    assert (xs + ys)[1..] == xs[1..] + ys;
    if |xs| > 1 {
      JoinParts(xs[1..], ys);
    } else {
      assert xs[1..] + ys == ys;
    }
  }

  /** `path` is `base` or goes on below it. */
  lemma BelowHasSegments(base: string, rest: string)
    ensures Split(base) < Split(base + "/" + rest)
  {
    SplitJoins(base, rest);
  }

  lemma SegmentsGoBelow(path: string, base: string) returns (rest: string)
    requires Split(base) < Split(path)
    ensures path == base + "/" + rest
  {
    var p, q := Split(base), Split(path);
    JoinSplit(base);
    JoinSplit(path);
    assert q == p + q[|p|..];
    JoinParts(p, q[|p|..]);
    rest := Join(q[|p|..]);
  }

  lemma SameSegments(path: string, base: string)
    requires Split(base) == Split(path)
    ensures path == base
  {
    JoinSplit(base);
    JoinSplit(path);
  }

  lemma MatchGoesBelow(path: string, prefix: string)
    requires !EndsInSlash(prefix) && PathPrefixMatch(path, prefix) && |path| > |prefix|
    ensures path == prefix + "/" + path[|prefix| + 1..]
  {}

  lemma BelowMatches(prefix: string, rest: string)
    requires !EndsInSlash(prefix)
    ensures PathPrefixMatch(prefix + "/" + rest, prefix)
  {
    assert (prefix + "/" + rest)[..|prefix|] == prefix;
  }

  /** A prefix that does not end in a slash matches exactly the paths whose first segments are its own. */
  lemma PrefixIsSegments(path: string, prefix: string)
    requires !EndsInSlash(prefix)
    ensures PathPrefixMatch(path, prefix) <==> Split(prefix) <= Split(path)
  {
    if PathPrefixMatch(path, prefix) {
      if |path| > |prefix| {
        MatchGoesBelow(path, prefix);
        BelowHasSegments(prefix, path[|prefix| + 1..]);
      } else {
        assert path == prefix;
      }
    } else if Split(prefix) == Split(path) {
      SameSegments(path, prefix);
    } else if Split(prefix) < Split(path) {
      var rest := SegmentsGoBelow(path, prefix);
      BelowMatches(prefix, rest);
    }
  }

  lemma DirectoryMatchIsPrefix(path: string, directory: string)
    ensures PathPrefixMatch(path, directory + "/") <==> StartsWith(path, directory + "/")
  {}

  lemma BelowStarts(directory: string, rest: string)
    ensures StartsWith(directory + "/" + rest, directory + "/")
  {
    assert (directory + "/" + rest)[..|directory| + 1] == directory + "/";
  }

  /** One that does matches exactly the paths below it, the bare directory path included. */
  lemma PrefixIsDirectory(path: string, directory: string)
    ensures PathPrefixMatch(path, directory + "/") <==> Split(directory) < Split(path)
  {
    var prefix := directory + "/";
    DirectoryMatchIsPrefix(path, directory);
    if StartsWith(path, prefix) {
      assert path == directory + "/" + path[|prefix|..];
      BelowHasSegments(directory, path[|prefix|..]);
    } else if Split(directory) < Split(path) {
      var rest := SegmentsGoBelow(path, directory);
      BelowStarts(directory, rest);
    }
  }

  // ------------------------------------------------------------ weighted clusters

  function TargetWeights(targets: seq<Target>): seq<nat> {
    Mapped((t: Target) => t.weight, targets)
  }

  class RouteSplit {
    const cluster: string
    const targets: seq<Target>
    var counter: Counter

    constructor (cluster: string, targets: seq<Target>)
      ensures this.cluster == cluster && this.targets == targets && counter == 0
    {
      this.cluster, this.targets, counter := cluster, targets, 0;
    }

    /** A single cluster wins outright; otherwise the ticket decides, and the walk always finds a target. */
    method ClusterId() returns (id: string)
      modifies this
      ensures cluster != "" ==> id == cluster && counter == old(counter)
      ensures cluster == "" && Sum(TargetWeights(targets)) == 0 ==> id == "" && counter == old(counter)
      ensures cluster == "" && Sum(TargetWeights(targets)) > 0 ==>
                && counter == Next(old(counter))
                && Ticket(TargetWeights(targets), old(counter)) < |targets|
                && id == targets[Ticket(TargetWeights(targets), old(counter))].cluster
    {
      if cluster != "" {
        return cluster;
      }
      var total := TotalOf(targets);
      if total == 0 {
        return "";
      }
      var position := counter % total;
      counter := Next(counter);
      var found := WalkTargets(targets, position);
      id := if found < |targets| then targets[found].cluster else "";
    }
  }

  method TotalOf(targets: seq<Target>) returns (total: nat)
    ensures total == Sum(TargetWeights(targets))
  {
    ghost var ws := TargetWeights(targets);
    total := 0;
    for i := 0 to |targets|
      invariant total == Sum(ws[..i])
    {
      SumAppend(ws[..i], ws[i]);
      assert ws[..i + 1] == ws[..i] + [ws[i]];
      total := total + targets[i].weight;
    }
    assert ws[..|ws|] == ws;
  }

  /** The target whose share holds the position, or the end of the list. */
  method WalkTargets(targets: seq<Target>, start: nat) returns (found: nat)
    ensures found == Pick(TargetWeights(targets), start)
  {
    ghost var ws := TargetWeights(targets);
    var position := start;
    for i := 0 to |targets|
      invariant position >= 0 && Pick(ws, start) == i + Pick(ws[i..], position)
    {
      assert ws[i..][1..] == ws[i + 1..];
      if position < targets[i].weight {
        return i;
      }
      position := position - targets[i].weight;
    }
    return |targets|;
  }

  lemma {:induction false} SumAppend(ws: seq<nat>, w: nat)
    ensures Sum(ws + [w]) == Sum(ws) + w
  {
    if ws != [] {
      assert (ws + [w])[1..] == ws[1..] + [w];
      SumAppend(ws[1..], w);
    }
  }

  /** Short of a counter wrap, every full round of requests gives each cluster exactly its weight. */
  lemma ClusterSplitIsExact(targets: seq<Target>, i: nat, c: Counter)
    requires i < |targets|
    requires var total := Sum(TargetWeights(targets)); total > 0 && (c + total <= Wrap || Wrap % total == 0)
    ensures Chosen(TargetWeights(targets), i, c, Sum(TargetWeights(targets))) == targets[i].weight
  {
    var ws := TargetWeights(targets);
    ChosenAreTickets(ws, i, c, Sum(ws));
    ExactlyProportional(ws, i, c);
  }
}
