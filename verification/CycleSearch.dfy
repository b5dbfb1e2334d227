// The search for cycles of scripts/project_facts.py: a three-colour depth-first
// search over the child lists of the migration graph.
module CycleSearch {
  import opened Ordering

  // children: a node -> the nodes that name it as their parent.
  type Graph<V> = map<V, seq<V>>

  // children.get(n, ())
  function Kids<V>(g: Graph<V>, n: V): seq<V> {
    if n in g then g[n] else []
  }

  ghost predicate Edge<V>(g: Graph<V>, u: V, v: V) {
    v in Kids(g, u)
  }

  ghost function Nodes<V>(g: Graph<V>): set<V> {
    g.Keys + set u, v | u in g && v in g[u] :: v
  }

  ghost predicate Walk<V>(g: Graph<V>, p: seq<V>) {
    forall i, j :: 0 <= i && i + 1 == j < |p| ==> Edge(g, p[i], p[j])
  }

  ghost predicate DirectedCycle<V>(g: Graph<V>, p: seq<V>) {
    |p| >= 2 && p[0] == p[|p| - 1] && Walk(g, p)
  }

  ghost predicate SimpleCycle<V>(g: Graph<V>, p: seq<V>) {
    DirectedCycle(g, p) && Distinct(p[..|p| - 1])
  }

  ghost predicate Acyclic<V(!new)>(g: Graph<V>) {
    forall p :: !DirectedCycle(g, p)
  }

  // Some reported cycle closes with the edge u -> v.
  ghost predicate ClosedBy<V(!new)>(cycles: seq<seq<V>>, u: V, v: V) {
    exists c :: c in cycles && |c| >= 2 && c[|c| - 2] == u && c[|c| - 1] == v
  }

  // The stack holds exactly the nodes of colour 1, rank exactly those of colour 2.
  ghost predicate Coloured<V(!new)>(color: map<V, nat>, stack: seq<V>, rank: map<V, nat>) {
    && Grey(color, stack)
    && Black(color, rank)
    && (forall n <- color :: color[n] == 1 || color[n] == 2)
  }

  ghost predicate Grey<V(!new)>(color: map<V, nat>, stack: seq<V>) {
    && Distinct(stack)
    && forall n :: n in stack <==> n in color && color[n] == 1
  }

  ghost predicate Black<V(!new)>(color: map<V, nat>, rank: map<V, nat>) {
    && (forall n :: n in rank <==> n in color && color[n] == 2)
    && (forall n <- rank :: rank[n] < |rank|)
  }

  lemma PopMembers<V(!new)>(stack: seq<V>)
    requires Distinct(stack) && stack != []
    ensures Distinct(stack[..|stack| - 1])
    ensures forall n :: n in stack[..|stack| - 1] <==> n in stack && n != stack[|stack| - 1]
  {
    assert stack == stack[..|stack| - 1] + [stack[|stack| - 1]];
  }

  lemma GreyPop<V(!new)>(color: map<V, nat>, stack: seq<V>)
    requires Grey(color, stack) && stack != []
    ensures var node := stack[|stack| - 1];
            node in color && color[node] == 1 && Grey(color[node := 2], stack[..|stack| - 1])
  {
    PopMembers(stack);
    assert stack[|stack| - 1] in stack;
  }

  lemma BlackPop<V(!new)>(color: map<V, nat>, rank: map<V, nat>, node: V)
    requires Black(color, rank) && node in color && color[node] != 2
    ensures node !in rank && Black(color[node := 2], rank[node := |rank|])
  {
    var rank' := rank[node := |rank|];
    assert rank'.Keys == rank.Keys + {node};
    assert |rank'| == |rank'.Keys| && |rank| == |rank.Keys|;
  }

  lemma ColouredPop<V(!new)>(color: map<V, nat>, stack: seq<V>, rank: map<V, nat>)
    requires Coloured(color, stack, rank) && stack != []
    ensures var node := stack[|stack| - 1];
            && node in color && node !in rank
            && Coloured(color[node := 2], stack[..|stack| - 1], rank[node := |rank|])
  {
    GreyPop(color, stack);
    BlackPop(color, rank, stack[|stack| - 1]);
  }

  // rank: the nodes coloured 2, numbered in the order they were popped.
  // Every edge out of such a node leads to one popped earlier, unless a
  // reported cycle closes with it.
  ghost predicate Settled<V(!new)>(g: Graph<V>, rank: map<V, nat>, closing: multiset<(V, V)>) {
    forall u, v :: u in rank && Edge(g, u, v) ==> Downward(rank, u, v) || (u, v) in closing
  }

  ghost predicate Downward<V>(rank: map<V, nat>, u: V, v: V) {
    u in rank && v in rank && rank[v] < rank[u]
  }

  // Edges from the node being scanned to the children seen so far.
  ghost predicate Scanned<V>(rank: map<V, nat>, closing: multiset<(V, V)>, node: V, kids: seq<V>, k: nat)
    requires k <= |kids|
  {
    forall j :: 0 <= j < k ==> kids[j] in rank || (node, kids[j]) in closing
  }

  ghost predicate Ranked<V>(roots: seq<V>, k: nat, rank: map<V, nat>)
    requires k <= |roots|
  {
    forall j :: 0 <= j < k ==> roots[j] in rank
  }

  lemma RankedNext<V>(roots: seq<V>, k: nat, rank: map<V, nat>, rank': map<V, nat>)
    requires k < |roots| && Ranked(roots, k, rank) && SubMap(rank, rank') && roots[k] in rank'
    ensures Ranked(roots, k + 1, rank')
  {
  }

  ghost predicate SubMap<V>(m: map<V, nat>, m': map<V, nat>) {
    forall n :: n in m ==> n in m' && m'[n] == m[n]
  }

  lemma ScannedNext<V(!new)>(rank: map<V, nat>, rank': map<V, nat>, closing: multiset<(V, V)>,
                             closing': multiset<(V, V)>, node: V, kids: seq<V>, k: nat)
    requires k < |kids| && Scanned(rank, closing, node, kids, k)
    requires SubMap(rank, rank') && closing <= closing'
    requires kids[k] in rank' || (node, kids[k]) in closing'
    ensures Scanned(rank', closing', node, kids, k + 1)
  {
  }

  lemma SettledNext<V(!new)>(g: Graph<V>, rank: map<V, nat>, closing: multiset<(V, V)>, node: V, kids: seq<V>)
    requires Settled(g, rank, closing) && node !in rank
    requires forall n :: n in rank ==> rank[n] < |rank|
    requires forall v :: Edge(g, node, v) ==> v in kids
    requires Scanned(rank, closing, node, kids, |kids|)
    ensures Settled(g, rank[node := |rank|], closing)
  {
    var rank' := rank[node := |rank|];
    forall v | Edge(g, node, v) ensures v in rank || (node, v) in closing {
      var j :| 0 <= j < |kids| && kids[j] == v;
    }
    forall u, v | u in rank' && Edge(g, u, v) ensures Downward(rank', u, v) || (u, v) in closing {
      if u != node { assert Downward(rank, u, v) || (u, v) in closing; }
    }
  }

  lemma MoreClosingSettles<V(!new)>(g: Graph<V>, rank: map<V, nat>, closing: multiset<(V, V)>, e: (V, V))
    requires Settled(g, rank, closing)
    ensures Settled(g, rank, closing + multiset{e})
  {
  }

  // The invariant of the search.
  ghost predicate SearchOk<V(!new)>(g: Graph<V>, color: map<V, nat>, stack: seq<V>, rank: map<V, nat>,
                                    closing: multiset<(V, V)>) {
    && Coloured(color, stack, rank)
    && color.Keys <= Nodes(g)
    && Walk(g, stack)
    && Settled(g, rank, closing)
  }

  lemma LeaveKeeps<V(!new)>(g: Graph<V>, color: map<V, nat>, stack: seq<V>, rank: map<V, nat>,
                            closing: multiset<(V, V)>, kids: seq<V>)
    requires SearchOk(g, color, stack, rank, closing) && stack != []
    requires forall v :: Edge(g, stack[|stack| - 1], v) ==> v in kids
    requires Scanned(rank, closing, stack[|stack| - 1], kids, |kids|)
    ensures var node := stack[|stack| - 1];
            && node in color && node !in rank
            && SearchOk(g, color[node := 2], stack[..|stack| - 1], rank[node := |rank|], closing)
  {
    var node := stack[|stack| - 1];
    ColouredPop(color, stack, rank);
    assert color[node := 2].Keys == color.Keys;
    SettledNext(g, rank, closing, node, kids);
  }

  /* --- which cycle is reported how often, and in which order --- */

  // How many of the cycles close with the edge u -> v.
  function Times<V(==)>(cycles: seq<seq<V>>, u: V, v: V): nat {
    if cycles == [] then 0
    else
      var c := cycles[|cycles| - 1];
      Times(cycles[..|cycles| - 1], u, v) + if |c| >= 2 && c[|c| - 2] == u && c[|c| - 1] == v then 1 else 0
  }

  ghost function Count<V>(closing: multiset<(V, V)>, u: V, v: V): nat {
    closing[(u, v)]
  }

  ghost predicate Tallied<V(!new)>(cycles: seq<seq<V>>, closing: multiset<(V, V)>) {
    forall u, v {:trigger Times(cycles, u, v)} :: Times(cycles, u, v) == Count(closing, u, v)
  }

  lemma TalliedNext<V(!new)>(cycles: seq<seq<V>>, closing: multiset<(V, V)>, c: seq<V>)
    requires Tallied(cycles, closing) && |c| >= 2
    ensures Tallied(cycles + [c], closing + multiset{(c[|c| - 2], c[|c| - 1])})
  {
    assert (cycles + [c])[..|cycles|] == cycles;
  }

  // A closing edge is reported once per time it stands in the child list.
  ghost predicate Counted<V(!new)>(g: Graph<V>, closing: multiset<(V, V)>, color: map<V, nat>, rank: map<V, nat>) {
    forall u, v {:trigger Count(closing, u, v)} :: Count(closing, u, v) > 0 ==>
      u in color && (u in rank ==> Count(closing, u, v) == multiset(Kids(g, u))[v])
  }

  lemma CountedNext<V(!new)>(g: Graph<V>, closing: multiset<(V, V)>, color: map<V, nat>, rank: map<V, nat>, node: V,
                             child: V)
    requires Counted(g, closing, color, rank) && node in color && node !in rank
    ensures Counted(g, closing + multiset{(node, child)}, color, rank)
  {
    var more := closing + multiset{(node, child)};
    forall u, v | Count(more, u, v) > 0
      ensures u in color && (u in rank ==> Count(more, u, v) == multiset(Kids(g, u))[v])
    {
      assert u != node ==> Count(more, u, v) == Count(closing, u, v);
    }
  }

  // The same while the children of node are being scanned.
  ghost predicate CountedNode<V(!new)>(closing: multiset<(V, V)>, stack: seq<V>, node: V, kids: seq<V>, k: nat)
    requires k <= |kids|
  {
    forall v {:trigger Count(closing, node, v)} ::
      Count(closing, node, v) == if v in stack then multiset(kids[..k])[v] else 0
  }

  // Every child seen so far is done with, or on the stack.
  ghost predicate Touched<V(!new)>(rank: map<V, nat>, stack: seq<V>, kids: seq<V>, k: nat)
    requires k <= |kids|
  {
    forall j :: 0 <= j < k ==> kids[j] in rank || kids[j] in stack
  }

  ghost predicate SameTimes<V(!new)>(closing: multiset<(V, V)>, closing': multiset<(V, V)>, sources: set<V>) {
    forall u, v {:trigger Count(closing', u, v)} :: u in sources ==> Count(closing', u, v) == Count(closing, u, v)
  }

  lemma CountedNodeNext<V(!new)>(closing: multiset<(V, V)>, closing': multiset<(V, V)>, stack: seq<V>, node: V,
                                 kids: seq<V>, k: nat)
    requires k < |kids| && CountedNode(closing, stack, node, kids, k)
    requires ScannedOnce(closing, closing', stack, node, kids[k])
    ensures CountedNode(closing', stack, node, kids, k + 1)
  {
    assert kids[..k + 1] == kids[..k] + [kids[k]];
  }

  ghost predicate ScannedOnce<V(!new)>(closing: multiset<(V, V)>, closing': multiset<(V, V)>, stack: seq<V>, node: V,
                                       child: V) {
    forall v {:trigger Count(closing', node, v)} ::
      Count(closing', node, v) == Count(closing, node, v) + if v == child && v in stack then 1 else 0
  }

  // The path from a root along the stack to the child that closes the cycle.
  ghost predicate Reported<V>(g: Graph<V>, p: seq<V>, c: seq<V>) {
    && |p| >= 2 && Walk(g, p) && Distinct(p[..|p| - 1])
    && exists at :: 0 <= at < |p| - 1 && p[at] == p[|p| - 1] && c == p[at..]
  }

  ghost predicate AllReported<V>(g: Graph<V>, paths: seq<seq<V>>, cycles: seq<seq<V>>) {
    && |paths| == |cycles|
    && forall n {:trigger Reported(g, paths[n], cycles[n])} :: 0 <= n < |paths| ==> Reported(g, paths[n], cycles[n])
  }

  // Paths in the order of their first difference; a path comes before its extensions.
  ghost predicate PathLeq<V>(p: seq<V>, q: seq<V>, leq: Order<V>) {
    p == [] || (q != [] && if p[0] == q[0] then PathLeq(p[1..], q[1..], leq) else leq(p[0], q[0]))
  }

  ghost predicate AscendingFrom<V>(paths: seq<seq<V>>, since: nat, leq: Order<V>) {
    forall m, n {:trigger PathLeq(paths[m], paths[n], leq)} :: since <= m < n < |paths| ==>
      PathLeq(paths[m], paths[n], leq)
  }

  lemma {:induction false} FirstDifference<V>(s: seq<V>, p: seq<V>, q: seq<V>, leq: Order<V>)
    requires |s| < |p| && |s| < |q| && p[..|s|] == s == q[..|s|]
    requires p[|s|] != q[|s|] && leq(p[|s|], q[|s|])
    ensures PathLeq(p, q, leq)
  {
    if s == [] {
    } else {
      assert p[1..][..|s| - 1] == s[1..] == q[1..][..|s| - 1];
      FirstDifference(s[1..], p[1..], q[1..], leq);
    }
  }

  lemma {:induction false} PathReflexive<V>(p: seq<V>, leq: Order<V>)
    ensures PathLeq(p, p, leq)
  {
    if p == [] {
    } else {
      PathReflexive(p[1..], leq);
    }
  }

  // The path leads from s on to kid, and stops there if kid is on s.
  ghost predicate Through<V>(s: seq<V>, kid: V, p: seq<V>) {
    |s| < |p| && p[..|s|] == s && p[|s|] == kid && (kid in s ==> |p| == |s| + 1)
  }

  lemma FoundIsReported<V(!new)>(g: Graph<V>, stack: seq<V>, at: nat)
    requires at < |stack| && Distinct(stack) && Walk(g, stack) && Edge(g, stack[|stack| - 1], stack[at])
    ensures Reported(g, stack + [stack[at]], stack[at..] + [stack[at]])
  {
    var p := stack + [stack[at]];
    assert p[..|p| - 1] == stack && p[at..] == stack[at..] + [stack[at]];
    forall i, j | 0 <= i && i + 1 == j < |p| ensures Edge(g, p[i], p[j]) {
      if j < |stack| { assert Edge(g, stack[i], stack[j]); }
    }
  }

  // The path's tail is a simple cycle.
  lemma FoundIsSimple<V(!new)>(g: Graph<V>, p: seq<V>, c: seq<V>)
    requires Reported(g, p, c)
    ensures SimpleCycle(g, c)
  {
    var at :| 0 <= at < |p| - 1 && p[at] == p[|p| - 1] && c == p[at..];
    TailWalks(g, p, at);
    assert c[..|c| - 1] == p[..|p| - 1][at..];
    TailDistinct(p[..|p| - 1], at);
  }

  lemma TailWalks<V>(g: Graph<V>, p: seq<V>, at: nat)
    requires at <= |p| && Walk(g, p)
    ensures Walk(g, p[at..])
  {
    forall i, j | 0 <= i && i + 1 == j < |p| - at ensures Edge(g, p[at..][i], p[at..][j]) {
      assert Edge(g, p[at + i], p[at + j]);
    }
  }

  lemma TailDistinct<V>(p: seq<V>, at: nat)
    requires at <= |p| && Distinct(p)
    ensures Distinct(p[at..])
  {
  }

  lemma AllSimple<V(!new)>(g: Graph<V>, paths: seq<seq<V>>, cycles: seq<seq<V>>)
    requires AllReported(g, paths, cycles)
    ensures forall c :: c in cycles ==> SimpleCycle(g, c)
  {
    forall c | c in cycles ensures SimpleCycle(g, c) {
      var n :| 0 <= n < |cycles| && cycles[n] == c;
      assert Reported(g, paths[n], cycles[n]);
      FoundIsSimple(g, paths[n], c);
    }
  }

  lemma ReportedNext<V>(g: Graph<V>, paths: seq<seq<V>>, cycles: seq<seq<V>>, p: seq<V>, c: seq<V>)
    requires AllReported(g, paths, cycles) && Reported(g, p, c)
    ensures AllReported(g, paths + [p], cycles + [c])
  {
    forall n | 0 <= n < |paths| + 1 ensures Reported(g, (paths + [p])[n], (cycles + [c])[n]) {
      assert n < |paths| ==> Reported(g, paths[n], cycles[n]);
    }
  }

  ghost predicate Continues<V>(s: seq<V>, kids: seq<V>, k: nat, p: seq<V>)
    requires k <= |kids|
  {
    exists j :: 0 <= j < k && Through(s, kids[j], p)
  }

  // All paths since then lead through the first k children.
  ghost predicate Explored<V>(s: seq<V>, kids: seq<V>, k: nat, paths: seq<seq<V>>, since: nat)
    requires k <= |kids|
  {
    forall n {:trigger Continues(s, kids, k, paths[n])} :: since <= n < |paths| ==> Continues(s, kids, k, paths[n])
  }

  ghost predicate AllThrough<V>(s: seq<V>, kid: V, paths: seq<seq<V>>, since: nat) {
    forall n {:trigger Through(s, kid, paths[n])} :: since <= n < |paths| ==> Through(s, kid, paths[n])
  }

  // The next child: unless its paths stop there, it was not among those before.
  lemma ExploreNext<V(!new)>(s: seq<V>, kids: seq<V>, k: nat, before: seq<seq<V>>, after: seq<seq<V>>, since: nat,
                             leq: Order<V>)
    requires k < |kids| && Ascending(kids, leq) && since <= |before| && before <= after
    requires Explored(s, kids, k, before, since) && AscendingFrom(before, since, leq)
    requires AllThrough(s, kids[k], after, |before|) && AscendingFrom(after, |before|, leq)
    requires kids[k] in kids[..k] && kids[k] !in s ==> after == before
    ensures Explored(s, kids, k + 1, after, since) && AscendingFrom(after, since, leq)
  {
    forall n | since <= n < |after| ensures Continues(s, kids, k + 1, after[n]) {
      if n < |before| {
        assert after[n] == before[n] && Continues(s, kids, k, before[n]);
        var j :| 0 <= j < k && Through(s, kids[j], before[n]);
        assert Through(s, kids[j], after[n]);
      } else {
        assert Through(s, kids[k], after[n]);
      }
    }
    forall m, n | since <= m < n < |after| ensures PathLeq(after[m], after[n], leq) {
      if n < |before| {
        assert after[m] == before[m] && after[n] == before[n] && PathLeq(before[m], before[n], leq);
      } else if m < |before| {
        assert after[m] == before[m] && Continues(s, kids, k, before[m]) && Through(s, kids[k], after[n]);
        var j :| 0 <= j < k && Through(s, kids[j], before[m]);
        assert kids[j] in kids[..k];
        if kids[j] == kids[k] {
          assert after[m] == s + [kids[k]] == after[n];
          PathReflexive(after[m], leq);
        } else {
          FirstDifference(s, after[m], after[n], leq);
        }
      } else {
        assert PathLeq(after[m], after[n], leq);
      }
    }
  }

  // What has been reported.
  ghost predicate FoundOk<V(!new)>(g: Graph<V>, color: map<V, nat>, cycles: seq<seq<V>>, rank: map<V, nat>,
                                   closing: multiset<(V, V)>, paths: seq<seq<V>>) {
    Counted(g, closing, color, rank) && Tallied(cycles, closing) && AllReported(g, paths, cycles)
  }

  lemma ReportKeeps<V(!new)>(g: Graph<V>, color: map<V, nat>, cycles: seq<seq<V>>, stack: seq<V>, rank: map<V, nat>,
                             closing: multiset<(V, V)>, paths: seq<seq<V>>, at: nat)
    requires SearchOk(g, color, stack, rank, closing) && FoundOk(g, color, cycles, rank, closing, paths)
    requires at < |stack| && Edge(g, stack[|stack| - 1], stack[at])
    ensures var more := closing + multiset{(stack[|stack| - 1], stack[at])};
            && SearchOk(g, color, stack, rank, more)
            && FoundOk(g, color, cycles + [stack[at..] + [stack[at]]], rank, more, paths + [stack + [stack[at]]])
  {
    var node, found := stack[|stack| - 1], stack[at..] + [stack[at]];
    assert node in stack && found[|found| - 2] == node;
    MoreClosingSettles(g, rank, closing, (node, stack[at]));
    TalliedNext(cycles, closing, found);
    CountedNext(g, closing, color, rank, node, stack[at]);
    FoundIsReported(g, stack, at);
    ReportedNext(g, paths, cycles, stack + [stack[at]], found);
  }

  lemma LeaveFound<V(!new)>(g: Graph<V>, color: map<V, nat>, cycles: seq<seq<V>>, stack: seq<V>, rank: map<V, nat>,
                            closing: multiset<(V, V)>, paths: seq<seq<V>>, kids: seq<V>)
    requires Grey(color, stack) && FoundOk(g, color, cycles, rank, closing, paths) && stack != []
    requires CountedNode(closing, stack, stack[|stack| - 1], kids, |kids|)
    requires multiset(kids) == multiset(Kids(g, stack[|stack| - 1]))
    ensures var node := stack[|stack| - 1];
            FoundOk(g, color[node := 2], cycles, rank[node := |rank|], closing, paths)
  {
    assert stack[|stack| - 1] in stack;
    CountedPop(g, closing, color, rank, stack, stack[|stack| - 1], kids);
  }

  lemma SortedKids<V(!new)>(g: Graph<V>, node: V, leq: Order<V>)
    requires TotalOrder(leq)
    ensures Ascending(Sorted(Kids(g, node), leq), leq)
    ensures forall v :: Edge(g, node, v) <==> v in Sorted(Kids(g, node), leq)
  {
    SameMembers(Sorted(Kids(g, node), leq), Kids(g, node));
    SortedAscends(Kids(g, node), leq);
  }

  // What the scan of one child does.
  ghost predicate ScanOk<V(!new)>(rank: map<V, nat>, rank': map<V, nat>, closing: multiset<(V, V)>,
                                  closing': multiset<(V, V)>, paths: seq<seq<V>>, paths': seq<seq<V>>, stack: seq<V>,
                                  node: V, child: V, leq: Order<V>) {
    && (child in rank' || ((node, child) in closing' && child in stack))
    && (child in rank ==> paths' == paths)
    && AllThrough(stack, child, paths', |paths|) && AscendingFrom(paths', |paths|, leq)
    && ScannedOnce(closing, closing', stack, node, child)
  }

  lemma ScanReports<V(!new)>(color: map<V, nat>, rank: map<V, nat>, closing: multiset<(V, V)>, paths: seq<seq<V>>,
                             stack: seq<V>, node: V, child: V, leq: Order<V>)
    requires Coloured(color, stack, rank) && child in color && color[child] == 1
    ensures ScanOk(rank, rank, closing, closing + multiset{(node, child)}, paths, paths + [stack + [child]], stack,
                   node, child, leq)
  {
  }

  lemma ScanVisits<V(!new)>(color: map<V, nat>, rank: map<V, nat>, rank': map<V, nat>, closing: multiset<(V, V)>,
                            closing': multiset<(V, V)>, paths: seq<seq<V>>, paths': seq<seq<V>>, stack: seq<V>, node: V,
                            child: V, leq: Order<V>)
    requires Coloured(color, stack, rank) && node in color && child !in color && child in rank'
    requires SameTimes(closing, closing', color.Keys)
    requires AllThrough(stack, child, paths', |paths|) && AscendingFrom(paths', |paths|, leq)
    ensures ScanOk(rank, rank', closing, closing', paths, paths', stack, node, child, leq)
  {
  }

  // What the scan of node's first k children has done.
  ghost predicate Progress<V(!new)>(rank: map<V, nat>, closing: multiset<(V, V)>, paths: seq<seq<V>>, stack: seq<V>,
                                    node: V, kids: seq<V>, k: nat, since: nat, leq: Order<V>)
    requires k <= |kids|
  {
    && Scanned(rank, closing, node, kids, k) && Touched(rank, stack, kids, k)
    && Explored(stack, kids, k, paths, since) && AscendingFrom(paths, since, leq)
    && CountedNode(closing, stack, node, kids, k)
  }

  lemma ProgressNext<V(!new)>(rank: map<V, nat>, rank': map<V, nat>, closing: multiset<(V, V)>,
                              closing': multiset<(V, V)>, paths: seq<seq<V>>, paths': seq<seq<V>>, stack: seq<V>,
                              node: V, kids: seq<V>, k: nat, since: nat, leq: Order<V>)
    requires k < |kids| && Progress(rank, closing, paths, stack, node, kids, k, since, leq)
    requires SubMap(rank, rank') && closing <= closing' && since <= |paths| && paths <= paths' && Ascending(kids, leq)
    requires ScanOk(rank, rank', closing, closing', paths, paths', stack, node, kids[k], leq)
    ensures Progress(rank', closing', paths', stack, node, kids, k + 1, since, leq)
  {
    ScannedNext(rank, rank', closing, closing', node, kids, k);
    CountedNodeNext(closing, closing', stack, node, kids, k);
    ExploreNext(stack, kids, k, paths, paths', since, leq);
  }

  // The scanned node's counts, once it is done with.
  lemma CountedPop<V(!new)>(g: Graph<V>, closing: multiset<(V, V)>, color: map<V, nat>, rank: map<V, nat>,
                            stack: seq<V>, node: V, kids: seq<V>)
    requires Counted(g, closing, color, rank) && CountedNode(closing, stack, node, kids, |kids|) && node in color
    requires multiset(kids) == multiset(Kids(g, node))
    ensures Counted(g, closing, color[node := 2], rank[node := |rank|])
  {
    assert kids[..|kids|] == kids;
  }

  lemma Met<V(!new)>(s: seq<V>, node: V, kids: seq<V>, paths: seq<seq<V>>, since: nat)
    requires node !in s && Explored(s + [node], kids, |kids|, paths, since)
    ensures AllThrough(s, node, paths, since)
  {
    forall n | since <= n < |paths| ensures Through(s, node, paths[n]) {
      assert Continues(s + [node], kids, |kids|, paths[n]);
      var j :| 0 <= j < |kids| && Through(s + [node], kids[j], paths[n]);
      assert paths[n][..|s| + 1] == s + [node];
      assert paths[n][..|s|] == s;
    }
  }

  // The variables the recursive closure `visit` shares with its caller.
  class CycleFinder<V(==, !new)> {
    const children: Graph<V>
    const leq: Order<V>
    var color: map<V, nat>
    var cycles: seq<seq<V>>
    var stack: seq<V>
    ghost var rank: map<V, nat>
    ghost var closing: multiset<(V, V)>  // edges that made a cycle be reported
    ghost var paths: seq<seq<V>>    // the stack and the child, at every report

    constructor (children: Graph<V>, leq: Order<V>)
      ensures this.children == children && this.leq == leq
      ensures Valid() && color == map[] && cycles == [] && stack == [] && rank == map[] && paths == []
    {
      this.children, this.leq := children, leq;
      color, cycles, stack, rank, closing, paths := map[], [], [], map[], multiset{}, [];
    }

    ghost predicate Valid()
      reads this
    {
      && SearchOk(children, color, stack, rank, closing)
      && FoundOk(children, color, cycles, rank, closing, paths)
    }

    twostate predicate Grown()
      reads this
    {
      && old(closing) <= closing
      && SubMap(old(rank), rank)
      && old(color).Keys <= color.Keys
      && stack == old(stack)
      && old(paths) <= paths
    }

    method Visit(node: V)
      requires Valid() && node !in color && node in Nodes(children)
      requires Walk(children, stack + [node]) && TotalOrder(leq)
      modifies this
      ensures Valid() && Grown() && node in rank && AscendingFrom(paths, |old(paths)|, leq)
      ensures SameTimes(old(closing), closing, old(color.Keys)) && AllThrough(stack, node, paths, |old(paths)|)
      decreases Nodes(children) - color.Keys, 1
    {
      Enter(node);
      var kids := Sorted(Kids(children, node), leq);
      ScanAll(node, kids);
      SortedKids(children, node, leq);
      Leave(kids);
      Met(old(stack), node, kids, paths, |old(paths)|);
    }

    // for child in sorted(...): ...
    method ScanAll(node: V, kids: seq<V>)
      requires Valid() && stack != [] && stack[|stack| - 1] == node && TotalOrder(leq)
      requires kids == Sorted(Kids(children, node), leq)
      requires CountedNode(closing, stack, node, kids, 0)
      modifies this
      ensures Valid() && Grown()
      ensures Progress(rank, closing, paths, stack, node, kids, |kids|, |old(paths)|, leq)
      ensures SameTimes(old(closing), closing, old(color.Keys) - {node})
      decreases Nodes(children) - color.Keys, 4
    {
      ghost var rank0, closing0, color0, paths0 := rank, closing, color, paths;
      var k := 0;
      while k < |kids|
        invariant k <= |kids|
        invariant Valid() && Within(rank0, closing0, color0, paths0, node) && stack == old(stack)
        invariant Progress(rank, closing, paths, stack, node, kids, k, |paths0|, leq)
      {
        ScanNext(node, kids, k, rank0, closing0, color0, paths0);
        k := k + 1;
      }
    }

    // How the search has grown since then, but for the edges of node.
    ghost predicate Within(rank0: map<V, nat>, closing0: multiset<(V, V)>, color0: map<V, nat>, paths0: seq<seq<V>>,
                           node: V)
      reads this
    {
      && closing0 <= closing && SubMap(rank0, rank) && color0.Keys <= color.Keys && paths0 <= paths
      && SameTimes(closing0, closing, color0.Keys - {node})
    }

    method ScanNext(node: V, kids: seq<V>, k: nat, ghost rank0: map<V, nat>, ghost closing0: multiset<(V, V)>,
                    ghost color0: map<V, nat>, ghost paths0: seq<seq<V>>)
      requires Valid() && stack != [] && stack[|stack| - 1] == node && TotalOrder(leq)
      requires kids == Sorted(Kids(children, node), leq) && k < |kids|
      requires Within(rank0, closing0, color0, paths0, node)
      requires Progress(rank, closing, paths, stack, node, kids, k, |paths0|, leq)
      modifies this
      ensures Valid() && Within(rank0, closing0, color0, paths0, node) && stack == old(stack)
      ensures Progress(rank, closing, paths, stack, node, kids, k + 1, |paths0|, leq)
      ensures color.Keys >= old(color.Keys)
      decreases Nodes(children) - color.Keys, 3
    {
      SortedKids(children, node, leq);
      Scan(node, kids[k]);
      ProgressNext(old(rank), rank, old(closing), closing, old(paths), paths, stack, node, kids, k, |paths0|, leq);
    }

    // One turn of the loop over the sorted children.
    method Scan(node: V, child: V)
      requires Valid() && stack != [] && stack[|stack| - 1] == node
      requires Edge(children, node, child) && TotalOrder(leq)
      modifies this
      ensures Valid() && Grown()
      ensures ScanOk(old(rank), rank, old(closing), closing, old(paths), paths, stack, node, child, leq)
      ensures SameTimes(old(closing), closing, old(color.Keys) - {node})
      decreases Nodes(children) - color.Keys, 2
    {
      ghost var color0, rank0, closing0, paths0 := color, rank, closing, paths;
      if child in color && color[child] == 1 {
        ScanReports(color, rank, closing, paths, stack, node, child, leq);
        Report(child);
      } else if child !in color {
        assert child in Nodes(children);
        Visit(child);
        ScanVisits(color0, rank0, rank, closing0, closing, paths0, paths, stack, node, child, leq);
      } else {
        assert color[child] == 2;
      }
    }

    // color[node] = 1; stack.append(node)
    method Enter(node: V)
      requires Valid() && node !in color && node in Nodes(children)
      requires Walk(children, stack + [node])
      modifies this`color, this`stack
      ensures Valid()
      ensures stack == old(stack) + [node] && color == old(color)[node := 1]
    {
      assert SearchOk(children, color[node := 1], stack + [node], rank, closing);
      assert FoundOk(children, color[node := 1], cycles, rank, closing, paths);
      color := color[node := 1];
      stack := stack + [node];
    }

    // stack.pop(); color[node] = 2
    method Leave(kids: seq<V>)
      requires Valid() && stack != []
      requires forall v :: Edge(children, stack[|stack| - 1], v) ==> v in kids
      requires Scanned(rank, closing, stack[|stack| - 1], kids, |kids|)
      requires multiset(kids) == multiset(Kids(children, stack[|stack| - 1]))
      requires CountedNode(closing, stack, stack[|stack| - 1], kids, |kids|)
      modifies this`color, this`stack, this`rank
      ensures Valid()
      ensures var node := old(stack[|stack| - 1]);
              && stack == old(stack[..|stack| - 1])
              && color == old(color)[node := 2]
              && node !in old(rank) && rank == old(rank)[node := |old(rank)|]
    {
      var node := stack[|stack| - 1];
      LeaveKeeps(children, color, stack, rank, closing, kids);
      LeaveFound(children, color, cycles, stack, rank, closing, paths, kids);
      stack := stack[..|stack| - 1];
      color := color[node := 2];
      rank := rank[node := |rank|];
    }

    // for node in sorted(children): if color.get(node) is None: visit(node, [])
    method VisitAll(roots: seq<V>)
      requires Valid() && stack == [] && paths == []
      requires TotalOrder(leq) && Ascending(roots, leq) && Distinct(roots)
      requires forall n <- roots :: n in children
      modifies this
      ensures Valid() && stack == []
      ensures forall n <- roots :: n in rank
      ensures AscendingFrom(paths, 0, leq)
    {
      var k := 0;
      while k < |roots|
        invariant k <= |roots|
        invariant Valid() && stack == []
        invariant Ranked(roots, k, rank)
        invariant Explored([], roots, k, paths, 0) && AscendingFrom(paths, 0, leq)
      {
        ghost var rank0, paths0 := rank, paths;
        if roots[k] !in color {
          Visit(roots[k]);
        }
        RankedNext(roots, k, rank0, rank);
        ExploreNext([], roots, k, paths0, paths, 0, leq);
        k := k + 1;
      }
    }

    // cycles.append(stack[stack.index(child):] + [child])
    method Report(child: V)
      requires Valid() && stack != []
      requires child in color && color[child] == 1
      requires Edge(children, stack[|stack| - 1], child)
      modifies this`cycles, this`closing, this`paths
      ensures Valid()
      ensures closing == old(closing) + multiset{(stack[|stack| - 1], child)} && paths == old(paths) + [stack + [child]]
    {
      var at := IndexOf(stack, child);
      ReportKeeps(children, color, cycles, stack, rank, closing, paths, at);
      cycles := cycles + [stack[at..] + [child]];
      closing := closing + multiset{(stack[|stack| - 1], child)};
      paths := paths + [stack + [child]];
    }
  }

  // Every reported list is a simple cycle, and every directed cycle of the
  // graph runs over an edge that closes a reported one. Such an edge is reported
  // once per time it stands in the child list, in the order of the search: `paths`
  // are the ways from the roots on which the cycles were met.
  method FindCycles<V(==, !new)>(children: Graph<V>, leq: Order<V>)
    returns (cycles: seq<seq<V>>, ghost paths: seq<seq<V>>)
    requires TotalOrder(leq)
    ensures forall c :: c in cycles ==> SimpleCycle(children, c)
    ensures forall p :: DirectedCycle(children, p) ==>
              exists i :: 0 < i < |p| && ClosedBy(cycles, p[i - 1], p[i])
    ensures cycles == [] <==> Acyclic(children)
    ensures forall u, v :: Times(cycles, u, v) == if ClosedBy(cycles, u, v) then multiset(Kids(children, u))[v] else 0
    ensures AllReported(children, paths, cycles) && AscendingFrom(paths, 0, leq)
  {
    var finder := new CycleFinder(children, leq);
    var roots := SortSet(children.Keys, leq);
    assert children.Keys == Elements(roots);
    finder.VisitAll(roots);
    cycles, paths := finder.cycles, finder.paths;
    AllSimple(children, paths, cycles);
    EveryCycleIsClosed(children, finder.rank, finder.closing, cycles);
    TimesAtEnd(children, cycles, finder.closing, finder.color, finder.rank);
  }

  lemma {:induction false} TimesIffClosed<V(!new)>(cycles: seq<seq<V>>, u: V, v: V)
    ensures Times(cycles, u, v) > 0 <==> ClosedBy(cycles, u, v)
  {
    if cycles == [] {
    } else {
      TimesIffClosed(cycles[..|cycles| - 1], u, v);
      assert cycles == cycles[..|cycles| - 1] + [cycles[|cycles| - 1]];
    }
  }

  lemma TimesAtEnd<V(!new)>(g: Graph<V>, cycles: seq<seq<V>>, closing: multiset<(V, V)>, color: map<V, nat>,
                            rank: map<V, nat>)
    requires Counted(g, closing, color, rank) && Tallied(cycles, closing) && g.Keys <= rank.Keys
    requires forall c :: c in cycles ==> SimpleCycle(g, c)
    ensures forall u, v :: Times(cycles, u, v) == if ClosedBy(cycles, u, v) then multiset(Kids(g, u))[v] else 0
  {
    forall u, v ensures Times(cycles, u, v) == if ClosedBy(cycles, u, v) then multiset(Kids(g, u))[v] else 0 {
      TimesIffClosed(cycles, u, v);
      if c :| c in cycles && |c| >= 2 && c[|c| - 2] == u && c[|c| - 1] == v {
        assert Edge(g, c[|c| - 2], c[|c| - 1]);
        assert (u, v) in closing;
      }
    }
  }

  // A closed walk cannot keep moving to nodes popped earlier.
  lemma {:induction false} EveryCycleIsClosed<V(!new)>(g: Graph<V>, rank: map<V, nat>, closing: multiset<(V, V)>,
                                                       cycles: seq<seq<V>>)
    requires Settled(g, rank, closing) && g.Keys <= rank.Keys
    requires Tallied(cycles, closing) && forall c :: c in cycles ==> SimpleCycle(g, c)
    ensures forall p :: DirectedCycle(g, p) ==>
              exists i :: 0 < i < |p| && ClosedBy(cycles, p[i - 1], p[i])
    ensures cycles == [] <==> Acyclic(g)
  {
    forall p | DirectedCycle(g, p)
      ensures exists i :: 0 < i < |p| && ClosedBy(cycles, p[i - 1], p[i])
    {
      assert Edge(g, p[0], p[1]);
      if forall i :: 0 < i < |p| ==> (p[i - 1], p[i]) !in closing {
        Descends(g, rank, closing, p, |p| - 1);
      } else {
        var i :| 0 < i < |p| && (p[i - 1], p[i]) in closing;
        TimesIffClosed(cycles, p[i - 1], p[i]);
      }
    }
    if cycles == [] {
      assert forall u, v :: !ClosedBy(cycles, u, v);
    } else {
      assert cycles[0] in cycles;
      assert DirectedCycle(g, cycles[0]);
    }
  }

  lemma {:induction false} Descends<V(!new)>(g: Graph<V>, rank: map<V, nat>, closing: multiset<(V, V)>, p: seq<V>,
                                             k: nat)
    requires Settled(g, rank, closing)
    requires Walk(g, p) && k < |p| && p[0] in rank
    requires forall i :: 0 < i < |p| ==> (p[i - 1], p[i]) !in closing
    ensures p[k] in rank && rank[p[k]] <= rank[p[0]] - k
  {
    if k == 0 {
    } else {
      Descends(g, rank, closing, p, k - 1);
      assert Edge(g, p[k - 1], p[k]);
    }
  }
}
