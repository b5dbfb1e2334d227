// Migration-graph analysis of scripts/project_facts.py: the child lists, and the
// heads, branch points and cycles read off them.
module RevisionGraph {
  import opened CycleSearch
  import opened Ordering

  /* --- database_facts: child lists, heads and branch points --- */

  // One element of a statically read down_revision. NotStatic is a value that
  // is no string, or the reader's "?dynamic" mark.
  datatype Ref<V> = NoRef | Name(id: V) | NotStatic

  // A single constant, or a tuple of constants.
  datatype Down<V> = One(ref: Ref<V>) | Tuple(refs: seq<Ref<V>>)

  datatype Revision<V> = Revision(file: string, down: Down<V>)

  type Revisions<V> = map<V, Revision<V>>

  function Refs<V>(d: Down<V>): seq<Ref<V>> {
    match d
    case One(r) => [r]
    case Tuple(rs) => rs
  }

  // What a down_revision mentions: itself, or what is in the tuple.
  ghost predicate Mentions<V>(d: Down<V>, r: Ref<V>) {
    d == One(r) || (d.Tuple? && r in d.refs)
  }

  ghost function TimesMentioned<V>(d: Down<V>, r: Ref<V>): nat {
    if d.One? then (if d.ref == r then 1 else 0) else multiset(d.refs)[r]
  }

  // down_refs: every revision id that some down_revision names.
  ghost predicate Named<V>(revs: Revisions<V>, ref: V) {
    exists rid :: rid in revs && Mentions(revs[rid].down, Name(ref))
  }

  // The child list of ref holds rid once per time rid's down_revision names ref.
  ghost predicate IsChildMap<V(!new)>(revs: Revisions<V>, g: Graph<V>, leq: Order<V>) {
    && (forall ref :: ref in g <==> ref in revs || Named(revs, ref))
    && (forall ref :: ref in g ==> Ascending(g[ref], leq))
    && (forall ref :: ref in g ==> forall rid :: multiset(g[ref])[rid] == TimesNamed(revs, rid, ref))
  }

  ghost function TimesNamed<V>(revs: Revisions<V>, rid: V, ref: V): nat {
    if rid in revs then TimesMentioned(revs[rid].down, Name(ref)) else 0
  }

  ghost predicate InFirst<V>(revs: Revisions<V>, order: seq<V>, i: nat, part: seq<Ref<V>>, r: Ref<V>)
    requires i <= |order| && forall rid <- order :: rid in revs
  {
    r in part || exists k :: 0 <= k < i && r in Refs(revs[order[k]].down)
  }

  // How often rid is in the child list of ref after the first i revisions and
  // the refs `part` of the next one.
  ghost function TimesRead<V>(revs: Revisions<V>, order: seq<V>, i: nat, part: seq<Ref<V>>, rid: V, ref: V): nat
    requires i <= |order|
  {
    if rid in order[..i] then TimesNamed(revs, rid, ref)
    else if i < |order| && rid == order[i] then multiset(part)[Name(ref)]
    else 0
  }

  ghost predicate GraphUpTo<V(!new)>(revs: Revisions<V>, order: seq<V>, i: nat, part: seq<Ref<V>>, children: Graph<V>,
                                     leq: Order<V>)
    requires i <= |order| && forall rid <- order :: rid in revs
  {
    && (forall ref :: Ascending(Kids(children, ref), leq))
    && (forall ref, rid :: multiset(Kids(children, ref))[rid] == TimesRead(revs, order, i, part, rid, ref))
    && (forall ref :: ref in children <==> ref in revs || InFirst(revs, order, i, part, Name(ref)))
  }

  ghost predicate NamedUpTo<V(!new)>(revs: Revisions<V>, order: seq<V>, i: nat, part: seq<Ref<V>>, downRefs: set<V>)
    requires i <= |order| && forall rid <- order :: rid in revs
  {
    forall ref :: ref in downRefs <==> InFirst(revs, order, i, part, Name(ref))
  }

  ghost predicate ListedUpTo<V(!new)>(revs: Revisions<V>, order: seq<V>, i: nat, file: string, part: seq<Ref<V>>,
                                      dangling: seq<(string, V)>, diags: seq<string>)
    requires i <= |order| && forall rid <- order :: rid in revs
  {
    && dangling == Dangling(revs, order[..i]) + DanglingRefs(revs, file, part)
    && diags == NotStatics(revs, order[..i]) + NotStaticRefs(file, part)
  }

  // Everything read from the first i revisions and the refs `part` of the next one.
  ghost predicate ReadUpTo<V(!new)>(revs: Revisions<V>, order: seq<V>, i: nat, part: seq<Ref<V>>, children: Graph<V>,
                                    downRefs: set<V>, dangling: seq<(string, V)>, diags: seq<string>, leq: Order<V>)
    requires i < |order| && forall rid <- order :: rid in revs
  {
    && GraphUpTo(revs, order, i, part, children, leq) && NamedUpTo(revs, order, i, part, downRefs)
    && ListedUpTo(revs, order, i, revs[order[i]].file, part, dangling, diags)
  }

  // What the refs of one revision add to the dangling list, in their order.
  ghost function DanglingRefs<V(!new)>(revs: Revisions<V>, file: string, refs: seq<Ref<V>>): seq<(string, V)> {
    if refs == [] then []
    else
      var r := refs[|refs| - 1];
      DanglingRefs(revs, file, refs[..|refs| - 1]) + if r.Name? && r.id !in revs then [(file, r.id)] else []
  }

  ghost function NotStaticRefs<V>(file: string, refs: seq<Ref<V>>): seq<string> {
    if refs == [] then []
    else NotStaticRefs(file, refs[..|refs| - 1]) + if refs[|refs| - 1] == NotStatic then [file] else []
  }

  // And those of several revisions.
  ghost function Dangling<V(!new)>(revs: Revisions<V>, order: seq<V>): seq<(string, V)>
    requires forall rid <- order :: rid in revs
  {
    if order == [] then []
    else
      var last := revs[order[|order| - 1]];
      Dangling(revs, order[..|order| - 1]) + DanglingRefs(revs, last.file, Refs(last.down))
  }

  ghost function NotStatics<V>(revs: Revisions<V>, order: seq<V>): seq<string>
    requires forall rid <- order :: rid in revs
  {
    if order == [] then []
    else
      var last := revs[order[|order| - 1]];
      NotStatics(revs, order[..|order| - 1]) + NotStaticRefs(last.file, Refs(last.down))
  }

  lemma {:induction false} RefsAdd<V(!new)>(revs: Revisions<V>, file: string, refs: seq<Ref<V>>)
    ensures forall f, ref :: (f, ref) in DanglingRefs(revs, file, refs) <==>
            f == file && ref !in revs && Name(ref) in refs
    ensures forall f :: f in NotStaticRefs(file, refs) <==> f == file && NotStatic in refs
  {
    if refs == [] {
    } else {
      RefsAdd(revs, file, refs[..|refs| - 1]);
      assert refs == refs[..|refs| - 1] + [refs[|refs| - 1]];
    }
  }

  // Some revision of order, in this file, has r in its down_revision.
  ghost predicate ReadIn<V(!new)>(revs: Revisions<V>, order: seq<V>, file: string, r: Ref<V>)
    requires forall rid <- order :: rid in revs
  {
    exists rid :: rid in order && revs[rid].file == file && r in Refs(revs[rid].down)
  }

  lemma {:induction false} RevisionsAdd<V(!new)>(revs: Revisions<V>, order: seq<V>)
    requires forall rid <- order :: rid in revs
    ensures forall f, ref :: (f, ref) in Dangling(revs, order) <==> ref !in revs && ReadIn(revs, order, f, Name(ref))
    ensures forall f :: f in NotStatics(revs, order) <==> ReadIn(revs, order, f, NotStatic)
  {
    if order == [] {
    } else {
      var init, last := order[..|order| - 1], order[|order| - 1];
      RevisionsAdd(revs, init);
      RefsAdd(revs, revs[last].file, Refs(revs[last].down));
      assert order == init + [last];
      forall f, r: Ref<V>
        ensures ReadIn(revs, order, f, r) <==>
                ReadIn(revs, init, f, r) || (f == revs[last].file && r in Refs(revs[last].down))
      {
        assert last in order && forall rid :: rid in init ==> rid in order;
      }
    }
  }

  // Some revision of this file has r in its down_revision.
  ghost predicate WrittenIn<V>(revs: Revisions<V>, file: string, r: Ref<V>) {
    exists rid :: rid in revs && revs[rid].file == file && Mentions(revs[rid].down, r)
  }

  // What is reported: each named id that is no revision, and each ref that is
  // not static, with the file it stands in; revision by revision, in order.
  ghost predicate NotesOf<V(!new)>(revs: Revisions<V>, leq: Order<V>, dangling: seq<(string, V)>, diags: seq<string>) {
    && (forall order :: IsSortedSet(order, revs.Keys, leq) ==>
          (forall rid <- order :: rid in revs) && dangling == Dangling(revs, order) && diags == NotStatics(revs, order))
    && (forall file, ref :: (file, ref) in dangling <==> ref !in revs && WrittenIn(revs, file, Name(ref)))
    && (forall file :: file in diags <==> WrittenIn(revs, file, NotStatic))
  }

  lemma InFirstNext<V(!new)>(revs: Revisions<V>, order: seq<V>, i: nat, part: seq<Ref<V>>, r: Ref<V>, q: Ref<V>)
    requires i <= |order| && forall rid <- order :: rid in revs
    ensures InFirst(revs, order, i, part + [r], q) <==> q == r || InFirst(revs, order, i, part, q)
  {
  }

  // Reading one more ref of the revision order[i].
  lemma GraphNext<V(!new)>(revs: Revisions<V>, order: seq<V>, i: nat, part: seq<Ref<V>>, r: Ref<V>,
                           children: Graph<V>, leq: Order<V>)
    requires Ascending(order, leq) && Distinct(order)
    requires i < |order| && leq(order[i], order[i]) && forall rid <- order :: rid in revs
    requires GraphUpTo(revs, order, i, part, children, leq)
    ensures GraphUpTo(revs, order, i, part + [r],
                      if r.Name? then children[r.id := Kids(children, r.id) + [order[i]]] else children, leq)
  {
    var children' := if r.Name? then children[r.id := Kids(children, r.id) + [order[i]]] else children;
    forall ref
      ensures Ascending(Kids(children', ref), leq)
      ensures ref in children' <==> ref in revs || InFirst(revs, order, i, part + [r], Name(ref))
    {
      InFirstNext(revs, order, i, part, r, Name(ref));
      assert Ascending(Kids(children, ref), leq);
      if r == Name(ref) { AppendAscends(revs, order, i, part, Kids(children, ref), ref, leq); }
    }
    forall ref, rid
      ensures multiset(Kids(children', ref))[rid] == TimesRead(revs, order, i, part + [r], rid, ref)
    {
      CountNext(revs, order, i, part, r, Kids(children, ref), rid, ref);
    }
  }

  lemma CountNext<V(!new)>(revs: Revisions<V>, order: seq<V>, i: nat, part: seq<Ref<V>>, r: Ref<V>, kids: seq<V>,
                           rid: V, ref: V)
    requires i < |order| && Distinct(order)
    requires multiset(kids)[rid] == TimesRead(revs, order, i, part, rid, ref)
    ensures multiset(if r == Name(ref) then kids + [order[i]] else kids)[rid] ==
            TimesRead(revs, order, i, part + [r], rid, ref)
  {
    assert order[i] !in order[..i];
    assert multiset(part + [r])[Name(ref)] == multiset(part)[Name(ref)] + if r == Name(ref) then 1 else 0;
  }

  lemma AppendAscends<V(!new)>(revs: Revisions<V>, order: seq<V>, i: nat, part: seq<Ref<V>>, kids: seq<V>, ref: V,
                               leq: Order<V>)
    requires Ascending(order, leq)
    requires i < |order| && leq(order[i], order[i]) && Ascending(kids, leq)
    requires forall rid :: multiset(kids)[rid] == TimesRead(revs, order, i, part, rid, ref)
    ensures Ascending(kids + [order[i]], leq)
  {
    forall k | 0 <= k < |kids| ensures leq(kids[k], order[i]) {
      assert kids[k] in multiset(kids);
      assert TimesRead(revs, order, i, part, kids[k], ref) > 0;
    }
  }

  lemma NamedNext<V(!new)>(revs: Revisions<V>, order: seq<V>, i: nat, part: seq<Ref<V>>, r: Ref<V>, downRefs: set<V>)
    requires i < |order| && forall rid <- order :: rid in revs
    requires NamedUpTo(revs, order, i, part, downRefs)
    ensures NamedUpTo(revs, order, i, part + [r], if r.Name? then downRefs + {r.id} else downRefs)
  {
    forall q ensures InFirst(revs, order, i, part + [r], q) <==> q == r || InFirst(revs, order, i, part, q) {
      InFirstNext(revs, order, i, part, r, q);
    }
  }

  lemma RefNext<V(!new)>(revs: Revisions<V>, file: string, part: seq<Ref<V>>, r: Ref<V>)
    ensures DanglingRefs(revs, file, part + [r]) ==
            if r.Name? && r.id !in revs then DanglingRefs(revs, file, part) + [(file, r.id)]
            else DanglingRefs(revs, file, part)
    ensures NotStaticRefs(file, part + [r]) ==
            if r == NotStatic then NotStaticRefs(file, part) + [file] else NotStaticRefs(file, part)
  {
    assert (part + [r])[..|part|] == part;
  }

  lemma ListedNext<V(!new)>(revs: Revisions<V>, order: seq<V>, i: nat, file: string, part: seq<Ref<V>>, r: Ref<V>,
                            dangling: seq<(string, V)>, diags: seq<string>)
    requires i < |order| && forall rid <- order :: rid in revs
    requires ListedUpTo(revs, order, i, file, part, dangling, diags)
    ensures ListedUpTo(revs, order, i, file, part + [r],
                       if r.Name? && r.id !in revs then dangling + [(file, r.id)] else dangling,
                       if r == NotStatic then diags + [file] else diags)
  {
    RefNext(revs, file, part, r);
    if r.Name? && r.id !in revs {
      Regroup(Dangling(revs, order[..i]), DanglingRefs(revs, file, part), [(file, r.id)]);
    }
    if r == NotStatic {
      Regroup(NotStatics(revs, order[..i]), NotStaticRefs(file, part), [file]);
    }
  }

  lemma Regroup<T>(a: seq<T>, b: seq<T>, c: seq<T>)
    ensures (a + b) + c == a + (b + c)
  {
  }

  lemma ListedRevision<V(!new)>(revs: Revisions<V>, order: seq<V>, i: nat, dangling: seq<(string, V)>,
                                diags: seq<string>)
    requires i < |order| && forall rid <- order :: rid in revs
    requires ListedUpTo(revs, order, i, revs[order[i]].file, Refs(revs[order[i]].down), dangling, diags)
    ensures dangling == Dangling(revs, order[..i + 1]) && diags == NotStatics(revs, order[..i + 1])
  {
    assert order[..i + 1][..i] == order[..i] && order[..i + 1][i] == order[i];
  }

  lemma NextRevision<V(!new)>(revs: Revisions<V>, order: seq<V>, i: nat, children: Graph<V>,
                              downRefs: set<V>, leq: Order<V>)
    requires i < |order| && (forall rid <- order :: rid in revs) && Distinct(order)
    requires GraphUpTo(revs, order, i, Refs(revs[order[i]].down), children, leq)
    requires NamedUpTo(revs, order, i, Refs(revs[order[i]].down), downRefs)
    ensures GraphUpTo(revs, order, i + 1, [], children, leq)
    ensures NamedUpTo(revs, order, i + 1, [], downRefs)
  {
    var refs := Refs(revs[order[i]].down);
    forall q ensures InFirst(revs, order, i + 1, [], q) <==> InFirst(revs, order, i, refs, q) {
      if q in refs {
        assert q in Refs(revs[order[i]].down);
      }
    }
    assert order[..i + 1] == order[..i] + [order[i]] && order[i] !in order[..i];
    forall rid, ref ensures TimesRead(revs, order, i + 1, [], rid, ref) == TimesRead(revs, order, i, refs, rid, ref) {
    }
  }

  lemma NothingRead<V(!new)>(revs: Revisions<V>, order: seq<V>, i: nat, children: Graph<V>, downRefs: set<V>,
                             dangling: seq<(string, V)>, diags: seq<string>, leq: Order<V>)
    requires i < |order| && forall rid <- order :: rid in revs
    requires GraphUpTo(revs, order, i, [], children, leq) && NamedUpTo(revs, order, i, [], downRefs)
    requires dangling == Dangling(revs, order[..i]) && diags == NotStatics(revs, order[..i])
    ensures ReadUpTo(revs, order, i, [], children, downRefs, dangling, diags, leq)
  {
    assert dangling + [] == dangling && diags + [] == diags;
  }

  lemma RevisionRead<V(!new)>(revs: Revisions<V>, order: seq<V>, i: nat, children: Graph<V>, downRefs: set<V>,
                              dangling: seq<(string, V)>, diags: seq<string>, leq: Order<V>)
    requires i < |order| && (forall rid <- order :: rid in revs) && Distinct(order)
    requires ReadUpTo(revs, order, i, Refs(revs[order[i]].down), children, downRefs, dangling, diags, leq)
    ensures GraphUpTo(revs, order, i + 1, [], children, leq) && NamedUpTo(revs, order, i + 1, [], downRefs)
    ensures dangling == Dangling(revs, order[..i + 1]) && diags == NotStatics(revs, order[..i + 1])
  {
    NextRevision(revs, order, i, children, downRefs, leq);
    ListedRevision(revs, order, i, dangling, diags);
  }

  lemma NotesDone<V(!new)>(revs: Revisions<V>, order: seq<V>, dangling: seq<(string, V)>, diags: seq<string>,
                           leq: Order<V>)
    requires TotalOrder(leq) && IsSortedSet(order, revs.Keys, leq) && forall rid <- order :: rid in revs
    requires dangling == Dangling(revs, order) && diags == NotStatics(revs, order)
    ensures NotesOf(revs, leq, dangling, diags)
  {
    RevisionsAdd(revs, order);
    forall file, r: Ref<V> ensures ReadIn(revs, order, file, r) <==> WrittenIn(revs, file, r) {
      assert forall rid :: rid in revs <==> rid in Elements(order);
    }
    forall other | IsSortedSet(other, revs.Keys, leq) ensures other == order {
      SortedSetUnique(order, other, revs.Keys, leq);
    }
  }

  lemma GraphDone<V(!new)>(revs: Revisions<V>, order: seq<V>, children: Graph<V>,
                           downRefs: set<V>, leq: Order<V>)
    requires Elements(order) == revs.Keys
    requires forall rid <- order :: rid in revs
    requires GraphUpTo(revs, order, |order|, [], children, leq)
    requires NamedUpTo(revs, order, |order|, [], downRefs)
    ensures IsChildMap(revs, children, leq)
    ensures forall ref :: ref in downRefs <==> Named(revs, ref)
  {
    forall r: Ref<V> ensures InFirst(revs, order, |order|, [], r) <==>
        exists rid :: rid in revs && r in Refs(revs[rid].down) {
      if rid :| rid in revs && r in Refs(revs[rid].down) {
        assert rid in Elements(order);
        var k :| 0 <= k < |order| && order[k] == rid;
        assert r in Refs(revs[order[k]].down);
      }
    }
    assert order[..|order|] == order;
    forall ref | ref in children
      ensures Ascending(children[ref], leq)
      ensures forall rid :: multiset(children[ref])[rid] == TimesNamed(revs, rid, ref)
    {
      assert Ascending(Kids(children, ref), leq);
      forall rid ensures multiset(children[ref])[rid] == TimesNamed(revs, rid, ref) {
        assert multiset(Kids(children, ref))[rid] == TimesRead(revs, order, |order|, [], rid, ref);
        assert rid in revs <==> rid in Elements(order);
      }
    }
  }

  method BuildGraph<V(==, !new)>(revs: Revisions<V>, leq: Order<V>)
    returns (children: Graph<V>, downRefs: set<V>, dangling: seq<(string, V)>, diags: seq<string>)
    requires TotalOrder(leq)
    ensures IsChildMap(revs, children, leq)
    ensures forall ref :: ref in downRefs <==> Named(revs, ref)
    ensures NotesOf(revs, leq, dangling, diags)
  {
    var order := SortSet(revs.Keys, leq);
    assert forall r <- order :: r in Elements(order);
    children, downRefs, dangling, diags := ReadRevisions(revs, order, leq);
    GraphDone(revs, order, children, downRefs, leq);
    NotesDone(revs, order, dangling, diags, leq);
  }

  // The outer loop: the revisions in order.
  method ReadRevisions<V(==, !new)>(revs: Revisions<V>, order: seq<V>, ghost leq: Order<V>)
    returns (children: Graph<V>, downRefs: set<V>, dangling: seq<(string, V)>, diags: seq<string>)
    requires forall rid <- order :: rid in revs
    requires Ascending(order, leq) && Distinct(order) && forall rid <- order :: leq(rid, rid)
    ensures GraphUpTo(revs, order, |order|, [], children, leq)
    ensures NamedUpTo(revs, order, |order|, [], downRefs)
    ensures dangling == Dangling(revs, order) && diags == NotStatics(revs, order)
  {
    children := map rid | rid in revs :: [];
    downRefs, dangling, diags := {}, [], [];
    var i := 0;
    while i < |order|
      invariant i <= |order|
      invariant GraphUpTo(revs, order, i, [], children, leq)
      invariant NamedUpTo(revs, order, i, [], downRefs)
      invariant dangling == Dangling(revs, order[..i]) && diags == NotStatics(revs, order[..i])
    {
      children, downRefs, dangling, diags := ReadRefs(revs, order, i, children, downRefs, dangling, diags, leq);
      i := i + 1;
    }
    assert order[..i] == order;
  }

  // The inner loop: the refs of one revision.
  method ReadRefs<V(==, !new)>(revs: Revisions<V>, order: seq<V>, i: nat, children0: Graph<V>,
                               downRefs0: set<V>, dangling0: seq<(string, V)>, diags0: seq<string>, ghost leq: Order<V>)
    returns (children: Graph<V>, downRefs: set<V>, dangling: seq<(string, V)>, diags: seq<string>)
    requires i < |order| && forall rid <- order :: rid in revs
    requires Ascending(order, leq) && Distinct(order) && leq(order[i], order[i])
    requires GraphUpTo(revs, order, i, [], children0, leq)
    requires NamedUpTo(revs, order, i, [], downRefs0)
    requires dangling0 == Dangling(revs, order[..i]) && diags0 == NotStatics(revs, order[..i])
    ensures GraphUpTo(revs, order, i + 1, [], children, leq)
    ensures NamedUpTo(revs, order, i + 1, [], downRefs)
    ensures dangling == Dangling(revs, order[..i + 1]) && diags == NotStatics(revs, order[..i + 1])
  {
    children, downRefs, dangling, diags := children0, downRefs0, dangling0, diags0;
    var refs := Refs(revs[order[i]].down);
    ghost var part: seq<Ref<V>> := [];
    var j := 0;
    NothingRead(revs, order, i, children, downRefs, dangling, diags, leq);
    while j < |refs|
      invariant j <= |refs| && part == refs[..j]
      invariant ReadUpTo(revs, order, i, part, children, downRefs, dangling, diags, leq)
    {
      children, downRefs, dangling, diags :=
          ReadRef(revs, order, i, part, refs[j], children, downRefs, dangling, diags, leq);
      assert refs[..j + 1] == part + [refs[j]];
      part := part + [refs[j]];
      j := j + 1;
    }
    assert part == refs;
    RevisionRead(revs, order, i, children, downRefs, dangling, diags, leq);
  }

  // One turn of it.
  method ReadRef<V(==, !new)>(revs: Revisions<V>, order: seq<V>, i: nat, ghost part: seq<Ref<V>>, r: Ref<V>,
                              children0: Graph<V>, downRefs0: set<V>, dangling0: seq<(string, V)>,
                              diags0: seq<string>, ghost leq: Order<V>)
    returns (children: Graph<V>, downRefs: set<V>, dangling: seq<(string, V)>, diags: seq<string>)
    requires i < |order| && forall rid <- order :: rid in revs
    requires Ascending(order, leq) && Distinct(order) && leq(order[i], order[i])
    requires ReadUpTo(revs, order, i, part, children0, downRefs0, dangling0, diags0, leq)
    ensures ReadUpTo(revs, order, i, part + [r], children, downRefs, dangling, diags, leq)
  {
    children, downRefs, dangling, diags := children0, downRefs0, dangling0, diags0;
    var rid := order[i];
    var file := revs[rid].file;
    GraphNext(revs, order, i, part, r, children, leq);
    NamedNext(revs, order, i, part, r, downRefs);
    ListedNext(revs, order, i, file, part, r, dangling, diags);
    match r {
      case NoRef =>
      case NotStatic =>
        diags := diags + [file];
      case Name(ref) =>
        if ref !in revs {
          dangling := dangling + [(file, ref)];
        }
        downRefs := downRefs + {ref};
        children := children[ref := Kids(children, ref) + [rid]];
    }
  }

  /* --- what the facts mean --- */

  // heads: the revisions no down_revision names, which are those without children.
  lemma HeadIffChildless<V(!new)>(revs: Revisions<V>, g: Graph<V>, leq: Order<V>, rid: V)
    requires IsChildMap(revs, g, leq) && rid in revs
    ensures Named(revs, rid) <==> Kids(g, rid) != []
  {
    if Named(revs, rid) {
      var child :| child in revs && Mentions(revs[child].down, Name(rid));
      assert TimesNamed(revs, child, rid) > 0;
      assert child in g[rid];
    }
    if g[rid] != [] {
      var child := g[rid][0];
      assert child in multiset(g[rid]);
      assert TimesNamed(revs, child, rid) > 0;
    }
  }

  lemma ChildrenAreRevisions<V(!new)>(revs: Revisions<V>, g: Graph<V>, leq: Order<V>, u: V, v: V)
    requires IsChildMap(revs, g, leq) && Edge(g, u, v)
    ensures v in revs && Mentions(revs[v].down, Name(u))
  {
    assert v in multiset(g[u]);
    assert TimesNamed(revs, v, u) > 0;
  }

  ghost predicate Descendant<V(!new)>(g: Graph<V>, u: V, v: V) {
    exists p :: Walk(g, p) && p != [] && p[0] == u && p[|p| - 1] == v
  }

  // What the walk below needs to know of a child map.
  ghost predicate LinksRevisions<V(!new)>(revs: Revisions<V>, g: Graph<V>) {
    forall u, v :: Edge(g, u, v) ==> v in revs
  }

  lemma LinksOfChildMap<V(!new)>(revs: Revisions<V>, g: Graph<V>, leq: Order<V>)
    requires IsChildMap(revs, g, leq)
    ensures LinksRevisions(revs, g)
  {
    forall u, v | Edge(g, u, v) ensures v in revs {
      ChildrenAreRevisions(revs, g, leq, u, v);
    }
  }

  // Without a directed cycle, a walk through revisions can be extended until
  // it ends in a revision without children.
  lemma {:induction false} WalkToHead<V(!new)>(revs: Revisions<V>, g: Graph<V>, p: seq<V>) returns (q: seq<V>)
    requires LinksRevisions(revs, g) && Acyclic(g)
    requires p != [] && Walk(g, p) && Elements(p) <= revs.Keys
    ensures p <= q && Walk(g, q)
    ensures q[|q| - 1] in revs && Kids(g, q[|q| - 1]) == []
    decreases revs.Keys - Elements(p)
  {
    var last := p[|p| - 1];
    assert last in Elements(p);
    if Kids(g, last) == [] {
      q := p;
    } else {
      var child := Kids(g, last)[0];
      assert Edge(g, last, child);
      NewOnWalk(g, p, child);
      assert Elements(p + [child]) == Elements(p) + {child};
      q := WalkToHead(revs, g, p + [child]);
    }
  }

  lemma NewOnWalk<V(!new)>(g: Graph<V>, p: seq<V>, child: V)
    requires Acyclic(g) && p != [] && Walk(g, p) && Edge(g, p[|p| - 1], child)
    ensures child !in p && Walk(g, p + [child])
  {
    if child in p {
      var i := IndexOf(p, child);
      assert DirectedCycle(g, (p + [child])[i..]);
    }
  }

  lemma EveryRevisionReachesAHead<V(!new)>(revs: Revisions<V>, g: Graph<V>, leq: Order<V>, rid: V)
    requires IsChildMap(revs, g, leq) && Acyclic(g) && rid in revs
    ensures exists head :: head in revs && !Named(revs, head) && Descendant(g, rid, head)
  {
    LinksOfChildMap(revs, g, leq);
    var q := WalkToHead(revs, g, [rid]);
    HeadIffChildless(revs, g, leq, q[|q| - 1]);
    assert q[0] == rid;
    assert Descendant(g, rid, q[|q| - 1]);
  }

  lemma RevisionsReachHeads<V(!new)>(revs: Revisions<V>, g: Graph<V>, leq: Order<V>, heads: seq<V>)
    requires IsChildMap(revs, g, leq) && Acyclic(g)
    requires Elements(heads) == Childless(revs, g)
    ensures forall rid :: rid in revs ==> exists head :: head in heads && Descendant(g, rid, head)
  {
    forall rid | rid in revs ensures exists head :: head in heads && Descendant(g, rid, head) {
      EveryRevisionReachesAHead(revs, g, leq, rid);
      var head :| head in revs && !Named(revs, head) && Descendant(g, rid, head);
      HeadIffChildless(revs, g, leq, head);
      assert head in Elements(heads);
    }
  }

  lemma HeadsAndDangling<V(!new)>(revs: Revisions<V>, g: Graph<V>, leq: Order<V>, downRefs: set<V>,
                                  dangling: seq<(string, V)>)
    requires IsChildMap(revs, g, leq)
    requires forall ref :: ref in downRefs <==> Named(revs, ref)
    requires forall file, ref :: (file, ref) in dangling <==> ref !in revs && WrittenIn(revs, file, Name(ref))
    ensures (set rid | rid in revs && rid !in downRefs) == Childless(revs, g)
    ensures (set d | d in g && d in revs && |g[d]| > 1) == Branching(revs, g)
    ensures dangling == [] <==> forall ref :: Named(revs, ref) ==> ref in revs
  {
    forall rid | rid in revs ensures rid in downRefs <==> Kids(g, rid) != [] {
      HeadIffChildless(revs, g, leq, rid);
    }
    if dangling != [] {
      var d := dangling[0];
      assert (d.0, d.1) in dangling;
      assert Named(revs, d.1);
    } else {
      forall ref | Named(revs, ref) ensures ref in revs {
        var rid :| rid in revs && Mentions(revs[rid].down, Name(ref));
        assert WrittenIn(revs, revs[rid].file, Name(ref));
        assert (revs[rid].file, ref) !in dangling;
      }
    }
  }

  ghost function Childless<V>(revs: Revisions<V>, g: Graph<V>): set<V> {
    set rid | rid in revs && Kids(g, rid) == []
  }

  ghost function Branching<V>(revs: Revisions<V>, g: Graph<V>): set<V> {
    set rid | rid in revs && |Kids(g, rid)| > 1
  }

  datatype Facts<V> = Facts(children: Graph<V>, heads: seq<V>, branchPoints: seq<V>, cycles: seq<seq<V>>,
                            dangling: seq<(string, V)>, diags: seq<string>)

  ghost predicate SoundFacts<V(!new)>(revs: Revisions<V>, facts: Facts<V>, leq: Order<V>) {
    && IsChildMap(revs, facts.children, leq)
    && IsSortedSet(facts.heads, Childless(revs, facts.children), leq)
    && IsSortedSet(facts.branchPoints, Branching(revs, facts.children), leq)
    && (forall c :: c in facts.cycles ==> SimpleCycle(facts.children, c))
    && (facts.cycles == [] <==> Acyclic(facts.children))
    && NotesOf(revs, leq, facts.dangling, facts.diags)
    && (facts.dangling == [] <==> forall ref :: Named(revs, ref) ==> ref in revs)
    && (facts.cycles == [] ==> forall rid :: rid in revs ==>
          exists head :: head in facts.heads && Descendant(facts.children, rid, head))
  }

  method DatabaseFacts<V(==, !new)>(revs: Revisions<V>, leq: Order<V>) returns (facts: Facts<V>)
    requires TotalOrder(leq)
    ensures SoundFacts(revs, facts, leq)
  {
    var children, downRefs, dangling, diags := BuildGraph(revs, leq);
    HeadsAndDangling(revs, children, leq, downRefs, dangling);
    var heads := SortSet((set rid | rid in revs && rid !in downRefs), leq);
    var branchPoints := SortSet((set d | d in children && d in revs && |children[d]| > 1), leq);
    var cycles, _ := FindCycles(children, leq);
    if cycles == [] {
      RevisionsReachHeads(revs, children, leq, heads);
    }
    facts := Facts(children, heads, branchPoints, cycles, dangling, diags);
  }

  // Without a cycle, there is exactly one head iff some revision descends from
  // every revision; that revision is then the head.
  lemma SingleHead<V(!new)>(revs: Revisions<V>, facts: Facts<V>, leq: Order<V>)
    requires SoundFacts(revs, facts, leq) && facts.cycles == []
    ensures |facts.heads| == 1 <==> exists top :: top in revs && LatestOfAll(revs, facts.children, top)
    ensures |facts.heads| == 1 ==> facts.heads[0] in revs && LatestOfAll(revs, facts.children, facts.heads[0])
  {
    var heads, g := facts.heads, facts.children;
    if |heads| == 1 {
      assert heads[0] in Elements(heads);
      forall rid | rid in revs ensures Descendant(g, rid, heads[0]) {
        var head :| head in heads && Descendant(g, rid, head);
      }
      assert LatestOfAll(revs, g, heads[0]);
    }
    if top :| top in revs && LatestOfAll(revs, g, top) {
      var head :| head in heads && Descendant(g, top, head);
      OnlyHead(revs, g, heads, top);
    }
  }

  lemma OnlyHead<V(!new)>(revs: Revisions<V>, g: Graph<V>, heads: seq<V>, top: V)
    requires Distinct(heads) && Elements(heads) == Childless(revs, g)
    requires LatestOfAll(revs, g, top) && heads != []
    ensures |heads| == 1
  {
    forall i | 0 <= i < |heads| ensures heads[i] == top {
      assert heads[i] in Elements(heads);
      OnlyItself(g, heads[i], top);
    }
    assert heads[0] == heads[|heads| - 1];
  }

  ghost predicate LatestOfAll<V(!new)>(revs: Revisions<V>, g: Graph<V>, top: V) {
    forall rid :: rid in revs ==> Descendant(g, rid, top)
  }

  lemma OnlyItself<V(!new)>(g: Graph<V>, u: V, v: V)
    requires Kids(g, u) == [] && Descendant(g, u, v)
    ensures u == v
  {
    var p :| Walk(g, p) && p != [] && p[0] == u && p[|p| - 1] == v;
    assert |p| > 1 ==> Edge(g, p[0], p[1]);
  }
}
