// The audit chain of alembic revision e7a1c2d3f404: what the entry hash and the
// legacy digest determine. The hash itself is a parameter, assumed injective
// where a claim needs it.
module AuditChain {
  import opened Ordering
  import opened Wrappers

  type Hash = string -> string

  ghost predicate Injective(h: Hash) {
    forall a, b :: h(a) == h(b) ==> a == b
  }

  datatype Details = Opaque(json: string) | SealDetails(legacyRows: nat, legacyLastSequence: int,
                            legacyUnchainedRows: nat)

  // A row of audit_log. Ids and timestamps are their text forms.
  datatype Row = Row(id: string, company: Option<string>, actorType: string, actorId: Option<string>, action: string,
                     resourceType: Option<string>, resourceId: Option<string>, details: Details, createdAt: string,
                     sequence: Option<int>, entryHash: Option<string>, previousHash: Option<string>)

  // f"{x}"
  function Render(x: Option<string>): string {
    if x.Some? then x.value else "None"
  }

  // r['actor_id'] or ''
  function OrEmpty(x: Option<string>): string {
    if x.Some? then x.value else ""
  }

  function Join(parts: seq<string>): string {
    if parts == [] then ""
    else if |parts| == 1 then parts[0]
    else parts[0] + ['|'] + Join(parts[1..])
  }

  // The fields the entry hash covers, as it renders them.
  function HashedFields(r: Row, previous: Option<string>): seq<string> {
    [r.id, r.actorType, OrEmpty(r.actorId), r.action, Render(r.resourceType), Render(r.resourceId),
     r.createdAt, Render(r.company), Render(previous)]
  }

  function EntryHash(h: Hash, r: Row, previous: Option<string>): string {
    h(Join(HashedFields(r, previous)))
  }

  predicate MatchesHash(h: Hash, r: Row) {
    r.entryHash == Some(EntryHash(h, r, r.previousHash))
  }

  predicate BarFree(s: string) {
    '|' !in s
  }

  predicate AllBarFree(parts: seq<string>) {
    forall p <- parts :: BarFree(p)
  }

  /* --- joining is injective on bar-free parts --- */

  // Where c first occurs in s.
  ghost function First(s: string, c: char): nat {
    if s == "" || s[0] == c then 0 else 1 + First(s[1..], c)
  }

  lemma {:induction false} FirstAfter(a: string, c: char, x: string)
    requires c !in a
    ensures First(a + [c] + x, c) == |a|
  {
    if a == "" {
    } else {
      FirstAfter(a[1..], c, x);
      assert (a + [c] + x)[1..] == a[1..] + [c] + x;
    }
  }

  lemma CutAt(a: string, x: string, b: string, y: string, c: char)
    requires c !in a && c !in b
    requires a + [c] + x == b + [c] + y
    ensures a == b && x == y
  {
    var s, t := a + [c] + x, b + [c] + y;
    FirstAfter(a, c, x);
    FirstAfter(b, c, y);
    assert a == s[..|a|] && b == t[..|b|];
    assert x == s[|a| + 1..] && y == t[|b| + 1..];
  }

  lemma HasBar(parts: seq<string>)
    requires |parts| >= 2
    ensures '|' in Join(parts)
  {
    assert Join(parts)[|parts[0]|] == '|';
  }

  lemma Heads(parts: seq<string>)
    ensures parts != [] ==> parts[0] in parts
    ensures parts != [] && "" !in parts ==> Join(parts) != ""
  {
  }

  lemma {:induction false} JoinInjective(a: seq<string>, b: seq<string>)
    requires AllBarFree(a) && AllBarFree(b)
    requires |a| == |b| || ("" !in a && "" !in b)
    requires Join(a) == Join(b)
    ensures a == b
  {
    Heads(a);
    Heads(b);
    if a == [] || b == [] {
    } else if |a| == 1 && |b| == 1 {
    } else if |a| == 1 {
      HasBar(b);
      assert false;
    } else if |b| == 1 {
      HasBar(a);
      assert false;
    } else {
      CutAt(a[0], Join(a[1..]), b[0], Join(b[1..]), '|');
      JoinInjective(a[1..], b[1..]);
      assert a == [a[0]] + a[1..] && b == [b[0]] + b[1..];
    }
  }

  ghost function Bars(s: string): nat {
    multiset(s)['|']
  }

  // A joined text has one bar between any two parts, and those inside them.
  lemma {:induction false} BarsOfJoin(parts: seq<string>)
    requires parts != []
    ensures Bars(Join(parts)) >= |parts| - 1
    ensures Bars(Join(parts)) == |parts| - 1 <==> AllBarFree(parts)
  {
    if |parts| == 1 {
      assert parts == [parts[0]];
    } else {
      BarsOfJoin(parts[1..]);
      assert Bars(Join(parts)) == Bars(parts[0]) + 1 + Bars(Join(parts[1..]));
      assert parts == [parts[0]] + parts[1..];
      assert AllBarFree(parts) <==> BarFree(parts[0]) && AllBarFree(parts[1..]);
    }
  }

  // So one bar-free list is enough to tell lists of the same length apart.
  lemma JoinDetermines(a: seq<string>, b: seq<string>)
    requires AllBarFree(a) && |a| == |b| && Join(a) == Join(b)
    ensures a == b
  {
    if a != [] {
      BarsOfJoin(a);
      BarsOfJoin(b);
      JoinInjective(a, b);
    }
  }

  // Of two rows with the same entry hash, if the fields of one have no bar,
  // then the other agrees with it on every hashed field.
  lemma SameHashSameFields(h: Hash, r: Row, p: Option<string>, s: Row, q: Option<string>)
    requires Injective(h) && AllBarFree(HashedFields(r, p))
    ensures EntryHash(h, r, p) == EntryHash(h, s, q) <==> HashedFields(r, p) == HashedFields(s, q)
  {
    if EntryHash(h, r, p) == EntryHash(h, s, q) {
      JoinDetermines(HashedFields(r, p), HashedFields(s, q));
    }
  }

  /* --- and not injective on others --- */

  lemma {:induction false} JoinAround(front: seq<string>, parts: seq<string>, more: seq<string>)
    requires parts != [] && more != [] && Join(parts) == Join(more)
    ensures Join(front + parts) == Join(front + more)
  {
    if front == [] {
      assert front + parts == parts && front + more == more;
    } else {
      JoinAround(front[1..], parts, more);
      assert (front + parts)[1..] == front[1..] + parts && (front + more)[1..] == front[1..] + more;
    }
  }

  lemma JoinTwo(a: string, b: string, back: seq<string>)
    ensures Join([a, b] + back) == a + ['|'] + (if back == [] then b else b + ['|'] + Join(back))
  {
    assert ([a, b] + back)[1..] == [b] + back;
    assert ([b] + back)[1..] == back;
  }

  lemma SameText(x: string, y: string, z: string, rest: string)
    ensures (x + ['|'] + y) + ['|'] + (z + rest) == x + ['|'] + ((y + ['|'] + z) + rest)
  {
  }

  // Moving the boundary between two neighbours to another bar keeps the text.
  lemma BoundaryMoves(x: string, y: string, z: string, back: seq<string>)
    ensures Join([x + ['|'] + y, z] + back) == Join([x, y + ['|'] + z] + back)
  {
    JoinTwo(x + ['|'] + y, z, back);
    JoinTwo(x, y + ['|'] + z, back);
    var rest := if back == [] then "" else ['|'] + Join(back);
    SameText(x, y, z, rest);
    assert back == [] ==> z + rest == z && (y + ['|'] + z) + rest == y + ['|'] + z;
    assert back != [] ==> z + ['|'] + Join(back) == z + rest
                          && (y + ['|'] + z) + ['|'] + Join(back) == (y + ['|'] + z) + rest;
  }

  // A bar in part i can serve as the boundary to the part before it.
  function MovedLeft(parts: seq<string>, i: nat, at: nat): seq<string>
    requires 0 < i < |parts| && at < |parts[i]|
  {
    parts[i - 1 := parts[i - 1] + ['|'] + parts[i][..at]][i := parts[i][at + 1..]]
  }

  // Or to the part after it.
  function MovedRight(parts: seq<string>, i: nat, at: nat): seq<string>
    requires i + 1 < |parts| && at < |parts[i]|
  {
    parts[i := parts[i][..at]][i + 1 := parts[i][at + 1..] + ['|'] + parts[i + 1]]
  }

  lemma MovedLeftSameText(parts: seq<string>, i: nat, at: nat)
    requires 0 < i < |parts| && at < |parts[i]| && parts[i][at] == '|'
    ensures Join(MovedLeft(parts, i, at)) == Join(parts) && MovedLeft(parts, i, at) != parts
  {
    var x, y, z, back := parts[i - 1], parts[i][..at], parts[i][at + 1..], parts[i + 1..];
    assert parts[i] == y + ['|'] + z;
    assert parts == parts[..i - 1] + ([x, y + ['|'] + z] + back);
    assert MovedLeft(parts, i, at) == parts[..i - 1] + ([x + ['|'] + y, z] + back);
    BoundaryMoves(x, y, z, back);
    JoinAround(parts[..i - 1], [x + ['|'] + y, z] + back, [x, y + ['|'] + z] + back);
    assert |MovedLeft(parts, i, at)[i]| < |parts[i]|;
  }

  lemma MovedRightSameText(parts: seq<string>, i: nat, at: nat)
    requires i + 1 < |parts| && at < |parts[i]| && parts[i][at] == '|'
    ensures Join(MovedRight(parts, i, at)) == Join(parts) && MovedRight(parts, i, at) != parts
  {
    var x, y, z, back := parts[i][..at], parts[i][at + 1..], parts[i + 1], parts[i + 2..];
    assert parts[i] == x + ['|'] + y;
    assert parts == parts[..i] + ([x + ['|'] + y, z] + back);
    assert MovedRight(parts, i, at) == parts[..i] + ([x, y + ['|'] + z] + back);
    BoundaryMoves(x, y, z, back);
    JoinAround(parts[..i], [x + ['|'] + y, z] + back, [x, y + ['|'] + z] + back);
    assert |MovedRight(parts, i, at)[i]| < |parts[i]|;
  }

  // A row and previous hash with these hashed fields; columns whose field is
  // as in r stay as in r.
  function WithFields(r: Row, fields: seq<string>): Row
    requires |fields| == 9
  {
    r.(id := fields[0], actorType := fields[1],
       actorId := if fields[2] == OrEmpty(r.actorId) then r.actorId else Some(fields[2]),
       action := fields[3], resourceType := Rendering(r.resourceType, fields[4]),
       resourceId := Rendering(r.resourceId, fields[5]), createdAt := fields[6],
       company := Rendering(r.company, fields[7]))
  }

  function Rendering(x: Option<string>, text: string): (y: Option<string>)
    ensures Render(y) == text
  {
    if Render(x) == text then x else Some(text)
  }

  // A bar in any hashed field lets another row have the same hash: the text
  // moves across the boundary to a neighbouring field. From a free-text field
  // it moves to another one; id, time, company and link stay.
  lemma BarMovesText(h: Hash, r: Row, p: Option<string>, i: nat) returns (s: Row, q: Option<string>)
    requires i < 9 && '|' in HashedFields(r, p)[i]
    ensures EntryHash(h, s, q) == EntryHash(h, r, p) && HashedFields(s, q) != HashedFields(r, p)
    ensures 1 <= i <= 5 ==> s.id == r.id && s.createdAt == r.createdAt && s.company == r.company && q == p
  {
    var moved := SameTextElsewhere(HashedFields(r, p), i);
    HasFields(r, p, moved);
    s, q := WithFields(r, moved), Rendering(p, moved[8]);
  }

  lemma SameTextElsewhere(fields: seq<string>, i: nat) returns (moved: seq<string>)
    requires |fields| == 9 && i < 9 && '|' in fields[i]
    ensures |moved| == 9 && Join(moved) == Join(fields) && moved != fields
    ensures 1 <= i <= 5 ==> moved[0] == fields[0] && moved[6..] == fields[6..]
  {
    var at :| 0 <= at < |fields[i]| && fields[i][at] == '|';
    if i <= 1 {
      moved := MovedRight(fields, i, at);
      MovedRightSameText(fields, i, at);
    } else {
      moved := MovedLeft(fields, i, at);
      MovedLeftSameText(fields, i, at);
    }
  }

  lemma HasFields(r: Row, p: Option<string>, fields: seq<string>)
    requires |fields| == 9
    ensures HashedFields(WithFields(r, fields), Rendering(p, fields[8])) == fields
    ensures fields[0] == r.id && fields[6..] == HashedFields(r, p)[6..] ==>
              var s := WithFields(r, fields);
              s.id == r.id && s.createdAt == r.createdAt && s.company == r.company && Rendering(p, fields[8]) == p
  {
    assert fields[6..] == [fields[6], fields[7], fields[8]];
    assert HashedFields(r, p)[6..] == [r.createdAt, Render(r.company), Render(p)];
  }

  // The entry hash determines the hashed fields of exactly the rows without a
  // bar in any of them.
  lemma DeterminedIffBarFree(h: Hash, r: Row, p: Option<string>)
    requires Injective(h)
    ensures AllBarFree(HashedFields(r, p)) <==>
            forall s, q :: EntryHash(h, s, q) == EntryHash(h, r, p) ==> HashedFields(s, q) == HashedFields(r, p)
  {
    if AllBarFree(HashedFields(r, p)) {
      forall s, q | EntryHash(h, s, q) == EntryHash(h, r, p) ensures HashedFields(s, q) == HashedFields(r, p) {
        SameHashSameFields(h, r, p, s, q);
      }
    } else {
      var i :| 0 <= i < 9 && !BarFree(HashedFields(r, p)[i]);
      var s, q := BarMovesText(h, r, p, i);
    }
  }

  /* --- decimal text --- */

  function Digit(d: nat): char
    requires d < 10
  {
    ('0' as int + d) as char
  }

  function Digits(n: nat): (s: string)
    ensures s != [] && forall c <- s :: '0' <= c <= '9'
  {
    if n < 10 then [Digit(n)] else Digits(n / 10) + [Digit(n % 10)]
  }

  function Decimal(n: int): string {
    if n < 0 then ['-'] + Digits(-n) else Digits(n)
  }

  lemma {:induction false} DigitsInjective(m: nat, n: nat)
    requires Digits(m) == Digits(n)
    ensures m == n
  {
    var s := Digits(m);
    assert s[|s| - 1] == Digit(m % 10) == Digit(n % 10);
    if m < 10 || n < 10 {
      assert m >= 10 ==> |Digits(m)| > 1;
      assert n >= 10 ==> |Digits(n)| > 1;
    } else {
      assert Digits(m / 10) == s[..|s| - 1] == Digits(n / 10);
      DigitsInjective(m / 10, n / 10);
    }
  }

  lemma DecimalInjective(m: int, n: int)
    requires Decimal(m) == Decimal(n)
    ensures m == n
  {
    if m < 0 && n < 0 {
      assert Decimal(m)[1..] == Decimal(n)[1..];
      DigitsInjective(-m, -n);
    } else if m >= 0 && n >= 0 {
      DigitsInjective(m, n);
    } else {
      Sign(m);
      Sign(n);
      assert false;
    }
  }

  lemma Sign(n: int)
    ensures Decimal(n)[0] == '-' <==> n < 0
  {
    assert n >= 0 ==> Decimal(n)[0] in Digits(n);
  }

  /* --- the legacy digest --- */

  // f"{r.sequence_number}:{r.entry_hash}"
  function DigestItem(r: Row): string
    requires r.sequence.Some?
  {
    Decimal(r.sequence.value) + [':'] + Render(r.entryHash)
  }

  function DigestItems(rows: seq<Row>): seq<string>
    requires forall r <- rows :: r.sequence.Some?
  {
    seq(|rows|, i requires 0 <= i < |rows| => DigestItem(rows[i]))
  }

  function LegacyDigest(h: Hash, rows: seq<Row>): string
    requires forall r <- rows :: r.sequence.Some?
  {
    h("legacy-global-chain|" + Join(DigestItems(rows)))
  }

  // Same number and hash, the latter as rendered.
  predicate SameEntry(r: Row, s: Row) {
    r.sequence == s.sequence && Render(r.entryHash) == Render(s.entryHash)
  }

  predicate SameEntries(a: seq<Row>, b: seq<Row>) {
    |a| == |b| && forall i :: 0 <= i < |a| ==> SameEntry(a[i], b[i])
  }

  predicate Chained(rows: seq<Row>) {
    forall r <- rows :: r.sequence.Some?
  }

  predicate HashesBarFree(rows: seq<Row>) {
    forall r <- rows :: BarFree(Render(r.entryHash))
  }

  lemma NoColon(n: int)
    ensures ':' !in Decimal(n) && '|' !in Decimal(n)
  {
  }

  lemma ItemDetermines(r: Row, s: Row)
    requires r.sequence.Some? && s.sequence.Some?
    ensures DigestItem(r) == DigestItem(s) <==> SameEntry(r, s)
  {
    if DigestItem(r) == DigestItem(s) {
      NoColon(r.sequence.value);
      NoColon(s.sequence.value);
      CutAt(Decimal(r.sequence.value), Render(r.entryHash), Decimal(s.sequence.value), Render(s.entryHash), ':');
      DecimalInjective(r.sequence.value, s.sequence.value);
    }
  }

  lemma DigestOfText(h: Hash, a: seq<Row>, b: seq<Row>)
    requires Chained(a) && Chained(b)
    ensures Join(DigestItems(a)) == Join(DigestItems(b)) ==> LegacyDigest(h, a) == LegacyDigest(h, b)
    ensures Injective(h) && LegacyDigest(h, a) == LegacyDigest(h, b) ==> Join(DigestItems(a)) == Join(DigestItems(b))
  {
    PrefixedHash(h, "legacy-global-chain|", Join(DigestItems(a)), Join(DigestItems(b)));
  }

  lemma PrefixedHash(h: Hash, p: string, x: string, y: string)
    ensures Injective(h) && h(p + x) == h(p + y) ==> x == y
  {
    if Injective(h) && h(p + x) == h(p + y) {
      PrefixCancels(p, x, y);
    }
  }

  // What the digest of a list without bars in its hashes tells about another
  // list: the other is no longer; it has the same numbers and hashes in the
  // same order exactly if it is no shorter, and exactly if it has no bar either.
  lemma SameDigestMeans(h: Hash, a: seq<Row>, b: seq<Row>)
    requires Injective(h) && Chained(a) && Chained(b) && HashesBarFree(a)
    requires LegacyDigest(h, a) == LegacyDigest(h, b)
    ensures |b| <= |a|
    ensures SameEntries(a, b) <==> |a| == |b|
    ensures SameEntries(a, b) <==> HashesBarFree(b)
  {
    var x, y := DigestItems(a), DigestItems(b);
    DigestOfText(h, a, b);
    ItemsBarFree(a);
    ItemsBarFree(b);
    JoinMeans(x, y);
    SameEntriesSameItems(a, b);
  }

  lemma JoinMeans(x: seq<string>, y: seq<string>)
    requires AllBarFree(x) && "" !in x && "" !in y && Join(x) == Join(y)
    ensures |y| <= |x|
    ensures x == y <==> |x| == |y|
    ensures x == y <==> AllBarFree(y)
  {
    Heads(x);
    Heads(y);
    if x != [] && y != [] {
      BarsOfJoin(x);
      BarsOfJoin(y);
      if |x| == |y| { JoinDetermines(x, y); }
    }
  }

  // So two lists, one of them without bars, have the same digest and length
  // exactly when they have the same entries.
  lemma SameDigestIffSameEntries(h: Hash, a: seq<Row>, b: seq<Row>)
    requires Injective(h) && Chained(a) && Chained(b) && HashesBarFree(a)
    ensures LegacyDigest(h, a) == LegacyDigest(h, b) && |a| == |b| <==> SameEntries(a, b)
    ensures HashesBarFree(b) ==> (LegacyDigest(h, a) == LegacyDigest(h, b) <==> SameEntries(a, b))
  {
    SameEntriesSameItems(a, b);
    if LegacyDigest(h, a) == LegacyDigest(h, b) {
      SameDigestMeans(h, a, b);
    }
  }

  lemma PrefixCancels(p: string, x: string, y: string)
    requires p + x == p + y
    ensures x == y
  {
    assert (p + x)[|p|..] == x && (p + y)[|p|..] == y;
  }

  lemma SameEntriesSameItems(a: seq<Row>, b: seq<Row>)
    requires Chained(a) && Chained(b)
    ensures SameEntries(a, b) <==> DigestItems(a) == DigestItems(b)
  {
    var x, y := DigestItems(a), DigestItems(b);
    if x == y { assert |a| == |x| == |y| == |b|; }
    if |a| == |b| {
      forall i | 0 <= i < |a| ensures x[i] == y[i] <==> SameEntry(a[i], b[i]) {
        assert a[i] in a && b[i] in b;
        ItemDetermines(a[i], b[i]);
      }
    }
  }

  lemma ItemsNonempty(rows: seq<Row>)
    requires Chained(rows)
    ensures "" !in DigestItems(rows)
  {
  }

  lemma ItemsBarFree(rows: seq<Row>)
    requires Chained(rows)
    ensures AllBarFree(DigestItems(rows)) <==> HashesBarFree(rows)
    ensures "" !in DigestItems(rows)
  {
    ItemsNonempty(rows);
    forall i | 0 <= i < |rows| ensures BarFree(DigestItems(rows)[i]) <==> BarFree(Render(rows[i].entryHash)) {
      assert rows[i] in rows;
      NoColon(rows[i].sequence.value);
    }
    forall i | 0 <= i < |rows| ensures DigestItems(rows)[i] in DigestItems(rows) && rows[i] in rows {
    }
  }

  // If moreover every row matches its own hash, and the fields of the one list
  // have no bar, the lists agree on every hashed field of every row.
  lemma SameDigestSameFields(h: Hash, a: seq<Row>, b: seq<Row>, i: nat)
    requires Injective(h) && Chained(a) && Chained(b) && HashesBarFree(a) && (|a| == |b| || HashesBarFree(b))
    requires LegacyDigest(h, a) == LegacyDigest(h, b)
    requires forall r :: r in a || r in b ==> MatchesHash(h, r)
    requires forall r <- a :: AllBarFree(HashedFields(r, r.previousHash))
    requires i < |a|
    ensures i < |b| && a[i].sequence == b[i].sequence
    ensures HashedFields(a[i], a[i].previousHash) == HashedFields(b[i], b[i].previousHash)
  {
    SameDigestIffSameEntries(h, a, b);
    assert a[i] in a && b[i] in b && SameEntry(a[i], b[i]);
    SameHashSameFields(h, a[i], a[i].previousHash, b[i], b[i].previousHash);
  }

  /* --- merging rows --- */

  // One row that reads, in the digest, like r and s.
  function Merged(r: Row, s: Row): Row
    requires s.sequence.Some?
  {
    r.(entryHash := Some(Render(r.entryHash) + (['|'] + DigestItem(s))))
  }

  function MergedAt(rows: seq<Row>, i: nat): seq<Row>
    requires i + 1 < |rows| && Chained(rows)
  {
    assert rows[i + 1] in rows;
    rows[..i] + ([Merged(rows[i], rows[i + 1])] + rows[i + 2..])
  }

  lemma JoinMerges(x: string, y: string, back: seq<string>)
    ensures Join([x + (['|'] + y)] + back) == Join([x, y] + back)
  {
    JoinTwo(x, y, back);
    assert ([x + (['|'] + y)] + back)[1..] == back;
    if back != [] { Regroup(x, ['|'] + y, ['|'] + Join(back)); }
  }

  lemma MergedItem(r: Row, s: Row)
    requires r.sequence.Some? && s.sequence.Some?
    ensures DigestItem(Merged(r, s)) == DigestItem(r) + (['|'] + DigestItem(s))
  {
    Regroup(Decimal(r.sequence.value) + [':'], Render(r.entryHash), ['|'] + DigestItem(s));
  }

  lemma ItemsAppend(a: seq<Row>, b: seq<Row>)
    requires Chained(a) && Chained(b)
    ensures Chained(a + b) && DigestItems(a + b) == DigestItems(a) + DigestItems(b)
  {
    var all, x, y := DigestItems(a + b), DigestItems(a), DigestItems(b);
    assert |all| == |x + y|;
    forall k | 0 <= k < |all| ensures all[k] == (x + y)[k] {
    }
  }

  lemma MergeSameText(front: seq<Row>, r: Row, s: Row, back: seq<Row>)
    requires Chained(front) && Chained([r, s]) && Chained(back)
    ensures Chained(front + ([Merged(r, s)] + back)) && Chained(front + ([r, s] + back))
    ensures Join(DigestItems(front + ([Merged(r, s)] + back))) == Join(DigestItems(front + ([r, s] + back)))
  {
    assert r in [r, s] && s in [r, s];
    var x, y := DigestItem(r), DigestItem(s);
    ItemsAppend([Merged(r, s)], back);
    ItemsAppend(front, [Merged(r, s)] + back);
    ItemsAppend([r, s], back);
    ItemsAppend(front, [r, s] + back);
    MergedItem(r, s);
    assert DigestItems([Merged(r, s)]) == [x + (['|'] + y)] && DigestItems([r, s]) == [x, y];
    JoinMerges(x, y, DigestItems(back));
    JoinAround(DigestItems(front), [x + (['|'] + y)] + DigestItems(back), [x, y] + DigestItems(back));
  }

  // In every list, two neighbours can be merged into one row: the list gets
  // shorter and the digest stays, whatever the hash function.
  lemma MergeKeepsDigest(h: Hash, rows: seq<Row>, i: nat)
    requires i + 1 < |rows| && Chained(rows)
    ensures Chained(MergedAt(rows, i)) && |MergedAt(rows, i)| == |rows| - 1
    ensures LegacyDigest(h, MergedAt(rows, i)) == LegacyDigest(h, rows)
  {
    ChainedParts(rows, i);
    MergeSameText(rows[..i], rows[i], rows[i + 1], rows[i + 2..]);
    DigestOfText(h, rows, MergedAt(rows, i));
  }

  lemma ChainedParts(rows: seq<Row>, i: nat)
    requires i + 1 < |rows| && Chained(rows)
    ensures Chained(rows[..i]) && Chained([rows[i], rows[i + 1]]) && Chained(rows[i + 2..])
    ensures rows == rows[..i] + ([rows[i], rows[i + 1]] + rows[i + 2..])
  {
    assert rows[i] in rows && rows[i + 1] in rows;
    assert forall r :: r in rows[..i] || r in rows[i + 2..] ==> r in rows;
  }

  // The digest alone determines exactly the bar-free lists of at most one row.
  lemma DigestDeterminesIffShort(h: Hash, a: seq<Row>)
    requires Injective(h) && Chained(a) && HashesBarFree(a)
    ensures |a| <= 1 <==>
            forall b :: Chained(b) && LegacyDigest(h, b) == LegacyDigest(h, a) ==> SameEntries(a, b)
  {
    if |a| <= 1 {
      forall b | Chained(b) && LegacyDigest(h, b) == LegacyDigest(h, a) ensures SameEntries(a, b) {
        SameDigestMeans(h, a, b);
        if b == [] { NoEmptyDigest(h, a); }
      }
    } else {
      MergeKeepsDigest(h, a, 0);
    }
  }

  lemma NoEmptyDigest(h: Hash, a: seq<Row>)
    requires Injective(h) && Chained(a) && LegacyDigest(h, a) == LegacyDigest(h, [])
    ensures a == []
  {
    DigestOfText(h, a, []);
    ItemsNonempty(a);
    Heads(DigestItems(a));
  }

  lemma Regroup(a: string, b: string, c: string)
    ensures (a + b) + c == a + (b + c)
  {
  }

  /* --- intact chains --- */

  const GENESIS := "genesis"

  // The row links to "genesis" or to the hash of an earlier row.
  ghost predicate LinksBack(rows: seq<Row>, i: nat)
    requires i < |rows|
  {
    rows[i].previousHash == Some(GENESIS) || exists j :: 0 <= j < i && rows[j].entryHash == rows[i].previousHash
  }

  ghost predicate Intact(h: Hash, rows: seq<Row>) {
    forall i :: 0 <= i < |rows| ==> RowIntact(h, rows, i)
  }

  ghost predicate RowIntact(h: Hash, rows: seq<Row>, i: nat)
    requires i < |rows|
  {
    MatchesHash(h, rows[i]) && LinksBack(rows, i)
  }

  // The single pass over the rows: seen, intact.
  method CheckIntact(h: Hash, rows: seq<Row>) returns (intact: bool)
    ensures intact <==> Intact(h, rows)
  {
    var seen := {Some(GENESIS)};
    intact := true;
    var i := 0;
    while i < |rows|
      invariant i <= |rows|
      invariant forall x :: x in seen <==> x == Some(GENESIS) || exists j :: 0 <= j < i && rows[j].entryHash == x
      invariant intact <==> forall j :: 0 <= j < i ==> RowIntact(h, rows, j)
    {
      assert RowIntact(h, rows, i) <==> rows[i].previousHash in seen && MatchesHash(h, rows[i]);
      if rows[i].previousHash !in seen || Some(EntryHash(h, rows[i], rows[i].previousHash)) != rows[i].entryHash {
        intact := false;
      }
      seen := seen + {rows[i].entryHash};
      i := i + 1;
    }
  }

  // One link followed: from a row that does not start a chain to a row with
  // the hash it names.
  predicate Link(rows: seq<Row>, i: nat, j: nat) {
    && i < |rows| && j < |rows|
    && rows[i].previousHash != Some(GENESIS)
    && rows[j].entryHash == rows[i].previousHash
  }

  ghost predicate LinkPath(rows: seq<Row>, path: seq<nat>) {
    && (forall i <- path :: i < |rows|)
    && (forall k, l :: 0 <= k && k + 1 == l < |path| ==> Link(rows, path[k], path[l]))
  }

  // From any row of an intact list, earlier and earlier rows lead to one that
  // links to "genesis".
  lemma {:induction false} ReachesGenesis(h: Hash, rows: seq<Row>, i: nat) returns (path: seq<nat>)
    requires Intact(h, rows) && i < |rows|
    ensures path != [] && path[0] == i && LinkPath(rows, path)
    ensures forall k, l :: 0 <= k < l < |path| ==> path[k] > path[l]
    ensures rows[path[|path| - 1]].previousHash == Some(GENESIS)
  {
    assert RowIntact(h, rows, i);
    if rows[i].previousHash == Some(GENESIS) {
      path := [i];
    } else {
      var j :| 0 <= j < i && rows[j].entryHash == rows[i].previousHash;
      var rest := ReachesGenesis(h, rows, j);
      path := [i] + rest;
    }
  }

  // Two rows with the same hash have the same id, whatever their other fields.
  lemma SameHashSameId(h: Hash, r: Row, p: Option<string>, s: Row, q: Option<string>)
    requires Injective(h) && BarFree(r.id) && BarFree(s.id) && EntryHash(h, r, p) == EntryHash(h, s, q)
    ensures r.id == s.id
  {
    var a, b := HashedFields(r, p), HashedFields(s, q);
    CutAt(a[0], Join(a[1..]), b[0], Join(b[1..]), '|');
  }

  // In an intact list no two rows share a hash, so there is only one link to follow.
  lemma HashesDistinct(h: Hash, rows: seq<Row>, i: nat, j: nat)
    requires Injective(h) && Intact(h, rows) && i < |rows| && j < |rows|
    requires forall r <- rows :: BarFree(r.id)
    requires forall k, l :: 0 <= k < l < |rows| ==> rows[k].id != rows[l].id
    requires rows[i].entryHash == rows[j].entryHash
    ensures i == j
  {
    assert rows[i] in rows && rows[j] in rows;
    assert RowIntact(h, rows, i) && RowIntact(h, rows, j);
    SameHashSameId(h, rows[i], rows[i].previousHash, rows[j], rows[j].previousHash);
  }

  // Whichever links are followed, and in whatever way, from row i the walk
  // moves strictly back and so has at most i + 1 rows: links never form a circle.
  lemma {:induction false} LinkPathsEnd(h: Hash, rows: seq<Row>, path: seq<nat>)
    requires Injective(h) && Intact(h, rows)
    requires forall r <- rows :: BarFree(r.id)
    requires forall k, l :: 0 <= k < l < |rows| ==> rows[k].id != rows[l].id
    requires LinkPath(rows, path) && path != []
    ensures |path| <= path[0] + 1
  {
    if |path| == 1 {
    } else {
      var i, next := path[0], path[1];
      assert path[0] in path && path[1] in path;
      assert Link(rows, i, next) && RowIntact(h, rows, i);
      var j :| 0 <= j < i && rows[j].entryHash == rows[i].previousHash;
      HashesDistinct(h, rows, next, j);
      var rest := path[1..];
      assert forall k <- rest :: k in path;
      assert LinkPath(rows, rest) by {
        forall k, l | 0 <= k && k + 1 == l < |rest| ensures Link(rows, rest[k], rest[l]) {
          assert Link(rows, path[k + 1], path[l + 1]);
        }
      }
      LinkPathsEnd(h, rows, path[1..]);
    }
  }
}
