// _seal_legacy_chains: one seal row per company appended to audit_log.
module AuditSeal {
  import opened AuditChain
  import opened Grouping
  import opened Ordering
  import opened Wrappers

  const SEALED := "audit.chain_sealed"
  const INTACT := "legacy_intact"
  const BROKEN := "legacy_broken"

  function CompanyOf(r: Row): Option<string> {
    r.company
  }

  predicate IsChained(r: Row) {
    r.sequence.Some?
  }

  predicate SequenceLeq(a: Row, b: Row) {
    a.sequence.None? || (b.sequence.Some? && a.sequence.value <= b.sequence.value)
  }

  // SELECT ... WHERE sequence_number IS NOT NULL ORDER BY sequence_number
  function ChainedRows(rows: seq<Row>): seq<Row> {
    Sorted(Under(rows, IsChained, true), SequenceLeq)
  }

  // A company's chained rows in sequence order.
  function LegacyOf(rows: seq<Row>, company: Option<string>): seq<Row> {
    Under(ChainedRows(rows), CompanyOf, company)
  }

  function UnchainedCount(rows: seq<Row>, company: Option<string>): nat {
    |Under(Under(rows, IsChained, false), CompanyOf, company)|
  }

  // What the old unique index on sequence_number guarantees.
  ghost predicate UniqueSequence(rows: seq<Row>) {
    forall i, j :: 0 <= i < j < |rows| && IsChained(rows[i]) && IsChained(rows[j]) ==>
        rows[i].sequence != rows[j].sequence
  }

  // What the new one demands: unique (company_id, sequence_number), nulls not distinct.
  ghost predicate UniqueCompanySequence(rows: seq<Row>) {
    forall i, j :: 0 <= i < j < |rows| && IsChained(rows[i]) && IsChained(rows[j]) ==>
      rows[i].company != rows[j].company || rows[i].sequence != rows[j].sequence
  }

  // The new index accepts the row.
  ghost predicate Accepts(rows: seq<Row>, r: Row) {
    IsChained(r) ==> forall i :: 0 <= i < |rows| && IsChained(rows[i]) ==>
        rows[i].company != r.company || rows[i].sequence != r.sequence
  }

  // seal closes the chain `legacy` of `company`.
  ghost predicate Seals(h: Hash, seal: Row, company: Option<string>, legacy: seq<Row>, intact: bool) {
    && legacy != [] && Chained(legacy)
    && seal.company == company && seal.action == SEALED
    && seal.resourceId == Some(if intact then INTACT else BROKEN)
    && seal.sequence == Some(legacy[|legacy| - 1].sequence.value + 1)
    && seal.previousHash == Some(LegacyDigest(h, legacy))
    && MatchesHash(h, seal)
  }

  lemma SequenceOrder()
    ensures Preorder(SequenceLeq)
  {
  }

  lemma ChainedFacts(rows: seq<Row>)
    ensures Ascending(ChainedRows(rows), SequenceLeq)
    ensures forall r :: multiset(ChainedRows(rows))[r] == if IsChained(r) then multiset(rows)[r] else 0
    ensures forall r :: r in ChainedRows(rows) <==> r in rows && IsChained(r)
  {
    var some := Under(rows, IsChained, true);
    UnderMembers(rows, IsChained, true);
    SameMembers(some, ChainedRows(rows));
    SequenceOrder();
    SortedAscends(some, SequenceLeq);
  }

  lemma LegacyFacts(rows: seq<Row>, company: Option<string>)
    ensures Chained(LegacyOf(rows, company))
    ensures Ascending(LegacyOf(rows, company), SequenceLeq)
    ensures forall r :: multiset(LegacyOf(rows, company))[r] ==
              if IsChained(r) && r.company == company then multiset(rows)[r] else 0
    ensures forall r :: r in LegacyOf(rows, company) <==> r in rows && IsChained(r) && r.company == company
  {
    ChainedFacts(rows);
    UnderMembers(ChainedRows(rows), CompanyOf, company);
    UnderAscends(ChainedRows(rows), CompanyOf, company, SequenceLeq);
  }

  // The seal row the loop builds for one company.
  function BuildSeal(h: Hash, id: string, company: Option<string>, legacy: seq<Row>, intact: bool, unchained: nat,
                     now: string): Row
    requires legacy != [] && Chained(legacy)
  {
    var last := legacy[|legacy| - 1].sequence.value;
    var seal := Row(id, company, "system", None, SEALED, Some("audit_chain"), Some(if intact then INTACT else BROKEN),
                    SealDetails(|legacy|, last, unchained), now, Some(last + 1), None, Some(LegacyDigest(h, legacy)));
    seal.(entryHash := Some(EntryHash(h, seal, seal.previousHash)))
  }

  type Chains = Groups<Option<string>, Row>

  // What one sealing works on: the rows before it, the chains by company, the
  // uuid4 values drawn, the time and the verdict.
  datatype Sealing = Sealing(h: Hash, all: seq<Row>, chains: Chains, ids: nat -> string, now: string, intact: bool)

  // What the seal tells about the chain, besides closing it.
  ghost predicate Tells(seal: Row, id: string, now: string, legacy: seq<Row>, unchained: nat)
    requires legacy != [] && Chained(legacy)
  {
    && seal.id == id && seal.createdAt == now
    && seal.actorType == "system" && seal.actorId.None? && seal.resourceType == Some("audit_chain")
    && seal.details == SealDetails(|legacy|, legacy[|legacy| - 1].sequence.value, unchained)
  }

  ghost predicate SealAt(c: Sealing, seals: seq<Row>, j: nat) {
    && j < |seals| && j < |c.chains.keys| && c.chains.keys[j] in c.chains.members
    && var company := c.chains.keys[j];
    && Seals(c.h, seals[j], company, c.chains.members[company], c.intact)
    && Tells(seals[j], c.ids(j), c.now, c.chains.members[company], UnchainedCount(c.all, company))
  }

  // One seal for each of the first chains, in order.
  ghost predicate OneSealEach(c: Sealing, seals: seq<Row>) {
    && |seals| <= |c.chains.keys|
    && forall j {:trigger SealAt(c, seals, j)} :: 0 <= j < |seals| ==> SealAt(c, seals, j)
  }

  class AuditLog {
    var rows: seq<Row>

    constructor (rows: seq<Row>)
      ensures this.rows == rows
    {
      this.rows := rows;
    }

    // INSERT under the new unique index.
    method Insert(r: Row)
      requires Accepts(rows, r) && UniqueCompanySequence(rows)
      modifies this
      ensures rows == old(rows) + [r] && UniqueCompanySequence(rows)
    {
      rows := rows + [r];
    }

    // The ghost results are the chains by company and their seals, in order.
    method SealLegacyChains(h: Hash, ids: nat -> string, now: string)
      returns (ghost chains: Chains, ghost seals: seq<Row>)
      requires UniqueSequence(rows)
      modifies this
      ensures IsGrouping(chains, ChainedRows(old(rows)), CompanyOf)
      ensures rows == old(rows) + seals && |seals| == |chains.keys|
      ensures OneSealEach(Sealing(h, old(rows), chains, ids, now, Intact(h, ChainedRows(old(rows)))), seals)
      ensures UniqueCompanySequence(rows)
    {
      var all := rows;
      var chained := ChainedRows(all);
      var intact := CheckIntact(h, chained);
      var groups := GroupBy(chained, CompanyOf);
      chains, seals := groups, [];
      var context := Sealing(h, all, groups, ids, now, intact);
      GroupsAreLegacies(all, groups);
      var k := 0;
      while k < |groups.keys|
        invariant k == |seals| <= |groups.keys|
        invariant rows == all + seals
        invariant OneSealEach(context, seals)
        invariant UniqueCompanySequence(rows)
      {
        ghost var seal := SealOne(context, k, seals);
        seals := seals + [seal];
        k := k + 1;
      }
    }

    // One turn of the loop over the companies.
    method SealOne(c: Sealing, k: nat, ghost seals: seq<Row>) returns (ghost seal: Row)
      requires k == |seals| < |c.chains.keys| && Distinct(c.chains.keys) && ChainsAreLegacies(c.all, c.chains)
      requires OneSealEach(c, seals)
      requires rows == c.all + seals && UniqueCompanySequence(rows)
      modifies this
      ensures rows == c.all + (seals + [seal]) && UniqueCompanySequence(rows)
      ensures OneSealEach(c, seals + [seal])
    {
      var company := c.chains.keys[k];
      var legacy := c.chains.members[company];
      var row := BuildSeal(c.h, c.ids(k), company, legacy, c.intact, UnchainedCount(c.all, company), c.now);
      SealCloses(c.h, c.ids(k), company, legacy, c.intact, UnchainedCount(c.all, company), c.now);
      SealFits(c, seals, row);
      SealedNext(c, seals, row);
      Insert(row);
      seal := row;
    }
  }

  // The chains hold each company's chained rows in sequence order.
  ghost predicate ChainsAreLegacies(all: seq<Row>, chains: Chains) {
    forall company <- chains.keys ::
      && company in chains.members
      && ChainOf(all, company, chains.members[company])
  }

  ghost predicate ChainOf(all: seq<Row>, company: Option<string>, legacy: seq<Row>) {
    && legacy != [] && Chained(legacy)
    && legacy == LegacyOf(all, company)
  }

  lemma GroupsAreLegacies(all: seq<Row>, chains: Chains)
    requires IsGrouping(chains, ChainedRows(all), CompanyOf)
    ensures ChainsAreLegacies(all, chains)
  {
    forall company | company in chains.keys
      ensures company in chains.members && ChainOf(all, company, chains.members[company])
    {
      assert company in Elements(chains.keys);
      LegacyFacts(all, company);
    }
  }

  lemma SealCloses(h: Hash, id: string, company: Option<string>, legacy: seq<Row>, intact: bool, unchained: nat,
                   now: string)
    requires legacy != [] && Chained(legacy)
    ensures Seals(h, BuildSeal(h, id, company, legacy, intact, unchained, now), company, legacy, intact)
    ensures Tells(BuildSeal(h, id, company, legacy, intact, unchained, now), id, now, legacy, unchained)
  {
  }

  // The seal is the last row of its chain.
  lemma SealComesLast(rows: seq<Row>, company: Option<string>, h: Hash, seal: Row, intact: bool, r: Row)
    requires Seals(h, seal, company, LegacyOf(rows, company), intact)
    requires r in rows && IsChained(r) && r.company == company
    ensures r.sequence.value < seal.sequence.value
  {
    var legacy := LegacyOf(rows, company);
    LegacyFacts(rows, company);
    var i :| 0 <= i < |legacy| && legacy[i] == r;
    assert i < |legacy| - 1 ==> SequenceLeq(legacy[i], legacy[|legacy| - 1]);
  }

  // The next seal's number is new in its company: larger than all its rows',
  // and no earlier seal belongs to it.
  lemma SealFits(c: Sealing, seals: seq<Row>, seal: Row)
    requires |seals| < |c.chains.keys| && Distinct(c.chains.keys) && ChainsAreLegacies(c.all, c.chains)
    requires OneSealEach(c, seals)
    requires Seals(c.h, seal, c.chains.keys[|seals|], c.chains.members[c.chains.keys[|seals|]], c.intact)
    ensures Accepts(c.all + seals, seal)
  {
    var all, rows := c.all, c.all + seals;
    var company := c.chains.keys[|seals|];
    assert company in c.chains.keys && ChainOf(all, company, c.chains.members[company]);
    forall i | 0 <= i < |rows| && IsChained(rows[i])
      ensures rows[i].company != seal.company || rows[i].sequence != seal.sequence
    {
      if i < |all| {
        assert rows[i] == all[i] && rows[i] in all;
        if rows[i].company == seal.company { SealComesLast(all, company, c.h, seal, c.intact, rows[i]); }
      } else {
        assert rows[i] == seals[i - |all|] && SealAt(c, seals, i - |all|);
      }
    }
  }

  lemma SealedNext(c: Sealing, seals: seq<Row>, seal: Row)
    requires |seals| < |c.chains.keys| && c.chains.keys[|seals|] in c.chains.members
    requires OneSealEach(c, seals) && SealAt(c, seals + [seal], |seals|)
    ensures OneSealEach(c, seals + [seal])
  {
    var more := seals + [seal];
    forall j | 0 <= j < |more| ensures SealAt(c, more, j) {
      assert j < |seals| ==> more[j] == seals[j] && SealAt(c, seals, j);
    }
  }

  // A later reading of a chain sealed without bars in its hashes: it has the
  // seal's digest and the sealed number of rows exactly when no row was
  // changed, removed or added. By the digest alone, rows may have been merged,
  // and only if a hash now has a bar.
  lemma SealDetects(h: Hash, seal: Row, company: Option<string>, legacy: seq<Row>, intact: bool, later: seq<Row>)
    requires Injective(h) && Seals(h, seal, company, legacy, intact)
    requires Chained(later) && HashesBarFree(legacy)
    ensures SameEntries(legacy, later) <==> seal.previousHash == Some(LegacyDigest(h, later)) && |later| == |legacy|
    ensures seal.previousHash == Some(LegacyDigest(h, later)) ==>
              |later| <= |legacy| && (SameEntries(legacy, later) <==> HashesBarFree(later))
  {
    SameDigestIffSameEntries(h, legacy, later);
    if LegacyDigest(h, legacy) == LegacyDigest(h, later) {
      SameDigestMeans(h, legacy, later);
    }
  }

  // Merging two sealed rows is such a change, and the seal's digest stays.
  lemma MergeUndetected(h: Hash, seal: Row, company: Option<string>, legacy: seq<Row>, intact: bool, i: nat)
    requires Seals(h, seal, company, legacy, intact) && i + 1 < |legacy|
    ensures Chained(MergedAt(legacy, i)) && !SameEntries(legacy, MergedAt(legacy, i))
    ensures seal.previousHash == Some(LegacyDigest(h, MergedAt(legacy, i)))
  {
    MergeKeepsDigest(h, legacy, i);
  }

  // The verdict is part of what the seal's own hash covers.
  lemma VerdictIsHashed(h: Hash, seal: Row, company: Option<string>, legacy: seq<Row>, intact: bool)
    requires Injective(h) && Seals(h, seal, company, legacy, intact)
    ensures !MatchesHash(h, seal.(resourceId := Some(if intact then BROKEN else INTACT)))
  {
    var flipped := seal.(resourceId := Some(if intact then BROKEN else INTACT));
    var a, b := HashedFields(seal, seal.previousHash), HashedFields(flipped, flipped.previousHash);
    if Join(a) == Join(b) {
      assert a == a[..5] + [a[5]] + a[6..] && b == a[..5] + [b[5]] + a[6..];
      SameAround(a[..5], a[5], b[5], a[6..]);
    }
    assert a[5] != b[5] by {
      assert INTACT[7] == 'i' && BROKEN[7] == 'b';
    }
  }

  // Changing one part of a joined text changes the text.
  lemma {:induction false} SameAround(front: seq<string>, x: string, y: string, back: seq<string>)
    requires Join(front + [x] + back) == Join(front + [y] + back)
    ensures x == y
  {
    var a, b := front + [x] + back, front + [y] + back;
    if front == [] {
      assert a == [x] + back && b == [y] + back && a[1..] == back && b[1..] == back;
      if back != [] {
        TailCancels(x, y, ['|'] + Join(back));
        assert Join(a) == x + (['|'] + Join(back)) && Join(b) == y + (['|'] + Join(back));
      }
    } else {
      assert a[1..] == front[1..] + [x] + back && b[1..] == front[1..] + [y] + back;
      PrefixCancels(front[0] + ['|'], Join(a[1..]), Join(b[1..]));
      SameAround(front[1..], x, y, back);
    }
  }

  lemma TailCancels(x: string, y: string, tail: string)
    ensures x + tail == y + tail ==> x == y
  {
    if x + tail == y + tail {
      assert |x| == |y|;
      assert x == (x + tail)[..|x|] && y == (y + tail)[..|x|];
    }
  }
}
