// The texts that are hashed, and the rows that are counted, written out.
module AuditTexts {
  import opened AuditChain
  import opened AuditSeal
  import opened Grouping
  import opened Ordering
  import opened Wrappers

  // The text under an entry hash: a missing actor is left out, any other
  // missing field reads "None".
  function EntryText(r: Row, previous: Option<string>): string {
    r.id + "|" + r.actorType + "|" + (if r.actorId.Some? then r.actorId.value else "") + "|" + r.action + "|"
      + (if r.resourceType.Some? then r.resourceType.value else "None") + "|"
      + (if r.resourceId.Some? then r.resourceId.value else "None") + "|" + r.createdAt + "|"
      + (if r.company.Some? then r.company.value else "None") + "|"
      + (if previous.Some? then previous.value else "None")
  }

  lemma {:induction false} JoinLast(parts: seq<string>, last: string)
    requires parts != []
    ensures Join(parts + [last]) == Join(parts) + "|" + last
  {
    if |parts| == 1 {
      JoinTwo(parts[0], last, []);
      assert parts + [last] == [parts[0], last] + [];
    } else {
      JoinLast(parts[1..], last);
      assert (parts + [last])[1..] == parts[1..] + [last];
      Regroup(parts[0] + ['|'], Join(parts[1..]), "|" + last);
    }
  }

  // The same one part at a time.
  function Barred(parts: seq<string>, n: nat): string
    requires n < |parts|
  {
    if n == 0 then parts[0] else Barred(parts, n - 1) + "|" + parts[n]
  }

  lemma {:induction false} JoinIsBarred(parts: seq<string>, n: nat)
    requires n < |parts|
    ensures Join(parts[..n + 1]) == Barred(parts, n)
  {
    if n == 0 {
    } else {
      JoinIsBarred(parts, n - 1);
      JoinLast(parts[..n], parts[n]);
      assert parts[..n + 1] == parts[..n] + [parts[n]];
    }
  }

  // What the entry hash of a row is the hash of.
  lemma EntryHashText(h: Hash, r: Row, previous: Option<string>)
    ensures EntryHash(h, r, previous) == h(EntryText(r, previous))
  {
    var f := HashedFields(r, previous);
    JoinIsBarred(f, 8);
    assert f[..9] == f;
    assert Barred(f, 2) == Barred(f, 0) + "|" + f[1] + "|" + f[2];
    assert Barred(f, 4) == Barred(f, 2) + "|" + f[3] + "|" + f[4];
    assert Barred(f, 6) == Barred(f, 4) + "|" + f[5] + "|" + f[6];
    assert Barred(f, 8) == Barred(f, 6) + "|" + f[7] + "|" + f[8];
  }

  // Nothing missing, and nothing there.
  lemma EntryHashTexts(h: Hash, r: Row, previous: Option<string>)
    ensures r.actorId.Some? && r.resourceType.Some? && r.resourceId.Some? && r.company.Some? && previous.Some? ==>
              EntryHash(h, r, previous) ==
              h(r.id + "|" + r.actorType + "|" + r.actorId.value + "|" + r.action + "|" + r.resourceType.value + "|"
                + r.resourceId.value + "|" + r.createdAt + "|" + r.company.value + "|" + previous.value)
    ensures r.actorId.None? && r.resourceType.None? && r.resourceId.None? && r.company.None? && previous.None? ==>
              EntryHash(h, r, previous) ==
              h(r.id + "|" + r.actorType + "|" + "" + "|" + r.action + "|" + "None" + "|" + "None" + "|" + r.createdAt
                + "|" + "None" + "|" + "None")
  {
    EntryHashText(h, r, previous);
  }

  // The number a text of digits denotes.
  function ReadDigits(s: string): nat {
    if s == "" || s[|s| - 1] < '0' then 0
    else 10 * ReadDigits(s[..|s| - 1]) + (s[|s| - 1] as int - '0' as int)
  }

  // A number's text is a minus sign if it is negative, then its digits without
  // leading zeros.
  lemma {:induction false} DecimalReads(n: int)
    ensures n < 0 ==> Decimal(n) == "-" + Decimal(-n)
    ensures n >= 0 ==>
              && ReadDigits(Decimal(n)) == n
              && (forall c <- Decimal(n) :: '0' <= c <= '9')
              && (n > 0 ==> Decimal(n)[0] != '0') && (n == 0 ==> Decimal(n) == "0")
    decreases if n < 0 then 0 else n
  {
    if n < 0 {
    } else if n < 10 {
      assert Decimal(n) == [Digit(n)] && [Digit(n)][..0] == "";
    } else {
      DecimalReads(n / 10);
      assert Decimal(n) == Decimal(n / 10) + [Digit(n % 10)];
      assert Decimal(n)[..|Decimal(n)| - 1] == Decimal(n / 10);
    }
  }

  // The text under the digest of a chain: number:hash, row after row.
  function DigestText(rows: seq<Row>): string
    requires Chained(rows)
  {
    if rows == [] then "legacy-global-chain|"
    else
      var init, last := rows[..|rows| - 1], rows[|rows| - 1];
      DigestText(init) + (if init == [] then "" else "|")
        + (Decimal(last.sequence.value) + ":" + (if last.entryHash.Some? then last.entryHash.value else "None"))
  }

  lemma ItemsNext(init: seq<Row>, last: Row)
    requires Chained(init) && last.sequence.Some?
    ensures Chained(init + [last])
    ensures Join(DigestItems(init + [last])) ==
            (if init == [] then "" else Join(DigestItems(init)) + "|") + DigestItem(last)
  {
    assert Chained([last]);
    ItemsAppend(init, [last]);
    assert DigestItems([last]) == [DigestItem(last)];
    if init == [] {
      assert DigestItems(init) + [DigestItem(last)] == [DigestItem(last)];
    } else {
      JoinLast(DigestItems(init), DigestItem(last));
    }
  }

  lemma {:induction false} DigestTextIs(rows: seq<Row>)
    requires Chained(rows)
    ensures DigestText(rows) == "legacy-global-chain|" + Join(DigestItems(rows))
  {
    if rows == [] {
    } else {
      var init, last := rows[..|rows| - 1], rows[|rows| - 1];
      assert last in rows && rows == init + [last];
      DigestTextIs(init);
      ItemsNext(init, last);
      PrefixedItems(Join(DigestItems(init)), if init == [] then "" else "|", DigestItem(last));
    }
  }

  lemma PrefixedItems(items: string, bar: string, item: string)
    ensures "legacy-global-chain|" + items + bar + item == "legacy-global-chain|" + (items + bar + item)
  {
  }

  lemma LegacyDigestText(h: Hash, rows: seq<Row>)
    requires Chained(rows)
    ensures LegacyDigest(h, rows) == h(DigestText(rows))
  {
    DigestTextIs(rows);
  }

  // What it means that the pass over the rows calls them intact.
  lemma IntactMeans(h: Hash, rows: seq<Row>)
    ensures Intact(h, rows) <==>
              forall i :: 0 <= i < |rows| ==>
                && rows[i].entryHash == Some(h(EntryText(rows[i], rows[i].previousHash)))
                && (rows[i].previousHash == Some("genesis")
                    || exists j :: 0 <= j < i && rows[j].entryHash == rows[i].previousHash)
  {
    forall i | 0 <= i < |rows|
      ensures RowIntact(h, rows, i) <==>
                && rows[i].entryHash == Some(h(EntryText(rows[i], rows[i].previousHash)))
                && (rows[i].previousHash == Some("genesis")
                    || exists j :: 0 <= j < i && rows[j].entryHash == rows[i].previousHash)
    {
      EntryHashText(h, rows[i], rows[i].previousHash);
    }
  }

  // The rows of a company without a sequence number.
  function Unchained(rows: seq<Row>, company: Option<string>): set<nat> {
    set i | 0 <= i < |rows| && rows[i].sequence.None? && rows[i].company == company
  }

  lemma {:induction false} UnchainedCounted(rows: seq<Row>, company: Option<string>)
    ensures UnchainedCount(rows, company) == |Unchained(rows, company)|
  {
    if rows == [] {
      assert Unchained(rows, company) == {};
    } else {
      var n, init := |rows| - 1, rows[..|rows| - 1];
      UnchainedCounted(init, company);
      assert Unchained(rows, company) ==
             Unchained(init, company) + if rows[n].sequence.None? && rows[n].company == company then {n} else {};
      UnchainedNext(init, rows[n], company);
      assert rows == init + [rows[n]];
    }
  }

  lemma UnchainedNext(rows: seq<Row>, r: Row, company: Option<string>)
    ensures UnchainedCount(rows + [r], company) ==
            UnchainedCount(rows, company) + if r.sequence.None? && r.company == company then 1 else 0
  {
    var some := Under(rows, IsChained, false);
    assert (rows + [r])[..|rows|] == rows && (some + [r])[..|some|] == some;
    assert Under(rows + [r], IsChained, false) == some + if IsChained(r) then [] else [r];
    assert some + [] == some;
  }

  // The seal of one company's chain, column by column.
  lemma SealWritten(c: Sealing, seals: seq<Row>, j: nat)
    requires SealAt(c, seals, j)
    ensures var company := c.chains.keys[j];
            var legacy, verdict := c.chains.members[company], if c.intact then "legacy_intact" else "legacy_broken";
            var last := legacy[|legacy| - 1].sequence.value;
            var unchained := |Unchained(c.all, company)|;
            var digest := c.h(DigestText(legacy));
            seals[j] == Row(c.ids(j), company, "system", None, "audit.chain_sealed", Some("audit_chain"), Some(verdict),
                            SealDetails(|legacy|, last, unchained), c.now, Some(last + 1),
                            Some(c.h(c.ids(j) + "|" + "system" + "|" + "" + "|" + "audit.chain_sealed" + "|"
                                     + "audit_chain" + "|" + verdict + "|" + c.now + "|"
                                     + (if company.Some? then company.value else "None") + "|" + digest)),
                            Some(digest))
  {
    var company := c.chains.keys[j];
    LegacyDigestText(c.h, c.chains.members[company]);
    EntryHashText(c.h, seals[j], seals[j].previousHash);
    UnchainedCounted(c.all, company);
  }
}
