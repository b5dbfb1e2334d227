// alembic revision f1b7c9d2a508: lifecycle columns of memory_records filled
// from each row's own content and metadata, page by page.
module MemoryBackfill {
  import opened Ordering
  import opened Wrappers

  type Id = nat  // a UUID, in its numeric order
  type Company = nat

  /* --- metadata, as far as the migration reads it --- */

  // A metadata value: a string, or anything else (missing, null, number, ...).
  datatype Value = Text(s: string) | NotText

  datatype Source = NotADict | SourceDict(messageId: Value, turnId: Value, kind: Value)

  datatype Meta = NoMeta | Meta(origin: Value, trust: Value, kind: Value, state: Value, source: Source,
                                supersedes: Value)

  datatype Status = Candidate | Active | Archived | Superseded | Rejected

  datatype Trust = Untrusted | Asserted | Verified

  // The columns the migration fills.
  datatype Columns = Columns(memoryType: string, status: Status, trust: Trust, sourceType: Option<string>,
                             sourceId: Option<string>,
                             contentHash: string, ingestionKey: string, supersedes: Option<Id>,
                             changedAt: Option<int>, changedBy: Option<string>)

  datatype Row = Row(company: Company, scope: string, content: string, meta: Meta, updatedAt: int, columns: Columns)

  type Table = map<Id, Row>

  // What the migration takes from outside: sha256 of the content, the text of
  // a UUID, and uuid.UUID(text) (None: not a UUID).
  datatype Outside = Outside(hash: string -> string, text: Id -> string, parse: string -> Option<Id>)

  const TYPES := {"fact", "preference", "decision", "directive", "lesson", "procedure", "risk", "error",
                  "outcome", "summary", "delegation", "commitment", "hiring", "unknown"}

  const EXECUTIVE := "executive"
  const CHANGED_BY := "migration:f1b7c9d2a508"
  const BATCH: nat := 500

  function ScopeType(scope: string): string {
    if scope == "guidelines" || scope == "system_rule" then "directive"
    else if scope == "episodic_reflection" then "lesson"
    else if scope == "l2_agent" || scope == "l3_shared" then "fact"
    else "unknown"
  }

  // str.isspace for one character
  predicate IsSpace(c: char) {
    var n := c as int;
    9 <= n <= 13 || 28 <= n <= 32 || n == 0x85 || n == 0xA0 || n == 0x1680 || 0x2000 <= n <= 0x200A
    || n == 0x2028 || n == 0x2029 || n == 0x202F || n == 0x205F || n == 0x3000
  }

  predicate Blank(s: string) {
    forall c <- s :: IsSpace(c)
  }

  function Short(v: Value, limit: nat): Option<string> {
    if v.Text? && !Blank(v.s) then Some(if |v.s| <= limit then v.s else v.s[..limit]) else None
  }

  function SourceOf(source: Source): (Option<string>, Option<string>) {
    match source
    case NotADict => (None, None)
    case SourceDict(messageId, turnId, kind) =>
      if Short(messageId, 128).Some? then (Some("chat_message"), Short(messageId, 128))
      else if Short(turnId, 128).Some? then (Some("chat_turn"), Short(turnId, 128))
      else (Short(kind, 40), None)
  }

  function StatusOf(r: Row): (Status, Trust) {
    if r.meta.NoMeta? then (Active, Untrusted)
    else
      var marked := r.meta.trust == Text("untrusted_candidate");
      var asserted := r.meta.origin == Text("api") || r.meta.origin == Text("human")
          || r.meta.trust == Text("operator_supplied");
      var status := if marked then Candidate else Active;
      var trust := if !marked && asserted then Asserted else Untrusted;
      (if r.scope == EXECUTIVE && r.meta.state == Text("superseded") then Superseded
       else if r.scope == EXECUTIVE && r.meta.state == Text("resolved") then Archived
       else status, trust)
  }

  function TypeOf(r: Row): string {
    if r.meta.Meta? && r.meta.kind.Text? && r.meta.kind.s in TYPES then r.meta.kind.s else ScopeType(r.scope)
  }

  predicate Marked(m: Meta) {
    m.Meta? && m.trust == Text("untrusted_candidate")
  }

  predicate Vouched(m: Meta) {
    m.Meta? && (m.origin == Text("api") || m.origin == Text("human") || m.trust == Text("operator_supplied"))
  }

  predicate TakenOut(r: Row, state: string) {
    r.scope == EXECUTIVE && r.meta.Meta? && r.meta.state == Text(state)
  }

  // _row_values, and the update it goes into. Trust is raised exactly for what
  // an operator, the API or a human vouches for and no untrusted mark
  // overrules; the lifecycle stamp marks exactly the executive rows taken out
  // of use. The key holds the row's id, the hash its content.
  function Filled(out: Outside, id: Id, r: Row, target: Option<Id>): (r': Row)
    ensures r'.columns.trust == Asserted <==> Vouched(r.meta) && !Marked(r.meta)
    ensures r'.columns.trust != Verified && r'.columns.status != Rejected
    ensures r'.columns.status == Superseded <==> TakenOut(r, "superseded")
    ensures r'.columns.status == Archived <==> TakenOut(r, "resolved")
    ensures r'.columns.status == Candidate <==> Marked(r.meta) && !TakenOut(r, "superseded") && !TakenOut(r, "resolved")
    ensures r'.columns.status == Superseded || r'.columns.status == Archived ==>
              r'.columns.changedAt == Some(r.updatedAt) && r'.columns.changedBy == Some(CHANGED_BY)
    ensures r'.columns.status == Active || r'.columns.status == Candidate ==>
              r'.columns.changedAt == r.columns.changedAt && r'.columns.changedBy == r.columns.changedBy
    ensures r'.columns.memoryType in TYPES
    ensures r.meta.Meta? && r.meta.kind.Text? && r.meta.kind.s in TYPES ==> r'.columns.memoryType == r.meta.kind.s
    ensures r'.columns.contentHash == out.hash(r.content) && r'.columns.supersedes == target
    ensures "legacy:" <= r'.columns.ingestionKey && r'.columns.ingestionKey[|"legacy:"|..] == out.text(id)
    ensures r'.(columns := r.columns) == r
  {
    var (status, trust) := StatusOf(r);
    var (sourceType, sourceId) := SourceOf(if r.meta.Meta? then r.meta.source else NotADict);
    var changed := (status == Superseded || status == Archived) && r.scope == EXECUTIVE;
    r.(columns := Columns(TypeOf(r), status, trust, sourceType, sourceId, out.hash(r.content),
        "legacy:" + out.text(id), target,
                          if changed then Some(r.updatedAt) else r.columns.changedAt,
                          if changed then Some(CHANGED_BY) else r.columns.changedBy))
  }

  // The row this one supersedes: named by its metadata, another row of the same company.
  function Target(out: Outside, rows: Table, id: Id): Option<Id>
    requires id in rows
  {
    var r := rows[id];
    if r.scope == EXECUTIVE && r.meta.Meta? && r.meta.supersedes.Text? then
      var wanted := out.parse(r.meta.supersedes.s);
      if wanted.Some? && wanted.value != id && wanted.value in rows && rows[wanted.value].company == r.company
      then wanted else None
    else None
  }

  // The table as the per-row map says it should be, for the ids in done.
  function FilledAll(out: Outside, rows: Table, done: set<Id>): Table {
    map id | id in rows :: if id in done then Filled(out, id, rows[id], Target(out, rows, id)) else rows[id]
  }

  predicate Leq(a: Id, b: Id) {
    a <= b
  }

  function Above(rows: Table, last: Option<Id>): set<Id> {
    set id | id in rows && (last.None? || id > last.value)
  }

  class MemoryTable {
    var rows: Table

    constructor (rows: Table)
      ensures this.rows == rows
    {
      this.rows := rows;
    }

    // SELECT ... WHERE id > last ORDER BY id LIMIT batch
    method SelectPage(last: Option<Id>, batch: nat) returns (page: seq<Id>)
      requires batch >= 1
      ensures Ascending(page, Leq) && Distinct(page) && Elements(page) <= Above(rows, last)
      ensures page == [] ==> Above(rows, last) == {}
      ensures page != [] ==> forall id <- Above(rows, last) :: id in page || id > page[|page| - 1]
    {
      var all := SortSet(Above(rows, last), Leq);
      page := if |all| <= batch then all else all[..batch];
      forall id | id in Above(rows, last) && id !in page ensures page != [] && id > page[|page| - 1] {
        assert id in Elements(all);
        var k :| 0 <= k < |all| && all[k] == id;
        assert k >= |page| && page[|page| - 1] == all[|page| - 1];
        assert Leq(all[|page| - 1], all[k]) && all[|page| - 1] != all[k];
      }
      forall id | id in Elements(page) ensures id in Above(rows, last) {
        assert id in Elements(all);
      }
    }

    // The keyset-paginated loop: every row is updated exactly once, and the
    // table becomes the per-row map of what it was, whatever the batch size.
    method Backfill(out: Outside, batch: nat) returns (ghost updates: seq<Id>)
      requires batch >= 1
      modifies this
      ensures rows == FilledAll(out, old(rows), old(rows).Keys)
      ensures Distinct(updates) && Elements(updates) == old(rows).Keys
    {
      var last: Option<Id> := None;
      updates := [];
      assert Above(rows, last) == rows.Keys;
      while true
        invariant rows == FilledAll(out, old(rows), Elements(updates))
        invariant Distinct(updates) && Elements(updates) == old(rows).Keys - Above(old(rows), last)
        decreases Above(old(rows), last)
      {
        assert Above(rows, last) == Above(old(rows), last);
        var page := SelectPage(last, batch);
        if page == [] {
          return;
        }
        ghost var before := last;
        last := Some(page[|page| - 1]);
        PageEnds(old(rows), before, page);
        updates := FillPage(out, page, old(rows), updates);
      }
    }

    // for row in rows: ...
    method FillPage(out: Outside, page: seq<Id>, ghost rows0: Table, ghost updates0: seq<Id>)
      returns (ghost updates: seq<Id>)
      requires rows == FilledAll(out, rows0, Elements(updates0)) && Distinct(updates0)
      requires Distinct(page) && Elements(page) <= rows0.Keys && Elements(page) !! Elements(updates0)
      modifies this
      ensures rows == FilledAll(out, rows0, Elements(updates))
      ensures Distinct(updates) && Elements(updates) == Elements(updates0) + Elements(page)
    {
      updates := updates0;
      var i := 0;
      while i < |page|
        invariant i <= |page|
        invariant rows == FilledAll(out, rows0, Elements(updates))
        invariant Distinct(updates) && Elements(updates) == Elements(updates0) + Elements(page[..i])
      {
        assert page[i] in Elements(page) && page[i] !in Elements(updates0) && page[i] !in page[..i];
        FillRow(out, page[i], rows0, Elements(updates));
        assert Elements(updates + [page[i]]) == Elements(updates) + {page[i]};
        assert page[..i + 1] == page[..i] + [page[i]];
        updates := updates + [page[i]];
        i := i + 1;
      }
      assert page[..i] == page;
    }

    // The look-up of the superseded row and the update of one row.
    method FillRow(out: Outside, id: Id, ghost rows0: Table, ghost done: set<Id>)
      requires rows == FilledAll(out, rows0, done) && id in rows0 && id !in done
      modifies this
      ensures rows == FilledAll(out, rows0, done + {id})
    {
      var target: Option<Id> := None;
      if rows[id].scope == EXECUTIVE && rows[id].meta.Meta? && rows[id].meta.supersedes.Text? {
        var wanted := out.parse(rows[id].meta.supersedes.s);
        if wanted.Some? && wanted.value != id && wanted.value in rows
            && rows[wanted.value].company == rows[id].company {
          target := wanted;
        }
      }
      rows := rows[id := Filled(out, id, rows[id], target)];
    }
  }

  lemma PageEnds(rows: Table, last: Option<Id>, page: seq<Id>)
    requires page != [] && Ascending(page, Leq) && Elements(page) <= Above(rows, last)
    requires forall id <- Above(rows, last) :: id in page || id > page[|page| - 1]
    ensures Above(rows, Some(page[|page| - 1])) == Above(rows, last) - Elements(page)
    ensures Above(rows, Some(page[|page| - 1])) < Above(rows, last)
  {
    var end := page[|page| - 1];
    forall id | id in page ensures id <= end && id in Above(rows, last) {
      var k :| 0 <= k < |page| && page[k] == id;
      assert k < |page| - 1 ==> Leq(page[k], end);
      assert id in Elements(page);
    }
    assert end in page && end !in Above(rows, Some(end));
  }

  /* --- what the columns hold --- */

  ghost predicate InjectiveText(out: Outside) {
    forall a: Id, b: Id :: out.text(a) == out.text(b) ==> a == b
  }

  // The unique constraint on (company_id, ingestion_key) and the foreign key on
  // supersedes_id both hold; a link is set exactly when an executive row's
  // metadata names another existing row of its company.
  lemma ConstraintsHold(out: Outside, rows: Table, a: Id, b: Id)
    requires InjectiveText(out) && a in rows && b in rows
    ensures var filled := FilledAll(out, rows, rows.Keys);
            && filled.Keys == rows.Keys
            && (filled[a].columns.ingestionKey == filled[b].columns.ingestionKey ==> a == b)
            && (filled[a].columns.supersedes == Some(b) <==>
                  b != a && filled[b].company == filled[a].company && rows[a].scope == EXECUTIVE && rows[a].meta.Meta?
                  && rows[a].meta.supersedes.Text? && out.parse(rows[a].meta.supersedes.s) == Some(b))
            && (filled[a].columns.supersedes.Some? ==> filled[a].columns.supersedes.value in filled)
            && filled[a].columns.memoryType in TYPES
  {
    var p, x, y := "legacy:", out.text(a), out.text(b);
    if p + x == p + y {
      assert (p + x)[|p|..] == x && (p + y)[|p|..] == y;
    }
  }

  // A string that is more than white space.
  predicate Says(v: Value) {
    v.Text? && exists c <- v.s :: !IsSpace(c)
  }

  // What the column keeps of it: all of it, or its first `limit` characters.
  ghost predicate Keeps(column: Option<string>, v: Value, limit: nat) {
    && column.Some? && v.Text? && column.value <= v.s
    && |column.value| == (if |v.s| <= limit then |v.s| else limit)
  }

  // The source is taken from a dict only: the message if it names one, else the
  // turn, else a bare kind without an id. Nothing else is filled in, and what
  // is fits its column.
  lemma SourceFits(out: Outside, id: Id, r: Row, target: Option<Id>)
    ensures var c, source := Filled(out, id, r, target).columns, if r.meta.Meta? then r.meta.source else NotADict;
            && (c.sourceId.Some? <==> source.SourceDict? && (Says(source.messageId) || Says(source.turnId)))
            && (c.sourceId.Some? ==>
                  if Says(source.messageId)
                  then c.sourceType == Some("chat_message") && Keeps(c.sourceId, source.messageId, 128)
                  else c.sourceType == Some("chat_turn") && Keeps(c.sourceId, source.turnId, 128))
            && (c.sourceId.None? ==>
                  if source.SourceDict? && Says(source.kind) then Keeps(c.sourceType, source.kind, 40)
                  else c.sourceType.None?)
            && (c.sourceId.Some? ==> 1 <= |c.sourceId.value| <= 128)
            && (c.sourceType.Some? ==> 1 <= |c.sourceType.value| <= 40)
  {
    assert |"chat_message"| == 12 && |"chat_turn"| == 9;
  }

  const SCOPE_TYPES := map["guidelines" := "directive", "system_rule" := "directive", "episodic_reflection" := "lesson",
                           "l2_agent" := "fact", "l3_shared" := "fact"]

  // The type is the one the metadata names, if it is a known one, else that of
  // the scope.
  lemma TypeFits(out: Outside, id: Id, r: Row, target: Option<Id>)
    ensures var known := r.meta.Meta? && r.meta.kind.Text? && r.meta.kind.s in TYPES;
            Filled(out, id, r, target).columns.memoryType ==
            if known then r.meta.kind.s else if r.scope in SCOPE_TYPES then SCOPE_TYPES[r.scope] else "unknown"
  {
  }
}
