// git_dirty_paths: reading `git status --porcelain=v1 -z`.
module GitStatus {
  import opened Wrappers
  import opened Ordering

  type Byte = n: nat | n < 256

  type Decode = seq<Byte> -> string

  const NUL: Byte := 0
  const SPACE: Byte := 32
  const RENAMED: Byte := 82
  const COPIED: Byte := 67

  // b"\x00".join(records)
  function Unsplit(records: seq<seq<Byte>>): seq<Byte>
    requires records != []
  {
    if |records| == 1 then records[0] else records[0] + [NUL] + Unsplit(records[1..])
  }

  // stdout.split(b"\x00"): the one list of NUL-free records that joins back.
  function Split(s: seq<Byte>): (records: seq<seq<Byte>>)
    ensures records != [] && Unsplit(records) == s
    ensures forall r <- records :: NUL !in r
  {
    if s == [] then [[]]
    else if s[0] == NUL then [[]] + Split(s[1..])
    else
      var rest := Split(s[1..]);
      [[s[0]] + rest[0]] + rest[1..]
  }

  predicate HasOrigin(record: seq<Byte>) {
    |record| >= 1 && (record[0] == RENAMED || record[0] == COPIED)
  }

  // The paths that records[index..] name.
  function PathsFrom(records: seq<seq<Byte>>, index: nat, decode: Decode): set<string>
    requires index <= |records|
    decreases |records| - index
  {
    if index == |records| then {}
    else if |records[index]| < 4 then PathsFrom(records, index + 1, decode)
    else if HasOrigin(records[index]) && index + 1 < |records| then
      {decode(records[index][3..]), decode(records[index + 1])} + PathsFrom(records, index + 2, decode)
    else {decode(records[index][3..])} + PathsFrom(records, index + 1, decode)
  }

  method GitDirtyPaths(stdout: seq<Byte>, decode: Decode) returns (sorted: seq<string>)
    ensures IsSortedSet(sorted, PathsFrom(Split(stdout), 0, decode), LexLeq)
  {
    var records := Split(stdout);
    var paths: set<string> := {};
    var index := 0;
    while index < |records|
      invariant index <= |records|
      invariant paths + PathsFrom(records, index, decode) == PathsFrom(records, 0, decode)
    {
      var record := records[index];
      index := index + 1;
      if |record| >= 4 {
        paths := paths + {decode(record[3..])};
        if HasOrigin(record) && index < |records| {
          paths := paths + {decode(records[index])};
          index := index + 1;
        }
      }
    }
    LexIsTotalOrder();
    sorted := SortSet(paths, LexLeq);
  }

  /* --- what git prints --- */

  // x: index column, y: worktree column.
  datatype Entry = Entry(x: Byte, y: Byte, path: seq<Byte>, origin: Option<seq<Byte>>)

  predicate ValidPath(p: seq<Byte>) {
    p != [] && NUL !in p
  }

  // Renames and copies stand in the index column and carry their origin.
  predicate ValidEntry(e: Entry) {
    && e.x != NUL && e.y != NUL && ValidPath(e.path)
    && (e.origin.Some? <==> e.x == RENAMED || e.x == COPIED)
    && (e.origin.Some? ==> ValidPath(e.origin.value))
  }

  function PrintEntry(e: Entry): seq<Byte> {
    [e.x, e.y, SPACE] + e.path + [NUL] + if e.origin.Some? then e.origin.value + [NUL] else []
  }

  function Print(entries: seq<Entry>): seq<Byte> {
    if entries == [] then [] else PrintEntry(entries[0]) + Print(entries[1..])
  }

  // Every path and origin of the entries.
  ghost function Named(entries: seq<Entry>, decode: Decode): set<string> {
    (set e | e in entries :: decode(e.path)) + (set e | e in entries && e.origin.Some? :: decode(e.origin.value))
  }

  lemma {:induction false} SplitField(field: seq<Byte>, rest: seq<Byte>)
    requires NUL !in field
    ensures Split(field + [NUL] + rest) == [field] + Split(rest)
  {
    var s := field + [NUL] + rest;
    if field == [] {
      assert s[1..] == rest;
    } else {
      SplitField(field[1..], rest);
      assert s[1..] == field[1..] + [NUL] + rest;
      assert field == [field[0]] + field[1..];
    }
  }

  lemma {:induction false} PathsShift(front: seq<seq<Byte>>, records: seq<seq<Byte>>, index: nat, decode: Decode)
    requires index <= |records|
    ensures PathsFrom(front + records, |front| + index, decode) == PathsFrom(records, index, decode)
    decreases |records| - index
  {
    if index == |records| {
    } else {
      assert (front + records)[|front| + index] == records[index];
      PathsShift(front, records, index + 1, decode);
      if HasOrigin(records[index]) && index + 1 < |records| {
        assert (front + records)[|front| + index + 1] == records[index + 1];
        PathsShift(front, records, index + 2, decode);
      }
    }
  }

  lemma EntryRecords(e: Entry, rest: seq<Byte>)
    requires ValidEntry(e) || Printed(e)
    ensures Split(PrintEntry(e) + rest) ==
            [[e.x, e.y, SPACE] + e.path] + (if e.origin.Some? then [e.origin.value] else []) + Split(rest)
  {
    var field := [e.x, e.y, SPACE] + e.path;
    match e.origin {
      case None =>
        assert PrintEntry(e) + rest == field + [NUL] + rest;
        SplitField(field, rest);
      case Some(origin) =>
        assert PrintEntry(e) + rest == field + [NUL] + (origin + [NUL] + rest);
        SplitField(field, origin + [NUL] + rest);
        SplitField(origin, rest);
    }
  }

  // Printing status entries and reading them back names exactly the paths and
  // origins of the entries.
  lemma {:induction false} ReadsWhatGitPrints(entries: seq<Entry>, decode: Decode)
    requires forall e <- entries :: ValidEntry(e)
    ensures PathsFrom(Split(Print(entries)), 0, decode) == Named(entries, decode)
  {
    if entries == [] {
    } else {
      var e, rest := entries[0], entries[1..];
      ReadsWhatGitPrints(rest, decode);
      EntryRecords(e, Print(rest));
      var front := [[e.x, e.y, SPACE] + e.path] + if e.origin.Some? then [e.origin.value] else [];
      var tail := Split(Print(rest));
      assert Split(Print(entries)) == front + tail;
      PathsShift(front, tail, 0, decode);
      assert front[0][3..] == e.path;
      NamedFirst(entries, decode);
    }
  }

  lemma NamedFirst(entries: seq<Entry>, decode: Decode)
    requires entries != []
    ensures Named(entries, decode) == {decode(entries[0].path)}
              + (if entries[0].origin.Some? then {decode(entries[0].origin.value)} else {})
                  + Named(entries[1..], decode)
  {
    assert entries == [entries[0]] + entries[1..];
  }

  /* --- renames in the worktree column --- */

  // What git may print: an origin goes with a rename or copy in either column.
  predicate Printed(e: Entry) {
    && e.x != NUL && e.y != NUL && ValidPath(e.path)
    && (e.origin.Some? <==> e.x == RENAMED || e.x == COPIED || e.y == RENAMED || e.y == COPIED)
    && (e.origin.Some? ==> ValidPath(e.origin.value) && e.origin.value != e.path)
  }

  // With one in the worktree column only (git prints it for an intent-to-add
  // file), the origin is read as a record of its own.
  lemma WorktreeRenameMisread(e: Entry, rest: seq<Byte>, decode: Decode)
    requires Printed(e) && !ValidEntry(e)
    ensures PathsFrom(Split(PrintEntry(e) + rest), 0, decode) ==
            {decode(e.path)} + PathsFrom([e.origin.value] + Split(rest), 0, decode)
  {
    var field, records := [e.x, e.y, SPACE] + e.path, [e.origin.value] + Split(rest);
    assert PrintEntry(e) + rest == field + [NUL] + (e.origin.value + [NUL] + rest);
    SplitField(field, e.origin.value + [NUL] + rest);
    SplitField(e.origin.value, rest);
    assert Split(PrintEntry(e) + rest) == [field] + records && field[3..] == e.path;
    PathsShift([field], records, 0, decode);
  }

  // If that origin starts with R or C, it swallows the record of the next
  // entry: three bytes of status are taken for part of a path, and the path
  // of the next entry is lost.
  lemma NextEntrySwallowed(e: Entry, next: Entry, rest: seq<Byte>, decode: Decode)
    requires Printed(e) && !ValidEntry(e) && |e.origin.value| >= 4 && HasOrigin(e.origin.value)
    requires ValidEntry(next) && next.origin.None?
    ensures PathsFrom(Split(PrintEntry(e) + (PrintEntry(next) + rest)), 0, decode) ==
            {decode(e.path), decode(e.origin.value[3..]), decode([next.x, next.y, SPACE] + next.path)}
            + PathsFrom(Split(rest), 0, decode)
  {
    var field := [next.x, next.y, SPACE] + next.path;
    WorktreeRenameMisread(e, PrintEntry(next) + rest, decode);
    EntryRecords(next, rest);
    assert [e.origin.value] + Split(PrintEntry(next) + rest) == [e.origin.value, field] + Split(rest);
    PathsShift([e.origin.value, field], Split(rest), 0, decode);
  }

  // The text of p is that of no other bytes.
  ghost predicate Unambiguous(p: seq<Byte>, decode: Decode) {
    forall q :: decode(q) == decode(p) ==> q == p
  }

  // An entry git prints is read right exactly when its rename or copy, if it
  // has one, stands in the index column.
  lemma ReadRightIffInIndex(e: Entry, decode: Decode)
    requires Printed(e) && (e.origin.Some? ==> Unambiguous(e.origin.value, decode))
    ensures PathsFrom(Split(Print([e])), 0, decode) == Named([e], decode) <==> ValidEntry(e)
  {
    if ValidEntry(e) {
      ReadsWhatGitPrints([e], decode);
    } else {
      var origin := e.origin.value;
      assert Print([e]) == PrintEntry(e) + [];
      WorktreeRenameMisread(e, [], decode);
      assert [origin] + Split([]) == [origin, []];
      assert PathsFrom([origin, []], 1, decode) == {};
      assert decode(origin) in Named([e], decode);
    }
  }

  /* --- whole lists --- */

  // The records of an entry, its origin as a record of its own.
  function OwnRecords(e: Entry): seq<seq<Byte>> {
    [[e.x, e.y, SPACE] + e.path] + if e.origin.Some? then [e.origin.value] else []
  }

  function RecordsOf(entries: seq<Entry>): seq<seq<Byte>> {
    if entries == [] then [] else OwnRecords(entries[0]) + RecordsOf(entries[1..])
  }

  lemma {:induction false} SplitPrinted(entries: seq<Entry>)
    requires forall e <- entries :: Printed(e)
    ensures Split(Print(entries)) == RecordsOf(entries) + [[]]
  {
    if entries == [] {
    } else {
      EntryRecords(entries[0], Print(entries[1..]));
      SplitPrinted(entries[1..]);
    }
  }

  // A record that is no origin to the reader and equals nothing else it takes
  // for a path is never read whole.
  lemma {:induction false} NeverRead(records: seq<seq<Byte>>, p: seq<Byte>, index: nat, decode: Decode)
    requires index <= |records| && Unambiguous(p, decode)
    requires forall r <- records :: |r| >= 4 ==> r[3..] != p
    requires forall k, l :: 0 <= k && k + 1 == l < |records| && records[l] == p ==> !HasOrigin(records[k])
    ensures decode(p) !in PathsFrom(records, index, decode)
    decreases |records| - index
  {
    if index == |records| {
    } else {
      assert records[index] in records;
      NeverRead(records, p, index + 1, decode);
      if HasOrigin(records[index]) && index + 1 < |records| {
        NeverRead(records, p, index + 2, decode);
      }
    }
  }

  // The records are those of the entries before the j-th, its own, and the rest.
  lemma {:induction false} RecordsAround(entries: seq<Entry>, j: nat)
    requires j < |entries|
    ensures RecordsOf(entries) == RecordsOf(entries[..j]) + OwnRecords(entries[j]) + RecordsOf(entries[j + 1..])
  {
    if j == 0 {
      assert entries[..0] == [];
    } else {
      RecordsAround(entries[1..], j - 1);
      assert entries[..j][0] == entries[0] && entries[..j][1..] == entries[1..][..j - 1];
      assert entries[1..][j..] == entries[j + 1..];
    }
  }

  // p occurs in the output only once, as the origin of entry j.
  ghost predicate NamedOnce(entries: seq<Entry>, j: nat, p: seq<Byte>)
    requires j < |entries|
  {
    && entries[j].origin == Some(p)
    && (forall r <- RecordsOf(entries) :: |r| >= 4 ==> r[3..] != p)
    && p !in RecordsOf(entries[..j]) && p !in RecordsOf(entries[j + 1..]) && p != OwnRecords(entries[j])[0]
  }

  // The origin of entry j looks like nothing else in the output.
  ghost predicate StandsOut(entries: seq<Entry>, j: nat, decode: Decode)
    requires j < |entries|
  {
    entries[j].origin.Some? && NamedOnce(entries, j, entries[j].origin.value)
    && Unambiguous(entries[j].origin.value, decode)
  }

  lemma OnlyAfterOwn(entries: seq<Entry>, j: nat, p: seq<Byte>)
    requires j < |entries| && Printed(entries[j]) && !ValidEntry(entries[j]) && NamedOnce(entries, j, p)
    ensures var records := RecordsOf(entries) + [[]];
            forall k, l :: 0 <= k && k + 1 == l < |records| && records[l] == p ==> !HasOrigin(records[k])
  {
    var e := entries[j];
    var front, own, back := RecordsOf(entries[..j]), OwnRecords(e), RecordsOf(entries[j + 1..]);
    RecordsAround(entries, j);
    assert own == [[e.x, e.y, SPACE] + e.path, p];
    OnlyAt(front, own[0], p, back);
    assert RecordsOf(entries) + [[]] == front + [own[0], p] + back + [[]];
  }

  lemma OnlyAt(front: seq<seq<Byte>>, field: seq<Byte>, p: seq<Byte>, back: seq<seq<Byte>>)
    requires p !in front && p !in back && p != field && p != [] && !HasOrigin(field)
    ensures var records := front + [field, p] + back + [[]];
            forall k, l :: 0 <= k && k + 1 == l < |records| && records[l] == p ==> !HasOrigin(records[k])
  {
    var records := front + [field, p] + back + [[]];
    forall l | 0 <= l < |records| && l != |front| + 1 ensures records[l] != p {
      if l < |front| {
        assert records[l] == front[l] && front[l] in front;
      } else if |front| + 2 <= l < |records| - 1 {
        assert records[l] == back[l - |front| - 2] && back[l - |front| - 2] in back;
      }
    }
    assert records[|front|] == field;
  }

  // So a rename in the worktree column loses its origin in every list in which
  // nothing else looks like it.
  lemma OriginLost(entries: seq<Entry>, j: nat, decode: Decode)
    requires (forall e <- entries :: Printed(e)) && j < |entries| && !ValidEntry(entries[j])
    requires StandsOut(entries, j, decode)
    ensures decode(entries[j].origin.value) in Named(entries, decode)
    ensures decode(entries[j].origin.value) !in PathsFrom(Split(Print(entries)), 0, decode)
  {
    assert entries[j] in entries;
    SplitPrinted(entries);
    OnlyAfterOwn(entries, j, entries[j].origin.value);
    NeverReadWithEnd(RecordsOf(entries), entries[j].origin.value, decode);
  }

  lemma NeverReadWithEnd(records: seq<seq<Byte>>, p: seq<Byte>, decode: Decode)
    requires Unambiguous(p, decode) && forall r <- records :: |r| >= 4 ==> r[3..] != p
    requires var all := records + [[]];
             forall k, l :: 0 <= k && k + 1 == l < |all| && all[l] == p ==> !HasOrigin(all[k])
    ensures decode(p) !in PathsFrom(records + [[]], 0, decode)
  {
    NeverRead(records + [[]], p, 0, decode);
  }

  // A list in which every origin that stands in a worktree rename stands out
  // is read right exactly when there is no such rename.
  lemma ReadRightIffAllInIndex(entries: seq<Entry>, decode: Decode)
    requires forall e <- entries :: Printed(e)
    requires forall j :: 0 <= j < |entries| && !ValidEntry(entries[j]) ==> StandsOut(entries, j, decode)
    ensures PathsFrom(Split(Print(entries)), 0, decode) == Named(entries, decode) <==>
            forall e <- entries :: ValidEntry(e)
  {
    if forall e <- entries :: ValidEntry(e) {
      ReadsWhatGitPrints(entries, decode);
    } else {
      var j :| 0 <= j < |entries| && !ValidEntry(entries[j]);
      OriginLost(entries, j, decode);
    }
  }
}
