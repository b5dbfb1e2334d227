// The manifest's JSON form: ChunkRecord.to_json / from_json, manifest_payload
// and load_manifest_for_resume.
module Manifest {
  import opened ChunkRunner
  import opened Wrappers

  // Object keys: the field names the runner uses, and any other word.
  datatype Key =
    | Index | Files | State | ExitCode | Duration | CountsOf | InterruptedBy | Error | Rerun
    | SchemaVersion | RepoCommit | PostgresMode | Filters | ChunkSize | PytestArgs
    | Chunks | SelectedChunks | RunStatus | StartingDirty
    | Word(text: string)

  datatype Json = Null | Bool(b: bool) | Int(n: int) | Real(r: real) | Str(s: string)
                | Arr(items: seq<Json>) | Obj(fields: map<Key, Json>)

  const SCHEMA_VERSION := 1

  /* --- values --- */

  function Strs(ss: seq<string>): Json {
    Arr(seq(|ss|, i requires 0 <= i < |ss| => Str(ss[i])))
  }

  function AsStrs(j: Json): Option<seq<string>> {
    if j.Arr? && forall i :: 0 <= i < |j.items| ==> j.items[i].Str?
    then Some(seq(|j.items|, i requires 0 <= i < |j.items| && j.items[i].Str? => j.items[i].s))
    else None
  }

  function Nats(ns: seq<nat>): Json {
    Arr(seq(|ns|, i requires 0 <= i < |ns| => Int(ns[i])))
  }

  function OptInt(o: Option<int>): Json {
    match o
    case None => Null
    case Some(n) => Int(n)
  }

  function OptNat(o: Option<nat>): Json {
    match o
    case None => Null
    case Some(n) => Int(n)
  }

  function OptStr(o: Option<string>): Json {
    match o
    case None => Null
    case Some(s) => Str(s)
  }

  function WordMap(m: map<string, int>): map<Key, Json> {
    map k | k in (set w <- m :: Word(w)) :: Int(m[k.text])
  }

  function CountsJson(c: Counts): Json {
    match c
    case None => Null
    case Some(m) => Obj(WordMap(m))
  }

  predicate IntValues(m: map<Key, Json>) {
    forall k <- m :: k.Word? && m[k].Int?
  }

  function UnWord(m: map<Key, Json>): map<string, int>
    requires IntValues(m)
  {
    map w | w in (set k <- m :: k.text) :: m[Word(w)].n
  }

  lemma CountsRoundTrip(m: map<string, int>)
    ensures IntValues(WordMap(m)) && UnWord(WordMap(m)) == m
  {
    var j := WordMap(m);
    forall w ensures Word(w) in j <==> w in m {
    }
    forall w ensures w in UnWord(j) <==> w in m {
      if w in m { assert Word(w) in j; }
    }
  }

  function AsCounts(j: Json): Option<Counts> {
    match j
    case Null => Some(None)
    case Obj(m) => if IntValues(m) then Some(Some(UnWord(m))) else None
    case _ => None
  }

  function StatusText(s: Status): string {
    match s
    case Pending => "pending"
    case Completed => "completed"
    case Interrupted => "interrupted"
    case NotRun => "not-run"
    case NotSelected => "not-selected"
    case Other(text) => text
  }

  function StatusOf(text: string): Status {
    if text == "pending" then Pending
    else if text == "completed" then Completed
    else if text == "interrupted" then Interrupted
    else if text == "not-run" then NotRun
    else if text == "not-selected" then NotSelected
    else Other(text)
  }

  // One text per status, and Other only for a text no other status has.
  lemma StatusRoundTrip(s: Status)
    ensures StatusOf(StatusText(s)) == s <==> (s.Other? ==> StatusOf(s.text).Other?)
    ensures StatusText(StatusOf(StatusText(s))) == StatusText(s)
    ensures StatusOf("pending").Pending? && StatusOf("completed").Completed? && StatusOf("interrupted").Interrupted?
    ensures StatusOf("not-run").NotRun? && StatusOf("not-selected").NotSelected?
  {
    assert "pending"[0] == 'p' && "completed"[0] == 'c' && "interrupted"[0] == 'i';
    assert |"not-run"| == 7 && |"not-selected"| == 12 && "not-run"[0] == 'n' && "not-selected"[0] == 'n';
  }

  /* --- one record --- */

  function ToJson(r: Rec): Json {
    Obj(map[
      Index := Int(r.index),
      Files := Strs(r.files),
      State := Str(StatusText(r.status)),
      ExitCode := OptInt(r.exitCode),
      Duration := if r.duration.Some? then Real(r.duration.value) else Null,
      CountsOf := CountsJson(r.counts),
      InterruptedBy := OptNat(r.signal),
      Error := OptStr(r.error),
      Rerun := Bool(r.rerun)])
  }

  predicate NatOrNull(j: Json) { j.Null? || (j.Int? && j.n >= 0) }
  predicate IntOrNull(j: Json) { j.Null? || j.Int? }
  predicate RealOrNull(j: Json) { j.Null? || j.Real? }
  predicate StrOrNull(j: Json) { j.Null? || j.Str? }

  // The entry has every field but the optional "rerun", each of its own type.
  predicate WellTyped(m: map<Key, Json>) {
    && Index in m && Files in m && State in m && ExitCode in m && Duration in m && CountsOf in m && InterruptedBy in m
          && Error in m
    && m[Index].Int? && m[Index].n >= 0
    && AsStrs(m[Files]).Some? && m[State].Str?
    && IntOrNull(m[ExitCode]) && RealOrNull(m[Duration]) && AsCounts(m[CountsOf]).Some?
    && NatOrNull(m[InterruptedBy]) && StrOrNull(m[Error])
    && (Rerun in m ==> m[Rerun].Bool?)
  }

  // None: the entry is malformed.
  function FromJson(j: Json): Option<Rec> {
    if !(j.Obj? && WellTyped(j.fields)) then None
    else
      var m := j.fields;
      Some(Rec(m[Index].n, AsStrs(m[Files]).value, StatusOf(m[State].s),
               if m[ExitCode].Int? then Some(m[ExitCode].n) else None,
               if m[Duration].Real? then Some(m[Duration].r) else None,
               AsCounts(m[CountsOf]).value,
               if m[InterruptedBy].Int? then Some(m[InterruptedBy].n) else None,
               if m[Error].Str? then Some(m[Error].s) else None,
               if Rerun in m then m[Rerun].b else false))
  }

  // The statuses the runner itself writes.
  predicate Ordinary(r: Rec) {
    !r.status.Other?
  }

  lemma RecordRoundTrip(r: Rec)
    requires Ordinary(r)
    ensures FromJson(ToJson(r)) == Some(r)
  {
    StatusRoundTrip(r.status);
    StrsRoundTrip(r.files);
    AsCountsRoundTrip(r.counts);
    FieldsOf(r);
  }

  lemma FieldsOf(r: Rec)
    ensures var m := ToJson(r).fields;
            && Index in m && m[Index] == Int(r.index) && Files in m && m[Files] == Strs(r.files)
            && State in m && m[State] == Str(StatusText(r.status)) && ExitCode in m && m[ExitCode] == OptInt(r.exitCode)
            && Duration in m && m[Duration] == (if r.duration.Some? then Real(r.duration.value) else Null)
            && CountsOf in m && m[CountsOf] == CountsJson(r.counts)
            && InterruptedBy in m && m[InterruptedBy] == OptNat(r.signal)
            && Error in m && m[Error] == OptStr(r.error) && Rerun in m && m[Rerun] == Bool(r.rerun)
  {
  }

  lemma AsCountsRoundTrip(c: Counts)
    ensures AsCounts(CountsJson(c)) == Some(c)
  {
    if c.Some? { CountsRoundTrip(c.value); }
  }

  lemma StrsRoundTrip(ss: seq<string>)
    ensures AsStrs(Strs(ss)) == Some(ss)
  {
    assert AsStrs(Strs(ss)).value == ss;
  }

  /* --- the whole manifest --- */

  // What a run asks for, as far as the manifest pins it down.
  datatype Request = Request(commit: string, mode: string, filters: seq<string>, chunkSize: int,
                             pytestArgs: seq<string>, files: seq<string>, plan: Plan)

  function SelectedJson(selected: Option<seq<nat>>): Json {
    match selected
    case None => Null
    case Some(ns) => Nats(ns)
  }

  function Payload(req: Request, records: seq<Rec>, state: string, startingDirty: seq<string>): Json {
    Obj(map[
      SchemaVersion := Int(SCHEMA_VERSION),
      RepoCommit := Str(req.commit),
      PostgresMode := Str(req.mode),
      Filters := Strs(req.filters),
      ChunkSize := Int(req.chunkSize),
      PytestArgs := Strs(req.pytestArgs),
      Files := Strs(req.files),
      Chunks := Arr(seq(|records|, i requires 0 <= i < |records| => ToJson(records[i]))),
      SelectedChunks := SelectedJson(req.plan.selected),
      RunStatus := Str(state),
      StartingDirty := Strs(startingDirty)])
  }

  // data.get(key)
  function Get(data: map<Key, Json>, key: Key): Json {
    if key in data then data[key] else Null
  }

  datatype Loaded = Records(records: seq<Rec>) | BadSchema | Mismatch(field: string) | Malformed

  // [ChunkRecord.from_json(entry) for entry in entries]; None if one is malformed.
  function FromJsons(entries: seq<Json>): Option<seq<Rec>> {
    if entries == [] then Some([])
    else
      var first, rest := FromJson(entries[0]), FromJsons(entries[1..]);
      if first.Some? && rest.Some? then Some([first.value] + rest.value) else None
  }

  function Memberships(records: seq<Rec>): seq<seq<string>> {
    seq(|records|, i requires 0 <= i < |records| => records[i].files)
  }

  function Load(data: map<Key, Json>, req: Request): Loaded {
    if Get(data, SchemaVersion) != Int(SCHEMA_VERSION) then BadSchema
    else if Get(data, RepoCommit) != Str(req.commit) then Mismatch("repository commit")
    else if Get(data, PostgresMode) != Str(req.mode) then Mismatch("PostgreSQL selection mode")
    else if Get(data, Filters) != Strs(req.filters) then Mismatch("filters")
    else if Get(data, ChunkSize) != Int(req.chunkSize) then Mismatch("chunk size")
    else if Get(data, PytestArgs) != Strs(req.pytestArgs) then Mismatch("pytest arguments")
    else if Get(data, SelectedChunks) != SelectedJson(req.plan.selected) then Mismatch("selected chunks")
    else if Get(data, Files) != Strs(req.files) then Mismatch("selected file list")
    else
      var entries := if Chunks in data then data[Chunks] else Arr([]);
      if !entries.Arr? then Malformed
      else match FromJsons(entries.items)
        case None => Malformed
        case Some(stored) =>
          if Memberships(stored) != req.plan.chunks then Mismatch("chunk membership") else Records(stored)
  }

  lemma StrsInjective(a: seq<string>, b: seq<string>)
    ensures Strs(a) == Strs(b) <==> a == b
  {
    if Strs(a) == Strs(b) {
      assert |a| == |Strs(a).items| == |b|;
      forall i | 0 <= i < |a| ensures a[i] == b[i] {
        assert Strs(a).items[i] == Strs(b).items[i];
      }
    }
  }

  lemma SelectedInjective(a: Option<seq<nat>>, b: Option<seq<nat>>)
    ensures SelectedJson(a) == SelectedJson(b) <==> a == b
  {
    if a.Some? && b.Some? && SelectedJson(a) == SelectedJson(b) {
      var x, y := a.value, b.value;
      assert |x| == |Nats(x).items| == |y|;
      forall i | 0 <= i < |x| ensures x[i] == y[i] {
        assert Nats(x).items[i] == Nats(y).items[i];
      }
      assert x == y;
    }
  }

  lemma {:induction false} EntriesRoundTrip(records: seq<Rec>, entries: seq<Json>)
    requires forall r <- records :: Ordinary(r)
    requires |entries| == |records| && forall i :: 0 <= i < |entries| ==> entries[i] == ToJson(records[i])
    ensures FromJsons(entries) == Some(records)
  {
    if records == [] {
    } else {
      RecordRoundTrip(records[0]);
      EntriesRoundTrip(records[1..], entries[1..]);
      assert records == [records[0]] + records[1..];
    }
  }

  // A manifest one run wrote is accepted by another run exactly when the two
  // ask for the same thing and the records are its chunks; the records then
  // come back unchanged. State and starting dirty paths do not matter.
  lemma LoadSaved(req: Request, records: seq<Rec>, state: string, dirty: seq<string>, req': Request)
    requires forall r <- records :: Ordinary(r)
    ensures Load(Payload(req, records, state, dirty).fields, req').Records? <==>
            req.(plan := req'.plan) == req' && req.plan.selected == req'.plan.selected
                && Memberships(records) == req'.plan.chunks
    ensures Load(Payload(req, records, state, dirty).fields, req').Records? ==>
            Load(Payload(req, records, state, dirty).fields, req').records == records
  {
    var data := Payload(req, records, state, dirty).fields;
    StrsInjective(req.filters, req'.filters);
    StrsInjective(req.pytestArgs, req'.pytestArgs);
    StrsInjective(req.files, req'.files);
    SelectedInjective(req.plan.selected, req'.plan.selected);
    EntriesRoundTrip(records, data[Chunks].items);
    HeaderFields(req, records, state, dirty);
  }

  lemma HeaderFields(req: Request, records: seq<Rec>, state: string, dirty: seq<string>)
    ensures var data := Payload(req, records, state, dirty).fields;
            && Get(data, SchemaVersion) == Int(SCHEMA_VERSION)
            && Get(data, RepoCommit) == Str(req.commit) && Get(data, PostgresMode) == Str(req.mode)
            && Get(data, Filters) == Strs(req.filters) && Get(data, ChunkSize) == Int(req.chunkSize)
            && Get(data, PytestArgs) == Strs(req.pytestArgs) && Get(data, Files) == Strs(req.files)
            && Get(data, SelectedChunks) == SelectedJson(req.plan.selected)
  {
  }

  /* --- any manifest, whoever wrote it --- */

  ghost predicate IsText(j: Json, s: string) {
    j.Str? && j.s == s
  }

  ghost predicate AreTexts(j: Json, ss: seq<string>) {
    j.Arr? && |j.items| == |ss| && forall i :: 0 <= i < |ss| ==> IsText(j.items[i], ss[i])
  }

  lemma StrsAre(j: Json, ss: seq<string>)
    ensures j == Strs(ss) <==> AreTexts(j, ss)
  {
    if AreTexts(j, ss) {
      assert forall i :: 0 <= i < |ss| ==> j.items[i] == Strs(ss).items[i];
      assert j.items == Strs(ss).items;
    }
  }

  ghost predicate AreNumbers(j: Json, ns: seq<nat>) {
    j.Arr? && |j.items| == |ns| && forall i :: 0 <= i < |ns| ==> j.items[i].Int? && j.items[i].n == ns[i]
  }

  lemma NatsAre(j: Json, ns: seq<nat>)
    ensures j == Nats(ns) <==> AreNumbers(j, ns)
  {
    if AreNumbers(j, ns) {
      assert forall i :: 0 <= i < |ns| ==> j.items[i] == Nats(ns).items[i];
      assert j.items == Nats(ns).items;
    }
  }

  // The header fields are there with the values of the request; only
  // selected_chunks may be missing, or null, where the request selects none.
  ghost predicate HeaderFits(data: map<Key, Json>, req: Request) {
    && SchemaVersion in data && data[SchemaVersion].Int? && data[SchemaVersion].n == 1
    && RepoCommit in data && IsText(data[RepoCommit], req.commit)
    && PostgresMode in data && IsText(data[PostgresMode], req.mode)
    && Filters in data && AreTexts(data[Filters], req.filters)
    && ChunkSize in data && data[ChunkSize].Int? && data[ChunkSize].n == req.chunkSize
    && PytestArgs in data && AreTexts(data[PytestArgs], req.pytestArgs)
    && Files in data && AreTexts(data[Files], req.files)
    && match req.plan.selected
       case None => SelectedChunks in data ==> data[SelectedChunks].Null?
       case Some(ns) => SelectedChunks in data && AreNumbers(data[SelectedChunks], ns)
  }

  lemma HeaderMeans(data: map<Key, Json>, req: Request)
    ensures HeaderFits(data, req) <==>
            && Get(data, SchemaVersion) == Int(SCHEMA_VERSION)
            && Get(data, RepoCommit) == Str(req.commit) && Get(data, PostgresMode) == Str(req.mode)
            && Get(data, Filters) == Strs(req.filters) && Get(data, ChunkSize) == Int(req.chunkSize)
            && Get(data, PytestArgs) == Strs(req.pytestArgs) && Get(data, Files) == Strs(req.files)
            && Get(data, SelectedChunks) == SelectedJson(req.plan.selected)
  {
    StrsAre(Get(data, Filters), req.filters);
    StrsAre(Get(data, PytestArgs), req.pytestArgs);
    StrsAre(Get(data, Files), req.files);
    if req.plan.selected.Some? {
      NatsAre(Get(data, SelectedChunks), req.plan.selected.value);
    }
  }

  lemma {:induction false} EntriesRead(entries: seq<Json>, records: seq<Rec>)
    ensures FromJsons(entries) == Some(records) <==>
            |records| == |entries| && forall i :: 0 <= i < |entries| ==> FromJson(entries[i]) == Some(records[i])
  {
    if entries == [] {
    } else if records == [] {
      assert FromJsons(entries) != Some([]) by {
        if FromJsons(entries).Some? { assert FromJsons(entries).value != []; }
      }
    } else {
      EntriesRead(entries[1..], records[1..]);
      assert records == [records[0]] + records[1..];
      if FromJsons(entries) == Some(records) {
        assert [FromJson(entries[0]).value] + FromJsons(entries[1..]).value == records;
        assert records[1..] == FromJsons(entries[1..]).value;
      }
      forall i | 0 < i < |entries| && i < |records|
        ensures FromJson(entries[i]) == Some(records[i]) <==> FromJson(entries[1..][i - 1]) == Some(records[1..][i - 1])
      {
      }
    }
  }

  // A manifest is accepted with these records exactly when its header has the
  // values of the request and its entries are the request's chunks, in order.
  lemma LoadAcceptsOnly(data: map<Key, Json>, req: Request, records: seq<Rec>)
    ensures Load(data, req) == Records(records) <==>
            && HeaderFits(data, req)
            && (Chunks in data ==> data[Chunks].Arr?)
            && var entries := if Chunks in data then data[Chunks].items else [];
               && |records| == |entries| == |req.plan.chunks|
               && forall i :: 0 <= i < |records| ==>
                    FromJson(entries[i]) == Some(records[i]) && records[i].files == req.plan.chunks[i]
  {
    HeaderMeans(data, req);
    if Chunks in data ==> data[Chunks].Arr? {
      EntriesRead(if Chunks in data then data[Chunks].items else [], records);
      assert Memberships(records) == req.plan.chunks <==>
             && |records| == |req.plan.chunks|
             && forall i :: 0 <= i < |records| ==> records[i].files == req.plan.chunks[i];
    }
  }

  lemma StatusWritten(text: string)
    ensures StatusText(StatusOf(text)) == text
  {
  }

  // What an entry is read as: every field is there and holds what the record
  // has, in the form to_json gives it; a missing "rerun" is false.
  lemma EntryReads(m: map<Key, Json>, r: Rec)
    requires FromJson(Obj(m)) == Some(r)
    ensures Index in m && m[Index] == Int(r.index) && Files in m && AreTexts(m[Files], r.files)
    ensures State in m && m[State] == Str(StatusText(r.status))
    ensures ExitCode in m && m[ExitCode] == (if r.exitCode.Some? then Int(r.exitCode.value) else Null)
    ensures Duration in m && m[Duration] == (if r.duration.Some? then Real(r.duration.value) else Null)
    ensures CountsOf in m && m[CountsOf] == CountsJson(r.counts)
    ensures InterruptedBy in m && m[InterruptedBy] == (if r.signal.Some? then Int(r.signal.value) else Null)
    ensures Error in m && m[Error] == (if r.error.Some? then Str(r.error.value) else Null)
    ensures r.rerun <==> Rerun in m && m[Rerun] == Bool(true)
  {
    StatusWritten(m[State].s);
    CountsWritten(m[CountsOf]);
  }

  lemma CountsWritten(j: Json)
    requires AsCounts(j).Some?
    ensures CountsJson(AsCounts(j).value) == j
  {
    if j.Obj? {
      var m := j.fields;
      var again := WordMap(UnWord(m));
      forall k ensures k in again <==> k in m {
        if k in m { assert k == Word(k.text); }
      }
      forall k | k in m ensures again[k] == m[k] {
        assert k == Word(k.text);
      }
      assert again == m;
    }
  }
}
