/**
 The Codex session parser: a first pass over metadata records decides which records the session owns,
 a second pass groups the owned records into turns, and normalization turns turns into events.
 JSON decoding, classification and redaction are parameters.
 */
module Codex {
  import opened Common
  import opened Scan
  import opened Lines

  datatype Json =
    | Null
    | Bool(b: bool)
    | Num(n: real)
    | Str(s: string)
    | Arr(items: seq<Json>)
    | Obj(fields: map<string, Json>)

  type Payload = map<string, Json>

  /** One decoded record. Envelope kinds the parser ignores are Other. */
  datatype Record =
    | SessionMeta(payload: Payload)
    | InterAgent(trigger: bool)
    | TaskStarted(turnId: Json)
    | Response(timestamp: Json, item: Item)
    | Other

  /** Payload of a response record, with its text already extracted. Malformed payloads raise in the second pass. */
  datatype Item =
    | AgentMessage(task: string)
    | UserMessage(text: string, id: Option<string>)
    | AssistantMessage(text: string)
    | FunctionCall(summary: string)
    | CustomCall(summary: string, nested: seq<string>)
    | WebSearch(summary: string)
    | ToolOutput(text: string)
    | Malformed
    | Ignored

  datatype Block = Block(kind: string, text: string, timestamp: Option<Json>, origin: Option<string>)

  datatype Classified = Classified(text: string, origin: string, context: seq<Block>)

  /** The pure functions the parser calls and the model does not look into. */
  datatype World = World(
    decode: Bytes -> Option<Record>,
    isControl: string -> bool,
    classify: string -> Classified,
    redact: string -> string,
    normalizeTime: Json -> Option<string>,
    parseUuid: Json -> Option<nat>,
    show: Json -> string,
    sessionOf: string -> string)

  /** A staged file and where it lies; the session identity comes from its name. */
  datatype Staged = Staged(name: string, parent: string, data: Bytes)

  // ---- reading records ----

  type Numbered = (nat, Record)

  /** _iter_json_records in strict mode over lines numbered from `number` + 1; an undecodable line raises. */
  function Records(w: World, lines: seq<Bytes>, number: nat, after: nat): Result<seq<Numbered>> {
    if lines == [] then Ok([])
    else if number + 1 <= after then Records(w, lines[1..], number + 1, after)
    else match w.decode(lines[0])
      case None => Err
      case Some(rec) =>
        match Records(w, lines[1..], number + 1, after)
        case Err => Err
        case Ok(rest) => Ok([(number + 1, rec)] + rest)
  }

  function Join<T>(a: Result<seq<T>>, b: Result<seq<T>>): Result<seq<T>> {
    if a.Ok? && b.Ok? then Ok(a.value + b.value) else Err
  }

  lemma JoinAssoc<T>(a: Result<seq<T>>, b: Result<seq<T>>, c: Result<seq<T>>)
    ensures Join(Join(a, b), c) == Join(a, Join(b, c))
    ensures Join(Ok([]), a) == a && Join(a, Ok([])) == a
  {
    if a.Ok? && b.Ok? && c.Ok? {
      assert (a.value + b.value) + c.value == a.value + (b.value + c.value);
    }
    if a.Ok? {
      assert [] + a.value == a.value && a.value + [] == a.value;
    }
  }

  lemma {:induction false} RecordsConcat(w: World, a: seq<Bytes>, b: seq<Bytes>, number: nat, after: nat)
    ensures Records(w, a + b, number, after) == Join(Records(w, a, number, after), Records(w, b, number + |a|, after))
  {
    var r := Records(w, b, number + |a|, after);
    if a == [] {
      assert a + b == b;
      JoinAssoc(r, r, r);
    } else {
      assert (a + b)[1..] == a[1..] + b;
      RecordsConcat(w, a[1..], b, number + 1, after);
      if number + 1 > after && w.decode(a[0]).Some? {
        var x := Ok([(number + 1, w.decode(a[0]).value)]);
        JoinAssoc(x, Records(w, a[1..], number + 1, after), r);
      }
    }
  }

  lemma {:induction false} RecordsNumbered(w: World, lines: seq<Bytes>, number: nat, after: nat)
    requires Records(w, lines, number, after).Ok?
    ensures var recs := Records(w, lines, number, after).value;
            forall i :: 0 <= i < |recs| ==> recs[i].0 == Max(number, after) + 1 + i
    ensures |Records(w, lines, number, after).value| == Max(0, number + |lines| - Max(number, after))
  {
    if lines != [] {
      RecordsNumbered(w, lines[1..], number + 1, after);
    }
  }

  /** What one pass over the staged file yields from byte `offset`, whose line number is `number` + 1. */
  function ReadFrom(w: World, data: Bytes, offset: nat, number: nat, after: nat): Result<seq<Numbered>> {
    Records(w, TextSplit(From(data, offset)), number, after)
  }

  method IterRecords(w: World, data: Bytes, offset: nat, number: nat, after: nat) returns (r: Result<seq<Numbered>>)
    ensures r == ReadFrom(w, data, offset, number, after)
  {
    var rest := From(data, offset);
    var line: nat := number;
    var out: seq<Numbered> := [];
    ghost var start := rest;
    assert forall more: seq<Numbered> :: [] + more == more;
    while rest != []
      invariant Records(w, TextSplit(start), number, after) == Join(Ok(out), Records(w, TextSplit(rest), line, after))
      decreases |rest|
    {
      var text := rest[..TextEnd(rest)];
      assert TextSplit(rest)[1..] == TextSplit(rest[TextEnd(rest)..]);
      rest := rest[TextEnd(rest)..];
      line := line + 1;
      if line > after {
        match w.decode(text) {
          case None => return Err;
          case Some(rec) =>
            assert forall more: seq<Numbered> :: out + ([(line, rec)] + more) == (out + [(line, rec)]) + more;
            out := out + [(line, rec)];
        }
      }
    }
    assert out + [] == out;
    return Ok(out);
  }

  // ---- first pass: ownership metadata ----

  const METADATA_KEYS: set<string> :=
    {"id", "session_id", "cwd", "source", "thread_source", "parent_thread_id", "forked_from_id", "agent_path",
     "agent_nickname"}

  function Select(payload: Payload): Payload {
    map k | k in payload && k in METADATA_KEYS :: payload[k]
  }

  /** The lists of the first pass; `kept` is scan_metadata, the compact form a checkpoint stores. */
  datatype Metadata = Metadata(
    metas: seq<(nat, Payload)>,
    trigger: Option<nat>,
    starts: seq<(nat, Json)>,
    kept: seq<Numbered>)

  const NOTHING := Metadata([], None, [], [])

  function ScanRecord(m: Metadata, rec: Numbered): Metadata {
    match rec.1
    case SessionMeta(payload) =>
      var selected := Select(payload);
      m.(metas := m.metas + [(rec.0, selected)], kept := m.kept + [(rec.0, SessionMeta(selected))])
    case InterAgent(true) =>
      if m.trigger == None then m.(trigger := Some(rec.0), kept := m.kept + [(rec.0, InterAgent(true))]) else m
    case TaskStarted(turnId) =>
      m.(starts := m.starts + [(rec.0, turnId)], kept := m.kept + [(rec.0, TaskStarted(turnId))])
    case _ => m
  }

  function ScanRecords(m: Metadata, recs: seq<Numbered>): Metadata
    decreases |recs|
  {
    if recs == [] then m else ScanRecords(ScanRecord(m, recs[0]), recs[1..])
  }

  method ScanMetadata(recs: seq<Numbered>) returns (m: Metadata)
    ensures m == ScanRecords(NOTHING, recs)
  {
    m := NOTHING;
    for i := 0 to |recs|
      invariant ScanRecords(m, recs[i..]) == ScanRecords(NOTHING, recs)
    {
      m := ScanRecord(m, recs[i]);
      assert recs[i..][1..] == recs[i + 1..];
    }
  }

  lemma {:induction false} ScanConcat(m: Metadata, a: seq<Numbered>, b: seq<Numbered>)
    ensures ScanRecords(m, a + b) == ScanRecords(ScanRecords(m, a), b)
    decreases |a|
  {
    if a == [] {
      assert a + b == b;
    } else {
      assert (a + b)[1..] == a[1..] + b;
      ScanConcat(ScanRecord(m, a[0]), a[1..], b);
    }
  }

  /** Replaying the compact records rebuilds the state they came from. */
  predicate Replays(m: Metadata) {
    ScanRecords(NOTHING, m.kept) == m
  }

  lemma ReplayStep(m: Metadata, rec: Numbered)
    requires Replays(m)
    ensures Replays(ScanRecord(m, rec))
  {
    var next := ScanRecord(m, rec);
    if next.kept != m.kept {
      var last := next.kept[|m.kept|];
      assert next.kept == m.kept + [last];
      ScanConcat(NOTHING, m.kept, [last]);
      assert ScanRecords(m, [last]) == ScanRecords(ScanRecord(m, last), []);
      if rec.1.SessionMeta? {
        assert Select(Select(rec.1.payload)) == Select(rec.1.payload);
      }
    }
  }

  lemma {:induction false} ReplayAll(m: Metadata, recs: seq<Numbered>)
    requires Replays(m)
    ensures Replays(ScanRecords(m, recs))
    decreases |recs|
  {
    if recs != [] {
      ReplayStep(m, recs[0]);
      ReplayAll(ScanRecord(m, recs[0]), recs[1..]);
    }
  }

  /**
   Ownership replay: scanning the compact metadata of a prefix and then the records appended to it
   gives the metadata, boundary inputs and next compact form of scanning the whole file.
   */
  lemma OwnershipReplay(prefix: seq<Numbered>, appended: seq<Numbered>)
    ensures ScanRecords(NOTHING, ScanRecords(NOTHING, prefix).kept + appended) ==
              ScanRecords(NOTHING, prefix + appended)
  {
    assert Replays(NOTHING);
    ReplayAll(NOTHING, prefix);
    ScanConcat(NOTHING, ScanRecords(NOTHING, prefix).kept, appended);
    ScanConcat(NOTHING, prefix, appended);
  }

  // ---- ownership ----

  /** Python truthiness. */
  predicate Truthy(v: Json) {
    match v
    case Null => false
    case Bool(b) => b
    case Num(n) => n != 0.0
    case Str(s) => s != ""
    case Arr(items) => items != []
    case Obj(fields) => fields != map[]
  }

  /** `a or b`. */
  function Or(a: Json, b: Json): Json {
    if Truthy(a) then a else b
  }

  function Get(p: Payload, key: string): Json {
    if key in p then p[key] else Null
  }

  function NestedParent(source: Json): Json {
    if !source.Obj? then Null
    else
      var subagent := Get(source.fields, "subagent");
      if !subagent.Obj? then Null
      else
        var spawn := Get(subagent.fields, "thread_spawn");
        if !spawn.Obj? then Null else Get(spawn.fields, "parent_thread_id")
  }

  /** The time field of a version-7 UUID of the RFC variant: the top 48 of its 128 bits. */
  function Uuid7Time(uuid: Option<nat>): Option<nat> {
    if uuid.Some? && uuid.value / 0x4000_0000_0000_0000 % 4 == 2 && uuid.value / 0x1000_0000_0000_0000_0000 % 16 == 7
    then Some(uuid.value / 0x1_0000_0000_0000_0000_0000) else None
  }

  /** The layout of section 5.7 of RFC 9562: 48 bits of time, version 7, 12 bits, variant 2, 62 bits. */
  function Uuid7(time: nat, a: nat, b: nat): nat
    requires time < 0x1_0000_0000_0000 && a < 0x1000 && b < 0x4000_0000_0000_0000
  {
    (((time * 16 + 7) * 0x1000 + a) * 4 + 2) * 0x4000_0000_0000_0000 + b
  }

  /** Decoding a version-7 UUID gives back the time it was made from. */
  lemma Uuid7TimeDecodes(time: nat, a: nat, b: nat)
    requires time < 0x1_0000_0000_0000 && a < 0x1000 && b < 0x4000_0000_0000_0000
    ensures Uuid7Time(Some(Uuid7(time, a, b))) == Some(time)
  {
    var u, v := Uuid7(time, a, b), (time * 16 + 7) * 0x1000 + a;
    assert u == (v * 4 + 2) * 0x4000_0000_0000_0000 + b;
    assert u / 0x4000_0000_0000_0000 == v * 4 + 2;
    assert u / 0x1_0000_0000_0000_0000 == v;
    assert u / 0x1000_0000_0000_0000_0000 == time * 16 + 7;
    assert u / 0x1_0000_0000_0000_0000_0000 == time;
  }

  /** Nothing else decodes: a 128-bit value has a time only if it is laid out as version 7. */
  lemma Uuid7Only(u: nat) returns (a: nat, b: nat)
    requires u < 0x1_0000_0000_0000_0000_0000_0000_0000_0000 && Uuid7Time(Some(u)).Some?
    ensures a < 0x1000 && b < 0x4000_0000_0000_0000 && Uuid7Time(Some(u)).value < 0x1_0000_0000_0000
    ensures u == Uuid7(Uuid7Time(Some(u)).value, a, b)
  {
    var v, w := u / 0x4000_0000_0000_0000, u / 0x1000_0000_0000_0000_0000;
    b := u % 0x4000_0000_0000_0000;
    a := v / 4 % 0x1000;
    assert u == v * 0x4000_0000_0000_0000 + b;
    assert v / 4 == u / 0x1_0000_0000_0000_0000;
    assert v / 4 / 0x1000 == w && v / 4 == w * 0x1000 + a;
    assert w / 16 == u / 0x1_0000_0000_0000_0000_0000;
  }

  /** `_uuid7_time(turn_id) or -1`: a zero time also counts as -1. */
  function StartTime(w: World, turnId: Json): int {
    match Uuid7Time(w.parseUuid(turnId))
    case None => -1
    case Some(t) => if t == 0 then -1 else t
  }

  function FirstMatching(metas: seq<(nat, Payload)>, native: string): Option<Payload> {
    if metas == [] then None
    else if Get(metas[0].1, "id") == Str(native) then Some(metas[0].1)
    else FirstMatching(metas[1..], native)
  }

  function ForeignLines(metas: seq<(nat, Payload)>, native: string): seq<nat> {
    if metas == [] then []
    else (if Truthy(Get(metas[0].1, "id")) && Get(metas[0].1, "id") != Str(native) then [metas[0].0] else [])
         + ForeignLines(metas[1..], native)
  }

  function Maximum(s: seq<nat>): nat
    requires s != []
  {
    if |s| == 1 then s[0] else Max(s[0], Maximum(s[1..]))
  }

  /** The first task start no older than the child session. */
  function FirstOwnStart(w: World, starts: seq<(nat, Json)>, childTime: nat): Option<nat> {
    if starts == [] then None
    else if StartTime(w, starts[0].1) >= childTime then Some(starts[0].0)
    else FirstOwnStart(w, starts[1..], childTime)
  }

  /** The line after which a subagent file with replayed parent history is the child's own. */
  function Boundary(w: World, native: string, m: Metadata): Option<nat> {
    var foreign := ForeignLines(m.metas, native);
    if foreign == [] then Some(0)
    else
      var childTime := Uuid7Time(w.parseUuid(Str(native)));
      var start := if childTime.Some? then FirstOwnStart(w, m.starts, childTime.value) else None;
      if start.Some? then start
      else if m.trigger.Some? && m.trigger.value > Maximum(foreign) then m.trigger
      else None
  }

  /** scan_ownership, or the authoritative-empty result for a file whose metadata is all foreign. */
  datatype Ownership =
    | Foreign(cwd: Json, parent: Json)
    | Owned(meta: Payload, boundary: Option<nat>, isSubagent: bool, parent: Json, empty: bool)

  predicate AnyIdentity(metas: seq<(nat, Payload)>) {
    exists i :: 0 <= i < |metas| && Truthy(Get(metas[i].1, "id"))
  }

  function Decide(w: World, native: string, m: Metadata): Ownership {
    var matching := FirstMatching(m.metas, native);
    if matching == None && AnyIdentity(m.metas) then
      var foreign := m.metas[0].1;
      Foreign(Get(foreign, "cwd"), Or(Get(foreign, "id"), Get(foreign, "session_id")))
    else
      var meta := if matching.Some? then matching.value else if m.metas != [] then m.metas[0].1 else map[];
      var source := Get(meta, "source");
      var isSubagent := Get(meta, "thread_source") == Str("subagent") || (source.Obj? && "subagent" in source.fields);
      if !isSubagent then Owned(meta, Some(0), false, Null, false)
      else
        var sessionId := Get(meta, "session_id");
        var parent := Or(Get(meta, "parent_thread_id"), Or(Get(meta, "forked_from_id"),
          Or(NestedParent(source), if sessionId != Str(native) then sessionId else Null)));
        var boundary := Boundary(w, native, m);
        Owned(meta, boundary, true, parent, boundary == None)
  }

  // ---- second pass: turns ----

  datatype Turn = Turn(timestamp: Json, blocks: seq<Block>, start: nat, end: nat, origin: string, id: Option<string>)

  datatype Grouping = Grouping(turns: seq<Turn>, current: Option<Turn>)

  const EMPTY := Grouping([], None)

  function Closed(g: Grouping): seq<Turn> {
    g.turns + if g.current.Some? then [g.current.value] else []
  }

  /** Append evidence to the open turn, or drop it when no turn is open. */
  function Extend(g: Grouping, blocks: seq<Block>, line: nat): Grouping {
    match g.current
    case None => g
    case Some(turn) => g.(current := Some(turn.(blocks := turn.blocks + blocks, end := line)))
  }

  function ToolUse(summary: string): Block {
    Block("tool_use", summary, None, None)
  }

  function ToolUses(summaries: seq<string>): seq<Block> {
    seq(|summaries|, i requires 0 <= i < |summaries| => ToolUse(summaries[i]))
  }

  /** The text a subagent's first message stands for. */
  function TaskText(w: World, native: string, meta: Payload, task: string): string {
    if task != "" then task
    else "Subagent task: " + w.show(Or(Get(meta, "agent_path"), Or(Get(meta, "agent_nickname"), Str(native))))
  }

  /** The turn a record opens, if it opens one. An agent message opens one only while none is open. */
  function Opened(w: World, native: string, own: Ownership, open: bool, rec: Numbered): Option<Turn>
    requires own.Owned?
  {
    match rec.1
    case Response(timestamp, AgentMessage(task)) =>
      if own.isSubagent && !open then
        var text := TaskText(w, native, own.meta, task);
        Some(Turn(timestamp, [Block("user_text", text, Some(timestamp), Some("user"))], rec.0, rec.0, "user", None))
      else None
    case Response(timestamp, UserMessage(text, id)) =>
      if text == "" || w.isControl(text) then None
      else
        var c := w.classify(text);
        if c.text == "" then None
        else Some(Turn(timestamp, [Block("user_text", c.text, Some(timestamp), Some(c.origin))] + c.context,
                       rec.0, rec.0, c.origin, id))
    case _ => None
  }

  /** The evidence a record adds to an open turn. */
  function Added(rec: Numbered): seq<Block> {
    match rec.1
    case Response(timestamp, AssistantMessage(text)) =>
      if text == "" then [] else [Block("assistant_text", text, Some(timestamp), None)]
    case Response(_, FunctionCall(summary)) => [ToolUse(summary)]
    case Response(_, CustomCall(summary, nested)) => [ToolUse(summary)] + ToolUses(nested)
    case Response(_, WebSearch(summary)) => [ToolUse(summary)]
    case Response(_, ToolOutput(text)) => [Block("tool_result", text, None, None)]
    case _ => []
  }

  predicate Raises(rec: Numbered) {
    rec.1.Response? && rec.1.item.Malformed?
  }

  function GroupRecord(w: World, native: string, own: Ownership, g: Grouping, rec: Numbered): Grouping
    requires own.Owned?
  {
    match Opened(w, native, own, g.current.Some?, rec)
    case Some(turn) => Grouping(Closed(g), Some(turn))
    case None => if Added(rec) == [] then g else Extend(g, Added(rec), rec.0)
  }

  function GroupRecords(w: World, native: string, own: Ownership, g: Grouping, recs: seq<Numbered>): Result<Grouping>
    requires own.Owned?
    decreases |recs|
  {
    if recs == [] then Ok(g)
    else if Raises(recs[0]) then Err
    else GroupRecords(w, native, own, GroupRecord(w, native, own, g, recs[0]), recs[1..])
  }

  method GroupTurns(w: World, native: string, own: Ownership, recs: seq<Numbered>) returns (r: Result<seq<Turn>>)
    requires own.Owned?
    ensures var g := GroupRecords(w, native, own, EMPTY, recs);
            r == if g.Ok? then Ok(Closed(g.value)) else Err
  {
    var turns: seq<Turn> := [];
    var current: Option<Turn> := None;
    for i := 0 to |recs|
      invariant GroupRecords(w, native, own, EMPTY, recs)
             == GroupRecords(w, native, own, Grouping(turns, current), recs[i..])
    {
      var rec := recs[i];
      assert recs[i..][0] == rec && recs[i..][1..] == recs[i + 1..];
      if Raises(rec) {
        return Err;
      }
      var opening := Opened(w, native, own, current.Some?, rec);
      if opening.Some? {
        if current.Some? {
          turns := turns + [current.value];
        } else {
          assert turns + [] == turns;
        }
        current := opening;
      } else if current.Some? && Added(rec) != [] {
        var turn := current.value;
        current := Some(turn.(blocks := turn.blocks + Added(rec), end := rec.0));
      }
    }
    if current.Some? {
      turns := turns + [current.value];
    } else {
      assert turns + [] == turns;
    }
    return Ok(turns);
  }

  // ---- parse_session ----

  datatype Parsed = Parsed(slug: Json, turns: seq<Turn>, project: Json, isSubagent: bool, parent: Json, native: string)

  function ForeignSession(native: string, own: Ownership, parentDir: string): Parsed
    requires own.Foreign?
  {
    Parsed(Str(native), [], Or(own.cwd, Str(parentDir)), true, own.parent, native)
  }

  function OwnedSession(native: string, own: Ownership, parentDir: string, turns: seq<Turn>): Parsed
    requires own.Owned?
  {
    var thread := Or(Get(own.meta, "id"), Or(Get(own.meta, "session_id"), Str(native)));
    var slug := Or(Get(own.meta, "agent_nickname"), Or(Get(own.meta, "agent_path"), thread));
    Parsed(slug, turns, Or(Get(own.meta, "cwd"), Str(parentDir)), own.isSubagent, own.parent, native)
  }

  /** Records of the second pass: none when no boundary was found. */
  function OwnedRecords(w: World, data: Bytes, own: Ownership, offset: nat, number: nat): Result<seq<Numbered>>
    requires own.Owned?
  {
    if own.boundary == None then Ok([]) else ReadFrom(w, data, offset, number, own.boundary.value)
  }

  function Turns(w: World, native: string, own: Ownership, recs: Result<seq<Numbered>>): Result<seq<Turn>>
    requires own.Owned?
  {
    if recs.Err? then Err
    else
      var g := GroupRecords(w, native, own, EMPTY, recs.value);
      if g.Err? then Err else Ok(Closed(g.value))
  }

  /** The session a full two-pass parse of the file returns. */
  function FullParse(w: World, file: Staged): Result<Parsed> {
    var all := ReadFrom(w, file.data, 0, 0, 0);
    if all.Err? then Err
    else
      var native := w.sessionOf(file.name);
      var own := Decide(w, native, ScanRecords(NOTHING, all.value));
      if own.Foreign? then Ok(ForeignSession(native, own, file.parent))
      else
        var turns := Turns(w, native, own, OwnedRecords(w, file.data, own, 0, 0));
        if turns.Err? then Err else Ok(OwnedSession(native, own, file.parent, turns.value))
  }

  /** Where an incremental caller offers to resume the second pass. */
  datatype Resume = Resume(ownership: Ownership, offset: nat, line: nat)

  /** The parser's diagnostics that a checkpoint is built from. */
  datatype Trace = Trace(kept: seq<Numbered>, ownership: Option<Ownership>, resumed: bool)

  /**
   parse_session: the metadata records are supplied by the caller (the whole file's, or a replay), and the
   second pass starts at the resume point when the ownership it was recorded under still holds.
   */
  method ParseSession(w: World, file: Staged, metadata: Result<seq<Numbered>>, resume: Option<Resume>)
    returns (r: Result<Parsed>, scan: Trace)
    requires resume.Some? ==> resume.value.line > 0
    ensures metadata.Err? ==> r == Err && !scan.resumed
    ensures metadata.Ok? ==>
      var native := w.sessionOf(file.name);
      var m := ScanRecords(NOTHING, metadata.value);
      var own := Decide(w, native, m);
      && scan.kept == m.kept
      && (own.Foreign? ==> scan.ownership == None && !scan.resumed && r == Ok(ForeignSession(native, own, file.parent)))
      && (own.Owned? ==>
          && scan.ownership == Some(own)
          && scan.resumed == (resume.Some? && resume.value.ownership == own)
          && var turns := Turns(w, native, own,
               if scan.resumed then OwnedRecords(w, file.data, own, resume.value.offset, resume.value.line - 1)
               else OwnedRecords(w, file.data, own, 0, 0));
             r == if turns.Ok? then Ok(OwnedSession(native, own, file.parent, turns.value)) else Err)
  {
    scan := Trace([], None, false);
    if metadata.Err? {
      return Err, scan;
    }
    var native := w.sessionOf(file.name);
    var m := ScanMetadata(metadata.value);
    var own := Decide(w, native, m);
    if own.Foreign? {
      return Ok(ForeignSession(native, own, file.parent)), Trace(m.kept, None, false);
    }
    scan := Trace(m.kept, Some(own), resume.Some? && resume.value.ownership == own);
    var recs: Result<seq<Numbered>> := Ok([]);
    if own.boundary.Some? {
      if scan.resumed {
        recs := IterRecords(w, file.data, resume.value.offset, resume.value.line - 1, own.boundary.value);
      } else {
        recs := IterRecords(w, file.data, 0, 0, own.boundary.value);
      }
    }
    if recs.Err? {
      return Err, scan;
    }
    var turns := GroupTurns(w, native, own, recs.value);
    match turns {
      case Err => return Err, scan;
      case Ok(list) => return Ok(OwnedSession(native, own, file.parent, list)), scan;
    }
  }
}
