/**
 What parse_session makes of a file, told from the file's records alone: which record speaks for the session, which
 line its own records start after, and which records its turns and their evidence are.
 */
module Account {
  import opened Common
  import opened Lines
  import opened Codex
  import opened GroupingFacts

  // ---- the record that speaks for the session ----

  /** What Python counts as false. */
  predicate Blank(v: Json) {
    v in {Null, Bool(false), Num(0.0), Str(""), Arr([]), Obj(map[])}
  }

  /** The first candidate that is not blank, or else the last one. */
  predicate Chosen(candidates: seq<Json>, v: Json) {
    exists k :: 0 <= k < |candidates| && v == candidates[k] && (forall j :: 0 <= j < k ==> Blank(candidates[j]))
                && (Blank(v) ==> k == |candidates| - 1)
  }

  /** Session metadata with this identity. */
  predicate Names(rec: Record, id: string) {
    rec.SessionMeta? && "id" in rec.payload && rec.payload["id"] == Str(id)
  }

  /** Session metadata with another identity: replayed history of a parent. */
  predicate NamesAnother(rec: Record, id: string) {
    rec.SessionMeta? && "id" in rec.payload && !Blank(rec.payload["id"]) && rec.payload["id"] != Str(id)
  }

  predicate AnyOther(recs: seq<Numbered>, id: string) {
    exists i :: 0 <= i < |recs| && NamesAnother(recs[i].1, id)
  }

  predicate FirstMeta(recs: seq<Numbered>, i: nat) {
    i < |recs| && recs[i].1.SessionMeta? && forall j :: 0 <= j < i ==> !recs[j].1.SessionMeta?
  }

  predicate FirstNamed(recs: seq<Numbered>, id: string, i: nat) {
    i < |recs| && Names(recs[i].1, id) && forall j :: 0 <= j < i ==> !Names(recs[j].1, id)
  }

  /** The metadata that speaks for the session: the first of its own, else the first of all, else none. */
  ghost predicate Speaks(recs: seq<Numbered>, native: string, p: Payload) {
    || (exists i: nat :: FirstNamed(recs, native, i) && p == recs[i].1.payload)
    || ((forall j :: 0 <= j < |recs| ==> !Names(recs[j].1, native))
        && exists i: nat :: FirstMeta(recs, i) && p == recs[i].1.payload)
    || ((forall j :: 0 <= j < |recs| ==> !recs[j].1.SessionMeta?) && p == map[])
  }

  /** A file with metadata of other sessions only belongs to none of them, and not to the session of its name. */
  predicate Orphaned(recs: seq<Numbered>, native: string) {
    AnyOther(recs, native) && forall i :: 0 <= i < |recs| ==> !Names(recs[i].1, native)
  }

  predicate Subagent(p: Payload) {
    Get(p, "thread_source") == Str("subagent") || (Get(p, "source").Obj? && "subagent" in Get(p, "source").fields)
  }

  /** source.subagent.thread_spawn.parent_thread_id, as far as it goes. */
  predicate SpawnedBy(source: Json, v: Json) {
    if source.Obj? && "subagent" in source.fields && source.fields["subagent"].Obj?
       && "thread_spawn" in source.fields["subagent"].fields
       && source.fields["subagent"].fields["thread_spawn"].Obj?
       && "parent_thread_id" in source.fields["subagent"].fields["thread_spawn"].fields
    then v == source.fields["subagent"].fields["thread_spawn"].fields["parent_thread_id"]
    else v == Null
  }

  ghost predicate ParentIs(p: Payload, native: string, parent: Json) {
    exists spawned :: SpawnedBy(Get(p, "source"), spawned)
      && Chosen([Get(p, "parent_thread_id"), Get(p, "forked_from_id"), spawned,
                 if Get(p, "session_id") == Str(native) then Null else Get(p, "session_id")], parent)
  }

  // ---- where the session's own records start ----

  /** A task started no earlier than a time; a zero time counts as none. */
  predicate StartedSince(w: World, rec: Record, time: nat) {
    rec.TaskStarted? && var t := Uuid7Time(w.parseUuid(rec.turnId)); t.Some? && t.value > 0 && t.value >= time
  }

  predicate FirstStart(w: World, recs: seq<Numbered>, time: nat, i: nat) {
    i < |recs| && StartedSince(w, recs[i].1, time) && forall j :: 0 <= j < i ==> !StartedSince(w, recs[j].1, time)
  }

  predicate FirstTrigger(recs: seq<Numbered>, i: nat) {
    i < |recs| && recs[i].1 == InterAgent(true) && forall j :: 0 <= j < i ==> recs[j].1 != InterAgent(true)
  }

  /**
   The line after which the records are the session's own. It is 0 but for a subagent whose file replays a parent:
   there it is that of the first task no older than the child, else that of the first trigger if that comes
   after all metadata of others, else there is none.
   */
  ghost predicate StartsAfter(w: World, recs: seq<Numbered>, native: string, subagent: bool, after: Option<nat>) {
    if !subagent || !AnyOther(recs, native) then after == Some(0)
    else
      var child := Uuid7Time(w.parseUuid(Str(native)));
      if child.Some? && exists i: nat :: FirstStart(w, recs, child.value, i)
      then exists i: nat :: FirstStart(w, recs, child.value, i) && after == Some(recs[i].0)
      else if exists i: nat :: FirstTrigger(recs, i) && LaterThanOthers(recs, native, recs[i].0)
      then exists i: nat :: FirstTrigger(recs, i) && after == Some(recs[i].0)
      else after == None
  }

  predicate LaterThanOthers(recs: seq<Numbered>, native: string, line: nat) {
    forall j :: 0 <= j < |recs| && NamesAnother(recs[j].1, native) ==> recs[j].0 < line
  }

  /** The ownership decision, told from the records. */
  ghost predicate OwnerTold(w: World, recs: seq<Numbered>, native: string, own: Ownership) {
    if Orphaned(recs, native) then
      exists i: nat :: FirstMeta(recs, i) && OrphanTold(recs[i].1.payload, own)
    else
      exists p :: Speaks(recs, native, p) && OwnedTold(w, recs, native, p, own)
  }

  predicate OrphanTold(p: Payload, own: Ownership) {
    own.Foreign? && own.cwd == Get(p, "cwd") && Chosen([Get(p, "id"), Get(p, "session_id")], own.parent)
  }

  ghost predicate OwnedTold(w: World, recs: seq<Numbered>, native: string, p: Payload, own: Ownership) {
    && own.Owned? && own.meta == Select(p) && own.isSubagent == Subagent(p)
    && (if Subagent(p) then ParentIs(p, native, own.parent) else own.parent == Null)
    && StartsAfter(w, recs, native, own.isSubagent, own.boundary) && (own.empty <==> own.boundary == None)
  }

  // ---- the lists of the first pass ----

  /** What one record adds to the lists. */
  function MetaOf(rec: Numbered): seq<(nat, Payload)> {
    if rec.1.SessionMeta? then [(rec.0, Select(rec.1.payload))] else []
  }

  function StartOf(rec: Numbered): seq<(nat, Json)> {
    if rec.1.TaskStarted? then [(rec.0, rec.1.turnId)] else []
  }

  function MetasOf(recs: seq<Numbered>): seq<(nat, Payload)> {
    if recs == [] then []
    else MetaOf(recs[0]) + MetasOf(recs[1..])
  }

  function StartsOf(recs: seq<Numbered>): seq<(nat, Json)> {
    if recs == [] then []
    else StartOf(recs[0]) + StartsOf(recs[1..])
  }

  function TriggerOf(recs: seq<Numbered>): Option<nat> {
    if recs == [] then None
    else if recs[0].1 == InterAgent(true) then Some(recs[0].0) else TriggerOf(recs[1..])
  }

  lemma ScanStep(m: Metadata, rec: Numbered)
    ensures var n := ScanRecord(m, rec);
            && n.metas == m.metas + MetaOf(rec) && n.starts == m.starts + StartOf(rec)
            && n.trigger == if m.trigger.None? && rec.1 == InterAgent(true) then Some(rec.0) else m.trigger
  {
  }

  lemma {:induction false} ScanLists(m: Metadata, recs: seq<Numbered>)
    ensures ScanRecords(m, recs).metas == m.metas + MetasOf(recs)
    ensures ScanRecords(m, recs).starts == m.starts + StartsOf(recs)
    ensures ScanRecords(m, recs).trigger == if m.trigger.Some? then m.trigger else TriggerOf(recs)
    decreases |recs|
  {
    hide ScanRecord, MetaOf, StartOf;
    if recs != [] {
      var next, rest := ScanRecord(m, recs[0]), recs[1..];
      ScanStep(m, recs[0]);
      ScanLists(next, rest);
      assert next.metas + MetasOf(rest) == m.metas + (MetaOf(recs[0]) + MetasOf(rest));
      assert next.starts + StartsOf(rest) == m.starts + (StartOf(recs[0]) + StartsOf(rest));
    }
  }

  lemma BlankIsFalsy(v: Json)
    ensures Truthy(v) <==> !Blank(v)
  {
  }

  /** The metadata fields that decide about a session. */
  const READ_KEYS: set<string> :=
    {"id", "session_id", "cwd", "source", "thread_source", "parent_thread_id", "forked_from_id", "agent_path",
     "agent_nickname"}

  lemma SelectGets(p: Payload, key: string)
    requires key in READ_KEYS
    ensures Get(Select(p), key) == Get(p, key) && (key in Select(p) <==> key in p)
  {
  }

  lemma {:induction false} MatchingTold(recs: seq<Numbered>, native: string) returns (i: nat)
    ensures var r := FirstMatching(MetasOf(recs), native);
            if r.None? then forall j :: 0 <= j < |recs| ==> !Names(recs[j].1, native)
            else FirstNamed(recs, native, i) && r.value == Select(recs[i].1.payload)
    decreases |recs|
  {
    i := 0;
    if recs != [] {
      var metas := MetasOf(recs);
      if recs[0].1.SessionMeta? {
        SelectGets(recs[0].1.payload, "id");
        assert metas[0] == (recs[0].0, Select(recs[0].1.payload)) && metas[1..] == MetasOf(recs[1..]);
      } else {
        assert metas == MetasOf(recs[1..]);
      }
      if !Names(recs[0].1, native) {
        var k := MatchingTold(recs[1..], native);
        i := k + 1;
        assert forall j :: 0 < j < |recs| ==> recs[j] == recs[1..][j - 1];
      }
    }
  }

  lemma {:induction false} MetaTold(recs: seq<Numbered>) returns (i: nat)
    ensures if MetasOf(recs) == [] then forall j :: 0 <= j < |recs| ==> !recs[j].1.SessionMeta?
            else FirstMeta(recs, i) && MetasOf(recs)[0].1 == Select(recs[i].1.payload)
    decreases |recs|
  {
    i := 0;
    if recs != [] && !recs[0].1.SessionMeta? {
      var k := MetaTold(recs[1..]);
      i := k + 1;
      assert MetasOf(recs) == MetasOf(recs[1..]);
      assert forall j :: 0 < j < |recs| ==> recs[j] == recs[1..][j - 1];
    }
  }

  lemma MetasCons(recs: seq<Numbered>)
    requires recs != []
    ensures recs[0].1.SessionMeta? ==>
              MetasOf(recs) == [(recs[0].0, Select(recs[0].1.payload))] + MetasOf(recs[1..])
              && Get(Select(recs[0].1.payload), "id") == Get(recs[0].1.payload, "id")
    ensures !recs[0].1.SessionMeta? ==> MetasOf(recs) == MetasOf(recs[1..])
    ensures forall j :: 0 < j < |recs| ==> recs[j] == recs[1..][j - 1]
  {
  }

  /** Every line of others' metadata is among the foreign lines. */
  lemma {:induction false} OthersTold(recs: seq<Numbered>, native: string)
    ensures forall j :: 0 <= j < |recs| && NamesAnother(recs[j].1, native) ==>
              recs[j].0 in ForeignLines(MetasOf(recs), native)
    decreases |recs|
  {
    if recs != [] {
      MetasCons(recs);
      OthersTold(recs[1..], native);
      if recs[0].1.SessionMeta? {
        BlankIsFalsy(Get(recs[0].1.payload, "id"));
        assert MetasOf(recs)[1..] == MetasOf(recs[1..]);
      }
    }
  }

  /** Every foreign line is a line of others' metadata. */
  lemma {:induction false} OtherAt(recs: seq<Numbered>, native: string, n: nat) returns (j: nat)
    requires n in ForeignLines(MetasOf(recs), native)
    ensures j < |recs| && NamesAnother(recs[j].1, native) && recs[j].0 == n
    decreases |recs|
  {
    if recs == [] {
      assert false;
    }
    MetasCons(recs);
    if recs[0].1.SessionMeta? {
      BlankIsFalsy(Get(recs[0].1.payload, "id"));
      assert MetasOf(recs)[1..] == MetasOf(recs[1..]);
    }
    if NamesAnother(recs[0].1, native) && recs[0].0 == n {
      j := 0;
    } else {
      var k := OtherAt(recs[1..], native, n);
      j := k + 1;
    }
  }

  lemma AnyIdentityCons(meta: (nat, Payload), rest: seq<(nat, Payload)>)
    ensures AnyIdentity([meta] + rest) <==> Truthy(Get(meta.1, "id")) || AnyIdentity(rest)
  {
    var metas := [meta] + rest;
    assert metas[0] == meta && forall i :: 0 <= i < |rest| ==> metas[i + 1] == rest[i];
    if AnyIdentity(rest) {
      var i :| 0 <= i < |rest| && Truthy(Get(rest[i].1, "id"));
      assert Truthy(Get(metas[i + 1].1, "id"));
    }
  }

  /** Whether any metadata has an identity at all, when none has the session's. */
  lemma {:induction false} IdentityTold(recs: seq<Numbered>, native: string)
    requires forall j :: 0 <= j < |recs| ==> !Names(recs[j].1, native)
    ensures AnyIdentity(MetasOf(recs)) <==> AnyOther(recs, native)
    decreases |recs|
  {
    if recs != [] {
      MetasCons(recs);
      IdentityTold(recs[1..], native);
      assert AnyOther(recs, native) <==> NamesAnother(recs[0].1, native) || AnyOther(recs[1..], native) by {
        if AnyOther(recs[1..], native) {
          var j :| 0 <= j < |recs[1..]| && NamesAnother(recs[1..][j].1, native);
          assert NamesAnother(recs[j + 1].1, native);
        }
      }
      if recs[0].1.SessionMeta? {
        BlankIsFalsy(Get(recs[0].1.payload, "id"));
        AnyIdentityCons((recs[0].0, Select(recs[0].1.payload)), MetasOf(recs[1..]));
      }
    }
  }

  lemma {:induction false} StartTold(w: World, recs: seq<Numbered>, time: nat) returns (i: nat)
    ensures var r := FirstOwnStart(w, StartsOf(recs), time);
            if r.None? then forall j :: 0 <= j < |recs| ==> !StartedSince(w, recs[j].1, time)
            else FirstStart(w, recs, time, i) && r.value == recs[i].0
    decreases |recs|
  {
    i := 0;
    if recs != [] {
      var starts, rest := StartsOf(recs), recs[1..];
      if recs[0].1.TaskStarted? {
        assert starts[0] == (recs[0].0, recs[0].1.turnId) && starts[1..] == StartsOf(rest);
      } else {
        assert starts == StartsOf(rest);
      }
      if !StartedSince(w, recs[0].1, time) {
        var k := StartTold(w, rest, time);
        i := k + 1;
        assert forall j :: 0 < j < |recs| ==> recs[j] == rest[j - 1];
      }
    }
  }

  lemma {:induction false} TriggerTold(recs: seq<Numbered>) returns (i: nat)
    ensures if TriggerOf(recs).None? then forall j :: 0 <= j < |recs| ==> recs[j].1 != InterAgent(true)
            else FirstTrigger(recs, i) && TriggerOf(recs).value == recs[i].0
    decreases |recs|
  {
    i := 0;
    if recs != [] && recs[0].1 != InterAgent(true) {
      var k := TriggerTold(recs[1..]);
      i := k + 1;
      assert forall j :: 0 < j < |recs| ==> recs[j] == recs[1..][j - 1];
    }
  }

  lemma {:induction false} MaximumBounds(s: seq<nat>)
    requires s != []
    ensures Maximum(s) in s && forall n :: n in s ==> n <= Maximum(s)
  {
    if |s| > 1 {
      MaximumBounds(s[1..]);
      assert s == [s[0]] + s[1..];
    }
  }

  /** The boundary of a subagent, told from the records. */
  lemma BoundaryTold(w: World, recs: seq<Numbered>, native: string)
    ensures StartsAfter(w, recs, native, true, Boundary(w, native, ScanRecords(NOTHING, recs)))
  {
    hide FirstStart, FirstTrigger, NamesAnother, FirstOwnStart, ForeignLines, MetasOf, StartsOf, TriggerOf, Maximum,
         Uuid7Time, ScanRecords;
    var m := ScanRecords(NOTHING, recs);
    ScanLists(NOTHING, recs);
    OthersTold(recs, native);
    var lines := ForeignLines(MetasOf(recs), native);
    var trigger := TriggerTold(recs);
    var child := Uuid7Time(w.parseUuid(Str(native)));
    assert m.metas == MetasOf(recs) && m.starts == StartsOf(recs) && m.trigger == TriggerOf(recs);
    if lines != [] {
      var j := OtherAt(recs, native, lines[0]);
      MaximumBounds(lines);
      var last := OtherAt(recs, native, Maximum(lines));
      FirstsAlone(w, recs);
      if child.Some? {
        var start := StartTold(w, recs, child.value);
      }
    }
  }

  /** There is at most one first start and one first trigger, and none where there is no start or trigger. */
  lemma FirstsAlone(w: World, recs: seq<Numbered>)
    ensures forall i, j: nat :: FirstTrigger(recs, i) && FirstTrigger(recs, j) ==> i == j
    ensures forall time, i: nat :: FirstStart(w, recs, time, i) ==>
              i < |recs| && StartedSince(w, recs[i].1, time)
    ensures forall i: nat :: FirstTrigger(recs, i) ==> i < |recs| && recs[i].1 == InterAgent(true)
  {
  }

  /** A candidate in front of others. */
  lemma OrStep(first: Json, rest: seq<Json>, v: Json)
    requires Chosen(rest, v)
    ensures Chosen([first] + rest, Or(first, v))
  {
    BlankIsFalsy(first);
    var all := [first] + rest;
    var k :| 0 <= k < |rest| && v == rest[k] && (forall j :: 0 <= j < k ==> Blank(rest[j]))
             && (Blank(v) ==> k == |rest| - 1);
    assert all[0] == first && all[k + 1] == v && forall j :: 0 < j <= k + 1 ==> all[j] == rest[j - 1];
  }

  lemma OneChosen(v: Json)
    ensures Chosen([v], v)
  {
    assert [v][0] == v;
  }

  lemma OrChosen(a: Json, b: Json, c: Json, d: Json)
    ensures Chosen([a, b], Or(a, b)) && Chosen([a, b, c], Or(a, Or(b, c)))
    ensures Chosen([a, b, c, d], Or(a, Or(b, Or(c, d))))
  {
    hide Chosen, Or;
    assert [a] + [b] == [a, b] && [b] + [c] == [b, c] && [c] + [d] == [c, d] && [a] + [b, c] == [a, b, c];
    assert [b] + [c, d] == [b, c, d] && [a] + [b, c, d] == [a, b, c, d];
    OneChosen(b);
    OneChosen(c);
    OneChosen(d);
    OrStep(a, [b], b);
    OrStep(b, [c], c);
    OrStep(c, [d], d);
    OrStep(a, [b, c], Or(b, c));
    OrStep(b, [c, d], Or(c, d));
    OrStep(a, [b, c, d], Or(b, Or(c, d)));
  }

  lemma ParentTold(p: Payload, native: string)
    ensures var session := Get(p, "session_id");
            ParentIs(p, native, Or(Get(p, "parent_thread_id"), Or(Get(p, "forked_from_id"),
              Or(NestedParent(Get(p, "source")), if session != Str(native) then session else Null))))
  {
    hide Chosen, Or;
    var session := Get(p, "session_id");
    assert SpawnedBy(Get(p, "source"), NestedParent(Get(p, "source")));
    OrChosen(Get(p, "parent_thread_id"), Get(p, "forked_from_id"), NestedParent(Get(p, "source")),
             if session != Str(native) then session else Null);
  }

  /** The decision about a file that some metadata speaks for. */
  lemma OwnedTells(w: World, recs: seq<Numbered>, native: string, p: Payload)
    requires !Orphaned(recs, native) && Speaks(recs, native, p)
    requires var m := ScanRecords(NOTHING, recs);
             var matching := FirstMatching(m.metas, native);
             && (matching == None ==> !AnyIdentity(m.metas))
             && Select(p) == if matching.Some? then matching.value else if m.metas != [] then m.metas[0].1 else map[]
    ensures OwnerTold(w, recs, native, Decide(w, native, ScanRecords(NOTHING, recs)))
  {
    hide StartsAfter, Speaks, Orphaned, ParentIs, Chosen, Or, NestedParent, Boundary, Select, FirstMatching,
         AnyIdentity, ScanRecords;
    BoundaryTold(w, recs, native);
    PlainStart(w, recs, native);
    SelectedGets(p);
    ParentTold(p, native);
    assert OwnedTold(w, recs, native, p, Decide(w, native, ScanRecords(NOTHING, recs)));
  }

  /** The decision of the first pass is the one told from the records. */
  lemma DecideTold(w: World, recs: seq<Numbered>, native: string)
    ensures OwnerTold(w, recs, native, Decide(w, native, ScanRecords(NOTHING, recs)))
  {
    hide StartsAfter, NamesAnother, Chosen, Or, Boundary, Select, FirstMatching, MetasOf, AnyIdentity, ScanRecords,
         AnyOther, OwnedTold, NestedParent;
    ScanLists(NOTHING, recs);
    var metas := MetasOf(recs);
    assert ScanRecords(NOTHING, recs).metas == metas;
    var named := MatchingTold(recs, native);
    var first := MetaTold(recs);
    var matching := FirstMatching(metas, native);
    if matching.Some? {
      OwnedTells(w, recs, native, recs[named].1.payload);
    } else {
      IdentityTold(recs, native);
      IdentityMeta(metas);
      if AnyIdentity(metas) {
        var p := recs[first].1.payload;
        SelectedGets(p);
        OrChosen(Get(p, "id"), Get(p, "session_id"), Null, Null);
        assert OrphanTold(p, Decide(w, native, ScanRecords(NOTHING, recs)));
      } else if metas != [] {
        OwnedTells(w, recs, native, recs[first].1.payload);
      } else {
        SelectNothing();
        OwnedTells(w, recs, native, map[]);
      }
    }
  }

  lemma PlainStart(w: World, recs: seq<Numbered>, native: string)
    ensures StartsAfter(w, recs, native, false, Some(0))
  {
  }

  lemma IdentityMeta(metas: seq<(nat, Payload)>)
    ensures AnyIdentity(metas) ==> metas != []
  {
  }

  lemma SelectNothing()
    ensures Select(map[]) == map[]
  {
  }

  /** The fields that decide survive the selection. */
  lemma SelectedGets(p: Payload)
    ensures forall key :: key in READ_KEYS ==> Get(Select(p), key) == Get(p, key)
  {
  }

  // ---- turns ----

  /** A record that can open a turn: a user's words, or an agent's message to a subagent. */
  predicate Initiates(w: World, subagent: bool, rec: Record) {
    match rec
    case Response(_, UserMessage(text, _)) => text != "" && !w.isControl(text) && w.classify(text).text != ""
    case Response(_, AgentMessage(_)) => subagent
    case _ => false
  }

  /** It does open one, unless it is an agent's message and there has been such a record before. */
  predicate OpensTurn(w: World, subagent: bool, mine: seq<Numbered>, i: nat)
    requires i < |mine|
  {
    && Initiates(w, subagent, mine[i].1)
    && (mine[i].1.item.AgentMessage? ==> forall j :: 0 <= j < i ==> !Initiates(w, subagent, mine[j].1))
  }

  /** The evidence a record adds to the turn it falls in. */
  predicate Gives(rec: Record, blocks: seq<Block>) {
    match rec
    case Response(time, AssistantMessage(text)) =>
      if text == "" then blocks == [] else blocks == [Block("assistant_text", text, Some(time), None)]
    case Response(_, FunctionCall(summary)) => blocks == [Block("tool_use", summary, None, None)]
    case Response(_, WebSearch(summary)) => blocks == [Block("tool_use", summary, None, None)]
    case Response(_, CustomCall(summary, nested)) =>
      && |blocks| == 1 + |nested| && blocks[0] == Block("tool_use", summary, None, None)
      && forall k :: 0 <= k < |nested| ==> blocks[k + 1] == Block("tool_use", nested[k], None, None)
    case Response(_, ToolOutput(text)) => blocks == [Block("tool_result", text, None, None)]
    case _ => blocks == []
  }

  /** What records add, one after the other. */
  function Evidence(recs: seq<Numbered>): seq<Block> {
    if recs == [] then [] else Evidence(recs[..|recs| - 1]) + Added(recs[|recs| - 1])
  }

  /** The turn a record opens, and the blocks it opens it with. */
  ghost predicate HeadTold(w: World, native: string, meta: Payload, rec: Numbered, turn: Turn, heading: seq<Block>) {
    && turn.start == rec.0 && rec.1.Response? && turn.timestamp == rec.1.timestamp
    && match rec.1.item
       case AgentMessage(task) =>
         && turn.origin == "user" && turn.id == None
         && exists named :: Chosen([Get(meta, "agent_path"), Get(meta, "agent_nickname"), Str(native)], named)
              && var text := if task != "" then task else "Subagent task: " + w.show(named);
              heading == [Block("user_text", text, Some(rec.1.timestamp), Some("user"))]
       case UserMessage(text, id) =>
         && turn.origin == w.classify(text).origin && turn.id == id
         && heading == [Block("user_text", w.classify(text).text, Some(rec.1.timestamp), Some(turn.origin))]
                       + w.classify(text).context
       case _ => false
  }

  /** A turn opened by record p and lasting to record q. */
  ghost predicate TurnTold(w: World, native: string, meta: Payload, mine: seq<Numbered>, p: nat, q: nat, turn: Turn) {
    && p < q <= |mine|
    && (exists heading :: HeadTold(w, native, meta, mine[p], turn, heading)
                          && turn.blocks == heading + Evidence(mine[p + 1..q]))
    && exists i :: p <= i < q && turn.end == mine[i].0 && (i == p || Added(mine[i]) != [])
                   && forall j :: i < j < q ==> Added(mine[j]) == []
  }

  /** Record `at[k]` opens turn k, which lasts to the next opening record; the other records open none. */
  ghost predicate TurnsTold(w: World, native: string, subagent: bool, meta: Payload, mine: seq<Numbered>,
                            turns: seq<Turn>, at: seq<nat>) {
    && |at| == |turns|
    && (forall k :: 0 <= k < |at| ==> at[k] < |mine|) && (forall j, k :: 0 <= j < k < |at| ==> at[j] < at[k])
    && (forall i: nat :: i < |mine| ==> (OpensTurn(w, subagent, mine, i) <==> i in at))
    && (forall k :: 0 <= k < |at| ==> TurnTold(w, native, meta, mine, at[k], TurnEnd(mine, at, k), turns[k]))
    && (forall i :: 0 <= i < |mine| ==> Gives(mine[i].1, Added(mine[i])) && !Raises(mine[i]))
  }

  function TurnEnd(mine: seq<Numbered>, at: seq<nat>, k: nat): nat {
    if k + 1 < |at| then at[k + 1] else |mine|
  }

  lemma AddedGives(rec: Numbered)
    ensures Gives(rec.1, Added(rec))
  {
  }

  /** Whether there has been a record that can open a turn is whether one has been opened. */
  lemma {:induction false} FirstInitiates(w: World, subagent: bool, mine: seq<Numbered>, i: nat) returns (k: nat)
    requires i < |mine| && Initiates(w, subagent, mine[i].1)
    ensures k <= i && OpensTurn(w, subagent, mine, k)
  {
    if j: nat :| j < i && Initiates(w, subagent, mine[j].1) {
      k := FirstInitiates(w, subagent, mine, j);
    } else {
      k := i;
    }
  }

  lemma OpenedTold(w: World, native: string, own: Ownership, open: bool, rec: Numbered)
    requires own.Owned?
    ensures var opening := Opened(w, native, own, open, rec);
            && (opening.Some? <==> Initiates(w, own.isSubagent, rec.1) && (rec.1.item.AgentMessage? ==> !open))
            && (opening.Some? ==>
                  && HeadTold(w, native, own.meta, rec, opening.value, opening.value.blocks)
                  && opening.value.end == rec.0)
  {
    hide Chosen, Or;
    OrChosen(Get(own.meta, "agent_path"), Get(own.meta, "agent_nickname"), Str(native), Null);
  }

  /** A later record that opens no turn lengthens the last turn by what it adds, and no other turn. */
  lemma TurnGrows(w: World, native: string, meta: Payload, mine: seq<Numbered>, p: nat, turn: Turn, rec: Numbered)
    requires TurnTold(w, native, meta, mine, p, |mine|, turn)
    ensures var more := if Added(rec) == [] then turn else turn.(blocks := turn.blocks + Added(rec), end := rec.0);
            TurnTold(w, native, meta, mine + [rec], p, |mine| + 1, more)
  {
    hide Added;
    var all := mine + [rec];
    var more := if Added(rec) == [] then turn else turn.(blocks := turn.blocks + Added(rec), end := rec.0);
    assert mine[p + 1..|mine|] == mine[p + 1..];
    var heading :| HeadTold(w, native, meta, mine[p], turn, heading)
                   && turn.blocks == heading + Evidence(mine[p + 1..|mine|]);
    assert all[p + 1..|mine| + 1] == mine[p + 1..] + [rec];
    assert (mine[p + 1..] + [rec])[..|mine[p + 1..]|] == mine[p + 1..];
    assert Evidence(all[p + 1..|mine| + 1]) == Evidence(mine[p + 1..]) + Added(rec);
    assert HeadTold(w, native, meta, all[p], more, heading);
    assert more.blocks == heading + Evidence(all[p + 1..|mine| + 1]);
    var i :| p <= i < |mine| && turn.end == mine[i].0 && (i == p || Added(mine[i]) != [])
             && forall j :: i < j < |mine| ==> Added(mine[j]) == [];
    if Added(rec) == [] {
      assert all[i] == mine[i];
    } else {
      assert all[|mine|] == rec;
    }
  }

  /** A turn that ended before stays as it was told. */
  lemma TurnStays(w: World, native: string, meta: Payload, mine: seq<Numbered>, p: nat, q: nat, turn: Turn,
                  rec: Numbered)
    requires TurnTold(w, native, meta, mine, p, q, turn)
    ensures TurnTold(w, native, meta, mine + [rec], p, q, turn)
  {
    var all := mine + [rec];
    assert all[p] == mine[p] && all[p + 1..q] == mine[p + 1..q];
    assert forall j :: p <= j < q ==> all[j] == mine[j];
  }

  lemma TurnStarts(w: World, native: string, meta: Payload, mine: seq<Numbered>, rec: Numbered, turn: Turn)
    requires HeadTold(w, native, meta, rec, turn, turn.blocks) && turn.end == rec.0
    ensures TurnTold(w, native, meta, mine + [rec], |mine|, |mine| + 1, turn)
  {
    var all := mine + [rec];
    assert all[|mine| + 1..|mine| + 1] == [] && turn.blocks + [] == turn.blocks;
    assert all[|mine|] == rec;
  }

  /** Grouping makes of the session's own records the turns told of them. */
  lemma {:induction false} GroupTold(w: World, native: string, own: Ownership, mine: seq<Numbered>)
    returns (at: seq<nat>)
    requires own.Owned? && GroupRecords(w, native, own, EMPTY, mine).Ok?
    ensures var g := GroupRecords(w, native, own, EMPTY, mine).value;
            && TurnsTold(w, native, own.isSubagent, own.meta, mine, Closed(g), at)
            && (g.current.Some? <==> at != [])
    decreases |mine|
  {
    hide TurnTold, Added, Opened, Initiates, Gives, GroupRecord;
    if mine == [] {
      at := [];
    } else {
      var front, rec := mine[..|mine| - 1], mine[|mine| - 1];
      assert mine == front + [rec];
      GroupConcat(w, native, own, EMPTY, front, [rec]);
      var h := GroupRecords(w, native, own, EMPTY, front).value;
      GroupOne(w, native, own, h, rec);
      var before := GroupTold(w, native, own, front);
      at := GroupMore(w, native, own, front, h, rec, before);
    }
  }

  lemma GroupMore(w: World, native: string, own: Ownership, front: seq<Numbered>, h: Grouping, rec: Numbered,
                  before: seq<nat>) returns (at: seq<nat>)
    requires own.Owned? && !Raises(rec)
    requires TurnsTold(w, native, own.isSubagent, own.meta, front, Closed(h), before)
    requires h.current.Some? <==> before != []
    ensures var g := GroupRecord(w, native, own, h, rec);
            && TurnsTold(w, native, own.isSubagent, own.meta, front + [rec], Closed(g), at)
            && (g.current.Some? <==> at != [])
  {
    assert |before| == |Closed(h)|;
    hide TurnsTold, Added, Opened, Initiates, HeadTold, OpensTurn;
    var g := GroupRecord(w, native, own, h, rec);
    var opening := Opened(w, native, own, h.current.Some?, rec);
    OpenedTold(w, native, own, h.current.Some?, rec);
    if opening.Some? {
      at := before + [|front|];
      assert Closed(g) == Closed(h) + [opening.value];
      TurnOpens(w, native, own.isSubagent, own.meta, front, Closed(h), rec, before, opening.value);
    } else {
      at := before;
      assert Closed(g) == Lengthened(Closed(h), rec);
      TurnLasts(w, native, own.isSubagent, own.meta, front, Closed(h), rec, before);
    }
  }

  lemma TurnOpens(w: World, native: string, sub: bool, meta: Payload, front: seq<Numbered>, turns: seq<Turn>,
                  rec: Numbered, before: seq<nat>, turn: Turn)
    requires TurnsTold(w, native, sub, meta, front, turns, before) && !Raises(rec)
    requires Initiates(w, sub, rec.1) && (rec.1.item.AgentMessage? ==> before == [])
    requires HeadTold(w, native, meta, rec, turn, turn.blocks) && turn.end == rec.0
    ensures TurnsTold(w, native, sub, meta, front + [rec], turns + [turn], before + [|front|])
  {
    hide TurnTold, Added, Initiates, Gives, HeadTold, OpensTurn;
    var mine, at := front + [rec], before + [|front|];
    AddedGives(rec);
    OpenersStay(w, sub, front, rec, before);
    TurnStarts(w, native, meta, front, rec, turn);
    forall k | 0 <= k < |before| ensures TurnTold(w, native, meta, mine, at[k], TurnEnd(mine, at, k), turns[k]) {
      TurnStays(w, native, meta, front, before[k], TurnEnd(front, before, k), turns[k], rec);
    }
    forall i: nat | i < |mine| ensures OpensTurn(w, sub, mine, i) <==> i in at {
    }
  }

  lemma TurnLasts(w: World, native: string, sub: bool, meta: Payload, front: seq<Numbered>, turns: seq<Turn>,
                  rec: Numbered, before: seq<nat>)
    requires TurnsTold(w, native, sub, meta, front, turns, before) && !Raises(rec)
    requires !(Initiates(w, sub, rec.1) && (rec.1.item.AgentMessage? ==> before == []))
    ensures TurnsTold(w, native, sub, meta, front + [rec], Lengthened(turns, rec), before)
  {
    hide TurnTold, Added, Initiates, Gives, OpensTurn;
    var mine := front + [rec];
    AddedGives(rec);
    OpenersStay(w, sub, front, rec, before);
    forall k | 0 <= k < |before|
      ensures TurnTold(w, native, meta, mine, before[k], TurnEnd(mine, before, k), Lengthened(turns, rec)[k])
    {
      if k == |before| - 1 {
        TurnGrows(w, native, meta, front, before[k], turns[k], rec);
      } else {
        TurnStays(w, native, meta, front, before[k], TurnEnd(front, before, k), turns[k], rec);
      }
    }
  }

  /** The turns with a record's evidence added to the last one, if it has any. */
  function Lengthened(turns: seq<Turn>, rec: Numbered): seq<Turn> {
    if turns == [] || Added(rec) == [] then turns
    else
      var last := turns[|turns| - 1];
      turns[..|turns| - 1] + [last.(blocks := last.blocks + Added(rec), end := rec.0)]
  }

  /** A record opens a turn among the records so far just as it does with one more after them. */
  lemma OpenersStay(w: World, sub: bool, front: seq<Numbered>, rec: Numbered, before: seq<nat>)
    requires forall i: nat :: i < |front| ==> (OpensTurn(w, sub, front, i) <==> i in before)
    requires forall k :: 0 <= k < |before| ==> before[k] < |front|
    ensures forall i: nat :: i < |front| ==> (OpensTurn(w, sub, front + [rec], i) <==> i in before)
    ensures OpensTurn(w, sub, front + [rec], |front|) <==>
              Initiates(w, sub, rec.1) && (rec.1.item.AgentMessage? ==> before == [])
  {
    hide Initiates;
    var mine := front + [rec];
    assert forall j :: 0 <= j < |front| ==> mine[j] == front[j];
    forall i: nat | i < |front| ensures OpensTurn(w, sub, mine, i) <==> OpensTurn(w, sub, front, i) {
    }
    InitiatesIsResponse(w, sub);
    if before != [] {
      assert before[0] in before;
      assert OpensTurn(w, sub, front, before[0]);
      assert Initiates(w, sub, mine[before[0]].1);
    } else if j: nat :| j < |front| && Initiates(w, sub, front[j].1) {
      var k := FirstInitiates(w, sub, front, j);
    }
  }

  lemma InitiatesIsResponse(w: World, sub: bool)
    ensures forall rec: Record :: Initiates(w, sub, rec) ==> rec.Response?
  {
  }

  // ---- parse_session ----

  /** The session's own records: those on lines after a line. */
  function OwnRecords(recs: seq<Numbered>, after: Option<nat>): seq<Numbered> {
    if after.None? || after.value >= |recs| then [] else recs[after.value..]
  }

  /** The session's own names, from the metadata that speaks for it. */
  ghost predicate NamesTold(p: Payload, native: string, parentDir: string, parsed: Parsed) {
    && parsed.native == native && parsed.isSubagent == Subagent(p)
    && Chosen([Get(p, "agent_nickname"), Get(p, "agent_path"), Get(p, "id"), Get(p, "session_id"), Str(native)],
              parsed.slug)
    && Chosen([Get(p, "cwd"), Str(parentDir)], parsed.project)
    && if Subagent(p) then ParentIs(p, native, parsed.parent) else parsed.parent == Null
  }

  /** What parse_session returns for a file with these records: record k stands on line k + 1. */
  ghost predicate ParseTold(w: World, recs: seq<Numbered>, native: string, parentDir: string, parsed: Parsed) {
    if Orphaned(recs, native) then
      && parsed.turns == [] && parsed.native == native && parsed.slug == Str(native) && parsed.isSubagent
      && exists i: nat :: FirstMeta(recs, i) && var p := recs[i].1.payload;
           Chosen([Get(p, "cwd"), Str(parentDir)], parsed.project)
           && Chosen([Get(p, "id"), Get(p, "session_id")], parsed.parent)
    else
      exists p, after :: Speaks(recs, native, p) && NamesTold(p, native, parentDir, parsed)
        && StartsAfter(w, recs, native, Subagent(p), after)
        && exists at :: TurnsTold(w, native, Subagent(p), Select(p), OwnRecords(recs, after), parsed.turns, at)
  }

  /** One of the session's own records is malformed. */
  ghost predicate BadRecord(w: World, recs: seq<Numbered>, native: string) {
    !Orphaned(recs, native)
    && exists p, after :: Speaks(recs, native, p) && StartsAfter(w, recs, native, Subagent(p), after)
         && exists i :: 0 <= i < |OwnRecords(recs, after)| && OwnRecords(recs, after)[i].1.Response?
                        && OwnRecords(recs, after)[i].1.item.Malformed?
  }

  lemma {:induction false} RecordsAfter(w: World, lines: seq<Bytes>, number: nat, after: nat)
    requires Records(w, lines, number, 0).Ok?
    ensures var recs := Records(w, lines, number, 0).value;
            Records(w, lines, number, after) == Ok(if after <= number then recs
                                                   else if after - number >= |recs| then [] else recs[after - number..])
  {
    if lines != [] {
      RecordsAfter(w, lines[1..], number + 1, after);
      var recs, rest := Records(w, lines, number, 0).value, Records(w, lines[1..], number + 1, 0).value;
      assert recs[1..] == rest && (after > number && after - number < |recs| ==>
                                     recs[after - number..] == rest[after - number - 1..]);
    }
  }

  lemma {:induction false} WhereMalformed(w: World, native: string, own: Ownership, g: Grouping, recs: seq<Numbered>)
    returns (i: nat)
    requires own.Owned? && GroupRecords(w, native, own, g, recs).Err?
    ensures i < |recs| && Raises(recs[i])
    decreases |recs|
  {
    if Raises(recs[0]) {
      i := 0;
    } else {
      var k := WhereMalformed(w, native, own, GroupRecord(w, native, own, g, recs[0]), recs[1..]);
      i := k + 1;
    }
  }

  lemma NamesOf(p: Payload, native: string, own: Ownership, parentDir: string, turns: seq<Turn>)
    requires own.Owned? && own.meta == Select(p) && own.isSubagent == Subagent(p)
    requires if Subagent(p) then ParentIs(p, native, own.parent) else own.parent == Null
    ensures NamesTold(p, native, parentDir, OwnedSession(native, own, parentDir, turns))
  {
    hide ParentIs, Subagent, Chosen, Or, Select;
    SelectedGets(p);
    var a, b, c, d := Get(p, "agent_nickname"), Get(p, "agent_path"), Get(p, "id"), Get(p, "session_id");
    OrChosen(b, c, d, Str(native));
    OrStep(a, [b, c, d, Str(native)], Or(b, Or(c, Or(d, Str(native)))));
    assert [a] + [b, c, d, Str(native)] == [a, b, c, d, Str(native)];
    OrChosen(Get(p, "cwd"), Str(parentDir), Null, Null);
  }

  /** The second pass over the session's own records. */
  lemma TurnsOfOwn(w: World, data: Bytes, native: string, own: Ownership, recs: seq<Numbered>)
    requires own.Owned? && ReadFrom(w, data, 0, 0, 0) == Ok(recs)
    ensures var mine, turns := OwnRecords(recs, own.boundary), Turns(w, native, own, OwnedRecords(w, data, own, 0, 0));
            && (turns.Ok? ==> exists at :: TurnsTold(w, native, own.isSubagent, own.meta, mine, turns.value, at))
            && (turns.Err? ==> exists i :: 0 <= i < |mine| && Raises(mine[i]))
  {
    hide TurnsTold;
    var mine := OwnRecords(recs, own.boundary);
    if own.boundary.Some? {
      RecordsAfter(w, TextSplit(Scan.From(data, 0)), 0, own.boundary.value);
    }
    assert recs[0..] == recs;
    assert OwnedRecords(w, data, own, 0, 0) == Ok(mine);
    if GroupRecords(w, native, own, EMPTY, mine).Ok? {
      var at := GroupTold(w, native, own, mine);
    } else {
      var i := WhereMalformed(w, native, own, EMPTY, mine);
    }
  }

  /**
   A full parse returns what is told of the file's records, or raises because a line is no record or one of the
   session's own records is malformed.
   */
  lemma FullParseTold(w: World, file: Staged)
    ensures var read, native := ReadFrom(w, file.data, 0, 0, 0), w.sessionOf(file.name);
            var parsed := FullParse(w, file);
            && (read.Err? ==> parsed.Err?)
            && (read.Ok? && parsed.Ok? ==> ParseTold(w, read.value, native, file.parent, parsed.value))
            && (read.Ok? && parsed.Err? ==> BadRecord(w, read.value, native))
            && (read.Ok? ==> forall k :: 0 <= k < |read.value| ==> read.value[k].0 == k + 1)
  {
    hide TurnsTold, StartsAfter, Speaks, Orphaned, NamesTold, ParentIs, Subagent, Select, Turns, OwnRecords,
         OwnedRecords, Decide, ScanRecords;
    var read, native := ReadFrom(w, file.data, 0, 0, 0), w.sessionOf(file.name);
    if read.Ok? {
      var recs := read.value;
      RecordsNumbered(w, TextSplit(Scan.From(file.data, 0)), 0, 0);
      DecideTold(w, recs, native);
      var own := Decide(w, native, ScanRecords(NOTHING, recs));
      if Orphaned(recs, native) {
        var i: nat :| FirstMeta(recs, i) && OrphanTold(recs[i].1.payload, own);
        OrChosen(Get(recs[i].1.payload, "cwd"), Str(file.parent), Null, Null);
      } else {
        var p :| Speaks(recs, native, p) && OwnedTold(w, recs, native, p, own);
        TurnsOfOwn(w, file.data, native, own, recs);
        if FullParse(w, file).Ok? {
          NamesOf(p, native, own, file.parent, FullParse(w, file).value.turns);
        }
      }
    }
  }
}
