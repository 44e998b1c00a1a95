/**
 The exact condition for incremental parsing. The parser numbers text-mode lines, which a bare CR ends; the search
 for a turn's offset counts LF. On a file without a bare CR parse_incremental is a full parse (Incremental); on
 every file with one there are records for which it raises, or loses a turn when it resumes.
 */
module BareCR {
  import opened Common
  import opened Scan
  import opened Lines
  import opened Codex
  import opened Revisions
  import opened Normalize
  import opened GroupingFacts
  import opened Incremental

  /** The result agrees with that of a full parse. */
  predicate Agrees(r: Result<Increment>, full: Result<SessionRevision>) {
    if r.Ok? then full == Ok(r.value.session) else full.Err?
  }

  /** Parsing a file, and parsing it again from the checkpoint this leaves, both agree with a full parse. */
  predicate ParsesTwice(w: World, file: Staged, fallback: Option<string>) {
    var full, first := FullSession(w, file, fallback), Incremented(w, file, None, fallback);
    Agrees(first, full) && (first.Ok? ==> Agrees(Incremented(w, file, first.value.next, fallback), full))
  }

  // ---- worlds in which some lines are user messages and all others are no evidence ----

  const USER := Response(Null, UserMessage("u", None))

  function MarkRecord(user: Bytes -> bool, line: Bytes): Record {
    if user(line) then USER else Other
  }

  function MarkWorld(user: Bytes -> bool): World {
    World((line: Bytes) => Some(MarkRecord(user, line)), (text: string) => false,
          (text: string) => Classified(text, "user", []), (text: string) => text, (v: Json) => Some(""),
          (v: Json) => None, (v: Json) => "", (name: string) => "s")
  }

  const PLAIN := Owned(map[], Some(0), false, Null, false)

  function UserTurn(line: nat): Turn {
    Turn(Null, [Block("user_text", "u", Some(Null), Some("user"))], line, line, "user", None)
  }

  /** One turn per user line, numbered from n + 1. */
  function UserTurns(user: Bytes -> bool, lines: seq<Bytes>, n: nat): seq<Turn> {
    if lines == [] then []
    else UserTurns(user, lines[..|lines| - 1], n)
         + if user(lines[|lines| - 1]) then [UserTurn(n + |lines|)] else []
  }

  lemma {:induction false} UserTurnsConcat(user: Bytes -> bool, a: seq<Bytes>, b: seq<Bytes>, n: nat)
    ensures UserTurns(user, a + b, n) == UserTurns(user, a, n) + UserTurns(user, b, n + |a|)
    decreases |b|
  {
    if b == [] {
      assert a + b == a;
    } else {
      assert (a + b)[..|a + b| - 1] == a + b[..|b| - 1];
      UserTurnsConcat(user, a, b[..|b| - 1], n);
    }
  }

  lemma {:induction false} NoUserTurns(user: Bytes -> bool, lines: seq<Bytes>, n: nat)
    requires forall i :: 0 <= i < |lines| ==> !user(lines[i])
    ensures UserTurns(user, lines, n) == []
  {
    if lines != [] {
      NoUserTurns(user, lines[..|lines| - 1], n);
    }
  }

  lemma OneUserTurn(user: Bytes -> bool, line: Bytes, n: nat)
    requires user(line)
    ensures UserTurns(user, [line], n) == [UserTurn(n + 1)]
  {
    assert [line][..0] == [];
  }

  /** Sample turns on ascending lines after n, up to m. */
  predicate Ascending(turns: seq<Turn>, n: nat, m: nat) {
    && (forall i :: 0 <= i < |turns| ==> turns[i] == UserTurn(turns[i].start) && n < turns[i].start <= m)
    && (forall i, j :: 0 <= i < j < |turns| ==> turns[i].start < turns[j].start)
  }

  lemma {:induction false} UserTurnsAscend(user: Bytes -> bool, lines: seq<Bytes>, n: nat)
    ensures Ascending(UserTurns(user, lines, n), n, n + |lines|)
  {
    if lines != [] {
      UserTurnsAscend(user, lines[..|lines| - 1], n);
    }
  }

  /** Both passes over lines in a marked world: no metadata, and a turn for every user line. */
  lemma {:induction false} MarkTurns(user: Bytes -> bool, lines: seq<Bytes>, n: nat)
    ensures Records(MarkWorld(user), lines, n, 0).Ok?
    ensures ScanRecords(NOTHING, Records(MarkWorld(user), lines, n, 0).value) == NOTHING
    ensures Turns(MarkWorld(user), "s", PLAIN, Records(MarkWorld(user), lines, n, 0)) == Ok(UserTurns(user, lines, n))
    decreases |lines|
  {
    var w := MarkWorld(user);
    if lines != [] {
      var front, last := lines[..|lines| - 1], lines[|lines| - 1];
      MarkTurns(user, front, n);
      assert lines == front + [last];
      RecordsConcat(w, front, [last], n, 0);
      var rec: Numbered := (n + |lines|, MarkRecord(user, last));
      MarkLine(user, last, n + |front|);
      var recs := Records(w, front, n, 0).value;
      ScanConcat(NOTHING, recs, [rec]);
      GroupConcat(w, "s", PLAIN, EMPTY, recs, [rec]);
      var g := GroupRecords(w, "s", PLAIN, EMPTY, recs).value;
      GroupOne(w, "s", PLAIN, g, rec);
      MarkGroup(user, g, rec);
    }
  }

  lemma MarkLine(user: Bytes -> bool, line: Bytes, n: nat)
    ensures Records(MarkWorld(user), [line], n, 0) == Ok([(n + 1, MarkRecord(user, line))])
    ensures ScanRecords(NOTHING, [(n + 1, MarkRecord(user, line))]) == NOTHING
  {
    var w, rec: Numbered := MarkWorld(user), (n + 1, MarkRecord(user, line));
    assert [line][0] == line && [line][1..] == [];
    assert w.decode(line) == Some(MarkRecord(user, line));
    assert Records(w, [], n + 1, 0) == Ok([]);
    assert [rec] + [] == [rec] && [rec][1..] == [];
  }

  lemma MarkGroup(user: Bytes -> bool, g: Grouping, rec: Numbered)
    requires rec.1 == USER || rec.1 == Other
    ensures Closed(GroupRecord(MarkWorld(user), "s", PLAIN, g, rec)) ==
            Closed(g) + if rec.1 == USER then [UserTurn(rec.0)] else []
  {
    var w := MarkWorld(user);
    assert !w.isControl("u") && w.classify("u") == Classified("u", "user", []);
    if rec.1 == USER {
      var block := [Block("user_text", "u", Some(Null), Some("user"))];
      assert block + [] == block;
      assert Opened(w, "s", PLAIN, g.current.Some?, rec) == Some(UserTurn(rec.0));
    } else {
      assert Added(rec) == [];
    }
  }

  lemma DecimalInjective(a: nat, b: nat)
    requires Decimal(a) == Decimal(b)
    ensures a == b
  {
    DecimalReads(a);
    DecimalReads(b);
  }

  function UserEvent(line: nat): Event {
    Event(Decimal(line) + ":" + Decimal(0), "user", "u", "", "user", "user_text")
  }

  function EventsOf(turns: seq<Turn>): seq<Event> {
    seq(|turns|, i requires 0 <= i < |turns| => UserEvent(turns[i].start))
  }

  lemma {:induction false} UserEvents(user: Bytes -> bool, turns: seq<Turn>)
    requires forall i :: 0 <= i < |turns| ==> turns[i] == UserTurn(turns[i].start)
    ensures SessionEvents(MarkWorld(user), turns) == Ok(EventsOf(turns))
  {
    if turns != [] {
      var w, last := MarkWorld(user), turns[|turns| - 1];
      UserEvents(user, turns[..|turns| - 1]);
      assert EventsOf(turns) == EventsOf(turns[..|turns| - 1]) + [UserEvent(last.start)];
      assert BlockEvent(w, last, 0) == Ok([UserEvent(last.start)]);
      assert TurnEvents(w, last, 1) == Ok([UserEvent(last.start)]) by {
        assert TurnEvents(w, last, 0) == Ok([]) && [] + [UserEvent(last.start)] == [UserEvent(last.start)];
      }
    }
  }

  lemma UserEventsUnique(turns: seq<Turn>)
    requires forall i, j :: 0 <= i < j < |turns| ==> turns[i].start < turns[j].start
    ensures UniqueIds(EventsOf(turns))
  {
    forall i, j | 0 <= i < j < |turns| ensures UserEvent(turns[i].start).id != UserEvent(turns[j].start).id {
      var a, b := Decimal(turns[i].start), Decimal(turns[j].start);
      if UserEvent(turns[i].start).id == UserEvent(turns[j].start).id {
        assert a + ":" + Decimal(0) == b + ":" + Decimal(0);
        assert |a| == |b| && a == (a + ":" + Decimal(0))[..|a|] && b == (b + ":" + Decimal(0))[..|b|];
        DecimalInjective(turns[i].start, turns[j].start);
      }
    }
  }

  lemma MarkNormalized(user: Bytes -> bool, parentDir: string, turns: seq<Turn>, n: nat, m: nat,
                       fallback: Option<string>)
    requires Ascending(turns, n, m)
    ensures var r := Normalized(MarkWorld(user),
                       WithFallback(OwnedSession("s", PLAIN, parentDir, turns), parentDir, fallback));
            r.Ok? && r.value.events == EventsOf(turns)
  {
    UserEvents(user, turns);
    UserEventsUnique(turns);
    var parsed := WithFallback(OwnedSession("s", PLAIN, parentDir, turns), parentDir, fallback);
    assert parsed.project.Str? && parsed.slug == Str("s") && parsed.parent == Null && parsed.native == "s";
  }

  /** A full parse in a marked world: no metadata, a plain owner, a turn for every user line. */
  lemma MarkFull(user: Bytes -> bool, file: Staged, fallback: Option<string>)
    ensures var w, turns := MarkWorld(user), UserTurns(user, TextSplit(file.data), 0);
            && ReadFrom(w, file.data, 0, 0, 0).Ok? && Metas(w, file.data) == NOTHING
            && Owner(w, file.name, file.data) == PLAIN && AllTurns(w, file.name, file.data) == Ok(turns)
            && FullParse(w, file) == Ok(OwnedSession("s", PLAIN, file.parent, turns))
            && FullSession(w, file, fallback).Ok? && FullSession(w, file, fallback).value.events == EventsOf(turns)
  {
    hide Normalized, TextSplit, UserTurns, EventsOf, Ascending, OwnedSession, WithFallback;
    assert From(file.data, 0) == file.data;
    var lines := TextSplit(file.data);
    MarkTurns(user, lines, 0);
    UserTurnsAscend(user, lines, 0);
    MarkNormalized(user, file.parent, UserTurns(user, lines, 0), 0, |lines|, fallback);
  }

  /** The stored account of a file with turns in a marked world. */
  predicate MarkStored(user: Bytes -> bool, file: Staged, cp: Checkpoint) {
    var turns := UserTurns(user, TextSplit(file.data), 0);
    && Formed(cp) && cp.sha256 == Sha256(file.data) && cp.filename == file.name
    && cp.metadata == [] && cp.ownership == PLAIN
    && turns != [] && cp.turnLine == Last(turns).start && cp.completed == EventsOf(AllButLast(turns))
  }

  /** parse_incremental without a checkpoint in a marked world. */
  lemma MarkFirst(user: Bytes -> bool, file: Staged, fallback: Option<string>)
    requires Complete(file.data)
    ensures var w, turns := MarkWorld(user), UserTurns(user, TextSplit(file.data), 0);
            var r := Incremented(w, file, None, fallback);
            && (Overshoots(w, file) <==> turns != [] && OutsideFile(file.data, Last(turns).start, 0, 1))
            && (r.Err? <==> Overshoots(w, file))
            && (r.Ok? ==> FullSession(w, file, fallback) == Ok(r.value.session))
            && (r.Ok? ==> (r.value.next.Some? <==> turns != []))
            && (r.Ok? && turns != [] ==> MarkStored(user, file, r.value.next.value))
  {
    var w, turns := MarkWorld(user), UserTurns(user, TextSplit(file.data), 0);
    hide MarkWorld, UserTurns, TextSplit, Formed, Incremented, FullSession, SessionEvents, EventsOf, ReadFrom, AllTurns,
         Ascending, Complete;
    MarkFull(user, file, fallback);
    IncrementIsFull(w, file, None, fallback);
    if turns != [] {
      UserTurnsAscend(user, TextSplit(file.data), 0);
      AscendingPart(turns, |TextSplit(file.data)|);
      UserEvents(user, AllButLast(turns));
    }
  }

  lemma AscendingPart(turns: seq<Turn>, m: nat)
    requires turns != [] && Ascending(turns, 0, m)
    ensures Ascending(AllButLast(turns), 0, m)
  {
  }

  /** The turns that a parse resumed at the checkpoint finds for itself. */
  function TailTurns(user: Bytes -> bool, file: Staged, cp: Checkpoint): seq<Turn>
    requires cp.turnLine > 0
  {
    UserTurns(user, TextSplit(From(file.data, cp.turnOffset)), cp.turnLine - 1)
  }

  lemma MarkRun(user: Bytes -> bool, file: Staged, cp: Checkpoint)
    requires Formed(cp) && Extends(file, cp) && cp.metadata == [] && cp.ownership == PLAIN
    ensures Run(MarkWorld(user), file, Some(cp)) ==
            Ok((OwnedSession("s", PLAIN, file.parent, TailTurns(user, file, cp)), Trace([], Some(PLAIN), true)))
  {
    hide TextSplit, UserTurns, Records, Turns;
    var w := MarkWorld(user);
    MarkTurns(user, TextSplit(From(file.data, cp.size)), cp.lines);
    MarkTurns(user, TextSplit(From(file.data, cp.turnOffset)), cp.turnLine - 1);
    var tail := ReadFrom(w, file.data, cp.size, cp.lines, 0);
    assert [] + tail.value == tail.value;
  }

  lemma MarkFinish(user: Bytes -> bool, file: Staged, cp: Checkpoint, turns: seq<Turn>, n: nat, m: nat,
                   fallback: Option<string>)
    requires Ascending(turns, n, m) && UniqueIds(cp.completed + EventsOf(turns))
    ensures var r := Finish(MarkWorld(user), file, Some(cp),
                       (OwnedSession("s", PLAIN, file.parent, turns), Trace([], Some(PLAIN), true)), fallback);
            && r.Ok? && r.value.session.events == cp.completed + EventsOf(turns)
            && r.value.parsed == WithFallback(OwnedSession("s", PLAIN, file.parent, turns), file.parent, fallback)
            && r.value.trace.ownership.Some?
  {
    hide Normalized;
    MarkNormalized(user, file.parent, turns, n, m, fallback);
  }

  lemma MarkNext(user: Bytes -> bool, file: Staged, p: Parse, turns: seq<Turn>, n: nat, m: nat,
                 fallback: Option<string>)
    requires Complete(file.data) && Ascending(turns, n, m) && p.trace.ownership.Some?
    requires p.parsed == WithFallback(OwnedSession("s", PLAIN, file.parent, turns), file.parent, fallback)
    ensures NextOf(MarkWorld(user), file, p).Err? <==> turns != [] && OutsideFile(file.data, Last(turns).start, 0, 1)
  {
    hide Normalized;
    if turns != [] {
      MarkNormalized(user, file.parent, [Last(turns)], n, m, fallback);
      var whole := OwnedSession("s", PLAIN, file.parent, turns);
      assert p.parsed.(turns := [Last(turns)]) ==
             WithFallback(whole.(turns := [Last(turns)]), file.parent, fallback);
    }
  }

  /** Resuming in a marked world: the stored events, then those of the user lines from the offset on. */
  lemma MarkAgain(user: Bytes -> bool, prior: Staged, file: Staged, cp: Checkpoint, fallback: Option<string>)
    requires MarkStored(user, prior, cp) && prior.data <= file.data && prior.name == file.name && Complete(file.data)
    requires UniqueIds(cp.completed + EventsOf(TailTurns(user, file, cp)))
    ensures var turns := TailTurns(user, file, cp);
            var r := Incremented(MarkWorld(user), file, Some(cp), fallback);
            && (r.Err? <==> turns != [] && OutsideFile(file.data, Last(turns).start, 0, 1))
            && (r.Ok? ==> r.value.session.events == cp.completed + EventsOf(turns))
  {
    hide TextSplit, UserTurns, MarkWorld, Run, Finish, EventsOf, NextOf, Ascending, UniqueIds;
    var lines, turns := TextSplit(From(file.data, cp.turnOffset)), TailTurns(user, file, cp);
    UserTurnsAscend(user, lines, cp.turnLine - 1);
    MarkRun(user, file, cp);
    MarkFinish(user, file, cp, turns, cp.turnLine - 1, cp.turnLine - 1 + |lines|, fallback);
    var p := Parsing(MarkWorld(user), file, Some(cp), fallback);
    MarkNext(user, file, p.value, turns, cp.turnLine - 1, cp.turnLine - 1 + |lines|, fallback);
  }

  /** When no user line is left after the offset, only the stored events remain. */
  lemma MarkLost(user: Bytes -> bool, prior: Staged, file: Staged, cp: Checkpoint, fallback: Option<string>)
    requires MarkStored(user, prior, cp) && prior.data <= file.data && prior.name == file.name && Complete(file.data)
    requires TailTurns(user, file, cp) == []
    ensures var r := Incremented(MarkWorld(user), file, Some(cp), fallback);
            r.Ok? && r.value.session.events == cp.completed
  {
    hide TextSplit, UserTurns, MarkWorld, Incremented, TailTurns;
    var turns := UserTurns(user, TextSplit(prior.data), 0);
    UserTurnsAscend(user, TextSplit(prior.data), 0);
    UserEventsUnique(AllButLast(turns));
    assert cp.completed + EventsOf([]) == cp.completed;
    MarkAgain(user, prior, file, cp, fallback);
  }

  // ---- every file with a bare CR ----

  /**
   In the world where every line is a user message, the last turn of a file with a bare CR starts past its newlines.
   Either the search for its offset raises, or it ends at the end of the file.
   */
  lemma LastLineOfAll(data: Bytes) returns (t: nat)
    requires Complete(data) && !NoBareCR(data)
    ensures var turns := UserTurns(Always, TextSplit(data), 0); turns != [] && Last(turns).start == t
    ensures t == |TextSplit(data)| && t > CountLF(data) && LineStart(data, CountLF(data), |data|)
  {
    t := |TextSplit(data)|;
    TextAtLeastCount(data);
    TextLinesAreLFLines(data);
    assert data[..|data|] == data;
  }

  predicate Always(line: Bytes) {
    true
  }

  /**
   Every file with a bare CR fails for some records: without a checkpoint parse_incremental raises on a session that a
   full parse accepts, or else parsing the very same file again from its own checkpoint drops exactly the events
   of the last turn.
   */
  lemma BareCRFails(file: Staged, fallback: Option<string>) returns (w: World)
    requires Complete(file.data) && !NoBareCR(file.data)
    ensures var full, first := FullSession(w, file, fallback), Incremented(w, file, None, fallback);
            && FullParse(w, file).Ok? && FullParse(w, file).value.turns != [] && full.Ok? && full.value.events != []
            && (first.Err? <==> OutsideFile(file.data, Last(FullParse(w, file).value.turns).start, 0, 1))
            && (first.Ok? ==>
                  && first.value.session == full.value && first.value.next.Some?
                  && var again := Incremented(w, file, first.value.next, fallback);
                  again.Ok? && again.value.session.events == AllButLast(full.value.events))
    ensures !ParsesTwice(w, file, fallback)
  {
    w := MarkWorld(Always);
    hide MarkWorld, UserTurns, TextSplit, CountLF, Incremented, FullSession, NoBareCR;
    var turns := UserTurns(Always, TextSplit(file.data), 0);
    var t := LastLineOfAll(file.data);
    MarkFull(Always, file, fallback);
    MarkFirst(Always, file, fallback);
    var first := Incremented(w, file, None, fallback);
    if first.Ok? {
      var cp := first.value.next.value;
      assert From(file.data, 0) == file.data;
      LineStartUnique(file.data, t - 1, cp.turnOffset, |file.data|);
      EmptyTail(file.data, t - 1);
      MarkLost(Always, file, file, cp, fallback);
      assert EventsOf(AllButLast(turns)) == AllButLast(EventsOf(turns));
    }
  }

  lemma EmptyTail(data: Bytes, n: nat)
    ensures UserTurns(Always, TextSplit(From(data, |data|)), n) == []
  {
  }

  /**
   The exact condition: parse_incremental and its own checkpoint agree with a full parse on every content of
   records if and only if the file has no bare CR.
   */
  lemma ExactCondition(file: Staged, fallback: Option<string>)
    requires Complete(file.data)
    ensures NoBareCR(file.data) <==> forall w :: ParsesTwice(w, file, fallback)
  {
    hide Incremented, FullSession, NoBareCR, Complete, Accounts, Formed;
    if NoBareCR(file.data) {
      forall w ensures ParsesTwice(w, file, fallback) {
        NoOvershoot(w, file);
        IncrementIsFull(w, file, None, fallback);
        var first := Incremented(w, file, None, fallback);
        if first.Ok? {
          IncrementIsFull(w, file, first.value.next, fallback);
        }
      }
    } else {
      var w := BareCRFails(file, fallback);
    }
  }

  // ---- two small files ----

  predicate StartsWithTwo(line: Bytes) {
    line != [] && line[0] == 2
  }

  const HEAD: Bytes := [1, CR]
  const TURN: Bytes := [2, LF]
  const IDLE: Bytes := [1, LF]

  /** The first line of data is the piece up to and including its line break. */
  lemma SampleLine(piece: Bytes, rest: Bytes)
    requires |piece| == 2 && piece[0] != LF && piece[0] != CR
    requires piece[1] == LF || (piece[1] == CR && (rest == [] || rest[0] != LF))
    ensures TextSplit(piece + rest) == [piece] + TextSplit(rest)
  {
    var data := piece + rest;
    assert data[1..] == [piece[1]] + rest && data[..2] == piece && data[2..] == rest;
    assert TextEnd(data) == 2;
  }

  lemma SampleSplits()
    ensures TextSplit(HEAD + (HEAD + TURN)) == [HEAD, HEAD, TURN]
    ensures TextSplit(HEAD + (TURN + IDLE)) == [HEAD, TURN, IDLE]
    ensures TextSplit(HEAD + (TURN + (IDLE + TURN))) == [HEAD, TURN, IDLE, TURN]
    ensures TextSplit(IDLE + TURN) == [IDLE, TURN]
  {
    SampleLine(TURN, []);
    SampleLine(IDLE, []);
    assert TURN + [] == TURN && IDLE + [] == IDLE;
    SampleLine(HEAD, TURN);
    SampleLine(HEAD, HEAD + TURN);
    SampleLine(IDLE, TURN);
    SampleLine(TURN, IDLE);
    SampleLine(TURN, IDLE + TURN);
    SampleLine(HEAD, TURN + IDLE);
    SampleLine(HEAD, TURN + (IDLE + TURN));
  }

  lemma SampleUserTurns()
    ensures UserTurns(StartsWithTwo, [HEAD, HEAD, TURN], 0) == [UserTurn(3)]
    ensures UserTurns(StartsWithTwo, [HEAD, TURN, IDLE], 0) == [UserTurn(2)]
    ensures UserTurns(StartsWithTwo, [HEAD, TURN, IDLE, TURN], 0) == [UserTurn(2), UserTurn(4)]
    ensures UserTurns(StartsWithTwo, [IDLE, TURN], 1) == [UserTurn(3)]
  {
    var user := StartsWithTwo;
    forall n: nat
      ensures UserTurns(user, [HEAD], n) == [] && UserTurns(user, [IDLE], n) == []
      ensures UserTurns(user, [TURN], n) == [UserTurn(n + 1)]
    {
      NoUserTurns(user, [HEAD], n);
      NoUserTurns(user, [IDLE], n);
      OneUserTurn(user, TURN, n);
    }
    UserTurnsConcat(user, [HEAD], [TURN], 0);
    UserTurnsConcat(user, [HEAD], [HEAD, TURN], 0);
    UserTurnsConcat(user, [HEAD], [TURN], 1);
    UserTurnsConcat(user, [HEAD, TURN], [IDLE], 0);
    UserTurnsConcat(user, [HEAD, TURN, IDLE], [TURN], 0);
    UserTurnsConcat(user, [IDLE], [TURN], 1);
    assert [HEAD] + [TURN] == [HEAD, TURN] && [HEAD] + [HEAD, TURN] == [HEAD, HEAD, TURN];
    assert [HEAD, TURN] + [IDLE] == [HEAD, TURN, IDLE] && [HEAD, TURN, IDLE] + [TURN] == [HEAD, TURN, IDLE, TURN];
    assert [IDLE] + [TURN] == [IDLE, TURN];
  }

  lemma SampleCounts()
    ensures CountLF(HEAD) == 0 && CountLF(TURN) == 1 && CountLF(IDLE) == 1
  {
    CountZero(HEAD);
    assert TURN == [2] + [LF] && IDLE == [1] + [LF] && CountLF([2]) == 0 && CountLF([1]) == 0 && CountLF([LF]) == 1 by {
      CountZero([2]);
      CountZero([1]);
      assert [LF][..0] == [];
    }
    CountConcat([2], [LF]);
    CountConcat([1], [LF]);
  }

  /** A file that a full parse accepts and parse_incremental rejects without any checkpoint. */
  lemma BareCRRaises() returns (file: Staged, w: World)
    ensures file.data == [1, CR, 1, CR, 2, LF] && Complete(file.data)
    ensures FullParse(w, file).Ok? && FullParse(w, file).value.turns == [UserTurn(3)]
    ensures FullSession(w, file, None).Ok? && FullSession(w, file, None).value.events == [UserEvent(3)]
    ensures OutsideFile(file.data, 3, 0, 1)
    ensures Incremented(w, file, None, None) == Err
  {
    hide MarkWorld, UserTurns, TextSplit, Incremented, FullSession, Overshoots, Decimal, Metas, ReadFrom, Owner,
         AllTurns;
    file, w := Staged("f", "/", HEAD + (HEAD + TURN)), MarkWorld(StartsWithTwo);
    SampleSplits();
    SampleUserTurns();
    SampleCounts();
    CountConcat(HEAD, TURN);
    CountConcat(HEAD, HEAD + TURN);
    assert From(file.data, 0) == file.data;
    assert EventsOf([UserTurn(3)]) == [UserEvent(3)];
    MarkFull(StartsWithTwo, file, None);
    MarkFirst(StartsWithTwo, file, None);
  }

  /**
   A file and an extension of it. The offset that LF counting finds for the open turn lies past the turn, so
   the resumed parse loses that turn and misnumbers the next, although name, prefix and ownership all match.
   */
  lemma BareCRLosesATurn() returns (before: Staged, after: Staged, w: World)
    ensures !NoBareCR(after.data) && Complete(before.data) && Complete(after.data)
    ensures before.data <= after.data && before.name == after.name
    ensures ReadFrom(w, before.data, 0, 0, 0).Ok? && ReadFrom(w, after.data, 0, 0, 0).Ok?
    ensures Owner(w, "f", before.data) == PLAIN && Owner(w, "f", after.data) == PLAIN
    ensures FullSession(w, after, None).Ok? && FullSession(w, after, None).value.events == [UserEvent(2), UserEvent(4)]
    ensures var first := Incremented(w, before, None, None);
            && first.Ok? && FullSession(w, before, None) == Ok(first.value.session) && first.value.next.Some?
            && var second := Incremented(w, after, first.value.next, None);
            second.Ok? && second.value.session.events == [UserEvent(3)]
  {
    hide MarkWorld, UserTurns, TextSplit, CountLF, Incremented, FullSession, FullParse, Overshoots, Decimal, Metas,
         ReadFrom, Owner, AllTurns;
    var user := StartsWithTwo;
    w := MarkWorld(user);
    before, after := Staged("f", "/", HEAD + (TURN + IDLE)), Staged("f", "/", HEAD + (TURN + (IDLE + TURN)));
    assert after.data == before.data + TURN && From(after.data, 4) == IDLE + TURN;
    SampleSplits();
    SampleUserTurns();
    MarkFull(user, before, None);
    MarkFull(user, after, None);
    SamplePositions(before.data, after.data);
    MarkFirst(user, before, None);
    var cp := Incremented(w, before, None, None).value.next.value;
    LineStartUnique(before.data, 1, cp.turnOffset, 4);
    assert cp.completed == [] && EventsOf([UserTurn(3)]) == [UserEvent(3)];
    assert EventsOf([UserTurn(2), UserTurn(4)]) == [UserEvent(2), UserEvent(4)];
    assert cp.completed + [UserEvent(3)] == [UserEvent(3)];
    MarkAgain(user, before, after, cp, None);
  }

  lemma SamplePositions(before: Bytes, after: Bytes)
    requires before == HEAD + (TURN + IDLE) && after == HEAD + (TURN + (IDLE + TURN))
    ensures LineStart(before, 1, 4) && CountLF(before) == 2 && CountLF(after) == 3
    ensures From(before, 0) == before && From(after, 0) == after && !NoBareCR(after)
  {
    SampleCounts();
    assert after[1] == CR && after[2] == 2;
    assert before[..4] == HEAD + TURN;
    CountConcat(HEAD, TURN);
    CountConcat(TURN, IDLE);
    CountConcat(HEAD, TURN + IDLE);
    CountConcat(IDLE, TURN);
    CountConcat(TURN, IDLE + TURN);
    CountConcat(HEAD, TURN + (IDLE + TURN));
  }
}
