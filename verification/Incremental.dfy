/** parse_incremental: reuse a verified prefix and parse only the tail, with the result of a full parse. */
module Incremental {
  import opened Common
  import opened Scan
  import opened Lines
  import opened Codex
  import opened Revisions
  import opened Normalize
  import opened GroupingFacts
  import opened Account

  datatype Checkpoint = Checkpoint(
    filename: string,
    size: nat,
    sha256: Sha256,
    lines: nat,
    metadata: seq<Numbered>,
    ownership: Ownership,
    turnOffset: nat,
    turnLine: nat,
    completed: seq<Event>)

  function WithFallback(parsed: Parsed, parentDir: string, fallback: Option<string>): Parsed {
    if fallback.Some? && parsed.project == Str(parentDir) then parsed.(project := Str(fallback.value)) else parsed
  }

  /** The reference: a full two-pass parse, normalized. */
  function FullSession(w: World, file: Staged, fallback: Option<string>): Result<SessionRevision> {
    var parsed := FullParse(w, file);
    if parsed.Err? then Err else Normalized(w, WithFallback(parsed.value, file.parent, fallback))
  }

  /** A session states what is told of the file's records, lying where the caller says if nowhere else. */
  ghost predicate SessionTold(w: World, file: Staged, fallback: Option<string>, s: SessionRevision) {
    var read := ReadFrom(w, file.data, 0, 0, 0);
    read.Ok? && exists parsed :: ParseTold(w, read.value, w.sessionOf(file.name), file.parent, parsed)
                  && SessionStated(w, Placed(parsed, file.parent, fallback), s)
  }

  /** A line is no record, one of the session's own records is malformed, or what is told cannot be stated. */
  ghost predicate SessionRefused(w: World, file: Staged, fallback: Option<string>) {
    var read := ReadFrom(w, file.data, 0, 0, 0);
    read.Ok? ==>
      || BadRecord(w, read.value, w.sessionOf(file.name))
      || exists parsed :: ParseTold(w, read.value, w.sessionOf(file.name), file.parent, parsed)
                          && Unstatable(w, Placed(parsed, file.parent, fallback))
  }

  function Placed(parsed: Parsed, parentDir: string, fallback: Option<string>): Parsed {
    match fallback
    case None => parsed
    case Some(dir) => parsed.(project := if parsed.project == Str(parentDir) then Str(dir) else parsed.project)
  }

  /** A full parse gives the session told of the records, or is refused for a reason told of them. */
  lemma FullSessionTold(w: World, file: Staged, fallback: Option<string>)
    ensures var s := FullSession(w, file, fallback);
            if s.Ok? then SessionTold(w, file, fallback, s.value) else SessionRefused(w, file, fallback)
  {
    hide ParseTold, BadRecord, SessionStated, Unstatable, FullParse, ReadFrom, Normalized;
    FullParseTold(w, file);
    var parsed := FullParse(w, file);
    if parsed.Ok? {
      FullParseReads(w, file);
      NormalizedStates(w, WithFallback(parsed.value, file.parent, fallback));
      assert WithFallback(parsed.value, file.parent, fallback) == Placed(parsed.value, file.parent, fallback);
    }
  }

  lemma FullParseReads(w: World, file: Staged)
    ensures FullParse(w, file).Ok? ==> ReadFrom(w, file.data, 0, 0, 0).Ok?
  {
  }

  function Metas(w: World, data: Bytes): Metadata
    requires ReadFrom(w, data, 0, 0, 0).Ok?
  {
    ScanRecords(NOTHING, ReadFrom(w, data, 0, 0, 0).value)
  }

  function Owner(w: World, name: string, data: Bytes): Ownership
    requires ReadFrom(w, data, 0, 0, 0).Ok?
  {
    Decide(w, w.sessionOf(name), Metas(w, data))
  }

  function AllTurns(w: World, name: string, data: Bytes): Result<seq<Turn>>
    requires ReadFrom(w, data, 0, 0, 0).Ok? && Owner(w, name, data).Owned?
  {
    var own := Owner(w, name, data);
    Turns(w, w.sessionOf(name), own, OwnedRecords(w, data, own, 0, 0))
  }

  function AllButLast<T>(s: seq<T>): seq<T>
    requires s != []
  {
    s[..|s| - 1]
  }

  function Last<T>(s: seq<T>): T
    requires s != []
  {
    s[|s| - 1]
  }

  /** The byte and line positions any parse leaves in a checkpoint; lines are counted by LF here. */
  predicate Formed(cp: Checkpoint) {
    var data := cp.sha256.content;
    && Complete(data) && cp.size == |data| && cp.lines == CountLF(data)
    && cp.turnLine > 0 && LineStart(data, cp.turnLine - 1, cp.turnOffset)
  }

  /** The records a checkpoint stands for are those of the file whose digest it carries. */
  predicate Accounts(w: World, cp: Checkpoint) {
    var data := cp.sha256.content;
    && ReadFrom(w, data, 0, 0, 0).Ok?
    && cp.metadata == Metas(w, data).kept
    && cp.ownership == Owner(w, cp.filename, data) && cp.ownership.Owned?
    && var turns := AllTurns(w, cp.filename, data);
    && turns.Ok? && turns.value != []
    && cp.turnLine == Last(turns.value).start
    && SessionEvents(w, AllButLast(turns.value)) == Ok(cp.completed)
  }

  /** A checkpoint is a true account of a file in which LF lines are the parser's lines. */
  predicate Describes(w: World, cp: Checkpoint) {
    Formed(cp) && NoBareCR(cp.sha256.content) && Accounts(w, cp)
  }

  /** The file begins with the bytes the checkpoint was made from, under the same name. */
  predicate Extends(file: Staged, cp: Checkpoint) {
    cp.filename == file.name && cp.sha256.content <= file.data
  }

  /** Reading the whole file is reading the prefix and then, with continued line numbers, the rest. */
  lemma ReadSplits(w: World, data: Bytes, n: nat, after: nat)
    requires n <= |data| && NoBareCR(data[..n]) && Complete(data[..n])
    ensures ReadFrom(w, data, 0, 0, after) ==
            Join(ReadFrom(w, data[..n], 0, 0, after), ReadFrom(w, data, n, CountLF(data[..n]), after))
  {
    LineStartSplits(data, CountLF(data[..n]), n);
    RecordsConcat(w, TextSplit(data[..n]), TextSplit(data[n..]), 0, after);
    assert data[0..] == data && data[..n][0..] == data[..n];
  }

  /** The first pass over compact metadata and the appended records sees what a pass over the whole file sees. */
  lemma ReplayedPass(w: World, cp: Checkpoint, file: Staged)
    requires Describes(w, cp) && Extends(file, cp)
    ensures var tail := ReadFrom(w, file.data, cp.size, cp.lines, 0);
            var all := ReadFrom(w, file.data, 0, 0, 0);
            all.Ok? <==> tail.Ok?
    ensures var tail := ReadFrom(w, file.data, cp.size, cp.lines, 0);
            tail.Ok? ==> ScanRecords(NOTHING, cp.metadata + tail.value) == Metas(w, file.data)
  {
    var data := cp.sha256.content;
    assert file.data[..cp.size] == data;
    ReadSplits(w, file.data, cp.size, 0);
    var tail := ReadFrom(w, file.data, cp.size, cp.lines, 0);
    if tail.Ok? {
      OwnershipReplay(ReadFrom(w, data, 0, 0, 0).value, tail.value);
    }
  }

  lemma TailBytes(prefix: Bytes, data: Bytes, n: nat)
    requires n <= |prefix| && prefix <= data
    ensures From(prefix, n) == prefix[n..] && From(data, |prefix|) == data[|prefix|..]
    ensures From(data, n) == prefix[n..] + data[|prefix|..]
  {
  }

  lemma TailComplete(prefix: Bytes, n: nat)
    requires n <= |prefix| && Complete(prefix)
    ensures Complete(prefix[n..])
  {
  }

  /** The records from a line start on: those of the prefix, then those appended. */
  lemma TailRecords(w: World, prefix: Bytes, data: Bytes, k: nat, n: nat, after: nat)
    requires LineStart(prefix, k, n) && Complete(prefix) && NoBareCR(prefix) && prefix <= data
    ensures ReadFrom(w, data, n, k, after) ==
            Join(ReadFrom(w, prefix, n, k, after), ReadFrom(w, data, |prefix|, CountLF(prefix), after))
  {
    hide Records, TextSplit, TextEnd, CountLF, Join, NoBareCR, From, Complete;
    TailBytes(prefix, data, n);
    TailComplete(prefix, n);
    TextSplitConcat(prefix[n..], data[|prefix|..]);
    TailLines(prefix, k, n);
    RecordsConcat(w, TextSplit(prefix[n..]), TextSplit(data[|prefix|..]), k, after);
  }

  lemma TailLines(prefix: Bytes, k: nat, n: nat)
    requires LineStart(prefix, k, n) && Complete(prefix) && NoBareCR(prefix)
    ensures k + |TextSplit(prefix[n..])| == CountLF(prefix)
  {
    NoBareCRBefore(prefix, k, n);
    LineStartSplits(prefix, k, n);
    TextLinesAreLFLines(prefix);
  }

  /** The records before a line start of the prefix, then those after it, as read from any extension. */
  lemma HeadRecords(w: World, prefix: Bytes, data: Bytes, k: nat, n: nat, after: nat)
    requires LineStart(prefix, k, n) && prefix <= data && NoBareCR(prefix)
    ensures ReadFrom(w, data, 0, 0, after) ==
            Join(ReadFrom(w, prefix[..n], 0, 0, after), ReadFrom(w, data, n, k, after))
  {
    assert data[..n] == prefix[..n];
    NoBareCRBefore(prefix, k, n);
    ReadSplits(w, data, n, after);
  }

  /**
   A file cut at a line start: `head` and `kept` are its owned records before and after, and its last turn
   is the one that opens at the cut.
   */
  predicate CutAtOpenTurn(w: World, native: string, own: Ownership, data: Bytes, k: nat, n: nat,
                          after: nat, head: seq<Numbered>, kept: seq<Numbered>) {
    && LineStart(data, k, n) && Complete(data) && NoBareCR(data)
    && own.Owned? && own.boundary == Some(after)
    && ReadFrom(w, data[..n], 0, 0, after) == Ok(head) && ReadFrom(w, data, n, k, after) == Ok(kept)
    && (forall i :: 0 <= i < |head + kept| ==> (head + kept)[i].0 == after + 1 + i)
    && GroupRecords(w, native, own, EMPTY, head + kept).Ok?
    && var open := GroupRecords(w, native, own, EMPTY, head + kept).value.current;
    && open.Some? && open.value.start == after + 1 + |head|
  }

  /** The described file is cut at its open turn by the checkpoint's turn line and offset. */
  lemma OpenTurn(w: World, cp: Checkpoint) returns (after: nat, head: seq<Numbered>, kept: seq<Numbered>, g: Grouping)
    requires Describes(w, cp)
    ensures CutAtOpenTurn(w, w.sessionOf(cp.filename), cp.ownership, cp.sha256.content, cp.turnLine - 1, cp.turnOffset,
                          after, head, kept)
    ensures GroupRecords(w, w.sessionOf(cp.filename), cp.ownership, EMPTY, head + kept) == Ok(g)
    ensures SessionEvents(w, g.turns) == Ok(cp.completed)
  {
    hide SessionEvents, GroupRecords, Records, TextSplit, CountLF;
    var own, data, native := cp.ownership, cp.sha256.content, w.sessionOf(cp.filename);
    after := SomeBoundary(w, cp.filename, data);
    HeadRecords(w, data, data, cp.turnLine - 1, cp.turnOffset, after);
    head := ReadFrom(w, data[..cp.turnOffset], 0, 0, after).value;
    kept := ReadFrom(w, data, cp.turnOffset, cp.turnLine - 1, after).value;
    g := OpenGrouping(w, cp.filename, data, after, head + kept);
    HeadLength(w, data, cp.turnLine - 1, cp.turnOffset, after);
  }

  lemma HeadLength(w: World, data: Bytes, k: nat, n: nat, after: nat)
    requires NoBareCR(data) && LineStart(data, k, n) && ReadFrom(w, data[..n], 0, 0, after).Ok?
    ensures |ReadFrom(w, data[..n], 0, 0, after).value| == Max(0, k - after)
  {
    NoBareCRBefore(data, k, n);
    LineStartSplits(data, k, n);
    assert From(data[..n], 0) == data[..n];
    RecordsNumbered(w, TextSplit(data[..n]), 0, after);
  }

  /** A file with turns has a boundary. */
  lemma SomeBoundary(w: World, name: string, data: Bytes) returns (after: nat)
    requires ReadFrom(w, data, 0, 0, 0).Ok? && Owner(w, name, data).Owned?
    requires AllTurns(w, name, data).Ok? && AllTurns(w, name, data).value != []
    ensures Owner(w, name, data).boundary == Some(after)
  {
    if Owner(w, name, data).boundary.None? {
      NoBoundaryNoTurns(w, name, data);
    }
    after := Owner(w, name, data).boundary.value;
  }

  lemma NoBoundaryNoTurns(w: World, name: string, data: Bytes)
    requires ReadFrom(w, data, 0, 0, 0).Ok? && Owner(w, name, data).Owned? && Owner(w, name, data).boundary.None?
    ensures AllTurns(w, name, data) == Ok([])
  {
    assert OwnedRecords(w, data, Owner(w, name, data), 0, 0) == Ok([]);
    assert GroupRecords(w, w.sessionOf(name), Owner(w, name, data), EMPTY, []) == Ok(EMPTY) && Closed(EMPTY) == [];
  }

  /** The last turn of a file with turns is the one left open when its records end. */
  lemma OpenGrouping(w: World, name: string, data: Bytes, after: nat, recs: seq<Numbered>) returns (g: Grouping)
    requires ReadFrom(w, data, 0, 0, 0).Ok? && Owner(w, name, data).Owned?
    requires AllTurns(w, name, data).Ok? && AllTurns(w, name, data).value != []
    requires Owner(w, name, data).boundary == Some(after) && ReadFrom(w, data, 0, 0, after) == Ok(recs)
    ensures GroupRecords(w, w.sessionOf(name), Owner(w, name, data), EMPTY, recs) == Ok(g)
    ensures g.current == Some(Last(AllTurns(w, name, data).value))
            && g.turns == AllButLast(AllTurns(w, name, data).value)
    ensures forall i :: 0 <= i < |recs| ==> recs[i].0 == after + 1 + i
    ensures |recs| == Max(0, |TextSplit(data)| - after)
    ensures after < g.current.value.start <= |TextSplit(data)|
  {
    hide Records, TextSplit, GroupRecords, ScanRecords, Decide, Opened;
    var own, native := Owner(w, name, data), w.sessionOf(name);
    g := GroupRecords(w, native, own, EMPTY, recs).value;
    ClosedMeansOpen(w, native, own, recs);
    assert AllButLast(Closed(g)) == g.turns;
    assert From(data, 0) == data;
    RecordsNumbered(w, TextSplit(data), 0, after);
    var k := LastOpener(w, native, own, recs, after);
  }

  /**
   Resuming is safe: grouping from the last turn's first line alone gives the turns of the whole file
   that the prefix had not completed.
   */
  lemma ResumedTurns(w: World, cp: Checkpoint, data: Bytes) returns (completed: seq<Turn>)
    requires Describes(w, cp) && cp.sha256.content <= data
    ensures SessionEvents(w, completed) == Ok(cp.completed)
    ensures ResumesTo(w, w.sessionOf(cp.filename), cp.ownership, data, cp.turnOffset, cp.turnLine - 1, completed)
  {
    hide CutAtOpenTurn, ResumesTo, SessionEvents, NoBareCR, LineStart, Complete, GroupRecords, ReadFrom, AllTurns;
    var after, head, kept, g := OpenTurn(w, cp);
    completed := g.turns;
    ResumedReads(w, w.sessionOf(cp.filename), cp.ownership, cp.sha256.content, data, cp.turnLine - 1, cp.turnOffset,
                 after, head, kept);
  }

  /** Reading from line k + 1 at byte n on, the turns found are the file's turns after `completed`. */
  predicate ResumesTo(w: World, native: string, own: Ownership, data: Bytes, n: nat, k: nat, completed: seq<Turn>)
    requires own.Owned?
  {
    var tail := Turns(w, native, own, OwnedRecords(w, data, own, n, k));
    && Turns(w, native, own, OwnedRecords(w, data, own, 0, 0)) == (if tail.Ok? then Ok(completed + tail.value) else Err)
    && (tail.Ok? ==> tail.value != [])
  }

  lemma ResumedReads(w: World, native: string, own: Ownership, prefix: Bytes, data: Bytes, k: nat, n: nat,
                     after: nat, head: seq<Numbered>, kept: seq<Numbered>)
    requires CutAtOpenTurn(w, native, own, prefix, k, n, after, head, kept) && prefix <= data
    ensures ResumesTo(w, native, own, data, n, k, GroupRecords(w, native, own, EMPTY, head + kept).value.turns)
  {
    HeadRecords(w, prefix, data, k, n, after);
    TailRecords(w, prefix, data, k, n, after);
    var more := ReadFrom(w, data, |prefix|, CountLF(prefix), after);
    if more.Ok? {
      ResumedGroups(w, native, own, head, kept, more.value, after);
    }
  }

  // ---- the next checkpoint ----

  /** Every turn starts on a text-mode line of the file, which is an LF line unless there is a bare CR. */
  lemma TurnOnLine(w: World, name: string, data: Bytes)
    requires Complete(data) && ReadFrom(w, data, 0, 0, 0).Ok? && Owner(w, name, data).Owned?
    requires AllTurns(w, name, data).Ok? && AllTurns(w, name, data).value != []
    ensures 0 < Last(AllTurns(w, name, data).value).start <= |TextSplit(data)|
    ensures NoBareCR(data) ==> |TextSplit(data)| == CountLF(data)
  {
    var after := SomeBoundary(w, name, data);
    var g := OpenGrouping(w, name, data, after, ReadFrom(w, data, 0, 0, after).value);
    TextLinesAreLFLines(data);
  }

  /** Dropping the last turn's events from the session's leaves the events of the completed turns. */
  lemma CompletedEvents(w: World, turns: seq<Turn>, events: seq<Event>)
    requires turns != [] && SessionEvents(w, turns) == Ok(events)
    ensures SessionEvents(w, [Last(turns)]).Ok?
    ensures var last := SessionEvents(w, [Last(turns)]).value;
            |last| <= |events| && SessionEvents(w, AllButLast(turns)) == Ok(events[..|events| - |last|])
            && last == events[|events| - |last|..]
  {
    hide SessionEvents;
    assert turns == AllButLast(turns) + [Last(turns)];
    SessionEventsConcat(w, AllButLast(turns), [Last(turns)]);
  }

  /** A line start found in the appended bytes is a line start of the whole file. */
  lemma LineStartAppended(data: Bytes, size: nat, k: nat, n: nat)
    requires size <= |data| && Complete(data[..size]) && LineStart(data[size..], k, n)
    ensures LineStart(data, CountLF(data[..size]) + k, size + n)
  {
    assert data[..size + n] == data[..size] + data[size..][..n];
    CountConcat(data[..size], data[size..][..n]);
    assert n > 0 ==> data[size + n - 1] == data[size..][n - 1];
    assert n == 0 && size > 0 ==> data[size - 1] == data[..size][size - 1];
  }

  /** Byte offset of the last turn's first line by LF counting; an error when the file has too few newlines. */
  method TurnOffset(file: Staged, cp: Option<Checkpoint>, resumed: bool, turnLine: nat, blockSize: nat)
    returns (r: Result<nat>)
    requires blockSize > 0
    requires resumed ==> cp.Some? && Formed(cp.value) && cp.value.sha256.content <= file.data
    ensures r.Err? <==> OutsideFile(file.data, turnLine, 0, 1)
    ensures r.Ok? ==> LineStart(file.data, turnLine - 1, r.value)
  {
    hide CountLF;
    assert file.data[0..] == file.data;
    if resumed {
      var size := cp.value.size;
      assert file.data[..size] == cp.value.sha256.content;
      CountSplit(file.data, size);
      if turnLine == cp.value.turnLine {
        assert file.data[..cp.value.turnOffset] == cp.value.sha256.content[..cp.value.turnOffset];
        CountSplit(cp.value.sha256.content, cp.value.turnOffset);
        return Ok(cp.value.turnOffset);
      } else if turnLine > cp.value.lines {
        r := LineOffset(file.data, turnLine, size, cp.value.lines + 1, blockSize);
        if r.Ok? {
          LineStartAppended(file.data, size, turnLine - cp.value.lines - 1, r.value - size);
        }
        return;
      }
    }
    r := LineOffset(file.data, turnLine, 0, 1, blockSize);
  }

  /** Normalizing only the new turns and putting the stored events in front is normalizing all turns. */
  lemma ReplacedEvents(w: World, parsed: Parsed, completed: seq<Turn>, stored: seq<Event>)
    requires SessionEvents(w, completed) == Ok(stored)
    ensures var part := Normalized(w, parsed);
            var whole := Normalized(w, parsed.(turns := completed + parsed.turns));
            whole == if part.Ok? && UniqueIds(stored + part.value.events)
                     then Ok(part.value.(events := stored + part.value.events)) else Err
  {
    hide SessionEvents, UniqueIds;
    SessionEventsConcat(w, completed, parsed.turns);
    var events := SessionEvents(w, parsed.turns);
    if events.Ok? {
      var all := stored + events.value;
      if UniqueIds(all) {
        UniqueIdsPart(all, |stored|, |all|);
        assert all[|stored|..|all|] == events.value;
      }
    }
  }

  datatype Parse = Parse(parsed: Parsed, session: SessionRevision, trace: Trace)

  /** The session's events are those of all turns, and the parser's last turn is the last of all turns. */
  predicate LastOfAll(w: World, file: Staged, p: Parse)
    requires ReadFrom(w, file.data, 0, 0, 0).Ok? && Owner(w, file.name, file.data).Owned?
  {
    var turns := AllTurns(w, file.name, file.data);
    && turns.Ok?
    && SessionEvents(w, turns.value) == Ok(p.session.events)
    && (p.parsed.turns != [] <==> turns.value != [])
    && (turns.value != [] ==> Last(p.parsed.turns) == Last(turns.value))
  }

  /** The turns the parser groups itself: all of them, or those from the resume point on. */
  function ParsedTurns(w: World, file: Staged, own: Ownership, cp: Option<Checkpoint>, resumed: bool): Result<seq<Turn>>
    requires own.Owned?
    requires resumed ==> cp.Some? && cp.value.turnLine > 0
  {
    Turns(w, w.sessionOf(file.name), own,
          if resumed then OwnedRecords(w, file.data, own, cp.value.turnOffset, cp.value.turnLine - 1)
          else OwnedRecords(w, file.data, own, 0, 0))
  }

  // ---- what parse_incremental computes, for any file ----

  /** The stored prefix may be reused: it is a prefix of the file, under the same name. */
  predicate Reusable(file: Staged, cp: Option<Checkpoint>) {
    cp.Some? && Extends(file, cp.value)
  }

  /** The first pass: over stored metadata and the tail when the prefix matches, else over the whole file. */
  function FirstPass(w: World, file: Staged, cp: Option<Checkpoint>): Result<seq<Numbered>> {
    if Reusable(file, cp) then Join(Ok(cp.value.metadata), ReadFrom(w, file.data, cp.value.size, cp.value.lines, 0))
    else ReadFrom(w, file.data, 0, 0, 0)
  }

  /** Both passes of the parser, resumed when the prefix matches and its ownership still holds. */
  function Run(w: World, file: Staged, cp: Option<Checkpoint>): Result<(Parsed, Trace)>
    requires cp.Some? ==> Formed(cp.value)
  {
    var metadata, native := FirstPass(w, file, cp), w.sessionOf(file.name);
    if metadata.Err? then Err
    else
      var m := ScanRecords(NOTHING, metadata.value);
      var own := Decide(w, native, m);
      if own.Foreign? then Ok((ForeignSession(native, own, file.parent), Trace(m.kept, None, false)))
      else
        var resumed := Reusable(file, cp) && cp.value.ownership == own;
        var turns := ParsedTurns(w, file, own, cp, resumed);
        if turns.Err? then Err
        else Ok((OwnedSession(native, own, file.parent, turns.value), Trace(m.kept, Some(own), resumed)))
  }

  /** No parse yields a turn without blocks, so normalization never falls back on a turn's texts. */
  lemma EveryTurnHasBlocks(w: World, file: Staged, cp: Option<Checkpoint>)
    requires cp.Some? ==> Formed(cp.value)
    ensures FullParse(w, file).Ok? ==> forall t :: t in FullParse(w, file).value.turns ==> t.blocks != []
    ensures Run(w, file, cp).Ok? ==> forall t :: t in Run(w, file, cp).value.0.turns ==> t.blocks != []
  {
    hide ReadFrom, ScanRecords, GroupRecords, OwnedRecords, Turns;
    forall own: Ownership, recs | own.Owned? && Turns(w, w.sessionOf(file.name), own, recs).Ok?
      ensures forall t :: t in Turns(w, w.sessionOf(file.name), own, recs).value ==> t.blocks != []
    {
      GroupedHaveBlocks(w, w.sessionOf(file.name), own, recs);
    }
  }

  /** The parser's result normalized, with the stored events in front after a resumed parse. */
  function Finish(w: World, file: Staged, cp: Option<Checkpoint>, run: (Parsed, Trace),
                  fallback: Option<string>): Result<Parse>
    requires run.1.resumed ==> cp.Some?
  {
    var parsed := WithFallback(run.0, file.parent, fallback);
    var n := Normalized(w, parsed);
    if n.Err? then Err
    else if !run.1.resumed then Ok(Parse(parsed, n.value, run.1))
    else
      var events := cp.value.completed + n.value.events;
      if UniqueIds(events) then Ok(Parse(parsed, n.value.(events := events), run.1)) else Err
  }

  /** The session of parse_incremental and what its checkpoint is made from. */
  function Parsing(w: World, file: Staged, cp: Option<Checkpoint>, fallback: Option<string>): (r: Result<Parse>)
    requires cp.Some? ==> Formed(cp.value)
    ensures r.Ok? && r.value.trace.resumed ==> Reusable(file, cp)
  {
    var run := Run(w, file, cp);
    if run.Err? then Err else Finish(w, file, cp, run.value, fallback)
  }

  /**
   The checkpoint of a parse, if it has a last turn whose owner is known. The line of that turn is a text-mode
   line, the search for its offset counts LF: a line beyond the file's newlines raises.
   */
  function NextOf(w: World, file: Staged, p: Parse): (r: Result<Option<Checkpoint>>)
    requires Complete(file.data)
    ensures r.Ok? && r.value.Some? ==> Formed(r.value.value)
  {
    if p.parsed.turns == [] || p.trace.ownership.None? then Ok(None)
    else
      var last := Last(p.parsed.turns);
      var ending := Normalized(w, p.parsed.(turns := [last]));
      assert file.data[0..] == file.data;
      if ending.Err? || OutsideFile(file.data, last.start, 0, 1) then Err
      else
        Ok(Some(Checkpoint(
          file.name, |file.data|, Sha256(file.data), CountLF(file.data), p.trace.kept, p.trace.ownership.value,
          LineStartOf(file.data, last.start - 1), last.start,
          p.session.events[..Max(0, |p.session.events| - |ending.value.events|)])))
  }

  datatype Increment = Increment(session: SessionRevision, next: Option<Checkpoint>, resumed: bool)

  /** What parse_incremental returns or raises, for any file and any checkpoint some parse has left. */
  function Incremented(w: World, file: Staged, cp: Option<Checkpoint>, fallback: Option<string>):
      (r: Result<Increment>)
    requires cp.Some? ==> Formed(cp.value)
    ensures r.Ok? && r.value.next.Some? ==> Formed(r.value.next.value)
  {
    if !Complete(file.data) then Err
    else
      var p := Parsing(w, file, cp, fallback);
      if p.Err? then Err
      else
        var next := NextOf(w, file, p.value);
        if next.Err? then Err else Ok(Increment(p.value.session, next.value, p.value.trace.resumed))
  }

  // ---- parse_incremental ----

  /** Run the parser over replayed metadata and a resume point when the prefix matches, else over the whole file. */
  method RunParser(w: World, file: Staged, cp: Option<Checkpoint>, reusable: bool) returns (r: Result<(Parsed, Trace)>)
    requires cp.Some? ==> Formed(cp.value)
    requires reusable == Reusable(file, cp)
    ensures r == Run(w, file, cp)
  {
    var metadata: Result<seq<Numbered>>;
    var resume: Option<Resume> := None;
    if reusable {
      var tail := IterRecords(w, file.data, cp.value.size, cp.value.lines, 0);
      metadata := Join(Ok(cp.value.metadata), tail);
      resume := Some(Resume(cp.value.ownership, cp.value.turnOffset, cp.value.turnLine));
    } else {
      metadata := IterRecords(w, file.data, 0, 0, 0);
    }
    var result, trace := ParseSession(w, file, metadata, resume);
    if result.Err? {
      return Err;
    }
    return Ok((result.value, trace));
  }

  /** The parse of parse_incremental: resume when possible, normalize, and put the stored events in front. */
  method ParseTail(w: World, file: Staged, cp: Option<Checkpoint>, reusable: bool, fallback: Option<string>)
    returns (r: Result<Parse>)
    requires cp.Some? ==> Formed(cp.value)
    requires reusable == Reusable(file, cp)
    ensures r == Parsing(w, file, cp, fallback)
  {
    var run := RunParser(w, file, cp, reusable);
    if run.Err? {
      return Err;
    }
    var parsed, trace := WithFallback(run.value.0, file.parent, fallback), run.value.1;
    var normalized := NormalizeSession(w, parsed);
    if normalized.Err? {
      return Err;
    }
    if trace.resumed {
      var events := cp.value.completed + normalized.value.events;
      if !UniqueIds(events) {
        return Err;
      }
      return Ok(Parse(parsed, normalized.value.(events := events), trace));
    }
    return Ok(Parse(parsed, normalized.value, trace));
  }

  /** The checkpoint of a parse, through whichever branch finds the last turn's offset. */
  method NextCheckpoint(w: World, file: Staged, cp: Option<Checkpoint>, p: Parse, scanned: Scanned, blockSize: nat)
    returns (r: Result<Option<Checkpoint>>)
    requires blockSize > 0
    requires cp.Some? ==> Formed(cp.value)
    requires p.trace.resumed ==> Reusable(file, cp)
    requires Complete(file.data)
    requires scanned.size == |file.data| && scanned.lines == CountLF(file.data) && scanned.sha256 == Sha256(file.data)
    ensures r == NextOf(w, file, p)
  {
    if p.parsed.turns == [] || p.trace.ownership.None? {
      return Ok(None);
    }
    var last := Last(p.parsed.turns);
    var ending := NormalizeSession(w, p.parsed.(turns := [last]));
    if ending.Err? {
      return Err;
    }
    var completed := p.session.events[..Max(0, |p.session.events| - |ending.value.events|)];
    var offset := TurnOffset(file, cp, p.trace.resumed, last.start, blockSize);
    if offset.Err? {
      return Err;
    }
    LineStartUnique(file.data, last.start - 1, offset.value, LineStartOf(file.data, last.start - 1));
    return Ok(Some(Checkpoint(file.name, scanned.size, scanned.sha256, scanned.lines, p.trace.kept,
                              p.trace.ownership.value, offset.value, last.start, completed)));
  }

  /**
   parse_incremental. Its result for every file and every checkpoint a parse can have left; and, when the
   checkpoint is true and no bare CR is in the file, the session (or the rejection) of a full parse and a
   checkpoint that is true again.
   */
  method ParseIncremental(w: World, file: Staged, cp: Option<Checkpoint>, fallback: Option<string>, blockSize: nat)
    returns (r: Result<Increment>)
    requires blockSize > 0
    requires cp.Some? ==> Formed(cp.value)
    ensures r == Incremented(w, file, cp, fallback)
    ensures (cp.Some? ==> Describes(w, cp.value)) && NoBareCR(file.data) ==>
              && (r.Err? <==> !Complete(file.data) || FullSession(w, file, fallback).Err?)
              && (r.Ok? ==> Ok(r.value.session) == FullSession(w, file, fallback))
              && (r.Ok? && r.value.next.Some? ==> Describes(w, r.value.next.value))
    ensures (cp.Some? ==> Describes(w, cp.value)) && Complete(file.data) ==>
              if r.Ok? then SessionTold(w, file, fallback, r.value.session)
              else SessionRefused(w, file, fallback) || Overshoots(w, file)
  {
    hide Accounts, NoBareCR, FullSession, Parsing, NextOf, Overshoots, FullParse, CountLF, SessionTold, SessionRefused;
    if (cp.Some? ==> Describes(w, cp.value)) && Complete(file.data) {
      IncrementIsFull(w, file, cp, fallback);
      FullSessionTold(w, file, fallback);
    }
    if (cp.Some? ==> Describes(w, cp.value)) && NoBareCR(file.data) && Complete(file.data) {
      IncrementIsFull(w, file, cp, fallback);
      NoOvershoot(w, file);
    }
    var scanned := ScanBytes(file.data, if cp.Some? then cp.value.size else 0, blockSize);
    if scanned.Err? {
      return Err;
    }
    var reusable := cp.Some? && cp.value.filename == file.name && scanned.value.size >= cp.value.size
                    && scanned.value.prefix == Some(cp.value.sha256);
    PrefixMatches(file, cp);
    var parse := ParseTail(w, file, cp, reusable, fallback);
    if parse.Err? {
      return Err;
    }
    var next := NextCheckpoint(w, file, cp, parse.value, scanned.value, blockSize);
    if next.Err? {
      return Err;
    }
    return Ok(Increment(parse.value.session, next.value, parse.value.trace.resumed));
  }

  /** The digest of the file's first `size` bytes is the stored one exactly when the stored prefix is a prefix. */
  lemma PrefixMatches(file: Staged, cp: Option<Checkpoint>)
    requires cp.Some? ==> Formed(cp.value)
    ensures cp.Some? ==>
              (cp.value.sha256.content <= file.data <==>
               cp.value.size <= |file.data| && Sha256(file.data[..cp.value.size]) == cp.value.sha256)
  {
  }

  // ---- incremental is full ----

  /** A resumed parse with the stored events put in front is the full parse. */
  lemma ResumedSession(w: World, file: Staged, cp: Checkpoint, fallback: Option<string>)
    requires Describes(w, cp) && Extends(file, cp)
    requires ReadFrom(w, file.data, 0, 0, 0).Ok? && Owner(w, file.name, file.data) == cp.ownership
    ensures var tail := ParsedTurns(w, file, cp.ownership, Some(cp), true);
            && FullSession(w, file, fallback) ==
               (if tail.Err? then Err
                else
                  var part := Normalized(w, WithFallback(
                    OwnedSession(w.sessionOf(file.name), cp.ownership, file.parent, tail.value),
                    file.parent, fallback));
                  if part.Ok? && UniqueIds(cp.completed + part.value.events)
                  then Ok(part.value.(events := cp.completed + part.value.events)) else Err)
    ensures var tail, all := ParsedTurns(w, file, cp.ownership, Some(cp), true), AllTurns(w, file.name, file.data);
            && (tail.Ok? <==> all.Ok?)
            && (tail.Ok? ==> tail.value != [] && all.value != [] && Last(tail.value) == Last(all.value))
            && (tail.Ok? ==> SessionEvents(w, all.value) == Join(Ok(cp.completed), SessionEvents(w, tail.value)))
  {
    hide SessionEvents, NoBareCR, LineStart, Complete, GroupRecords, ReadFrom, Records, TextSplit, ScanRecords;
    var completed := ResumedTurns(w, cp, file.data);
    var tail := ParsedTurns(w, file, cp.ownership, Some(cp), true);
    if tail.Ok? {
      var parsed := WithFallback(OwnedSession(w.sessionOf(file.name), cp.ownership, file.parent, tail.value),
                                 file.parent, fallback);
      ReplacedEvents(w, parsed, completed, cp.completed);
      SessionEventsConcat(w, completed, tail.value);
    }
  }

  /** What the caller relies on: the revision is the full parse's, and the trace fits a checkpoint. */
  predicate Faithful(w: World, file: Staged, fallback: Option<string>, p: Parse) {
    && FullSession(w, file, fallback) == Ok(p.session)
    && ReadFrom(w, file.data, 0, 0, 0).Ok? && p.trace.kept == Metas(w, file.data).kept
    && Revise(w, p.parsed, p.session.events) == Ok(p.session)
    && var own := Owner(w, file.name, file.data);
    && p.trace.ownership == (if own.Owned? then Some(own) else None)
    && (own.Foreign? ==> p.parsed.turns == [])
    && (own.Owned? ==> LastOfAll(w, file, p))
  }

  lemma FreshParse(w: World, file: Staged, parsed: Parsed, trace: Trace, fallback: Option<string>)
    requires FullParse(w, file) == Ok(parsed)
    requires trace.kept == Metas(w, file.data).kept
    requires var own := Owner(w, file.name, file.data); trace.ownership == if own.Owned? then Some(own) else None
    ensures var p := WithFallback(parsed, file.parent, fallback);
            var n := Normalized(w, p);
            && FullSession(w, file, fallback) == n
            && (n.Ok? ==> Faithful(w, file, fallback, Parse(p, n.value, trace)))
  {
  }

  lemma ResumedParse(w: World, file: Staged, cp: Checkpoint, parsed: Parsed, trace: Trace, fallback: Option<string>)
    requires Describes(w, cp) && Extends(file, cp)
    requires ReadFrom(w, file.data, 0, 0, 0).Ok? && Owner(w, file.name, file.data) == cp.ownership
    requires trace.kept == Metas(w, file.data).kept && trace.ownership == Some(cp.ownership)
    requires var tail := ParsedTurns(w, file, cp.ownership, Some(cp), true);
             tail.Ok? && parsed == OwnedSession(w.sessionOf(file.name), cp.ownership, file.parent, tail.value)
    ensures var p := WithFallback(parsed, file.parent, fallback);
            var n := Normalized(w, p);
            if n.Ok? && UniqueIds(cp.completed + n.value.events)
            then Faithful(w, file, fallback, Parse(p, n.value.(events := cp.completed + n.value.events), trace))
            else FullSession(w, file, fallback).Err?
  {
    hide SessionEvents, NoBareCR, LineStart, Complete, GroupRecords, ReadFrom, Records, TextSplit, ScanRecords,
         FullSession;
    ResumedSession(w, file, cp, fallback);
  }

  /** From a true checkpoint or none, the parser's passes see the file's own metadata and owner. */
  lemma RunSees(w: World, file: Staged, cp: Option<Checkpoint>)
    requires cp.Some? ==> Describes(w, cp.value)
    ensures FirstPass(w, file, cp).Ok? <==> ReadFrom(w, file.data, 0, 0, 0).Ok?
    ensures FirstPass(w, file, cp).Ok? ==> ScanRecords(NOTHING, FirstPass(w, file, cp).value) == Metas(w, file.data)
  {
    hide ReadFrom, ScanRecords, Describes;
    if Reusable(file, cp) {
      ReplayedPass(w, cp.value, file);
    }
  }

  /** The session or the rejection is the full parse's, whatever CRs the file has beyond the described prefix. */
  lemma ParsingIsFull(w: World, file: Staged, cp: Option<Checkpoint>, fallback: Option<string>)
    requires cp.Some? ==> Describes(w, cp.value)
    ensures var p := Parsing(w, file, cp, fallback);
            && (p.Err? <==> FullSession(w, file, fallback).Err?)
            && (p.Ok? ==> Faithful(w, file, fallback, p.value))
            && (p.Ok? ==> p.value.trace.resumed ==
                          (Reusable(file, cp) && Owner(w, file.name, file.data) == cp.value.ownership))
  {
    hide Formed, Normalized, ReadFrom, ScanRecords, FirstPass, LastOfAll, NoBareCR, Turns, Decide, SessionEvents;
    RunSees(w, file, cp);
    var run := Run(w, file, cp);
    if FirstPass(w, file, cp).Ok? {
      var own := Owner(w, file.name, file.data);
      if own.Owned? && Reusable(file, cp) && own == cp.value.ownership {
        ResumedSession(w, file, cp.value, fallback);
        if run.Ok? {
          ResumedParse(w, file, cp.value, run.value.0, run.value.1, fallback);
        }
      } else if run.Ok? {
        FreshParse(w, file, run.value.0, run.value.1, fallback);
      }
    }
  }

  /** The last turn lies on a text-mode line that LF counting cannot reach. */
  predicate Overshoots(w: World, file: Staged) {
    var parsed := FullParse(w, file);
    parsed.Ok? && parsed.value.turns != [] && OutsideFile(file.data, Last(parsed.value.turns).start, 0, 1)
  }

  /** Without a bare CR no turn overshoots. */
  lemma NoOvershoot(w: World, file: Staged)
    requires Complete(file.data) && NoBareCR(file.data)
    ensures !Overshoots(w, file)
  {
    if Overshoots(w, file) {
      TurnOnLine(w, file.name, file.data);
    }
  }

  /** Normalizing the last turn alone succeeds when normalizing the session does. */
  lemma ReviseLast(w: World, parsed: Parsed, session: SessionRevision, last: Turn)
    requires Revise(w, parsed, session.events) == Ok(session)
    requires SessionEvents(w, [last]).Ok? && |SessionEvents(w, [last]).value| <= |session.events|
    requires SessionEvents(w, [last]).value == session.events[|session.events| - |SessionEvents(w, [last]).value|..]
    ensures var one := Normalized(w, parsed.(turns := [last]));
            one.Ok? && one.value.events == SessionEvents(w, [last]).value
  {
    UniqueIdsPart(session.events, |session.events| - |SessionEvents(w, [last]).value|, |session.events|);
  }

  /** The next checkpoint accounts for the whole file; it is refused exactly when the last turn overshoots. */
  lemma NextIsTrue(w: World, file: Staged, p: Parse, fallback: Option<string>)
    requires Complete(file.data) && Faithful(w, file, fallback, p)
    ensures FullParse(w, file).Ok? && (p.parsed.turns != [] <==> FullParse(w, file).value.turns != [])
    ensures var r := NextOf(w, file, p);
            && (r.Err? <==> Overshoots(w, file))
            && (r.Ok? ==> (r.value.Some? <==> p.parsed.turns != []))
            && (r.Ok? && r.value.Some? ==>
                  && Formed(r.value.value) && Accounts(w, r.value.value)
                  && r.value.value.sha256 == Sha256(file.data) && r.value.value.filename == file.name)
  {
    hide SessionEvents, Revise, CountLF, ReadFrom, ScanRecords, Decide, Turns;
    if p.parsed.turns != [] {
      var last := Last(p.parsed.turns);
      TurnOnLine(w, file.name, file.data);
      CompletedEvents(w, AllTurns(w, file.name, file.data).value, p.session.events);
      ReviseLast(w, p.parsed, p.session, last);
    }
  }

  /**
   Incremental is full: from a true checkpoint or none, on every file of complete records, parse_incremental
   returns the full parse's session, or raises when the full parse does or the last turn overshoots; and the
   next checkpoint is a true account of the file.
   */
  lemma IncrementIsFull(w: World, file: Staged, cp: Option<Checkpoint>, fallback: Option<string>)
    requires cp.Some? ==> Describes(w, cp.value)
    requires Complete(file.data)
    ensures var r := Incremented(w, file, cp, fallback);
            && (r.Err? <==> FullSession(w, file, fallback).Err? || Overshoots(w, file))
            && (r.Ok? ==>
                  && FullSession(w, file, fallback) == Ok(r.value.session)
                  && (r.value.resumed <==>
                        Reusable(file, cp) && Owner(w, file.name, file.data) == cp.value.ownership)
                  && (r.value.next.Some? <==> FullParse(w, file).value.turns != []))
            && (r.Ok? && r.value.next.Some? ==>
                  var next := r.value.next.value;
                  && Accounts(w, next) && next.sha256 == Sha256(file.data) && next.filename == file.name
                  && (NoBareCR(file.data) <==> Describes(w, next)))
  {
    hide Accounts, Formed, Overshoots, Revise, LastOfAll, Metas, Parsing, NextOf, NoBareCR, ReadFrom, Owner;
    ParsingIsFull(w, file, cp, fallback);
    var p := Parsing(w, file, cp, fallback);
    if p.Ok? {
      NextIsTrue(w, file, p.value, fallback);
    }
  }
}
