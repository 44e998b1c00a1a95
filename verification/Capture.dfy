/**
 Repeated incremental capture of one growing, rewritten or re-owned source through a checkpoint cache: what every
 capture returns, and exactly which files may grow without a capture ever differing from a full parse.
 */
module Capture {
  import opened Common
  import opened Scan
  import opened Lines
  import opened Codex
  import opened Revisions
  import opened Normalize
  import opened Incremental
  import opened BareCR

  /** The staged copy of a source file: its complete records. */
  function StagedPrefix(data: Bytes): Bytes {
    data[..RFind(data) + 1]
  }

  lemma StagedPrefixIsLongest(data: Bytes, complete: nat)
    requires LongestComplete(data, complete)
    ensures data[..complete] == StagedPrefix(data)
  {
    var n := RFind(data) + 1;
    assert LongestComplete(data, n);
    LongestCompleteIsLongest(data, complete, n);
    LongestCompleteIsLongest(data, n, complete);
  }

  /**
   One observation of a source: the file where it lies, the directory its copy is staged in, and what the checkpoint
   cache does around it: forget, or fail to save.
   */
  datatype Observation = Observation(file: Staged, staging: string, forgotten: bool, unsaved: bool)

  function Copy(o: Observation): Staged {
    Staged(o.file.name, o.staging, StagedPrefix(o.file.data))
  }

  /** What a capture that never resumes returns: a full parse of the staged copy. */
  function Reference(w: World, o: Observation): Result<SessionRevision> {
    FullSession(w, Copy(o), Some(o.file.parent))
  }

  function References(w: World, seen: seq<Observation>): seq<Result<SessionRevision>> {
    if seen == [] then [] else References(w, seen[..|seen| - 1]) + [Reference(w, seen[|seen| - 1])]
  }

  /** The staged copy has no bare CR. */
  predicate Clean(o: Observation) {
    NoBareCR(StagedPrefix(o.file.data))
  }

  // ---- the checkpoint cache ----

  predicate IsMetadata(rec: Record) {
    rec.SessionMeta? || rec.InterAgent? || rec.TaskStarted?
  }

  /** The checks a stored checkpoint passes before it is used. */
  predicate Loadable(cp: Checkpoint) {
    && 0 < cp.turnLine <= cp.lines && cp.turnOffset < cp.size
    && (forall i :: 0 <= i < |cp.metadata| ==> 0 < cp.metadata[i].0 <= cp.lines && IsMetadata(cp.metadata[i].1))
    && (forall i, j :: 0 <= i < j < |cp.metadata| ==> cp.metadata[i].0 < cp.metadata[j].0)
    && UniqueIds(cp.completed)
  }

  function Loaded(o: Observation, cache: Option<Checkpoint>): Option<Checkpoint> {
    if !o.forgotten && cache.Some? && Loadable(cache.value) then cache else None
  }

  /** What a checkpoint cache holds after captures of clean copies: nothing, or a true account of one of them. */
  predicate Trusted(w: World, cache: Option<Checkpoint>) {
    cache.Some? ==> Describes(w, cache.value)
  }

  // ---- what captures return ----

  function Captured(w: World, o: Observation, cache: Option<Checkpoint>): Result<Increment>
    requires cache.Some? ==> Formed(cache.value)
  {
    Incremented(w, Copy(o), Loaded(o, cache), Some(o.file.parent))
  }

  function Saved(o: Observation, cache: Option<Checkpoint>, r: Result<Increment>): Option<Checkpoint> {
    if r.Ok? && r.value.next.Some? && !o.unsaved then r.value.next else cache
  }

  /** The cache after a series of captures that started with none. */
  function CacheAfter(w: World, seen: seq<Observation>): (cache: Option<Checkpoint>)
    ensures cache.Some? ==> Formed(cache.value)
  {
    if seen == [] then None
    else
      var cache, o := CacheAfter(w, seen[..|seen| - 1]), seen[|seen| - 1];
      Saved(o, cache, Captured(w, o, cache))
  }

  function Session(r: Result<Increment>): Result<SessionRevision> {
    if r.Ok? then Ok(r.value.session) else Err
  }

  /** The sessions a series of captures returns, for any files. */
  function Sessions(w: World, seen: seq<Observation>): seq<Result<SessionRevision>> {
    if seen == [] then []
    else
      var front, o := seen[..|seen| - 1], seen[|seen| - 1];
      Sessions(w, front) + [Session(Captured(w, o, CacheAfter(w, front)))]
  }

  /** One capture: stage the complete records, load what the cache holds, then parse incrementally. */
  method CaptureFile(w: World, o: Observation, cache: Option<Checkpoint>, blockSize: nat) returns (r: Result<Increment>)
    requires blockSize > 0
    requires cache.Some? ==> Formed(cache.value)
    ensures r == Captured(w, o, cache)
    ensures Clean(o) && Trusted(w, cache) ==> Session(r) == Reference(w, o) && Trusted(w, Saved(o, cache, r))
  {
    if Clean(o) && Trusted(w, cache) {
      CleanCapture(w, o, cache);
    }
    var copy, complete, partialTail := CopyCompleteRecords(o.file.data, blockSize);
    StagedPrefixIsLongest(o.file.data, complete);
    r := ParseIncremental(w, Staged(o.file.name, o.staging, copy), Loaded(o, cache), Some(o.file.parent), blockSize);
  }

  /**
   Capture every observation in turn, each starting from whatever checkpoint the cache still holds. Whatever was
   appended, rewritten, renamed or re-owned in between, with clean copies every result is that of a full parse.
   */
  method CaptureSeries(w: World, seen: seq<Observation>, blockSize: nat) returns (results: seq<Result<SessionRevision>>)
    requires blockSize > 0
    ensures results == Sessions(w, seen)
    ensures (forall i :: 0 <= i < |seen| ==> Clean(seen[i])) ==> results == References(w, seen)
  {
    results := [];
    var cache: Option<Checkpoint> := None;
    for i := 0 to |seen|
      invariant cache == CacheAfter(w, seen[..i])
      invariant results == Sessions(w, seen[..i])
    {
      assert seen[..i + 1][..i] == seen[..i];
      var r := CaptureFile(w, seen[i], cache, blockSize);
      cache := Saved(seen[i], cache, r);
      results := results + [Session(r)];
    }
    assert seen[..|seen|] == seen;
    if forall i :: 0 <= i < |seen| ==> Clean(seen[i]) {
      CleanSeries(w, seen);
    }
  }

  // ---- clean copies ----

  lemma StagedComplete(data: Bytes)
    ensures Complete(StagedPrefix(data))
    ensures Complete(data) ==> StagedPrefix(data) == data
  {
  }

  lemma CleanCapture(w: World, o: Observation, cache: Option<Checkpoint>)
    requires Clean(o) && Trusted(w, cache)
    ensures var r := Captured(w, o, cache);
            Session(r) == Reference(w, o) && Trusted(w, Saved(o, cache, r))
  {
    hide NoBareCR, StagedPrefix, Formed, Accounts, Incremented, FullSession, FullParse;
    StagedComplete(o.file.data);
    IncrementIsFull(w, Copy(o), Loaded(o, cache), Some(o.file.parent));
    NoOvershoot(w, Copy(o));
  }

  lemma {:induction false} CleanSeries(w: World, seen: seq<Observation>)
    requires forall i :: 0 <= i < |seen| ==> Clean(seen[i])
    ensures Sessions(w, seen) == References(w, seen) && Trusted(w, CacheAfter(w, seen))
  {
    hide Clean, Captured, Reference, Describes;
    if seen != [] {
      var front, o := seen[..|seen| - 1], seen[|seen| - 1];
      CleanSeries(w, front);
      CleanCapture(w, o, CacheAfter(w, front));
    }
  }

  /** Kept metadata stands on ascending lines up to `last`. */
  predicate KeptUpTo(m: Metadata, last: nat) {
    && (forall i :: 0 <= i < |m.kept| ==> 0 < m.kept[i].0 <= last && IsMetadata(m.kept[i].1))
    && (forall i, j :: 0 <= i < j < |m.kept| ==> m.kept[i].0 < m.kept[j].0)
  }

  lemma {:induction false} KeptAscends(m: Metadata, recs: seq<Numbered>, last: nat)
    requires KeptUpTo(m, last) && forall i :: 0 <= i < |recs| ==> recs[i].0 == last + 1 + i
    ensures KeptUpTo(ScanRecords(m, recs), last + |recs|)
    decreases |recs|
  {
    if recs != [] {
      assert KeptUpTo(ScanRecord(m, recs[0]), last + 1);
      KeptAscends(ScanRecord(m, recs[0]), recs[1..], last + 1);
    }
  }

  /** A checkpoint left by a clean file passes the cache's checks: what is saved there is loaded again. */
  lemma CleanLoads(w: World, file: Staged, cp: Option<Checkpoint>, fallback: Option<string>)
    requires cp.Some? ==> Describes(w, cp.value)
    requires Complete(file.data) && NoBareCR(file.data)
    ensures var r := Incremented(w, file, cp, fallback);
            r.Ok? && r.value.next.Some? ==> Loadable(r.value.next.value)
  {
    hide Incremented, NoBareCR, Overshoots, FullSession, SessionEvents, TextSplit, CountLF, ScanRecords, Decide, Turns;
    IncrementIsFull(w, file, cp, fallback);
    var r := Incremented(w, file, cp, fallback);
    if r.Ok? && r.value.next.Some? {
      var next := r.value.next.value;
      TurnOnLine(w, file.name, file.data);
      assert From(file.data, 0) == file.data;
      RecordsNumbered(w, TextSplit(file.data), 0, 0);
      KeptAscends(NOTHING, ReadFrom(w, file.data, 0, 0, 0).value, 0);
      assert file.data[..|file.data|] == file.data;
      CompletedUnique(w, file, fallback, next);
    }
  }

  lemma CompletedUnique(w: World, file: Staged, fallback: Option<string>, cp: Checkpoint)
    requires FullSession(w, file, fallback).Ok? && Accounts(w, cp)
    requires cp.filename == file.name && cp.sha256 == Sha256(file.data)
    ensures UniqueIds(cp.completed)
  {
    hide ReadFrom, ScanRecords, Decide, Turns, SessionEvents;
    var turns := AllTurns(w, file.name, file.data).value;
    var events := FullSession(w, file, fallback).value.events;
    CompletedEvents(w, turns, events);
    UniqueIdsPart(events, 0, |cp.completed|);
  }

  // ---- where a copy is staged ----

  /** The working directory the session records, if it records one. */
  function RecordedDir(w: World, name: string, data: Bytes): Json
    requires ReadFrom(w, data, 0, 0, 0).Ok?
  {
    var own := Owner(w, name, data);
    if own.Foreign? then own.cwd else Get(own.meta, "cwd")
  }

  /**
   A session that did not itself run in the staging directory is captured as if parsed where it lies: the staging
   directory appears nowhere in it.
   */
  lemma StagingLeavesNoTrace(w: World, o: Observation)
    requires var data := StagedPrefix(o.file.data);
             ReadFrom(w, data, 0, 0, 0).Ok? ==> RecordedDir(w, o.file.name, data) != Str(o.staging)
    ensures Reference(w, o) == FullSession(w, Copy(o).(parent := o.file.parent), None)
  {
    hide ReadFrom, StagedPrefix, ScanRecords, Decide, GroupRecords, OwnedRecords, SessionEvents, Revise;
  }

  // ---- growing sources ----

  /** A source captured after appending `more`, and captured again after appending `again`. */
  function Growth(source: Staged, staging: string, more: Bytes, again: Bytes): seq<Observation> {
    [Observation(source.(data := source.data + more), staging, false, false),
     Observation(source.(data := source.data + more + again), staging, false, false)]
  }

  /** Both captures of the growing source return what a full parse returns. */
  predicate CapturesGrowth(w: World, source: Staged, staging: string, more: Bytes, again: Bytes) {
    Sessions(w, Growth(source, staging, more, again)) == References(w, Growth(source, staging, more, again))
  }

  /** Appended records that have no bare CR themselves. */
  predicate CleanRecords(data: Bytes) {
    Complete(data) && NoBareCR(data)
  }

  lemma CleanGrowth(w: World, source: Staged, staging: string, more: Bytes, again: Bytes)
    requires CleanRecords(source.data) && CleanRecords(more) && CleanRecords(again)
    ensures CapturesGrowth(w, source, staging, more, again)
  {
    NoBareCRConcat(source.data, more);
    NoBareCRConcat(source.data + more, again);
    StagedComplete(source.data + more);
    StagedComplete(source.data + more + again);
    CleanSeries(w, Growth(source, staging, more, again));
  }

  /** n copies of a line that is no evidence. */
  function Idle(n: nat): Bytes {
    if n == 0 then [] else Idle(n - 1) + IDLE
  }

  function IdleLines(n: nat): seq<Bytes> {
    if n == 0 then [] else IdleLines(n - 1) + [IDLE]
  }

  lemma IdleLine()
    ensures TextSplit(IDLE) == [IDLE] && CountLF(IDLE) == 1 && CleanRecords(IDLE)
  {
    SampleLine(IDLE, []);
    SampleCounts();
    assert IDLE + [] == IDLE && TextSplit([]) == [];
  }

  lemma {:induction false} IdleSplits(n: nat)
    ensures TextSplit(Idle(n)) == IdleLines(n) && CountLF(Idle(n)) == n && CleanRecords(Idle(n))
    ensures |Idle(n)| == 2 * n && forall line :: line in IdleLines(n) ==> line == IDLE
  {
    hide TextSplit, CountLF, NoBareCR;
    if n > 0 {
      IdleSplits(n - 1);
      IdleLine();
      TextSplitConcat(Idle(n - 1), IDLE);
      CountConcat(Idle(n - 1), IDLE);
      NoBareCRConcat(Idle(n - 1), IDLE);
    } else {
      NothingSplits();
    }
  }

  lemma NothingSplits()
    ensures TextSplit([]) == [] && CountLF([]) == 0 && CleanRecords([])
  {
  }

  /** A line of n letters. */
  function Letters(n: nat): Bytes {
    seq(n, i => 65) + [LF]
  }

  lemma {:induction false} LettersEnd(data: Bytes)
    requires data != [] && data[|data| - 1] == LF && forall i :: 0 <= i < |data| - 1 ==> data[i] == 65
    ensures TextEnd(data) == |data| && CountLF(data) == 1
    decreases |data|
  {
    assert data == data[..|data| - 1] + [LF];
    CountZero(data[..|data| - 1]);
    if |data| > 1 {
      LettersEnd(data[1..]);
    }
  }

  lemma LettersSplit(n: nat)
    ensures |Letters(n)| == n + 1 && TextSplit(Letters(n)) == [Letters(n)] && CountLF(Letters(n)) == 1
    ensures CleanRecords(Letters(n)) && Letters(n) != IDLE
  {
    var line := Letters(n);
    assert n == 1 ==> line[0] == 65;
    LettersEnd(line);
    assert line[..|line|] == line && TextSplit([]) == [];
  }

  lemma {:induction false} LinesAreShort(data: Bytes)
    ensures forall i :: 0 <= i < |TextSplit(data)| ==> |TextSplit(data)[i]| <= |data|
    decreases |data|
  {
    if data != [] {
      LinesAreShort(data[TextEnd(data)..]);
    }
  }

  function Is(line: Bytes): Bytes -> bool {
    (other: Bytes) => other == line
  }

  /** The bytes appended: one line longer than all of data, then n idle ones. */
  function Appendix(data: Bytes, n: nat): Bytes {
    Letters(|data| + 1) + Idle(n)
  }

  lemma AppendixCounts(data: Bytes, n: nat)
    ensures CleanRecords(Appendix(data, n)) && CountLF(data + Appendix(data, n)) == CountLF(data) + 1 + n
    ensures |Appendix(data, n)| == |data| + 2 + 2 * n
  {
    hide TextSplit, CountLF, Letters, Idle, NoBareCR;
    LettersSplit(|data| + 1);
    IdleSplits(n);
    NoBareCRConcat(Letters(|data| + 1), Idle(n));
    CountConcat(data, Appendix(data, n));
    CountConcat(Letters(|data| + 1), Idle(n));
  }

  lemma AppendixLines(data: Bytes, n: nat)
    requires Complete(data)
    ensures TextSplit(data + Appendix(data, n)) == TextSplit(data) + ([Letters(|data| + 1)] + IdleLines(n))
  {
    hide TextSplit, CountLF, Letters, Idle, NoBareCR;
    LettersSplit(|data| + 1);
    IdleSplits(n);
    TextSplitConcat(data, Appendix(data, n));
    TextSplitConcat(Letters(|data| + 1), Idle(n));
  }

  lemma AppendixTurns(data: Bytes, n: nat)
    requires Complete(data)
    ensures UserTurns(Is(Letters(|data| + 1)), TextSplit(data + Appendix(data, n)), 0) ==
            [UserTurn(|TextSplit(data)| + 1)]
  {
    hide UserTurns, TextSplit, CountLF, Letters, Idle, NoBareCR, IdleLines, Is;
    var line := Letters(|data| + 1);
    var user, lines, k := Is(line), TextSplit(data), |TextSplit(data)|;
    AppendixLines(data, n);
    LettersSplit(|data| + 1);
    NotAmong(data);
    OneMarked(line, k);
    IdleTurns(line, n, k + 1);
    UserTurnsConcat(user, lines, [line] + IdleLines(n), 0);
    UserTurnsConcat(user, [line], IdleLines(n), k);
  }

  lemma OneMarked(line: Bytes, k: nat)
    ensures UserTurns(Is(line), [line], k) == [UserTurn(k + 1)]
  {
    OneUserTurn(Is(line), line, k);
  }

  lemma NotAmong(data: Bytes)
    ensures UserTurns(Is(Letters(|data| + 1)), TextSplit(data), 0) == []
  {
    LettersSplit(|data| + 1);
    LinesAreShort(data);
    NoUserTurns(Is(Letters(|data| + 1)), TextSplit(data), 0);
  }

  lemma IdleTurns(line: Bytes, n: nat, k: nat)
    requires line != IDLE
    ensures UserTurns(Is(line), IdleLines(n), k) == [] && UserTurns(Is(line), TextSplit(Idle(n)), k) == []
  {
    IdleSplits(n);
    assert forall i :: 0 <= i < |IdleLines(n)| ==> IdleLines(n)[i] in IdleLines(n);
    NoUserTurns(Is(line), IdleLines(n), k);
  }

  lemma AppendixMore(data: Bytes, n: nat)
    ensures data + Appendix(data, n) + IDLE == data + Appendix(data, n + 1)
  {
    hide Letters;
    assert Appendix(data, n) + IDLE == Appendix(data, n + 1);
  }

  /** The last line of the appendix starts two bytes before its end. */
  lemma LastIdle(data: Bytes, n: nat)
    requires Complete(data) && n > 0
    ensures var all := data + Appendix(data, n);
            && LineStart(all, CountLF(data) + n, |all| - 2)
            && all + IDLE == data + Appendix(data, n + 1)
            && From(all + IDLE, |all| - 2) == Idle(2)
  {
    hide CountLF, Letters, Idle, Appendix, NoBareCR;
    AppendixCounts(data, n - 1);
    AppendixMore(data, n - 1);
    AppendixMore(data, n);
    TwoIdle();
    var most := data + Appendix(data, n - 1);
    assert (most + IDLE)[..|most|] == most && (most + IDLE + IDLE)[|most|..] == IDLE + IDLE;
    assert most[|most| - 1] == Appendix(data, n - 1)[|Appendix(data, n - 1)| - 1];
  }

  lemma TwoIdle()
    ensures Idle(2) == IDLE + IDLE
  {
    assert Idle(1) == IDLE;
  }

  /**
   Every source with a bare CR can grow by clean records so that the second capture, resumed from the first one's
   checkpoint, loses a turn.
   */
  lemma GrowthFails(source: Staged, staging: string) returns (w: World, more: Bytes, again: Bytes)
    requires Complete(source.data) && !NoBareCR(source.data)
    ensures CleanRecords(more) && CleanRecords(again)
    ensures !CapturesGrowth(w, source, staging, more, again)
  {
    hide CountLF, TextSplit, UserTurns, Incremented, FullSession, NoBareCR, MarkWorld, Letters, Idle, IdleLines;
    var data := source.data;
    TextAtLeastCount(data);
    TextLinesAreLFLines(data);
    var n := |TextSplit(data)| - CountLF(data);
    var line, t := Letters(|data| + 1), |TextSplit(data)| + 1;
    w, more, again := MarkWorld(Is(line)), Appendix(data, n), IDLE;
    IdleLine();
    LettersSplit(|data| + 1);
    AppendixCounts(data, n);
    AppendixTurns(data, n);
    AppendixTurns(data, n + 1);
    LastIdle(data, n);
    var seen := Growth(source, staging, more, again);
    StagedComplete(data + more);
    StagedComplete(data + more + again);
    IdleTurns(line, 2, t - 1);
    ResumedPastTheTurn(Is(line), seen[0], seen[1], t);
    TwoCaptures(w, seen);
  }

  /** The first capture's checkpoint is loaded by the second, which loses the only turn. */
  lemma ResumedPastTheTurn(user: Bytes -> bool, first: Observation, second: Observation, t: nat)
    requires !first.forgotten && !first.unsaved && !second.forgotten && first.file.name == second.file.name
    requires Complete(Copy(first).data) && Copy(second).data == Copy(first).data + IDLE
    requires t > 0 && CountLF(Copy(first).data) == t && |Copy(first).data| >= 2
    requires LineStart(Copy(first).data, t - 1, |Copy(first).data| - 2)
    requires UserTurns(user, TextSplit(Copy(first).data), 0) == [UserTurn(t)]
    requires UserTurns(user, TextSplit(Copy(second).data), 0) == [UserTurn(t)]
    requires From(Copy(second).data, |Copy(first).data| - 2) == Idle(2)
             && UserTurns(user, TextSplit(Idle(2)), t - 1) == []
    ensures var w := MarkWorld(user);
            var cache := Saved(first, None, Captured(w, first, None));
            (cache.Some? ==> Formed(cache.value)) && Session(Captured(w, second, cache)) != Reference(w, second)
  {
    hide CountLF, TextSplit, UserTurns, Incremented, FullSession, MarkWorld, Idle, NoBareCR, StagedPrefix;
    var file, fallback := Copy(first), Some(first.file.parent);
    MarkFirst(user, file, fallback);
    assert From(file.data, 0) == file.data;
    var cp := Incremented(MarkWorld(user), file, None, fallback).value.next.value;
    LineStartUnique(file.data, t - 1, cp.turnOffset, |file.data| - 2);
    assert Loadable(cp);
    MarkLost(user, file, Copy(second), cp, Some(second.file.parent));
    MarkFull(user, Copy(second), Some(second.file.parent));
  }

  lemma TwoCaptures(w: World, seen: seq<Observation>)
    requires |seen| == 2
    ensures |Sessions(w, seen)| == 2 && |References(w, seen)| == 2 && References(w, seen)[1] == Reference(w, seen[1])
    ensures Sessions(w, seen)[1] ==
            Session(Captured(w, seen[1], Saved(seen[0], None, Captured(w, seen[0], None))))
  {
    assert seen[..1] == [seen[0]] && [seen[0]][..0] == [];
    assert CacheAfter(w, [seen[0]]) == Saved(seen[0], None, Captured(w, seen[0], None)) by {
      assert CacheAfter(w, []) == None;
    }
    assert |Sessions(w, [seen[0]])| == 1 && |References(w, [seen[0]])| == 1;
  }

  /**
   The exact condition for captures: a source may grow by any clean records, decoded in any way, with both captures
   returning what a full parse returns, if and only if it has no bare CR.
   */
  lemma GrowthCondition(source: Staged, staging: string)
    requires Complete(source.data)
    ensures NoBareCR(source.data) <==>
            forall w, more, again :: CleanRecords(more) && CleanRecords(again) ==>
              CapturesGrowth(w, source, staging, more, again)
  {
    hide NoBareCR, CapturesGrowth;
    if NoBareCR(source.data) {
      forall w, more, again | CleanRecords(more) && CleanRecords(again)
        ensures CapturesGrowth(w, source, staging, more, again)
      {
        CleanGrowth(w, source, staging, more, again);
      }
    } else {
      var w, more, again := GrowthFails(source, staging);
    }
  }
}
