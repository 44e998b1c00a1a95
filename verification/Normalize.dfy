/** normalize_session: parsed turns become redacted events whose identities cite the turn's own id or its first line. */
module Normalize {
  import opened Common
  import opened Revisions
  import opened Codex

  const TOOL_LIMIT: nat := 12000

  function Decimal(n: nat): string {
    (if n < 10 then "" else Decimal(n / 10)) + ["0123456789"[n % 10]]
  }

  predicate Digits(s: string) {
    forall i :: 0 <= i < |s| ==> '0' <= s[i] <= '9'
  }

  /** What a decimal numeral denotes. */
  function Value(s: string): nat
    requires Digits(s)
  {
    if s == "" then 0 else 10 * Value(s[..|s| - 1]) + (s[|s| - 1] as int - '0' as int)
  }

  lemma DigitReads(d: nat)
    requires d < 10
    ensures var c := "0123456789"[d]; '0' <= c <= '9' && c as int - '0' as int == d
  {
  }

  lemma ValueMore(front: string, d: nat)
    requires Digits(front) && d < 10
    ensures var s := front + ["0123456789"[d]]; Digits(s) && Value(s) == 10 * Value(front) + d
  {
    DigitReads(d);
    var s := front + ["0123456789"[d]];
    assert s[..|s| - 1] == front;
  }

  /** The numeral of n denotes n, and has no leading zero. */
  lemma {:induction false} DecimalReads(n: nat)
    ensures Decimal(n) != "" && Digits(Decimal(n)) && Value(Decimal(n)) == n
    ensures Decimal(n)[0] == '0' ==> n == 0
  {
    hide Value;
    DigitReads(n % 10);
    if n < 10 {
      assert Value("") == 0 && Digits("") by {
        EmptyValue();
      }
      ValueMore("", n % 10);
    } else {
      DecimalReads(n / 10);
      ValueMore(Decimal(n / 10), n % 10);
    }
  }

  lemma EmptyValue()
    ensures Digits("") && Value("") == 0
  {
  }

  function RoleOf(kind: string): string {
    if kind == "user_text" then "user"
    else if kind == "assistant_text" then "assistant"
    else if kind == "tool_result" || kind == "tool_use" then "tool"
    else "context"
  }

  function TurnKey(turn: Turn): string {
    if turn.id.Some? && turn.id.value != "" then turn.id.value else Decimal(turn.start)
  }

  /**
   The event of one block: none for empty text, an exception when its timestamp is malformed. A turn without blocks
   would fall back on its texts; no parse yields one (Incremental.EveryTurnHasBlocks).
   */
  function BlockEvent(w: World, turn: Turn, i: nat): Result<seq<Event>>
    requires i < |turn.blocks|
  {
    var block := turn.blocks[i];
    if block.text == "" then Ok([])
    else
      var role := RoleOf(block.kind);
      var redacted := w.redact(block.text);
      var text := if role == "tool" && |redacted| > TOOL_LIMIT then redacted[..TOOL_LIMIT] else redacted;
      var origin := if block.origin.Some? then block.origin.value else if role == "user" then turn.origin else role;
      match w.normalizeTime(if block.timestamp.Some? then block.timestamp.value else turn.timestamp)
      case None => Err
      case Some(time) => Ok([Event(TurnKey(turn) + ":" + Decimal(i), role, text, time, origin, block.kind)])
  }

  /** Events of the first n blocks. */
  function TurnEvents(w: World, turn: Turn, n: nat): Result<seq<Event>>
    requires n <= |turn.blocks|
  {
    if n == 0 then Ok([]) else Join(TurnEvents(w, turn, n - 1), BlockEvent(w, turn, n - 1))
  }

  function SessionEvents(w: World, turns: seq<Turn>): Result<seq<Event>> {
    if turns == [] then Ok([])
    else
      var last := turns[|turns| - 1];
      Join(SessionEvents(w, turns[..|turns| - 1]), TurnEvents(w, last, |last.blocks|))
  }

  lemma {:induction false} SessionEventsConcat(w: World, a: seq<Turn>, b: seq<Turn>)
    ensures SessionEvents(w, a + b) == Join(SessionEvents(w, a), SessionEvents(w, b))
    decreases |b|
  {
    if b == [] {
      assert a + b == a;
      JoinAssoc(SessionEvents(w, a), Ok([]), Ok([]));
    } else {
      var c, last := b[..|b| - 1], b[|b| - 1];
      assert (a + b)[..|a + b| - 1] == a + c;
      SessionEventsConcat(w, a, c);
      JoinAssoc(SessionEvents(w, a), SessionEvents(w, c), TurnEvents(w, last, |last.blocks|));
    }
  }

  /** `value or ""` made into redacted text; anything but a string raises. */
  function Text(w: World, v: Json): Result<string> {
    if !Truthy(v) then Ok(w.redact("")) else if v.Str? then Ok(w.redact(v.s)) else Err
  }

  function Parent(v: Json): Result<Option<string>> {
    match v
    case Null => Ok(None)
    case Str(s) => Ok(Some(s))
    case _ => Err
  }

  function Revise(w: World, parsed: Parsed, events: seq<Event>): Result<SessionRevision> {
    var project, title, parent := Text(w, parsed.project), Text(w, parsed.slug), Parent(parsed.parent);
    if project.Err? || title.Err? || parent.Err? then Err
    else
      var s := SessionRevision(parsed.native, events, "codex", project.value, title.value, parent.value,
                               parsed.isSubagent, "codex-v1");
      if Valid(s) then Ok(s) else Err
  }

  function Normalized(w: World, parsed: Parsed): Result<SessionRevision> {
    var events := SessionEvents(w, parsed.turns);
    if events.Err? then Err else Revise(w, parsed, events.value)
  }

  // ---- what a session states ----

  /**
   An event states one block of a turn: its redacted text, cut to 12000 characters if it is a tool's, under the turn's
   own id or else its first line, and the block's number.
   */
  predicate States(w: World, turn: Turn, i: nat, e: Event)
    requires i < |turn.blocks|
  {
    var block := turn.blocks[i];
    var tool := block.kind == "tool_use" || block.kind == "tool_result";
    && e.id == (if turn.id in {None, Some("")} then Decimal(turn.start) else turn.id.value) + ":" + Decimal(i)
    && e.kind == block.kind
    && e.role in {"user", "assistant", "tool", "context"}
    && (e.role == "user" <==> block.kind == "user_text")
    && (e.role == "assistant" <==> block.kind == "assistant_text")
    && (e.role == "tool" <==> tool)
    && (!tool || |w.redact(block.text)| <= 12000 ==> e.text == w.redact(block.text))
    && (tool && |w.redact(block.text)| > 12000 ==> e.text == w.redact(block.text)[..12000])
    && (block.timestamp.Some? ==> w.normalizeTime(block.timestamp.value) == Some(e.timestamp))
    && (block.timestamp.None? ==> w.normalizeTime(turn.timestamp) == Some(e.timestamp))
    && (block.origin.Some? ==> e.origin == block.origin.value)
    && (block.origin.None? ==> e.origin == if block.kind == "user_text" then turn.origin else e.role)
  }

  /** A block no event can state: it has a text, and no valid time. */
  predicate Untimed(w: World, turn: Turn, i: nat)
    requires i < |turn.blocks|
  {
    var block := turn.blocks[i];
    block.text != "" && w.normalizeTime(if block.timestamp.None? then turn.timestamp else block.timestamp.value) == None
  }

  /** Block b of turn u comes before block n of turn t. */
  predicate Earlier(u: nat, b: nat, t: nat, n: nat) {
    u < t || (u == t && b < n)
  }

  predicate HasText(turns: seq<Turn>, t: nat, b: nat) {
    t < |turns| && b < |turns[t].blocks| && turns[t].blocks[b].text != ""
  }

  /** Positions of exactly the blocks with text, turn by turn and block by block. */
  ghost predicate Texts(turns: seq<Turn>, at: seq<(nat, nat)>) {
    && (forall k :: 0 <= k < |at| ==> HasText(turns, at[k].0, at[k].1))
    && (forall j, k :: 0 <= j < k < |at| ==> Earlier(at[j].0, at[j].1, at[k].0, at[k].1))
    && (forall t: nat, b: nat :: HasText(turns, t, b) ==> (t, b) in at)
  }

  ghost predicate StateAll(w: World, turns: seq<Turn>, at: seq<(nat, nat)>, events: seq<Event>)
    requires Texts(turns, at)
  {
    |at| == |events| && forall k :: 0 <= k < |at| ==> States(w, turns[at[k].0], at[k].1, events[k])
  }

  /** The events state exactly the blocks with text, in order. */
  ghost predicate Stated(w: World, turns: seq<Turn>, events: seq<Event>) {
    exists at :: Texts(turns, at) && StateAll(w, turns, at, events)
  }

  lemma BlockStates(w: World, turn: Turn, i: nat)
    requires i < |turn.blocks|
    ensures var r := BlockEvent(w, turn, i);
            && (r.Err? <==> Untimed(w, turn, i))
            && (r.Ok? ==> |r.value| == if turn.blocks[i].text == "" then 0 else 1)
            && (r.Ok? && r.value != [] ==> States(w, turn, i, r.value[0]))
  {
  }

  /** Positions of exactly the blocks with text before block n of turn t. */
  ghost predicate TextsTo(turns: seq<Turn>, t: nat, n: nat, at: seq<(nat, nat)>) {
    && (forall k :: 0 <= k < |at| ==> HasText(turns, at[k].0, at[k].1) && Earlier(at[k].0, at[k].1, t, n))
    && (forall j, k :: 0 <= j < k < |at| ==> Earlier(at[j].0, at[j].1, at[k].0, at[k].1))
    && (forall u: nat, b: nat :: HasText(turns, u, b) && Earlier(u, b, t, n) ==> (u, b) in at)
  }

  ghost predicate StateTo(w: World, turns: seq<Turn>, t: nat, n: nat, at: seq<(nat, nat)>, events: seq<Event>) {
    && TextsTo(turns, t, n, at) && |at| == |events|
    && forall k :: 0 <= k < |at| ==> States(w, turns[at[k].0], at[k].1, events[k])
  }

  lemma TextsMore(turns: seq<Turn>, t: nat, n: nat, at: seq<(nat, nat)>)
    requires TextsTo(turns, t, n, at)
    ensures TextsTo(turns, t, n + 1, if HasText(turns, t, n) then at + [(t, n)] else at)
  {
    var more := if HasText(turns, t, n) then at + [(t, n)] else at;
    forall u: nat, b: nat | HasText(turns, u, b) && Earlier(u, b, t, n + 1) ensures (u, b) in more {
      if u == t && b == n {
        assert more[|at|] == (t, n);
      } else {
        assert (u, b) in at;
      }
    }
  }

  lemma StateOne(w: World, turns: seq<Turn>, t: nat, n: nat, at: seq<(nat, nat)>, events: seq<Event>)
    returns (more: seq<(nat, nat)>)
    requires t < |turns| && n < |turns[t].blocks| && StateTo(w, turns, t, n, at, events)
    requires BlockEvent(w, turns[t], n).Ok?
    ensures StateTo(w, turns, t, n + 1, more, events + BlockEvent(w, turns[t], n).value)
  {
    hide States, BlockEvent, Earlier;
    BlockStates(w, turns[t], n);
    TextsMore(turns, t, n, at);
    more := if HasText(turns, t, n) then at + [(t, n)] else at;
  }

  lemma {:induction false} StateTurn(w: World, turns: seq<Turn>, t: nat, n: nat, at: seq<(nat, nat)>,
                                     events: seq<Event>)
    returns (more: seq<(nat, nat)>)
    requires t < |turns| && n <= |turns[t].blocks| && StateTo(w, turns, t, 0, at, events)
    requires TurnEvents(w, turns[t], n).Ok?
    ensures StateTo(w, turns, t, n, more, events + TurnEvents(w, turns[t], n).value)
  {
    hide StateTo, BlockEvent;
    if n == 0 {
      more := at;
      assert events + [] == events;
    } else {
      var middle := StateTurn(w, turns, t, n - 1, at, events);
      var front, last := TurnEvents(w, turns[t], n - 1).value, BlockEvent(w, turns[t], n - 1).value;
      more := StateOne(w, turns, t, n - 1, middle, events + front);
      assert (events + front) + last == events + (front + last);
    }
  }

  lemma NextTurn(w: World, turns: seq<Turn>, t: nat, at: seq<(nat, nat)>, events: seq<Event>)
    requires t < |turns| && StateTo(w, turns, t, |turns[t].blocks|, at, events)
    ensures StateTo(w, turns, t + 1, 0, at, events)
  {
  }

  lemma {:induction false} StateTurns(w: World, turns: seq<Turn>, t: nat) returns (at: seq<(nat, nat)>)
    requires t <= |turns| && SessionEvents(w, turns[..t]).Ok?
    ensures StateTo(w, turns, t, 0, at, SessionEvents(w, turns[..t]).value)
  {
    hide States;
    if t == 0 {
      at := [];
    } else {
      assert turns[..t][..t - 1] == turns[..t - 1];
      var before := StateTurns(w, turns, t - 1);
      at := StateTurn(w, turns, t - 1, |turns[t - 1].blocks|, before, SessionEvents(w, turns[..t - 1]).value);
      NextTurn(w, turns, t - 1, at, SessionEvents(w, turns[..t]).value);
    }
  }

  /** Events state exactly the turns' blocks with text, in order; there are none only if such a block has no time. */
  lemma SessionStates(w: World, turns: seq<Turn>)
    ensures SessionEvents(w, turns).Ok? ==> Stated(w, turns, SessionEvents(w, turns).value)
    ensures SessionEvents(w, turns).Err? <==>
              exists t: nat, i: nat :: t < |turns| && i < |turns[t].blocks| && Untimed(w, turns[t], i)
  {
    hide States, Untimed;
    assert turns[..|turns|] == turns;
    if SessionEvents(w, turns).Ok? {
      var at := StateTurns(w, turns, |turns|);
      assert Texts(turns, at) && StateAll(w, turns, at, SessionEvents(w, turns).value);
      forall t: nat, i: nat | t < |turns| && i < |turns[t].blocks| ensures !Untimed(w, turns[t], i) {
        if Untimed(w, turns[t], i) {
          BlockStates(w, turns[t], i);
          RaisesLater(w, turns[t], i + 1, |turns[t].blocks|);
          RaisesSession(w, turns, t);
        }
      }
    } else {
      var t, i := WhereRaised(w, turns);
    }
  }

  lemma {:induction false} WhereRaised(w: World, turns: seq<Turn>) returns (t: nat, i: nat)
    requires SessionEvents(w, turns).Err?
    ensures t < |turns| && i < |turns[t].blocks| && Untimed(w, turns[t], i)
  {
    var n := |turns| - 1;
    if SessionEvents(w, turns[..n]).Err? {
      t, i := WhereRaised(w, turns[..n]);
    } else {
      t := n;
      i := WhereRaisedIn(w, turns[n], |turns[n].blocks|);
    }
  }

  lemma {:induction false} WhereRaisedIn(w: World, turn: Turn, n: nat) returns (i: nat)
    requires n <= |turn.blocks| && TurnEvents(w, turn, n).Err?
    ensures i < n && Untimed(w, turn, i)
  {
    BlockStates(w, turn, n - 1);
    if TurnEvents(w, turn, n - 1).Err? {
      i := WhereRaisedIn(w, turn, n - 1);
    } else {
      i := n - 1;
    }
  }

  /** A string, or nothing, which counts as the empty string. */
  predicate Textual(v: Json) {
    v.Str? || v in {Null, Bool(false), Num(0.0), Arr([]), Obj(map[])}
  }

  /** A session states a parse: its turns' blocks as events, and its names, the project and title redacted. */
  ghost predicate SessionStated(w: World, parsed: Parsed, s: SessionRevision) {
    && Stated(w, parsed.turns, s.events) && UniqueIds(s.events)
    && s.sessionId == parsed.native && s.sessionId != "" && s.source == "codex" && s.parserVersion == "codex-v1"
    && s.isSubagent == parsed.isSubagent
    && Textual(parsed.project) && s.project == w.redact(if parsed.project.Str? then parsed.project.s else "")
    && Textual(parsed.slug) && s.title == w.redact(if parsed.slug.Str? then parsed.slug.s else "")
    && parsed.parent == (if s.parent.Some? then Str(s.parent.value) else Null)
  }

  /** Why a parse cannot be stated. */
  ghost predicate Unstatable(w: World, parsed: Parsed) {
    || (exists t: nat, i: nat :: t < |parsed.turns| && i < |parsed.turns[t].blocks| && Untimed(w, parsed.turns[t], i))
    || (exists events :: Stated(w, parsed.turns, events) && !UniqueIds(events))
    || parsed.native == "" || !Textual(parsed.project) || !Textual(parsed.slug)
    || !(parsed.parent.Null? || parsed.parent.Str?)
  }

  /** Normalization states the parse, or rejects it for one of these reasons. */
  lemma NormalizedStates(w: World, parsed: Parsed)
    ensures var r := Normalized(w, parsed);
            if r.Ok? then SessionStated(w, parsed, r.value) else Unstatable(w, parsed)
  {
    hide Untimed, Stated, SessionEvents;
    SessionStates(w, parsed.turns);
  }

  method NormalizeSession(w: World, parsed: Parsed) returns (r: Result<SessionRevision>)
    ensures r == Normalized(w, parsed)
    ensures r.Ok? ==> SessionStated(w, parsed, r.value)
    ensures r.Err? ==> Unstatable(w, parsed)
  {
    NormalizedStates(w, parsed);
    hide SessionStated, Unstatable;
    var events: seq<Event> := [];
    for t := 0 to |parsed.turns|
      invariant SessionEvents(w, parsed.turns[..t]) == Ok(events)
    {
      var turn := parsed.turns[t];
      assert parsed.turns[..t + 1][..t] == parsed.turns[..t];
      var more := NormalizeTurn(w, turn);
      if more.Err? {
        RaisesSession(w, parsed.turns, t);
        return Err;
      }
      events := events + more.value;
    }
    assert parsed.turns[..|parsed.turns|] == parsed.turns;
    return Revise(w, parsed, events);
  }

  /** The inner loop of normalize_session. */
  method NormalizeTurn(w: World, turn: Turn) returns (r: Result<seq<Event>>)
    ensures r == TurnEvents(w, turn, |turn.blocks|)
  {
    var events: seq<Event> := [];
    for b := 0 to |turn.blocks|
      invariant TurnEvents(w, turn, b) == Ok(events)
    {
      var event := BlockEvent(w, turn, b);
      if event.Err? {
        RaisesLater(w, turn, b + 1, |turn.blocks|);
        return Err;
      }
      events := events + event.value;
    }
    return Ok(events);
  }

  lemma SessionEventsOne(w: World, turn: Turn)
    ensures SessionEvents(w, [turn]) == TurnEvents(w, turn, |turn.blocks|)
  {
    assert [turn][..0] == [];
    var e := TurnEvents(w, turn, |turn.blocks|);
    JoinAssoc(e, e, e);
  }

  lemma {:induction false} RaisesLater(w: World, turn: Turn, i: nat, n: nat)
    requires i <= n <= |turn.blocks| && TurnEvents(w, turn, i).Err?
    ensures TurnEvents(w, turn, n).Err?
  {
    if i < n {
      RaisesLater(w, turn, i, n - 1);
    }
  }

  lemma RaisesSession(w: World, turns: seq<Turn>, t: nat)
    requires t < |turns| && TurnEvents(w, turns[t], |turns[t].blocks|).Err?
    ensures SessionEvents(w, turns).Err?
  {
    assert turns == turns[..t] + ([turns[t]] + turns[t + 1..]);
    SessionEventsConcat(w, [turns[t]], turns[t + 1..]);
    SessionEventsConcat(w, turns[..t], [turns[t]] + turns[t + 1..]);
    SessionEventsOne(w, turns[t]);
  }
}
