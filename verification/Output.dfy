/**
 The output budget over a whole response. The serialized size is any function of the response: it need not fall when the
 response gets smaller, so termination rests on the response's structure.
 */
module Output {
  import opened Common

  const MIN_BUDGET: nat := 1024
  const MAX_BUDGET: nat := 65536
  const KEPT_CHARS: nat := 128
  const ELLIPSIS: char := '\U{2026}'

  /** `rest` stands for the fields the budgeter never touches. */
  datatype Event = Event(id: string, text: string, cut: bool, rest: string)
  datatype Item = Item(target: Option<string>, excerpt: string, events: seq<Event>, cut: bool, rest: string)
  datatype Response = Response(
    results: seq<Item>,
    timings: bool,
    truncated: bool,
    omittedResults: nat,
    omittedEvents: nat,
    rest: string)

  type Size = Response -> nat

  // ---- events of one result ----

  predicate IsCited(e: Event, target: Option<string>) {
    target == Some(e.id)
  }

  function Cited(events: seq<Event>, target: Option<string>): seq<Event> {
    if events == [] then []
    else
      var last := events[|events| - 1];
      Cited(events[..|events| - 1], target) + if IsCited(last, target) then [last] else []
  }

  function Neighbors(events: seq<Event>, target: Option<string>): seq<Event> {
    if events == [] then []
    else
      var last := events[|events| - 1];
      Neighbors(events[..|events| - 1], target) + if IsCited(last, target) then [] else [last]
  }

  lemma {:induction false} SplitConcat(a: seq<Event>, b: seq<Event>, target: Option<string>)
    ensures Cited(a + b, target) == Cited(a, target) + Cited(b, target)
    ensures Neighbors(a + b, target) == Neighbors(a, target) + Neighbors(b, target)
  {
    if b == [] {
      assert a + b == a;
    } else {
      assert (a + b)[..|a + b| - 1] == a + b[..|b| - 1];
      SplitConcat(a, b[..|b| - 1], target);
    }
  }

  /** list.remove: the first element equal to the given one. */
  function IndexOf(events: seq<Event>, e: Event): (i: nat)
    requires e in events
    ensures i < |events| && events[i] == e
  {
    if events[0] == e then 0 else IndexOf(events[1..], e) + 1
  }

  function Without(events: seq<Event>, e: Event): seq<Event>
    requires e in events
  {
    var i := IndexOf(events, e);
    events[..i] + events[i + 1..]
  }

  lemma WithoutNeighbor(events: seq<Event>, e: Event, target: Option<string>)
    requires e in events && !IsCited(e, target)
    ensures Cited(Without(events, e), target) == Cited(events, target)
    ensures multiset(Neighbors(events, target)) == multiset(Neighbors(Without(events, e), target)) + multiset{e}
    ensures |Neighbors(events, target)| == |Neighbors(Without(events, e), target)| + 1
  {
    hide Cited, Neighbors;
    var i := IndexOf(events, e);
    var a, b := events[..i], events[i + 1..];
    assert events == a + [e] + b;
    OneNeighbor(e, target);
    SplitConcat(a + [e], b, target);
    SplitConcat(a, [e], target);
    SplitConcat(a, b, target);
    assert Cited(a, target) + [] == Cited(a, target);
    Bag(Neighbors(a, target), e, Neighbors(b, target));
  }

  lemma OneNeighbor(e: Event, target: Option<string>)
    requires !IsCited(e, target)
    ensures Cited([e], target) == [] && Neighbors([e], target) == [e]
  {
    assert [e][..0] == [];
  }

  lemma Bag<T>(a: seq<T>, e: T, b: seq<T>)
    ensures multiset(a + [e] + b) == multiset(a + b) + multiset{e}
  {
  }

  lemma {:induction false} NeighborIn(events: seq<Event>, target: Option<string>)
    ensures Neighbors(events, target) == [] <==> forall j :: 0 <= j < |events| ==> IsCited(events[j], target)
    ensures Neighbors(events, target) == [] ==> Cited(events, target) == events
  {
    if events != [] {
      NeighborIn(events[..|events| - 1], target);
      assert events == events[..|events| - 1] + [events[|events| - 1]];
    }
  }

  // ---- shortening ----

  /** Either untouched, or at least 128 characters of the original and one ellipsis. */
  predicate Shortens(original: string, now: string) {
    || now == original
    || (|now| > KEPT_CHARS && |now| <= |original| && now == original[..|now| - 1] + [ELLIPSIS])
  }

  predicate TooLong(text: string) {
    |text| > KEPT_CHARS + 1
  }

  function Shorten(text: string): string
    requires TooLong(text)
  {
    text[..Max(KEPT_CHARS, |text| / 2)] + [ELLIPSIS]
  }

  /** Shortening again cuts the previous ellipsis off, so one ellipsis follows a prefix of the original. */
  lemma ShortenAgain(original: string, now: string)
    requires Shortens(original, now) && TooLong(now)
    ensures Shortens(original, Shorten(now)) && |Shorten(now)| < |now|
  {
    var n := Max(KEPT_CHARS, |now| / 2);
    assert now[..n] == original[..n];
  }

  predicate ShortensEvent(original: Event, now: Event) {
    now.id == original.id && now.rest == original.rest && Shortens(original.text, now.text)
    && (now.cut == original.cut || (now.cut && now.text != original.text))
  }

  predicate ShortensAll(original: seq<Event>, now: seq<Event>) {
    |now| == |original| && forall j :: 0 <= j < |now| ==> ShortensEvent(original[j], now[j])
  }

  /** A surviving result: same citation and fields, all cited events in order, and only original neighbours. */
  predicate Keeps(original: Item, now: Item) {
    && now.target == original.target && now.rest == original.rest && Shortens(original.excerpt, now.excerpt)
    && ShortensAll(Cited(original.events, original.target), Cited(now.events, now.target))
    && multiset(Neighbors(now.events, now.target)) <= multiset(Neighbors(original.events, original.target))
  }

  // ---- measures ----

  function EventCount(results: seq<Item>): nat {
    if results == [] then 0 else EventCount(results[..|results| - 1]) + |results[|results| - 1].events|
  }

  function NeighborCount(results: seq<Item>): nat {
    if results == [] then 0
    else
      var last := results[|results| - 1];
      NeighborCount(results[..|results| - 1]) + |Neighbors(last.events, last.target)|
  }

  function EventsLength(events: seq<Event>): nat {
    if events == [] then 0 else EventsLength(events[..|events| - 1]) + |events[|events| - 1].text|
  }

  function TextLength(results: seq<Item>): nat {
    if results == [] then 0
    else
      var last := results[|results| - 1];
      TextLength(results[..|results| - 1]) + |last.excerpt| + EventsLength(last.events)
  }

  lemma {:induction false} EventsLengthUpdate(events: seq<Event>, j: nat, e: Event)
    requires j < |events|
    ensures EventsLength(events[j := e]) + |events[j].text| == EventsLength(events) + |e.text|
  {
    var n := |events| - 1;
    if j < n {
      assert events[j := e][..n] == events[..n][j := e];
      EventsLengthUpdate(events[..n], j, e);
    } else {
      assert events[j := e][..n] == events[..n];
    }
  }

  /** Replacing one result changes each measure by what that result contributes. */
  lemma {:induction false} MeasureUpdate(results: seq<Item>, i: nat, item: Item)
    requires i < |results|
    ensures EventCount(results[i := item]) + |results[i].events| == EventCount(results) + |item.events|
    ensures NeighborCount(results[i := item]) + |Neighbors(results[i].events, results[i].target)| ==
            NeighborCount(results) + |Neighbors(item.events, item.target)|
    ensures TextLength(results[i := item]) + |results[i].excerpt| + EventsLength(results[i].events) ==
            TextLength(results) + |item.excerpt| + EventsLength(item.events)
  {
    var n := |results| - 1;
    if i < n {
      assert results[i := item][..n] == results[..n][i := item];
      MeasureUpdate(results[..n], i, item);
    } else {
      assert results[i := item][..n] == results[..n];
    }
  }

  predicate NoNeighbors(results: seq<Item>) {
    forall i, j :: 0 <= i < |results| && 0 <= j < |results[i].events| ==>
           IsCited(results[i].events[j], results[i].target)
  }

  lemma {:induction false} NoNeighborsCount(results: seq<Item>)
    ensures NoNeighbors(results) <==> NeighborCount(results) == 0
  {
    hide NoNeighbors, Neighbors;
    if results == [] {
      NoNeighborsEmpty();
    } else {
      var front, last := results[..|results| - 1], results[|results| - 1];
      NoNeighborsCount(front);
      NeighborIn(last.events, last.target);
      assert results == front + [last];
      NoNeighborsAppend(front, last);
    }
  }

  lemma NoNeighborsEmpty()
    ensures NoNeighbors([])
  {
  }

  lemma NoNeighborsAppend(front: seq<Item>, last: Item)
    ensures NoNeighbors(front + [last]) <==>
              NoNeighbors(front) && forall j :: 0 <= j < |last.events| ==> IsCited(last.events[j], last.target)
  {
    var all := front + [last];
    assert all[|front|] == last;
    if NoNeighbors(all) {
      forall i, j | 0 <= i < |front| && 0 <= j < |front[i].events|
        ensures IsCited(front[i].events[j], front[i].target)
      {
        assert IsCited(all[i].events[j], all[i].target);
      }
      forall j | 0 <= j < |last.events| ensures IsCited(last.events[j], last.target) {
        assert IsCited(all[|front|].events[j], all[|front|].target);
      }
    }
  }

  // ---- the loop's three moves ----

  /** A text of the response that can be shortened. */
  datatype Spot = Excerpt(i: nat) | Text(i: nat, j: nat)

  predicate IsSpot(results: seq<Item>, s: Spot) {
    s.i < |results| && (s.Text? ==> s.j < |results[s.i].events|)
  }

  function TextAt(results: seq<Item>, s: Spot): string
    requires IsSpot(results, s)
  {
    if s.Excerpt? then results[s.i].excerpt else results[s.i].events[s.j].text
  }

  ghost predicate AllShort(results: seq<Item>) {
    forall s :: IsSpot(results, s) ==> !TooLong(TextAt(results, s))
  }

  function CutItem(item: Item, s: Spot): Item
    requires if s.Excerpt? then TooLong(item.excerpt) else s.j < |item.events| && TooLong(item.events[s.j].text)
  {
    match s
    case Excerpt(_) => item.(excerpt := Shorten(item.excerpt), cut := true)
    case Text(_, j) => item.(events := item.events[j := CutEvent(item.events[j])])
  }

  /** What a shortened response still owes to the original one. */
  ghost predicate Owes(original: Response, now: Response) {
    && |now.results| <= |original.results| && now.omittedResults == |original.results| - |now.results|
    && (forall i :: 0 <= i < |now.results| ==> Keeps(original.results[i], now.results[i]))
    && now.omittedEvents + NeighborCount(now.results) == NeighborCount(original.results)
    && now.rest == original.rest
    && (!now.truncated ==> now.results == original.results) && (now.truncated ==> original.results != [])
    && (NeighborCount(now.results) > 0 ==> OnlyNeighborsGone(original.results, now.results))
    && (|now.results| < |original.results| ==> AllShort(now.results))
  }

  /** Neighbours go before any text is shortened or any result is lost. */
  predicate OnlyNeighborsGone(original: seq<Item>, now: seq<Item>) {
    |now| == |original| && forall i :: 0 <= i < |now| ==>
      now[i].excerpt == original[i].excerpt && now[i].cut == original[i].cut
      && Cited(now[i].events, now[i].target) == Cited(original[i].events, original[i].target)
  }

  function DropEvent(r: Response, i: nat, e: Event): Response
    requires i < |r.results| && e in r.results[i].events
  {
    r.(results := r.results[i := r.results[i].(events := Without(r.results[i].events, e))],
       omittedEvents := r.omittedEvents + 1, truncated := true)
  }

  lemma DropKeeps(original: Item, item: Item, e: Event)
    requires Keeps(original, item) && e in item.events && !IsCited(e, item.target)
    ensures Keeps(original, item.(events := Without(item.events, e)))
  {
    hide Cited, Neighbors, ShortensAll, Shortens, Without;
    WithoutNeighbor(item.events, e, item.target);
  }

  lemma DropOwes(original: Response, now: Response, i: nat, e: Event)
    requires Owes(original, now) && i < |now.results| && e in now.results[i].events
             && !IsCited(e, now.results[i].target)
    ensures Owes(original, DropEvent(now, i, e))
    ensures EventCount(DropEvent(now, i, e).results) < EventCount(now.results)
  {
    hide Cited, Neighbors, Keeps, Without, AllShort, EventCount, NeighborCount;
    var item := now.results[i];
    var less := item.(events := Without(item.events, e));
    WithoutNeighbor(item.events, e, item.target);
    MeasureUpdate(now.results, i, less);
    DropKeeps(original.results[i], item, e);
    WithoutShorter(item.events, e);
  }

  lemma WithoutShorter(events: seq<Event>, e: Event)
    requires e in events
    ensures |Without(events, e)| + 1 == |events|
  {
  }

  function CutText(r: Response, s: Spot): Response
    requires IsSpot(r.results, s) && TooLong(TextAt(r.results, s))
  {
    r.(results := r.results[s.i := CutItem(r.results[s.i], s)], truncated := true)
  }

  lemma CutExcerptKeeps(original: Item, item: Item)
    requires Keeps(original, item) && TooLong(item.excerpt)
    ensures Keeps(original, item.(excerpt := Shorten(item.excerpt), cut := true))
            && |Shorten(item.excerpt)| < |item.excerpt|
  {
    hide Cited, Neighbors, ShortensAll, Shortens, Shorten, TooLong;
    ShortenAgain(original.excerpt, item.excerpt);
  }

  function CutEvent(e: Event): Event
    requires TooLong(e.text)
  {
    e.(text := Shorten(e.text), cut := true)
  }

  lemma CutOneOfAll(original: seq<Event>, now: seq<Event>, j: nat)
    requires ShortensAll(original, now) && j < |now| && TooLong(now[j].text)
    ensures ShortensAll(original, now[j := CutEvent(now[j])])
  {
    hide Shortens, Shorten, TooLong;
    ShortenAgain(original[j].text, now[j].text);
    assert ShortensEvent(original[j], now[j]);
    ShortenedDiffers(original[j].text, now[j].text);
    forall k | 0 <= k < |now| ensures ShortensEvent(original[k], now[j := CutEvent(now[j])][k]) {
      assert ShortensEvent(original[k], now[k]);
    }
  }

  lemma ShortenedDiffers(original: string, now: string)
    requires Shortens(original, now) && TooLong(now)
    ensures Shorten(now) != original
  {
  }

  lemma CutTextKeeps(original: Item, item: Item, j: nat)
    requires Keeps(original, item) && Neighbors(item.events, item.target) == []
    requires j < |item.events| && TooLong(item.events[j].text)
    ensures var events := item.events[j := CutEvent(item.events[j])];
            && Keeps(original, item.(events := events)) && Neighbors(events, item.target) == []
            && EventsLength(events) < EventsLength(item.events)
  {
    hide Cited, Neighbors, ShortensAll, Shortens, Shorten, EventsLength, TooLong;
    var events := item.events[j := CutEvent(item.events[j])];
    NeighborIn(item.events, item.target);
    CutOneOfAll(Cited(original.events, original.target), item.events, j);
    forall k | 0 <= k < |events| ensures IsCited(events[k], item.target) {
      assert IsCited(item.events[k], item.target);
    }
    NeighborIn(events, item.target);
    EventsLengthUpdate(item.events, j, events[j]);
    ShortenAgain(item.events[j].text, item.events[j].text);
  }

  lemma CutKeeps(original: Item, item: Item, s: Spot)
    requires Keeps(original, item) && Neighbors(item.events, item.target) == []
    requires if s.Excerpt? then TooLong(item.excerpt) else s.j < |item.events| && TooLong(item.events[s.j].text)
    ensures Keeps(original, CutItem(item, s))
    ensures Neighbors(CutItem(item, s).events, item.target) == []
    ensures |CutItem(item, s).events| == |item.events| && CutItem(item, s).target == item.target
    ensures |CutItem(item, s).excerpt| + EventsLength(CutItem(item, s).events)
            < |item.excerpt| + EventsLength(item.events)
  {
    hide Keeps, Neighbors, EventsLength, Shorten, TooLong;
    match s {
      case Excerpt(_) => CutExcerptKeeps(original, item);
      case Text(_, j) => CutTextKeeps(original, item, j);
    }
  }

  lemma CutOwes(original: Response, now: Response, s: Spot)
    requires Owes(original, now) && NeighborCount(now.results) == 0
    requires IsSpot(now.results, s) && TooLong(TextAt(now.results, s))
    ensures Owes(original, CutText(now, s))
    ensures EventCount(CutText(now, s).results) == EventCount(now.results)
    ensures TextLength(CutText(now, s).results) < TextLength(now.results)
  {
    hide Cited, Neighbors, Keeps, Shorten, EventsLength, TooLong, CutItem;
    var item := now.results[s.i];
    NoNeighborsCount(now.results);
    NeighborIn(item.events, item.target);
    assert forall j :: 0 <= j < |item.events| ==> IsCited(now.results[s.i].events[j], item.target);
    CutKeeps(original.results[s.i], item, s);
    MeasureUpdate(now.results, s.i, CutItem(item, s));
  }

  function Pop(r: Response): Response
    requires r.results != []
  {
    r.(results := r.results[..|r.results| - 1], omittedResults := r.omittedResults + 1, truncated := true)
  }

  lemma PopOwes(original: Response, now: Response)
    requires Owes(original, now) && now.results != [] && NeighborCount(now.results) == 0 && AllShort(now.results)
    ensures Owes(original, Pop(now))
  {
    hide Keeps, TooLong;
    forall s | IsSpot(Pop(now).results, s) ensures !TooLong(TextAt(Pop(now).results, s)) {
      assert IsSpot(now.results, s) && TextAt(now.results, s) == TextAt(Pop(now).results, s);
    }
  }

  // ---- finding the next move ----

  /** The last neighbour of the last result that has one. */
  method FindNeighbor(results: seq<Item>) returns (found: Option<(nat, nat)>)
    ensures found.None? ==> NoNeighbors(results)
    ensures found.Some? ==>
              var (i, j) := found.value;
              i < |results| && j < |results[i].events| && !IsCited(results[i].events[j], results[i].target)
              && (forall k :: j < k < |results[i].events| ==> IsCited(results[i].events[k], results[i].target))
              && NoNeighbors(results[i + 1..])
  {
    var i: nat := |results|;
    while i > 0
      invariant i <= |results| && NoNeighbors(results[i..])
    {
      i := i - 1;
      var events, target := results[i].events, results[i].target;
      var j: nat := |events|;
      while j > 0
        invariant j <= |events| && forall k :: j <= k < |events| ==> IsCited(events[k], target)
      {
        j := j - 1;
        if !IsCited(events[j], target) {
          return Some((i, j));
        }
      }
      NoNeighborsFrom(results, i);
    }
    assert results[0..] == results;
    return None;
  }

  lemma NoNeighborsFrom(results: seq<Item>, i: nat)
    requires i < |results| && NoNeighbors(results[i + 1..])
    requires forall k :: 0 <= k < |results[i].events| ==> IsCited(results[i].events[k], results[i].target)
    ensures NoNeighbors(results[i..])
  {
    forall k, j | 0 <= k < |results[i..]| && 0 <= j < |results[i..][k].events|
      ensures IsCited(results[i..][k].events[j], results[i..][k].target)
    {
      assert k > 0 ==> results[i..][k] == results[i + 1..][k - 1];
    }
  }

  /** Spots before event j of result i, the excerpt of a result coming before its events. */
  predicate Passed(s: Spot, i: nat, j: nat) {
    s.i < i || (s.i == i && (s.Excerpt? || s.j < j))
  }

  /** The longest text among the passed spots that are too long. */
  ghost predicate IsLongest(results: seq<Item>, best: Option<Spot>, i: nat, j: nat) {
    && (best.Some? ==> IsSpot(results, best.value) && TooLong(TextAt(results, best.value)))
    && forall s :: IsSpot(results, s) && Passed(s, i, j) && TooLong(TextAt(results, s)) ==>
         best.Some? && |TextAt(results, s)| <= |TextAt(results, best.value)|
         && (Before(s, best.value) ==> |TextAt(results, s)| < |TextAt(results, best.value)|)
  }

  /** max(candidates): the longest text that can still be shortened. */
  method Longest(results: seq<Item>) returns (best: Option<Spot>)
    ensures best.None? ==> AllShort(results)
    ensures best.Some? ==> IsSpot(results, best.value) && TooLong(TextAt(results, best.value))
    ensures forall s :: best.Some? && IsSpot(results, s) ==> |TextAt(results, s)| <= |TextAt(results, best.value)|
    ensures forall s :: best.Some? && IsSpot(results, s) && Before(s, best.value) ==>
              |TextAt(results, s)| < |TextAt(results, best.value)|
  {
    best := None;
    for i := 0 to |results|
      invariant i > 0 ==> IsLongest(results, best, i - 1, |results[i - 1].events|)
      invariant best.Some? ==> best.value.i < i
      invariant i == 0 ==> best == None
    {
      best := Longer(results, best, Excerpt(i));
      for j := 0 to |results[i].events|
        invariant IsLongest(results, best, i, j)
        invariant best.Some? ==> Passed(best.value, i, j)
      {
        best := Longer(results, best, Text(i, j));
      }
    }
    if |results| > 0 {
      assert forall s :: IsSpot(results, s) ==> Passed(s, |results| - 1, |results[|results| - 1].events|);
    }
  }

  method Longer(results: seq<Item>, best: Option<Spot>, s: Spot) returns (r: Option<Spot>)
    requires IsSpot(results, s) && (best.Some? ==> IsSpot(results, best.value) && TooLong(TextAt(results, best.value)))
    ensures r == best || r == Some(s)
    ensures r.Some? ==> IsSpot(results, r.value) && TooLong(TextAt(results, r.value))
    ensures best.Some? ==> r.Some? && |TextAt(results, best.value)| <= |TextAt(results, r.value)|
    ensures TooLong(TextAt(results, s)) ==> r.Some? && |TextAt(results, s)| <= |TextAt(results, r.value)|
    ensures best.Some? && r != best ==> |TextAt(results, best.value)| < |TextAt(results, s)|
  {
    if TooLong(TextAt(results, s)) && (best.None? || |TextAt(results, s)| > |TextAt(results, best.value)|) {
      return Some(s);
    }
    return best;
  }

  // ---- one turn, told outright ----

  /** An event other than the one its result cites. */
  predicate Neighbor(results: seq<Item>, i: nat, j: nat) {
    i < |results| && j < |results[i].events| && results[i].target != Some(results[i].events[j].id)
  }

  /** The first occurrence of an event is gone. */
  predicate Removed(before: seq<Event>, after: seq<Event>, e: Event) {
    exists k :: 0 <= k < |before| && before[k] == e && (forall l :: 0 <= l < k ==> before[l] != e)
                && after == before[..k] + before[k + 1..]
  }

  /** The last neighbour of the last result that has one is dropped and counted. */
  ghost predicate Dropped(now: Response, next: Response, i: nat, j: nat) {
    && Neighbor(now.results, i, j)
    && (forall k: nat, l: nat :: Neighbor(now.results, k, l) ==> k < i || (k == i && l <= j))
    && exists events :: Removed(now.results[i].events, events, now.results[i].events[j])
         && next == now.(results := now.results[i := now.results[i].(events := events)],
                         omittedEvents := now.omittedEvents + 1, truncated := true)
  }

  /** A text cut to half its length, but to no fewer than 128 characters, and an ellipsis. */
  predicate Halved(text: string, short: string) {
    |text| > 129 && short == text[..if |text| < 256 then 128 else |text| / 2] + ['\U{2026}']
  }

  /** Spot s comes before spot t: by result, the excerpt before the events. */
  predicate Before(s: Spot, t: Spot) {
    s.i < t.i || (s.i == t.i && t.Text? && (s.Excerpt? || s.j < t.j))
  }

  /** The first of the longest texts is halved and marked. */
  ghost predicate HalvedAt(now: Response, next: Response, s: Spot) {
    && IsSpot(now.results, s)
    && (forall t :: IsSpot(now.results, t) ==> |TextAt(now.results, t)| <= |TextAt(now.results, s)|)
    && (forall t :: IsSpot(now.results, t) && Before(t, s) ==> |TextAt(now.results, t)| < |TextAt(now.results, s)|)
    && exists short :: Halved(TextAt(now.results, s), short)
         && var item := now.results[s.i];
            var cut := if s.Excerpt? then item.(excerpt := short, cut := true)
                       else item.(events := item.events[s.j := item.events[s.j].(text := short, cut := true)]);
            next == now.(results := now.results[s.i := cut], truncated := true)
  }

  /** One turn of the loop: a neighbour goes, else a text over 129 characters is halved, else the last result goes. */
  ghost predicate Turned(now: Response, next: Response) {
    if exists i: nat, j: nat :: Neighbor(now.results, i, j) then exists i: nat, j: nat :: Dropped(now, next, i, j)
    else if exists s :: IsSpot(now.results, s) && |TextAt(now.results, s)| > 129 then exists s :: HalvedAt(now, next, s)
    else
      && now.results != []
      && next == now.(results := now.results[..|now.results| - 1], omittedResults := now.omittedResults + 1,
                      truncated := true)
  }

  /** Turns are taken while the response does not fit. */
  ghost predicate Turns(steps: seq<Response>, budget: nat, size: Size) {
    |steps| > 0 && forall k :: 0 <= k < |steps| - 1 ==> size(steps[k]) > budget && Turned(steps[k], steps[k + 1])
  }

  lemma DropTurns(now: Response, i: nat, j: nat)
    requires i < |now.results| && j < |now.results[i].events|
    requires !IsCited(now.results[i].events[j], now.results[i].target)
    requires forall k :: j < k < |now.results[i].events| ==> IsCited(now.results[i].events[k], now.results[i].target)
    requires NoNeighbors(now.results[i + 1..])
    ensures Turned(now, DropEvent(now, i, now.results[i].events[j]))
  {
    var events, e := now.results[i].events, now.results[i].events[j];
    IndexFirst(events, e);
    assert Removed(events, Without(events, e), e);
    forall k, l | i < k < |now.results| && 0 <= l < |now.results[k].events|
      ensures IsCited(now.results[k].events[l], now.results[k].target)
    {
      assert now.results[i + 1..][k - i - 1] == now.results[k];
    }
    assert Neighbor(now.results, i, j);
    assert Dropped(now, DropEvent(now, i, e), i, j);
  }

  lemma {:induction false} IndexFirst(events: seq<Event>, e: Event)
    requires e in events
    ensures forall l :: 0 <= l < IndexOf(events, e) ==> events[l] != e
  {
    if events[0] != e {
      IndexFirst(events[1..], e);
    }
  }

  lemma CutTurns(now: Response, s: Spot)
    requires NoNeighbors(now.results) && IsSpot(now.results, s) && TooLong(TextAt(now.results, s))
    requires forall t :: IsSpot(now.results, t) ==> |TextAt(now.results, t)| <= |TextAt(now.results, s)|
    requires forall t :: IsSpot(now.results, t) && Before(t, s) ==>
               |TextAt(now.results, t)| < |TextAt(now.results, s)|
    ensures Turned(now, CutText(now, s))
  {
    assert Halved(TextAt(now.results, s), Shorten(TextAt(now.results, s)));
    assert HalvedAt(now, CutText(now, s), s);
    NoneNeighbors(now.results);
  }

  lemma NoneNeighbors(results: seq<Item>)
    requires NoNeighbors(results)
    ensures forall i: nat, j: nat :: !Neighbor(results, i, j)
  {
    assert forall i, j :: 0 <= i < |results| && 0 <= j < |results[i].events| ==>
             IsCited(results[i].events[j], results[i].target);
  }

  lemma PopTurns(now: Response)
    requires NoNeighbors(now.results) && AllShort(now.results) && now.results != []
    ensures Turned(now, Pop(now))
  {
    NoneNeighbors(now.results);
    forall s | IsSpot(now.results, s) ensures |TextAt(now.results, s)| <= 129 {
      assert !TooLong(TextAt(now.results, s));
    }
  }

  // ---- the budgeter ----

  /** Nothing left to drop. */
  function Emptied(r: Response): Response {
    r.(results := [], truncated := r.results != [] || r.truncated, omittedResults := |r.results|,
       omittedEvents := NeighborCount(r.results))
  }

  function Start(response: Response, budget: nat, size: Size): Response {
    var plain := response.(truncated := false, omittedResults := 0, omittedEvents := 0);
    if size(plain) > budget then plain.(timings := false) else plain
  }

  lemma StartOwes(response: Response, budget: nat, size: Size)
    ensures Owes(response, Start(response, budget, size))
  {
    forall i | 0 <= i < |response.results| ensures Keeps(response.results[i], response.results[i]) {
      assert ShortensAll(Cited(response.results[i].events, response.results[i].target),
                         Cited(response.results[i].events, response.results[i].target));
    }
  }

  /** One turn of the loop. None when there is nothing left to drop. */
  method Reduce(original: Response, now: Response) returns (next: Option<Response>)
    requires Owes(original, now)
    ensures next.None? ==> now.results == []
    ensures next.Some? ==> Owes(original, next.value) && next.value.truncated && next.value.timings == now.timings
    ensures next.Some? ==> Smaller(next.value.results, now.results)
    ensures next.Some? ==> Turned(now, next.value)
  {
    hide Turned;
    var found := FindNeighbor(now.results);
    if found.Some? {
      var (i, j) := found.value;
      var e := now.results[i].events[j];
      DropOwes(original, now, i, e);
      DropTurns(now, i, j);
      return Some(DropEvent(now, i, e));
    }
    NoNeighborsCount(now.results);
    var spot := Longest(now.results);
    if spot.Some? {
      CutOwes(original, now, spot.value);
      CutTurns(now, spot.value);
      return Some(CutText(now, spot.value));
    }
    if now.results == [] {
      return None;
    }
    PopOwes(original, now);
    PopTurns(now);
    return Some(Pop(now));
  }

  predicate Smaller(a: seq<Item>, b: seq<Item>) {
    || |a| < |b|
    || (|a| == |b| && EventCount(a) < EventCount(b))
    || (|a| == |b| && EventCount(a) == EventCount(b) && TextLength(a) < TextLength(b))
  }

  /**
   bounded_response for any size function: it terminates; what it returns fits and owes the original everything Owes
   says; a response that fits as it is comes back unchanged but for its counters; and it raises only outside the budget
   range or when the response does not fit with every result dropped. `steps` are the responses it goes through: they
   start from the original one with its counters reset, and without timings if it does not fit with them.
   */
  method BoundedResponse(response: Response, budget: nat, size: Size)
    returns (r: Result<Response>, ghost steps: seq<Response>)
    ensures !(1024 <= budget <= 65536) ==> r.Err?
    ensures r.Ok? ==> size(r.value) <= budget && Owes(response, r.value)
    ensures r.Ok? ==> r.value.timings == Start(response, budget, size).timings
    ensures MIN_BUDGET <= budget <= MAX_BUDGET && size(Start(response, budget, size)) <= budget ==>
              r == Ok(Start(response, budget, size))
    ensures r.Err? && MIN_BUDGET <= budget <= MAX_BUDGET ==>
              size(Emptied(Start(response, budget, size))) > budget
    ensures 1024 <= budget <= 65536 ==>
              && Turns(steps, budget, size)
              && var reset := response.(truncated := false, omittedResults := 0, omittedEvents := 0);
              && steps[0] == reset.(timings := reset.timings && size(reset) <= budget)
              && var last := steps[|steps| - 1];
              if r.Ok? then r.value == last else last.results == [] && size(last) > budget
  {
    steps := [];
    if !(MIN_BUDGET <= budget <= MAX_BUDGET) {
      return Err, steps;
    }
    hide Owes, Smaller, Turned;
    var now := Start(response, budget, size);
    StartOwes(response, budget, size);
    steps := [now];
    while size(now) > budget
      invariant Owes(response, now) && now.timings == Start(response, budget, size).timings
      invariant size(Start(response, budget, size)) <= budget ==> now == Start(response, budget, size)
      invariant now == Start(response, budget, size) || now.truncated
      invariant Turns(steps, budget, size) && steps[0] == Start(response, budget, size) && steps[|steps| - 1] == now
      decreases |now.results|, EventCount(now.results), TextLength(now.results)
    {
      var next := Reduce(response, now);
      if next.None? {
        EmptyOwes(response, budget, size, now);
        return Err, steps;
      }
      SmallerDecreases(next.value.results, now.results);
      TurnsMore(steps, budget, size, next.value);
      now := next.value;
      steps := steps + [now];
    }
    return Ok(now), steps;
  }

  lemma TurnsMore(steps: seq<Response>, budget: nat, size: Size, next: Response)
    requires Turns(steps, budget, size) && size(steps[|steps| - 1]) > budget && Turned(steps[|steps| - 1], next)
    ensures Turns(steps + [next], budget, size)
  {
    hide Turned;
  }

  lemma SmallerDecreases(a: seq<Item>, b: seq<Item>)
    requires Smaller(a, b)
    ensures |a| < |b| || (|a| == |b| && (EventCount(a) < EventCount(b) ||
                                         (EventCount(a) == EventCount(b) && TextLength(a) < TextLength(b))))
  {
  }

  lemma EmptyOwes(response: Response, budget: nat, size: Size, now: Response)
    requires Owes(response, now) && now.results == [] && now.timings == Start(response, budget, size).timings
    requires now == Start(response, budget, size) || now.truncated
    ensures now == Emptied(Start(response, budget, size))
  {
  }
}
