/**
 Rank fusion of two bounded candidate lists, and the greedy diversification over sessions, which is a sort in disguise.
 Scores are reals.
 */
module Ranking {
  import opened Common

  datatype Key = Key(session: string, revision: string, event: string)

  /** A candidate; `weight` is its evidence weight, 1 when it has none, and the passage is carried along. */
  datatype Candidate = Candidate(key: Key, weight: real, passage: string)

  // ---- the order of keys ----

  predicate StringLess(a: string, b: string) {
    b != [] && (a == [] || a[0] < b[0] || (a[0] == b[0] && StringLess(a[1..], b[1..])))
  }

  lemma {:induction false} StringTotal(a: string, b: string)
    ensures a == b <==> !StringLess(a, b) && !StringLess(b, a)
    ensures !(StringLess(a, b) && StringLess(b, a))
  {
    if a != [] && b != [] && a[0] == b[0] {
      StringTotal(a[1..], b[1..]);
      assert a == [a[0]] + a[1..] && b == [b[0]] + b[1..];
    }
  }

  /** The order of Python strings: at the first difference, or the shorter one first. */
  lemma {:induction false} StringLessTold(a: string, b: string)
    ensures StringLess(a, b) <==>
              exists i: nat :: i <= |a| && i < |b| && a[..i] == b[..i] && (i == |a| || a[i] < b[i])
  {
    if a != [] && b != [] && a[0] == b[0] {
      StringLessTold(a[1..], b[1..]);
      if i: nat :| i <= |a[1..]| && i < |b[1..]| && a[1..][..i] == b[1..][..i]
                   && (i == |a[1..]| || a[1..][i] < b[1..][i]) {
        assert a[..i + 1] == [a[0]] + a[1..][..i] && b[..i + 1] == [b[0]] + b[1..][..i];
        assert i + 1 == |a| || a[i + 1] < b[i + 1];
      }
      if i: nat :| i <= |a| && i < |b| && a[..i] == b[..i] && (i == |a| || a[i] < b[i]) {
        assert a[1..][..i - 1] == a[..i][1..] && b[1..][..i - 1] == b[..i][1..];
        assert i - 1 == |a[1..]| || a[1..][i - 1] < b[1..][i - 1];
      }
    } else {
      assert forall i: nat :: i > 0 && i <= |a| && i < |b| ==> a[..i][0] == a[0] && b[..i][0] == b[0];
      assert a[..0] == b[..0];
    }
  }

  lemma {:induction false} StringTransitive(a: string, b: string, c: string)
    requires StringLess(a, b) && StringLess(b, c)
    ensures StringLess(a, c)
  {
    if a != [] && a[0] == b[0] == c[0] {
      StringTransitive(a[1..], b[1..], c[1..]);
    }
  }

  predicate KeyLess(a: Key, b: Key) {
    || StringLess(a.session, b.session)
    || (a.session == b.session && StringLess(a.revision, b.revision))
    || (a.session == b.session && a.revision == b.revision && StringLess(a.event, b.event))
  }

  /** By session, then revision, then event. */
  lemma KeyLessTold(a: Key, b: Key)
    ensures KeyLess(a, b) <==>
              if a.session != b.session then StringLess(a.session, b.session)
              else if a.revision != b.revision then StringLess(a.revision, b.revision)
              else StringLess(a.event, b.event)
  {
    StringTotal(a.session, b.session);
    StringTotal(a.revision, b.revision);
  }

  lemma KeyTotal(a: Key, b: Key)
    ensures a == b <==> !KeyLess(a, b) && !KeyLess(b, a)
    ensures !(KeyLess(a, b) && KeyLess(b, a))
  {
    StringTotal(a.session, b.session);
    StringTotal(a.revision, b.revision);
    StringTotal(a.event, b.event);
  }

  lemma KeyTransitive(a: Key, b: Key, c: Key)
    requires KeyLess(a, b) && KeyLess(b, c)
    ensures KeyLess(a, c)
  {
    forall x: string, y: string, z: string | StringLess(x, y) && StringLess(y, z) ensures StringLess(x, z) {
      StringTransitive(x, y, z);
    }
  }

  // ---- orders on scored keys ----

  /** Lexicographic comparison of (not the named session, -value, key). */
  predicate Prefers(named: string, a: Key, va: real, b: Key, vb: real) {
    || (a.session == named && b.session != named)
    || ((a.session == named <==> b.session == named) && (va > vb || (va == vb && KeyLess(a, b))))
  }

  lemma PrefersTotal(named: string, a: Key, va: real, b: Key, vb: real)
    ensures a != b ==> Prefers(named, a, va, b, vb) || Prefers(named, b, vb, a, va)
    ensures !(Prefers(named, a, va, b, vb) && Prefers(named, b, vb, a, va))
  {
    KeyTotal(a, b);
  }

  lemma PrefersTransitive(named: string, a: Key, va: real, b: Key, vb: real, c: Key, vc: real)
    requires Prefers(named, a, va, b, vb) && Prefers(named, b, vb, c, vc)
    ensures Prefers(named, a, va, c, vc)
  {
    if KeyLess(a, b) && KeyLess(b, c) {
      KeyTransitive(a, b, c);
    }
  }

  type Scores = map<Key, real>

  /** The score a key has left when `taken` results of its session come before it. */
  function Share(score: real, taken: nat): real {
    score / (1 + taken) as real
  }

  lemma ShareFalls(score: real, fewer: nat, more: nat)
    requires score >= 0.0 && fewer <= more
    ensures Share(score, fewer) >= Share(score, more) >= 0.0
  {
    var q := Share(score, more);
    assert q * (1 + more) as real == score;
    assert q >= 0.0;
    assert q * (1 + fewer) as real <= q * (1 + more) as real;
    assert Share(score, fewer) * (1 + fewer) as real == score;
  }

  lemma ShareOrder(a: real, b: real, taken: nat)
    ensures a > b <==> Share(a, taken) > Share(b, taken)
  {
    assert Share(a, taken) * (1 + taken) as real == a && Share(b, taken) * (1 + taken) as real == b;
  }

  /** Keys of the same session in that session's own order. */
  predicate Better(scores: Scores, a: Key, b: Key)
    requires a in scores && b in scores
  {
    scores[a] > scores[b] || (scores[a] == scores[b] && KeyLess(a, b))
  }

  function Ahead(scores: Scores, key: Key): set<Key>
    requires key in scores
  {
    set x | x in scores && x.session == key.session && Better(scores, x, key)
  }

  /** The score of a key divided by its position in its own session. */
  function Value(scores: Scores, key: Key): real
    requires key in scores
  {
    Share(scores[key], |Ahead(scores, key)|)
  }

  /** The sort order that the greedy selection realises. */
  predicate Before(named: string, scores: Scores, a: Key, b: Key)
    requires a in scores && b in scores
  {
    Prefers(named, a, Value(scores, a), b, Value(scores, b))
  }

  ghost predicate Permutes(ordered: seq<Key>, keys: set<Key>) {
    && (forall i, j :: 0 <= i < j < |ordered| ==> ordered[i] != ordered[j])
    && (forall k :: k in ordered <==> k in keys)
  }

  predicate IsSorted(named: string, scores: Scores, ordered: seq<Key>) {
    && (forall k :: k in ordered ==> k in scores)
    && forall i, j :: 0 <= i < j < |ordered| ==> Before(named, scores, ordered[i], ordered[j])
  }

  // ---- the greedy selection ----

  /** How many results of a session are already placed. */
  function SeenIn(seen: map<string, nat>, session: string): nat {
    if session in seen then seen[session] else 0
  }

  function Taken(ordered: seq<Key>, session: string): set<Key> {
    set i | 0 <= i < |ordered| && ordered[i].session == session :: ordered[i]
  }

  function Priority(scores: Scores, seen: map<string, nat>, key: Key): real
    requires key in scores
  {
    Share(scores[key], SeenIn(seen, key.session))
  }

  /** min(remaining) under the greedy key. */
  method PickNext(named: string, scores: Scores, seen: map<string, nat>, remaining: set<Key>) returns (key: Key)
    requires remaining != {} && remaining <= scores.Keys
    ensures key in remaining
    ensures forall other :: other in remaining && other != key ==>
              Prefers(named, key, Priority(scores, seen, key), other, Priority(scores, seen, other))
  {
    key :| key in remaining;
    var rest := remaining - {key};
    while rest != {}
      invariant rest < remaining && key in remaining - rest
      invariant forall other :: other in remaining - rest && other != key ==>
                  Prefers(named, key, Priority(scores, seen, key), other, Priority(scores, seen, other))
      decreases rest
    {
      var next :| next in rest;
      PrefersTotal(named, next, Priority(scores, seen, next), key, Priority(scores, seen, key));
      if Prefers(named, next, Priority(scores, seen, next), key, Priority(scores, seen, key)) {
        forall other | other in remaining - rest && other != key
          ensures Prefers(named, next, Priority(scores, seen, next), other, Priority(scores, seen, other))
        {
          PrefersTransitive(named, next, Priority(scores, seen, next), key, Priority(scores, seen, key),
                            other, Priority(scores, seen, other));
        }
        key := next;
      }
      rest := rest - {next};
    }
  }

  predicate Nonnegative(scores: Scores) {
    forall k :: k in scores ==> scores[k] >= 0.0
  }

  /** What has been placed: for every session, its best keys so far. */
  ghost predicate Placed(scores: Scores, ordered: seq<Key>, remaining: set<Key>, seen: map<string, nat>) {
    && (forall k :: k in scores <==> k in ordered || k in remaining)
    && (forall k :: k in remaining ==> k !in ordered)
    && (forall session :: SeenIn(seen, session) == |Taken(ordered, session)|)
    && (forall x, y :: x in ordered && y in remaining && x.session == y.session ==> Better(scores, x, y))
  }

  /** A remaining key has at least as many of its session ahead of it as are placed. */
  lemma SeenBounds(scores: Scores, ordered: seq<Key>, remaining: set<Key>, seen: map<string, nat>, key: Key)
    requires Placed(scores, ordered, remaining, seen) && key in remaining
    ensures SeenIn(seen, key.session) <= |Ahead(scores, key)|
    ensures Taken(ordered, key.session) <= Ahead(scores, key)
  {
    forall x | x in Taken(ordered, key.session) ensures x in Ahead(scores, key) {
      assert x in ordered;
    }
    SubsetCount(Taken(ordered, key.session), Ahead(scores, key));
  }

  /** The chosen key is the best remaining one of its session, so exactly the placed ones are ahead of it. */
  lemma ChosenIsBest(named: string, scores: Scores, ordered: seq<Key>, remaining: set<Key>, seen: map<string, nat>,
                     key: Key)
    requires Placed(scores, ordered, remaining, seen) && key in remaining
    requires forall other :: other in remaining && other != key ==>
               Prefers(named, key, Priority(scores, seen, key), other, Priority(scores, seen, other))
    ensures forall y :: y in remaining && y != key && y.session == key.session ==> Better(scores, key, y)
    ensures Ahead(scores, key) == Taken(ordered, key.session)
  {
    forall y | y in remaining && y != key && y.session == key.session
      ensures Better(scores, key, y) && y !in Ahead(scores, key)
    {
      ShareOrder(scores[key], scores[y], SeenIn(seen, key.session));
      ShareOrder(scores[y], scores[key], SeenIn(seen, key.session));
      KeyTotal(key, y);
    }
    KeyTotal(key, key);
    forall x | x in Ahead(scores, key) ensures x in Taken(ordered, key.session) {
      assert x in ordered;
    }
    SeenBounds(scores, ordered, remaining, seen, key);
  }

  /** The chosen key precedes every remaining key in the sort order. */
  lemma ChosenBefore(named: string, scores: Scores, ordered: seq<Key>, remaining: set<Key>, seen: map<string, nat>,
                     key: Key, y: Key)
    requires Placed(scores, ordered, remaining, seen) && key in remaining && y in remaining && y != key
             && Nonnegative(scores)
    requires forall other :: other in remaining && other != key ==>
               Prefers(named, key, Priority(scores, seen, key), other, Priority(scores, seen, other))
    ensures Before(named, scores, key, y)
  {
    ChosenIsBest(named, scores, ordered, remaining, seen, key);
    SeenBounds(scores, ordered, remaining, seen, y);
    ShareFalls(scores[y], SeenIn(seen, y.session), |Ahead(scores, y)|);
    assert Value(scores, key) == Priority(scores, seen, key);
  }

  lemma PlacedMore(scores: Scores, ordered: seq<Key>, remaining: set<Key>, seen: map<string, nat>, key: Key)
    requires Placed(scores, ordered, remaining, seen) && key in remaining
    requires forall y :: y in remaining && y != key && y.session == key.session ==> Better(scores, key, y)
    ensures Placed(scores, ordered + [key], remaining - {key}, seen[key.session := SeenIn(seen, key.session) + 1])
  {
    var more := ordered + [key];
    forall session
      ensures SeenIn(seen[key.session := SeenIn(seen, key.session) + 1], session) == |Taken(more, session)|
    {
      TakenMore(ordered, key, session);
    }
  }

  lemma TakenMore(ordered: seq<Key>, key: Key, session: string)
    requires key !in ordered
    ensures |Taken(ordered + [key], session)| == |Taken(ordered, session)| + if key.session == session then 1 else 0
  {
    var more := ordered + [key];
    assert forall i :: 0 <= i < |ordered| ==> more[i] == ordered[i];
    assert more[|ordered|] == key;
    if key.session == session {
      assert Taken(more, session) == Taken(ordered, session) + {key};
      assert key !in Taken(ordered, session);
    } else {
      assert Taken(more, session) == Taken(ordered, session);
    }
  }

  /**
   The greedy selection places every key once, and its order is a plain sort: the named session first, then by score
   divided by the position in the key's own session, then by key.
   */
  method Diversify(named: string, scores: Scores) returns (ordered: seq<Key>)
    requires Nonnegative(scores)
    ensures Permutes(ordered, scores.Keys) && IsSorted(named, scores, ordered)
  {
    hide Before, Better, Prefers;
    ordered := [];
    var remaining := scores.Keys;
    var seen: map<string, nat> := map[];
    NothingPlaced(scores);
    while remaining != {}
      invariant Placed(scores, ordered, remaining, seen) && remaining <= scores.Keys
      invariant Permutes(ordered, scores.Keys - remaining) && IsSorted(named, scores, ordered)
      invariant forall x, y :: x in ordered && y in remaining ==> Before(named, scores, x, y)
      decreases remaining
    {
      var key := PickNext(named, scores, seen, remaining);
      ChosenIsBest(named, scores, ordered, remaining, seen, key);
      forall y | y in remaining && y != key ensures Before(named, scores, key, y) {
        ChosenBefore(named, scores, ordered, remaining, seen, key, y);
      }
      PlacedMore(scores, ordered, remaining, seen, key);
      remaining := remaining - {key};
      ordered := ordered + [key];
      seen := seen[key.session := SeenIn(seen, key.session) + 1];
    }
  }

  lemma NothingPlaced(scores: Scores)
    ensures Placed(scores, [], scores.Keys, map[])
  {
  }

  /** The sort order leaves no choice. */
  lemma SortUnique(named: string, scores: Scores, a: seq<Key>, b: seq<Key>, keys: set<Key>)
    requires Permutes(a, keys) && Permutes(b, keys) && IsSorted(named, scores, a) && IsSorted(named, scores, b)
    ensures a == b
  {
    PermutesCount(a, keys);
    PermutesCount(b, keys);
    SortPrefix(named, scores, a, b, keys, |a|);
  }

  lemma {:induction false} PermutesCount(a: seq<Key>, keys: set<Key>)
    requires Permutes(a, keys)
    ensures |a| == |keys|
  {
    if a == [] {
      assert keys == {};
    } else {
      var last := a[|a| - 1];
      assert last in a;
      forall k ensures k in a[..|a| - 1] <==> k in keys - {last} {
        if k in keys - {last} {
          assert k in a;
        }
      }
      PermutesCount(a[..|a| - 1], keys - {last});
    }
  }

  lemma {:induction false} SortPrefix(named: string, scores: Scores, a: seq<Key>, b: seq<Key>, keys: set<Key>, n: nat)
    requires Permutes(a, keys) && Permutes(b, keys) && IsSorted(named, scores, a) && IsSorted(named, scores, b)
    requires n <= |a| == |b|
    ensures a[..n] == b[..n]
  {
    if n > 0 {
      SortPrefix(named, scores, a, b, keys, n - 1);
      assert a[..n] == a[..n - 1] + [a[n - 1]] && b[..n] == b[..n - 1] + [b[n - 1]];
      NotAfter(named, scores, a, b, keys, n - 1);
      NotAfter(named, scores, b, a, keys, n - 1);
      PrefersTotal(named, a[n - 1], Value(scores, a[n - 1]), b[n - 1], Value(scores, b[n - 1]));
    }
  }

  /** Position n of b is not placed before position n of a. */
  lemma NotAfter(named: string, scores: Scores, a: seq<Key>, b: seq<Key>, keys: set<Key>, n: nat)
    requires Permutes(a, keys) && Permutes(b, keys) && IsSorted(named, scores, a) && IsSorted(named, scores, b)
    requires n < |a| == |b| && a[..n] == b[..n]
    ensures a[n] == b[n] || Before(named, scores, a[n], b[n])
  {
    assert b[n] in b && b[n] in a;
    forall k | 0 <= k < n ensures a[k] == b[k] {
      assert a[..n][k] == b[..n][k];
    }
    var i :| 0 <= i < |a| && a[i] == b[n];
  }

  /** With positive scores, results of one session keep their own order, wherever other sessions are mixed in. */
  lemma SessionOrderKept(named: string, scores: Scores, a: Key, b: Key)
    requires a in scores && b in scores && a.session == b.session && Better(scores, a, b) && scores[b] > 0.0
    ensures Before(named, scores, a, b)
  {
    var fewer, more := Ahead(scores, a), Ahead(scores, b);
    forall x | x in fewer ensures x in more {
      BetterTransitive(scores, x, a, b);
    }
    KeyTotal(a, a);
    assert a in more && a !in fewer;
    SubsetCount(fewer + {a}, more);
    ShareFallsStrictly(scores[a], |fewer|, |more|);
    ShareOrder(scores[b], scores[a], |more|);
    ShareOrder(scores[a], scores[b], |more|);
  }

  lemma BetterTransitive(scores: Scores, a: Key, b: Key, c: Key)
    requires a in scores && b in scores && c in scores && Better(scores, a, b) && Better(scores, b, c)
    ensures Better(scores, a, c)
  {
    if KeyLess(a, b) && KeyLess(b, c) {
      KeyTransitive(a, b, c);
    }
  }

  lemma ShareFallsStrictly(score: real, fewer: nat, more: nat)
    requires score > 0.0 && fewer < more
    ensures Share(score, fewer) > Share(score, more)
  {
    var q := Share(score, more);
    assert q * (1 + more) as real == score;
    assert q > 0.0;
    assert q * (1 + fewer) as real < q * (1 + more) as real;
    assert Share(score, fewer) * (1 + fewer) as real == score;
  }

  // ---- reciprocal-rank fusion ----

  /** Ranks count from 1; index i has rank i + 1. */
  function Contribution(i: nat): real {
    1.0 / (2 + i) as real
  }

  lemma ContributionFalls(i: nat, j: nat)
    ensures Contribution(i) > Contribution(j) <==> i < j
    ensures Contribution(i) > 0.0
  {
    if i < j {
      EarlierCounts(i, j);
    } else if j < i {
      EarlierCounts(j, i);
    }
  }

  lemma EarlierCounts(i: nat, j: nat)
    requires i < j
    ensures Contribution(i) > Contribution(j)
  {
    var q := Contribution(j);
    assert q > 0.0 && q * (2 + j) as real == 1.0;
    assert q * (2 + i) as real < q * (2 + j) as real;
    assert Contribution(i) * (2 + i) as real == 1.0;
  }

  /** The contributions of every appearance of a key in one list. */
  function Total(list: seq<Candidate>, key: Key): real {
    if list == [] then 0.0
    else Total(list[..|list| - 1], key) + if list[|list| - 1].key == key then Contribution(|list| - 1) else 0.0
  }

  /** The best-ranked appearance of a key; |list| if there is none. */
  function First(list: seq<Candidate>, key: Key): (i: nat)
    ensures i <= |list| && (i < |list| ==> list[i].key == key) && forall j :: 0 <= j < i ==> list[j].key != key
  {
    if list == [] then 0
    else
      var i := First(list[..|list| - 1], key);
      if i < |list| - 1 || list[|list| - 1].key == key then i else |list|
  }

  predicate In(list: seq<Candidate>, key: Key) {
    First(list, key) < |list|
  }

  /** The channel that ranks the key higher; ties go to the lexical one. */
  predicate LexicalLeads(a: seq<Candidate>, b: seq<Candidate>, key: Key) {
    In(a, key) && (!In(b, key) || First(a, key) <= First(b, key))
  }

  function Stronger(a: seq<Candidate>, b: seq<Candidate>, key: Key): Candidate
    requires In(a, key) || In(b, key)
  {
    if LexicalLeads(a, b, key) then a[First(a, key)] else b[First(b, key)]
  }

  datatype Fusion = Fusion(merged: map<Key, Candidate>, scores: Scores, contributions: Scores)

  function Absorb(f: Fusion, c: Candidate, contribution: real): Fusion {
    var replace := contribution > if c.key in f.contributions then f.contributions[c.key] else 0.0;
    Fusion(if replace then f.merged[c.key := c] else f.merged,
           f.scores[c.key := (if c.key in f.scores then f.scores[c.key] else 0.0) + contribution],
           if replace then f.contributions[c.key := contribution] else f.contributions)
  }

  predicate FusedAt(a: seq<Candidate>, b: seq<Candidate>, f: Fusion, k: Key) {
    && (k in f.scores <==> In(a, k) || In(b, k))
    && (k in f.merged <==> k in f.scores) && (k in f.contributions <==> k in f.scores)
    && (k in f.scores ==>
         && f.scores[k] == Total(a, k) + Total(b, k) && f.merged[k] == Stronger(a, b, k)
         && f.contributions[k] == Contribution(if LexicalLeads(a, b, k) then First(a, k) else First(b, k)))
  }

  ghost predicate IsFused(a: seq<Candidate>, b: seq<Candidate>, f: Fusion) {
    forall k :: FusedAt(a, b, f, k)
  }

  lemma FirstAppend(list: seq<Candidate>, c: Candidate, key: Key)
    ensures First(list + [c], key) ==
            if In(list, key) then First(list, key) else if c.key == key then |list| else |list| + 1
    ensures Total(list + [c], key) == Total(list, key) + if c.key == key then Contribution(|list|) else 0.0
    ensures In(list + [c], key) <==> In(list, key) || c.key == key
  {
    assert (list + [c])[..|list|] == list;
  }

  lemma {:induction false} TotalAbsent(list: seq<Candidate>, key: Key)
    requires !In(list, key)
    ensures Total(list, key) == 0.0
  {
    if list != [] {
      var front := list[..|list| - 1];
      assert forall j :: 0 <= j < |front| ==> front[j] == list[j];
      TotalAbsent(front, key);
    }
  }

  /** Absorbing the next semantic candidate fuses its own key and leaves every other key alone. */
  lemma AbsorbSemantic(a: seq<Candidate>, b: seq<Candidate>, c: Candidate, f: Fusion, k: Key)
    requires FusedAt(a, b, f, k)
    ensures FusedAt(a, b + [c], Absorb(f, c, Contribution(|b|)), k)
  {
    FirstAppend(b, c, k);
    if k == c.key {
      hide Total, Contribution, First;
      ContributionFalls(|b|, First(a, k));
      ContributionFalls(|b|, First(b, k));
      Absences(a, b, k);
    }
  }

  lemma AbsorbLexical(a: seq<Candidate>, c: Candidate, f: Fusion, k: Key)
    requires FusedAt(a, [], f, k)
    ensures FusedAt(a + [c], [], Absorb(f, c, Contribution(|a|)), k)
  {
    FirstAppend(a, c, k);
    if k == c.key {
      ContributionFalls(|a|, First(a, k));
      Absences(a, [], k);
    }
  }

  lemma Absences(a: seq<Candidate>, b: seq<Candidate>, k: Key)
    ensures !In(a, k) ==> Total(a, k) == 0.0
    ensures !In(b, k) ==> Total(b, k) == 0.0
  {
    if !In(a, k) {
      TotalAbsent(a, k);
    }
    if !In(b, k) {
      TotalAbsent(b, k);
    }
  }

  lemma NothingFused()
    ensures IsFused([], [], Fusion(map[], map[], map[]))
  {
  }

  /** Scores add up over both channels; the passage shown is the one from the channel that ranks the event higher. */
  method Fuse(lexical: seq<Candidate>, semantic: seq<Candidate>) returns (f: Fusion)
    ensures IsFused(lexical, semantic, f)
  {
    hide FusedAt, Absorb;
    f := Fusion(map[], map[], map[]);
    NothingFused();
    assert lexical[..0] == [] && semantic[..0] == [];
    for i := 0 to |lexical|
      invariant IsFused(lexical[..i], [], f)
    {
      assert lexical[..i + 1] == lexical[..i] + [lexical[i]];
      ghost var seen := lexical[..i + 1];
      var next := Absorb(f, lexical[i], Contribution(i));
      forall k ensures FusedAt(seen, [], next, k) {
        AbsorbLexical(lexical[..i], lexical[i], f, k);
      }
      f := next;
    }
    assert lexical[..|lexical|] == lexical;
    for i := 0 to |semantic|
      invariant IsFused(lexical, semantic[..i], f)
    {
      assert semantic[..i + 1] == semantic[..i] + [semantic[i]];
      ghost var seen := semantic[..i + 1];
      var next := Absorb(f, semantic[i], Contribution(i));
      forall k ensures FusedAt(lexical, seen, next, k) {
        AbsorbSemantic(lexical, semantic[..i], semantic[i], f, k);
      }
      f := next;
    }
    assert semantic[..|semantic|] == semantic;
  }

  // ---- the whole of rank_results ----

  datatype Ranked = Ranked(candidate: Candidate, score: real)

  predicate Weighted(list: seq<Candidate>) {
    forall c :: c in list ==> c.weight > 0.0
  }

  /** Scoped queries keep plain score order. */
  predicate ScoreSorted(named: string, scores: Scores, ordered: seq<Key>) {
    && (forall k :: k in ordered ==> k in scores)
    && forall i, j :: 0 <= i < j < |ordered| ==>
      Prefers(named, ordered[i], scores[ordered[i]], ordered[j], scores[ordered[j]])
  }

  /** sorted() under (not the named session, -score, key). */
  method SortByScore(named: string, scores: Scores) returns (ordered: seq<Key>)
    ensures Permutes(ordered, scores.Keys) && ScoreSorted(named, scores, ordered)
  {
    hide Prefers;
    ordered := [];
    var remaining := scores.Keys;
    while remaining != {}
      invariant remaining <= scores.Keys && Permutes(ordered, scores.Keys - remaining)
                && ScoreSorted(named, scores, ordered)
      invariant forall x, y :: x in ordered && y in remaining ==> Prefers(named, x, scores[x], y, scores[y])
      decreases remaining
    {
      var key := PickNext(named, scores, map[], remaining);
      forall y | y in remaining && y != key ensures Prefers(named, key, scores[key], y, scores[y]) {
        ShareOne(scores[key]);
        ShareOne(scores[y]);
      }
      remaining := remaining - {key};
      ordered := ordered + [key];
    }
  }

  lemma ShareOne(score: real)
    ensures Share(score, 0) == score
  {
  }

  function WeightedScores(f: Fusion): Scores
    requires f.merged.Keys == f.scores.Keys
  {
    map k | k in f.scores :: f.scores[k] * f.merged[k].weight
  }

  lemma FusedFacts(a: seq<Candidate>, b: seq<Candidate>, f: Fusion)
    requires IsFused(a, b, f)
    ensures f.merged.Keys == f.scores.Keys
    ensures forall k :: k in f.scores <==> In(a, k) || In(b, k)
    ensures forall k :: k in f.scores ==> f.scores[k] == Total(a, k) + Total(b, k) && f.merged[k] == Stronger(a, b, k)
  {
    hide Total, In, Stronger, LexicalLeads;
    forall k ensures k in f.scores <==> In(a, k) || In(b, k) {
      assert FusedAt(a, b, f, k);
    }
    forall k ensures k in f.merged <==> k in f.scores {
      assert FusedAt(a, b, f, k);
    }
    forall k | k in f.scores ensures f.scores[k] == Total(a, k) + Total(b, k) && f.merged[k] == Stronger(a, b, k) {
      assert FusedAt(a, b, f, k);
    }
  }

  /** Every fused score is positive when all weights are. */
  lemma ScoresPositive(a: seq<Candidate>, b: seq<Candidate>, f: Fusion)
    requires IsFused(a, b, f) && Weighted(a) && Weighted(b) && f.merged.Keys == f.scores.Keys
    ensures forall k :: k in f.scores ==> WeightedScores(f)[k] > 0.0
  {
    forall k | k in f.scores ensures WeightedScores(f)[k] > 0.0 {
      assert FusedAt(a, b, f, k);
      assert Stronger(a, b, k) in a || Stronger(a, b, k) in b;
      TotalPositive(a, k);
      TotalPositive(b, k);
      assert f.scores[k] > 0.0 && f.merged[k].weight > 0.0;
    }
  }

  lemma {:induction false} TotalPositive(list: seq<Candidate>, key: Key)
    ensures Total(list, key) >= 0.0 && (In(list, key) ==> Total(list, key) > 0.0)
  {
    if list != [] {
      TotalPositive(list[..|list| - 1], key);
      ContributionFalls(|list| - 1, |list|);
    }
  }

  /**
   rank_results: each event once, with its fused score and the passage of its stronger channel; an unscoped query orders
   them by the diversified value, a scoped one by plain score.
   */
  method RankResults(named: string, scoped: bool, lexical: seq<Candidate>, semantic: seq<Candidate>)
    returns (out: seq<Ranked>, ordered: seq<Key>, scores: Scores)
    requires Weighted(lexical) && Weighted(semantic)
    ensures forall k :: k in scores <==> In(lexical, k) || In(semantic, k)
    ensures forall k :: k in scores ==>
              scores[k] == (Total(lexical, k) + Total(semantic, k)) * Stronger(lexical, semantic, k).weight
                && scores[k] > 0.0
    ensures Permutes(ordered, scores.Keys)
    ensures if scoped then ScoreSorted(named, scores, ordered) else IsSorted(named, scores, ordered)
    ensures |out| == |ordered|
    ensures forall i :: 0 <= i < |out| ==>
              ordered[i] in scores && out[i] == Ranked(Stronger(lexical, semantic, ordered[i]), scores[ordered[i]])
  {
    hide Total, In, Stronger, Prefers, IsSorted, ScoreSorted, IsFused;
    var f := Fuse(lexical, semantic);
    FusedFacts(lexical, semantic, f);
    scores := WeightedScores(f);
    ScoresPositive(lexical, semantic, f);
    if scoped {
      ordered := SortByScore(named, scores);
    } else {
      ordered := Diversify(named, scores);
    }
    out := Present(ordered, f.merged, scores);
  }

  method Present(ordered: seq<Key>, merged: map<Key, Candidate>, scores: Scores) returns (out: seq<Ranked>)
    requires forall k :: k in ordered ==> k in merged && k in scores
    ensures |out| == |ordered| && forall i :: 0 <= i < |out| ==>
              out[i] == Ranked(merged[ordered[i]], scores[ordered[i]])
  {
    out := [];
    for i := 0 to |ordered|
      invariant |out| == i && forall j :: 0 <= j < i ==> out[j] == Ranked(merged[ordered[j]], scores[ordered[j]])
    {
      out := out + [Ranked(merged[ordered[i]], scores[ordered[i]])];
    }
  }

  // ---- the answer, told of the two lists ----

  /** No event twice in a list. */
  predicate Once(list: seq<Candidate>) {
    forall i, j :: 0 <= i < j < |list| ==> list[i].key != list[j].key
  }

  lemma {:induction false} TotalOnce(list: seq<Candidate>, i: nat)
    requires Once(list) && i < |list|
    ensures First(list, list[i].key) == i && Total(list, list[i].key) == 1.0 / (i + 2) as real
  {
    var front, last := list[..|list| - 1], list[|list| - 1];
    if i < |front| {
      TotalOnce(front, i);
      assert front[i] == list[i];
    } else {
      assert forall j :: 0 <= j < |front| ==> front[j] == list[j];
      assert First(front, last.key) == |front|;
      TotalAbsent(front, last.key);
    }
  }

  /**
   The event at rank i + 1 of the lexical and rank j + 1 of the semantic list scores 1/(i + 2) + 1/(j + 2), and its
   passage is the lexical one unless the semantic list ranks it strictly higher; in one list only, that list's share.
   */
  lemma FusionTold(a: seq<Candidate>, b: seq<Candidate>, i: nat, j: nat)
    requires Once(a) && Once(b)
    ensures i < |a| && j < |b| && a[i].key == b[j].key ==>
              && Total(a, a[i].key) + Total(b, a[i].key) == 1.0 / (i + 2) as real + 1.0 / (j + 2) as real
              && Stronger(a, b, a[i].key) == if j < i then b[j] else a[i]
    ensures i < |a| && (forall l :: 0 <= l < |b| ==> b[l].key != a[i].key) ==>
              && Total(a, a[i].key) + Total(b, a[i].key) == 1.0 / (i + 2) as real
              && Stronger(a, b, a[i].key) == a[i]
    ensures j < |b| && (forall l :: 0 <= l < |a| ==> a[l].key != b[j].key) ==>
              && Total(a, b[j].key) + Total(b, b[j].key) == 1.0 / (j + 2) as real
              && Stronger(a, b, b[j].key) == b[j]
  {
    hide Total;
    if i < |a| {
      TotalOnce(a, i);
      Absences(a, b, a[i].key);
    }
    if j < |b| {
      TotalOnce(b, j);
      Absences(a, b, b[j].key);
    }
  }

  /**
   The order of an unscoped answer: the session the query names first, then by score divided by the key's place among
   its own session's keys, then by key; of a scoped answer: the same without dividing.
   */
  lemma OrderTold(named: string, scores: Scores, ordered: seq<Key>, i: nat, j: nat)
    requires i < j < |ordered|
    ensures IsSorted(named, scores, ordered) ==>
              var x, y := ordered[i], ordered[j];
              && x in scores && y in scores && (y.session == named ==> x.session == named)
              && ((x.session == named <==> y.session == named) ==>
                    var p := 1 + |set z | z in scores && z.session == x.session
                                          && (scores[z] > scores[x] || (scores[z] == scores[x] && KeyLess(z, x)))|;
                    var q := 1 + |set z | z in scores && z.session == y.session
                                          && (scores[z] > scores[y] || (scores[z] == scores[y] && KeyLess(z, y)))|;
                    scores[x] / p as real > scores[y] / q as real
                    || (scores[x] / p as real == scores[y] / q as real && KeyLess(x, y)))
    ensures ScoreSorted(named, scores, ordered) ==>
              var x, y := ordered[i], ordered[j];
              && x in scores && y in scores && (y.session == named ==> x.session == named)
              && ((x.session == named <==> y.session == named) ==>
                    scores[x] > scores[y] || (scores[x] == scores[y] && KeyLess(x, y)))
  {
    var x, y := ordered[i], ordered[j];
    if IsSorted(named, scores, ordered) {
      assert Before(named, scores, x, y);
      assert Ahead(scores, x) == set z | z in scores && z.session == x.session
                                         && (scores[z] > scores[x] || (scores[z] == scores[x] && KeyLess(z, x)));
      assert Ahead(scores, y) == set z | z in scores && z.session == y.session
                                         && (scores[z] > scores[y] || (scores[z] == scores[y] && KeyLess(z, y)));
    }
  }
}
