/** Facts about turn grouping that make resuming at the start of the last turn safe. */
module GroupingFacts {
  import opened Common
  import opened Codex

  lemma {:induction false} GroupConcat(w: World, native: string, own: Ownership, g: Grouping, a: seq<Numbered>,
                                       b: seq<Numbered>)
    requires own.Owned?
    ensures GroupRecords(w, native, own, g, a + b) ==
            var h := GroupRecords(w, native, own, g, a);
            if h.Ok? then GroupRecords(w, native, own, h.value, b) else Err
    decreases |a|
  {
    if a == [] {
      assert a + b == b;
    } else {
      assert (a + b)[0] == a[0] && (a + b)[1..] == a[1..] + b;
      if !Raises(a[0]) {
        GroupConcat(w, native, own, GroupRecord(w, native, own, g, a[0]), a[1..], b);
      }
    }
  }

  lemma GroupOne(w: World, native: string, own: Ownership, g: Grouping, rec: Numbered)
    requires own.Owned?
    ensures GroupRecords(w, native, own, g, [rec]) ==
            if Raises(rec) then Err else Ok(GroupRecord(w, native, own, g, rec))
  {
    assert [rec][1..] == [];
  }

  /** Turns closed before the grouping started stay in front of its result. */
  function Behind(pre: seq<Turn>, g: Result<Grouping>): Result<Grouping> {
    if g.Ok? then Ok(g.value.(turns := pre + g.value.turns)) else Err
  }

  lemma {:induction false} GroupFrame(w: World, native: string, own: Ownership, pre: seq<Turn>, g: Grouping,
                                      recs: seq<Numbered>)
    requires own.Owned?
    ensures GroupRecords(w, native, own, g.(turns := pre + g.turns), recs) ==
              Behind(pre, GroupRecords(w, native, own, g, recs))
    decreases |recs|
  {
    if recs != [] && !Raises(recs[0]) {
      var h := g.(turns := pre + g.turns);
      var next := GroupRecord(w, native, own, g, recs[0]);
      assert Closed(h) == pre + Closed(g);
      assert GroupRecord(w, native, own, h, recs[0]) == next.(turns := pre + next.turns);
      GroupFrame(w, native, own, pre, next, recs[1..]);
    }
  }

  /** A record that opens a turn forgets everything but the turns closed so far. */
  lemma GroupFromOpener(w: World, native: string, own: Ownership, h: Grouping, recs: seq<Numbered>)
    requires own.Owned? && recs != [] && Opened(w, native, own, h.current.Some?, recs[0]).Some?
    ensures GroupRecords(w, native, own, h, recs) == Behind(Closed(h), GroupRecords(w, native, own, EMPTY, recs))
  {
    var g := GroupRecord(w, native, own, EMPTY, recs[0]);
    assert GroupRecord(w, native, own, h, recs[0]) == g.(turns := Closed(h) + g.turns);
    GroupFrame(w, native, own, Closed(h), g, recs[1..]);
  }

  /** A turn is closed only when the next one opens. */
  lemma {:induction false} ClosedMeansOpen(w: World, native: string, own: Ownership, recs: seq<Numbered>)
    requires own.Owned? && GroupRecords(w, native, own, EMPTY, recs).Ok?
    ensures var g := GroupRecords(w, native, own, EMPTY, recs).value;
            g.turns != [] ==> g.current.Some?
    decreases |recs|
  {
    if recs != [] {
      var front, last := recs[..|recs| - 1], recs[|recs| - 1];
      assert recs == front + [last];
      GroupConcat(w, native, own, EMPTY, front, [last]);
      ClosedMeansOpen(w, native, own, front);
      GroupOne(w, native, own, GroupRecords(w, native, own, EMPTY, front).value, last);
    }
  }

  /** Where the open turn was opened: the record on its first line, with all other turns closed by then. */
  lemma {:induction false} LastOpener(w: World, native: string, own: Ownership, recs: seq<Numbered>, base: nat)
    returns (k: nat)
    requires own.Owned? && GroupRecords(w, native, own, EMPTY, recs).Ok?
    requires GroupRecords(w, native, own, EMPTY, recs).value.current.Some?
    requires forall i :: 0 <= i < |recs| ==> recs[i].0 == base + 1 + i
    ensures var g := GroupRecords(w, native, own, EMPTY, recs).value;
            k < |recs| && g.current.value.start == base + 1 + k
    ensures GroupRecords(w, native, own, EMPTY, recs[..k]).Ok?
    ensures var h := GroupRecords(w, native, own, EMPTY, recs[..k]).value;
            Opened(w, native, own, h.current.Some?, recs[k]).Some?
            && Closed(h) == GroupRecords(w, native, own, EMPTY, recs).value.turns
    decreases |recs|
  {
    var front, last := recs[..|recs| - 1], recs[|recs| - 1];
    assert recs == front + [last];
    GroupConcat(w, native, own, EMPTY, front, [last]);
    var h := GroupRecords(w, native, own, EMPTY, front).value;
    GroupOne(w, native, own, h, last);
    if Opened(w, native, own, h.current.Some?, last).Some? {
      k := |recs| - 1;
    } else {
      k := LastOpener(w, native, own, front, base);
      assert front[..k] == recs[..k];
    }
  }

  /**
   Records cut at the open turn's first line: grouping what follows the cut, however far the records now
   reach, gives exactly the turns that were not closed when the cut prefix ended.
   */
  lemma ResumeRecords(w: World, native: string, own: Ownership, head: seq<Numbered>, kept: seq<Numbered>,
                      more: seq<Numbered>, base: nat)
    requires own.Owned? && GroupRecords(w, native, own, EMPTY, head + kept).Ok?
    requires forall i :: 0 <= i < |head + kept| ==> (head + kept)[i].0 == base + 1 + i
    requires var g := GroupRecords(w, native, own, EMPTY, head + kept).value;
             g.current.Some? && g.current.value.start == base + 1 + |head|
    ensures GroupRecords(w, native, own, EMPTY, head + (kept + more)) ==
            Behind(GroupRecords(w, native, own, EMPTY, head + kept).value.turns,
                   GroupRecords(w, native, own, EMPTY, kept + more))
    ensures kept != [] && Opened(w, native, own, false, kept[0]).Some?
  {
    var k := LastOpener(w, native, own, head + kept, base);
    assert (head + kept)[..k] == head && (head + kept)[k] == kept[0];
    var h := GroupRecords(w, native, own, EMPTY, head).value;
    GroupConcat(w, native, own, EMPTY, head, kept + more);
    GroupFromOpener(w, native, own, h, kept + more);
  }

  lemma {:induction false} KeepsOpen(w: World, native: string, own: Ownership, g: Grouping, recs: seq<Numbered>)
    requires own.Owned? && g.current.Some? && GroupRecords(w, native, own, g, recs).Ok?
    ensures GroupRecords(w, native, own, g, recs).value.current.Some?
    decreases |recs|
  {
    if recs != [] {
      KeepsOpen(w, native, own, GroupRecord(w, native, own, g, recs[0]), recs[1..]);
    }
  }

  /** Once a record opens a turn there is a turn to the end. */
  lemma StaysOpen(w: World, native: string, own: Ownership, recs: seq<Numbered>)
    requires own.Owned? && recs != [] && GroupRecords(w, native, own, EMPTY, recs).Ok?
    requires Opened(w, native, own, false, recs[0]).Some?
    ensures Closed(GroupRecords(w, native, own, EMPTY, recs).value) != []
  {
    KeepsOpen(w, native, own, GroupRecord(w, native, own, EMPTY, recs[0]), recs[1..]);
  }

  /** The same in terms of all turns, open one included. */
  lemma ResumedGroups(w: World, native: string, own: Ownership, head: seq<Numbered>, kept: seq<Numbered>,
                      more: seq<Numbered>, base: nat)
    requires own.Owned? && GroupRecords(w, native, own, EMPTY, head + kept).Ok?
    requires forall i :: 0 <= i < |head + kept| ==> (head + kept)[i].0 == base + 1 + i
    requires var g := GroupRecords(w, native, own, EMPTY, head + kept).value;
             g.current.Some? && g.current.value.start == base + 1 + |head|
    ensures Turns(w, native, own, Ok(head + (kept + more))) ==
            var tail := Turns(w, native, own, Ok(kept + more));
            if tail.Ok? then Ok(GroupRecords(w, native, own, EMPTY, head + kept).value.turns + tail.value) else Err
    ensures Turns(w, native, own, Ok(kept + more)).Ok? ==> Turns(w, native, own, Ok(kept + more)).value != []
  {
    ResumeRecords(w, native, own, head, kept, more, base);
    var done := GroupRecords(w, native, own, EMPTY, head + kept).value.turns;
    var tail := GroupRecords(w, native, own, EMPTY, kept + more);
    if tail.Ok? {
      assert Closed(tail.value.(turns := done + tail.value.turns)) == done + Closed(tail.value);
      StaysOpen(w, native, own, kept + more);
    }
  }

  /** Every turn starts with a user block and only gains more. */
  lemma {:induction false} TurnsHaveBlocks(w: World, native: string, own: Ownership, g: Grouping, recs: seq<Numbered>)
    requires own.Owned? && GroupRecords(w, native, own, g, recs).Ok?
    requires forall t :: t in Closed(g) ==> t.blocks != []
    ensures forall t :: t in Closed(GroupRecords(w, native, own, g, recs).value) ==> t.blocks != []
    decreases |recs|
  {
    if recs != [] {
      var next := GroupRecord(w, native, own, g, recs[0]);
      forall t | t in Closed(next) ensures t.blocks != [] {
        if t !in Closed(g) {
          assert next.current.Some? && t == next.current.value;
          assert g.current.Some? ==> g.current.value in Closed(g);
        }
      }
      TurnsHaveBlocks(w, native, own, next, recs[1..]);
    }
  }

  /** So no grouping, from the first line or resumed, yields a turn without blocks. */
  lemma GroupedHaveBlocks(w: World, native: string, own: Ownership, recs: Result<seq<Numbered>>)
    requires own.Owned? && Turns(w, native, own, recs).Ok?
    ensures forall t :: t in Turns(w, native, own, recs).value ==> t.blocks != []
  {
    TurnsHaveBlocks(w, native, own, EMPTY, recs.value);
  }
}
