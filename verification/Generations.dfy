/**
 Replica generations: readers pin the current generation, publishers place a verified one and move the two pointer
 files, and pruning removes the rest. Locks are advisory flocks, removal of a directory is not atomic, and any process
 may die at any point.
 */
module Generations {
  import opened Common

  datatype Publication = Publication(identity: string, epoch: nat)

  /** A generation's key is the digest of its manifest, which names its publication. */
  datatype Key = Key(manifest: nat, publication: Option<Publication>)

  /** A generation directory: whether it verifies, and whether it has a readers' lock file. */
  datatype Dir = Dir(whole: bool, managed: bool)

  datatype Phase =
    | Idle
    | ReaderLocked                              // holds the publication lock, shared
    | ReaderRead(key: Key)                      // has read CURRENT
    | PinnedLocked(key: Key)                    // also holds the generation's readers' lock, shared
    | Pinned(key: Key)                          // publication lock released
    | Staged(key: Key)                          // a verified copy in a staging directory
    | PubLocked(key: Key)                       // holds the publication lock, exclusive, down to PubDone
    | PubChecked(key: Key)
    | PubPlaced(key: Key)
    | PubPrevious(key: Key)                     // PREVIOUS written, CURRENT not yet
    | PubDone
    | PruneLocked                               // holds the publication lock, exclusive, while pruning
    | PruneScan(todo: set<Key>)
    | PruneHold(todo: set<Key>, key: Key)       // holds the generation's readers' lock, exclusive
    | PruneRemoving(todo: set<Key>, key: Key)   // inside rmtree

  datatype State = State(dirs: map<Key, Dir>, current: Option<Key>, previous: Option<Key>, procs: seq<Phase>)

  predicate Shared(ph: Phase) {
    ph.ReaderLocked? || ph.ReaderRead? || ph.PinnedLocked?
  }

  predicate Publishing(ph: Phase) {
    ph.PubLocked? || ph.PubChecked? || ph.PubPlaced? || ph.PubPrevious? || ph.PubDone?
  }

  predicate Exclusive(ph: Phase) {
    Publishing(ph) || ph.PruneLocked? || ph.PruneScan? || Removes(ph)
  }

  predicate Removes(ph: Phase) {
    ph.PruneHold? || ph.PruneRemoving?
  }

  /** The generation a reader has pinned. */
  function PinOf(ph: Phase): Option<Key> {
    if ph.PinnedLocked? || ph.Pinned? then Some(ph.key) else None
  }

  predicate NoExclusive(s: State) {
    forall q :: 0 <= q < |s.procs| ==> !Exclusive(s.procs[q])
  }

  predicate NoLock(s: State) {
    NoExclusive(s) && forall q :: 0 <= q < |s.procs| ==> !Shared(s.procs[q])
  }

  predicate Unpinned(s: State, key: Key) {
    forall q :: 0 <= q < |s.procs| ==> PinOf(s.procs[q]) != Some(key)
  }

  predicate Serves(s: State, key: Key) {
    key in s.dirs && s.dirs[key] == Dir(true, true)
  }

  function Protected(s: State): set<Key> {
    (if s.current.Some? then {s.current.value} else {}) + (if s.previous.Some? then {s.previous.value} else {})
  }

  /** The monotone publication check: once an identity is recorded it stays, and its epoch never falls. */
  predicate Allowed(was: Option<Publication>, now: Option<Publication>) {
    was.Some? ==> now.Some? && now.value.identity == was.value.identity && now.value.epoch >= was.value.epoch
  }

  function Move(s: State, p: nat, ph: Phase): State
    requires p < |s.procs|
  {
    s.(procs := s.procs[p := ph])
  }

  // ---- steps ----

  /** pin_current, until the catalog is closed. */
  predicate ReadStep(s: State, p: nat, t: State)
    requires p < |s.procs|
  {
    match s.procs[p]
    case Idle => NoExclusive(s) && t == Move(s, p, ReaderLocked)
    case ReaderLocked => t == Move(s, p, if s.current.Some? then ReaderRead(s.current.value) else Idle)
    case ReaderRead(key) =>
      || (key in s.dirs && s.dirs[key].managed && t == Move(s, p, PinnedLocked(key)))
      || ((key in s.dirs ==> !s.dirs[key].managed) && t == Move(s, p, Idle))
    case PinnedLocked(key) => t == Move(s, p, Pinned(key))
    case Pinned(_) => t == Move(s, p, Idle)
    case _ => false
  }

  /** activate_replica from the verified staging copy on. A raised error releases the lock. */
  predicate PublishStep(s: State, p: nat, t: State)
    requires p < |s.procs|
  {
    match s.procs[p]
    case Idle => p < |t.procs| && t.procs[p].Staged? && t == Move(s, p, t.procs[p])
    case Staged(key) => NoLock(s) && t == Move(s, p, PubLocked(key))
    case PubLocked(key) =>
      t == Move(s, p,
                if s.current.None? || Allowed(s.current.value.publication, key.publication) then PubChecked(key)
                else Idle)
    case PubChecked(key) =>
      if key in s.dirs then t == Move(s, p, if s.dirs[key] == Dir(true, true) then PubPlaced(key) else Idle)
      else t == Move(s, p, PubPlaced(key)).(dirs := s.dirs[key := Dir(true, true)])
    case PubPlaced(key) =>
      t == Move(s, p, PubPrevious(key)).(
             previous := if s.current.Some? && s.current.value != key then s.current else s.previous)
    case PubPrevious(key) => t == Move(s, p, PubDone).(current := Some(key))
    case PubDone => t == Move(s, p, Idle)
    case _ => false
  }

  /** prune_replica. While rmtree runs, the directory no longer verifies and its lock file may go at any time. */
  predicate PruneStep(s: State, p: nat, t: State)
    requires p < |s.procs|
  {
    match s.procs[p]
    case Idle => NoLock(s) && t == Move(s, p, PruneLocked)
    case PruneLocked => t == Move(s, p, if s.current.Some? then PruneScan(s.dirs.Keys - Protected(s)) else Idle)
    case PruneScan(todo) =>
      if todo == {} then t == Move(s, p, Idle)
      else exists key :: key in todo &&
             t == Move(s, p,
                       if key in s.dirs && s.dirs[key].managed && Unpinned(s, key) then PruneHold(todo - {key}, key)
                       else PruneScan(todo - {key}))
    case PruneHold(todo, key) => t == Move(s, p, PruneRemoving(todo, key)).(dirs := s.dirs[key := Dir(false, true)])
    case PruneRemoving(todo, key) =>
      || t == s.(dirs := s.dirs[key := Dir(false, false)])
      || t == Move(s, p, PruneScan(todo)).(dirs := s.dirs - {key})
    case _ => false
  }

  predicate Step(s: State, p: nat, t: State)
    requires p < |s.procs|
  {
    ReadStep(s, p, t) || PublishStep(s, p, t) || PruneStep(s, p, t) || t == Move(s, p, Idle)
  }

  /** Any directories may lie around; the pointers name verified generations, and no process is active. */
  predicate Init(s: State) {
    && (forall key :: key in Protected(s) ==> Serves(s, key))
    && forall p :: 0 <= p < |s.procs| ==> s.procs[p] == Idle
  }

  ghost predicate Next(s: State, t: State) {
    exists p :: 0 <= p < |s.procs| && Step(s, p, t)
  }

  ghost predicate Run(states: seq<State>) {
    |states| > 0 && Init(states[0])
    && forall i :: 0 <= i < |states| - 1 ==> Next(states[i], states[i + 1])
  }

  // ---- the invariant ----

  predicate Knows(s: State, ph: Phase) {
    && (ph.ReaderRead? ==> s.current == Some(ph.key))
    && (ph.PinnedLocked? || ph.Pinned? || ph.PubPlaced? || ph.PubPrevious? ==> Serves(s, ph.key))
    && (ph.PubChecked? || ph.PubPlaced? || ph.PubPrevious? ==>
         s.current.Some? ==> Allowed(s.current.value.publication, ph.key.publication))
    && (ph.PruneScan? || Removes(ph) ==> ph.todo !! Protected(s))
    && (ph.PruneRemoving? ==> ph.key in s.dirs && !s.dirs[ph.key].whole)
    && (Removes(ph) ==> ph.key in s.dirs && ph.key !in Protected(s) && ph.key !in ph.todo && Unpinned(s, ph.key))
  }

  predicate Inv(s: State) {
    && (forall key :: key in Protected(s) ==> Serves(s, key))
    && (forall p :: 0 <= p < |s.procs| ==> Knows(s, s.procs[p]))
    && (forall p, q :: 0 <= p < |s.procs| && 0 <= q < |s.procs| && p != q && Exclusive(s.procs[p]) ==>
          !Exclusive(s.procs[q]) && !Shared(s.procs[q]))
  }

  /** Only the acting process changes. */
  lemma MoveInv(s: State, p: nat, t: State, ph: Phase)
    requires p < |s.procs| && Inv(s) && t == Move(s, p, ph) && Knows(t, ph)
    requires Exclusive(ph) ==> Exclusive(s.procs[p]) || NoLock(s)
    requires Shared(ph) ==> Shared(s.procs[p]) || NoExclusive(s)
    requires PinOf(ph).Some? ==> PinOf(ph) == PinOf(s.procs[p]) || Shared(s.procs[p])
    ensures Inv(t)
  {
    forall q | 0 <= q < |t.procs| ensures Knows(t, t.procs[q]) {
      if q != p {
        assert Knows(s, s.procs[q]);
        if Removes(s.procs[q]) {
          assert Exclusive(s.procs[q]) && !Shared(s.procs[p]);
          forall r | 0 <= r < |t.procs| ensures PinOf(t.procs[r]) != Some(s.procs[q].key) {
            assert PinOf(s.procs[r]) != Some(s.procs[q].key);
          }
        }
      }
    }
    assert Protected(t) == Protected(s);
    forall key | key in Protected(t) ensures Serves(t, key) {
    }
    forall q, r | 0 <= q < |t.procs| && 0 <= r < |t.procs| && q != r && Exclusive(t.procs[q])
      ensures !Exclusive(t.procs[r]) && !Shared(t.procs[r])
    {
    }
  }

  /** The exclusive holder changes directories or pointers: everyone else only has pins, which it respects. */
  lemma ChangeInv(s: State, p: nat, t: State, ph: Phase)
    requires p < |s.procs| && Inv(s) && Exclusive(s.procs[p]) && Exclusive(ph) && PinOf(ph) == None
             && PinOf(s.procs[p]) == None
    requires t.procs == s.procs[p := ph] && Knows(t, ph)
    requires forall key :: key in Protected(t) ==> Serves(t, key)
    requires forall key :: Serves(s, key) && !Serves(t, key) ==> Unpinned(s, key)
    ensures Inv(t)
  {
    forall q | 0 <= q < |t.procs| ensures Knows(t, t.procs[q]) {
      if q != p {
        assert Knows(s, s.procs[q]) && !Exclusive(s.procs[q]) && !Shared(s.procs[q]);
        if s.procs[q].Pinned? {
          assert !Unpinned(s, s.procs[q].key);
        }
      }
    }
  }

  lemma ReadInv(s: State, p: nat, t: State)
    requires p < |s.procs| && Inv(s) && ReadStep(s, p, t)
    ensures Inv(t)
  {
    var ph := s.procs[p];
    assert Knows(s, ph);
    assert ph.ReaderRead? ==> ph.key in Protected(s);
    MoveInv(s, p, t, t.procs[p]);
  }

  lemma PublishInv(s: State, p: nat, t: State)
    requires p < |s.procs| && Inv(s) && PublishStep(s, p, t)
    ensures Inv(t)
  {
    var ph := s.procs[p];
    assert Knows(s, ph);
    if ph.PubPlaced? || ph.PubPrevious? || (ph.PubChecked? && ph.key !in s.dirs) {
      forall key | key in Protected(t) ensures Serves(t, key) {
        assert key in Protected(s) || key == ph.key;
      }
      ChangeInv(s, p, t, t.procs[p]);
    } else {
      MoveInv(s, p, t, t.procs[p]);
    }
  }

  lemma PruneInv(s: State, p: nat, t: State)
    requires p < |s.procs| && Inv(s) && PruneStep(s, p, t)
    ensures Inv(t)
  {
    var ph := s.procs[p];
    assert Knows(s, ph);
    if Removes(ph) {
      ChangeInv(s, p, t, t.procs[p]);
    } else {
      MoveInv(s, p, t, t.procs[p]);
    }
  }

  lemma StepInv(s: State, p: nat, t: State)
    requires p < |s.procs| && Inv(s) && Step(s, p, t)
    ensures Inv(t)
  {
    if ReadStep(s, p, t) {
      ReadInv(s, p, t);
    } else if PublishStep(s, p, t) {
      PublishInv(s, p, t);
    } else if PruneStep(s, p, t) {
      PruneInv(s, p, t);
    } else {
      MoveInv(s, p, t, Idle);
    }
  }

  lemma {:induction false} RunInv(states: seq<State>, n: nat)
    requires Run(states) && n < |states|
    ensures Inv(states[n])
  {
    if n > 0 {
      RunInv(states, n - 1);
      assert Next(states[n - 1], states[n - 1 + 1]);
      var p :| 0 <= p < |states[n - 1].procs| && Step(states[n - 1], p, states[n]);
      StepInv(states[n - 1], p, states[n]);
    }
  }

  // ---- what it gives ----

  /** Over every run and at every crash point, CURRENT and PREVIOUS name verified generations when set. */
  lemma PointersServe(states: seq<State>, n: nat)
    requires Run(states) && n < |states|
    ensures states[n].current.Some? ==> Serves(states[n], states[n].current.value)
    ensures states[n].previous.Some? ==> Serves(states[n], states[n].previous.value)
  {
    RunInv(states, n);
  }

  /** Over every run, a generation a reader has pinned is whole, and stays so while it is pinned. */
  lemma PinnedStays(states: seq<State>, n: nat, p: nat)
    requires Run(states) && n < |states| && p < |states[n].procs| && PinOf(states[n].procs[p]).Some?
    ensures Serves(states[n], PinOf(states[n].procs[p]).value)
  {
    RunInv(states, n);
    assert Knows(states[n], states[n].procs[p]);
  }

  /** A step that damages or removes a verified generation is a prune's, under both exclusive locks. */
  lemma OnlyPruneRemoves(states: seq<State>, n: nat, p: nat, key: Key)
    requires Run(states) && n + 1 < |states| && p < |states[n].procs| && Step(states[n], p, states[n + 1])
    requires Serves(states[n], key) && !Serves(states[n + 1], key)
    ensures states[n].procs[p].PruneHold? && states[n].procs[p].key == key
    ensures key !in Protected(states[n]) && Unpinned(states[n], key)
  {
    RunInv(states, n);
    assert Knows(states[n], states[n].procs[p]);
  }

  lemma CurrentStep(s: State, p: nat, t: State)
    requires p < |s.procs| && Inv(s) && Step(s, p, t) && s.current.Some?
    ensures t.current.Some?
    ensures s.current.value.publication.Some? ==>
              var was, now := s.current.value.publication.value, t.current.value.publication;
              now.Some? && now.value.identity == was.identity && now.value.epoch >= was.epoch
  {
    assert Knows(s, s.procs[p]);
  }

  /** A generation once current never gives way to another publication identity or an earlier epoch. */
  lemma {:induction false} PublicationsAdvance(states: seq<State>, i: nat, j: nat)
    requires Run(states) && i <= j < |states| && states[i].current.Some?
    ensures states[j].current.Some?
    ensures states[i].current.value.publication.Some? ==>
              var was, now := states[i].current.value.publication.value, states[j].current.value.publication;
              now.Some? && now.value.identity == was.identity && now.value.epoch >= was.epoch
    decreases j
  {
    hide Step, Inv;
    if i < j {
      PublicationsAdvance(states, i, j - 1);
      RunInv(states, j - 1);
      assert Next(states[j - 1], states[j - 1 + 1]);
      var p :| 0 <= p < |states[j - 1].procs| && Step(states[j - 1], p, states[j]);
      CurrentStep(states[j - 1], p, states[j]);
    }
  }

  // ---- one undisturbed activation ----

  /** Process p activates, and nothing else happens. */
  predicate Undisturbed(states: seq<State>, p: nat) {
    forall i :: 0 <= i < |states| ==>
      p < |states[i].procs| && (i + 1 < |states| ==> PublishStep(states[i], p, states[i + 1]))
  }

  lemma ActivationBegins(s: State, p: nat, key: Key)
    requires p < |s.procs| && s.procs[p] == Idle && NoLock(s)
    ensures PublishStep(s, p, Move(s, p, Staged(key)))
    ensures PublishStep(Move(s, p, Staged(key)), p, Move(s, p, PubLocked(key)))
  {
    assert Move(Move(s, p, Staged(key)), p, PubLocked(key)) == Move(s, p, PubLocked(key));
  }

  lemma ActivationPlaces(s: State, p: nat, key: Key)
    requires p < |s.procs| && s.procs[p] == PubLocked(key) && (key in s.dirs ==> s.dirs[key] == Dir(true, true))
    requires s.current.Some? && s.current.value.publication.Some? ==>
               var was := s.current.value.publication.value;
               && key.publication.Some? && key.publication.value.identity == was.identity
               && was.epoch <= key.publication.value.epoch
    ensures var checked := Move(s, p, PubChecked(key));
            PublishStep(s, p, checked)
            && PublishStep(checked, p, Move(s, p, PubPlaced(key)).(dirs := s.dirs[key := Dir(true, true)]))
  {
    assert key in s.dirs ==> s.dirs[key := Dir(true, true)] == s.dirs;
    assert Move(Move(s, p, PubChecked(key)), p, PubPlaced(key)) == Move(s, p, PubPlaced(key));
  }

  lemma ActivationPoints(s: State, p: nat, key: Key)
    requires p < |s.procs| && s.procs[p] == PubPlaced(key)
    ensures var previous := if s.current.Some? && s.current != Some(key) then s.current else s.previous;
            var pointed := Move(s, p, PubPrevious(key)).(previous := previous);
            PublishStep(s, p, pointed)
            && PublishStep(pointed, p, State(s.dirs, Some(key), previous, s.procs[p := PubDone]))
  {
    assert s.procs[p := PubPrevious(key)][p := PubDone] == s.procs[p := PubDone];
  }

  /**
   From a free replica a verified generation can be activated to the end unless it would drop the current publication
   identity, change it or lower its epoch. CURRENT then names it, and PREVIOUS the former CURRENT if that was another.
   */
  lemma ActivationReaches(s: State, p: nat, key: Key) returns (states: seq<State>)
    requires p < |s.procs| && s.procs[p] == Idle && NoLock(s)
    requires key in s.dirs ==> s.dirs[key] == Dir(true, true)
    requires s.current.Some? && s.current.value.publication.Some? ==>
               var was := s.current.value.publication.value;
               && key.publication.Some? && key.publication.value.identity == was.identity
               && was.epoch <= key.publication.value.epoch
    ensures Undisturbed(states, p) && |states| == 7 && states[0] == s
    ensures states[6].procs == s.procs[p := PubDone] && states[6].dirs == s.dirs[key := Dir(true, true)]
    ensures states[6].current == Some(key)
    ensures states[6].previous == if s.current.Some? && s.current != Some(key) then s.current else s.previous
  {
    hide PublishStep, NoLock;
    var dirs := s.dirs[key := Dir(true, true)];
    var previous := if s.current.Some? && s.current != Some(key) then s.current else s.previous;
    var locked, placed := Move(s, p, PubLocked(key)), Move(s, p, PubPlaced(key)).(dirs := dirs);
    ActivationBegins(s, p, key);
    ActivationPlaces(locked, p, key);
    ActivationPoints(placed, p, key);
    assert Move(locked, p, PubChecked(key)) == Move(s, p, PubChecked(key));
    assert Move(locked, p, PubPlaced(key)).(dirs := dirs) == placed;
    assert Move(placed, p, PubPrevious(key)) == Move(s, p, PubPrevious(key)).(dirs := dirs);
    assert placed.procs[p := PubDone] == s.procs[p := PubDone];
    states := [s, Move(s, p, Staged(key)), locked, Move(s, p, PubChecked(key)), placed,
               Move(s, p, PubPrevious(key)).(dirs := dirs, previous := previous),
               State(dirs, Some(key), previous, s.procs[p := PubDone])];
  }

  /**
   The check is exact: under the lock the next step goes on if the current publication may give way to the new one,
   and otherwise gives up with nothing changed.
   */
  lemma ActivationChecked(s: State, p: nat, key: Key, t: State)
    requires p < |s.procs| && s.procs[p] == PubLocked(key) && PublishStep(s, p, t)
    ensures var allowed := s.current.Some? && s.current.value.publication.Some? ==>
                             var was := s.current.value.publication.value;
                             && key.publication.Some? && key.publication.value.identity == was.identity
                             && was.epoch <= key.publication.value.epoch;
            t == s.(procs := s.procs[p := if allowed then PubChecked(key) else Idle])
  {
  }

  // ---- what readers and sweeps do, told outright ----

  /** A process has this generation pinned. */
  predicate PinnedBy(s: State, key: Key) {
    exists q :: 0 <= q < |s.procs| && (s.procs[q] == PinnedLocked(key) || s.procs[q] == Pinned(key))
  }

  lemma PinnedTold(s: State, key: Key)
    ensures Unpinned(s, key) <==> !PinnedBy(s, key)
  {
    if !Unpinned(s, key) {
      var q :| 0 <= q < |s.procs| && PinOf(s.procs[q]) == Some(key);
      assert s.procs[q] == PinnedLocked(key) || s.procs[q] == Pinned(key);
    }
  }

  /**
   A reader starts while no one publishes or prunes, reads CURRENT, pins the generation named there if it has a readers'
   lock file, and gives up if there is no CURRENT or no such file.
   */
  lemma ReaderMoves(s: State, p: nat, t: State)
    requires p < |s.procs|
    ensures s.procs[p] == Idle ==>
              (ReadStep(s, p, t) <==> (forall q :: 0 <= q < |s.procs| ==> !Exclusive(s.procs[q]))
                                      && t == s.(procs := s.procs[p := ReaderLocked]))
    ensures s.procs[p] == ReaderLocked ==>
              (ReadStep(s, p, t) <==>
                 t == s.(procs := s.procs[p := if s.current == None then Idle else ReaderRead(s.current.value)]))
    ensures s.procs[p].ReaderRead? ==>
              var key := s.procs[p].key;
              (ReadStep(s, p, t) <==>
                 t == s.(procs := s.procs[p := if key in s.dirs && s.dirs[key].managed then PinnedLocked(key)
                                               else Idle]))
    ensures s.procs[p].PinnedLocked? ==>
              (ReadStep(s, p, t) <==> t == s.(procs := s.procs[p := Pinned(s.procs[p].key)]))
    ensures s.procs[p].Pinned? ==> (ReadStep(s, p, t) <==> t == s.(procs := s.procs[p := Idle]))
  {
  }

  /**
   A sweep starts while nobody holds the publication lock. It visits every generation that neither pointer names, passes
   over those without a readers' lock file or with a reader, and removes the others, which stop verifying first, may
   lose their lock file at any time, and are gone in the end.
   */
  lemma SweepMoves(s: State, p: nat, t: State)
    requires p < |s.procs|
    ensures s.procs[p] == Idle ==>
              (PruneStep(s, p, t) <==>
                 (forall q :: 0 <= q < |s.procs| ==> !Exclusive(s.procs[q]) && !Shared(s.procs[q]))
                 && t == s.(procs := s.procs[p := PruneLocked]))
    ensures s.procs[p] == PruneLocked ==>
              var others := set key | key in s.dirs && s.current != Some(key) && s.previous != Some(key);
              (PruneStep(s, p, t) <==>
                 t == s.(procs := s.procs[p := if s.current == None then Idle else PruneScan(others)]))
    ensures s.procs[p] == PruneScan({}) ==> (PruneStep(s, p, t) <==> t == s.(procs := s.procs[p := Idle]))
    ensures s.procs[p].PruneScan? && s.procs[p].todo != {} ==>
              var todo := s.procs[p].todo;
              (PruneStep(s, p, t) <==> exists key :: key in todo && t == s.(procs := s.procs[p := Visit(s, todo, key)]))
    ensures s.procs[p].PruneHold? ==>
              var key := s.procs[p].key;
              (PruneStep(s, p, t) <==>
                 t == s.(procs := s.procs[p := PruneRemoving(s.procs[p].todo, key)],
                         dirs := s.dirs[key := Dir(false, true)]))
    ensures s.procs[p].PruneRemoving? ==>
              var key := s.procs[p].key;
              (PruneStep(s, p, t) <==>
                 || t == s.(dirs := s.dirs[key := Dir(false, false)])
                 || t == s.(procs := s.procs[p := PruneScan(s.procs[p].todo)], dirs := s.dirs - {key}))
  {
    if s.procs[p] == PruneLocked {
      assert s.dirs.Keys - Protected(s) ==
             set key | key in s.dirs && s.current != Some(key) && s.previous != Some(key);
    }
    if s.procs[p].PruneScan? {
      forall key | key in s.procs[p].todo ensures Unpinned(s, key) <==> !PinnedBy(s, key) {
        PinnedTold(s, key);
      }
    }
  }

  function Visit(s: State, todo: set<Key>, key: Key): Phase {
    if key in s.dirs && s.dirs[key].managed && !PinnedBy(s, key) then PruneHold(todo - {key}, key)
    else PruneScan(todo - {key})
  }

  // ---- one undisturbed sweep ----

  /** The generations this protocol manages and no pointer protects. */
  function Eligible(dirs: map<Key, Dir>, protected: set<Key>): set<Key> {
    set key | key in dirs && key !in protected && dirs[key].managed
  }

  /** Removes exactly the eligible generations no reader has pinned, and counts both kinds. */
  method PruneReplica(dirs: map<Key, Dir>, current: Option<Key>, previous: Option<Key>, pins: set<Key>)
    returns (counts: Result<(nat, nat)>, left: map<Key, Dir>)
    ensures var eligible := Eligible(dirs, Protected(State(dirs, current, previous, [])));
            && counts == (if current.None? then Err else Ok((|eligible - pins|, |eligible * pins|)))
            && left == if current.None? then dirs else dirs - (eligible - pins)
    ensures counts.Err? <==> current == None
    ensures counts.Ok? ==>
              && (forall key :: key in left ==> key in dirs && left[key] == dirs[key])
              && (forall key :: key in dirs ==>
                    (key !in left <==> dirs[key].managed && current != Some(key) && previous != Some(key)
                                       && key !in pins))
              && counts.value.1 == |set key | key in dirs && dirs[key].managed && current != Some(key)
                                              && previous != Some(key) && key in pins|
  {
    ghost var kept := set key | key in dirs && dirs[key].managed && current != Some(key) && previous != Some(key)
                                && key in pins;
    assert kept == Eligible(dirs, Protected(State(dirs, current, previous, []))) * pins;
    left := dirs;
    if current.None? {
      return Err, left;
    }
    var protected := Protected(State(dirs, current, previous, []));
    var removed, pinned, todo := {}, {}, dirs.Keys;
    while todo != {}
      invariant todo <= dirs.Keys && Swept(dirs, protected, pins, todo, removed, pinned) && left == dirs - removed
      decreases todo
    {
      var key :| key in todo;
      todo := todo - {key};
      if key !in protected && dirs[key].managed {
        if key in pins {
          pinned := pinned + {key};
        } else {
          removed := removed + {key};
          left := RemoveTree(dirs, left, removed, key);
        }
      }
    }
    assert removed == Eligible(dirs, protected) - pins && pinned == Eligible(dirs, protected) * pins;
    return Ok((|removed|, |pinned|)), left;
  }

  ghost predicate Swept(dirs: map<Key, Dir>, protected: set<Key>, pins: set<Key>, todo: set<Key>, removed: set<Key>,
                        pinned: set<Key>) {
    forall key: Key ::
      && (key in removed <==> key in dirs && key !in todo && key !in protected && dirs[key].managed && key !in pins)
      && (key in pinned <==> key in dirs && key !in todo && key !in protected && dirs[key].managed && key in pins)
  }

  method RemoveTree(dirs: map<Key, Dir>, left: map<Key, Dir>, removed: set<Key>, key: Key) returns (less: map<Key, Dir>)
    requires left == dirs - (removed - {key}) && key in removed
    ensures less == dirs - removed
  {
    less := left - {key};
  }
}
