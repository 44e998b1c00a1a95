/**
 transfer_lock and its rivals: processes open, lock, check, use, retire and recreate the lock file of one
 transfer, while expire_transfers removes stale partials and orphaned locks. Any process may die at any point.
 */
module TransferLock {
  import opened Common

  type Inode = nat

  /**
   Appenders and reclaimers are writers (they hold the shared writer lease and create the lock); status is a reader.
   */
  datatype Role = Writer | Reader

  /**
   Where a process is. A process holds the flock of `fd` in every phase that mentions an inode, except Waiting ones.
   */
  datatype Phase =
    | Idle
    | Ready(role: Role)                                 // about to open the lock file
    | Waiting(role: Role, fd: Inode)                    // opened, not locked
    | Locked(role: Role, fd: Inode)                     // locked, path not yet compared
    | Inside(role: Role, fd: Inode)                     // path names the held inode: the body runs
    | Retiring(role: Role, fd: Inode)                   // body over, partial seen missing, about to unlink
    | Leaving(role: Role, fd: Inode)                    // about to close
    | Sweeping                                          // expire_transfers, holding the exclusive writer lease
    | StaleWaiting(fd: Inode)                           // opened the lock of a partial it listed
    | StaleLocked(fd: Inode)
    | StaleRemoved(fd: Inode)                           // partial unlinked, about to unlink the lock
    | OrphanListed(seen: Inode)                         // listed a lock without a partial
    | OrphanWaiting(seen: Inode, fd: Inode)
    | OrphanLocked(seen: Inode, fd: Inode)
    | OrphanRetiring(seen: Inode, fd: Inode)            // path seen naming the listed inode, about to unlink
    | SweepLeaving(fd: Inode)

  /**
   The directory entry of the lock, whether the partial exists, and all processes. Inode numbers below `next` are
   used up.
   */
  datatype State = State(path: Option<Inode>, partial: bool, procs: seq<Phase>, next: Inode)

  function Held(ph: Phase): Option<Inode> {
    match ph
    case Locked(_, fd) => Some(fd)
    case Inside(_, fd) => Some(fd)
    case Retiring(_, fd) => Some(fd)
    case Leaving(_, fd) => Some(fd)
    case StaleLocked(fd) => Some(fd)
    case StaleRemoved(fd) => Some(fd)
    case OrphanLocked(_, fd) => Some(fd)
    case OrphanRetiring(_, fd) => Some(fd)
    case SweepLeaving(fd) => Some(fd)
    case _ => None
  }

  predicate Sweeps(ph: Phase) {
    ph.Sweeping? || ph.StaleWaiting? || ph.StaleLocked? || ph.StaleRemoved? || ph.OrphanListed? || ph.OrphanWaiting?
    || ph.OrphanLocked? || ph.OrphanRetiring? || ph.SweepLeaving?
  }

  predicate Writes(ph: Phase) {
    (ph.Ready? || ph.Waiting? || ph.Locked? || ph.Inside? || ph.Retiring? || ph.Leaving?) && ph.role.Writer?
  }

  /** flock grants an inode's exclusive lock only while no one else holds it. */
  predicate Free(s: State, fd: Inode) {
    forall q :: 0 <= q < |s.procs| ==> Held(s.procs[q]) != Some(fd)
  }

  function Move(s: State, p: nat, ph: Phase): State
    requires p < |s.procs|
  {
    s.(procs := s.procs[p := ph])
  }

  predicate NoWriter(s: State) {
    forall q :: 0 <= q < |s.procs| ==> !Writes(s.procs[q])
  }

  predicate NoSweep(s: State) {
    forall q :: 0 <= q < |s.procs| ==> !Sweeps(s.procs[q])
  }

  /** A user of the lock moves: transfer_lock from open to close, with the body's effect on the partial. */
  predicate UserStep(s: State, p: nat, t: State)
    requires p < |s.procs|
  {
    match s.procs[p]
    case Idle =>
      || (NoSweep(s) && t == Move(s, p, Ready(Writer)))                                // writer_lease
      || t == Move(s, p, Ready(Reader))
    case Ready(role) =>
      if s.path.Some? then t == Move(s, p, Waiting(role, s.path.value))
      else if role.Writer? then t == Move(s, p, Waiting(role, s.next)).(path := Some(s.next), next := s.next + 1)
      else t == Move(s, p, Idle)                                                        // yield False
    case Waiting(role, fd) =>
      || (Free(s, fd) && t == Move(s, p, Locked(role, fd)))
      || (!Free(s, fd) && t == Move(s, p, Idle))                                        // LOCK_NB: BlockingIOError
    case Locked(role, fd) =>
      if s.path == Some(fd) then t == Move(s, p, Inside(role, fd))
      else t == Move(s, p, Ready(role))                                                 // retired inode: try again
    case Inside(role, fd) =>
      || (role.Writer? && t == s.(partial := t.partial))                            // append, publish, reclaim
      || t == Move(s, p, if s.partial then Leaving(role, fd) else Retiring(role, fd))
    case Retiring(role, fd) => t == Move(s, p, Leaving(role, fd)).(path := None)        // lock.unlink()
    case Leaving(role, fd) => t == Move(s, p, Idle)
    case _ => false
  }

  /** expire_transfers moves. */
  predicate SweepStep(s: State, p: nat, t: State)
    requires p < |s.procs|
  {
    match s.procs[p]
    case Idle => NoWriter(s) && NoSweep(s) && t == Move(s, p, Sweeping)                 // LOCK_EX on the writer lock
    case Sweeping =>
      || (s.partial && s.path.Some? && t == Move(s, p, StaleWaiting(s.path.value)))
      || (!s.partial && s.path.Some? && t == Move(s, p, OrphanListed(s.path.value)))
      || t == Move(s, p, Idle)
    case StaleWaiting(fd) => t == Move(s, p, if Free(s, fd) then StaleLocked(fd) else Sweeping)
    case StaleLocked(fd) =>
      || t == Move(s, p, SweepLeaving(fd))                                              // changed, or only planning
      || (s.partial && t == Move(s, p, StaleRemoved(fd)).(partial := false))
    case StaleRemoved(fd) => t == Move(s, p, SweepLeaving(fd)).(path := None)
    case OrphanListed(seen) =>
      t == Move(s, p, if s.path.Some? then OrphanWaiting(seen, s.path.value) else Sweeping)
    case OrphanWaiting(seen, fd) => t == Move(s, p, if Free(s, fd) then OrphanLocked(seen, fd) else Sweeping)
    case OrphanLocked(seen, fd) =>
      t == Move(s, p, if s.path == Some(seen) then OrphanRetiring(seen, fd) else SweepLeaving(fd))
      || t == Move(s, p, SweepLeaving(fd))
    case OrphanRetiring(seen, fd) => t == Move(s, p, SweepLeaving(fd)).(path := None)
    case SweepLeaving(fd) => t == Move(s, p, Sweeping)
    case _ => false
  }

  /** A process dies: the kernel closes its descriptors, which drops its locks. */
  predicate CrashStep(s: State, p: nat, t: State)
    requires p < |s.procs|
  {
    t == Move(s, p, Idle)
  }

  predicate Step(s: State, p: nat, t: State)
    requires p < |s.procs|
  {
    UserStep(s, p, t) || SweepStep(s, p, t) || CrashStep(s, p, t)
  }

  predicate Init(s: State) {
    && (s.path.Some? ==> s.path.value < s.next)
    && (s.partial ==> s.path.Some?)
    && forall p :: 0 <= p < |s.procs| ==> s.procs[p] == Idle
  }

  ghost predicate Next(s: State, t: State) {
    exists p :: 0 <= p < |s.procs| && Step(s, p, t)
  }

  ghost predicate Run(states: seq<State>) {
    |states| > 0 && Init(states[0])
    && forall i :: 0 <= i < |states| - 1 ==> Next(states[i], states[i + 1])
  }

  // ---- the invariant ----

  /** A process relies on the path naming its inode: it is in the body, or is about to unlink. */
  predicate Relies(ph: Phase) {
    ph.Inside? || ph.Retiring? || ph.StaleWaiting? || ph.StaleLocked? || ph.StaleRemoved? || ph.OrphanRetiring?
  }

  /** What each phase knows about the shared state. */
  predicate Knows(s: State, ph: Phase) {
    && (ph.Waiting? || ph.Locked? ==> ph.fd < s.next)
    && (Held(ph).Some? ==> Held(ph).value < s.next)
    && (ph.OrphanListed? || ph.OrphanWaiting? ==> ph.seen < s.next)
    && (Relies(ph) ==> s.path == Some(ph.fd))
    && (ph.Retiring? || ph.StaleRemoved? ==> !s.partial)
    && (ph.OrphanListed? || ph.OrphanWaiting? || ph.OrphanLocked? || ph.OrphanRetiring? ==> !s.partial)
    && (ph.StaleWaiting? || ph.StaleLocked? ==> s.partial)
    && (ph.OrphanListed? || ph.OrphanWaiting? || ph.OrphanLocked? ==> s.path == None || s.path == Some(ph.seen))
    && (ph.OrphanWaiting? || ph.OrphanLocked? || ph.OrphanRetiring? ==> ph.seen == ph.fd)
  }

  predicate Inv(s: State) {
    && (s.path.Some? ==> s.path.value < s.next)
    && (s.partial ==> s.path.Some?)
    && (forall p :: 0 <= p < |s.procs| ==> Knows(s, s.procs[p]))
    && (forall p, q :: 0 <= p < q < |s.procs| && Held(s.procs[p]).Some? ==> Held(s.procs[p]) != Held(s.procs[q]))
    && (forall p, q :: 0 <= p < |s.procs| && 0 <= q < |s.procs| && p != q && Sweeps(s.procs[p]) ==>
          !Sweeps(s.procs[q]) && !Writes(s.procs[q]))
  }

  /** In the critical section: the body, or between the decision to unlink and the unlink. */
  predicate Critical(ph: Phase) {
    ph.Inside? || ph.Retiring? || ph.StaleLocked? || ph.StaleRemoved? || ph.OrphanRetiring?
  }

  lemma MoveInv(s: State, p: nat, t: State, ph: Phase)
    requires p < |s.procs| && Inv(s) && t == Move(s, p, ph)
    requires Knows(s, ph)
    requires Held(ph).Some? ==> Held(ph) == Held(s.procs[p]) || Free(s, Held(ph).value)
    requires Sweeps(ph) ==> Sweeps(s.procs[p]) || (NoWriter(s) && NoSweep(s))
    requires Writes(ph) ==> Writes(s.procs[p]) || NoSweep(s)
    ensures Inv(t)
  {
    forall q | 0 <= q < |t.procs| ensures Knows(t, t.procs[q]) {
      assert Knows(s, t.procs[q]);
    }
  }

  /**
   Whoever relies on the path while another is in the critical section is that other, unless it only awaits a stale
   lock.
   */
  lemma OnlyOne(s: State, p: nat, q: nat)
    requires p < |s.procs| && q < |s.procs| && Inv(s)
    requires Critical(s.procs[p]) && Relies(s.procs[q])
    requires s.procs[q].StaleWaiting? ==> !s.procs[p].Inside? && !s.procs[p].StaleLocked?
    ensures p == q
  {
    assert Knows(s, s.procs[p]) && Knows(s, s.procs[q]);
  }

  /** Unlinking the lock: everyone else who relies on the path would hold or be about to hold the same inode. */
  lemma UnlinkInv(s: State, p: nat, t: State, ph: Phase)
    requires p < |s.procs| && Inv(s) && t == Move(s, p, ph).(path := None)
    requires s.procs[p].Retiring? || s.procs[p].StaleRemoved? || s.procs[p].OrphanRetiring?
    requires Held(ph) == Held(s.procs[p]) && !Relies(ph) && Knows(t, ph)
    requires Sweeps(ph) <==> Sweeps(s.procs[p])
    requires Writes(ph) ==> Writes(s.procs[p])
    ensures Inv(t)
  {
    assert Knows(s, s.procs[p]);
    forall q | 0 <= q < |t.procs| ensures Knows(t, t.procs[q]) {
      assert Knows(s, s.procs[q]);
      if Relies(s.procs[q]) {
        OnlyOne(s, p, q);
      }
    }
  }

  lemma UserInv(s: State, p: nat, t: State)
    requires p < |s.procs| && Inv(s) && UserStep(s, p, t)
    ensures Inv(t)
  {
    var ph := s.procs[p];
    assert Knows(s, ph);
    if ph.Retiring? {
      UnlinkInv(s, p, t, Leaving(ph.role, ph.fd));
    } else if ph.Ready? && s.path == None && ph.role.Writer? {
      CreateInv(s, p, t);
    } else if ph.Inside? && t.procs == s.procs {
      PartialInv(s, p, t);
    } else {
      MoveInv(s, p, t, t.procs[p]);
    }
  }

  /** A writer creates the lock file anew: no one relies on an absent path, and no sweep is active beside a writer. */
  lemma CreateInv(s: State, p: nat, t: State)
    requires p < |s.procs| && Inv(s) && s.procs[p] == Ready(Writer) && s.path == None
    requires t == Move(s, p, Waiting(Writer, s.next)).(path := Some(s.next), next := s.next + 1)
    ensures Inv(t)
  {
    forall q | 0 <= q < |t.procs| ensures Knows(t, t.procs[q]) {
      assert Knows(s, s.procs[q]);
    }
  }

  /** The body of a writer creates or removes the partial: no one else is retiring or sweeping. */
  lemma PartialInv(s: State, p: nat, t: State)
    requires p < |s.procs| && Inv(s) && s.procs[p].Inside? && s.procs[p].role.Writer? && t == s.(partial := t.partial)
    ensures Inv(t)
  {
    forall q | 0 <= q < |t.procs| ensures Knows(t, t.procs[q]) {
      assert Knows(s, s.procs[q]);
      if s.procs[q].Retiring? {
        OnlyOne(s, p, q);
      }
    }
  }

  lemma StaleInv(s: State, p: nat, t: State)
    requires p < |s.procs| && Inv(s) && SweepStep(s, p, t)
    requires var ph := s.procs[p]; ph.StaleWaiting? || ph.StaleLocked? || ph.StaleRemoved?
    ensures Inv(t)
  {
    var ph := s.procs[p];
    assert Knows(s, ph);
    if ph.StaleRemoved? {
      UnlinkInv(s, p, t, SweepLeaving(ph.fd));
    } else if ph.StaleLocked? && t.procs[p].StaleRemoved? {
      forall q | 0 <= q < |t.procs| ensures Knows(t, t.procs[q]) {
        assert Knows(s, s.procs[q]);
      }
    } else {
      MoveInv(s, p, t, t.procs[p]);
    }
  }

  lemma OrphanInv(s: State, p: nat, t: State)
    requires p < |s.procs| && Inv(s) && SweepStep(s, p, t)
    requires var ph := s.procs[p]; ph.OrphanListed? || ph.OrphanWaiting? || ph.OrphanLocked? || ph.OrphanRetiring?
    ensures Inv(t)
  {
    var ph := s.procs[p];
    assert Knows(s, ph);
    if ph.OrphanRetiring? {
      UnlinkInv(s, p, t, SweepLeaving(ph.fd));
    } else {
      MoveInv(s, p, t, t.procs[p]);
    }
  }

  lemma SweepInv(s: State, p: nat, t: State)
    requires p < |s.procs| && Inv(s) && SweepStep(s, p, t)
    ensures Inv(t)
  {
    var ph := s.procs[p];
    if ph.StaleWaiting? || ph.StaleLocked? || ph.StaleRemoved? {
      StaleInv(s, p, t);
    } else if ph.OrphanListed? || ph.OrphanWaiting? || ph.OrphanLocked? || ph.OrphanRetiring? {
      OrphanInv(s, p, t);
    } else {
      MoveInv(s, p, t, t.procs[p]);
    }
  }

  lemma StepInv(s: State, p: nat, t: State)
    requires p < |s.procs| && Inv(s) && Step(s, p, t)
    ensures Inv(t)
  {
    if UserStep(s, p, t) {
      UserInv(s, p, t);
    } else if SweepStep(s, p, t) {
      SweepInv(s, p, t);
    } else {
      assert Knows(s, s.procs[p]);
      MoveInv(s, p, t, Idle);
    }
  }

  lemma {:induction false} RunInv(states: seq<State>, n: nat)
    requires Run(states) && n < |states|
    ensures Inv(states[n])
  {
    if n > 0 {
      RunInv(states, n - 1);
      assert Next(states[n - 1], states[n - 1 + 1]);
      var p :| 0 <= p < |states[n - 1].procs| && Step(states[n - 1], p, states[n]);
      StepInv(states[n - 1], p, states[n]);
    }
  }

  /** Over every run, at most one process is in the critical section, and it is there under the inode the path names. */
  lemma MutualExclusion(states: seq<State>, n: nat, p: nat, q: nat)
    requires Run(states) && n < |states| && p < |states[n].procs| && q < |states[n].procs|
    requires Critical(states[n].procs[p]) && Critical(states[n].procs[q])
    ensures p == q
    ensures states[n].path == Held(states[n].procs[p])
  {
    RunInv(states, n);
    assert Knows(states[n], states[n].procs[p]) && Knows(states[n], states[n].procs[q]);
  }

  /** Over every run, a step that removes the lock file removes the inode whose flock the acting process holds. */
  lemma UnlinkRemovesHeldInode(states: seq<State>, n: nat, p: nat)
    requires Run(states) && n + 1 < |states| && p < |states[n].procs| && Step(states[n], p, states[n + 1])
    requires states[n].path.Some? && states[n + 1].path != states[n].path
    ensures states[n + 1].path == None && Held(states[n].procs[p]) == states[n].path
  {
    RunInv(states, n);
    assert Knows(states[n], states[n].procs[p]);
  }

  /** Over every run, the partial changes only in the critical section. */
  lemma PartialChangesInside(states: seq<State>, n: nat, p: nat)
    requires Run(states) && n + 1 < |states| && p < |states[n].procs| && Step(states[n], p, states[n + 1])
    requires states[n + 1].partial != states[n].partial
    ensures Critical(states[n].procs[p]) && Held(states[n].procs[p]) == states[n].path
  {
    RunInv(states, n);
    assert Knows(states[n], states[n].procs[p]);
  }

  /**
   Over every run, a partial has its lock file beside it. So a status that finds no lock and answers 0 without looking
   answers the partial's true size.
   */
  lemma NoLockNoPartial(states: seq<State>, n: nat)
    requires Run(states) && n < |states| && states[n].path == None
    ensures !states[n].partial
  {
    RunInv(states, n);
  }

  // ---- undisturbed ----

  /** The states a process goes through when nobody else moves and it does not die. */
  predicate Alone(states: seq<State>, p: nat) {
    forall i :: 0 <= i < |states| ==>
      p < |states[i].procs|
      && (i + 1 < |states| ==> UserStep(states[i], p, states[i + 1]) || SweepStep(states[i], p, states[i + 1]))
  }

  /** Nobody holds any lock file. */
  predicate Quiet(s: State) {
    forall q :: 0 <= q < |s.procs| ==> Held(s.procs[q]) == None
  }

  /** A process at the open reaches the body under the lock file's inode, which a writer creates if it is missing. */
  lemma Enters(s: State, p: nat, role: Role) returns (states: seq<State>)
    requires p < |s.procs| && s.procs[p] == Ready(role) && Quiet(s) && (role.Writer? || s.path.Some?)
    ensures Alone(states, p) && states != [] && states[0] == s
    ensures var fd, last := if s.path.Some? then s.path.value else s.next, states[|states| - 1];
            && last.procs == s.procs[p := Inside(role, fd)] && last.path == Some(fd) && last.partial == s.partial
            && last.next == if s.path.Some? then s.next else s.next + 1
  {
    var fd, next := if s.path.Some? then s.path.value else s.next, if s.path.Some? then s.next else s.next + 1;
    var opening := State(Some(fd), s.partial, s.procs[p := Waiting(role, fd)], next);
    var locked := State(Some(fd), s.partial, s.procs[p := Locked(role, fd)], next);
    var inside := State(Some(fd), s.partial, s.procs[p := Inside(role, fd)], next);
    assert Quiet(opening);
    assert Free(opening, fd) && opening.procs[p := Locked(role, fd)] == locked.procs;
    assert locked.procs[p := Inside(role, fd)] == inside.procs;
    assert UserStep(s, p, opening) && UserStep(opening, p, locked) && UserStep(locked, p, inside);
    states := [s, opening, locked, inside];
  }

  /**
   A status that finds no lock file answers at once; any process may ask, and any may write while nothing is swept.
   */
  lemma Begins(s: State, p: nat)
    requires p < |s.procs| && s.procs[p] == Idle
    ensures UserStep(s, p, s.(procs := s.procs[p := Ready(Reader)]))
    ensures UserStep(s, p, s.(procs := s.procs[p := Ready(Writer)])) <==>
              forall q :: 0 <= q < |s.procs| ==> !Sweeps(s.procs[q])
    ensures SweepStep(s, p, s.(procs := s.procs[p := Sweeping])) <==>
              forall q :: 0 <= q < |s.procs| ==> !Sweeps(s.procs[q]) && !Writes(s.procs[q])
  {
    assert s.procs[p := Ready(Reader)][p] != s.procs[p := Ready(Writer)][p];
  }

  lemma StatusWithoutLock(s: State, p: nat, t: State)
    requires p < |s.procs| && s.procs[p] == Ready(Reader) && s.path == None
    ensures UserStep(s, p, t) <==> t == s.(procs := s.procs[p := Idle])
  {
  }

  /** A lock is granted exactly while no process holds that inode; a process that will not wait gives up otherwise. */
  lemma LockGranted(s: State, p: nat, role: Role, fd: Inode, t: State)
    requires p < |s.procs| && s.procs[p] == Waiting(role, fd)
    ensures UserStep(s, p, t) <==>
              t == s.(procs := s.procs[p := if exists q :: 0 <= q < |s.procs| && Held(s.procs[q]) == Some(fd) then Idle
                                            else Locked(role, fd)])
  {
  }

  /** Only a writer's body changes the partial, in either direction. */
  lemma BodyWrites(s: State, p: nat, fd: Inode, partial: bool)
    requires p < |s.procs| && s.procs[p] == Inside(Writer, fd)
    ensures UserStep(s, p, s.(partial := partial))
  {
  }

  /** The body ends with the lock file kept beside a partial, and removed without one. */
  lemma Leaves(s: State, p: nat, role: Role, fd: Inode) returns (states: seq<State>)
    requires p < |s.procs| && s.procs[p] == Inside(role, fd)
    ensures Alone(states, p) && states != [] && states[0] == s
    ensures states[|states| - 1] == s.(procs := s.procs[p := Idle], path := if s.partial then s.path else None)
  {
    var leaving := s.(procs := s.procs[p := Leaving(role, fd)], path := if s.partial then s.path else None);
    var idle := leaving.(procs := s.procs[p := Idle]);
    assert leaving.procs[p := Idle] == idle.procs;
    if s.partial {
      assert UserStep(s, p, leaving) && UserStep(leaving, p, idle);
      states := [s, leaving, idle];
    } else {
      var retiring := s.(procs := s.procs[p := Retiring(role, fd)]);
      assert retiring.procs[p := Leaving(role, fd)] == leaving.procs;
      assert UserStep(s, p, retiring) && UserStep(retiring, p, leaving) && UserStep(leaving, p, idle);
      states := [s, retiring, leaving, idle];
    }
  }

  /** A sweep of a quiet store removes a stale partial together with its lock file. */
  lemma SweepsStale(s: State, p: nat) returns (states: seq<State>)
    requires p < |s.procs| && s.procs[p] == Sweeping && Quiet(s) && s.partial && s.path.Some?
    ensures Alone(states, p) && states != [] && states[0] == s
    ensures states[|states| - 1] == s.(partial := false, path := None)
  {
    var fd := s.path.value;
    var waiting, locked := s.(procs := s.procs[p := StaleWaiting(fd)]), s.(procs := s.procs[p := StaleLocked(fd)]);
    var removed := s.(procs := s.procs[p := StaleRemoved(fd)], partial := false);
    var leaving := s.(procs := s.procs[p := SweepLeaving(fd)], partial := false, path := None);
    var done := s.(partial := false, path := None);
    assert Free(waiting, fd) && waiting.procs[p := StaleLocked(fd)] == locked.procs;
    assert locked.procs[p := StaleRemoved(fd)] == removed.procs;
    assert removed.procs[p := SweepLeaving(fd)] == leaving.procs && leaving.procs[p := Sweeping] == s.procs;
    SweepStarts(s, p);
    assert SweepStep(waiting, p, locked) && SweepStep(locked, p, removed) && SweepStep(removed, p, leaving);
    assert SweepStep(leaving, p, done);
    states := [s, waiting, locked, removed, leaving, done];
  }

  /** A sweep of a quiet store removes a lock file left without a partial. */
  lemma SweepsOrphan(s: State, p: nat) returns (states: seq<State>)
    requires p < |s.procs| && s.procs[p] == Sweeping && Quiet(s) && !s.partial && s.path.Some?
    ensures Alone(states, p) && states != [] && states[0] == s
    ensures states[|states| - 1] == s.(path := None)
  {
    var fd := s.path.value;
    var listed := s.(procs := s.procs[p := OrphanListed(fd)]);
    var waiting := s.(procs := s.procs[p := OrphanWaiting(fd, fd)]);
    var locked := s.(procs := s.procs[p := OrphanLocked(fd, fd)]);
    var retiring := s.(procs := s.procs[p := OrphanRetiring(fd, fd)]);
    var leaving := s.(procs := s.procs[p := SweepLeaving(fd)], path := None);
    assert listed.procs[p := OrphanWaiting(fd, fd)] == waiting.procs;
    assert Free(waiting, fd) && waiting.procs[p := OrphanLocked(fd, fd)] == locked.procs;
    assert locked.procs[p := OrphanRetiring(fd, fd)] == retiring.procs;
    assert retiring.procs[p := SweepLeaving(fd)] == leaving.procs && leaving.procs[p := Sweeping] == s.procs;
    SweepStarts(s, p);
    assert SweepStep(listed, p, waiting) && SweepStep(waiting, p, locked) && SweepStep(locked, p, retiring);
    assert SweepStep(retiring, p, leaving) && SweepStep(leaving, p, s.(path := None));
    states := [s, listed, waiting, locked, retiring, leaving, s.(path := None)];
  }

  lemma SweepStarts(s: State, p: nat)
    requires p < |s.procs| && s.procs[p] == Sweeping && s.path.Some?
    ensures s.partial ==> SweepStep(s, p, s.(procs := s.procs[p := StaleWaiting(s.path.value)]))
    ensures !s.partial ==> SweepStep(s, p, s.(procs := s.procs[p := OrphanListed(s.path.value)]))
    ensures SweepStep(s, p, s.(procs := s.procs[p := Idle]))
  {
  }

  /** A sweep that finds a partial changed since it was listed, or only plans, lets go; so it does of any orphan. */
  lemma SweepSpares(s: State, p: nat, fd: Inode, seen: Inode)
    requires p < |s.procs|
    ensures s.procs[p] == StaleLocked(fd) || s.procs[p] == OrphanLocked(seen, fd) ==>
              SweepStep(s, p, s.(procs := s.procs[p := SweepLeaving(fd)]))
  {
  }
}
