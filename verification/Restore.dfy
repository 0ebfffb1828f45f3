/**
 Crash-safe restore: the shell script's renames, its database replacement and its fail-stop
 marker.  `if *` stands for what the script does not control: before every single effect the
 process may be killed, and a rename, a database statement or a service start may fail.  A method
 may therefore return between any two of its effects, and what it promises whatever its status is
 what holds at every crash point.
 */
module Restore {
  import opened Common

  datatype Dir = Media | Speakr | EvidenceWorker

  /** What a directory holds; `Recreated` is the one a boot makes when the live one is missing. */
  datatype Content = Original | Restored | Recreated

  /** The four paths the script keeps for one directory. */
  datatype Paths = Paths(
    live: Option<Content>,
    previous: Option<Content>,
    staged: Option<Content>,
    recreated: Option<Content>)

  datatype Data = OldData | NewData | Blank

  datatype Db = Db(data: Data, connectable: bool)

  datatype Status = Success | Failed | Killed

  datatype Mode = Resume | Rollback

  /** What can happen to an interrupted restore: a reboot, or the operator running a recovery mode. */
  datatype Event = Boot(recreate: set<Dir>) | Run(mode: Mode)

  /** The restored copy is staged, with nothing of value live, or it is live. */
  predicate SwappedIn(p: Paths) {
    || (p.staged == Some(Restored) && p.live in {None, Some(Recreated)})
    || (p.staged == None && p.live == Some(Restored))
  }

  /** Where the copies of one directory can be between two effects. */
  predicate DirSafe(present: bool, p: Paths) {
    && p.recreated in {None, Some(Recreated)}
    && (if present then
          || (p.previous == None && p.live == Some(Original) && p.staged == Some(Restored))
          || (p.previous == Some(Original) && SwappedIn(p))
        else
          p.previous == None && SwappedIn(p))
  }

  predicate DirOriginal(present: bool, p: Paths) {
    p.live == if present then Some(Original) else None
  }

  /** A boot recreated the directory while an earlier recreation was already set aside. */
  predicate RecreatedTwice(p: Paths) {
    p.recreated.Some? && p.live == Some(Recreated)
  }

  /** Each original is in exactly one of live/previous, each restored copy in exactly one of staged/live. */
  lemma NothingIsLost(present: bool, p: Paths)
    requires DirSafe(present, p)
    ensures present ==> (p.live == Some(Original) <==> p.previous != Some(Original))
    ensures p.staged == Some(Restored) <==> p.live != Some(Restored)
  {
  }

  /** A boot's effect on the paths of one directory. */
  function Booted(p: Paths, recreate: bool): Paths {
    if recreate && p.live.None? then p.(live := Some(Recreated)) else p
  }

  /** How a directory comes to be recreated twice: two kills right after a move, and a boot after each. */
  lemma SecondRecreationIsReachable()
    ensures var start := Paths(Some(Original), None, Some(Restored), None);
            var movedAside := start.(previous := start.live, live := None);
            var setAside := Booted(movedAside, true).(recreated := Some(Recreated), live := None);
            var p := Booted(setAside, true);
            && p == Paths(Some(Recreated), Some(Original), Some(Restored), Some(Recreated))
            && DirSafe(true, p) && RecreatedTwice(p)
            && (forall q :: q in {start, movedAside, Booted(movedAside, true), setAside} ==>
                  DirSafe(true, q) && !RecreatedTwice(q))
  {
  }

  class Restoration {
    /** Directories that existed when the restore was registered. */
    const present: set<Dir>

    var dirs: map<Dir, Paths>

    var target: Option<Db>
    var replacement: Option<Db>
    var displaced: Option<Db>

    var marker: bool
    var writersRunning: bool
    /** Whether an external command (rename, database statement, service start) has failed. */
    ghost var faulted: bool
    /** Whether a rename has failed whose failure is not undone: one setting aside, or one undoing. */
    ghost var stuck: bool
    /** Whether a database statement has failed. */
    ghost var dbFailed: bool

    ghost predicate DirsSafe()
      reads this`dirs
    {
      forall d :: d in dirs && DirSafe(d in present, dirs[d])
    }

    ghost predicate DirsOriginal()
      reads this`dirs
    {
      forall d :: d in dirs && DirOriginal(d in present, dirs[d])
    }

    ghost predicate DirsRestored()
      reads this`dirs
    {
      forall d :: d in dirs && dirs[d].live == Some(Restored)
    }

    ghost predicate NoRecreations()
      reads this`dirs
    {
      forall d :: d in dirs && dirs[d].recreated.None?
    }

    /** What has failed stays on record. */
    twostate predicate FaultsKept()
      reads this`faulted, this`stuck, this`dbFailed
    {
      (old(faulted) ==> faulted) && (old(stuck) ==> stuck) && (old(dbFailed) ==> dbFailed)
    }

    /** The target name resolves to a complete database, old or restored. */
    ghost predicate DatabaseSafe()
      reads this`target
    {
      target.Some? && target.value.data != Blank
    }

    ghost predicate AllOriginal()
      reads this`dirs, this`target
    {
      DirsOriginal() && target == Some(Db(OldData, true))
    }

    ghost predicate AllRestored()
      reads this`dirs, this`target
    {
      DirsRestored() && target == Some(Db(NewData, true))
    }

    /**
     While the marker exists nothing is lost and no writer runs; when it does not, everything is
     original or everything is restored.
     */
    ghost predicate Guarded()
      reads this`dirs, this`target, this`marker, this`writersRunning
    {
      if marker then DirsSafe() && DatabaseSafe() && !writersRunning else AllOriginal() || AllRestored()
    }

    /** The state the script is in when everything has been validated, staged and quiesced. */
    constructor (present: set<Dir>)
      ensures DirsSafe() && NoRecreations() && AllOriginal() && !marker && !writersRunning
      ensures this.present == present
    {
      this.present := present;
      dirs := map d: Dir | d in {Media, Speakr, EvidenceWorker} ::
        Paths(if d in present then Some(Original) else None, None, Some(Restored), None);
      target, replacement, displaced := Some(Db(OldData, true)), None, None;
      marker, writersRunning := false, false;
      faulted, stuck, dbFailed := false, false, false;
      new;
      assert forall d: Dir :: d.Media? || d.Speakr? || d.EvidenceWorker? ==> d in dirs;
    }

    // ------------------------------------------------------------ directories

    /** Clears the live path: a restored copy goes back to staging, anything else is a recreation. */
    method VacateLive(d: Dir) returns (status: Status)
      requires DirsSafe() && SwappedIn(dirs[d])
      modifies this`dirs, this`faulted, this`stuck
      ensures DirsSafe() && SwappedIn(dirs[d]) && dirs == old(dirs)[d := dirs[d]]
      ensures dirs[d].previous == old(dirs)[d].previous && dirs[d].recreated == old(dirs)[d].recreated
      ensures status == Success ==> dirs[d].live == None
      ensures FaultsKept() && (status == Failed ==> faulted && stuck)
    {
      var p := dirs[d];
      if * { return Killed; }
      if p.live.Some? {
        if p.staged.None? {
          if * {
          faulted, stuck := true, true;
          return Failed;
        }
          dirs := dirs[d := p.(staged := p.live, live := None)];
        } else {
          dirs := dirs[d := p.(live := None)];
        }
      }
      status := Success;
    }

    /** Undoes whatever was done to one directory, from any point it can have been left at. */
    method RollbackDirectory(d: Dir) returns (status: Status)
      requires DirsSafe()
      modifies this`dirs, this`faulted, this`stuck
      ensures DirsSafe() && dirs == old(dirs)[d := dirs[d]]
      ensures status == Success ==> DirOriginal(d in present, dirs[d]) && dirs[d].recreated.None?
      ensures FaultsKept() && (status == Failed ==> faulted && stuck)
    {
      if dirs[d].previous.Some? {
        status := VacateLive(d);
        if status != Success { return; }
        if * { return Killed; }
        if * {
          faulted, stuck := true, true;
          return Failed;
        }
        dirs := dirs[d := dirs[d].(live := dirs[d].previous, previous := None)];
      } else if d !in present {
        status := VacateLive(d);
        if status != Success { return; }
      } else {
        // The two refusals of the script, a missing and an unproven original, are unreachable.
        assert dirs[d].live == Some(Original) && dirs[d].staged.Some?;
      }
      if * { return Killed; }
      dirs := dirs[d := dirs[d].(recreated := None)];
      status := Success;
    }

    /** Every directory back to its original content or absence, unless a rename fails. */
    method RollbackFilesystem() returns (status: Status)
      requires DirsSafe()
      modifies this`dirs, this`faulted, this`stuck
      ensures DirsSafe()
      ensures status == Success ==> DirsOriginal() && NoRecreations()
      ensures FaultsKept() && (status == Failed ==> faulted && stuck)
    {
      var order := [EvidenceWorker, Speakr, Media];
      var failed := false;
      for i := 0 to |order|
        invariant DirsSafe()
        invariant !failed ==> forall d :: d in order[..i] ==>
                                DirOriginal(d in present, dirs[d]) && dirs[d].recreated.None?
        invariant FaultsKept() && (failed ==> faulted && stuck)
      {
        var one := RollbackDirectory(order[i]);
        if one == Killed { return Killed; }
        failed := failed || one == Failed;
      }
      if failed { return Failed; }
      status := Success;
      assert order[..|order|] == order;
      forall d: Dir ensures d in order { assert d == order[0] || d == order[1] || d == order[2]; }
    }

    /** What `swap_directory` does after printing why it cannot go on. */
    method GiveUp() returns (status: Status)
      requires DirsSafe()
      modifies this`dirs, this`faulted, this`stuck
      ensures DirsSafe() && status != Success
      ensures FaultsKept()
      ensures status == Failed ==> (faulted && stuck) || (DirsOriginal() && NoRecreations())
    {
      status := RollbackFilesystem();
      if status == Success { status := Failed; }
    }

    /** Moves one restored directory into place, setting aside what is in its way. */
    method SwapDirectory(d: Dir) returns (status: Status)
      requires DirsSafe()
      modifies this`dirs, this`faulted, this`stuck
      ensures DirsSafe() && FaultsKept()
      ensures status == Success ==> dirs[d].live == Some(Restored) && dirs == old(dirs)[d := dirs[d]]
      ensures status == Failed ==> faulted || (RecreatedTwice(old(dirs)[d]) && DirsOriginal() && NoRecreations())
      ensures status == Failed ==> stuck || (DirsOriginal() && NoRecreations())
      ensures RecreatedTwice(old(dirs)[d]) ==> status != Success
    {
      var p := dirs[d];
      // Neither of the two missing-copy refusals of the script is reachable.
      if p.staged.None? {
        assert p.live == Some(Restored);
        return Success;
      }
      if d in present && p.previous.None? {
        assert p.live == Some(Original);
        if * { return Killed; }
        if * {
          faulted, stuck := true, true;
          return Failed;
        }
        p := p.(previous := p.live, live := None);
      } else if p.live.Some? {
        if p.recreated.Some? {
          status := GiveUp();
          return;
        }
        if * { return Killed; }
        if * {
          faulted, stuck := true, true;
          return Failed;
        }
        p := p.(recreated := p.live, live := None);
      }
      dirs := dirs[d := p];
      if * { return Killed; }
      if * {
        faulted := true;
        status := GiveUp();
        return;
      }
      dirs := dirs[d := p.(live := p.staged, staged := None)];
      status := Success;
    }

    // ------------------------------------------------------------ database

    /**
     Loads `data` under the replacement name and renames it onto the target.  Wherever it stops,
     the target is what it was or complete `data`.
     */
    method RestoreDatabase(data: Data) returns (status: Status)
      requires DatabaseSafe() && data != Blank
      modifies this`target, this`replacement, this`displaced, this`faulted, this`dbFailed
      ensures DatabaseSafe()
      ensures target.value.data == old(target.value.data) || target == Some(Db(data, true))
      ensures status == Success ==> target == Some(Db(data, true)) && replacement.None? && displaced.None?
      ensures FaultsKept() && (status == Failed ==> faulted && dbFailed)
    {
      if * { return Killed; }
      if * {
        faulted, dbFailed := true, true;
        return Failed;
      }
      replacement := None;
      if * { return Killed; }
      if * {
        faulted, dbFailed := true, true;
        return Failed;
      }
      displaced := None;
      if * { return Killed; }
      if * {
        faulted, dbFailed := true, true;
        return Failed;
      }
      replacement := Some(Db(Blank, true));
      if * { return Killed; }
      if * {
        faulted, dbFailed := true, true;
        return Failed;
      }
      replacement := Some(Db(data, true));
      if * { return Killed; }
      if * {
        faulted, dbFailed := true, true;
        return Failed;
      }
      target := Some(target.value.(connectable := false));
      if * { return Killed; }
      if * {
        faulted, dbFailed := true, true;
        return Failed;
      }
      displaced, target, replacement := target, replacement, None;
      if * { return Killed; }
      if * {
        faulted, dbFailed := true, true;
        return Failed;
      }
      displaced := None;
      status := Success;
    }

    // ------------------------------------------------------------ the two modes

    /** Clears the marker, restarts the writers, removes the recovery directory. */
    method Conclude() returns (status: Status)
      requires marker && Guarded() && (AllOriginal() || AllRestored())
      modifies this`dirs, this`marker, this`writersRunning, this`faulted
      ensures Guarded() && (old(AllOriginal()) ==> AllOriginal()) && (old(AllRestored()) ==> AllRestored())
      ensures FaultsKept() && (status == Failed ==> faulted && !marker)
      ensures status == Success ==> !marker && writersRunning
    {
      if * { return Killed; }
      marker := false;
      if * { return Killed; }
      if * { faulted := true; return Failed; }
      writersRunning := true;
      if * { return Killed; }
      dirs := map d | d in dirs :: dirs[d].(staged := None, recreated := None);
      status := Success;
    }

    /** Every staged directory swapped in, in the script's order. */
    method SwapAll() returns (status: Status)
      requires DirsSafe()
      modifies this`dirs, this`faulted, this`stuck
      ensures DirsSafe() && FaultsKept()
      ensures status == Success ==> DirsRestored()
      ensures status == Failed ==>
                faulted || ((exists d :: RecreatedTwice(old(dirs)[d])) && DirsOriginal() && NoRecreations())
      ensures status == Failed ==> stuck || (DirsOriginal() && NoRecreations())
      ensures (exists d :: RecreatedTwice(old(dirs)[d])) ==> status != Success
    {
      var order := [Media, Speakr, EvidenceWorker];
      for i := 0 to |order|
        invariant DirsSafe() && FaultsKept()
        invariant forall d :: d in order[..i] ==> dirs[d].live == Some(Restored) && !RecreatedTwice(old(dirs)[d])
        invariant forall d :: d in order[i..] ==> dirs[d] == old(dirs)[d]
      {
        status := SwapDirectory(order[i]);
        if status != Success { return; }
      }
      status := Success;
      assert order[..|order|] == order;
      forall d: Dir ensures d in order { assert d == order[0] || d == order[1] || d == order[2]; }
    }

    /**
     `--resume`, and the tail of a first run.  Success means everything is restored.  If it is not
     killed and no command fails, it fails exactly when a directory was recreated twice; it has then
     undone the directories and discarded the recreations, so with no boot in between the next one
     cannot fail that way.  If the database step or a move into place fails, the directories are undone
     too, unless that fails as well.
     */
    method CompleteRestoration() returns (status: Status)
      requires marker && Guarded()
      modifies this
      ensures Guarded() && FaultsKept()
      ensures !marker ==> AllRestored()
      ensures status == Success ==> !marker && writersRunning
      ensures status == Failed ==>
                || faulted
                || ((exists d :: RecreatedTwice(old(dirs)[d])) && marker && DirsOriginal() && NoRecreations())
      ensures (exists d :: RecreatedTwice(old(dirs)[d])) ==> status != Success && marker
      ensures status != Killed && !faulted ==> (status == Failed <==> exists d :: RecreatedTwice(old(dirs)[d]))
      ensures status == Failed && !faulted ==> !exists d :: RecreatedTwice(dirs[d])
      ensures status == Failed && marker ==> stuck || (DirsOriginal() && NoRecreations())
    {
      status := SwapAll();
      if status != Success { return; }
      status := RestoreDatabase(NewData);
      if status == Killed { return; }
      if status == Failed {
        var undone := RollbackFilesystem();
        if undone == Killed { status := Killed; }
        return;
      }
      status := Conclude();
    }

    /**
     `--rollback`: success means everything is as it was; it fails only if a command failed.  Directories
     and database are each put back even if the other could not be.
     */
    method CompleteRollback() returns (status: Status)
      requires marker && Guarded()
      modifies this
      ensures Guarded() && FaultsKept()
      ensures !marker ==> AllOriginal()
      ensures status == Success ==> !marker && writersRunning
      ensures status == Failed ==> faulted
      ensures status == Failed && marker ==>
                && (stuck || (DirsOriginal() && NoRecreations()))
                && (dbFailed || target == Some(Db(OldData, true)))
    {
      var files := RollbackFilesystem();
      if files == Killed { return Killed; }
      status := RestoreDatabase(OldData);
      if status == Killed { return; }
      if files == Failed || status == Failed { return Failed; }
      status := Conclude();
    }

    /** One operator run: success leaves what its mode is for. */
    method Operate(mode: Mode) returns (status: Status)
      requires marker && Guarded()
      modifies this
      ensures Guarded() && FaultsKept()
      ensures status == Success ==> !marker && (if mode == Resume then AllRestored() else AllOriginal())
      ensures !marker ==> if mode == Resume then AllRestored() else AllOriginal()
    {
      match mode {
        case Resume => status := CompleteRestoration();
        case Rollback => status := CompleteRollback();
      }
    }

    /** A reboot: missing live directories may be recreated; the writer units are conditioned on the marker. */
    method Reboot(recreate: set<Dir>)
      requires marker && Guarded()
      modifies this`dirs, this`writersRunning
      ensures marker && Guarded()
      ensures forall d :: dirs[d] == Booted(old(dirs)[d], d in recreate)
    {
      dirs := map d | d in dirs :: Booted(dirs[d], d in recreate);
      writersRunning := !marker;
    }

    /** The script's exit: writers are restarted only if nothing was mutated and no marker exists. */
    method Finish(failed: bool, mutationStarted: bool)
      requires Guarded()
      modifies this`writersRunning
      ensures Guarded() && (marker || mutationStarted ==> writersRunning == old(writersRunning))
    {
      if failed && !marker && !mutationStarted {
        if * { writersRunning := true; }
      }
    }

    /** A first run from the moment the marker is about to be written. */
    method FirstRun() returns (status: Status)
      requires !marker && DirsSafe() && AllOriginal() && !writersRunning
      modifies this
      ensures Guarded()
      ensures status == Success ==> !marker && AllRestored()
    {
      if * { return Killed; }
      if * {
        Finish(true, false);
        return Failed;
      }
      marker := true;
      status := CompleteRestoration();
      if status == Failed { Finish(true, true); }
    }

    /**
     A restore and any sequence of reboots and recovery runs after it: while the marker exists no
     content is lost and no writer runs, and when it does not, all is restored or all is original,
     the latter after a success only if the operator asked for it.
     */
    method Recover(events: seq<Event>) returns (status: Status)
      requires !marker && DirsSafe() && AllOriginal() && !writersRunning
      modifies this
      ensures Guarded()
      ensures status == Success ==> !marker && (AllRestored() || (AllOriginal() && Run(Rollback) in events))
    {
      status := FirstRun();
      var i := 0;
      while i < |events| && marker
        invariant 0 <= i <= |events| && Guarded()
        invariant status == Success ==>
                    !marker && (AllRestored() || (AllOriginal() && Run(Rollback) in events[..i]))
      {
        match events[i] {
          case Boot(recreate) => Reboot(recreate);
          case Run(mode) => status := Operate(mode);
        }
        i := i + 1;
      }
    }
  }
}
