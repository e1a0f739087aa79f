/**
 Replacing the installed tree by a staged one with a way back: the old tree is moved
 aside by one rename, the new one moved in by another, and either may fail.
 */
module InstallSwap {
  import opened Records

  datatype Tree = Whole(version: nat) | Torn

  datatype Place = Install | Next | Backup | Failing

  /** What is at the four paths. */
  datatype Disk = Disk(install: Option<Tree>, next: Option<Tree>, backup: Option<Tree>, failing: Option<Tree>) {
    function At(p: Place): Option<Tree> {
      match p
      case Install => install
      case Next => next
      case Backup => backup
      case Failing => failing
    }

    function With(p: Place, t: Option<Tree>): Disk {
      match p
      case Install => this.(install := t)
      case Next => this.(next := t)
      case Backup => this.(backup := t)
      case Failing => this.(failing := t)
    }
  }

  /** The tree is whole at the install path or at the backup path. */
  predicate Kept(tree: Option<Tree>, d: Disk) {
    tree.Some? ==> d.install == tree || d.backup == tree
  }

  datatype Replacement = Replacement(hadOld: bool)

  class Roots {
    const reliable: bool
    /** The public binary is a link of its own, not a file of the installed tree. */
    const separate: bool
    var disk: Disk
    /** The public binary links to the install path. */
    var linked: bool
    var script: seq<bool>
    /** Every state of the disk, the first one included. */
    ghost var past: seq<Disk>
    /** The places a rename away from failed. */
    ghost var stuck: set<Place>

    ghost predicate Valid()
      reads this
    {
      past != [] && past[|past| - 1] == disk
    }

    constructor (reliable: bool, separate: bool, installed: Option<Tree>, linked: bool, script: seq<bool>)
      ensures Valid() && disk == Disk(installed, None, None, None) && this.linked == linked
      ensures this.reliable == reliable && this.separate == separate
    {
      this.reliable, this.separate, this.linked, this.script := reliable, separate, linked, script;
      disk, past, stuck := Disk(installed, None, None, None), [Disk(installed, None, None, None)], {};
    }

    method Works() returns (ok: bool)
      modifies this`script
      ensures reliable ==> ok
    {
      ok := reliable || (script != [] && script[0]);
      script := if script == [] then [] else script[1..];
    }

    /** All or nothing, and never onto a path that is taken. */
    method Rename(from: Place, to: Place) returns (ok: bool)
      requires Valid() && from != to && disk.At(from).Some?
      modifies this`disk, this`past, this`stuck, this`script
      ensures stuck == if ok then old(stuck) else old(stuck) + {from}
      ensures Valid() && (reliable && old(disk).At(to).None? ==> ok)
      ensures ok ==> old(disk).At(to).None? && disk == old(disk).With(to, old(disk).At(from)).With(from, None)
                     && past == old(past) + [disk]
      ensures !ok ==> disk == old(disk) && past == old(past)
    {
      ok := Works();
      if !ok || disk.At(to).Some? {
        stuck := stuck + {from};
        return false;
      }
      disk := disk.With(to, disk.At(from)).With(from, None);
      past := past + [disk];
    }

    /** Not atomic: what is left of a failed removal is torn. */
    method RemoveAll(p: Place) returns (ok: bool)
      requires Valid()
      modifies this`disk, this`past, this`script
      ensures Valid() && (reliable ==> ok)
      ensures ok ==> disk == old(disk).With(p, None)
      ensures disk == old(disk).With(p, disk.At(p)) && disk.At(p) in {None, Some(Torn), old(disk).At(p)}
      ensures past == old(past) + [disk]
    {
      ok := Works();
      disk := disk.With(p, if ok || disk.At(p).None? then None else Some(Torn));
      past := past + [disk];
    }

    /** The old link is removed first: a failure may leave none, and one that stays is in the way. */
    method EnsurePublicBinary() returns (ok: bool)
      modifies this`linked, this`script
      ensures if separate then ok ==> linked else ok && linked == old(linked)
      ensures !ok ==> linked in {old(linked), false}
      ensures reliable ==> ok
    {
      if !separate {
        return true;
      }
      var parent := Works();
      if !parent {
        return false;
      }
      var removed := Works();
      if removed {
        linked := false;
      }
      var possible := Works();
      ok := possible && !linked;
      if ok {
        linked := true;
      }
    }

    method CopyToNext(stage: Tree) returns (ok: bool)
      requires Valid()
      modifies this`disk, this`past, this`script
      ensures Valid() && (reliable ==> ok)
      ensures disk == old(disk).With(Next, Some(if ok then stage else Torn)) && past == old(past) + [disk]
    {
      ok := Works();
      disk := disk.With(Next, Some(if ok then stage else Torn));
      past := past + [disk];
    }

    twostate predicate OldKept(tree: Option<Tree>)
      reads this
    {
      && old(past) <= past
      && forall i :: |old(past)| <= i < |past| ==> Kept(tree, past[i])
    }

    /** On failure the old tree is back where it was, or still at the backup path. */
    method Replace(stage: Tree) returns (r: Option<Replacement>)
      requires Valid() && disk.next.None? && disk.backup.None? && stage.Whole?
      modifies this`disk, this`past, this`stuck, this`script
      ensures Valid() && OldKept(old(disk.install)) && disk.failing == old(disk.failing)
      ensures r.Some? ==>
        && disk.install == Some(stage) && disk.next.None? && disk.backup == old(disk.install)
        && r.value.hadOld == old(disk.install).Some?
      ensures r.None? ==>
        || (disk.install == old(disk.install) && disk.backup.None?)
        || (old(disk.install).Some? && disk.install.None? && disk.backup == old(disk.install) && Backup in stuck)
      ensures reliable ==> r.Some?
    {
      var copied := CopyToNext(stage);
      if !copied {
        var cleaned := RemoveAll(Next);
        return None;
      }
      var statted := Works();
      var hadOld := statted && disk.install.Some?;
      if hadOld {
        var aside := Rename(Install, Backup);
        if !aside {
          var cleaned := RemoveAll(Next);
          return None;
        }
      }
      var moved := Rename(Next, Install);
      if !moved {
        if hadOld {
          var back := Rename(Backup, Install);
        }
        var cleaned := RemoveAll(Next);
        return None;
      }
      return Some(Replacement(hadOld));
    }

    method Commit(r: Replacement) returns (ok: bool)
      requires Valid()
      modifies this`disk, this`past, this`script
      ensures Valid() && disk == old(disk).With(Backup, disk.backup) && (reliable ==> ok)
      ensures ok ==> disk.backup == if r.hadOld then None else old(disk.backup)
    {
      if !r.hadOld {
        return true;
      }
      ok := RemoveAll(Backup);
    }

    /** Ok: the old tree is installed again, the new one out of the way, and the public link restored. */
    method Rollback(r: Replacement) returns (ok: bool)
      requires Valid() && disk.failing.None? && (r.hadOld ==> disk.backup.Some?)
      modifies this
      ensures Valid() && (r.hadOld ==> OldKept(old(disk.backup))) && disk.next == old(disk.next)
      ensures ok && r.hadOld ==> disk.install == old(disk.backup) && disk.backup.None? && (separate ==> linked)
      ensures !ok && r.hadOld ==>
        || disk.install in {old(disk.install), old(disk.backup)}
        || (disk.install.None? && disk.backup == old(disk.backup) && Failing in stuck)
      ensures !separate ==> linked == old(linked)
      ensures ok && !r.hadOld ==>
        (disk.install.None? || disk.install == old(disk.install)) && disk.backup == old(disk.backup)
      ensures reliable ==> ok && disk.failing.None? && (!r.hadOld ==> disk.install.None?)
    {
      var statted := Works();
      var moved := false;
      if statted && disk.install.Some? {
        moved := Rename(Install, Failing);
        if !moved {
          return false;
        }
      }
      if r.hadOld {
        var restored := Rename(Backup, Install);
        if !restored {
          if moved {
            var back := Rename(Failing, Install);
          }
          return false;
        }
      } else if !moved {
        return true;
      }
      if moved {
        var cleaned := RemoveAll(Failing);
      }
      ok := EnsurePublicBinary();
    }
  }

  /** Swap and back: the old tree is whole at one of its two paths all along, and installed at the end. */
  method SwapAndRollback(roots: Roots, stage: Tree) returns (ok: bool)
    requires roots.Valid() && roots.disk == Disk(roots.disk.install, None, None, None) && stage.Whole?
    modifies roots
    ensures roots.Valid()
    ensures forall i :: |old(roots.past)| <= i < |roots.past| ==> Kept(old(roots.disk.install), roots.past[i])
    ensures ok && old(roots.disk.install).Some? ==>
      && roots.disk.install == old(roots.disk.install) && roots.disk.backup.None?
      && (roots.separate ==> roots.linked)
    ensures roots.reliable ==> ok && roots.disk == old(roots.disk)
  {
    var r := roots.Replace(stage);
    if r.None? {
      return false;
    }
    ok := roots.Rollback(r.value);
  }

  /** Swap and keep: nothing but the new tree is left. */
  method SwapAndCommit(roots: Roots, stage: Tree) returns (ok: bool)
    requires roots.Valid() && roots.disk == Disk(roots.disk.install, None, None, None) && stage.Whole?
    modifies roots
    ensures roots.Valid()
    ensures ok ==> roots.disk == Disk(Some(stage), None, None, None)
    ensures roots.reliable ==> ok
  {
    var r := roots.Replace(stage);
    if r.None? {
      return false;
    }
    ok := roots.Commit(r.value);
  }
}
