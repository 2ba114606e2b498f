/** The restartable move of the upload store to another directory (internal/storage/uploads.go). */
module Migration {
  import opened Options
  import opened FileNames

  type Byte = x: int | 0 <= x < 256
  type Bytes = seq<Byte>

  /** What is at a path: anything but a directory or a regular file is `Special`, like a symbolic link. */
  datatype Entry = Folder | Regular(bytes: Bytes) | Special

  type Tree = map<string, Entry>
  type Digest = Bytes -> string

  /** `samePath` of two clean paths. */
  predicate SamePath(a: string, b: string)
  {
    |a| == |b| && forall i | 0 <= i < |a| :: LowerChar(a[i]) == LowerChar(b[i])
  }

  /** Paths are the same if they differ in the case of letters only. */
  lemma SamePathFolds(a: string, b: string)
    ensures SamePath(a, b) <==> Lower(a) == Lower(b)
  {
    LowerLetters(a);
    LowerLetters(b);
    if Lower(a) == Lower(b) {
      forall i | 0 <= i < |a| ensures LowerChar(a[i]) == LowerChar(b[i]) {
        assert Lower(a)[i] == Lower(b)[i];
      }
    }
  }

  const TEMP_PREFIX := ".arkiv-migrate-"

  /** The directory of a path, with its slash. */
  function FolderOf(path: string): string
  {
    if path == "" || path[|path| - 1] == '/' then path else FolderOf(path[..|path| - 1])
  }

  /** The temporary file of a copy; `stamp` is the random part of its name. */
  function TempName(path: string, stamp: string): string { FolderOf(path) + TEMP_PREFIX + stamp + ".part" }

  /** What may be at the target of a legacy entry. */
  predicate Agrees(hash: Digest, source: Entry, found: Entry)
  {
    match source
    case Folder => found.Folder?
    case Regular(bytes) => found.Regular? && hash(found.bytes) == hash(bytes)
    case Special => false
  }

  predicate Present(hash: Digest, legacy: Tree, target: Tree, path: string)
  {
    path in legacy && path in target && Agrees(hash, legacy[path], target[path])
  }

  /** Every legacy file exists at the target with the same digest. */
  predicate Complete(hash: Digest, legacy: Tree, target: Tree)
  {
    forall path | path in legacy :: Present(hash, legacy, target, path)
  }

  /** The legacy tree can be copied: nothing unsupported is in it, and nothing different is in its way. */
  predicate NoConflict(hash: Digest, legacy: Tree, target: Tree)
  {
    forall path | path in legacy :: !legacy[path].Special? && (path in target ==> Agrees(hash, legacy[path], target[path]))
  }

  /** The target only gains entries, and no legacy path gains one that disagrees. */
  predicate Extends(hash: Digest, legacy: Tree, old_target: Tree, target: Tree)
  {
    && (forall path | path in old_target :: path in target && target[path] == old_target[path])
    && (forall path | path in target && path !in old_target && path in legacy :: Agrees(hash, legacy[path], target[path]))
  }

  lemma ExtendsTrans(hash: Digest, legacy: Tree, a: Tree, b: Tree, d: Tree)
    requires Extends(hash, legacy, a, b) && Extends(hash, legacy, b, d)
    ensures Extends(hash, legacy, a, d)
  {
  }

  /** What one attempt leaves behind never is in the way of the next, and what it copied stays copied. */
  lemma ExtendsKeeps(hash: Digest, legacy: Tree, old_target: Tree, target: Tree)
    requires Extends(hash, legacy, old_target, target)
    ensures NoConflict(hash, legacy, old_target) <==> NoConflict(hash, legacy, target)
    ensures forall path | Present(hash, legacy, old_target, path) :: Present(hash, legacy, target, path)
  {
  }

  datatype Copy = Copied | Skipped | Refused | Stopped

  datatype Outcome = NotNeeded | Migrated(copied: nat, skipped: nat) | Conflict | Unexpected | Interrupted

  /** Random names are new. */
  ghost predicate FreshNames(stamps: string -> string, legacy: Tree, target: Tree)
  {
    forall path | path in legacy :: TempName(path, stamps(path)) !in target && TempName(path, stamps(path)) !in legacy
  }

  ghost predicate IsTemp(stamps: string -> string, legacy: Tree, p: string)
  {
    exists path | path in legacy :: p == TempName(path, stamps(path))
  }

  /** What is new at the target has the path of a legacy entry, or the temporary name of one. */
  ghost predicate OnlyTemps(stamps: string -> string, legacy: Tree, old_target: Tree, target: Tree)
  {
    forall p | p in target && p !in old_target :: p in legacy || IsTemp(stamps, legacy, p)
  }

  /** `RequireCurrentUploadsRoot`: the server starts only on a store that needs no migration. */
  predicate MayStart(root: Option<string>, target: string) { root.None? || SamePath(root.value, target) }

  /** The random names of all attempts are new, and differ between attempts. */
  ghost predicate NamesApart(stamps: seq<string -> string>, legacy: Tree, target: Tree)
  {
    && (forall i | 0 <= i < |stamps| :: FreshNames(stamps[i], legacy, target))
    && (forall i, j, p | 0 <= i < j < |stamps| && IsTemp(stamps[i], legacy, p) :: !IsTemp(stamps[j], legacy, p))
  }

  /** What is new came from a legacy path or one of the attempts before `k`. */
  ghost predicate EarlierTemps(stamps: seq<string -> string>, k: nat, legacy: Tree, old_target: Tree, target: Tree)
    requires k <= |stamps|
  {
    forall p | p in target && p !in old_target :: p in legacy || exists i | 0 <= i < k :: IsTemp(stamps[i], legacy, p)
  }

  lemma NothingNew(stamps: seq<string -> string>, legacy: Tree, target: Tree)
    ensures EarlierTemps(stamps, 0, legacy, target, target)
  {
  }

  lemma MoreTemps(stamps: seq<string -> string>, k: nat, legacy: Tree, old_target: Tree, mid: Tree, target: Tree)
    requires k < |stamps| && EarlierTemps(stamps, k, legacy, old_target, mid) && OnlyTemps(stamps[k], legacy, mid, target)
    ensures EarlierTemps(stamps, k + 1, legacy, old_target, target)
  {
    forall p | p in target && p !in old_target && p !in legacy
      ensures exists i | 0 <= i < k + 1 :: IsTemp(stamps[i], legacy, p)
    {
      if p in mid {
        var i :| 0 <= i < k && IsTemp(stamps[i], legacy, p);
        assert IsTemp(stamps[i], legacy, p);
      } else {
        assert IsTemp(stamps[k], legacy, p);
      }
    }
  }

  lemma NextNamesAreFresh(stamps: seq<string -> string>, k: nat, legacy: Tree, old_target: Tree, target: Tree)
    requires k < |stamps| && NamesApart(stamps, legacy, old_target) && EarlierTemps(stamps, k, legacy, old_target, target)
    ensures FreshNames(stamps[k], legacy, target)
  {
    assert FreshNames(stamps[k], legacy, old_target);
    forall path | path in legacy ensures TempName(path, stamps[k](path)) !in target {
      var p := TempName(path, stamps[k](path));
      assert IsTemp(stamps[k], legacy, p);
      assert forall i | 0 <= i < k :: !IsTemp(stamps[i], legacy, p);
    }
  }

  lemma CompleteStays(hash: Digest, legacy: Tree, old_target: Tree, target: Tree)
    requires Extends(hash, legacy, old_target, target)
    ensures Complete(hash, legacy, old_target) ==> Complete(hash, legacy, target)
  {
    ExtendsKeeps(hash, legacy, old_target, target);
  }

  lemma CompleteHasNoConflict(hash: Digest, legacy: Tree, old_target: Tree, target: Tree)
    requires Extends(hash, legacy, old_target, target)
    ensures Complete(hash, legacy, target) ==> NoConflict(hash, legacy, old_target)
  {
    ExtendsKeeps(hash, legacy, old_target, target);
    if Complete(hash, legacy, target) {
      forall path | path in legacy ensures !legacy[path].Special? && Agrees(hash, legacy[path], target[path]) {
        assert Present(hash, legacy, target, path);
      }
    }
  }

  lemma ExtendsNothing(hash: Digest, legacy: Tree, target: Tree)
    ensures Extends(hash, legacy, target, target)
  {
  }

  lemma OldEntries(hash: Digest, legacy: Tree, old_target: Tree, target: Tree)
    requires Extends(hash, legacy, old_target, target)
    ensures forall p | p in old_target :: p in target && target[p] == old_target[p]
  {
  }

  lemma PathIsItself(path: string)
    ensures SamePath(path, path)
  {
  }

  /** Every folder and file of the legacy tree is at the target, each file with the same digest, and there was nothing else. */
  ghost predicate AllThere(hash: Digest, legacy: Tree, target: Tree)
  {
    forall p | p in legacy ::
      && p in target && (legacy[p].Folder? || legacy[p].Regular?) && (legacy[p].Folder? ==> target[p].Folder?)
      && (legacy[p].Regular? ==> target[p].Regular? && hash(target[p].bytes) == hash(legacy[p].bytes))
  }

  lemma CompleteMeans(hash: Digest, legacy: Tree, target: Tree)
    ensures Complete(hash, legacy, target) <==> AllThere(hash, legacy, target)
  {
    if AllThere(hash, legacy, target) {
      forall p | p in legacy ensures Present(hash, legacy, target, p) {}
    } else {
      var p :| p in legacy && !(&& p in target && (legacy[p].Folder? || legacy[p].Regular?) && (legacy[p].Folder? ==> target[p].Folder?)
                                && (legacy[p].Regular? ==> target[p].Regular? && hash(target[p].bytes) == hash(legacy[p].bytes)));
      assert !Present(hash, legacy, target, p);
    }
  }

  /** Nothing in the legacy tree is special, and what the target has of it already is the same. */
  ghost predicate NothingInTheWay(hash: Digest, legacy: Tree, target: Tree)
  {
    forall p | p in legacy ::
      && (legacy[p].Folder? || legacy[p].Regular?)
      && (p in target && legacy[p].Folder? ==> target[p].Folder?)
      && (p in target && legacy[p].Regular? ==> target[p].Regular? && hash(target[p].bytes) == hash(legacy[p].bytes))
  }

  lemma NoConflictMeans(hash: Digest, legacy: Tree, target: Tree)
    ensures NoConflict(hash, legacy, target) <==> NothingInTheWay(hash, legacy, target)
  {
  }

  lemma ExtendsMeans(hash: Digest, legacy: Tree, old_target: Tree, target: Tree)
    requires Extends(hash, legacy, old_target, target)
    ensures forall p | p in old_target :: p in target && target[p] == old_target[p]
  {
  }

  class UploadsRoot {
    const hash: Digest
    var legacy: Tree
    var target: Tree
    var root: Option<string>

    constructor (digest: Digest, source: Tree, found: Tree, library: Option<string>)
      ensures hash == digest && legacy == source && target == found && root == library
    {
      hash, legacy, target, root := digest, source, found, library;
    }

    /** `copyVerified`; `written` is what the disk has after the copy. */
    method CopyVerified(path: string, stamp: string, written: Bytes, healthy: bool) returns (copy: Copy)
      requires path in legacy && legacy[path].Regular?
      requires TempName(path, stamp) !in target && TempName(path, stamp) !in legacy
      modifies `target
      ensures Extends(hash, legacy, old(target), target)
      ensures copy in {Copied, Skipped} ==> Present(hash, legacy, target, path)
      ensures copy in {Copied, Skipped} || (copy == Refused && healthy) ==> forall p | p in target && p !in old(target) :: p == path
      ensures forall p | p in target && p !in old(target) :: p == path || p == TempName(path, stamp)
      ensures healthy ==> forall p | p in target && p !in old(target) :: p in legacy && target[p] == legacy[p]
      ensures healthy ==> copy == if path !in old(target) then Copied else if Agrees(hash, legacy[path], old(target)[path]) then Skipped else Refused
    {
      var source, temp := legacy[path].bytes, TempName(path, stamp);
      if path in target {
        if !target[path].Regular? || hash(target[path].bytes) != hash(source) { return Refused; }
        return Skipped;
      }
      if !healthy {
        // The copy may stop anywhere, and leaves what it has.
        var begun: bool := *;
        if begun { target := target[temp := Regular(written)]; }
        var stops: bool := *;
        if stops { return Stopped; }
      }
      var copied := if healthy then source else written;
      target := target[temp := Regular(copied)];
      if hash(copied) != hash(source) {
        target := target - {temp};
        return Refused;
      }
      target := (target - {temp})[path := Regular(copied)];
      return Copied;
    }

    /** One entry of the walk. */
    method Visit(path: string, stamp: string, written: Bytes, healthy: bool) returns (copy: Copy)
      requires path in legacy && TempName(path, stamp) !in target && TempName(path, stamp) !in legacy
      modifies `target
      ensures Extends(hash, legacy, old(target), target)
      ensures copy in {Copied, Skipped} ==> Present(hash, legacy, target, path)
      ensures copy in {Copied, Skipped} || (copy == Refused && healthy) ==> forall p | p in target && p !in old(target) :: p == path
      ensures forall p | p in target && p !in old(target) :: p == path || p == TempName(path, stamp)
      ensures healthy ==>
                (copy == Refused <==> legacy[path].Special? || (path in old(target) && !Agrees(hash, legacy[path], old(target)[path])))
      ensures healthy ==> copy != Stopped
      ensures healthy ==> forall p | p in target && p !in old(target) :: p in legacy && target[p] == legacy[p]
    {
      match legacy[path]
      case Special => return Refused;
      case Folder =>
        if path !in target {
          target := target[path := Folder];
        }
        return if target[path].Folder? then Skipped else Refused;
      case Regular(_) =>
        copy := CopyVerified(path, stamp, written, healthy);
    }

    /** The walk over the legacy tree. */
    method CopyAll(stamps: string -> string, disk: string -> Bytes, healthy: bool) returns (copy: Copy, copied: nat, skipped: nat)
      requires FreshNames(stamps, legacy, target)
      modifies `target
      ensures Extends(hash, legacy, old(target), target) && OnlyTemps(stamps, legacy, old(target), target)
      ensures copy in {Copied, Refused, Stopped}
      ensures copy == Copied ==> Complete(hash, legacy, target)
      ensures healthy ==> (copy == Copied <==> NoConflict(hash, legacy, old(target))) && copy != Stopped
      ensures healthy ==> forall p | p in target && p !in old(target) :: p in legacy && target[p] == legacy[p]
    {
      hide Extends;
      hide Agrees;
      copied, skipped := 0, 0;
      ExtendsNothing(hash, legacy, target);
      ghost var t0 := target;
      var rest := legacy.Keys;
      while rest != {}
        invariant rest <= legacy.Keys && Extends(hash, legacy, t0, target)
        invariant forall p | p in target && p !in t0 :: p in legacy
        invariant healthy ==> forall p | p in target && p !in t0 :: p in legacy && target[p] == legacy[p]
        invariant forall p | p in legacy && p !in rest :: Present(hash, legacy, target, p)
        invariant healthy ==> forall p | p in rest :: p in target <==> p in t0
        invariant healthy ==> forall p | p in legacy && p !in rest :: !legacy[p].Special? && (p in t0 ==> Agrees(hash, legacy[p], t0[p]))
        decreases |rest|
      {
        var path :| path in rest;
        ghost var mid := target;
        OldEntries(hash, legacy, t0, mid);
        copy := Visit(path, stamps(path), disk(path), healthy);
        ExtendsTrans(hash, legacy, t0, mid, target);
        ExtendsKeeps(hash, legacy, mid, target);
        if copy == Refused || copy == Stopped { return; }
        if copy == Copied && legacy[path].Regular? { copied := copied + 1; }
        if copy == Skipped && legacy[path].Regular? { skipped := skipped + 1; }
        rest := rest - {path};
      }
      copy := Copied;
    }

    /** `MigrateUploads`: the root changes last, and only when everything is at the target. */
    method MigrateUploads(from: string, to: string, stamps: string -> string, disk: string -> Bytes, healthy: bool) returns (outcome: Outcome)
      requires FreshNames(stamps, legacy, target) && !SamePath(from, to)
      modifies `target, `root
      ensures legacy == old(legacy) && OnlyTemps(stamps, legacy, old(target), target)
      ensures Extends(hash, legacy, old(target), target)
      ensures root != old(root) ==> root == Some(to) && old(root).Some? && SamePath(old(root).value, from) && Complete(hash, legacy, target)
      ensures outcome.Migrated? ==> root == Some(to) && MayStart(root, to)
      ensures outcome == NotNeeded <==> old(root).None? || SamePath(old(root).value, to)
      ensures outcome == NotNeeded ==> root == old(root) && MayStart(root, to)
      ensures outcome in {Conflict, Unexpected} ==> root == old(root)
      ensures healthy && old(root).Some? && SamePath(old(root).value, from) && !SamePath(old(root).value, to) ==>
                (if NoConflict(hash, legacy, old(target)) then outcome.Migrated? else outcome == Conflict)
      ensures root != old(root) ==> AllThere(hash, legacy, target)
      ensures forall p | p in old(target) :: p in target && target[p] == old(target)[p]
      ensures healthy ==> forall p | p in target && p !in old(target) :: p in legacy && target[p] == legacy[p]
      ensures healthy && old(root).Some? && SamePath(old(root).value, from) && !SamePath(old(root).value, to) ==>
                (outcome.Migrated? <==> NothingInTheWay(hash, legacy, old(target)))
    {
      hide Extends;
      hide NoConflict;
      hide Complete;
      hide FreshNames;
      hide AllThere;
      hide NothingInTheWay;
      ExtendsNothing(hash, legacy, target);
      NoConflictMeans(hash, legacy, target);
      PathIsItself(to);
      if root.None? || SamePath(root.value, to) { return NotNeeded; }
      if !SamePath(root.value, from) { return Unexpected; }
      var copy, copied, skipped := CopyAll(stamps, disk, healthy);
      ExtendsMeans(hash, legacy, old(target), target);
      if copy == Refused { return Conflict; }
      if copy == Stopped { return Interrupted; }
      if !healthy {
        var stops: bool := *;
        if stops { return Interrupted; }
      }
      root := Some(to);
      CompleteMeans(hash, legacy, target);
      return Migrated(copied, skipped);
    }

    method Attempt(from: string, to: string, stamps: seq<string -> string>, i: nat, disk: string -> Bytes, healthy: bool, ghost t0: Tree)
      returns (outcome: Outcome)
      requires i < |stamps| && NamesApart(stamps, legacy, t0) && !SamePath(from, to)
      requires Extends(hash, legacy, t0, target) && EarlierTemps(stamps, i, legacy, t0, target)
      modifies `target, `root
      ensures legacy == old(legacy) && Extends(hash, legacy, t0, target) && EarlierTemps(stamps, i + 1, legacy, t0, target)
      ensures root != old(root) ==> root == Some(to) && Complete(hash, legacy, target)
      ensures old(Complete(hash, legacy, target)) ==> Complete(hash, legacy, target)
      ensures outcome.Migrated? ==> root == Some(to)
      ensures outcome == NotNeeded ==> root == old(root) && MayStart(root, to)
      ensures healthy && old(root).Some? && SamePath(old(root).value, from) && !SamePath(old(root).value, to) ==>
                if NoConflict(hash, legacy, t0) then outcome.Migrated? && Complete(hash, legacy, target)
                else outcome == Conflict && root == old(root)
      ensures old(root) == Some(to) ==> outcome == NotNeeded
    {
      hide Extends;
      hide NoConflict;
      hide Complete;
      hide FreshNames;
      hide OnlyTemps;
      hide NamesApart;
      ghost var mid := target;
      NextNamesAreFresh(stamps, i, legacy, t0, mid);
      PathIsItself(to);
      ExtendsKeeps(hash, legacy, t0, mid);
      outcome := MigrateUploads(from, to, stamps[i], disk, healthy);
      ExtendsTrans(hash, legacy, t0, mid, target);
      CompleteStays(hash, legacy, mid, target);
      MoreTemps(stamps, i, legacy, t0, mid, target);
    }

    /**
     Any number of attempts that may be cut off anywhere, and one that is not:
     the store is migrated exactly if nothing was in the way at first.
     */
    method MigrateAfterCrashes(from: string, to: string, stamps: seq<string -> string>, disk: string -> Bytes) returns (outcome: Outcome)
      requires |stamps| > 0 && NamesApart(stamps, legacy, target) && !SamePath(from, to)
      requires root.Some? && SamePath(root.value, from) && !SamePath(root.value, to)
      modifies `target, `root
      ensures legacy == old(legacy) && Extends(hash, legacy, old(target), target)
      ensures (outcome.Migrated? || outcome == NotNeeded) <==> NoConflict(hash, legacy, old(target))
      ensures NoConflict(hash, legacy, old(target)) ==> root == Some(to) && Complete(hash, legacy, target)
      ensures !NoConflict(hash, legacy, old(target)) ==> outcome == Conflict && root == old(root)
      ensures (outcome.Migrated? || outcome == NotNeeded) <==> NothingInTheWay(hash, legacy, old(target))
      ensures NothingInTheWay(hash, legacy, old(target)) ==> root == Some(to) && AllThere(hash, legacy, target)
      ensures forall p | p in old(target) :: p in target && target[p] == old(target)[p]
    {
      hide Extends;
      hide NoConflict;
      hide Complete;
      hide FreshNames;
      hide OnlyTemps;
      hide NamesApart;
      hide AllThere;
      hide NothingInTheWay;
      ghost var t0 := target;
      ExtendsNothing(hash, legacy, t0);
      NothingNew(stamps, legacy, t0);
      PathIsItself(to);
      for i := 0 to |stamps| - 1
        invariant legacy == old(legacy) && Extends(hash, legacy, t0, target) && EarlierTemps(stamps, i, legacy, t0, target)
        invariant root == old(root) || (root == Some(to) && Complete(hash, legacy, target))
      {
        var _ := Attempt(from, to, stamps, i, disk, false, t0);
      }
      outcome := Attempt(from, to, stamps, |stamps| - 1, disk, true, t0);
      CompleteHasNoConflict(hash, legacy, t0, target);
      NoConflictMeans(hash, legacy, t0);
      CompleteMeans(hash, legacy, target);
      ExtendsMeans(hash, legacy, t0, target);
    }
  }
}
