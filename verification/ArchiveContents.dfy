/** What is in the directory after an extraction: exactly what the entries say. */
module ArchiveContents {
  import opened Common
  import opened Text
  import opened Archive

  /** The place an entry names. */
  function PlaceOf(e: Entry): Option<Path> { SafeArchiveName(e.name) }

  /** A later entry of this kind replaces what is at its place. */
  predicate Replaces(e: Entry, path: Path) {
    (e.kind.FileEntry? || e.kind.LinkEntry?) && PlaceOf(e) == Some(path)
  }

  /** Nothing but a directory stands where the entry needs one. */
  ghost predicate Reachable(tree: Tree, path: Path) {
    forall k :: 0 < k < |path| && path[..k] in tree ==> tree[path[..k]].Directory?
  }

  /** A relative link text that, read from the link's directory, stays under the root. */
  predicate LinkAllowed(path: Path, linkname: string)
    requires |path| > 0
  {
    && linkname != "" && linkname[0] != '/' && '\\' !in linkname && '\0' !in linkname
    && !LeavesRoot(Clean(Parent(path) + Split(linkname, '/')))
  }

  /** An entry that can be stored. */
  ghost predicate Fits(d: Disk, policy: Policy, e: Entry) {
    && PlaceOf(e).Some?
    && var path := PlaceOf(e).value;
       |path| > 0 ==>
         && Reachable(d.tree, path)
         && match e.kind
            case DirEntry => path in d.tree ==> d.tree[path].Directory?
            case FileEntry(size, copied) =>
              0 <= size && d.bytes + size <= policy.maxExtractedBytes && copied && !IsDirectory(d.tree, path)
            case LinkEntry(linkname) =>
              policy.allowSymlinks && LinkAllowed(path, linkname) && !IsDirectory(d.tree, path)
            case GlobalEntry => true
            case OtherEntry => false
  }

  /** The regular files of an archive, in order, with their sizes. */
  function FilesOf(entries: seq<Entry>): seq<Path>
    decreases |entries|
  {
    if |entries| == 0 then []
    else
      var e := entries[0];
      (if e.kind.FileEntry? && PlaceOf(e).Some? && |PlaceOf(e).value| > 0 then [PlaceOf(e).value] else [])
      + FilesOf(entries[1..])
  }

  function SizesOf(entries: seq<Entry>): seq<int>
    decreases |entries|
  {
    if |entries| == 0 then []
    else
      var e := entries[0];
      (if e.kind.FileEntry? && PlaceOf(e).Some? && |PlaceOf(e).value| > 0 then [e.kind.size] else [])
      + SizesOf(entries[1..])
  }

  /** A path an entry accounts for: its place, or a directory above it. */
  predicate Accounts(e: Entry, path: Path) {
    && PlaceOf(e).Some? && path <= PlaceOf(e).value
    && (path == PlaceOf(e).value ==> e.kind.DirEntry? || e.kind.FileEntry? || e.kind.LinkEntry?)
  }

  // ------------------------------------------------------------------- the parents

  /** Making parents succeeds exactly when nothing else is in the way; it leaves what
      is there and adds directories above the path only. */
  lemma {:induction false} ParentsExactly(tree: Tree, path: Path, k: nat)
    requires k <= |path|
    ensures
      var (next, ok) := MakeParents(tree, path, k);
      && (ok <==> forall i :: k < i <= |path| && path[..i] in tree ==> tree[path[..i]].Directory?)
      && (forall p :: p in tree ==> p in next && next[p] == tree[p])
      && (forall p :: p in next && p !in tree ==> next[p].Directory? && p <= path && |p| > k)
      && (ok ==> forall i :: k < i <= |path| ==> path[..i] in next && next[path[..i]].Directory?)
    decreases |path| - k
  {
    if k < |path| {
      var p := path[..k + 1];
      var there := p in tree;
      if !there || tree[p].Directory? {
        var tree' := if there then tree else tree[p := Directory];
        ParentsExactly(tree', path, k + 1);
        var (next, ok) := MakeParents(tree', path, k + 1);
        assert MakeParents(tree, path, k) == (next, ok);
        forall i | k < i <= |path| && ok ensures path[..i] in next && next[path[..i]].Directory? {
          if i == k + 1 { assert path[..i] == p && p in tree'; }
        }
        forall i | k + 1 < i <= |path| ensures path[..i] in tree' <==> path[..i] in tree {
          assert |path[..i]| != |p|;
        }
      }
    }
  }

  lemma {:induction false} ReachableMeans(tree: Tree, path: Path)
    requires |path| > 0
    ensures MakeParents(tree, Parent(path), 0).1 <==> Reachable(tree, path)
  {
    ParentsExactly(tree, Parent(path), 0);
    forall i | 0 < i < |path| ensures Parent(path)[..i] == path[..i] {}
    if Reachable(tree, path) {
      forall i | 0 < i <= |Parent(path)| && Parent(path)[..i] in tree ensures tree[Parent(path)[..i]].Directory? {
        assert path[..i] == Parent(path)[..i];
      }
    }
    if MakeParents(tree, Parent(path), 0).1 {
      forall k | 0 < k < |path| && path[..k] in tree ensures tree[path[..k]].Directory? {
        assert path[..k] == Parent(path)[..k];
      }
    }
  }

  /** The place itself is untouched while its parents are made. */
  lemma {:induction false} PlaceUntouched(tree: Tree, path: Path)
    requires |path| > 0
    ensures
      var next := MakeParents(tree, Parent(path), 0).0;
      (path in next <==> path in tree) && (path in tree ==> next[path] == tree[path])
  {
    ParentsExactly(tree, Parent(path), 0);
  }

  // --------------------------------------------------------------------- one entry

  /** What a stored entry leaves at its place. */
  ghost predicate Holds(tree: Tree, e: Entry) {
    PlaceOf(e).Some? && |PlaceOf(e).value| > 0 ==>
      var path := PlaceOf(e).value;
      match e.kind
      case DirEntry => path in tree && tree[path].Directory?
      case FileEntry(size, _) => path in tree && tree[path] == File(size)
      case LinkEntry(linkname) =>
        && path in tree && tree[path].Link?
        && Clean(Parent(path) + tree[path].target) == Clean(Parent(path) + Split(linkname, '/'))
      case _ => true
  }

  /** What one stored entry does to the directory and to the totals. */
  ghost predicate Stores(d: Disk, d': Disk, e: Entry) {
    && Holds(d'.tree, e)
    && (forall p :: p in d.tree && !Replaces(e, p) ==> p in d'.tree && d'.tree[p] == d.tree[p])
    && (forall p :: p in d'.tree && p !in d.tree ==> Accounts(e, p))
    && (forall p :: IsDirectory(d.tree, p) ==> IsDirectory(d'.tree, p))
    && d'.files == d.files + FilesOf([e]) && d'.sizes == d.sizes + SizesOf([e])
  }

  /** The tree with the parents of a path made. */
  ghost predicate Extends(tree: Tree, next: Tree, path: Path) {
    && (forall p :: p in tree ==> p in next && next[p] == tree[p])
    && (forall p :: p in next && p !in tree ==> p != path && p <= path)
  }

  lemma {:induction false} BelowParents(tree: Tree, path: Path)
    requires |path| > 0
    ensures Extends(tree, MakeParents(tree, Parent(path), 0).0, path)
  {
    ParentsExactly(tree, Parent(path), 0);
    assert Parent(path) <= path && |Parent(path)| < |path|;
  }

  lemma {:induction false} NoFileStores(d: Disk, tree: Tree, path: Path, e: Entry)
    requires PlaceOf(e) == Some(path) && |path| > 0 && Extends(d.tree, tree, path)
    requires e.kind.DirEntry? || e.kind.GlobalEntry?
    requires e.kind.DirEntry? && path in tree ==> tree[path].Directory?
    ensures Stores(d, d.(tree := if e.kind.DirEntry? then tree[path := Directory] else tree), e)
  {
    hide SafeArchiveName;
    OneFile(e);
    hide FilesOf, SizesOf;
    assert d.files + [] == d.files && d.sizes + [] == d.sizes;
  }

  lemma {:induction false} FileStores(d: Disk, tree: Tree, path: Path, e: Entry)
    requires PlaceOf(e) == Some(path) && |path| > 0 && Extends(d.tree, tree, path)
    requires e.kind.FileEntry? && !IsDirectory(tree, path)
    ensures Stores(d, Disk(tree[path := File(e.kind.size)], d.files + [path], d.bytes + e.kind.size,
                           d.sizes + [e.kind.size]), e)
  {
    hide SafeArchiveName;
    OneFile(e);
    hide FilesOf, SizesOf;
  }

  lemma {:induction false} LinkStores(d: Disk, tree: Tree, path: Path, e: Entry, target: Path)
    requires PlaceOf(e) == Some(path) && |path| > 0 && Extends(d.tree, tree, path)
    requires e.kind.LinkEntry? && !IsDirectory(tree, path)
    requires Clean(Parent(path) + target) == Clean(Parent(path) + Split(e.kind.linkname, '/'))
    ensures Stores(d, d.(tree := tree[path := Link(target)]), e)
  {
    hide SafeArchiveName, Clean;
    OneFile(e);
    hide FilesOf, SizesOf;
    assert d.files + [] == d.files && d.sizes + [] == d.sizes;
  }

  lemma {:induction false} OneFile(e: Entry)
    ensures
      var stored := e.kind.FileEntry? && PlaceOf(e).Some? && |PlaceOf(e).value| > 0;
      && FilesOf([e]) == (if stored then [PlaceOf(e).value] else [])
      && SizesOf([e]) == (if stored then [e.kind.size] else [])
  {
    assert [e][1..] == [];
  }

  lemma {:induction false} EntryExactly(d: Disk, policy: Policy, e: Entry)
    ensures ExtractEntry(d, policy, e).1 <==> Fits(d, policy, e)
    ensures Fits(d, policy, e) ==> Stores(d, ExtractEntry(d, policy, e).0, e)
  {
    var name := PlaceOf(e);
    if name.Some? && |name.value| > 0 {
      var path := name.value;
      ReachableMeans(d.tree, path);
      PlaceUntouched(d.tree, path);
      BelowParents(d.tree, path);
      var (tree, ok) := MakeParents(d.tree, Parent(path), 0);
      if e.kind.LinkEntry? { LinkMeans(path, e.kind.linkname); }
      hide SafeArchiveName, SafeSymlinkTarget, LinkAllowed, MakeParents, Clean, Stores, Extends, Reachable;
      if Fits(d, policy, e) {
        match e.kind
        case FileEntry(_, _) => FileStores(d, tree, path, e);
        case LinkEntry(linkname) =>
          assert AllPlain(path) by { SafeNameIsPlain(e.name); }
          hide AllPlain;
          StoredLinkMeansItsTarget(path, linkname);
          LinkStores(d, tree, path, e, SafeSymlinkTarget(path, linkname).value);
        case _ => if !e.kind.OtherEntry? { NoFileStores(d, tree, path, e); SameDirectory(tree, path); }
      }
    } else if name.Some? {
      hide SafeArchiveName;
      OneFile(e);
      hide FilesOf, SizesOf;
      assert d.files + [] == d.files && d.sizes + [] == d.sizes;
    }
  }

  lemma LinkMeans(path: Path, linkname: string)
    requires |path| > 0
    ensures SafeSymlinkTarget(path, linkname).Some? <==> LinkAllowed(path, linkname)
  {
    hide Clean, Split;
  }

  lemma SameDirectory(tree: Tree, path: Path)
    ensures path in tree && tree[path].Directory? ==> tree[path := Directory] == tree
  {
  }

  // ------------------------------------------------------------------ whole archives

  lemma {:induction false} FilesSplit(entries: seq<Entry>)
    requires |entries| > 0
    ensures FilesOf(entries) == FilesOf([entries[0]]) + FilesOf(entries[1..])
    ensures SizesOf(entries) == SizesOf([entries[0]]) + SizesOf(entries[1..])
  {
    var e := entries[0];
    assert [e][1..] == [];
  }

  /** Every entry fits what the entries before it left behind. */
  ghost predicate AllFit(d: Disk, policy: Policy, entries: seq<Entry>)
    decreases |entries|
  {
    |entries| > 0 ==>
      Fits(d, policy, entries[0]) && AllFit(ExtractEntry(d, policy, entries[0]).0, policy, entries[1..])
  }

  /** An extraction finishes exactly when there are not too many entries and each fits. */
  lemma {:induction false} FinishesFrom(d: Disk, policy: Policy, entries: seq<Entry>, count: nat)
    requires count <= policy.maxFiles
    ensures ExtractAll(d, policy, entries, count).1 <==>
            count + |entries| <= policy.maxFiles && AllFit(d, policy, entries)
    decreases |entries|
  {
    hide ExtractEntry, Fits;
    if |entries| > 0 {
      EntryExactly(d, policy, entries[0]);
      if count + 1 <= policy.maxFiles && Fits(d, policy, entries[0]) {
        FinishesFrom(ExtractEntry(d, policy, entries[0]).0, policy, entries[1..], count + 1);
      }
    }
  }

  /** What stays while the rest of an archive is extracted, and what is added. */
  lemma {:induction false} RestStores(d: Disk, policy: Policy, entries: seq<Entry>, count: nat, p: Path)
    requires ExtractAll(d, policy, entries, count).1
    ensures
      var d' := ExtractAll(d, policy, entries, count).0;
      && (p in d.tree && (forall i :: 0 <= i < |entries| ==> !Replaces(entries[i], p)) ==>
            p in d'.tree && d'.tree[p] == d.tree[p])
      && (IsDirectory(d.tree, p) ==> IsDirectory(d'.tree, p))
      && (p in d'.tree && p !in d.tree ==> exists i :: 0 <= i < |entries| && Accounts(entries[i], p))
      && d'.files == d.files + FilesOf(entries) && d'.sizes == d.sizes + SizesOf(entries)
    decreases |entries|
  {
    hide ExtractEntry, Fits, Replaces, Accounts, FilesOf, SizesOf;
    if |entries| == 0 {
      NoFiles();
      assert d.files + [] == d.files && d.sizes + [] == d.sizes;
    } else {
      var e, next := entries[0], ExtractEntry(d, policy, entries[0]).0;
      EntryExactly(d, policy, e);
      StoresOne(d, next, e, p);
      hide Stores;
      RestStores(next, policy, entries[1..], count + 1, p);
      var d' := ExtractAll(d, policy, entries, count).0;
      FilesSplit(entries);
      assert d.files + FilesOf([e]) + FilesOf(entries[1..]) == d.files + (FilesOf([e]) + FilesOf(entries[1..]));
      assert d.sizes + SizesOf([e]) + SizesOf(entries[1..]) == d.sizes + (SizesOf([e]) + SizesOf(entries[1..]));
      if p in d'.tree && p !in d.tree && !Accounts(e, p) {
        var i :| 0 <= i < |entries[1..]| && Accounts(entries[1..][i], p);
        assert Accounts(entries[i + 1], p);
      }
      if forall i :: 0 <= i < |entries| ==> !Replaces(entries[i], p) {
        forall i | 0 <= i < |entries[1..]| ensures !Replaces(entries[1..][i], p) {
          assert entries[1..][i] == entries[i + 1];
        }
      }
    }
  }

  lemma NoFiles()
    ensures FilesOf([]) == [] && SizesOf([]) == []
  {
  }

  lemma StoresOne(d: Disk, d': Disk, e: Entry, p: Path)
    requires Stores(d, d', e)
    ensures p in d.tree && !Replaces(e, p) ==> p in d'.tree && d'.tree[p] == d.tree[p]
    ensures IsDirectory(d.tree, p) ==> IsDirectory(d'.tree, p)
    ensures p in d'.tree && p !in d.tree ==> Accounts(e, p)
    ensures d'.files == d.files + FilesOf([e]) && d'.sizes == d.sizes + SizesOf([e])
  {
    hide Holds, Replaces, Accounts;
  }

  lemma {:induction false} HoldsStays(tree: Tree, tree': Tree, e: Entry)
    requires Holds(tree, e)
    requires PlaceOf(e).Some? && |PlaceOf(e).value| > 0 && PlaceOf(e).value in tree ==>
               || (PlaceOf(e).value in tree' && tree'[PlaceOf(e).value] == tree[PlaceOf(e).value])
               || (e.kind.DirEntry? && IsDirectory(tree', PlaceOf(e).value))
    ensures Holds(tree', e)
  {
    hide SafeArchiveName, Clean;
  }

  /** No later entry replaces what entry i stored; nothing ever replaces a directory. */
  predicate LastFor(entries: seq<Entry>, i: nat)
    requires i < |entries|
  {
    || entries[i].kind.DirEntry?
    || (PlaceOf(entries[i]).Some? &&
        forall k :: i < k < |entries| ==> !Replaces(entries[k], PlaceOf(entries[i]).value))
  }

  lemma {:induction false} EntryHolds(d: Disk, policy: Policy, entries: seq<Entry>, count: nat, i: nat)
    requires ExtractAll(d, policy, entries, count).1 && i < |entries| && LastFor(entries, i)
    ensures Holds(ExtractAll(d, policy, entries, count).0.tree, entries[i])
    decreases |entries|
  {
    hide ExtractEntry, Fits, Replaces, Holds;
    var e, next, rest := entries[0], ExtractEntry(d, policy, entries[0]).0, entries[1..];
    EntryExactly(d, policy, e);
    assert Holds(next.tree, e);
    hide Stores;
    if i > 0 {
      if !entries[i].kind.DirEntry? {
        forall k | i - 1 < k < |rest| ensures !Replaces(rest[k], PlaceOf(entries[i]).value) {
          assert rest[k] == entries[k + 1];
        }
      }
      EntryHolds(next, policy, rest, count + 1, i - 1);
    } else if PlaceOf(e).Some? && |PlaceOf(e).value| > 0 && PlaceOf(e).value in next.tree {
      var p := PlaceOf(e).value;
      RestStores(next, policy, rest, count + 1, p);
      if !e.kind.DirEntry? {
        forall k | 0 <= k < |rest| ensures !Replaces(rest[k], p) { assert rest[k] == entries[k + 1]; }
      } else {
        DirHeld(next.tree, e);
      }
      HoldsStays(next.tree, ExtractAll(next, policy, rest, count + 1).0.tree, e);
    } else {
      HoldsStays(next.tree, ExtractAll(next, policy, rest, count + 1).0.tree, e);
    }
  }

  lemma DirHeld(tree: Tree, e: Entry)
    requires Holds(tree, e) && e.kind.DirEntry? && PlaceOf(e).Some? && |PlaceOf(e).value| > 0
    ensures IsDirectory(tree, PlaceOf(e).value)
  {
  }

  // ------------------------------------------------------------------------ theorem

  /** An extraction finishes if and only if there are not too many entries and each
      fits what is there by then. When it does: every entry that no later file or link
      entry replaces is there, a file with its size, a link meaning what was asked for,
      a directory in any case; nothing is there but places of entries and directories
      above them; and the reported files and sizes are the regular entries in order. */
  lemma {:induction false} ExtractionIsFaithful(policy: Policy, entries: seq<Entry>)
    requires ValidPolicy(policy)
    ensures
      var (d, finished) := ExtractAll(EMPTY_DISK, policy, entries, 0);
      && (finished <==> |entries| <= policy.maxFiles && AllFit(EMPTY_DISK, policy, entries))
      && (finished ==>
            && (forall i :: 0 <= i < |entries| && LastFor(entries, i) ==> Holds(d.tree, entries[i]))
            && (forall p :: p in d.tree ==> exists i :: 0 <= i < |entries| && Accounts(entries[i], p))
            && d.files == FilesOf(entries) && d.sizes == SizesOf(entries))
  {
    hide ExtractAll, AllFit, Holds, LastFor, Accounts;
    FinishesFrom(EMPTY_DISK, policy, entries, 0);
    var (d, finished) := ExtractAll(EMPTY_DISK, policy, entries, 0);
    if finished {
      forall i | 0 <= i < |entries| && LastFor(entries, i) ensures Holds(d.tree, entries[i]) {
        EntryHolds(EMPTY_DISK, policy, entries, 0, i);
      }
      forall p | p in d.tree ensures exists i :: 0 <= i < |entries| && Accounts(entries[i], p) {
        RestStores(EMPTY_DISK, policy, entries, 0, p);
      }
      RestStores(EMPTY_DISK, policy, entries, 0, []);
      assert [] + FilesOf(entries) == FilesOf(entries) && [] + SizesOf(entries) == SizesOf(entries);
    }
  }
}
