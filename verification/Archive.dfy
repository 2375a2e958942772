/** Archive extraction into an empty directory. The file system below the
    extraction root is a map from component paths to nodes; the root itself, [],
    is a directory that is always there. */
module Archive {
  import opened Common
  import opened Text

  type Path = seq<string>

  datatype Node = Directory | File(size: int) | Link(target: Path)

  type Tree = map<Path, Node>

  /** What a tar entry is; `copied` says whether its contents could be copied in full. */
  datatype Kind = DirEntry | FileEntry(size: int, copied: bool) | LinkEntry(linkname: string) | GlobalEntry | OtherEntry

  datatype Entry = Entry(name: string, kind: Kind)

  datatype Policy = Policy(maxArchiveBytes: int, maxExtractedBytes: int, maxFiles: int, allowSymlinks: bool)

  // ---------------------------------------------------------------------- names

  /** path.Clean on the parts of a relative path: one part after the other on a stack. */
  function PushPart(stack: Path, part: string): Path {
    if part == "" || part == "." then stack
    else if part == ".." && |stack| > 0 && stack[|stack| - 1] != ".." then stack[..|stack| - 1]
    else stack + [part]
  }

  function Clean(parts: Path): Path {
    if |parts| == 0 then [] else PushPart(Clean(parts[..|parts| - 1]), parts[|parts| - 1])
  }

  predicate Plain(part: string) { part != "" && part != "." && part != ".." && '/' !in part }

  predicate AllPlain(path: Path) { forall i :: 0 <= i < |path| ==> Plain(path[i]) }

  predicate LeavesRoot(path: Path) { |path| > 0 && path[0] == ".." }

  function SafeArchiveName(name: string): Option<Path> {
    if name == "" || '\0' in name || '\\' in name || name[0] == '/' then None
    else
      var cleaned := Clean(Split(name, '/'));
      if LeavesRoot(cleaned) then None else Some(cleaned)
  }

  function Parent(path: Path): Path
    requires |path| > 0
  {
    path[..|path| - 1]
  }

  function CommonPrefix(a: Path, b: Path): (n: nat)
    ensures n <= |a| && n <= |b| && a[..n] == b[..n]
  {
    if |a| == 0 || |b| == 0 || a[0] != b[0] then 0 else 1 + CommonPrefix(a[1..], b[1..])
  }

  function Ups(n: nat): Path { seq(n, _ => "..") }

  /** filepath.Rel of two cleaned paths that stay under the root. */
  function Relative(base: Path, target: Path): Path {
    var n := CommonPrefix(base, target);
    Ups(|base| - n) + target[n..]
  }

  /** The text stored in a link: relative to the link's own directory. */
  function SafeSymlinkTarget(entry: Path, linkname: string): Option<Path>
    requires |entry| > 0
  {
    if linkname == "" || linkname[0] == '/' || '\\' in linkname || '\0' in linkname then None
    else
      var resolved := Clean(Parent(entry) + Split(linkname, '/'));
      if LeavesRoot(resolved) then None else Some(Relative(Parent(entry), resolved))
  }

  // ------------------------------------------------------------- what it should do

  /** The directory extracted into and the running totals; `sizes` is history. */
  datatype Disk = Disk(tree: Tree, files: seq<Path>, bytes: int, sizes: seq<int>)

  const EMPTY_DISK := Disk(map[], [], 0, [])

  /** Makes the prefixes of a path longer than k into directories; stops at the
      first that is something else. */
  function MakeParents(tree: Tree, path: Path, k: nat): (Tree, bool)
    requires k <= |path|
    decreases |path| - k
  {
    if k == |path| then (tree, true)
    else
      var p := path[..k + 1];
      if p !in tree then MakeParents(tree[p := Directory], path, k + 1)
      else if tree[p].Directory? then MakeParents(tree, path, k + 1)
      else (tree, false)
  }

  predicate IsDirectory(tree: Tree, path: Path) { path in tree && tree[path].Directory? }

  function ExtractEntry(d: Disk, policy: Policy, e: Entry): (Disk, bool) {
    var name := SafeArchiveName(e.name);
    if name.None? then (d, false)
    else if |name.value| == 0 then (d, true)
    else
      var path := name.value;
      var (tree, ok) := MakeParents(d.tree, Parent(path), 0);
      var made := d.(tree := tree);
      if !ok then (made, false)
      else match e.kind
        case DirEntry =>
          if path !in tree then (made.(tree := tree[path := Directory]), true) else (made, tree[path].Directory?)
        case FileEntry(size, copied) =>
          if size < 0 || size > policy.maxExtractedBytes - d.bytes || IsDirectory(tree, path) then (made, false)
          else if !copied then (made.(tree := tree - {path}), false)
          else (Disk(tree[path := File(size)], d.files + [path], d.bytes + size, d.sizes + [size]), true)
        case LinkEntry(linkname) =>
          var target := SafeSymlinkTarget(path, linkname);
          if !policy.allowSymlinks || target.None? || IsDirectory(tree, path) then (made, false)
          else (made.(tree := tree[path := Link(target.value)]), true)
        case GlobalEntry => (made, true)
        case OtherEntry => (made, false)
  }

  /** All entries in order, until one fails or there is one too many. */
  function ExtractAll(d: Disk, policy: Policy, entries: seq<Entry>, count: nat): (Disk, bool)
    decreases |entries|
  {
    if |entries| == 0 then (d, true)
    else if count + 1 > policy.maxFiles then (d, false)
    else
      var (next, ok) := ExtractEntry(d, policy, entries[0]);
      if ok then ExtractAll(next, policy, entries[1..], count + 1) else (next, false)
  }

  // --------------------------------------------------------------- the extractor

  predicate ValidPolicy(p: Policy) { p.maxArchiveBytes > 0 && p.maxExtractedBytes > 0 && p.maxFiles > 0 }

  /** Every directory above a path is a real one, so the system calls on the path
      never pass through a link. */
  ghost predicate RealParents(tree: Tree, path: Path) {
    forall k :: 0 < k < |path| ==> IsDirectory(tree, path[..k])
  }

  class Extractor {
    const policy: Policy
    var tree: Tree
    var files: seq<Path>
    var bytes: int
    ghost var sizes: seq<int>

    constructor (policy: Policy)
      ensures this.policy == policy && State() == EMPTY_DISK
    {
      this.policy := policy;
      tree, files, bytes, sizes := map[], [], 0, [];
    }

    ghost function State(): Disk
      reads this
    {
      Disk(tree, files, bytes, sizes)
    }

    /** os.Lstat: only asked about paths whose parents are real. */
    method Lstat(path: Path) returns (node: Option<Node>)
      requires RealParents(tree, path)
      ensures node == if path in tree then Some(tree[path]) else None
    {
      node := if path in tree then Some(tree[path]) else None;
    }

    method EnsureParents(parent: Path) returns (ok: bool)
      modifies this`tree
      ensures (tree, ok) == MakeParents(old(tree), parent, 0)
      ensures ok ==> forall k :: 0 < k <= |parent| ==> IsDirectory(tree, parent[..k])
    {
      var k := 0;
      while k < |parent|
        invariant 0 <= k <= |parent|
        invariant MakeParents(tree, parent, k) == MakeParents(old(tree), parent, 0)
        invariant forall i :: 0 < i <= k ==> IsDirectory(tree, parent[..i])
      {
        var current := parent[..k + 1];
        forall i | 0 < i < |current| ensures IsDirectory(tree, current[..i]) { assert current[..i] == parent[..i]; }
        var info := Lstat(current);
        if info.None? {
          tree := tree[current := Directory];
        } else if !info.value.Directory? {
          return false;
        }
        k := k + 1;
      }
      return true;
    }

    method RemoveNonDirectory(path: Path) returns (ok: bool)
      requires RealParents(tree, path)
      modifies this`tree
      ensures ok == !IsDirectory(old(tree), path)
      ensures tree == if ok then old(tree) - {path} else old(tree)
    {
      var info := Lstat(path);
      if info.None? {
        assert tree == tree - {path};
        return true;
      }
      if info.value.Directory? {
        return false;
      }
      tree := tree - {path};
      return true;
    }

    method ExtractOne(e: Entry) returns (ok: bool)
      modifies this
      ensures (State(), ok) == ExtractEntry(old(State()), policy, e)
    {
      hide SafeArchiveName, SafeSymlinkTarget, MakeParents;
      var name := SafeArchiveName(e.name);
      if name.None? {
        return false;
      }
      var path := name.value;
      if |path| == 0 {
        return true;
      }
      ok := EnsureParents(Parent(path));
      if !ok {
        return;
      }
      forall k | 0 < k < |path| ensures IsDirectory(tree, path[..k]) { assert path[..k] == Parent(path)[..k]; }
      match e.kind
      case DirEntry =>
        var info := Lstat(path);
        if info.None? {
          tree := tree[path := Directory];
          return true;
        }
        return info.value.Directory?;
      case FileEntry(size, copied) =>
        if size < 0 || size > policy.maxExtractedBytes - bytes {
          return false;
        }
        ghost var made := tree;
        ok := RemoveNonDirectory(path);
        if !ok {
          return;
        }
        tree := tree[path := File(size)];
        if !copied {
          tree := tree - {path};
          assert tree == made - {path};
          return false;
        }
        assert tree == made[path := File(size)];
        bytes := bytes + size;
        files := files + [path];
        sizes := sizes + [size];
      case LinkEntry(linkname) =>
        if !policy.allowSymlinks {
          return false;
        }
        var target := SafeSymlinkTarget(path, linkname);
        if target.None? {
          return false;
        }
        ghost var made := tree;
        ok := RemoveNonDirectory(path);
        if !ok {
          return;
        }
        tree := tree[path := Link(target.value)];
        assert tree == made[path := Link(target.value)];
      case GlobalEntry =>
      case OtherEntry => return false;
    }

    method Extract(entries: seq<Entry>, regular: bool, size: int) returns (ok: bool)
      modifies this
      ensures !ValidPolicy(policy) || !regular || size > policy.maxArchiveBytes ==> !ok && State() == old(State())
      ensures ValidPolicy(policy) && regular && size <= policy.maxArchiveBytes ==>
                (State(), ok) == ExtractAll(old(State()), policy, entries, 0)
    {
      if !ValidPolicy(policy) || !regular || size > policy.maxArchiveBytes {
        return false;
      }
      var entryCount: nat := 0;
      while entryCount < |entries|
        invariant entryCount <= |entries|
        invariant ExtractAll(State(), policy, entries[entryCount..], entryCount) ==
                  ExtractAll(old(State()), policy, entries, 0)
      {
        var header := entries[entryCount];
        assert entries[entryCount..][1..] == entries[entryCount + 1..];
        entryCount := entryCount + 1;
        if entryCount > policy.maxFiles {
          return false;
        }
        ok := ExtractOne(header);
        if !ok {
          return;
        }
      }
      return true;
    }
  }

  // ------------------------------------------------------------- cleaned paths

  predicate Slashless(parts: Path) { forall i :: 0 <= i < |parts| ==> '/' !in parts[i] }

  /** Parent steps only at the front, plain names after them. */
  ghost predicate Normal(path: Path) {
    && (forall i :: 0 <= i < |path| ==> path[i] == ".." || Plain(path[i]))
    && (forall i :: 0 < i < |path| && path[i] == ".." ==> path[i - 1] == "..")
  }

  lemma {:induction false} CleanIsNormal(parts: Path)
    requires Slashless(parts)
    ensures Normal(Clean(parts))
  {
    if |parts| > 0 { CleanIsNormal(parts[..|parts| - 1]); }
  }

  lemma {:induction false} NormalInside(path: Path, i: nat)
    requires Normal(path) && !LeavesRoot(path) && i < |path|
    ensures Plain(path[i])
  {
    if path[i] == ".." && i > 0 { NormalInside(path, i - 1); }
  }

  lemma {:induction false} CleanedIsPlain(parts: Path)
    requires Slashless(parts) && !LeavesRoot(Clean(parts))
    ensures AllPlain(Clean(parts))
  {
    CleanIsNormal(parts);
    forall i | 0 <= i < |Clean(parts)| ensures Plain(Clean(parts)[i]) { NormalInside(Clean(parts), i); }
  }

  lemma {:induction false} SafeNameIsPlain(name: string)
    requires SafeArchiveName(name).Some?
    ensures AllPlain(SafeArchiveName(name).value)
  {
    JoinSplit(name, '/');
    CleanedIsPlain(Split(name, '/'));
  }

  function PushAll(stack: Path, parts: Path): Path {
    if |parts| == 0 then stack else PushPart(PushAll(stack, parts[..|parts| - 1]), parts[|parts| - 1])
  }

  lemma {:induction false} CleanAppend(a: Path, b: Path)
    ensures Clean(a + b) == PushAll(Clean(a), b)
  {
    if |b| == 0 {
      assert a + b == a;
    } else {
      assert (a + b)[..|a + b| - 1] == a + b[..|b| - 1];
      CleanAppend(a, b[..|b| - 1]);
    }
  }

  lemma {:induction false} PushPlain(stack: Path, parts: Path)
    requires AllPlain(parts)
    ensures PushAll(stack, parts) == stack + parts
  {
    if |parts| == 0 {
      assert stack + parts == stack;
    } else {
      PushPlain(stack, parts[..|parts| - 1]);
      assert stack + parts == stack + parts[..|parts| - 1] + [parts[|parts| - 1]];
    }
  }

  lemma {:induction false} PushUps(stack: Path, n: nat)
    requires AllPlain(stack) && n <= |stack|
    ensures PushAll(stack, Ups(n)) == stack[..|stack| - n]
  {
    if n > 0 {
      assert Ups(n)[..n - 1] == Ups(n - 1);
      PushUps(stack, n - 1);
    }
  }

  lemma {:induction false} CleanPlain(path: Path)
    requires AllPlain(path)
    ensures Clean(path) == path
  {
    assert [] + path == path;
    CleanAppend([], path);
    PushPlain([], path);
  }

  /** Read from its own directory, the stored text of a link means exactly what
      the archive asked for, and what it asked for is under the root. */
  lemma {:induction false} StoredLinkMeansItsTarget(entry: Path, linkname: string)
    requires |entry| > 0 && AllPlain(entry) && SafeSymlinkTarget(entry, linkname).Some?
    ensures
      var stored := SafeSymlinkTarget(entry, linkname).value;
      var asked := Clean(Parent(entry) + Split(linkname, '/'));
      Clean(Parent(entry) + stored) == asked && AllPlain(asked)
  {
    var base := Parent(entry);
    var asked := Clean(base + Split(linkname, '/'));
    JoinSplit(linkname, '/');
    CleanedIsPlain(base + Split(linkname, '/'));
    var n := CommonPrefix(base, asked);
    CleanPlain(base);
    CleanAppend(base, Ups(|base| - n) + asked[n..]);
    PushJoin(base, Ups(|base| - n), asked[n..]);
    PushUps(base, |base| - n);
    PushPlain(base[..n], asked[n..]);
    assert base[..n] + asked[n..] == asked;
  }

  lemma {:induction false} PushJoin(stack: Path, a: Path, b: Path)
    ensures PushAll(stack, a + b) == PushAll(PushAll(stack, a), b)
  {
    if |b| == 0 {
      assert a + b == a;
    } else {
      assert (a + b)[..|a + b| - 1] == a + b[..|b| - 1];
      PushJoin(stack, a, b[..|b| - 1]);
    }
  }

  // ------------------------------------------------------------- the stored tree

  /** A path that climbs at most `depth` directories and then only descends. */
  predicate Tame(todo: Path, depth: nat)
    decreases |todo|
  {
    |todo| == 0 || if todo[0] == ".." then depth > 0 && Tame(todo[1..], depth - 1) else AllPlain(todo)
  }

  lemma {:induction false} UpsThenPlain(n: nat, rest: Path, depth: nat)
    requires n <= depth && AllPlain(rest)
    ensures Tame(Ups(n) + rest, depth)
  {
    var todo := Ups(n) + rest;
    if n > 0 {
      assert todo[1..] == Ups(n - 1) + rest;
      UpsThenPlain(n - 1, rest, depth - 1);
    } else {
      assert todo == rest;
    }
  }

  lemma {:induction false} StoredLinkIsTame(entry: Path, linkname: string)
    requires |entry| > 0 && AllPlain(entry) && SafeSymlinkTarget(entry, linkname).Some?
    ensures Tame(SafeSymlinkTarget(entry, linkname).value, |entry| - 1)
  {
    var base := Parent(entry);
    var asked := Clean(base + Split(linkname, '/'));
    StoredLinkMeansItsTarget(entry, linkname);
    UpsThenPlain(|base| - CommonPrefix(base, asked), asked[CommonPrefix(base, asked)..], |base|);
  }

  ghost predicate NodeOk(tree: Tree, path: Path)
    requires path in tree
  {
    && |path| > 0 && AllPlain(path) && RealParents(tree, path)
    && (tree[path].Link? ==> Tame(tree[path].target, |path| - 1))
  }

  ghost predicate TreeOk(tree: Tree) {
    forall path {:trigger NodeOk(tree, path)} :: path in tree ==> NodeOk(tree, path)
  }

  /** Directories are never replaced. */
  ghost predicate DirectoriesKept(a: Tree, b: Tree) {
    forall path :: IsDirectory(a, path) ==> IsDirectory(b, path)
  }

  /** A write of one node below real directories that replaces no directory. */
  lemma {:induction false} PutKeeps(tree: Tree, path: Path, node: Node)
    requires TreeOk(tree) && |path| > 0 && AllPlain(path) && RealParents(tree, path)
    requires IsDirectory(tree, path) ==> node.Directory?
    requires node.Link? ==> Tame(node.target, |path| - 1)
    ensures TreeOk(tree[path := node]) && DirectoriesKept(tree, tree[path := node])
  {
    hide AllPlain, Tame;
    var next := tree[path := node];
    forall p | p in next ensures NodeOk(next, p) {
      if p != path { assert NodeOk(tree, p); }
      forall k | 0 < k < |p| ensures IsDirectory(next, p[..k]) { assert IsDirectory(tree, p[..k]); }
    }
  }

  lemma {:induction false} RemoveKeeps(tree: Tree, path: Path)
    requires TreeOk(tree) && !IsDirectory(tree, path)
    ensures TreeOk(tree - {path}) && DirectoriesKept(tree, tree - {path})
  {
    hide AllPlain, Tame;
    var next := tree - {path};
    forall p | p in next ensures NodeOk(next, p) {
      assert NodeOk(tree, p);
      forall k | 0 < k < |p| ensures IsDirectory(next, p[..k]) { assert IsDirectory(tree, p[..k]); }
    }
  }

  lemma {:induction false} ParentsKeep(tree: Tree, path: Path, k: nat)
    requires TreeOk(tree) && AllPlain(path) && k <= |path|
    requires forall i :: 0 < i <= k ==> IsDirectory(tree, path[..i])
    ensures
      var (next, ok) := MakeParents(tree, path, k);
      && TreeOk(next) && DirectoriesKept(tree, next)
      && (ok ==> forall i :: 0 < i <= |path| ==> IsDirectory(next, path[..i]))
    decreases |path| - k
  {
    if k < |path| {
      var p := path[..k + 1];
      if p !in tree {
        forall i | 0 < i < |p| ensures IsDirectory(tree, p[..i]) { assert p[..i] == path[..i]; }
        PutKeeps(tree, p, Directory);
        ParentsKeep(tree[p := Directory], path, k + 1);
      } else if tree[p].Directory? {
        ParentsKeep(tree, path, k + 1);
      }
    }
  }

  function Sum(sizes: seq<int>): int {
    if |sizes| == 0 then 0 else Sum(sizes[..|sizes| - 1]) + sizes[|sizes| - 1]
  }

  ghost predicate DiskOk(d: Disk, policy: Policy, count: nat) {
    && TreeOk(d.tree)
    && 0 <= d.bytes <= policy.maxExtractedBytes && d.bytes == Sum(d.sizes)
    && (forall i :: 0 <= i < |d.sizes| ==> d.sizes[i] >= 0)
    && |d.files| == |d.sizes| <= count
  }

  lemma {:induction false} EntryKeeps(d: Disk, policy: Policy, e: Entry, count: nat)
    requires DiskOk(d, policy, count)
    ensures DiskOk(ExtractEntry(d, policy, e).0, policy, count + 1)
    ensures DirectoriesKept(d.tree, ExtractEntry(d, policy, e).0.tree)
  {
    hide TreeOk, AllPlain, SafeArchiveName, SafeSymlinkTarget, MakeParents, Tame, Sum;
    var name := SafeArchiveName(e.name);
    if name.Some? && |name.value| > 0 {
      var path := name.value;
      SafeNameIsPlain(e.name);
      PlainPrefix(path);
      ParentsKeep(d.tree, Parent(path), 0);
      var (tree, ok) := MakeParents(d.tree, Parent(path), 0);
      if ok {
        forall k | 0 < k < |path| ensures IsDirectory(tree, path[..k]) { assert path[..k] == Parent(path)[..k]; }
        match e.kind
        case DirEntry => if path !in tree { PutKeeps(tree, path, Directory); }
        case FileEntry(size, copied) =>
          if !IsDirectory(tree, path) {
            RemoveKeeps(tree, path);
            PutKeeps(tree, path, File(size));
            SumOne(d.sizes, size);
          }
        case LinkEntry(linkname) =>
          var target := SafeSymlinkTarget(path, linkname);
          if target.Some? && !IsDirectory(tree, path) {
            StoredLinkIsTame(path, linkname);
            PutKeeps(tree, path, Link(target.value));
          }
        case GlobalEntry =>
        case OtherEntry =>
      }
    }
  }

  lemma {:induction false} SumOne(sizes: seq<int>, size: int)
    ensures Sum(sizes + [size]) == Sum(sizes) + size
  {
    assert (sizes + [size])[..|sizes|] == sizes;
  }

  lemma {:induction false} PlainPrefix(path: Path)
    requires |path| > 0 && AllPlain(path)
    ensures AllPlain(Parent(path))
  {
  }

  lemma {:induction false} ExtractKeeps(d: Disk, policy: Policy, entries: seq<Entry>, count: nat)
    requires DiskOk(d, policy, count) && count <= policy.maxFiles
    ensures DiskOk(ExtractAll(d, policy, entries, count).0, policy, policy.maxFiles)
    ensures DirectoriesKept(d.tree, ExtractAll(d, policy, entries, count).0.tree)
    decreases |entries|
  {
    hide ExtractEntry, TreeOk;
    if |entries| > 0 && count + 1 <= policy.maxFiles {
      var (next, ok) := ExtractEntry(d, policy, entries[0]);
      EntryKeeps(d, policy, entries[0], count);
      if ok { ExtractKeeps(next, policy, entries[1..], count + 1); }
    }
  }

  // ---------------------------------------------------------------- resolving a path

  /** Where following a path leads: to a place under the root, out of it, nowhere,
      or to more links than allowed. */
  datatype Place = At(path: Path) | Outside | Missing | TooManyLinks

  /** The system's resolution: the current directory is physical, ".." goes to its
      parent, a link is replaced by its text and read from the link's directory. */
  function Resolve(tree: Tree, here: Path, todo: Path, fuel: nat): Place
    decreases fuel, |todo|
  {
    if |todo| == 0 then At(here)
    else if todo[0] == ".." then
      if |here| == 0 then Outside else Resolve(tree, Parent(here), todo[1..], fuel)
    else
      var p := here + [todo[0]];
      if p !in tree then Missing
      else match tree[p]
        case Directory => Resolve(tree, p, todo[1..], fuel)
        case File(_) => if |todo| == 1 then At(p) else Missing
        case Link(target) => if fuel == 0 then TooManyLinks else Resolve(tree, here, target + todo[1..], fuel - 1)
  }

  lemma {:induction false} TameThenPlain(todo: Path, rest: Path, depth: nat)
    requires Tame(todo, depth) && AllPlain(rest)
    ensures Tame(todo + rest, depth)
    decreases |todo|
  {
    if |todo| == 0 {
      assert todo + rest == rest;
      if |rest| > 0 { assert Plain(rest[0]); }
    } else {
      assert (todo + rest)[1..] == todo[1..] + rest;
      if todo[0] == ".." { TameThenPlain(todo[1..], rest, depth - 1); }
    }
  }

  lemma {:induction false} ResolveStaysInside(tree: Tree, here: Path, todo: Path, fuel: nat)
    requires TreeOk(tree) && Tame(todo, |here|)
    ensures !Resolve(tree, here, todo, fuel).Outside?
    decreases fuel, |todo|
  {
    if |todo| > 0 {
      if todo[0] == ".." {
        ResolveStaysInside(tree, Parent(here), todo[1..], fuel);
      } else {
        PlainIsTame(todo[1..], |here| + 1);
        PlainIsTame(todo[1..], |here|);
        var p := here + [todo[0]];
        if p in tree {
          match tree[p]
          case Directory => ResolveStaysInside(tree, p, todo[1..], fuel);
          case File(_) =>
          case Link(target) =>
            assert NodeOk(tree, p);
            if fuel > 0 {
              TameThenPlain(target, todo[1..], |here|);
              ResolveStaysInside(tree, here, target + todo[1..], fuel - 1);
            }
        }
      }
    }
  }

  lemma {:induction false} PlainIsTame(path: Path, depth: nat)
    requires AllPlain(path)
    ensures Tame(path, depth)
  {
    if |path| > 0 { assert Plain(path[0]); }
  }

  // ------------------------------------------------------------------- theorem

  /** Extraction of any archive under a valid policy, finished or cut short by an
      error: every stored path has only real directories above it; any path of
      plain names, followed through any chain of the extracted links, stays under
      the root; and the bytes written and the files made are within the policy. */
  lemma {:induction false} ExtractionIsContained(policy: Policy, entries: seq<Entry>, path: Path, fuel: nat)
    requires ValidPolicy(policy) && AllPlain(path)
    ensures
      var d := ExtractAll(EMPTY_DISK, policy, entries, 0).0;
      && (forall p :: p in d.tree ==> |p| > 0 && AllPlain(p) && RealParents(d.tree, p))
      && !Resolve(d.tree, [], path, fuel).Outside?
      && Sum(d.sizes) == d.bytes <= policy.maxExtractedBytes
      && |d.files| <= policy.maxFiles
  {
    hide ExtractAll, Resolve;
    ExtractKeeps(EMPTY_DISK, policy, entries, 0);
    var d := ExtractAll(EMPTY_DISK, policy, entries, 0).0;
    PlainIsTame(path, 0);
    ResolveStaysInside(d.tree, [], path, fuel);
    forall p | p in d.tree ensures |p| > 0 && AllPlain(p) && RealParents(d.tree, p) { assert NodeOk(d.tree, p); }
  }

  // ------------------------------------------------------- paths with parent steps

  /** A name an archive can carry. */
  predicate Carried(part: string) { Plain(part) && '\0' !in part && '\\' !in part }

  predicate Walkable(path: Path) { forall i :: 0 <= i < |path| ==> path[i] == ".." || Carried(path[i]) }

  /** An archive of one link, from a place below the root to the root itself. */
  function RootLink(place: Path): seq<Entry>
    requires |place| > 0
  {
    [Entry(Join(place, '/'), LinkEntry(Join(["."] + Ups(|place| - 1), '/')))]
  }

  lemma {:induction false} RootLinkName(place: Path)
    requires |place| > 0 && forall i :: 0 <= i < |place| ==> Carried(place[i])
    ensures SafeArchiveName(Join(place, '/')) == Some(place)
  {
    SplitJoin(place, '/');
    JoinHas(place, '/', '\0');
    JoinHas(place, '/', '\\');
    CleanPlain(place);
    assert Plain(place[0]);
    assert Join(place, '/')[..|place[0]|] == place[0];
  }

  lemma {:induction false} RootLinkTarget(place: Path)
    requires |place| > 0 && AllPlain(place)
    ensures SafeSymlinkTarget(place, Join(["."] + Ups(|place| - 1), '/')) == Some(Ups(|place| - 1))
  {
    RootLinkText(["."] + Ups(|place| - 1));
    RootLinkClean(Parent(place));
    hide Clean, Join, Split, AllPlain;
    assert Ups(|place| - 1) + [] == Ups(|place| - 1);
  }

  lemma {:induction false} RootLinkText(parts: Path)
    requires |parts| > 0 && parts[0] == "." && forall i :: 0 < i < |parts| ==> parts[i] == ".."
    ensures
      var text := Join(parts, '/');
      && Split(text, '/') == parts && text != "" && text[0] != '/' && '\\' !in text && '\0' !in text
  {
    SplitJoin(parts, '/');
    JoinHas(parts, '/', '\0');
    JoinHas(parts, '/', '\\');
    assert Join(parts, '/')[..1] == ".";
  }

  lemma {:induction false} RootLinkClean(base: Path)
    requires AllPlain(base)
    ensures Clean(base + (["."] + Ups(|base|))) == []
  {
    CleanPlain(base);
    CleanAppend(base, ["."] + Ups(|base|));
    PushJoin(base, ["."], Ups(|base|));
    assert ["."][..0] == [] && PushAll(base, ["."]) == base;
    PushUps(base, |base|);
  }

  /** From directories only, making parents succeeds and adds no path longer than asked. */
  lemma {:induction false} ParentsMade(tree: Tree, path: Path, k: nat)
    requires k <= |path| && forall p :: p in tree ==> tree[p].Directory? && |p| <= |path|
    requires forall i :: 0 < i <= k ==> path[..i] in tree
    ensures
      var (next, ok) := MakeParents(tree, path, k);
      && ok && (forall p :: p in next ==> next[p].Directory? && |p| <= |path|)
      && (forall i :: 0 < i <= |path| ==> path[..i] in next)
    decreases |path| - k
  {
    if k < |path| {
      var p := path[..k + 1];
      ParentsMade(if p in tree then tree else tree[p := Directory], path, k + 1);
    }
  }

  /** Walking down real directories. */
  lemma {:induction false} WalksDown(tree: Tree, path: Path, i: nat, m: nat, rest: Path, fuel: nat)
    requires i <= m <= |path| && AllPlain(path[..m])
    requires forall k :: 0 < k <= m ==> IsDirectory(tree, path[..k])
    ensures Resolve(tree, path[..i], path[i..m] + rest, fuel) == Resolve(tree, path[..m], rest, fuel)
    decreases m - i
  {
    if i == m {
      assert path[i..m] + rest == rest;
    } else {
      var todo := path[i..m] + rest;
      assert todo[0] == path[..m][i] && todo[1..] == path[i + 1..m] + rest;
      assert path[..i] + [todo[0]] == path[..i + 1];
      WalksDown(tree, path, i + 1, m, rest, fuel);
    }
  }

  /** Climbing up again, never above the root. */
  lemma {:induction false} ClimbsUp(tree: Tree, here: Path, n: nat, rest: Path, fuel: nat)
    requires n <= |here|
    ensures Resolve(tree, here, Ups(n) + rest, fuel) == Resolve(tree, here[..|here| - n], rest, fuel)
  {
    if n == 0 {
      assert Ups(0) + rest == rest && here[..|here|] == here;
    } else {
      var todo := Ups(n) + rest;
      assert todo[1..] == Ups(n - 1) + rest;
      ClimbsUp(tree, Parent(here), n - 1, rest, fuel);
      assert Parent(here)[..|here| - n] == here[..|here| - n];
    }
  }

  /** What the archive of one link leaves behind. */
  lemma {:induction false} RootLinkTree(policy: Policy, place: Path)
    requires ValidPolicy(policy) && policy.allowSymlinks
    requires |place| > 0 && forall i :: 0 <= i < |place| ==> Carried(place[i])
    ensures
      var tree := ExtractAll(EMPTY_DISK, policy, RootLink(place), 0).0.tree;
      && (forall i :: 0 < i < |place| ==> IsDirectory(tree, place[..i]))
      && place in tree && tree[place] == Link(Ups(|place| - 1))
  {
    hide SafeArchiveName, SafeSymlinkTarget, MakeParents, Carried;
    RootLinkName(place);
    assert AllPlain(place) by { CarriedIsPlain(place); }
    RootLinkTarget(place);
    var base := Parent(place);
    ParentsMade(map[], base, 0);
    var made := MakeParents(map[], base, 0).0;
    forall i | 0 < i < |place| ensures place[..i] in made && made[place[..i]].Directory? {
      assert place[..i] == base[..i];
    }
    assert ExtractAll(EMPTY_DISK, policy, RootLink(place), 0).0 ==
      ExtractEntry(EMPTY_DISK, policy, RootLink(place)[0]).0;
  }

  lemma CarriedIsPlain(path: Path)
    requires forall i :: 0 <= i < |path| ==> Carried(path[i])
    ensures AllPlain(path)
  {
  }

  /** At its first parent step a path leaves the root, if what comes before that step is
      a link to the root. */
  lemma {:induction false} ParentStepEscapes(policy: Policy, path: Path, k: nat)
    requires ValidPolicy(policy) && policy.allowSymlinks
    requires k < |path| && path[k] == ".." && forall i :: 0 <= i < k ==> Carried(path[i])
    ensures
      var entries := if k == 0 then [] else RootLink(path[..k]);
      Resolve(ExtractAll(EMPTY_DISK, policy, entries, 0).0.tree, [], path, 1).Outside?
  {
    if k > 0 {
      var place, last, rest := path[..k], path[k - 1], path[k..];
      RootLinkTree(policy, place);
      CarriedIsPlain(place);
      var tree := ExtractAll(EMPTY_DISK, policy, RootLink(place), 0).0.tree;
      hide ExtractAll, RootLink, Carried;
      forall i | 0 < i <= k - 1 ensures IsDirectory(tree, path[..i]) { assert path[..i] == place[..i]; }
      assert path[..k - 1] == Parent(place) && AllPlain(path[..k - 1]) by { PlainPrefix(place); }
      WalksDown(tree, path, 0, k - 1, [last] + rest, 1);
      assert path[..0] == [] && path[0..k - 1] + ([last] + rest) == path;
      var here := path[..k - 1];
      assert here + [last] == place && ([last] + rest)[1..] == rest && Plain(last);
      assert Resolve(tree, here, [last] + rest, 1) == Resolve(tree, here, Ups(k - 1) + rest, 0);
      ClimbsUp(tree, here, k - 1, rest, 0);
      assert here[..0] == [] && rest[0] == "..";
    }
  }

  /** The exact condition. With links allowed, a path of names and parent steps stays
      under the root after every archive if and only if it has no parent step. */
  lemma {:induction false} StaysInsideExactlyWhenPlain(policy: Policy, path: Path)
    requires ValidPolicy(policy) && policy.allowSymlinks && Walkable(path)
    ensures
      (forall entries, fuel :: !Resolve(ExtractAll(EMPTY_DISK, policy, entries, 0).0.tree, [], path, fuel).Outside?)
      <==> ".." !in path
  {
    hide ExtractAll, Resolve;
    if ".." in path {
      var k := FirstParentStep(path);
      ParentStepEscapes(policy, path, k);
    } else {
      forall entries, fuel
        ensures !Resolve(ExtractAll(EMPTY_DISK, policy, entries, 0).0.tree, [], path, fuel).Outside?
      {
        ExtractionIsContained(policy, entries, path, fuel);
      }
    }
  }

  lemma {:induction false} FirstParentStep(path: Path) returns (k: nat)
    requires Walkable(path) && ".." in path
    ensures k < |path| && path[k] == ".." && forall i :: 0 <= i < k ==> Carried(path[i])
  {
    k := 0;
    while path[k] != ".."
      invariant k < |path| && ".." !in path[..k]
      decreases |path| - k
    {
      k := k + 1;
    }
    forall i | 0 <= i < k ensures Carried(path[i]) { assert path[i] in path[..k]; }
  }

  /** A directory that exists after some of the entries exists after all of them. */
  lemma {:induction false} DirectoriesAreNeverReplaced(
      policy: Policy, first: seq<Entry>, second: seq<Entry>, path: Path)
    requires ValidPolicy(policy)
    requires IsDirectory(ExtractAll(EMPTY_DISK, policy, first, 0).0.tree, path)
    ensures IsDirectory(ExtractAll(EMPTY_DISK, policy, first + second, 0).0.tree, path)
  {
    DirectoriesSurvive(EMPTY_DISK, policy, first, second, 0, path);
  }

  lemma {:induction false} DirectoriesSurvive(
      d: Disk, policy: Policy, first: seq<Entry>, second: seq<Entry>, count: nat, path: Path)
    requires DiskOk(d, policy, count) && count <= policy.maxFiles
    requires IsDirectory(ExtractAll(d, policy, first, count).0.tree, path)
    ensures IsDirectory(ExtractAll(d, policy, first + second, count).0.tree, path)
    decreases |first|
  {
    hide ExtractEntry;
    if |first| == 0 {
      assert first + second == second;
      ExtractKeeps(d, policy, second, count);
    } else if count + 1 <= policy.maxFiles {
      assert (first + second)[1..] == first[1..] + second;
      EntryKeeps(d, policy, first[0], count);
      var (next, ok) := ExtractEntry(d, policy, first[0]);
      if ok { DirectoriesSurvive(next, policy, first[1..], second, count + 1, path); }
    }
  }
}
