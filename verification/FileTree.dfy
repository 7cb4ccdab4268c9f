/** Names and link counts: namex of riscv-os/kernel/disk/fs.c, and the directory side
    of create and sys_unlink (riscv-os/kernel/disk/sysfile.c) for files. */
module FileTree {
  import opened Common
  import opened FsBlocks
  import opened FsMap
  import opened FsDisk
  import opened FsFile
  import opened DirNames
  import opened Dir

  datatype Kind = Free | Directory | File | Device

  const ROOTINO: nat := 1
  const MAXENT: nat := MAXFILE * BSIZE / DIRENT

  /** The files and directories as values. */
  datatype View = View(blocks: Blocks, inodes: Inodes, kind: seq<Kind>)

  ghost predicate IsDir(v: View, d: nat) {
    d < |v.kind| && v.kind[d] == Directory && d in v.inodes && DirSize(v.inodes[d])
  }

  /** Every directory is well formed and names existing inodes only. */
  ghost predicate Closed(v: View) {
    && (forall i: nat :: i in v.inodes <==> i < |v.kind|)
    && (forall d: nat | d < |v.kind| && v.kind[d] == Directory :: IsDir(v, d))
    && (forall d: nat, k: nat | IsDir(v, d) && DIRENT * k < v.inodes[d].size ::
          var x := EntryAt(v.blocks, v.inodes[d], k).inum;
          x != 0 ==> x < |v.kind| && v.kind[x] != Free)
  }

  // ---- lookup and path resolution as functions ----

  /** The inode that name nm leads to from entry k of directory ip on. */
  ghost function Look(blocks: Blocks, ip: Inode, nm: seq<Byte>, k: nat): Option<nat>
    decreases ip.size - DIRENT * k
  {
    if DIRENT * k >= ip.size then None
    else if Matches(blocks, ip, k, nm) then Some(EntryAt(blocks, ip, k).inum)
    else Look(blocks, ip, nm, k + 1)
  }

  lemma {:induction false} LookAt(blocks: Blocks, ip: Inode, nm: seq<Byte>, j: nat, k: nat)
    requires j <= k && DIRENT * k < ip.size && Matches(blocks, ip, k, nm) && forall i: nat | i < k :: !Matches(blocks, ip, i, nm)
    ensures Look(blocks, ip, nm, j) == Some(EntryAt(blocks, ip, k).inum)
    decreases k - j
  {
    hide EntryAt;
    if j < k { LookAt(blocks, ip, nm, j + 1, k); }
  }

  lemma {:induction false} LookNone(blocks: Blocks, ip: Inode, nm: seq<Byte>, j: nat)
    requires forall i: nat :: !Matches(blocks, ip, i, nm)
    ensures Look(blocks, ip, nm, j) == None
    decreases ip.size - DIRENT * j
  {
    hide EntryAt;
    if DIRENT * j < ip.size { LookNone(blocks, ip, nm, j + 1); }
  }

  /** Following the names one by one, each from the directory found before. */
  ghost function Resolve(v: View, ip: nat, names: seq<seq<Byte>>): Option<nat>
    decreases |names|
  {
    if names == [] then Some(ip)
    else if !IsDir(v, ip) then None
    else match Look(v.blocks, v.inodes[ip], names[0], 0)
      case None => None
      case Some(next) => Resolve(v, next, names[1..])
  }

  /** The elements of a path, cut to DIRSIZ bytes. */
  function NamesOf(path: seq<Byte>): seq<seq<Byte>> { Cut(Elements(path)) }

  function Cut(e: seq<seq<Byte>>): (n: seq<seq<Byte>>)
    ensures |n| == |e|
  {
    if e == [] then [] else [Take(e[0], DIRSIZ)] + Cut(e[1..])
  }

  /** Where a path starts. */
  function Start(path: seq<Byte>, cwd: nat): nat { if path != [] && path[0] == SLASH then ROOTINO else cwd }

  /** The directory that holds the last name of a path. */
  ghost function Parent(v: View, ip: nat, names: seq<seq<Byte>>): Option<nat> {
    if names == [] then None
    else match Resolve(v, ip, names[..|names| - 1])
      case None => None
      case Some(d) => if IsDir(v, d) then Some(d) else None
  }

  lemma ParentStep(v: View, ip: nat, names: seq<seq<Byte>>)
    requires |names| > 1
    ensures Parent(v, ip, names) ==
            if !IsDir(v, ip) then None
            else match Look(v.blocks, v.inodes[ip], names[0], 0)
              case None => None
              case Some(next) => Parent(v, next, names[1..])
  {
    hide Look, IsDir;
    var most := names[..|names| - 1];
    assert most[0] == names[0] && most[1..] == names[1..][..|names| - 2];
  }

  /** Only the contents of files matter. */
  lemma {:induction false} LookSame(b0: Blocks, i0: Inodes, b1: Blocks, i1: Inodes, d: nat, nm: seq<Byte>, k: nat)
    requires SameFiles(b0, i0, b1, i1) && d in i0
    ensures d in i1 && Look(b1, i1[d], nm, k) == Look(b0, i0[d], nm, k)
    decreases i0[d].size - DIRENT * k
  {
    hide EntryAt, SameFiles;
    SameFilesMean(b0, i0, b1, i1, d);
    SameEntry(b0, i0, b1, i1, d, k);
    if DIRENT * k < i0[d].size { LookSame(b0, i0, b1, i1, d, nm, k + 1); }
  }

  // ---- namex ----

  datatype PathResult = Reached(ip: nat) | NotFound | PathPanic

  /** Elements of a path without zero bytes have none, so they are their own string. */
  lemma {:induction false} CleanElements(path: seq<Byte>, j: nat)
    requires 0 !in path && j < |Elements(path)|
    ensures 0 !in Elements(path)[j] && Str(Elements(path)[j]) == Elements(path)[j]
    decreases |path|
  {
    if path[0] == SLASH {
      CleanElements(path[1..], j);
    } else if j == 0 {
      assert forall x | x in path[..Run(path)] :: x in path;
    } else {
      assert forall x | x in path[Run(path)..] :: x in path;
      CleanElements(path[Run(path)..], j - 1);
    }
    StrIs(Elements(path)[j], |Elements(path)[j]|);
  }

  lemma CleanName(path: seq<Byte>, name: seq<Byte>)
    requires 0 !in path && Elements(path) != [] && name == Take(Elements(path)[0], DIRSIZ)
    ensures Take(Str(name), DIRSIZ) == name && name == NamesOf(path)[0]
  {
    CleanElements(path, 0);
    assert forall x | x in name :: x in Elements(path)[0];
    StrIs(name, |name|);
  }

  lemma CutRest(path: seq<Byte>, rest: seq<Byte>)
    requires Elements(path) != [] && Elements(rest) == Elements(path)[1..]
    ensures |NamesOf(path)| == |Elements(path)| && NamesOf(rest) == NamesOf(path)[1..]
  {
    hide Elements;
  }

  /** dirlookup as a function of the directory's contents. */
  method Lookup1(fs: Fs, d: nat, name: seq<Byte>, ghost b0: Blocks, ghost i0: Inodes) returns (r: PathResult)
    requires fs.Valid() && SameFiles(b0, i0, fs.blocks, fs.inodes) && d in i0 && DirSize(i0[d])
    modifies fs
    ensures fs.Valid() && SameFiles(b0, i0, fs.blocks, fs.inodes)
    ensures r.Reached? ==> Look(b0, i0[d], Take(Str(name), DIRSIZ), 0) == Some(r.ip)
    ensures r.NotFound? ==> Look(b0, i0[d], Take(Str(name), DIRSIZ), 0) == None
    ensures r.PathPanic? ==> fs.Full()
  {
    hide MapOk, SameFiles, EntryAt, Str, Look;
    ghost var b1, i1 := fs.blocks, fs.inodes;
    SameFilesMean(b0, i0, b1, i1, d);
    LookSame(b0, i0, b1, i1, d, Take(Str(name), DIRSIZ), 0);
    var l := Dirlookup(fs, d, name);
    SameFilesTrans(b0, i0, b1, i1, fs.blocks, fs.inodes);
    match l {
      case Found(inum, k) =>
        LookAt(b1, i1[d], Take(Str(name), DIRSIZ), 0, k);
        r := Reached(inum);
      case Absent =>
        LookNone(b1, i1[d], Take(Str(name), DIRSIZ), 0);
        r := NotFound;
      case ReadPanic => r := PathPanic;
    }
  }

  lemma LookIsInode(v: View, d: nat, nm: seq<Byte>, k: nat)
    requires Closed(v) && IsDir(v, d)
    ensures Look(v.blocks, v.inodes[d], nm, k).Some? ==>
              var x := Look(v.blocks, v.inodes[d], nm, k).value; x < |v.kind| && v.kind[x] != Free
    decreases v.inodes[d].size - DIRENT * k
  {
    hide EntryAt;
    if DIRENT * k < v.inodes[d].size && !Matches(v.blocks, v.inodes[d], k, nm) { LookIsInode(v, d, nm, k + 1); }
  }

  /** What namex answers where following the names leads to `to`. */
  ghost predicate Answers(r: PathResult, name: seq<Byte>, to: Option<nat>, ns: seq<seq<Byte>>, parent: bool) {
    && (r.Reached? ==> to == Some(r.ip) && (parent ==> ns != [] && name == ns[|ns| - 1]))
    && (r.NotFound? ==> to == None)
  }

  /** namex: the inode that the path's elements lead to, looked up one by one from the
      root if the path begins with a slash and from cwd if not; or with `parent` the
      directory of the last one, whose name it returns. */
  method Namex(fs: Fs, kind: seq<Kind>, path: seq<Byte>, cwd: nat, parent: bool) returns (r: PathResult, name: seq<Byte>)
    requires fs.Valid() && Closed(View(fs.blocks, fs.inodes, kind)) && 0 !in path
    requires cwd < |kind| && kind[cwd] != Free && ROOTINO < |kind| && kind[ROOTINO] != Free
    modifies fs
    ensures fs.Valid() && SameFiles(old(fs.blocks), old(fs.inodes), fs.blocks, fs.inodes)
    ensures var v, ns := View(old(fs.blocks), old(fs.inodes), kind), NamesOf(path);
            && ([SLASH] <= path && !parent ==> Answers(r, name, Resolve(v, ROOTINO, ns), ns, parent))
            && ([SLASH] <= path && parent ==> Answers(r, name, Parent(v, ROOTINO, ns), ns, parent))
            && (!([SLASH] <= path) && !parent ==> Answers(r, name, Resolve(v, cwd, ns), ns, parent))
            && (!([SLASH] <= path) && parent ==> Answers(r, name, Parent(v, cwd, ns), ns, parent))
    ensures r.PathPanic? ==> fs.Full()
  {
    hide MapOk, SameFiles, EntryAt, Str, Look, Elements, Resolve, Parent, NamesOf, Closed;
    ghost var v := View(fs.blocks, fs.inodes, kind);
    QuietNothing(fs.blocks, fs.inodes);
    var ip: nat, rest: seq<Byte> := Start(path, cwd), path;
    name := [];
    while true
      invariant fs.Valid() && SameFiles(v.blocks, v.inodes, fs.blocks, fs.inodes)
      invariant ip < |kind| && kind[ip] != Free && 0 !in rest
      invariant Resolve(v, Start(path, cwd), NamesOf(path)) == Resolve(v, ip, NamesOf(rest))
      invariant parent ==> Parent(v, Start(path, cwd), NamesOf(path)) == Parent(v, ip, NamesOf(rest))
      invariant NamesOf(rest) != [] ==> NamesOf(path) != [] && Last(NamesOf(rest)) == Last(NamesOf(path))
      decreases |rest|
    {
      var found, next: seq<Byte>;
      found, next, name := Skipelem(rest);
      if !found {
        NoNames(v, ip, rest);
        r := if parent then NotFound else Reached(ip);
        return;
      }
      CleanName(rest, name);
      CutRest(rest, next);
      StepNames(v, ip, NamesOf(rest));
      ClosedDir(v, ip);
      if kind[ip] != Directory { return NotFound, name; }
      if parent && next == [] { return Reached(ip), name; }
      LookIsInode(v, ip, name, 0);
      r := Lookup1(fs, ip, name, v.blocks, v.inodes);
      if !r.Reached? { return; }
      assert forall x | x in next :: x in rest;
      ip, rest := r.ip, next;
    }
  }

  lemma NoNames(v: View, ip: nat, path: seq<Byte>)
    requires Elements(path) == []
    ensures NamesOf(path) == [] && Resolve(v, ip, NamesOf(path)) == Some(ip) && Parent(v, ip, NamesOf(path)) == None
  {
  }

  /** What the first name decides. */
  lemma StepNames(v: View, ip: nat, names: seq<seq<Byte>>)
    requires names != []
    ensures !IsDir(v, ip) ==> Resolve(v, ip, names) == None && Parent(v, ip, names) == None
    ensures IsDir(v, ip) && |names| == 1 ==> Parent(v, ip, names) == Some(ip)
    ensures IsDir(v, ip) ==>
              var l := Look(v.blocks, v.inodes[ip], names[0], 0);
              && Resolve(v, ip, names) == (if l.None? then None else Resolve(v, l.value, names[1..]))
              && (|names| > 1 ==> Parent(v, ip, names) == if l.None? then None else Parent(v, l.value, names[1..]))
  {
    hide Look, IsDir;
    if |names| > 1 {
      ParentStep(v, ip, names);
    } else {
      assert names[..|names| - 1] == [];
    }
  }

  lemma ClosedDir(v: View, ip: nat)
    requires Closed(v) && ip < |v.kind|
    ensures v.kind[ip] == Directory <==> IsDir(v, ip)
  {
    hide EntryAt;
  }

  ghost function Last(ns: seq<seq<Byte>>): seq<Byte>
    requires ns != []
  {
    ns[|ns| - 1]
  }
}
