/** create and sys_unlink of riscv-os/kernel/disk/sysfile.c on files and devices: the
    link count of a file is the number of directory entries that name it. */
module FileLinks {
  import opened Common
  import opened FsBlocks
  import opened FsMap
  import opened FsDisk
  import opened FsFile
  import opened DirNames
  import opened Dir
  import opened FileTree

  /** Entry k of directory d names inode f. */
  ghost predicate IsLink(v: View, d: nat, k: nat, f: nat) {
    IsDir(v, d) && DIRENT * k < v.inodes[d].size && EntryAt(v.blocks, v.inodes[d], k).inum == f
  }

  /** All entries that name inode f. */
  ghost function Links(v: View, f: nat): set<(nat, nat)> {
    set d: nat, k: nat | d < |v.kind| && k < MAXENT && IsLink(v, d, k, f) :: (d, k)
  }

  predicate Leaf(k: Kind) { k == File || k == Device }

  /** The link counts are right, but perhaps for inode x. */
  ghost predicate CountedBut(v: View, nlink: seq<nat>, x: nat) {
    && |nlink| == |v.kind|
    && forall f: nat | f < |v.kind| && Leaf(v.kind[f]) && f != x :: nlink[f] == |Links(v, f)|
  }

  /** A free inode holds nothing; number 0 is never used. */
  ghost predicate FreeEmpty(v: View) {
    && |v.kind| > 0 && v.kind[0] == Free
    && forall f: nat | f < |v.kind| && v.kind[f] == Free :: f in v.inodes && v.inodes[f] == Inode(EMPTY, 0)
  }

  lemma OtherEntry(b0: Blocks, i0: Inodes, b1: Blocks, i1: Inodes, i: nat, d: nat, k: nat)
    requires OthersSame(b0, i0, b1, i1, i) && d in i0 && d != i
    ensures d in i1 && i1[d].size == i0[d].size && EntryAt(b1, i1[d], k) == EntryAt(b0, i0[d], k)
  {
    hide FileBlock;
    forall j | 0 <= j < DIRENT
      ensures Raw(b1, i1[d], k)[j] == Raw(b0, i0[d], k)[j]
    {
      var x := DIRENT * k + j;
      assert FileBlock(b1, i1[d], x / BSIZE) == FileBlock(b0, i0[d], x / BSIZE);
      assert FileByte(b1, i1[d], x) == FileByte(b0, i0[d], x);
    }
    assert Raw(b1, i1[d], k) == Raw(b0, i0[d], k);
  }

  lemma LinkBound(v: View, d: nat, k: nat, f: nat)
    requires IsLink(v, d, k, f)
    ensures k < MAXENT && (d, k) in Links(v, f)
  {
    hide EntryAt;
  }

  /** What dirlink does to the links. */
  lemma LinkAdded(v: View, v': View, dp: nat, k: nat, nm: seq<Byte>, ip: nat, d: nat, j: nat, f: nat)
    requires Closed(v) && IsDir(v, dp) && v'.kind == v.kind && ip != 0 && f != 0 && d < |v.kind|
    requires OthersSame(v.blocks, v.inodes, v'.blocks, v'.inodes, dp) && dp in v'.inodes && DirSize(v'.inodes[dp])
    requires AddedAt(v.blocks, v.inodes[dp], v'.blocks, v'.inodes[dp], k, nm, ip)
    ensures IsLink(v', d, j, f) <==> if d == dp && j == k then f == ip else IsLink(v, d, j, f)
  {
    hide EntryAt;
    if d != dp { OtherEntry(v.blocks, v.inodes, v'.blocks, v'.inodes, dp, d, j); }
  }

  /** Links of f once entry (dp, k) has come to name ip. */
  lemma LinksAdded(v: View, v': View, dp: nat, k: nat, nm: seq<Byte>, ip: nat, f: nat)
    requires Closed(v) && IsDir(v, dp) && v'.kind == v.kind && ip != 0 && f != 0
    requires OthersSame(v.blocks, v.inodes, v'.blocks, v'.inodes, dp) && dp in v'.inodes && DirSize(v'.inodes[dp])
    requires AddedAt(v.blocks, v.inodes[dp], v'.blocks, v'.inodes[dp], k, nm, ip)
    ensures Links(v', f) == if f == ip then Links(v, f) + {(dp, k)} else Links(v, f)
    ensures (dp, k) !in Links(v, f)
  {
    hide IsLink, OthersSame, AddedAt, Closed;
    forall d: nat, j: nat | d < |v.kind|
      ensures IsLink(v', d, j, f) <==> if d == dp && j == k then f == ip else IsLink(v, d, j, f)
    {
      LinkAdded(v, v', dp, k, nm, ip, d, j, f);
    }
    NewLink(v, v', dp, k, nm, ip);
    NoLinkYet(v, v', dp, k, nm, ip, f);
  }

  lemma NewLink(v: View, v': View, dp: nat, k: nat, nm: seq<Byte>, ip: nat)
    requires IsDir(v, dp) && dp in v'.inodes && DirSize(v'.inodes[dp])
    requires AddedAt(v.blocks, v.inodes[dp], v'.blocks, v'.inodes[dp], k, nm, ip)
    ensures k < MAXENT && dp < |v.kind|
  {
    hide EntryAt;
  }

  lemma NoLinkYet(v: View, v': View, dp: nat, k: nat, nm: seq<Byte>, ip: nat, f: nat)
    requires dp in v.inodes && dp in v'.inodes && f != 0
    requires AddedAt(v.blocks, v.inodes[dp], v'.blocks, v'.inodes[dp], k, nm, ip)
    ensures !IsLink(v, dp, k, f)
  {
    hide EntryAt;
  }

  /** After dirlink every directory still names existing inodes only. */
  lemma ClosedAdded(v: View, v': View, dp: nat, k: nat, nm: seq<Byte>, ip: nat)
    requires Closed(v) && IsDir(v, dp) && v'.kind == v.kind && 0 < ip < |v.kind| && v.kind[ip] != Free
    requires OthersSame(v.blocks, v.inodes, v'.blocks, v'.inodes, dp) && dp in v'.inodes && DirSize(v'.inodes[dp])
    requires AddedAt(v.blocks, v.inodes[dp], v'.blocks, v'.inodes[dp], k, nm, ip)
    ensures Closed(v')
  {
    hide EntryAt;
    assert forall i :: i in v'.inodes.Keys <==> i in v.inodes.Keys;
    forall d: nat | d < |v'.kind| && v'.kind[d] == Directory
      ensures IsDir(v', d)
    {
      assert IsDir(v, d);
      if d != dp { OtherEntry(v.blocks, v.inodes, v'.blocks, v'.inodes, dp, d, 0); }
    }
    forall d: nat, j: nat | IsDir(v', d) && DIRENT * j < v'.inodes[d].size
      ensures var x := EntryAt(v'.blocks, v'.inodes[d], j).inum; x != 0 ==> x < |v'.kind| && v'.kind[x] != Free
    {
      var x := EntryAt(v'.blocks, v'.inodes[d], j).inum;
      if x != 0 {
        LinkAdded(v, v', dp, k, nm, ip, d, j, x);
        assert IsLink(v', d, j, x);
      }
    }
  }

  /** A free inode has no links. */
  lemma FreeUnlinked(v: View, f: nat)
    requires Closed(v) && 0 < f < |v.kind| && v.kind[f] == Free
    ensures Links(v, f) == {}
  {
    hide EntryAt;
  }

  /** Making a free inode a file changes no directory. */
  lemma Allocated(v: View, f: nat, k: Kind)
    requires Closed(v) && 0 < f < |v.kind| && v.kind[f] == Free && Leaf(k)
    ensures var v' := v.(kind := v.kind[f := k]);
            && Closed(v') && (forall g: nat :: Links(v', g) == Links(v, g))
            && (forall d: nat :: IsDir(v', d) == IsDir(v, d))
  {
    hide EntryAt;
    var v' := v.(kind := v.kind[f := k]);
    forall d: nat, j: nat, g: nat
      ensures IsLink(v', d, j, g) == IsLink(v, d, j, g)
    {
    }
  }

  /** A step that leaves every entry of every directory alone. */
  lemma LinksSame(v: View, v': View, dp: nat)
    requires Closed(v) && IsDir(v, dp) && v'.kind == v.kind
    requires OthersSame(v.blocks, v.inodes, v'.blocks, v'.inodes, dp) && dp in v'.inodes
    requires EntriesSame(v.blocks, v.inodes[dp], v'.blocks, v'.inodes[dp])
    ensures Closed(v') && forall f: nat :: Links(v', f) == Links(v, f)
  {
    hide EntryAt;
    assert forall i :: i in v'.inodes.Keys <==> i in v.inodes.Keys;
    forall d: nat, j: nat | d in v.inodes
      ensures v'.inodes[d].size == v.inodes[d].size && EntryAt(v'.blocks, v'.inodes[d], j) == EntryAt(v.blocks, v.inodes[d], j)
    {
      if d != dp { OtherEntry(v.blocks, v.inodes, v'.blocks, v'.inodes, dp, d, j); }
    }
    forall d: nat
      ensures IsDir(v', d) == IsDir(v, d)
    {
    }
    forall d: nat, j: nat, f: nat
      ensures IsLink(v', d, j, f) == IsLink(v, d, j, f)
    {
    }
  }

  lemma FreeEmptyKept(v: View, v': View, dp: nat)
    requires FreeEmpty(v) && v'.kind == v.kind && OnlyInode(v.inodes, v'.inodes, dp)
    requires dp < |v.kind| && v.kind[dp] != Free
    ensures FreeEmpty(v')
  {
  }

  /** Dropping an unlinked file: its inode is empty and free. */
  lemma Dropped(v: View, v': View, ip: nat)
    requires Closed(v) && FreeEmpty(v) && 0 < ip < |v.kind| && Leaf(v.kind[ip]) && Links(v, ip) == {}
    requires v'.blocks == v.blocks && v'.inodes == v.inodes[ip := Inode(EMPTY, 0)] && v'.kind == v.kind[ip := Free]
    ensures Closed(v') && FreeEmpty(v') && forall f: nat :: Links(v', f) == Links(v, f)
  {
    hide EntryAt;
    forall d: nat
      ensures IsDir(v', d) == IsDir(v, d)
    {
    }
    forall d: nat, j: nat, f: nat
      ensures IsLink(v', d, j, f) == IsLink(v, d, j, f)
    {
    }
    forall d: nat, j: nat | IsDir(v', d) && DIRENT * j < v'.inodes[d].size
      ensures var x := EntryAt(v'.blocks, v'.inodes[d], j).inum; x != 0 ==> x < |v'.kind| && v'.kind[x] != Free
    {
      var x := EntryAt(v'.blocks, v'.inodes[d], j).inum;
      assert IsLink(v, d, j, x);
      LinkBound(v, d, j, x);
    }
  }

  lemma FreeZero(v: View)
    requires FreeEmpty(v)
    ensures |v.kind| > 0 && v.kind[0] == Free
  {
  }

  lemma ClosedMeans(v: View, ip: nat)
    requires Closed(v) && ip < |v.kind|
    ensures ip in v.inodes
  {
    hide EntryAt;
  }

  /** A lookup in directory dp leaves files and links alone. */
  lemma SameView(v0: View, v1: View, dp: nat)
    requires Closed(v0) && FreeEmpty(v0) && dp < |v0.kind| && v0.kind[dp] == Directory && v1.kind == v0.kind
    requires SameFiles(v0.blocks, v0.inodes, v1.blocks, v1.inodes) && OnlyInode(v0.inodes, v1.inodes, dp)
    ensures Closed(v1) && FreeEmpty(v1) && dp in v0.inodes && dp in v1.inodes
    ensures forall f: nat :: Links(v1, f) == Links(v0, f)
    ensures OthersSame(v0.blocks, v0.inodes, v1.blocks, v1.inodes, dp)
    ensures EntriesSame(v0.blocks, v0.inodes[dp], v1.blocks, v1.inodes[dp])
  {
    hide SameFiles, OthersSame, EntriesSame, EntryAt;
    UnchangedSo(v0.blocks, v0.inodes, v1.blocks, v1.inodes, dp);
    LinksSame(v0, v1, dp);
    FreeEmptyKept(v0, v1, dp);
  }

  lemma FoundIsInode(v: View, dp: nat, k: nat, nm: seq<Byte>)
    requires Closed(v) && IsDir(v, dp) && Matches(v.blocks, v.inodes[dp], k, nm)
    ensures var x := EntryAt(v.blocks, v.inodes[dp], k).inum; 0 < x < |v.kind| && v.kind[x] != Free
  {
    hide EntryAt;
  }

  lemma StillFreeEmpty(v1: View, v2: View, v3: View, dp: nat, ip: nat, want: Kind)
    requires FreeEmpty(v1) && 0 < ip < |v1.kind| && Leaf(want) && v2 == v1.(kind := v1.kind[ip := want])
    requires v3.kind == v2.kind && OnlyInode(v2.inodes, v3.inodes, dp) && dp < |v1.kind| && v1.kind[dp] != Free
    ensures FreeEmpty(v3)
  {
  }

  lemma StillEmpty(v1: View, v3: View, dp: nat, ip: nat)
    requires FreeEmpty(v1) && ip < |v1.kind| && v1.kind[ip] == Free && dp != ip && OnlyInode(v1.inodes, v3.inodes, dp)
    ensures ip in v3.inodes && v3.inodes[ip] == Inode(EMPTY, 0)
  {
  }

  /** Counts of other files when inode ip is being made or dropped. */
  lemma CountKept(v: View, v': View, nlink: seq<nat>, nlink': seq<nat>, ip: nat)
    requires CountedBut(v, nlink, 0) && |v'.kind| == |v.kind| && |nlink'| == |nlink|
    requires forall f: nat | f < |v.kind| && f != ip :: v'.kind[f] == v.kind[f] && nlink'[f] == nlink[f]
    requires forall f: nat :: Links(v', f) == Links(v, f)
    requires v.kind != [] && v.kind[0] == Free
    ensures CountedBut(v', nlink', ip)
  {
  }

  /** One link more for the new file, and a count of one. */
  lemma CountAdded(v0: View, v2: View, v3: View, dp: nat, k: nat, nm: seq<Byte>, ip: nat, nlink: seq<nat>, nlink': seq<nat>)
    requires CountedBut(v0, nlink, 0) && |v2.kind| == |v0.kind| && 0 < ip < |v0.kind| && nlink' == nlink[ip := 1]
    requires v0.kind[0] == Free && forall f: nat | f < |v0.kind| && f != ip :: v2.kind[f] == v0.kind[f]
    requires (forall f: nat :: Links(v2, f) == Links(v0, f)) && Links(v0, ip) == {}
    requires Closed(v2) && IsDir(v2, dp) && v3.kind == v2.kind
    requires OthersSame(v2.blocks, v2.inodes, v3.blocks, v3.inodes, dp) && dp in v3.inodes && DirSize(v3.inodes[dp])
    requires AddedAt(v2.blocks, v2.inodes[dp], v3.blocks, v3.inodes[dp], k, nm, ip)
    ensures CountedBut(v3, nlink', 0)
  {
    hide Closed, IsDir, OthersSame, AddedAt, Links, EntryAt;
    forall f: nat | f < |v3.kind| && Leaf(v3.kind[f]) && f != 0
      ensures nlink'[f] == |Links(v3, f)|
    {
      LinksAdded(v2, v3, dp, k, nm, ip, f);
      if f == ip { assert Links(v3, f) == {(dp, k)}; }
    }
  }

  lemma AddedSame(v0: View, v1: View, v3: View, dp: nat, k: nat, nm: seq<Byte>, ip: nat)
    requires dp in v0.inodes && dp in v1.inodes && dp in v3.inodes
    requires EntriesSame(v0.blocks, v0.inodes[dp], v1.blocks, v1.inodes[dp])
    requires OthersSame(v0.blocks, v0.inodes, v1.blocks, v1.inodes, dp)
    requires OthersSame(v1.blocks, v1.inodes, v3.blocks, v3.inodes, dp)
    requires AddedAt(v1.blocks, v1.inodes[dp], v3.blocks, v3.inodes[dp], k, nm, ip)
    ensures AddedAt(v0.blocks, v0.inodes[dp], v3.blocks, v3.inodes[dp], k, nm, ip)
    ensures OthersSame(v0.blocks, v0.inodes, v3.blocks, v3.inodes, dp)
  {
    hide EntryAt;
    OthersTrans(v0.blocks, v0.inodes, v1.blocks, v1.inodes, v3.blocks, v3.inodes, dp);
  }

  lemma FoundInside(blocks: Blocks, ip: Inode, k: nat, nm: seq<Byte>)
    requires Matches(blocks, ip, k, nm)
    ensures DIRENT * k < ip.size
  {
    hide EntryAt;
  }

  // ---- sys_unlink ----

  /** What clearing entry k of directory dp does to the links. */
  lemma LinkCleared(v: View, v': View, dp: nat, k: nat, d: nat, j: nat, f: nat)
    requires Closed(v) && IsDir(v, dp) && v'.kind == v.kind && f != 0 && d < |v.kind|
    requires OthersSame(v.blocks, v.inodes, v'.blocks, v'.inodes, dp) && dp in v'.inodes
    requires ClearedAt(v.blocks, v.inodes[dp], v'.blocks, v'.inodes[dp], k)
    ensures IsLink(v', d, j, f) <==> IsLink(v, d, j, f) && !(d == dp && j == k)
  {
    hide EntryAt;
    if d != dp { OtherEntry(v.blocks, v.inodes, v'.blocks, v'.inodes, dp, d, j); }
  }

  lemma ClosedCleared(v: View, v': View, dp: nat, k: nat)
    requires Closed(v) && IsDir(v, dp) && v'.kind == v.kind
    requires OthersSame(v.blocks, v.inodes, v'.blocks, v'.inodes, dp) && dp in v'.inodes
    requires ClearedAt(v.blocks, v.inodes[dp], v'.blocks, v'.inodes[dp], k)
    ensures Closed(v')
  {
    hide EntryAt;
    assert forall i :: i in v'.inodes.Keys <==> i in v.inodes.Keys;
    forall d: nat | d < |v'.kind| && v'.kind[d] == Directory
      ensures IsDir(v', d)
    {
      assert IsDir(v, d);
      if d != dp { OtherEntry(v.blocks, v.inodes, v'.blocks, v'.inodes, dp, d, 0); }
    }
    forall d: nat, j: nat | IsDir(v', d) && DIRENT * j < v'.inodes[d].size
      ensures var x := EntryAt(v'.blocks, v'.inodes[d], j).inum; x != 0 ==> x < |v'.kind| && v'.kind[x] != Free
    {
      var x := EntryAt(v'.blocks, v'.inodes[d], j).inum;
      if x != 0 {
        LinkCleared(v, v', dp, k, d, j, x);
        assert IsLink(v', d, j, x);
      }
    }
  }

  lemma LinksCleared(v: View, v': View, dp: nat, k: nat, ip: nat, f: nat)
    requires Closed(v) && IsDir(v, dp) && v'.kind == v.kind && f != 0
    requires OthersSame(v.blocks, v.inodes, v'.blocks, v'.inodes, dp) && dp in v'.inodes
    requires ClearedAt(v.blocks, v.inodes[dp], v'.blocks, v'.inodes[dp], k) && EntryAt(v.blocks, v.inodes[dp], k).inum == ip
    ensures Links(v', f) == if f == ip then Links(v, f) - {(dp, k)} else Links(v, f)
    ensures f == ip ==> (dp, k) in Links(v, f)
  {
    forall d: nat, j: nat | d < |v.kind|
      ensures IsLink(v', d, j, f) <==> IsLink(v, d, j, f) && !(d == dp && j == k)
    {
      LinkCleared(v, v', dp, k, d, j, f);
    }
    assert IsLink(v, dp, k, ip);
    LinkBound(v, dp, k, ip);
    assert f != ip ==> !IsLink(v, dp, k, f);
    hide IsLink, OthersSame, ClearedAt, Closed, EntryAt;
  }

  /** One link less for file ip, and a count one less. */
  lemma CountCleared(v: View, v': View, dp: nat, k: nat, ip: nat, nlink: seq<nat>)
    requires CountedBut(v, nlink, 0) && 0 < ip < |v.kind| && Leaf(v.kind[ip]) && v.kind[0] == Free
    requires Closed(v) && IsDir(v, dp) && v'.kind == v.kind
    requires OthersSame(v.blocks, v.inodes, v'.blocks, v'.inodes, dp) && dp in v'.inodes
    requires ClearedAt(v.blocks, v.inodes[dp], v'.blocks, v'.inodes[dp], k) && EntryAt(v.blocks, v.inodes[dp], k).inum == ip
    ensures nlink[ip] > 0 && CountedBut(v', nlink[ip := nlink[ip] - 1], 0)
    ensures nlink[ip] == 1 ==> Links(v', ip) == {}
  {
    hide Closed, IsDir, OthersSame, ClearedAt, Links, EntryAt;
    LinksCleared(v, v', dp, k, ip, ip);
    forall f: nat | f < |v'.kind| && Leaf(v'.kind[f]) && f != 0
      ensures nlink[ip] > 0 && nlink[ip := nlink[ip] - 1][f] == |Links(v', f)|
    {
      LinksCleared(v, v', dp, k, ip, f);
    }
  }

  lemma Clears(b0: Blocks, ip0: Inode, b1: Blocks, ip1: Inode, k: nat, e: Entry)
    requires EntrySet(b0, ip0, b1, ip1, k, e) && e.inum == 0 && DIRENT * k < ip0.size && ip0.size % DIRENT == 0
    requires EntryAt(b0, ip0, k).inum != 0 && ip1.size == Max(ip0.size, DIRENT * k + DIRENT)
    ensures ClearedAt(b0, ip0, b1, ip1, k)
  {
    hide EntryAt;
  }

  lemma CountWeaker(v: View, nlink: seq<nat>, x: nat)
    requires CountedBut(v, nlink, 0) && |v.kind| > 0 && v.kind[0] == Free
    ensures CountedBut(v, nlink, x)
  {
  }

  lemma SameFullDir(b0: Blocks, ip0: Inode, b1: Blocks, ip1: Inode)
    requires EntriesSame(b0, ip0, b1, ip1)
    ensures FullDir(b1, ip1) == FullDir(b0, ip0)
  {
    SameInUse(b0, ip0, b1, ip1, ip0.size / DIRENT);
  }

  lemma EntriesSameAt(b0: Blocks, ip0: Inode, b1: Blocks, ip1: Inode, k: nat)
    requires EntriesSame(b0, ip0, b1, ip1)
    ensures ip1.size == ip0.size && EntryAt(b1, ip1, k) == EntryAt(b0, ip0, k)
  {
    hide EntryAt;
  }

  lemma ClearedSame(b0: Blocks, ip0: Inode, b1: Blocks, ip1: Inode, b2: Blocks, ip2: Inode, k: nat)
    requires EntriesSame(b0, ip0, b1, ip1) && ClearedAt(b1, ip1, b2, ip2, k)
    ensures ClearedAt(b0, ip0, b2, ip2, k)
  {
    hide EntryAt;
  }

  lemma StillNoMatch(b0: Blocks, ip0: Inode, b1: Blocks, ip1: Inode, nm: seq<Byte>)
    requires EntriesSame(b0, ip0, b1, ip1) && forall j: nat :: !Matches(b0, ip0, j, nm)
    ensures forall j: nat :: !Matches(b1, ip1, j, nm)
  {
    hide EntryAt;
    forall j: nat
      ensures !Matches(b1, ip1, j, nm)
    {
      assert !Matches(b0, ip0, j, nm);
    }
  }

  /** The names "." and "..". */
  predicate IsDot(name: seq<Byte>) { Take(Str(name), DIRSIZ) == [46] || Take(Str(name), DIRSIZ) == [46, 46] }

  lemma DotStrings()
    ensures Take(Str([46]), DIRSIZ) == [46] && Take(Str([46, 46]), DIRSIZ) == [46, 46]
  {
    StrIs([46], 1);
    StrIs([46, 46], 2);
  }

  datatype UnlinkResult = Unlinked(ip: nat, k: nat) | IsDirectory | UnlinkRefused | UnlinkPanic

  datatype CreateResult = Created(ip: nat, k: nat) | Opened(ip: nat) | Refused | CreatePanic

  /** No inode is left for a new file. */
  predicate NoInode(kind: seq<Kind>) { forall i | 0 < i < |kind| :: kind[i] != Free }

  /** Freeing the blocks of an empty file frees none. */
  lemma NothingFreed(bits0: seq<bool>, bits: seq<bool>, blocks: Blocks, inodes: Inodes, i: nat)
    requires i in inodes && inodes[i] == Inode(EMPTY, 0) && FreedBits(bits0, bits, blocks, inodes, i, INDIRECT + 1)
    ensures bits == bits0
  {
  }

  class Tree {
    const fs: Fs
    var kind: seq<Kind>
    var nlink: seq<nat>

    constructor (fs: Fs, kind: seq<Kind>, nlink: seq<nat>)
      requires fs.Valid() && |kind| <= 0x1_0000
      requires Closed(View(fs.blocks, fs.inodes, kind)) && FreeEmpty(View(fs.blocks, fs.inodes, kind))
      requires CountedBut(View(fs.blocks, fs.inodes, kind), nlink, 0)
      ensures Valid() && this.fs == fs && this.kind == kind && this.nlink == nlink
    {
      this.fs := fs;
      this.kind := kind;
      this.nlink := nlink;
    }

    ghost function V(): View
      reads this, fs
    {
      View(fs.blocks, fs.inodes, kind)
    }

    ghost predicate Valid()
      reads this, fs
    {
      && fs.Valid() && |kind| <= 0x1_0000
      && Closed(V()) && FreeEmpty(V()) && CountedBut(V(), nlink, 0)
    }

    /** ialloc: the first free inode, cleared; 0 when there is none. */
    method Ialloc(want: Kind) returns (ip: nat)
      requires Valid() && Leaf(want)
      modifies this`kind, fs`inodes
      ensures fs.inodes == old(fs.inodes)
      ensures if ip == 0 then kind == old(kind) && forall i | 0 < i < |kind| :: kind[i] != Free
              else |kind| == |old(kind)| && ip < |kind| && old(kind)[ip] == Free && kind == old(kind)[ip := want] && forall i | 0 < i < ip :: old(kind)[i] != Free
    {
      hide Closed, CountedBut;
      ip := 1;
      while ip < |kind|
        invariant 1 <= ip && kind == old(kind) && fs.inodes == old(fs.inodes)
        invariant forall i | 0 < i < ip && i < |kind| :: kind[i] != Free
      {
        if kind[ip] == Free {
          fs.inodes := fs.inodes[ip := Inode(EMPTY, 0)];
          kind := kind[ip := want];
          return;
        }
        ip := ip + 1;
      }
      ip := 0;
    }

    /** The end of iput for a file without links or other references. */
    method Drop(ip: nat)
      requires fs.Valid() && |kind| <= 0x1_0000 && Closed(V()) && FreeEmpty(V()) && CountedBut(V(), nlink, ip)
      requires 0 < ip < |kind| && Leaf(kind[ip]) && Links(V(), ip) == {}
      modifies this`kind, fs
      ensures Valid() && kind == old(kind)[ip := Free]
      ensures fs.blocks == old(fs.blocks) && fs.inodes == old(fs.inodes)[ip := Inode(EMPTY, 0)]
      ensures ip in old(fs.inodes) && (old(fs.inodes)[ip] == Inode(EMPTY, 0) ==> fs.bits == old(fs.bits))
    {
      hide MapOk, Links, Closed, FreeEmpty, FreedBits;
      ghost var v, bits0 := V(), fs.bits;
      ClosedMeans(v, ip);
      var ok := fs.Itrunc(ip);
      kind := kind[ip := Free];
      assert seq(NDIRECT + 1, _ => 0) == EMPTY;
      if v.inodes[ip] == Inode(EMPTY, 0) { NothingFreed(bits0, fs.bits, v.blocks, v.inodes, ip); }
      Dropped(v, V(), ip);
    }

    /** The half of create that makes a new file. */
    method MakeFile(dp: nat, name: seq<Byte>, want: Kind) returns (r: CreateResult)
      requires Valid() && dp < |kind| && kind[dp] == Directory && Leaf(want)
      requires dp in fs.inodes && forall j: nat :: !Matches(fs.blocks, fs.inodes[dp], j, Take(Str(name), DIRSIZ))
      modifies this, fs
      ensures if r.CreatePanic? then fs.Full() else Valid()
      ensures !r.Opened?
      ensures r.Created? ==>
        && |kind| == |old(kind)| && |nlink| == |old(nlink)| == |kind|
        && 0 < r.ip < |kind| && old(kind)[r.ip] == Free && kind == old(kind)[r.ip := want] && nlink == old(nlink)[r.ip := 1]
        && dp in fs.inodes && dp in old(fs.inodes) && AddedAt(old(fs.blocks), old(fs.inodes)[dp], fs.blocks, fs.inodes[dp], r.k, Stored(name), r.ip)
        && OthersSame(old(fs.blocks), old(fs.inodes), fs.blocks, fs.inodes, dp)
      ensures r.Refused? ==>
        && kind == old(kind) && |nlink| == |old(nlink)| == |kind|
        && (forall f: nat | f < |kind| && kind[f] != Free :: nlink[f] == old(nlink)[f])
        && (NoInode(old(kind)) || fs.Full() || FullDir(old(fs.blocks), old(fs.inodes)[dp]))
    {
      hide MapOk, Closed, FreeEmpty, Links, EntryAt, SameFiles, OthersSame, AddedAt, EntriesSame, OnlyInode, Str, Matches;
      ghost var v1 := V();
      var ip := Ialloc(want);
      if ip == 0 { return Refused; }
      ghost var v2 := V();
      Allocated(v1, ip, want);
      ClosedDir(v1, dp);
      FreeUnlinked(v1, ip);
      FreeZero(v1);
      nlink := nlink[ip := 1];
      var link := Dirlink(fs, dp, name, ip);
      if link.LinkPanic? { return CreatePanic; }
      assert !link.Exists?;
      StillFreeEmpty(v1, v2, V(), dp, ip, want);
      if link.NoRoom? {
        LinksSame(v2, V(), dp);
        nlink := nlink[ip := 0];
        CountKept(v1, V(), old(nlink), nlink, ip);
        StillEmpty(v1, V(), dp, ip);
        Drop(ip);
        return Refused;
      }
      ghost var v3 := V();
      ClosedAdded(v2, v3, dp, link.k, Stored(name), ip);
      CountAdded(v1, v2, v3, dp, link.k, Stored(name), ip, old(nlink), nlink);
      return Created(ip, link.k);
    }

    /** create for a file or device, after nameiparent: an existing file is opened, a
        new one gets an inode and one link. If the link cannot be made the inode is
        given back. It refuses only a name that leads to something that may not be
        opened, and for want of an inode, a block or an entry. Link counts stay right in
        every case. */
    method Create(dp: nat, name: seq<Byte>, want: Kind) returns (r: CreateResult)
      requires Valid() && dp < |kind| && kind[dp] == Directory && Leaf(want)
      modifies this, fs
      ensures if r.CreatePanic? then fs.Full() else Valid()
      ensures r.Created? ==>
        && |kind| == |old(kind)| && |nlink| == |old(nlink)| == |kind|
        && 0 < r.ip < |kind| && old(kind)[r.ip] == Free && kind == old(kind)[r.ip := want] && nlink == old(nlink)[r.ip := 1]
        && dp in fs.inodes && dp in old(fs.inodes) && AddedAt(old(fs.blocks), old(fs.inodes)[dp], fs.blocks, fs.inodes[dp], r.k, Stored(name), r.ip)
        && OthersSame(old(fs.blocks), old(fs.inodes), fs.blocks, fs.inodes, dp)
        && Look(old(fs.blocks), old(fs.inodes)[dp], Take(Str(name), DIRSIZ), 0) == None
      ensures r.Opened? ==>
        && want == File && r.ip < |kind| && Leaf(kind[r.ip]) && kind == old(kind) && nlink == old(nlink)
        && SameFiles(old(fs.blocks), old(fs.inodes), fs.blocks, fs.inodes)
        && dp in old(fs.inodes) && Look(old(fs.blocks), old(fs.inodes)[dp], Take(Str(name), DIRSIZ), 0) == Some(r.ip)
      ensures r.Refused? ==>
        && kind == old(kind) && |nlink| == |old(nlink)| == |kind|
        && (forall f: nat | f < |kind| && kind[f] != Free :: nlink[f] == old(nlink)[f])
        && dp in old(fs.inodes)
        && match Look(old(fs.blocks), old(fs.inodes)[dp], Take(Str(name), DIRSIZ), 0) {
          case Some(x) => want != File || x >= |old(kind)| || !Leaf(old(kind)[x])
          case None => NoInode(old(kind)) || fs.Full() || FullDir(old(fs.blocks), old(fs.inodes)[dp])
        }
    {
      hide MapOk, Closed, FreeEmpty, Links, EntryAt, SameFiles, OthersSame, AddedAt, EntriesSame, OnlyInode, Str, Matches;
      ghost var v0 := V();
      ClosedDir(v0, dp);
      var l := Dirlookup(fs, dp, name);
      ghost var v1 := V();
      SameView(v0, v1, dp);
      if l.ReadPanic? { return CreatePanic; }
      if l.Found? {
        FoundIsInode(v0, dp, l.k, Take(Str(name), DIRSIZ));
        FoundInside(v0.blocks, v0.inodes[dp], l.k, Take(Str(name), DIRSIZ));
        LookAt(v0.blocks, v0.inodes[dp], Take(Str(name), DIRSIZ), 0, l.k);
        if want == File && Leaf(kind[l.inum]) { return Opened(l.inum); }
        return Refused;
      }
      LookNone(v0.blocks, v0.inodes[dp], Take(Str(name), DIRSIZ), 0);
      StillNoMatch(v0.blocks, v0.inodes[dp], v1.blocks, v1.inodes[dp], Take(Str(name), DIRSIZ));
      r := MakeFile(dp, name, want);
      SameFullDir(v0.blocks, v0.inodes[dp], v1.blocks, v1.inodes[dp]);
      if r.Created? { AddedSame(v0, v1, V(), dp, r.k, Stored(name), r.ip); }
    }

    /** The half of sys_unlink that takes the entry away. */
    method RemoveEntry(dp: nat, k: nat, ip: nat, held: bool) returns (r: UnlinkResult)
      requires Valid() && dp < |kind| && kind[dp] == Directory && 0 < ip < |kind| && Leaf(kind[ip])
      requires dp in fs.inodes && DIRENT * k < fs.inodes[dp].size && EntryAt(fs.blocks, fs.inodes[dp], k).inum == ip
      modifies this, fs
      ensures !r.UnlinkPanic? ==> Valid() && r == Unlinked(ip, k)
      ensures r.UnlinkPanic? ==> fs.Full()
      ensures r.Unlinked? ==>
        && |nlink| == |old(nlink)| == |old(kind)| && old(nlink)[ip] > 0 && nlink == old(nlink)[ip := old(nlink)[ip] - 1]
        && kind == (if nlink[ip] == 0 && !held then old(kind)[ip := Free] else old(kind))
        && dp in fs.inodes && dp in old(fs.inodes) && ClearedAt(old(fs.blocks), old(fs.inodes)[dp], fs.blocks, fs.inodes[dp], k)
    {
      hide MapOk, Closed, FreeEmpty, Links, EntryAt, OthersSame, EntriesSame, OnlyInode, ClearedAt;
      ghost var v := V();
      ClosedDir(v, dp);
      FreeZero(v);
      var zero := Entry(0, seq(DIRSIZ, _ => 0));
      var ok := WriteEntry(fs, dp, k, zero);
      if !ok { return UnlinkPanic; }
      Clears(v.blocks, v.inodes[dp], fs.blocks, fs.inodes[dp], k, zero);
      ClosedCleared(v, V(), dp, k);
      CountCleared(v, V(), dp, k, ip, nlink);
      FreeEmptyKept(v, V(), dp);
      nlink := nlink[ip := nlink[ip] - 1];
      if nlink[ip] == 0 && !held {
        CountWeaker(V(), nlink, ip);
        Drop(ip);
      }
      return Unlinked(ip, k);
    }

    /** sys_unlink of a file, after nameiparent: its first entry under the name is
        cleared and its count goes down by one; the last link of a file that nobody
        holds takes the file with it. The count is never below one before. */
    method Unlink(dp: nat, name: seq<Byte>, held: bool) returns (r: UnlinkResult)
      requires Valid() && dp < |kind| && kind[dp] == Directory
      modifies this, fs
      ensures !r.UnlinkPanic? ==> Valid()
      ensures r.UnlinkPanic? ==> fs.Full()
      ensures r.Unlinked? ==>
        && |nlink| == |old(nlink)| && r.ip < |old(kind)| && r.ip < |nlink|
        && Leaf(old(kind)[r.ip]) && old(nlink)[r.ip] > 0 && nlink == old(nlink)[r.ip := old(nlink)[r.ip] - 1]
        && kind == (if nlink[r.ip] == 0 && !held then old(kind)[r.ip := Free] else old(kind))
        && dp in old(fs.inodes) && Look(old(fs.blocks), old(fs.inodes)[dp], Take(Str(name), DIRSIZ), 0) == Some(r.ip)
        && Matches(old(fs.blocks), old(fs.inodes)[dp], r.k, Take(Str(name), DIRSIZ))
        && dp in fs.inodes && ClearedAt(old(fs.blocks), old(fs.inodes)[dp], fs.blocks, fs.inodes[dp], r.k)
      ensures r.UnlinkRefused? || r.IsDirectory? ==>
        && kind == old(kind) && nlink == old(nlink) && SameFiles(old(fs.blocks), old(fs.inodes), fs.blocks, fs.inodes)
      ensures dp in old(fs.inodes)
      ensures r.UnlinkRefused? ==> IsDot(name) || Look(old(fs.blocks), old(fs.inodes)[dp], Take(Str(name), DIRSIZ), 0) == None
      ensures r.IsDirectory? ==>
        && Look(old(fs.blocks), old(fs.inodes)[dp], Take(Str(name), DIRSIZ), 0).Some?
        && var x := Look(old(fs.blocks), old(fs.inodes)[dp], Take(Str(name), DIRSIZ), 0).value;
        x < |old(kind)| && old(kind)[x] == Directory
      ensures IsDot(name) ==> r.UnlinkRefused?
    {
      hide MapOk, Closed, FreeEmpty, Links, EntryAt, SameFiles, OthersSame, EntriesSame, OnlyInode, EntrySet, ClearedAt, Str, Matches;
      QuietNothing(fs.blocks, fs.inodes);
      ClosedDir(V(), dp);
      DotStrings();
      var dot := Strncmp(name, [46], DIRSIZ);
      var dotdot := Strncmp(name, [46, 46], DIRSIZ);
      if dot == 0 || dotdot == 0 { return UnlinkRefused; }
      ghost var v0 := V();
      var l := Dirlookup(fs, dp, name);
      ghost var v1 := V();
      SameView(v0, v1, dp);
      if l.ReadPanic? { return UnlinkPanic; }
      if l.Absent? {
        LookNone(v0.blocks, v0.inodes[dp], Take(Str(name), DIRSIZ), 0);
        return UnlinkRefused;
      }
      var ip := l.inum;
      FoundIsInode(v0, dp, l.k, Take(Str(name), DIRSIZ));
      FoundInside(v0.blocks, v0.inodes[dp], l.k, Take(Str(name), DIRSIZ));
      LookAt(v0.blocks, v0.inodes[dp], Take(Str(name), DIRSIZ), 0, l.k);
      EntriesSameAt(v0.blocks, v0.inodes[dp], v1.blocks, v1.inodes[dp], l.k);
      if kind[ip] == Directory { return IsDirectory; }
      r := RemoveEntry(dp, l.k, ip, held);
      if r.Unlinked? { ClearedSame(v0.blocks, v0.inodes[dp], v1.blocks, v1.inodes[dp], fs.blocks, fs.inodes[dp], l.k); }
    }
  }
}
