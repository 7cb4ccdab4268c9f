/** The kernel finds the files that mkfs has put into the image by their paths. */
module MkfsPaths {
  import opened Common
  import opened FsBlocks
  import opened FsMap
  import opened FsDisk
  import opened FsFile
  import opened DirNames
  import opened Dir
  import opened FileTree
  import opened FileLinks
  import opened MkfsMain

  /** A name that a path can contain as one element, and that is not the root's own. */
  predicate Proper(name: seq<Byte>) {
    0 < |name| <= DIRSIZ && SLASH !in name && 0 !in name && name != DOT && name != DOTDOT
  }

  lemma PaddedString(name: seq<Byte>)
    requires |name| <= DIRSIZ && 0 !in name
    ensures Str(Padded(name)) == name
  {
    var b := Padded(name);
    forall j | 0 <= j < |name|
      ensures b[j] != 0
    {
      assert b[j] == name[j];
    }
    StrIs(b, |name|);
    assert b[..|name|] == name;
  }

  /** Entry k of the root directory has the name it was given. */
  lemma EntryName(blocks: Blocks, ip: Inode, inputs: seq<Input>, k: nat)
    requires NamesFit(inputs) && RootNames(blocks, ip, inputs) && k < |inputs| + 2
    requires forall j | 0 <= j < |inputs| :: 0 !in inputs[j].name
    ensures Str(EntryAt(blocks, ip, k).name) == if k == 0 then DOT else if k == 1 then DOTDOT else inputs[k - 2].name
  {
    hide EntryAt, Padded, Str;
    PaddedString(DOT);
    PaddedString(DOTDOT);
    if k >= 2 { PaddedString(inputs[k - 2].name); }
  }

  /** In the root directory a name leads to the first file that has it. */
  lemma NameFound(blocks: Blocks, ip: Inode, inputs: seq<Input>, j: nat)
    requires NamesFit(inputs) && RootNames(blocks, ip, inputs) && |inputs| + 2 <= NINODES
    requires forall i | 0 <= i < |inputs| :: 0 !in inputs[i].name
    requires j < |inputs| && Proper(inputs[j].name) && forall i | 0 <= i < j :: inputs[i].name != inputs[j].name
    ensures Look(blocks, ip, inputs[j].name, 0) == Some(j + 2)
  {
    hide EntryAt, Str;
    RootSize(|inputs| + 2);
    forall k: nat | k < j + 2
      ensures !Matches(blocks, ip, k, inputs[j].name)
    {
      EntryName(blocks, ip, inputs, k);
    }
    EntryName(blocks, ip, inputs, j + 2);
    EntryInode(blocks, ip, inputs, j + 2);
    LookAt(blocks, ip, inputs[j].name, 0, j + 2);
  }

  /** The path of a slash and the name leads to the file's inode. */
  lemma PathLeads(v: View, inputs: seq<Input>, j: nat)
    requires IsDir(v, ROOTINO) && NamesFit(inputs) && RootNames(v.blocks, v.inodes[ROOTINO], inputs) && |inputs| + 2 <= NINODES
    requires forall i | 0 <= i < |inputs| :: 0 !in inputs[i].name
    requires j < |inputs| && Proper(inputs[j].name) && forall i | 0 <= i < j :: inputs[i].name != inputs[j].name
    ensures NamesOf([SLASH] + inputs[j].name) == [inputs[j].name]
    ensures Resolve(v, ROOTINO, NamesOf([SLASH] + inputs[j].name)) == Some(j + 2)
  {
    hide RootNames, Look;
    var name := inputs[j].name;
    ElementsOf(name, name);
    NameFound(v.blocks, v.inodes[ROOTINO], inputs, j);
    var ns: seq<seq<Byte>> := [name];
    assert ns[1..] == [];
  }

  /** namei of a slash and the name of a file of the image: the inode that holds the file,
      whatever directory the process is in. */
  method OpenByName(tree: Tree, inputs: seq<Input>, j: nat, cwd: nat) returns (r: PathResult)
    requires tree.Valid() && NamesFit(inputs) && Typed(tree.kind, tree.nlink, |inputs|)
    requires ROOTINO in tree.fs.inodes && RootNames(tree.fs.blocks, tree.fs.inodes[ROOTINO], inputs)
    requires FilesHold(tree.fs.blocks, tree.fs.inodes, inputs, |inputs|)
    requires cwd < |tree.kind| && tree.kind[cwd] != Free
    requires forall i | 0 <= i < |inputs| :: 0 !in inputs[i].name
    requires j < |inputs| && Proper(inputs[j].name) && forall i | 0 <= i < j :: inputs[i].name != inputs[j].name
    modifies tree.fs
    ensures r == Reached(j + 2) || (r.PathPanic? && tree.fs.Full())
    ensures FileHolds(tree.fs.blocks, tree.fs.inodes, j, inputs[j].data)
  {
    hide RootNames, Closed, FreeEmpty, CountedBut, SameFiles, Resolve, Parent, NamesOf, Contents;
    var path := [SLASH] + inputs[j].name;
    ClosedDir(tree.V(), ROOTINO);
    PathLeads(tree.V(), inputs, j);
    ghost var b0, i0 := tree.fs.blocks, tree.fs.inodes;
    assert FileHolds(b0, i0, j, inputs[j].data);
    var name: seq<Byte>;
    r, name := Namex(tree.fs, tree.kind, path, cwd, false);
    SameContents(b0, i0, tree.fs.blocks, tree.fs.inodes, j + 2);
  }

  lemma SameContents(b0: Blocks, i0: Inodes, b1: Blocks, i1: Inodes, i: nat)
    requires SameFiles(b0, i0, b1, i1) && i in i0
    ensures i in i1 && Contents(b1, i1[i]) == Contents(b0, i0[i])
  {
    hide FileBlock;
    forall x | 0 <= x < i0[i].size
      ensures FileByte(b1, i1[i], x) == FileByte(b0, i0[i], x)
    {
      SameBlock(b0, i0, b1, i1, i, x / BSIZE);
    }
  }
}
