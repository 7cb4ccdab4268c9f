/** Names in directories: strncmp and safestrcpy of riscv-os/kernel/lib/string.c as
    dirlookup and dirlink use them, and skipelem of riscv-os/kernel/disk/fs.c. */
module DirNames {
  import opened FsBlocks

  const DIRSIZ: nat := 14
  const SLASH: Byte := 47

  /** The string in a buffer: its bytes before the first zero. The end of the
      sequence stands for a zero. */
  function Str(b: seq<Byte>): (s: seq<Byte>)
    ensures |s| <= |b| && s == b[..|s|] && 0 !in s
    ensures |s| < |b| ==> b[|s|] == 0
  {
    if b == [] || b[0] == 0 then [] else [b[0]] + Str(b[1..])
  }

  /** The string of a buffer is determined by its zero. */
  lemma {:induction false} StrIs(b: seq<Byte>, n: nat)
    requires n <= |b| && (n < |b| ==> b[n] == 0) && forall j | 0 <= j < n :: b[j] != 0
    ensures Str(b) == b[..n]
  {
    if n > 0 {
      StrIs(b[1..], n - 1);
      assert b[..n] == [b[0]] + b[1..][..n - 1];
    }
  }

  function Take(s: seq<Byte>, n: nat): seq<Byte> { if |s| <= n then s else s[..n] }

  function Char(b: seq<Byte>, j: nat): Byte { if j < |b| then b[j] else 0 }

  lemma CharStr(b: seq<Byte>, j: nat)
    requires j <= |Str(b)|
    ensures Char(b, j) == (if j < |Str(b)| then Str(b)[j] else 0)
  {
  }

  /** strncmp says equal exactly when the strings agree in their first n bytes. */
  method Strncmp(p: seq<Byte>, q: seq<Byte>, n: nat) returns (diff: int)
    ensures diff == 0 <==> Take(Str(p), n) == Take(Str(q), n)
  {
    hide Str;
    var j := 0;
    while j < n && Char(p, j) != 0 && Char(p, j) == Char(q, j)
      invariant j <= n && j <= |Str(p)| && j <= |Str(q)|
      invariant Str(p)[..j] == Str(q)[..j]
    {
      CharStr(p, j);
      CharStr(q, j);
      j := j + 1;
    }
    if j == n {
      assert Take(Str(p), n) == Str(p)[..n] && Take(Str(q), n) == Str(q)[..n];
      return 0;
    }
    CharStr(p, j);
    CharStr(q, j);
    Differ(Str(p), Str(q), j, n);
    return Char(p, j) - Char(q, j);
  }

  lemma Differ(s: seq<Byte>, t: seq<Byte>, j: nat, n: nat)
    requires j < n && j <= |s| && j <= |t| && s[..j] == t[..j] && 0 !in s && 0 !in t
    requires Char(s, j) == 0 || Char(s, j) != Char(t, j)
    ensures Take(s, n) == Take(t, n) <==> Char(s, j) == Char(t, j)
  {
    assert Char(Take(s, n), j) == Char(s, j) && Char(Take(t, n), j) == Char(t, j);
    assert Char(s, j) == Char(t, j) ==> s == s[..j] && t == t[..j];
  }

  /** safestrcpy copies at most n-1 bytes of the string and ends it with a zero. */
  method SafeStrcpy(s: seq<Byte>, t: seq<Byte>, n: nat) returns (s': seq<Byte>)
    requires 0 < n <= |s|
    ensures |s'| == |s| && Str(s') == Take(Str(t), n - 1)
  {
    hide Str;
    s' := s;
    var j, left := 0, n - 1;
    while left > 0
      invariant 0 <= left && j + left == n - 1 && |s'| == |s| && j <= |Str(t)|
      invariant s'[..j] == Str(t)[..j]
    {
      CharStr(t, j);
      s' := s'[j := Char(t, j)];
      if s'[j] == 0 {
        s' := s'[j + 1 := 0];
        StrIs(s', j);
        return;
      }
      j, left := j + 1, left - 1;
    }
    s' := s'[j := 0];
    StrIs(s', j);
    assert s'[..j] == Str(t)[..j];
  }

  // ---- paths ----

  /** The elements of a path: its longest runs without a slash. */
  function Elements(path: seq<Byte>): seq<seq<Byte>>
    decreases |path|
  {
    if path == [] then []
    else if path[0] == SLASH then Elements(path[1..])
    else
      var n := Run(path);
      [path[..n]] + Elements(path[n..])
  }

  /** Length of the run without a slash at the start. */
  function Run(path: seq<Byte>): (n: nat)
    ensures n <= |path| && SLASH !in path[..n] && (n < |path| ==> path[n] == SLASH)
    ensures path != [] && path[0] != SLASH ==> n > 0
  {
    if path == [] || path[0] == SLASH then 0 else 1 + Run(path[1..])
  }

  /** Slashes in front of a path do not matter, and a name that is followed by a slash or
      by nothing is its first element. */
  lemma ElementsOf(name: seq<Byte>, rest: seq<Byte>)
    requires name != [] && SLASH !in name
    ensures Elements([SLASH] + rest) == Elements(rest)
    ensures Elements(name) == [name]
    ensures Elements(name + [SLASH] + rest) == [name] + Elements(rest)
  {
    assert ([SLASH] + rest)[1..] == rest;
    RunIs(name, |name|);
    assert name[..|name|] == name && name[|name|..] == [];
    var path := name + [SLASH] + rest;
    RunIs(path, |name|);
    assert path[..|name|] == name && path[|name|..] == [SLASH] + rest;
  }

  lemma {:induction false} RunIs(path: seq<Byte>, n: nat)
    requires n <= |path| && (forall j | 0 <= j < n :: path[j] != SLASH) && (n < |path| ==> path[n] == SLASH)
    ensures Run(path) == n
  {
    if n > 0 {
      RunIs(path[1..], n - 1);
    }
  }

  /** Leading slashes carry no element. */
  lemma {:induction false} SkipSlashes(path: seq<Byte>, n: nat)
    requires n <= |path| && forall j | 0 <= j < n :: path[j] == SLASH
    ensures Elements(path[n..]) == Elements(path)
    decreases n
  {
    if n > 0 {
      SkipSlashes(path, n - 1);
      assert path[n - 1..][1..] == path[n..];
    } else {
      assert path[0..] == path;
    }
  }

  /** while(*path == '/') path++; */
  method PastSlashes(path: seq<Byte>, from: nat) returns (p: nat)
    requires from <= |path|
    ensures from <= p <= |path| && (p < |path| ==> path[p] != SLASH)
    ensures Elements(path[p..]) == Elements(path[from..])
  {
    p := from;
    while p < |path| && path[p] == SLASH
      invariant from <= p <= |path| && forall j | from <= j < p :: path[j] == SLASH
    {
      p := p + 1;
    }
    SkipSlashes(path[from..], p - from);
    assert path[from..][p - from..] == path[p..];
  }

  /** while(*path != '/' && *path != 0) path++; */
  method PastName(path: seq<Byte>, from: nat) returns (q: nat)
    requires from < |path| && path[from] != SLASH
    ensures from < q <= |path|
    ensures Elements(path[from..]) == [path[from..q]] + Elements(path[q..])
  {
    q := from;
    while q < |path| && path[q] != SLASH
      invariant from <= q <= |path| && forall j | from <= j < q :: path[j] != SLASH
    {
      q := q + 1;
    }
    assert path[from..][..q - from] == path[from..q] && path[from..][q - from..] == path[q..];
    RunIs(path[from..], q - from);
  }

  /** skipelem: the first element, cut to DIRSIZ bytes, and the path after it; false
      when there is no element left. Repeating it yields the elements in order. */
  method Skipelem(path: seq<Byte>) returns (found: bool, rest: seq<Byte>, name: seq<Byte>)
    ensures found <==> Elements(path) != []
    ensures found ==> name == Take(Elements(path)[0], DIRSIZ) && Elements(rest) == Elements(path)[1..]
    ensures found ==> |rest| < |path| && rest == path[|path| - |rest|..] && (rest == [] <==> |Elements(path)| == 1)
  {
    hide Elements;
    var p := PastSlashes(path, 0);
    assert path[0..] == path;
    if p == |path| {
      NoElements(path[p..]);
      return false, [], [];
    }
    var q := PastName(path, p);
    name := if q - p >= DIRSIZ then path[p..p + DIRSIZ] else path[p..q];
    assert Take(path[p..q], DIRSIZ) == name;
    var r := PastSlashes(path, q);
    found, rest := true, path[r..];
    if rest == [] { NoElements(rest); } else { SomeElements(rest); }
  }

  lemma NoElements(path: seq<Byte>)
    requires path == []
    ensures Elements(path) == []
  {
  }

  lemma SomeElements(path: seq<Byte>)
    requires path != [] && path[0] != SLASH
    ensures Elements(path) != []
  {
  }
}
