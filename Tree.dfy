/** A directory tree as the two programs see it through the operating
    system: a directory maps entry names to files and sub-directories.
    Paths are sequences of entry names, read from a starting directory. */
module Tree {
  import opened Options

  datatype Node = File(content: string) | Dir(entries: map<string, Node>)

  /** The node at path `p` below the directory whose entries are `m`;
      the empty path denotes that directory itself. */
  function NodeAt(m: map<string, Node>, p: seq<string>): Option<Node>
    decreases |p|
  {
    if p == [] then Some(Dir(m))
    else if p[0] !in m then None
    else if |p| == 1 then Some(m[p[0]])
    else match m[p[0]]
      case File(_) => None
      case Dir(sub) => NodeAt(sub, p[1..])
  }

  predicate IsDirAt(m: map<string, Node>, p: seq<string>) {
    NodeAt(m, p).Some? && NodeAt(m, p).value.Dir?
  }

  predicate IsFileAt(m: map<string, Node>, p: seq<string>) {
    NodeAt(m, p).Some? && NodeAt(m, p).value.File?
  }

  /** All but the last name of a non-empty path. */
  function Parent(p: seq<string>): seq<string>
    requires p != []
  {
    p[..|p| - 1]
  }

  /** The tree with `x` placed at `p` (creating or replacing the last
      entry); the directory that is to hold it must already exist. */
  function Put(m: map<string, Node>, p: seq<string>, x: Node): map<string, Node>
    requires p != [] && IsDirAt(m, Parent(p))
    decreases |p|
  {
    if |p| == 1 then m[p[0] := x]
    else
      assert Parent(p[1..]) == Parent(p)[1..];
      m[p[0] := Dir(Put(m[p[0]].entries, p[1..], x))]
  }

  /** After `Put`, the path holds exactly the node put there. */
  lemma {:induction false} PutThenGet(m: map<string, Node>, p: seq<string>, x: Node)
    requires p != [] && IsDirAt(m, Parent(p))
    ensures NodeAt(Put(m, p, x), p) == Some(x)
    decreases |p|
  {
    if |p| > 1 {
      assert Parent(p[1..]) == Parent(p)[1..];
      PutThenGet(m[p[0]].entries, p[1..], x);
    }
  }

  /** `Put` changes nothing at a path that neither leads to `p` nor lies
      below it: sibling entries, sibling directories and their contents
      stay as they were. */
  lemma {:induction false} PutFrame(m: map<string, Node>, p: seq<string>, x: Node, q: seq<string>)
    requires p != [] && IsDirAt(m, Parent(p))
    requires !(q <= p) && !(p <= q)
    ensures NodeAt(Put(m, p, x), q) == NodeAt(m, q)
    decreases |p|
  {
    if q[0] == p[0] && |p| > 1 {
      assert Parent(p[1..]) == Parent(p)[1..];
      assert !(q[1..] <= p[1..]) && !(p[1..] <= q[1..]) by {
        assert q == [q[0]] + q[1..] && p == [p[0]] + p[1..];
      }
      PutFrame(m[p[0]].entries, p[1..], x, q[1..]);
    }
  }

  /** Every directory on the way to `p` is still a directory after `Put`. */
  lemma {:induction false} PutKeepsAncestors(m: map<string, Node>, p: seq<string>, x: Node, q: seq<string>)
    requires p != [] && IsDirAt(m, Parent(p))
    requires q < p
    ensures IsDirAt(Put(m, p, x), q)
    decreases |p|
  {
    if q != [] {
      assert Parent(p[1..]) == Parent(p)[1..];
      if |p| > 1 {
        PutKeepsAncestors(m[p[0]].entries, p[1..], x, q[1..]);
      }
    }
  }

  /** A second `Put` at the same path replaces the first one entirely. */
  lemma {:induction false} PutTwice(m: map<string, Node>, p: seq<string>, x: Node, y: Node)
    requires p != [] && IsDirAt(m, Parent(p))
    ensures IsDirAt(Put(m, p, x), Parent(p))
    ensures Put(Put(m, p, x), p, y) == Put(m, p, y)
    decreases |p|
  {
    PutKeepsAncestors(m, p, x, Parent(p));
    if |p| > 1 {
      assert Parent(p[1..]) == Parent(p)[1..];
      PutTwice(m[p[0]].entries, p[1..], x, y);
    }
  }

  /** A path read in two parts: the second part is read from the node the
      first part reaches, which must be a directory. */
  lemma {:induction false} NodeAtSplit(m: map<string, Node>, p: seq<string>, r: seq<string>)
    ensures NodeAt(m, p + r) ==
      if r == [] then NodeAt(m, p)
      else if IsDirAt(m, p) then NodeAt(NodeAt(m, p).value.entries, r)
      else None
    decreases |p|
  {
    if r == [] {
      assert p + r == p;
    } else if p != [] {
      assert (p + r)[0] == p[0] && (p + r)[1..] == p[1..] + r;
      if p[0] in m && m[p[0]].Dir? && |p| > 1 {
        NodeAtSplit(m[p[0]].entries, p[1..], r);
      }
    } else {
      assert p + r == r;
    }
  }

  /** Every directory on the way to a directory is a directory. */
  lemma DirAncestors(m: map<string, Node>, d: seq<string>, q: seq<string>)
    requires IsDirAt(m, d) && q <= d
    ensures IsDirAt(m, q)
  {
    if q != d {
      assert d == q + d[|q|..];
      NodeAtSplit(m, q, d[|q|..]);
    }
  }

  /** Putting something where there is no directory keeps every
      directory a directory. */
  lemma PutKeepsDirs(m: map<string, Node>, p: seq<string>, x: Node, d: seq<string>)
    requires p != [] && IsDirAt(m, Parent(p)) && !IsDirAt(m, p)
    requires IsDirAt(m, d)
    ensures IsDirAt(Put(m, p, x), d)
  {
    if d < p {
      PutKeepsAncestors(m, p, x, d);
    } else if p <= d {
      DirAncestors(m, d, p);
    } else {
      PutFrame(m, p, x, d);
    }
  }

  /** Making an empty directory where nothing was changes no path other
      than the ones leading to it. */
  lemma MakeDirFrame(m: map<string, Node>, d: seq<string>, q: seq<string>)
    requires d != [] && IsDirAt(m, Parent(d)) && NodeAt(m, d).None?
    requires !(q <= d)
    ensures NodeAt(Put(m, d, Dir(map[])), q) == NodeAt(m, q)
  {
    if d <= q {
      var r := q[|d|..];
      assert q == d + r;
      NodeAtSplit(m, d, r);
      PutThenGet(m, d, Dir(map[]));
      NodeAtSplit(Put(m, d, Dir(map[])), d, r);
    } else {
      PutFrame(m, d, Dir(map[]), q);
    }
  }

  /** `posixpath.basename`: the text after the last '/'. */
  function Basename(path: string): (r: string)
    ensures '/' !in r
    ensures |r| <= |path| && r == path[|path| - |r|..]
    ensures |r| < |path| ==> path[|path| - |r| - 1] == '/'
  {
    if path == [] || path[|path| - 1] == '/' then ""
    else Basename(path[..|path| - 1]) + [path[|path| - 1]]
  }

  /** A name without '/' is its own basename, so reducing a name twice is
      reducing it once. */
  lemma {:induction false} BasenameOfName(name: string)
    requires '/' !in name
    ensures Basename(name) == name
  {
    if name != [] {
      BasenameOfName(name[..|name| - 1]);
    }
  }

  /** Reducing a path to its basename twice is reducing it once. */
  lemma BasenameIdempotent(path: string)
    ensures Basename(Basename(path)) == Basename(path)
  {
    BasenameOfName(Basename(path));
  }
}
