/** The part of a POSIX file system that the snapshot scripts rely on: directories of
    named hard links, and inodes that live exactly as long as some link refers to them.

    A "point" is one directory that the backup host manages.  A directory is a map
    from names to inodes.  Sharing an inode between two points is what
    `--link-dest` and `cp -al` do. */
module SnapshotFs {

  // Run ids have the fixed shape YYYYMMDDTHHMMSSZ, so byte order is the order of the digits.
  type RunId = int
  type Inode = int

  datatype Name =
    | Payload(path: string)
    | Sums
    | Complete
    | Fileset(path: string)
    | FilesetSums
    | Verified

  // A file holds opaque bytes, or a checksum list.  Digests are collision free.
  datatype Content = Blob(data: string) | Manifest(sums: map<Name, Digest>)
  datatype Digest = Digest(of: Content)

  datatype Point =
    | Daily(run: RunId)
    | Partial(run: RunId)
    | Failed(tag: int)
    | Weekly(key: int)
    | Monthly(key: int)

  datatype Path = At(dir: Point, name: Name)

  type Dir = map<Name, Inode>

  // `links` is the counter that the kernel keeps.  `names` is bookkeeping for the proofs: which links they are.
  datatype Node = Node(data: Content, links: int, names: set<Path>)

  datatype Fs = Fs(dirs: map<Point, Dir>, nodes: map<Inode, Node>)

  predicate IsLink(fs: Fs, x: Path, i: Inode) {
    x.dir in fs.dirs && x.name in fs.dirs[x.dir] && fs.dirs[x.dir][x.name] == i
  }

  /** Every link refers to an inode, and every inode counts its own links. */
  ghost predicate Valid(fs: Fs) {
    && (forall p, n | p in fs.dirs && n in fs.dirs[p] :: fs.dirs[p][n] in fs.nodes)
    && (forall i | i in fs.nodes :: fs.nodes[i].links == |fs.nodes[i].names| > 0)
    && (forall i, x | i in fs.nodes :: x in fs.nodes[i].names <==> IsLink(fs, x, i))
  }

  predicate Linked(fs: Fs, p: Point, n: Name) {
    p in fs.dirs && n in fs.dirs[p] && fs.dirs[p][n] in fs.nodes
  }

  /** What a reader sees in directory p; nothing when there is no such directory. */
  function Contents(fs: Fs, p: Point): (c: map<Name, Content>)
  {
    if p in fs.dirs then map n | n in fs.dirs[p] && fs.dirs[p][n] in fs.nodes :: fs.nodes[fs.dirs[p][n]].data
    else map[]
  }

  /** An inode is allocated exactly when some directory entry refers to it. */
  lemma FreedIffUnreferenced(fs: Fs, i: Inode)
    requires Valid(fs)
    ensures i in fs.nodes <==> exists x :: IsLink(fs, x, i)
  {
    if i in fs.nodes {
      assert fs.nodes[i].names != {};
      var x :| x in fs.nodes[i].names;
    }
  }

  // ---------------------------------------------------------------- operations

  function Mkdir(fs: Fs, p: Point): Fs {
    fs.(dirs := fs.dirs[p := map[]])
  }

  function Rmdir(fs: Fs, p: Point): Fs {
    fs.(dirs := fs.dirs - {p})
  }

  /** A new file on a new inode; also what `>` does to a name that does not exist. */
  function Create(fs: Fs, p: Point, n: Name, c: Content, i: Inode): Fs
    requires p in fs.dirs
  {
    Fs(fs.dirs[p := fs.dirs[p][n := i]], fs.nodes[i := Node(c, 1, {At(p, n)})])
  }

  /** A hard link from q/m to p/n. */
  function Link(fs: Fs, q: Point, p: Point, n: Name): Fs
    requires Linked(fs, q, n) && p in fs.dirs
  {
    var i := fs.dirs[q][n];
    Fs(fs.dirs[p := fs.dirs[p][n := i]],
       fs.nodes[i := Node(fs.nodes[i].data, fs.nodes[i].links + 1, fs.nodes[i].names + {At(p, n)})])
  }

  /** The inode goes when its last link goes. */
  function Unlink(fs: Fs, p: Point, n: Name): Fs
    requires Linked(fs, p, n)
  {
    var i := fs.dirs[p][n];
    var node := fs.nodes[i];
    Fs(fs.dirs[p := fs.dirs[p] - {n}],
       if node.links <= 1 then fs.nodes - {i}
        else fs.nodes[i := Node(node.data, node.links - 1, node.names - {At(p, n)})])
  }

  /** rename(2) of directory p to the unused name q. */
  function Rename(fs: Fs, p: Point, q: Point): Fs
    requires p in fs.dirs
  {
    Fs((fs.dirs - {p})[q := fs.dirs[p]],
       map i | i in fs.nodes :: fs.nodes[i].(names := Shifted(fs.nodes[i].names, p, q)))
  }

  function Shift(x: Path, p: Point, q: Point): Path {
    if x.dir == p then At(q, x.name) else x
  }

  function Shifted(xs: set<Path>, p: Point, q: Point): set<Path> {
    set x | x in xs :: Shift(x, p, q)
  }

  // ---------------------------------------------------------------- what each operation keeps

  /** Directories other than p, and what is in them. */
  ghost predicate SameElsewhere(fs: Fs, g: Fs, p: Point) {
    forall q | q != p :: (q in g.dirs <==> q in fs.dirs) && Contents(g, q) == Contents(fs, q)
  }

  lemma CreateElsewhere(fs: Fs, p: Point, n: Name, c: Content, i: Inode)
    requires Valid(fs) && p in fs.dirs && n !in fs.dirs[p] && i !in fs.nodes
    ensures SameElsewhere(fs, Create(fs, p, n, c, i), p)
  {
    var g := Create(fs, p, n, c, i);
    forall q | q != p ensures (q in g.dirs <==> q in fs.dirs) && Contents(g, q) == Contents(fs, q) {
      assert q in fs.dirs ==> g.dirs[q] == fs.dirs[q];
    }
  }

  lemma CreateContents(fs: Fs, p: Point, n: Name, c: Content, i: Inode)
    requires Valid(fs) && p in fs.dirs && n !in fs.dirs[p] && i !in fs.nodes
    ensures var g := Create(fs, p, n, c, i);
      Contents(g, p) == Contents(fs, p)[n := c] && SameElsewhere(fs, g, p)
  {
    CreateElsewhere(fs, p, n, c, i);
  }

  lemma CreateValid(fs: Fs, p: Point, n: Name, c: Content, i: Inode)
    requires Valid(fs) && p in fs.dirs && n !in fs.dirs[p] && i !in fs.nodes
    ensures Valid(Create(fs, p, n, c, i))
  {
    var g := Create(fs, p, n, c, i);
    forall k, x | k in g.nodes ensures x in g.nodes[k].names <==> IsLink(g, x, k) {
      assert IsLink(g, x, k) <==> if x == At(p, n) then k == i else IsLink(fs, x, k);
    }
  }

  lemma CreateKeeps(fs: Fs, p: Point, n: Name, c: Content, i: Inode)
    requires Valid(fs) && p in fs.dirs && n !in fs.dirs[p] && i !in fs.nodes
    ensures var g := Create(fs, p, n, c, i);
      && Valid(g)
      && Contents(g, p) == Contents(fs, p)[n := c]
      && forall q | q != p :: Contents(g, q) == Contents(fs, q)
  {
    CreateValid(fs, p, n, c, i);
    CreateContents(fs, p, n, c, i);
  }

  lemma LinkElsewhere(fs: Fs, q: Point, p: Point, n: Name)
    requires Valid(fs) && p in fs.dirs && n !in fs.dirs[p] && Linked(fs, q, n)
    ensures SameElsewhere(fs, Link(fs, q, p, n), p)
  {
    var g := Link(fs, q, p, n);
    LinkData(fs, q, p, n);
    forall r | r != p ensures (r in g.dirs <==> r in fs.dirs) && Contents(g, r) == Contents(fs, r) {
      assert r in fs.dirs ==> g.dirs[r] == fs.dirs[r];
    }
  }

  lemma LinkContents(fs: Fs, q: Point, p: Point, n: Name)
    requires Valid(fs) && p in fs.dirs && n !in fs.dirs[p] && Linked(fs, q, n)
    ensures var g := Link(fs, q, p, n);
      Contents(g, p) == Contents(fs, p)[n := Contents(fs, q)[n]] && SameElsewhere(fs, g, p)
  {
    LinkElsewhere(fs, q, p, n);
    LinkData(fs, q, p, n);
  }

  lemma LinkData(fs: Fs, q: Point, p: Point, n: Name)
    requires p in fs.dirs && Linked(fs, q, n)
    ensures var g := Link(fs, q, p, n);
      (forall i :: i in g.nodes <==> i in fs.nodes) && forall i | i in fs.nodes :: g.nodes[i].data == fs.nodes[i].data
  {
  }

  lemma LinkValid(fs: Fs, q: Point, p: Point, n: Name)
    requires Valid(fs) && p in fs.dirs && n !in fs.dirs[p] && Linked(fs, q, n)
    ensures Valid(Link(fs, q, p, n))
  {
    var g := Link(fs, q, p, n);
    var i := fs.dirs[q][n];
    assert At(p, n) !in fs.nodes[i].names;
    forall k, x | k in g.nodes ensures x in g.nodes[k].names <==> IsLink(g, x, k) {
      assert IsLink(g, x, k) <==> if x == At(p, n) then k == i else IsLink(fs, x, k);
    }
  }

  lemma LinkKeeps(fs: Fs, q: Point, p: Point, n: Name)
    requires Valid(fs) && p in fs.dirs && n !in fs.dirs[p] && Linked(fs, q, n)
    ensures var g := Link(fs, q, p, n);
      && Valid(g)
      && Contents(g, p) == Contents(fs, p)[n := Contents(fs, q)[n]]
      && forall r | r != p :: Contents(g, r) == Contents(fs, r)
  {
    LinkValid(fs, q, p, n);
    LinkContents(fs, q, p, n);
  }

  /** The counter sees a second link. */
  lemma SecondLink(fs: Fs, x: Path, y: Path, i: Inode)
    requires Valid(fs) && i in fs.nodes && x != y && IsLink(fs, x, i) && IsLink(fs, y, i)
    ensures fs.nodes[i].links > 1
  {
    var others := fs.nodes[i].names - {x};
    assert y in others;
    assert |others| > 0 && |others| == |fs.nodes[i].names| - 1;
  }

  lemma UnlinkKeepsNodes(fs: Fs, p: Point, n: Name, q: Point, m: Name)
    requires Valid(fs) && Linked(fs, p, n) && Linked(fs, q, m) && At(q, m) != At(p, n)
    ensures var g := Unlink(fs, p, n);
      Linked(g, q, m) && g.dirs[q][m] == fs.dirs[q][m] && g.nodes[g.dirs[q][m]].data == fs.nodes[fs.dirs[q][m]].data
  {
    if fs.dirs[q][m] == fs.dirs[p][n] {
      SecondLink(fs, At(p, n), At(q, m), fs.dirs[p][n]);
    }
  }

  lemma UnlinkContents(fs: Fs, p: Point, n: Name, q: Point)
    requires Valid(fs) && Linked(fs, p, n)
    ensures Contents(Unlink(fs, p, n), q) == if q == p then Contents(fs, p) - {n} else Contents(fs, q)
  {
    var g := Unlink(fs, p, n);
    var was := if q == p then Contents(fs, p) - {n} else Contents(fs, q);
    var now := Contents(g, q);
    forall m ensures m in now <==> m in was {
      if m in was { UnlinkKeepsNodes(fs, p, n, q, m); }
    }
    forall m | m in now ensures now[m] == was[m] {
      UnlinkKeepsNodes(fs, p, n, q, m);
    }
  }

  lemma UnlinkKeeps(fs: Fs, p: Point, n: Name)
    requires Valid(fs) && Linked(fs, p, n)
    ensures var g := Unlink(fs, p, n);
      && Valid(g)
      && Contents(g, p) == Contents(fs, p) - {n}
      && forall q | q != p :: Contents(g, q) == Contents(fs, q)
  {
    var g := Unlink(fs, p, n);
    forall q ensures Contents(g, q) == if q == p then Contents(fs, p) - {n} else Contents(fs, q) {
      UnlinkContents(fs, p, n, q);
    }
    forall q, m | q in g.dirs && m in g.dirs[q] ensures g.dirs[q][m] in g.nodes {
      UnlinkKeepsNodes(fs, p, n, q, m);
    }
    var i := fs.dirs[p][n];
    assert IsLink(fs, At(p, n), i);
    forall k | k in g.nodes ensures g.nodes[k].links == |g.nodes[k].names| > 0 {
    }
  }

  lemma MkdirKeeps(fs: Fs, p: Point)
    requires Valid(fs) && p !in fs.dirs
    ensures Valid(Mkdir(fs, p))
    ensures forall q :: Contents(Mkdir(fs, p), q) == Contents(fs, q)
  {
  }

  lemma RmdirKeeps(fs: Fs, p: Point)
    requires Valid(fs) && p in fs.dirs && fs.dirs[p] == map[]
    ensures Valid(Rmdir(fs, p))
    ensures forall q :: Contents(Rmdir(fs, p), q) == Contents(fs, q)
  {
  }

  lemma ShiftedInsert(xs: set<Path>, x: Path, p: Point, q: Point)
    requires x in xs
    ensures Shifted(xs, p, q) == Shifted(xs - {x}, p, q) + {Shift(x, p, q)}
  {
    var rest := xs - {x};
    forall z | z in Shifted(xs, p, q) ensures z in Shifted(rest, p, q) || z == Shift(x, p, q) {
      var w :| w in xs && z == Shift(w, p, q);
      assert w in rest || w == x;
    }
  }

  lemma {:induction false} ShiftSize(xs: set<Path>, p: Point, q: Point)
    requires p != q && forall x | x in xs :: x.dir != q
    ensures |Shifted(xs, p, q)| == |xs|
  {
    if xs == {} {
      assert Shifted(xs, p, q) == {};
    } else {
      var x :| x in xs;
      var rest := xs - {x};
      ShiftSize(rest, p, q);
      ShiftedInsert(xs, x, p, q);
      forall w | w in rest ensures Shift(w, p, q) != Shift(x, p, q) {
        assert w.dir != q && x.dir != q && w != x;
      }
    }
  }

  lemma RenameContents(fs: Fs, p: Point, q: Point)
    requires Valid(fs) && p in fs.dirs && q !in fs.dirs
    ensures var g := Rename(fs, p, q);
      && Contents(g, q) == Contents(fs, p) && Contents(g, p) == map[]
      && forall r | r != p && r != q :: (r in g.dirs <==> r in fs.dirs) && Contents(g, r) == Contents(fs, r)
  {
    var g := Rename(fs, p, q);
    assert g.dirs == fs.dirs[q := fs.dirs[p]] - {p};
    hide Rename;
    assert Contents(g, q) == Contents(fs, p);
    forall r | r != p && r != q ensures (r in g.dirs <==> r in fs.dirs) && Contents(g, r) == Contents(fs, r) {
      assert r in fs.dirs ==> g.dirs[r] == fs.dirs[r];
    }
  }

  /** Where a link of the renamed file system was before. */
  lemma RenamedLink(fs: Fs, p: Point, q: Point, i: Inode, y: Path)
    requires Valid(fs) && p in fs.dirs && q !in fs.dirs && i in fs.nodes
    ensures y in Shifted(fs.nodes[i].names, p, q) <==> IsLink(Rename(fs, p, q), y, i)
  {
    var g := Rename(fs, p, q);
    var x := if y.dir == q then At(p, y.name) else y;
    if y.dir != p {
      assert IsLink(g, y, i) <==> IsLink(fs, x, i);
      if IsLink(fs, x, i) {
        assert x in fs.nodes[i].names && Shift(x, p, q) == y;
      }
      if y in Shifted(fs.nodes[i].names, p, q) {
        var w :| w in fs.nodes[i].names && Shift(w, p, q) == y;
        assert IsLink(fs, w, i) && w.dir in fs.dirs;
        assert w == x;
      }
    } else {
      forall w | w in fs.nodes[i].names ensures Shift(w, p, q) != y {
      }
    }
  }

  lemma RenameValid(fs: Fs, p: Point, q: Point)
    requires Valid(fs) && p in fs.dirs && q !in fs.dirs
    ensures Valid(Rename(fs, p, q))
  {
    var g := Rename(fs, p, q);
    forall i | i in g.nodes ensures g.nodes[i].links == |g.nodes[i].names| {
      assert forall x | x in fs.nodes[i].names :: IsLink(fs, x, i);
      ShiftSize(fs.nodes[i].names, p, q);
    }
    forall i, y | i in g.nodes ensures y in g.nodes[i].names <==> IsLink(g, y, i) {
      RenamedLink(fs, p, q, i, y);
    }
  }

  lemma RenameKeeps(fs: Fs, p: Point, q: Point)
    requires Valid(fs) && p in fs.dirs && q !in fs.dirs
    ensures var g := Rename(fs, p, q);
      && Valid(g)
      && Contents(g, q) == Contents(fs, p) && Contents(g, p) == map[]
      && forall r | r != p && r != q :: Contents(g, r) == Contents(fs, r)
  {
    RenameValid(fs, p, q);
    RenameContents(fs, p, q);
  }

  /** The links made so far are links to the files of another directory. */
  ghost predicate Mirrors(fs: Fs, from: Point, to: Point) {
    && from in fs.dirs && to in fs.dirs
    && forall n | n in fs.dirs[to] :: n in fs.dirs[from] && fs.dirs[to][n] == fs.dirs[from][n]
  }

  lemma LinkMirrors(fs: Fs, from: Point, to: Point, n: Name)
    requires from != to && Mirrors(fs, from, to) && Linked(fs, from, n) && n !in fs.dirs[to]
    ensures var g := Link(fs, from, to, n);
      && Mirrors(g, from, to) && g.dirs[to].Keys == fs.dirs[to].Keys + {n} && g.dirs[from] == fs.dirs[from]
  {
  }

  lemma MirrorComplete(fs: Fs, from: Point, to: Point)
    requires Valid(fs) && Mirrors(fs, from, to) && fs.dirs[to].Keys == fs.dirs[from].Keys
    ensures Contents(fs, to) == Contents(fs, from)
  {
    assert fs.dirs[to] == fs.dirs[from];
  }

  /** A reader sees every link of the directory, with the bytes of its inode. */
  lemma ContentsAre(fs: Fs, p: Point, n: Name)
    requires Valid(fs) && p in fs.dirs
    ensures n in Contents(fs, p) <==> n in fs.dirs[p]
    ensures n in fs.dirs[p] ==> fs.dirs[p][n] in fs.nodes && Contents(fs, p)[n] == fs.nodes[fs.dirs[p][n]].data
  {
  }

  lemma SubsetSize<T>(a: set<T>, b: set<T>)
    requires a <= b
    ensures |a| <= |b|
  {
    assert b == a + (b - a);
  }
}
