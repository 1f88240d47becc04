/** Packing a project's volumes into a tar stream and unpacking it under another stack
    directory. */
module Bundle {
  import opened Options
  import opened Paths

  /** A path below a stack directory, as its components. */
  type Path = seq<string>

  /** `LinkToFile` is a symbolic link to a readable file; `Other` is anything a walk skips. */
  datatype Node = Dir | File(data: string) | LinkToFile(data: string) | Other

  type Tree = map<Path, Node>

  datatype Body = DirBody | FileBody(data: string) | OtherBody

  datatype Entry = Entry(name: string, body: Body)

  // ---------------------------------------------------------------- trees

  ghost predicate Plain(q: Path) {
    Names(q) && forall i | 0 <= i < |q| :: q[i] != ".."
  }

  function Parent(q: Path): Path
    requires q != []
  {
    q[..|q| - 1]
  }

  /** A directory tree: everything lies in a directory, up to the root. */
  ghost predicate WellFormed(t: Tree) {
    && [] in t && t[[]] == Dir
    && (forall q | q in t :: Plain(q))
    && (forall q | q in t && q != [] :: Parent(q) in t && t[Parent(q)] == Dir)
  }

  lemma {:induction false} AncestorsAreDirs(t: Tree, q: Path, k: nat)
    requires WellFormed(t) && q in t && k < |q|
    ensures q[..k] in t && t[q[..k]] == Dir
    decreases |q|
  {
    assert q != [] && Parent(q) in t;
    if k < |q| - 1 {
      AncestorsAreDirs(t, Parent(q), k);
      assert Parent(q)[..k] == q[..k];
    }
  }

  // ---------------------------------------------------------------- names

  lemma PlainCanonical(q: Path)
    requires Plain(q)
    ensures Canonical(false, q) && Clean(Slashed(q)) == if q == [] then "." else Slashed(q)
    ensures Comps(Slashed(q)) == q && !Rooted(Slashed(q))
  {
    CompsOfSlashed(q);
    FoldPlain(false, [], q);
    assert [] + q == q;
  }

  lemma JoinNames(v: Path, r: Path)
    requires Plain(v) && Plain(r) && v != [] && r != []
    ensures Join(Slashed(v), Slashed(r)) == Slashed(v + r)
  {
    CompsOfSlashed(v);
    CompsOfSlashed(r);
    CompsOfJoin(Slashed(v), Slashed(r));
    FoldPlain(false, [], v + r);
    assert [] + (v + r) == v + r;
  }

  lemma DirName(q: Path)
    requires Plain(q) && q != []
    ensures Clean(Slashed(q) + "/") == Slashed(q)
  {
    PlainCanonical(q);
    CompsOfSlashed(q);
    CompsJoined(Slashed(q), "");
    assert Slashed(q) + "/" + "" == Slashed(q) + "/";
    assert Comps(Slashed(q)) + Comps("") == q;
    assert (Slashed(q) + "/")[0] == Slashed(q)[0];
  }

  /** `..` itself or something starting with `../`, after cleaning. */
  predicate HasParentRef(rel: string) {
    var clean := Clean(rel);
    clean == ".." || HasPrefix(clean, "../")
  }

  lemma ParentRefIff(cs: seq<string>)
    requires Canonical(false, cs)
    ensures HasParentRef(Render(false, cs)) <==> cs != [] && cs[0] == ".."
    ensures Clean(Render(false, cs)) == Render(false, cs)
  {
    RenderParses(false, cs);
    FoldOfCanonical(false, cs);
    if cs != [] {
      var s, c := Slashed(cs), cs[0];
      assert Name(c);
      assert |c| <= |s| && s[..|c|] == c;
      assert |cs| > 1 ==> s[|c|] == '/';
      if c == ".." && |cs| > 1 {
        assert s[..3] == "../";
      }
      if HasPrefix(s, "../") {
        SlashEndsName(c, s);
      }
    }
  }

  lemma SlashEndsName(c: string, s: string)
    requires Name(c) && |c| <= |s| && s[..|c|] == c && HasPrefix(s, "../")
    ensures c == ".."
  {
    assert s[0] == s[..3][0] && s[1] == s[..3][1] && s[2] == s[..3][2];
    assert forall i | 0 <= i < |c| :: c[i] == s[..|c|][i] && c[i] in c;
    assert |c| == 1 ==> c == ".";
    assert |c| == 2 ==> c == "..";
  }

  lemma RelCanonical(base: string, target: string)
    requires RelComps(base, target).Some?
    ensures Canonical(false, RelComps(base, target).value)
  {
    CleanCanonical(base);
    CleanCanonical(target);
    var b, t := CleanComps(base), CleanComps(target);
    UpsCanonical(|b| - Common(b, t), t, Common(b, t));
  }

  lemma UpsCanonical(n: nat, t: seq<string>, k: nat)
    requires k <= |t| && Names(t) && forall i, j | 0 <= i < j < |t| :: t[j] == ".." ==> t[i] == ".."
    ensures Canonical(false, Ups(n) + t[k..])
  {
    var rel := Ups(n) + t[k..];
    forall i | 0 <= i < |rel| ensures rel[i] == (if i < n then ".." else t[k + i - n]) && Name(rel[i]) {
      if i >= n {
        assert rel[i] == t[k..][i - n];
      }
    }
  }

  /** Where a volume lies below the stack directory, if it does. */
  function VolumePath(host: string, stack: string): Option<Path> {
    var at := if Rooted(host) then host else Join(stack, host);
    var rel := RelComps(stack, at);
    if rel.Some? && rel.value != [] && rel.value[0] != ".." then Some(rel.value) else None
  }

  /** It lies strictly below: its cleaned place is that of the stack directory and then some, and
      the way down does not begin by going up. */
  lemma VolumePathIs(host: string, stack: string, v: Path)
    ensures var at := if Rooted(host) then host else Join(stack, host);
      VolumePath(host, stack) == Some(v) <==>
        v != [] && v[0] != ".." && Rooted(at) == Rooted(stack) && CleanComps(at) == CleanComps(stack) + v
  {
    hide CleanComps, Slashed, Join;
    var at := if Rooted(host) then host else Join(stack, host);
    var b, t := CleanComps(stack), CleanComps(at);
    var k := Common(b, t);
    if k == |b| {
      assert t == b + t[k..] && Ups(0) + t[k..] == t[k..];
    }
    if t == b + v {
      assert t[..|b|] == b && t[|b|..] == v;
      CommonOfPrefix(b, t);
    }
  }

  lemma VolumePathPlain(host: string, stack: string)
    requires VolumePath(host, stack).Some?
    ensures Plain(VolumePath(host, stack).value) && VolumePath(host, stack).value != []
  {
    RelCanonical(stack, if Rooted(host) then host else Join(stack, host));
  }

  // ---------------------------------------------------------------- what packing means

  ghost predicate Volumes(vs: seq<Path>) {
    forall i | 0 <= i < |vs| :: Plain(vs[i]) && vs[i] != []
  }

  /** What a volume contributes at a path: directories and regular files below it, and the file
      behind a link that is itself the volume. */
  function Contribution(src: Tree, v: Path, q: Path): Option<Body> {
    if !(v <= q) || q !in src then None
    else match src[q]
         case Dir => Some(DirBody)
         case File(data) => Some(FileBody(data))
         case LinkToFile(data) => if q == v then Some(FileBody(data)) else None
         case Other => None
  }

  datatype Item = Item(at: Path, body: Body)

  ghost predicate Has(items: seq<Item>, x: Item) {
    exists k :: 0 <= k < |items| && items[k] == x
  }

  ghost predicate FromVolume(src: Tree, vs: seq<Path>, x: Item) {
    exists i :: 0 <= i < |vs| && Contribution(src, vs[i], x.at) == Some(x.body)
  }

  /** The items are the contributions of the volumes, all of them and nothing else. */
  ghost predicate Packs(src: Tree, vs: seq<Path>, items: seq<Item>) {
    && (forall k | 0 <= k < |items| :: FromVolume(src, vs, items[k]))
    && (forall i, q | 0 <= i < |vs| && Contribution(src, vs[i], q).Some? ::
          Has(items, Item(q, Contribution(src, vs[i], q).value)))
  }

  /** What the volume v should contribute, told from the tree: every directory and regular file at
      or below it, and the file behind a link that is itself the volume. */
  ghost predicate Owns(src: Tree, v: Path, x: Item) {
    && x.at in src && v <= x.at
    && match x.body
       case DirBody => src[x.at] == Dir
       case FileBody(data) => src[x.at] == File(data) || (src[x.at] == LinkToFile(data) && x.at == v)
       case OtherBody => false
  }

  ghost predicate Belongs(src: Tree, vs: seq<Path>, x: Item) {
    exists i :: 0 <= i < |vs| && Owns(src, vs[i], x)
  }

  /** The items are exactly those, however the volumes overlap. */
  ghost predicate PacksAll(src: Tree, vs: seq<Path>, items: seq<Item>) {
    forall x :: Has(items, x) <==> Belongs(src, vs, x)
  }

  lemma FromVolumeIs(src: Tree, vs: seq<Path>, x: Item)
    ensures FromVolume(src, vs, x) <==> Belongs(src, vs, x)
  {
    forall i | 0 <= i < |vs| ensures Contribution(src, vs[i], x.at) == Some(x.body) <==> Owns(src, vs[i], x) {
    }
  }

  lemma PacksIs(src: Tree, vs: seq<Path>, items: seq<Item>)
    requires Packs(src, vs, items)
    ensures PacksAll(src, vs, items)
  {
    forall x ensures Has(items, x) <==> Belongs(src, vs, x) {
      FromVolumeIs(src, vs, x);
      if FromVolume(src, vs, x) {
        var i :| 0 <= i < |vs| && Contribution(src, vs[i], x.at) == Some(x.body);
        assert Has(items, Item(x.at, Contribution(src, vs[i], x.at).value));
      }
    }
  }

  /** Directories carry a trailing slash. */
  function Named(x: Item): Entry {
    Entry(if x.body.DirBody? then Slashed(x.at) + "/" else Slashed(x.at), x.body)
  }

  function Entries(items: seq<Item>): seq<Entry> {
    seq(|items|, k requires 0 <= k < |items| => Named(items[k]))
  }

  /** The entries stand for the contributions of the volumes. */
  ghost predicate Archive(src: Tree, vs: seq<Path>, entries: seq<Entry>) {
    exists items :: entries == Entries(items) && Packs(src, vs, items)
  }

  // ---------------------------------------------------------------- what unpacking does

  /** MkdirAll: every missing directory on the way; refused by anything else in the way. */
  predicate Blocked(t: Tree, q: Path) {
    exists k :: 0 <= k <= |q| && q[..k] in t && t[q[..k]] != Dir
  }

  function Prefixes(q: Path): set<Path> {
    set k | 0 <= k <= |q| :: q[..k]
  }

  function MkdirAll(t: Tree, q: Path): Result<Tree> {
    if Blocked(t, q) then Err else Ok(map p | p in t.Keys + Prefixes(q) :: if p in t then t[p] else Dir)
  }

  function WriteFile(t: Tree, q: Path, data: string): Result<Tree> {
    if q == [] then Err
    else
      var made := MkdirAll(t, Parent(q));
      if made.Err? || (q in made.value && made.value[q] == Dir) then Err
      else Ok(made.value[q := File(data)])
  }

  function ExtractAt(t: Tree, x: Item): Result<Tree> {
    match x.body
    case OtherBody => Ok(t)
    case DirBody => MkdirAll(t, x.at)
    case FileBody(data) => WriteFile(t, x.at, data)
  }

  function Extract(t: Tree, e: Entry): Result<Tree> {
    var name := Clean(e.name);
    if name == "." then Ok(t)
    else if HasParentRef(name) || Rooted(name) then Err
    else ExtractAt(t, Item(Comps(name), e.body))
  }

  function ExtractAll(t: Tree, entries: seq<Entry>): Result<Tree> {
    if entries == [] then Ok(t)
    else
      var before := ExtractAll(t, entries[..|entries| - 1]);
      if before.Err? then Err else Extract(before.value, entries[|entries| - 1])
  }

  /** An entry the exporter names is read back as the item it stands for. */
  lemma NamedExtracts(t: Tree, x: Item)
    requires Plain(x.at) && x.at != []
    ensures Extract(t, Named(x)) == ExtractAt(t, x)
  {
    PlainCanonical(x.at);
    DirName(x.at);
    ParentRefIff(x.at);
    SlashedNotDot(x.at);
    assert Clean(Named(x).name) == Slashed(x.at);
  }

  // ---------------------------------------------------------------- round trip

  predicate SameNode(n: Node, source: Node) {
    (n == Dir && source == Dir) || (n.File? && (source == n || source == LinkToFile(n.data)))
  }

  /** Nothing unpacked contradicts the source. */
  ghost predicate Agrees(src: Tree, t: Tree) {
    forall q | q in t :: q in src && SameNode(t[q], src[q])
  }

  ghost predicate Holds(t: Tree, items: seq<Item>) {
    forall k | 0 <= k < |items| && items[k].body.FileBody? ::
      items[k].at in t && t[items[k].at] == File(items[k].body.data)
  }

  ghost predicate Only(t: Tree, items: seq<Item>) {
    forall q | q in t && t[q].File? :: Has(items, Item(q, FileBody(t[q].data)))
  }

  lemma MkdirAgrees(src: Tree, t: Tree, q: Path)
    requires WellFormed(src) && Agrees(src, t) && q in src && src[q] == Dir
    ensures var u := MkdirAll(t, q);
      && u.Ok? && Agrees(src, u.value)
      && (forall p | p in t :: p in u.value && u.value[p] == t[p])
      && (forall p | p in u.value && p !in t :: u.value[p] == Dir)
  {
    forall k | 0 <= k <= |q| ensures q[..k] in src && src[q[..k]] == Dir {
      if k < |q| {
        AncestorsAreDirs(src, q, k);
      } else {
        assert q[..k] == q;
      }
    }
  }

  lemma WriteAgrees(src: Tree, t: Tree, q: Path, data: string)
    requires WellFormed(src) && Agrees(src, t) && q in src && q != [] && SameNode(File(data), src[q])
    ensures var u := WriteFile(t, q, data);
      && u.Ok? && Agrees(src, u.value) && q in u.value && u.value[q] == File(data)
      && (forall p | p in t :: p in u.value && (u.value[p] == t[p] || p == q))
      && (forall p | p in u.value && p !in t :: u.value[p] == Dir || p == q)
  {
    MkdirAgrees(src, t, Parent(q));
  }

  lemma ItemSource(src: Tree, vs: seq<Path>, x: Item)
    requires WellFormed(src) && Volumes(vs) && FromVolume(src, vs, x)
    ensures x.at in src && x.at != [] && Plain(x.at)
    ensures x.body.DirBody? || x.body.FileBody?
    ensures x.body.DirBody? ==> src[x.at] == Dir
    ensures x.body.FileBody? ==> SameNode(File(x.body.data), src[x.at])
  {
    var i :| 0 <= i < |vs| && Contribution(src, vs[i], x.at) == Some(x.body);
  }

  lemma HasGrows(items: seq<Item>, x: Item)
    ensures Has(items + [x], x)
    ensures forall y :: Has(items, y) ==> Has(items + [x], y)
  {
    assert (items + [x])[|items|] == x;
    forall y | Has(items, y) ensures Has(items + [x], y) {
      var k :| 0 <= k < |items| && items[k] == y;
      assert (items + [x])[k] == y;
    }
  }

  lemma ExtractAgrees(src: Tree, vs: seq<Path>, items: seq<Item>, x: Item, t: Tree)
    requires WellFormed(src) && Volumes(vs) && FromVolume(src, vs, x)
    requires Agrees(src, t) && Holds(t, items) && Only(t, items)
    ensures var u := ExtractAt(t, x);
      u.Ok? && Agrees(src, u.value) && Holds(u.value, items + [x]) && Only(u.value, items + [x])
  {
    ItemSource(src, vs, x);
    HasGrows(items, x);
    if x.body.DirBody? {
      MkdirAgrees(src, t, x.at);
    } else {
      WriteAgrees(src, t, x.at, x.body.data);
      var u := ExtractAt(t, x).value;
      forall k | 0 <= k < |items| && items[k].body.FileBody?
        ensures items[k].at in u && u[items[k].at] == File(items[k].body.data)
      {
        assert t[items[k].at] == File(items[k].body.data);
        assert SameNode(t[items[k].at], src[items[k].at]);
      }
    }
  }

  function EmptyStack(): Tree {
    map[[] := Dir]
  }

  /** The items have been unpacked, faithfully, and nothing else has. */
  ghost predicate Unpacked(src: Tree, items: seq<Item>, r: Result<Tree>) {
    r.Ok? && Agrees(src, r.value) && Holds(r.value, items) && Only(r.value, items)
  }

  lemma UnpackedMore(src: Tree, vs: seq<Path>, front: seq<Item>, x: Item)
    requires WellFormed(src) && Volumes(vs) && FromVolume(src, vs, x)
    requires Unpacked(src, front, ExtractAll(EmptyStack(), Entries(front)))
    ensures Unpacked(src, front + [x], ExtractAll(EmptyStack(), Entries(front + [x])))
  {
    var t := ExtractAll(EmptyStack(), Entries(front)).value;
    ItemSource(src, vs, x);
    NamedExtracts(t, x);
    ExtractAgrees(src, vs, front, x, t);
    ExtractOneMore(EmptyStack(), front, x);
  }

  lemma UnpackedNothing(src: Tree)
    requires WellFormed(src)
    ensures Unpacked(src, [], ExtractAll(EmptyStack(), Entries([])))
  {
  }

  lemma {:induction false} ExtractAllAgrees(src: Tree, vs: seq<Path>, items: seq<Item>)
    requires WellFormed(src) && Volumes(vs)
    requires forall k | 0 <= k < |items| :: FromVolume(src, vs, items[k])
    ensures Unpacked(src, items, ExtractAll(EmptyStack(), Entries(items)))
  {
    hide Unpacked, FromVolume, WellFormed, Volumes, ExtractAll, Entries, EmptyStack;
    if items == [] {
      UnpackedNothing(src);
    } else {
      var front, x := items[..|items| - 1], items[|items| - 1];
      ExtractAllAgrees(src, vs, front);
      UnpackedMore(src, vs, front, x);
      assert front + [x] == items;
    }
  }

  lemma ExtractOneMore(t: Tree, front: seq<Item>, x: Item)
    requires ExtractAll(t, Entries(front)).Ok?
    ensures ExtractAll(t, Entries(front + [x])) == Extract(ExtractAll(t, Entries(front)).value, Named(x))
  {
    assert Entries(front + [x])[..|front|] == Entries(front);
  }

  /** An item needs the directory q: a directory itself and those above it, a file those above. */
  ghost predicate Leads(q: Path, x: Item) {
    (x.body.DirBody? && q <= x.at) || (x.body.FileBody? && q < x.at)
  }

  ghost predicate LedTo(items: seq<Item>, q: Path) {
    exists k :: 0 <= k < |items| && Leads(q, items[k])
  }

  /** The directories are those the items need. */
  ghost predicate DirsExact(t: Tree, items: seq<Item>) {
    forall q :: (q in t && t[q] == Dir) <==> q == [] || LedTo(items, q)
  }

  lemma MkdirAllIs(t: Tree, q: Path)
    requires MkdirAll(t, q).Ok?
    ensures var u := MkdirAll(t, q).value;
      forall p :: (p in u <==> p in t || p <= q) && (p in u ==> u[p] == if p in t then t[p] else Dir)
    ensures forall p | p <= q :: p in t ==> t[p] == Dir
  {
    var u := MkdirAll(t, q).value;
    forall p ensures p in u <==> p in t || p <= q {
      if p <= q {
        assert q[..|p|] == p;
      }
    }
    forall p | p <= q && p in t ensures t[p] == Dir {
      assert q[..|p|] == p;
    }
  }

  lemma LedToNext(items: seq<Item>, x: Item, q: Path)
    ensures LedTo(items + [x], q) <==> LedTo(items, q) || Leads(q, x)
  {
    var all := items + [x];
    if LedTo(items, q) {
      var k :| 0 <= k < |items| && Leads(q, items[k]);
      assert all[k] == items[k];
    }
    assert all[|items|] == x;
    if LedTo(all, q) {
      var k :| 0 <= k < |all| && Leads(q, all[k]);
      assert k < |items| ==> all[k] == items[k];
    }
  }

  lemma StrictlyAbove(p: Path, q: Path)
    requires q != []
    ensures p <= Parent(q) <==> p < q
  {
    if p <= Parent(q) {
      assert q[..|p|] == Parent(q)[..|p|] == p;
    }
    if p < q {
      assert Parent(q)[..|p|] == q[..|p|] == p;
    }
  }

  lemma ExtractDirs(t: Tree, items: seq<Item>, x: Item)
    requires DirsExact(t, items) && x.at != [] && ExtractAt(t, x).Ok? && !x.body.OtherBody?
    ensures DirsExact(ExtractAt(t, x).value, items + [x])
  {
    var u := ExtractAt(t, x).value;
    if x.body.DirBody? {
      MkdirAllIs(t, x.at);
    } else {
      MkdirAllIs(t, Parent(x.at));
    }
    forall q ensures (q in u && u[q] == Dir) <==> q == [] || LedTo(items + [x], q) {
      LedToNext(items, x, q);
      StrictlyAbove(q, x.at);
      assert (q in t && t[q] == Dir) <==> q == [] || LedTo(items, q);
    }
  }

  lemma {:induction false} AllDirsExact(src: Tree, vs: seq<Path>, items: seq<Item>)
    requires WellFormed(src) && Volumes(vs)
    requires forall k | 0 <= k < |items| :: FromVolume(src, vs, items[k])
    ensures ExtractAll(EmptyStack(), Entries(items)).Ok?
    ensures DirsExact(ExtractAll(EmptyStack(), Entries(items)).value, items)
  {
    hide FromVolume, WellFormed, Volumes, Unpacked, DirsExact;
    ExtractAllAgrees(src, vs, items);
    UnpackedHas(src, items);
    if items == [] {
      NoDirsYet();
    } else {
      var front, x := items[..|items| - 1], items[|items| - 1];
      AllDirsExact(src, vs, front);
      var t := ExtractAll(EmptyStack(), Entries(front)).value;
      ItemSource(src, vs, x);
      NamedExtracts(t, x);
      assert front + [x] == items;
      ExtractOneMore(EmptyStack(), front, x);
      ExtractDirs(t, front, x);
    }
  }

  lemma NoDirsYet()
    ensures DirsExact(ExtractAll(EmptyStack(), Entries([])).value, [])
  {
    assert Entries([]) == [];
    assert forall q :: !LedTo([], q);
  }

  /** A regular file at or below a volume, or the file behind a volume that is a link. */
  ghost predicate FileWanted(src: Tree, vs: seq<Path>, q: Path, data: string) {
    q in src && ((src[q] == File(data) && exists i :: 0 <= i < |vs| && vs[i] <= q)
                 || (src[q] == LinkToFile(data) && exists i :: 0 <= i < |vs| && vs[i] == q))
  }

  /** A directory at or below a volume, or one on the way to a volume that is there. */
  ghost predicate DirWanted(src: Tree, vs: seq<Path>, q: Path) {
    || (q in src && src[q] == Dir && exists i :: 0 <= i < |vs| && vs[i] <= q)
    || (exists i :: 0 <= i < |vs| && q < vs[i] && vs[i] in src && src[vs[i]] != Other)
  }

  /** The target, told from the source tree: those files with their contents, those directories and
      the stack directory itself, and nothing else. */
  ghost predicate Recreates(src: Tree, vs: seq<Path>, t: Tree) {
    && (forall q, data :: (q in t && t[q] == File(data)) <==> FileWanted(src, vs, q, data))
    && (forall q :: (q in t && t[q] == Dir) <==> q == [] || DirWanted(src, vs, q))
    && (forall q | q in t :: t[q] == Dir || t[q].File?)
  }

  lemma FileWantedIs(src: Tree, vs: seq<Path>, q: Path, data: string)
    ensures Belongs(src, vs, Item(q, FileBody(data))) <==> FileWanted(src, vs, q, data)
  {
    var x := Item(q, FileBody(data));
    if Belongs(src, vs, x) {
      var i :| 0 <= i < |vs| && Owns(src, vs[i], x);
      assert vs[i] <= q;
    }
    if FileWanted(src, vs, q, data) {
      if src[q] == File(data) {
        var i :| 0 <= i < |vs| && vs[i] <= q;
        assert Owns(src, vs[i], x);
      } else {
        var i :| 0 <= i < |vs| && vs[i] == q;
        assert Owns(src, vs[i], x);
      }
    }
  }

  lemma FilesAre(src: Tree, vs: seq<Path>, items: seq<Item>, t: Tree, q: Path, data: string)
    requires Packs(src, vs, items) && Holds(t, items) && Only(t, items)
    ensures (q in t && t[q] == File(data)) <==> FileWanted(src, vs, q, data)
  {
    hide Packs, FileWanted, Belongs;
    var x := Item(q, FileBody(data));
    PacksIs(src, vs, items);
    FileWantedIs(src, vs, q, data);
    assert Has(items, x) <==> Belongs(src, vs, x);
    if Has(items, x) {
      var k :| 0 <= k < |items| && items[k] == x;
      assert t[items[k].at] == File(data);
    }
  }

  lemma WayToVolume(src: Tree, v: Path, q: Path, at: Path)
    requires WellFormed(src) && at in src && v <= at && q <= at
    ensures q < at || src[at] == Dir ==> q in src && src[q] == Dir
    ensures v <= q || q < v
    ensures v in src && (v == at || src[v] == Dir)
  {
    assert at[..|q|] == q && at[..|v|] == v && at[..|at|] == at;
    if |q| < |at| {
      AncestorsAreDirs(src, at, |q|);
    }
    if |v| < |at| {
      AncestorsAreDirs(src, at, |v|);
    }
    if |v| <= |q| {
      assert q[..|v|] == v;
    } else {
      assert v[..|q|] == q;
    }
  }

  lemma LedIsWanted(src: Tree, vs: seq<Path>, x: Item, q: Path)
    requires WellFormed(src) && Belongs(src, vs, x) && Leads(q, x)
    ensures DirWanted(src, vs, q)
  {
    var i :| 0 <= i < |vs| && Owns(src, vs[i], x);
    WayToVolume(src, vs[i], q, x.at);
    if vs[i] <= q {
      assert q in src && src[q] == Dir;
    } else {
      assert q < vs[i] && vs[i] in src && src[vs[i]] != Other;
    }
  }

  lemma WantedIsLed(src: Tree, vs: seq<Path>, q: Path) returns (x: Item)
    requires DirWanted(src, vs, q)
    ensures Belongs(src, vs, x) && Leads(q, x)
  {
    if q in src && src[q] == Dir && exists i :: 0 <= i < |vs| && vs[i] <= q {
      var i :| 0 <= i < |vs| && vs[i] <= q;
      x := Item(q, DirBody);
      assert Owns(src, vs[i], x);
    } else {
      var i :| 0 <= i < |vs| && q < vs[i] && vs[i] in src && src[vs[i]] != Other;
      var v := vs[i];
      x := Item(v, if src[v] == Dir then DirBody else FileBody(src[v].data));
      assert Owns(src, vs[i], x);
    }
  }

  lemma DirsAre(src: Tree, vs: seq<Path>, items: seq<Item>, q: Path)
    requires WellFormed(src) && Packs(src, vs, items)
    ensures LedTo(items, q) <==> DirWanted(src, vs, q)
  {
    hide WellFormed, Packs, DirWanted, Belongs, Leads;
    PacksIs(src, vs, items);
    if LedTo(items, q) {
      var k :| 0 <= k < |items| && Leads(q, items[k]);
      assert Has(items, items[k]);
      LedIsWanted(src, vs, items[k], q);
    }
    if DirWanted(src, vs, q) {
      var x := WantedIsLed(src, vs, q);
      assert Has(items, x);
      var k :| 0 <= k < |items| && items[k] == x;
      assert Leads(q, items[k]);
    }
  }

  lemma OnlyDirsAndFiles(src: Tree, t: Tree)
    requires Agrees(src, t)
    ensures forall q | q in t :: t[q] == Dir || t[q].File?
  {
  }

  lemma UnpackedHas(src: Tree, items: seq<Item>)
    requires Unpacked(src, items, ExtractAll(EmptyStack(), Entries(items)))
    ensures ExtractAll(EmptyStack(), Entries(items)).Ok?
    ensures var t := ExtractAll(EmptyStack(), Entries(items)).value; Agrees(src, t) && Holds(t, items) && Only(t, items)
  {
  }

  /** Into an empty stack directory every entry of an export is accepted, and afterwards it is the
      part of the source tree that lies at or below the volumes. */
  lemma ImportOfExport(src: Tree, vs: seq<Path>, items: seq<Item>)
    requires WellFormed(src) && Volumes(vs) && Packs(src, vs, items)
    ensures ExtractAll(EmptyStack(), Entries(items)).Ok?
    ensures Recreates(src, vs, ExtractAll(EmptyStack(), Entries(items)).value)
  {
    hide ExtractAll, Entries, EmptyStack, WellFormed, Agrees, Holds, Only, FileWanted, DirWanted, Unpacked, LedTo;
    ExtractAllAgrees(src, vs, items);
    UnpackedHas(src, items);
    AllDirsExact(src, vs, items);
    var t := ExtractAll(EmptyStack(), Entries(items)).value;
    OnlyDirsAndFiles(src, t);
    forall q, data ensures (q in t && t[q] == File(data)) <==> FileWanted(src, vs, q, data) {
      FilesAre(src, vs, items, t, q, data);
    }
    forall q ensures (q in t && t[q] == Dir) <==> q == [] || DirWanted(src, vs, q) {
      DirsAre(src, vs, items, q);
    }
  }

  // ---------------------------------------------------------------- what any entry may do

  /** Whatever the names: an entry that leads out of the stack directory is refused, and an
      accepted one adds at most what it names and the directories on the way. */
  lemma ExtractStaysInside(t: Tree, e: Entry)
    requires WellFormed(t)
    ensures var cs := CleanComps(e.name);
      && (Rooted(e.name) || (cs != [] && cs[0] == "..") ==> Extract(t, e).Err?)
      && (Extract(t, e).Ok? ==>
            && WellFormed(Extract(t, e).value)
            && (forall p | p in t && p != cs :: p in Extract(t, e).value && Extract(t, e).value[p] == t[p])
            && (forall p | p in Extract(t, e).value && p !in t :: p <= cs)
            && (!Rooted(e.name) && cs != [] && e.body.FileBody? ==>
                  cs in Extract(t, e).value && Extract(t, e).value[cs] == File(e.body.data))
            && (!Rooted(e.name) && e.body.DirBody? ==> cs in Extract(t, e).value && Extract(t, e).value[cs] == Dir))
  {
    var cs := CleanComps(e.name);
    NameMeans(e.name);
    if !Rooted(e.name) && (cs == [] || cs[0] != "..") && Extract(t, e).Ok? && cs != [] {
      InsidePlain(e.name);
      if e.body.DirBody? {
        MkdirAllIs(t, cs);
        GrownWellFormed(t, cs, Extract(t, e).value);
      } else if e.body.FileBody? {
        MkdirAllIs(t, Parent(cs));
        var made := MkdirAll(t, Parent(cs)).value;
        PlainParent(cs);
        GrownWellFormed(t, Parent(cs), made);
        FileWellFormed(made, cs, e.body.data);
        assert Parent(cs) <= cs;
      }
    }
  }

  /** Every name on the way down is a directory or free. */
  ghost predicate WayIsClear(t: Tree, q: Path, n: nat) {
    forall k | 0 <= k < n && k <= |q| && q[..k] in t :: t[q[..k]] == Dir
  }

  /** Which entries are accepted: those for the stack directory itself, which say nothing, and those
      for a place inside it where no file stands in the way and no directory in the place of a
      file. */
  lemma ExtractAcceptsIff(t: Tree, e: Entry)
    ensures var cs := CleanComps(e.name);
      && (!Rooted(e.name) && cs == [] ==> Extract(t, e) == Ok(t))
      && (!Rooted(e.name) && cs != [] && cs[0] != ".." ==>
            match e.body
            case OtherBody => Extract(t, e) == Ok(t)
            case DirBody => Extract(t, e).Ok? <==> WayIsClear(t, cs, |cs| + 1)
            case FileBody(_) => Extract(t, e).Ok? <==> WayIsClear(t, cs, |cs|) && (cs in t ==> t[cs] != Dir))
  {
    var cs := CleanComps(e.name);
    NameMeans(e.name);
    if !Rooted(e.name) && cs != [] && cs[0] != ".." {
      if e.body.DirBody? {
        ClearIs(t, cs, |cs|);
        assert cs[..|cs|] == cs;
      } else if e.body.FileBody? {
        ClearIs(t, cs, |cs| - 1);
        assert cs !in Prefixes(Parent(cs)) by {
          assert forall k | 0 <= k <= |cs| - 1 :: |Parent(cs)[..k]| == k;
        }
      }
    }
  }

  lemma ClearIs(t: Tree, q: Path, n: nat)
    requires n <= |q|
    ensures Blocked(t, q[..n]) <==> !WayIsClear(t, q, n + 1)
  {
    assert forall k | 0 <= k <= n :: q[..n][..k] == q[..k];
  }

  lemma NameMeans(name: string)
    ensures var cs := CleanComps(name);
      && Rooted(Clean(name)) == Rooted(name) && Comps(Clean(name)) == cs
      && (Clean(name) == "." <==> !Rooted(name) && cs == [])
      && (!Rooted(name) ==> (HasParentRef(Clean(name)) <==> cs != [] && cs[0] == ".."))
  {
    CleanParses(name);
    CleanCanonical(name);
    if !Rooted(name) {
      ParentRefIff(CleanComps(name));
      if CleanComps(name) != [] {
        SlashedNotDot(CleanComps(name));
      }
    }
  }

  lemma InsidePlain(name: string)
    requires !Rooted(name) && CleanComps(name) != [] && CleanComps(name)[0] != ".."
    ensures Plain(CleanComps(name))
  {
    CleanCanonical(name);
  }

  lemma PlainParent(q: Path)
    requires Plain(q) && q != []
    ensures Plain(Parent(q))
  {
  }

  lemma GrownWellFormed(t: Tree, q: Path, u: Tree)
    requires WellFormed(t) && Plain(q) && MkdirAll(t, q) == Ok(u)
    ensures WellFormed(u) && q in u && u[q] == Dir
  {
    MkdirAllIs(t, q);
    forall p | p in u ensures Plain(p) && (p != [] ==> Parent(p) in u && u[Parent(p)] == Dir) {
      if p !in t {
        assert forall i | 0 <= i < |p| :: p[i] == q[i];
        assert p != [] ==> Parent(p) <= q;
      }
    }
  }

  lemma FileWellFormed(t: Tree, q: Path, data: string)
    requires WellFormed(t) && Plain(q) && q != [] && Parent(q) in t && t[Parent(q)] == Dir
    requires q in t ==> t[q] != Dir
    ensures WellFormed(t[q := File(data)])
  {
  }

  // ---------------------------------------------------------------- the code

  /** The exporter's guard on the relative name says the volume lies in the stack directory. */
  lemma GuardMeans(host: string, stack: string)
    ensures var at := if Rooted(host) then host else Join(stack, host); var rel := Rel(stack, at);
      var skipped := rel.None? || rel.value == "" || rel.value == "." || Rooted(rel.value) || HasParentRef(rel.value);
      && (skipped <==> VolumePath(host, stack).None?)
      && (!skipped ==> rel.value == Slashed(VolumePath(host, stack).value))
  {
    var at := if Rooted(host) then host else Join(stack, host);
    var cs := RelComps(stack, at);
    if cs.Some? {
      RelCanonical(stack, at);
      ParentRefIff(cs.value);
      RenderParses(false, cs.value);
      if cs.value != [] {
        SlashedNotDot(cs.value);
      }
    }
  }

  /** Stat fails with something other than "not there". */
  predicate Obstructed(src: Tree, v: Path) {
    exists k :: 0 <= k < |v| && v[..k] in src && (src[v[..k]].File? || src[v[..k]].LinkToFile?)
  }

  /** The order in which the tree is walked. */
  ghost predicate Lists(order: seq<Path>, src: Tree) {
    && (forall i | 0 <= i < |order| :: order[i] in src)
    && (forall q | q in src :: exists i :: 0 <= i < |order| && order[i] == q)
  }

  method AddFile(prefix: string, data: string) returns (e: Entry)
    ensures e == Entry(prefix, FileBody(data))
  {
    e := Entry(prefix, FileBody(data));
  }

  /** What a walk of the volume writes at one path. */
  method Visit(src: Tree, v: Path, q: Path) returns (e: Option<Entry>)
    requires WellFormed(src) && Plain(v) && v != [] && v <= q && q in src && v in src && src[v] == Dir
    ensures e == if Contribution(src, v, q).Some? then Some(Named(Item(q, Contribution(src, v, q).value))) else None
  {
    var rel := q[|v|..];
    PlainSuffix(q, |v|);
    assert v + rel == q;
    var name := Slashed(v);
    if rel != [] {
      JoinNames(v, rel);
      name := Join(Slashed(v), Slashed(rel));
    } else {
      assert q == v;
    }
    assert name == Slashed(q);
    if src[q] == Dir {
      return Some(Entry(name + "/", DirBody));
    }
    if !src[q].File? {
      return None;
    }
    var file := AddFile(name, src[q].data);
    e := Some(file);
  }

  ghost predicate PacksUpTo(src: Tree, order: seq<Path>, v: Path, n: nat, items: seq<Item>)
    requires n <= |order|
  {
    && (forall k | 0 <= k < |items| :: Contribution(src, v, items[k].at) == Some(items[k].body))
    && (forall j | 0 <= j < n && Contribution(src, v, order[j]).Some? ::
          Has(items, Item(order[j], Contribution(src, v, order[j]).value)))
  }

  lemma PacksNext(src: Tree, order: seq<Path>, v: Path, n: nat, items: seq<Item>)
    requires n < |order| && PacksUpTo(src, order, v, n, items)
    ensures var c := Contribution(src, v, order[n]);
      PacksUpTo(src, order, v, n + 1, if c.Some? then items + [Item(order[n], c.value)] else items)
  {
    var c := Contribution(src, v, order[n]);
    if c.Some? {
      HasGrows(items, Item(order[n], c.value));
    }
  }

  method Walk(src: Tree, order: seq<Path>, v: Path) returns (entries: seq<Entry>, ghost items: seq<Item>)
    requires WellFormed(src) && Lists(order, src) && Plain(v) && v != [] && v in src && src[v] == Dir
    ensures entries == Entries(items) && PacksAll(src, [v], items)
    ensures Packs(src, [v], items) && Archive(src, [v], entries)
  {
    entries, items := [], [];
    for i := 0 to |order|
      invariant entries == Entries(items)
      invariant PacksUpTo(src, order, v, i, items)
    {
      PacksNext(src, order, v, i, items);
      if v <= order[i] {
        var e := Visit(src, v, order[i]);
        if e.Some? {
          ghost var x := Item(order[i], Contribution(src, v, order[i]).value);
          EntriesAppend(items, [x]);
          assert e.value == Named(x) && Entries([x]) == [Named(x)];
          entries, items := entries + [e.value], items + [x];
        }
      }
    }
    PacksOne(src, order, v, items);
    ArchiveOf(src, [v], items);
    PacksIs(src, [v], items);
  }

  lemma ArchiveOf(src: Tree, vs: seq<Path>, items: seq<Item>)
    requires Packs(src, vs, items)
    ensures Archive(src, vs, Entries(items))
  {
  }

  lemma PlainSuffix(q: Path, k: nat)
    requires Plain(q) && k <= |q|
    ensures Plain(q[k..])
  {
    var rest := q[k..];
    assert forall i | 0 <= i < |rest| :: rest[i] == q[k + i];
  }

  lemma PacksOne(src: Tree, order: seq<Path>, v: Path, items: seq<Item>)
    requires Lists(order, src) && PacksUpTo(src, order, v, |order|, items)
    ensures Packs(src, [v], items)
  {
    forall k | 0 <= k < |items| ensures FromVolume(src, [v], items[k]) {
      assert [v][0] == v;
    }
    forall i, q | 0 <= i < |[v]| && Contribution(src, [v][i], q).Some?
      ensures Has(items, Item(q, Contribution(src, [v][i], q).value))
    {
      var j :| 0 <= j < |order| && order[j] == q;
      assert Contribution(src, v, order[j]).Some?;
    }
  }

  method AddDirToTar(src: Tree, order: seq<Path>, v: Path)
    returns (ok: bool, entries: seq<Entry>, ghost items: seq<Item>)
    requires WellFormed(src) && Lists(order, src) && Plain(v) && v != []
    ensures ok <==> forall k | 0 <= k < |v| && v[..k] in src :: !src[v[..k]].File? && !src[v[..k]].LinkToFile?
    ensures ok <==> !Obstructed(src, v)
    ensures ok ==> entries == Entries(items) && Packs(src, [v], items) && Archive(src, [v], entries)
  {
    entries, items := [], [];
    if Obstructed(src, v) {
      return false, [], [];
    }
    ok := true;
    if v !in src || src[v] == Other {
      NothingBelow(src, v);
      return;
    }
    if src[v] == Dir {
      entries, items := Walk(src, order, v);
      return;
    }
    NothingBelow(src, v);
    var e := AddFile(Slashed(v), src[v].data);
    entries, items := [e], [Item(v, FileBody(src[v].data))];
    PacksFile(src, v);
  }

  lemma HoldsSomething(src: Tree, v: Path, q: Path)
    requires WellFormed(src) && q in src && v <= q && |v| < |q|
    ensures v in src && src[v] == Dir
  {
    AncestorsAreDirs(src, q, |v|);
    assert q[..|v|] == v;
  }

  lemma NothingBelow(src: Tree, v: Path)
    requires WellFormed(src) && (v !in src || src[v] != Dir)
    ensures forall q | q in src && v <= q :: q == v
    ensures v !in src || src[v] == Other ==> Packs(src, [v], [])
  {
    forall q | q in src && v <= q ensures q == v {
      if |v| < |q| {
        HoldsSomething(src, v, q);
      }
    }
  }

  lemma PacksFile(src: Tree, v: Path)
    requires WellFormed(src) && v in src && (src[v].File? || src[v].LinkToFile?)
    ensures Packs(src, [v], [Item(v, FileBody(src[v].data))])
  {
    NothingBelow(src, v);
    var items := [Item(v, FileBody(src[v].data))];
    assert [v][0] == v && items[0] == Item(v, FileBody(src[v].data));
    assert FromVolume(src, [v], items[0]);
    forall i, q | 0 <= i < |[v]| && Contribution(src, [v][i], q).Some?
      ensures Has(items, Item(q, Contribution(src, [v][i], q).value))
    {
      assert q == v && items[0] == Item(q, Contribution(src, [v][i], q).value);
    }
  }

  lemma PacksAppend(src: Tree, vs: seq<Path>, items: seq<Item>, v: Path, more: seq<Item>)
    requires Packs(src, vs, items) && Packs(src, [v], more)
    ensures Packs(src, vs + [v], items + more)
  {
    var all, xs := vs + [v], items + more;
    assert [v][0] == v && all[|vs|] == v;
    forall k | 0 <= k < |xs| ensures FromVolume(src, all, xs[k]) {
      if k < |items| {
        assert FromVolume(src, vs, items[k]);
        var i :| 0 <= i < |vs| && Contribution(src, vs[i], items[k].at) == Some(items[k].body);
        assert all[i] == vs[i];
      } else {
        assert FromVolume(src, [v], more[k - |items|]);
      }
    }
    forall i, q | 0 <= i < |all| && Contribution(src, all[i], q).Some?
      ensures Has(xs, Item(q, Contribution(src, all[i], q).value))
    {
      var x := Item(q, Contribution(src, all[i], q).value);
      if i < |vs| {
        assert all[i] == vs[i] && Has(items, x);
        var k :| 0 <= k < |items| && items[k] == x;
        assert xs[k] == x;
      } else {
        assert Contribution(src, [v][0], q).Some? && Has(more, x);
        var k :| 0 <= k < |more| && more[k] == x;
        assert xs[|items| + k] == x;
      }
    }
  }

  lemma PacksRepeated(src: Tree, vs: seq<Path>, items: seq<Item>, v: Path)
    requires Packs(src, vs, items) && exists i :: 0 <= i < |vs| && vs[i] == v
    ensures Packs(src, vs + [v], items)
  {
    var j :| 0 <= j < |vs| && vs[j] == v;
    var all := vs + [v];
    forall k | 0 <= k < |items| ensures FromVolume(src, all, items[k]) {
      assert FromVolume(src, vs, items[k]);
      var i :| 0 <= i < |vs| && Contribution(src, vs[i], items[k].at) == Some(items[k].body);
      assert all[i] == vs[i];
    }
    forall i, q | 0 <= i < |all| && Contribution(src, all[i], q).Some?
      ensures Has(items, Item(q, Contribution(src, all[i], q).value))
    {
      var i' := if i < |vs| then i else j;
      assert all[i] == vs[i'];
      assert Contribution(src, vs[i'], q).Some?;
    }
  }

  /** The volumes of the host paths that lie in the stack directory, in order. */
  function InStack(hosts: seq<string>, stack: string): seq<Path> {
    if hosts == [] then []
    else
      var rest := InStack(hosts[..|hosts| - 1], stack);
      var v := VolumePath(hosts[|hosts| - 1], stack);
      if v.Some? then rest + [v.value] else rest
  }

  lemma {:induction false} InStackAre(hosts: seq<string>, stack: string, v: Path)
    ensures v in InStack(hosts, stack) <==> exists n :: 0 <= n < |hosts| && VolumePath(hosts[n], stack) == Some(v)
  {
    hide VolumePath;
    if hosts != [] {
      var n := |hosts| - 1;
      var front := hosts[..n];
      InStackAre(front, stack, v);
      assert forall k | 0 <= k < n :: front[k] == hosts[k];
      if VolumePath(hosts[n], stack).Some? {
        assert v in InStack(front, stack) + [VolumePath(hosts[n], stack).value] <==>
          v in InStack(front, stack) || VolumePath(hosts[n], stack) == Some(v);
      }
    }
  }

  lemma {:induction false} InStackVolumes(hosts: seq<string>, stack: string)
    ensures Volumes(InStack(hosts, stack))
  {
    if hosts != [] {
      InStackVolumes(hosts[..|hosts| - 1], stack);
      if VolumePath(hosts[|hosts| - 1], stack).Some? {
        VolumePathPlain(hosts[|hosts| - 1], stack);
      }
    }
  }

  const PROJECT := "project.yaml"

  /** What has been packed after the first n host paths. */
  ghost predicate Packing(src: Tree, vs: seq<Path>, items: seq<Item>, seen: set<string>) {
    Packs(src, vs, items) && SeenAre(seen, vs) && Volumes(vs) && !AnyObstructed(src, vs)
  }

  ghost predicate AnyObstructed(src: Tree, vs: seq<Path>) {
    exists i :: 0 <= i < |vs| && Obstructed(src, vs[i])
  }

  lemma PackingRepeated(src: Tree, vs: seq<Path>, items: seq<Item>, seen: set<string>, v: Path)
    requires Packing(src, vs, items, seen) && Plain(v) && v != [] && Slashed(v) in seen
    ensures Packing(src, vs + [v], items, seen)
  {
    SeenBefore(seen, vs, v);
    PacksRepeated(src, vs, items, v);
    SeenGrows(seen, vs, v);
    assert seen + {Slashed(v)} == seen;
  }

  lemma PackingAdded(src: Tree, vs: seq<Path>, items: seq<Item>, seen: set<string>, v: Path, more: seq<Item>)
    requires Packing(src, vs, items, seen) && Plain(v) && v != []
    requires Packs(src, [v], more) && !Obstructed(src, v)
    ensures Packing(src, vs + [v], items + more, seen + {Slashed(v)})
  {
    PacksAppend(src, vs, items, v, more);
    SeenGrows(seen, vs, v);
  }

  /** The relative name of a volume, unless it is skipped. */
  method Locate(host: string, stack: string) returns (rel: Option<string>)
    ensures var v := VolumePath(host, stack);
      if v.None? then rel == None else rel == Some(Slashed(v.value)) && Comps(rel.value) == v.value
  {
    GuardMeans(host, stack);
    var hostPath := host;
    if !Rooted(hostPath) {
      hostPath := Join(stack, hostPath);
    }
    rel := Rel(stack, hostPath);
    if rel.None? || rel.value == "" || rel.value == "." || Rooted(rel.value) || HasParentRef(rel.value) {
      return None;
    }
    VolumePathPlain(host, stack);
    CompsOfSlashed(VolumePath(host, stack).value);
  }

  /** One more host path. */
  function Noted(vs: seq<Path>, host: string, stack: string): seq<Path> {
    var v := VolumePath(host, stack);
    if v.Some? then vs + [v.value] else vs
  }

  method PackHost(src: Tree, order: seq<Path>, host: string, stack: string, seen: set<string>,
                  ghost vs: seq<Path>, ghost items: seq<Item>)
    returns (ok: bool, now: set<string>, more: seq<Entry>, ghost xs: seq<Item>)
    requires WellFormed(src) && Lists(order, src) && Packing(src, vs, items, seen)
    ensures !ok ==> VolumePath(host, stack).Some? && Obstructed(src, VolumePath(host, stack).value)
    ensures ok ==> more == Entries(xs) && Packing(src, Noted(vs, host, stack), items + xs, now)
  {
    ok, now, more, xs := true, seen, [], [];
    var rel := Locate(host, stack);
    assert items + [] == items;
    if rel.Some? {
      VolumePathPlain(host, stack);
      var v := Comps(rel.value);
      if rel.value in seen {
        PackingRepeated(src, vs, items, seen, v);
      } else {
        ok, more, xs := AddDirToTar(src, order, v);
        if ok {
          PackingAdded(src, vs, items, seen, v, xs);
          now := seen + {rel.value};
        }
      }
    }
  }

  /** `hosts` are the host paths of all volumes of all services. */
  method WriteProjectTarball(src: Tree, order: seq<Path>, hosts: seq<string>, stack: string, yaml: string)
    returns (ok: bool, entries: seq<Entry>, ghost items: seq<Item>)
    requires WellFormed(src) && Lists(order, src)
    ensures ok <==> !AnyObstructed(src, InStack(hosts, stack))
    ensures ok ==> entries == [Entry(PROJECT, FileBody(yaml))] + Entries(items)
                   && PacksAll(src, InStack(hosts, stack), items)
    ensures ok ==> Packs(src, InStack(hosts, stack), items)
    ensures ok ==> Archive(src, InStack(hosts, stack), entries[1..])
  {
    hide Packs, PacksAll, Archive, AnyObstructed, Obstructed, Entries, InStack;
    entries, items := [Entry(PROJECT, FileBody(yaml))], [];
    var seen: set<string> := {};
    PackingNothing(src, stack);
    assert hosts[..0] == [];
    for n := 0 to |hosts|
      invariant entries == [Entry(PROJECT, FileBody(yaml))] + Entries(items)
      invariant Packing(src, InStack(hosts[..n], stack), items, seen)
    {
      InStackNext(hosts, stack, n);
      var more: seq<Entry>;
      ghost var xs: seq<Item>;
      ok, seen, more, xs := PackHost(src, order, hosts[n], stack, seen, InStack(hosts[..n], stack), items);
      if !ok {
        ObstructedLater(src, hosts, stack, n);
        return;
      }
      EntriesAppend(items, xs);
      entries, items := entries + more, items + xs;
    }
    assert hosts[..|hosts|] == hosts;
    assert entries[1..] == Entries(items);
    PacksIs(src, InStack(hosts, stack), items);
    ArchiveOf(src, InStack(hosts, stack), items);
    ok := true;
  }

  lemma PackingNothing(src: Tree, stack: string)
    ensures Packing(src, InStack([], stack), [], {}) && Entries([]) == []
  {
  }

  lemma EntriesAppend(items: seq<Item>, xs: seq<Item>)
    ensures Entries(items + xs) == Entries(items) + Entries(xs)
  {
  }

  lemma InStackNext(hosts: seq<string>, stack: string, n: nat)
    requires n < |hosts|
    ensures InStack(hosts[..n + 1], stack) == Noted(InStack(hosts[..n], stack), hosts[n], stack)
  {
    assert hosts[..n + 1][..n] == hosts[..n];
  }

  ghost predicate SeenAre(seen: set<string>, vs: seq<Path>) {
    && (forall i | 0 <= i < |vs| :: Slashed(vs[i]) in seen)
    && (forall s | s in seen :: exists i :: 0 <= i < |vs| && Slashed(vs[i]) == s)
  }

  lemma SeenGrows(seen: set<string>, vs: seq<Path>, v: Path)
    requires SeenAre(seen, vs)
    ensures SeenAre(seen + {Slashed(v)}, vs + [v])
  {
    var all := vs + [v];
    forall s | s in seen + {Slashed(v)} ensures exists i :: 0 <= i < |all| && Slashed(all[i]) == s {
      if s in seen {
        var i :| 0 <= i < |vs| && Slashed(vs[i]) == s;
        assert all[i] == vs[i];
      } else {
        assert all[|vs|] == v;
      }
    }
  }

  lemma SeenBefore(seen: set<string>, vs: seq<Path>, v: Path)
    requires SeenAre(seen, vs) && Volumes(vs) && Plain(v) && Slashed(v) in seen
    ensures exists i :: 0 <= i < |vs| && vs[i] == v
  {
    var i :| 0 <= i < |vs| && Slashed(vs[i]) == Slashed(v);
    CompsOfSlashed(v);
    CompsOfSlashed(vs[i]);
  }

  lemma ObstructedInFront(src: Tree, front: seq<Path>, v: Path)
    requires AnyObstructed(src, front) || Obstructed(src, v)
    ensures AnyObstructed(src, front + [v])
  {
    var vs := front + [v];
    if AnyObstructed(src, front) {
      var i :| 0 <= i < |front| && Obstructed(src, front[i]);
      assert vs[i] == front[i];
    } else {
      assert vs[|front|] == v;
    }
  }

  lemma {:induction false} ObstructedLater(src: Tree, hosts: seq<string>, stack: string, n: nat)
    requires n < |hosts| && VolumePath(hosts[n], stack).Some? && Obstructed(src, VolumePath(hosts[n], stack).value)
    ensures AnyObstructed(src, InStack(hosts, stack))
  {
    var last := |hosts| - 1;
    if n < last {
      ObstructedLater(src, hosts[..last], stack, n);
    }
    var v := VolumePath(hosts[last], stack);
    if v.Some? {
      ObstructedInFront(src, InStack(hosts[..last], stack), v.value);
    }
  }

  /** The target stack directory. */
  class StackDir {
    var tree: Tree

    constructor ()
      ensures tree == EmptyStack()
    {
      tree := EmptyStack();
    }

    /** Entries are unpacked one by one; what was written before a refused entry stays. */
    method ImportTarball(entries: seq<Entry>) returns (ok: bool)
      modifies this
      ensures ok <==> entries != [] && Clean(entries[0].name) == PROJECT && ExtractAll(old(tree), entries[1..]).Ok?
      ensures ok ==> ExtractAll(old(tree), entries[1..]) == Ok(tree)
      ensures !ok && entries != [] && Clean(entries[0].name) == PROJECT ==> StoppedAt(old(tree), entries[1..], tree)
    {
      if entries == [] || Clean(entries[0].name) != PROJECT {
        return false;
      }
      var rest := entries[1..];
      for k := 0 to |rest|
        invariant ExtractAll(old(tree), rest[..k]) == Ok(tree)
      {
        assert rest[..k + 1][..k] == rest[..k];
        var r := Extract(tree, rest[k]);
        if r.Err? {
          RefusedForGood(old(tree), rest, k + 1);
          return false;
        }
        tree := r.value;
      }
      assert rest[..|rest|] == rest;
      ok := true;
    }
  }

  /** Everything before the first refused entry was unpacked. */
  ghost predicate StoppedAt(before: Tree, entries: seq<Entry>, after: Tree) {
    exists k :: 0 <= k < |entries| && ExtractAll(before, entries[..k]) == Ok(after)
      && ExtractAll(before, entries[..k + 1]).Err?
  }

  lemma {:induction false} RefusedForGood(t: Tree, entries: seq<Entry>, k: nat)
    requires k <= |entries| && ExtractAll(t, entries[..k]).Err?
    ensures ExtractAll(t, entries).Err?
    decreases |entries|
  {
    if k == |entries| {
      assert entries[..k] == entries;
    } else {
      assert entries[..|entries| - 1][..k] == entries[..k];
      RefusedForGood(t, entries[..|entries| - 1], k);
    }
  }

  /** The two ends together: what travels are the volumes that lie in the stack directory, and the
      export fails exactly when a file stands where a directory above one of them should be. */
  method ExportThenImport(src: Tree, order: seq<Path>, hosts: seq<string>, stack: string, yaml: string)
    returns (exported: bool, target: StackDir)
    requires WellFormed(src) && Lists(order, src)
    ensures forall v :: v in InStack(hosts, stack) <==>
      exists n :: 0 <= n < |hosts| && VolumePath(hosts[n], stack) == Some(v)
    ensures exported <==> forall v, k | v in InStack(hosts, stack) && 0 <= k < |v| && v[..k] in src ::
      !src[v[..k]].File? && !src[v[..k]].LinkToFile?
    ensures exported ==> Recreates(src, InStack(hosts, stack), target.tree)
  {
    ghost var vs := InStack(hosts, stack);
    forall v ensures v in vs <==> exists n :: 0 <= n < |hosts| && VolumePath(hosts[n], stack) == Some(v) {
      InStackAre(hosts, stack, v);
    }
    target := new StackDir();
    var entries: seq<Entry>;
    ghost var items: seq<Item>;
    exported, entries, items := WriteProjectTarball(src, order, hosts, stack, yaml);
    if exported {
      InStackVolumes(hosts, stack);
      assert entries[1..] == Entries(items);
      ImportOfExport(src, InStack(hosts, stack), items);
      ProjectNameClean();
      var imported := target.ImportTarball(entries);
    }
  }

  lemma ProjectNameClean()
    ensures Clean(PROJECT) == PROJECT
  {
    var q := [PROJECT];
    assert Plain(q);
    PlainCanonical(q);
  }
}
