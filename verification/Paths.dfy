/** Lexical path processing, as path/filepath does it on Unix, and the normalisation of volume
    host paths. */
module Paths {
  import opened Options

  // ---------------------------------------------------------------- components

  predicate Rooted(s: string) {
    s != "" && s[0] == '/'
  }

  /** A name between slashes; empty names and "." are dropped. */
  function Emit(name: string): seq<string> {
    if name == "" || name == "." then [] else [name]
  }

  function CompsFrom(s: string, name: string): seq<string> {
    if s == "" then Emit(name)
    else if s[0] == '/' then Emit(name) + CompsFrom(s[1..], "")
    else CompsFrom(s[1..], name + [s[0]])
  }

  function Comps(s: string): seq<string> {
    CompsFrom(s, "")
  }

  predicate Name(c: string) {
    c != "" && c != "." && '/' !in c
  }

  ghost predicate Names(cs: seq<string>) {
    forall i | 0 <= i < |cs| :: Name(cs[i])
  }

  lemma {:induction false} CompsFromNames(s: string, name: string)
    requires '/' !in name
    ensures Names(CompsFrom(s, name))
  {
    if s != "" {
      if s[0] == '/' {
        CompsFromNames(s[1..], "");
      } else {
        CompsFromNames(s[1..], name + [s[0]]);
      }
    }
  }

  lemma {:induction false} CompsFromJoined(a: string, b: string, name: string)
    ensures CompsFrom(a + "/" + b, name) == CompsFrom(a, name) + CompsFrom(b, "")
  {
    var s := a + "/" + b;
    if a == "" {
      assert s[0] == '/' && s[1..] == b;
    } else {
      assert s[0] == a[0] && s[1..] == a[1..] + "/" + b;
      CompsFromJoined(a[1..], b, if a[0] == '/' then "" else name + [a[0]]);
    }
  }

  lemma CompsJoined(a: string, b: string)
    ensures Comps(a + "/" + b) == Comps(a) + Comps(b)
  {
    CompsFromJoined(a, b, "");
  }

  lemma {:induction false} CompsOfName(c: string, name: string)
    requires '/' !in c
    ensures CompsFrom(c, name) == Emit(name + c)
  {
    if c == "" {
      assert name + c == name;
    } else {
      assert c[0] in c && c == [c[0]] + c[1..];
      CompsOfName(c[1..], name + [c[0]]);
      assert name + [c[0]] + c[1..] == name + c;
    }
  }

  // ---------------------------------------------------------------- rendering

  function Slashed(cs: seq<string>): string {
    if cs == [] then "" else if |cs| == 1 then cs[0] else cs[0] + "/" + Slashed(cs[1..])
  }

  function Render(rooted: bool, cs: seq<string>): string {
    if rooted then "/" + Slashed(cs) else if cs == [] then "." else Slashed(cs)
  }

  lemma {:induction false} CompsOfSlashed(cs: seq<string>)
    requires Names(cs)
    ensures Comps(Slashed(cs)) == cs
    ensures cs != [] ==> Slashed(cs) != "" && Slashed(cs)[0] != '/'
  {
    if cs != [] {
      var c := cs[0];
      assert Name(c);
      assert c[0] in c;
      CompsOfName(c, "");
      assert "" + c == c;
      if |cs| == 1 {
        assert cs == [c];
      } else {
        CompsOfSlashed(cs[1..]);
        CompsJoined(c, Slashed(cs[1..]));
        assert cs == [c] + cs[1..];
      }
    }
  }

  /** Rendering loses nothing. */
  lemma RenderParses(rooted: bool, cs: seq<string>)
    requires Names(cs)
    ensures Comps(Render(rooted, cs)) == cs && Rooted(Render(rooted, cs)) == rooted && Render(rooted, cs) != ""
  {
    CompsOfSlashed(cs);
    var s := Render(rooted, cs);
    if rooted {
      assert s[0] == '/' && s[1..] == Slashed(cs);
      assert Emit("") + Comps(Slashed(cs)) == cs;
    } else if cs == [] {
      CompsOfName(".", "");
    }
  }

  // ---------------------------------------------------------------- cleaning

  /** One component on top of the ones so far; `..` at the root stays there. */
  function Push(rooted: bool, st: seq<string>, c: string): seq<string> {
    if c != ".." then st + [c]
    else if st != [] && st[|st| - 1] != ".." then st[..|st| - 1]
    else if rooted then st
    else st + [".."]
  }

  function Fold(rooted: bool, st: seq<string>, cs: seq<string>): seq<string> {
    if cs == [] then st else Push(rooted, Fold(rooted, st, cs[..|cs| - 1]), cs[|cs| - 1])
  }

  function CleanComps(s: string): seq<string> {
    Fold(Rooted(s), [], Comps(s))
  }

  function Clean(s: string): string {
    Render(Rooted(s), CleanComps(s))
  }

  /** No `..` after a real name, and none at all in an absolute path. */
  ghost predicate Canonical(rooted: bool, cs: seq<string>) {
    && Names(cs)
    && (rooted ==> forall i | 0 <= i < |cs| :: cs[i] != "..")
    && (forall i, j | 0 <= i < j < |cs| :: cs[j] == ".." ==> cs[i] == "..")
  }

  lemma {:induction false} FoldCanonical(rooted: bool, st: seq<string>, cs: seq<string>)
    requires Canonical(rooted, st) && Names(cs)
    ensures Canonical(rooted, Fold(rooted, st, cs))
  {
    if cs != [] {
      FoldCanonical(rooted, st, cs[..|cs| - 1]);
    }
  }

  lemma CleanCanonical(s: string)
    ensures Canonical(Rooted(s), CleanComps(s))
  {
    CompsFromNames(s, "");
    FoldCanonical(Rooted(s), [], Comps(s));
  }

  lemma {:induction false} FoldAppend(rooted: bool, st: seq<string>, a: seq<string>, b: seq<string>)
    ensures Fold(rooted, st, a + b) == Fold(rooted, Fold(rooted, st, a), b)
  {
    if b == [] {
      assert a + b == a;
    } else {
      FoldAppend(rooted, st, a, b[..|b| - 1]);
      assert (a + b)[..|a + b| - 1] == a + b[..|b| - 1];
    }
  }

  /** Nothing to pop: the components are simply added. */
  lemma {:induction false} FoldPlain(rooted: bool, st: seq<string>, cs: seq<string>)
    requires forall i | 0 <= i < |cs| :: cs[i] != ".."
    ensures Fold(rooted, st, cs) == st + cs
  {
    if cs != [] {
      FoldPlain(rooted, st, cs[..|cs| - 1]);
      assert cs == cs[..|cs| - 1] + [cs[|cs| - 1]];
    }
  }

  lemma CanonicalFront(rooted: bool, cs: seq<string>)
    requires Canonical(rooted, cs) && cs != []
    ensures var front, c := cs[..|cs| - 1], cs[|cs| - 1];
      && Canonical(rooted, front) && cs == front + [c]
      && (c == ".." ==> !rooted && (front == [] || front[|front| - 1] == ".."))
  {
    var n := |cs| - 1;
    var front := cs[..n];
    assert forall i | 0 <= i < n :: front[i] == cs[i];
    if cs[n] == ".." && n > 0 {
      assert cs[n - 1] == "..";
    }
  }

  lemma {:induction false} FoldOfCanonical(rooted: bool, cs: seq<string>)
    requires Canonical(rooted, cs)
    ensures Fold(rooted, [], cs) == cs
  {
    if cs != [] {
      CanonicalFront(rooted, cs);
      FoldOfCanonical(rooted, cs[..|cs| - 1]);
    }
  }

  /** A relative path may be cleaned before it is walked from somewhere: the heart of it, since
      `..` components that cannot be resolved yet are kept. */
  lemma {:induction false} FoldOfCleaned(rooted: bool, st: seq<string>, cs: seq<string>)
    ensures Fold(rooted, st, cs) == Fold(rooted, st, Fold(false, [], cs))
  {
    if cs != [] {
      var front, c := cs[..|cs| - 1], cs[|cs| - 1];
      FoldOfCleaned(rooted, st, front);
      var q := Fold(false, [], front);
      var next := Push(false, q, c);
      assert Fold(false, [], cs) == next;
      if c == ".." && q != [] && q[|q| - 1] != ".." {
        assert Fold(rooted, st, q) == Fold(rooted, st, q[..|q| - 1]) + [q[|q| - 1]];
      } else {
        assert next == q + [c];
        assert next[..|next| - 1] == q;
      }
    }
  }

  lemma CleanParses(s: string)
    ensures Comps(Clean(s)) == CleanComps(s) && Rooted(Clean(s)) == Rooted(s) && Clean(s) != ""
  {
    CleanCanonical(s);
    RenderParses(Rooted(s), CleanComps(s));
  }

  lemma CleanIdempotent(s: string)
    ensures Clean(Clean(s)) == Clean(s)
  {
    CleanParses(s);
    CleanCanonical(s);
    FoldOfCanonical(Rooted(s), CleanComps(s));
  }

  // ---------------------------------------------------------------- joining and relating

  /** Join ignores empty elements. */
  function Join(a: string, b: string): string {
    if a == "" && b == "" then ""
    else if a == "" then Clean(b)
    else if b == "" then Clean(a)
    else Clean(a + "/" + b)
  }

  function Common(a: seq<string>, b: seq<string>): (k: nat)
    ensures k <= |a| && k <= |b| && a[..k] == b[..k]
    ensures k < |a| && k < |b| ==> a[k] != b[k]
  {
    if a == [] || b == [] || a[0] != b[0] then 0
    else
      var k := Common(a[1..], b[1..]);
      assert a[..k + 1] == [a[0]] + a[1..][..k] && b[..k + 1] == [b[0]] + b[1..][..k];
      k + 1
  }

  function Ups(n: nat): seq<string> {
    seq(n, _ => "..")
  }

  /** The components that lead from one cleaned path to another; none when one is absolute and
      the other is not, or when it would have to undo a `..`. */
  function RelComps(base: string, target: string): Option<seq<string>> {
    var b, t := CleanComps(base), CleanComps(target);
    var k := Common(b, t);
    if Rooted(base) != Rooted(target) || ".." in b[k..] then None
    else Some(Ups(|b| - k) + t[k..])
  }

  function Rel(base: string, target: string): Option<string> {
    var r := RelComps(base, target);
    if r.None? then None else Some(Render(false, r.value))
  }

  predicate HasPrefix(s: string, prefix: string) {
    |prefix| <= |s| && s[..|prefix|] == prefix
  }

  // ---------------------------------------------------------------- what these operations mean

  /** A path is read name by name: slashes separate, and empty names and dots stand for nothing. */
  lemma CompsAre(a: string, b: string)
    ensures '/' !in a ==> Comps(a) == if a == "" || a == "." then [] else [a]
    ensures Comps(a + "/" + b) == Comps(a) + Comps(b)
  {
    CompsJoined(a, b);
    if '/' !in a {
      CompsOfName(a, "");
      assert "" + a == a;
    }
  }

  /** A name goes one down; `..` goes one up, stays at the root, and is kept where it is not known
      what is above. */
  lemma WalkOne(rooted: bool, st: seq<string>, c: string)
    ensures Fold(rooted, st, []) == st
    ensures c != ".." ==> Fold(rooted, st, [c]) == st + [c]
    ensures st != [] && st[|st| - 1] != ".." ==> Fold(rooted, st, [".."]) == st[..|st| - 1]
    ensures rooted && (st == [] || st[|st| - 1] == "..") ==> Fold(rooted, st, [".."]) == st
    ensures !rooted && (st == [] || st[|st| - 1] == "..") ==> Fold(rooted, st, [".."]) == st + [".."]
  {
    assert [c][..0] == [] && [".."][..0] == [];
  }

  /** Single slashes between the names, and none at the end. */
  predicate Tight(s: string) {
    && (forall i | 0 <= i < |s| - 1 :: !(s[i] == '/' && s[i + 1] == '/'))
    && (|s| > 1 ==> s[|s| - 1] != '/')
  }

  lemma {:induction false} SlashedTight(cs: seq<string>)
    requires Names(cs)
    ensures Tight(Slashed(cs)) && (cs != [] ==> Slashed(cs) != "" && Slashed(cs)[|Slashed(cs)| - 1] != '/')
  {
    if cs != [] {
      var c := cs[0];
      assert Name(c) && forall i | 0 <= i < |c| :: c[i] in c;
      if |cs| > 1 {
        SlashedTight(cs[1..]);
        CompsOfSlashed(cs[1..]);
        var rest := Slashed(cs[1..]);
        var s := c + "/" + rest;
        assert forall i | 0 <= i < |s| :: s[i] == if i < |c| then c[i] else if i == |c| then '/' else rest[i - |c| - 1];
      }
    }
  }

  /** A cleaned path leads where the path leads, is rooted like it, and is written without waste. */
  lemma CleanMeans(s: string)
    ensures Comps(Clean(s)) == Fold(Rooted(s), [], Comps(s)) && Rooted(Clean(s)) == Rooted(s)
    ensures Tight(Clean(s)) && Clean(s) != "" && (CleanComps(s) == [] ==> Clean(s) == if Rooted(s) then "/" else ".")
  {
    CleanParses(s);
    CleanCanonical(s);
    SlashedTight(CleanComps(s));
    CompsOfSlashed(CleanComps(s));
  }

  lemma {:induction false} UpsUndo(rooted: bool, st: seq<string>, n: nat)
    requires n <= |st| && ".." !in st[|st| - n..]
    ensures Fold(rooted, st, Ups(n)) == st[..|st| - n]
  {
    if n > 0 {
      var rest := st[|st| - n..];
      assert rest[1..] == st[|st| - (n - 1)..];
      assert forall x | x in rest[1..] :: x in rest;
      UpsUndo(rooted, st, n - 1);
      assert Ups(n)[..n - 1] == Ups(n - 1);
      var top := st[..|st| - (n - 1)];
      assert top[|top| - 1] == rest[0] && rest[0] in rest;
      assert top[..|top| - 1] == st[..|st| - n];
    } else {
      assert st[..|st|] == st;
    }
  }

  /** Where there is a relative path, following it leads from the base to the target. */
  lemma RelLeads(base: string, target: string)
    requires RelComps(base, target).Some?
    ensures Rooted(base) == Rooted(target)
    ensures Fold(Rooted(base), CleanComps(base), RelComps(base, target).value) == CleanComps(target)
  {
    hide CleanComps, Fold, Canonical, Ups;
    CleanCanonical(target);
    var b, t := CleanComps(base), CleanComps(target);
    var k := Common(b, t);
    UpsUndo(Rooted(base), b, |b| - k);
    FoldAppend(Rooted(base), b, Ups(|b| - k), t[k..]);
    FoldAppend(Rooted(base), [], t[..k], t[k..]);
    assert t[..k] + t[k..] == t;
    CanonicalPrefix(Rooted(base), t, k);
    FoldOfCanonical(Rooted(base), t[..k]);
    FoldOfCanonical(Rooted(base), t);
  }

  lemma CanonicalPrefix(rooted: bool, cs: seq<string>, k: nat)
    requires Canonical(rooted, cs) && k <= |cs|
    ensures Canonical(rooted, cs[..k])
  {
  }

  /** Going down from base to target, with nothing to go up, is always possible and says so. */
  lemma RelDown(base: string, target: string, down: seq<string>)
    requires Rooted(base) == Rooted(target) && CleanComps(target) == CleanComps(base) + down
    ensures RelComps(base, target) == Some(down)
  {
    hide CleanComps;
    var b, t := CleanComps(base), CleanComps(target);
    assert t[..|b|] == b && t[|b|..] == down;
    CommonOfPrefix(b, t);
    assert Ups(0) + down == down;
  }

  lemma CommonOfPrefix(b: seq<string>, t: seq<string>)
    requires b <= t
    ensures Common(b, t) == |b|
  {
  }

  // ---------------------------------------------------------------- volume host paths

  function NormaliseVolumeHostPath(p: string, stack: string): string {
    if p == "" then ""
    else
      var cleaned := Clean(p);
      if Rooted(cleaned) && stack != "" then
        var rel := Rel(Clean(stack), cleaned);
        if rel.Some? && !HasPrefix(rel.value, "..") && rel.value != "." then rel.value else cleaned
      else cleaned
  }

  /** Where the compose file mounts it from. */
  function Resolve(p: string, stack: string): string {
    if Rooted(p) then p else Join(stack, p)
  }

  lemma CompsOfJoin(a: string, b: string)
    requires a != "" || b != ""
    ensures Join(a, b) == Render(Rooted(if a == "" then b else a),
                                 Fold(Rooted(if a == "" then b else a), [], Comps(a) + Comps(b)))
  {
    if a != "" && b != "" {
      CompsJoined(a, b);
      assert (a + "/" + b)[0] == a[0];
    } else {
      assert Comps(a) + Comps(b) == Comps(if a == "" then b else a);
    }
  }

  /** Cleaning the second element first makes no difference to where the join leads. */
  lemma JoinOfCleaned(a: string, b: string)
    requires a != "" && b != "" && !Rooted(b)
    ensures Join(a, Clean(b)) == Join(a, b)
  {
    CleanParses(b);
    CompsOfJoin(a, b);
    CompsOfJoin(a, Clean(b));
    FoldAppend(Rooted(a), [], Comps(a), Comps(b));
    FoldAppend(Rooted(a), [], Comps(a), CleanComps(b));
    FoldOfCleaned(Rooted(a), Fold(Rooted(a), [], Comps(a)), Comps(b));
  }

  /** Whether a cleaned absolute path is rewritten relative to the stack: it lies strictly below
      it, and the first name below it does not begin with two dots. */
  lemma RelativeIff(p: string, stack: string)
    requires Rooted(p) && stack != ""
    ensures var b, t := CleanComps(stack), CleanComps(p);
      var below := Rooted(stack) && |b| < |t| && b == t[..|b|] && !HasPrefix(t[|b|], "..");
      NormaliseVolumeHostPath(p, stack) == if below then Slashed(t[|b|..]) else Clean(p)
  {
    CleanParses(p);
    CleanParses(stack);
    CleanIdempotent(p);
    CanonicalStable(stack);
    CanonicalStable(p);
    if Rooted(stack) {
      RelOfRooted(Clean(stack), Clean(p));
    }
  }

  /** Between absolute paths there is always a way; it needs no `..`, and is not `.`, exactly when
      the target lies strictly below. */
  lemma RelOfRooted(base: string, target: string)
    requires Rooted(base) && Rooted(target)
    ensures var b, t := CleanComps(base), CleanComps(target); var rel := Rel(base, target);
      && rel.Some?
      && (!HasPrefix(rel.value, "..") && rel.value != "." <==>
            |b| < |t| && b == t[..|b|] && !HasPrefix(t[|b|], ".."))
      && (|b| < |t| && b == t[..|b|] ==> rel.value == Slashed(t[|b|..]))
  {
    hide CleanComps, Slashed;
    CleanCanonical(base);
    CleanCanonical(target);
    var b, t := CleanComps(base), CleanComps(target);
    var k := Common(b, t);
    assert ".." !in b[k..] by {
      assert forall i | 0 <= i < |b| :: b[i] != "..";
    }
    assert RelComps(base, target) == Some(Ups(|b| - k) + t[k..]);
    if k < |b| {
      NotBelow(b, t);
      UpsLead(|b| - k, t[k..]);
    } else {
      assert Ups(0) + t[k..] == t[k..];
      if t[k..] != [] {
        SlashedPrefix(t[k..]);
        SlashedNotDot(t[k..]);
      }
    }
  }

  lemma NotBelow(b: seq<string>, t: seq<string>)
    requires Common(b, t) < |b|
    ensures !(|b| < |t| && b == t[..|b|])
  {
  }

  lemma UpsLead(n: nat, cs: seq<string>)
    requires n > 0 && Names(cs)
    ensures HasPrefix(Slashed(Ups(n) + cs), "..")
  {
    var rel := Ups(n) + cs;
    assert rel[0] == "..";
    assert forall i | 0 <= i < |rel| :: Name(rel[i]);
    SlashedPrefix(rel);
  }

  lemma CanonicalStable(s: string)
    ensures CleanComps(Clean(s)) == CleanComps(s)
  {
    CleanParses(s);
    CleanCanonical(s);
    FoldOfCanonical(Rooted(s), CleanComps(s));
  }

  lemma SlashedPrefix(cs: seq<string>)
    requires cs != [] && forall i | 0 <= i < |cs| :: cs[i] != "" && '/' !in cs[i]
    ensures HasPrefix(Slashed(cs), "..") <==> HasPrefix(cs[0], "..")
  {
    var s, c := Slashed(cs), cs[0];
    assert |c| <= |s| && s[..|c|] == c;
    if |c| == 1 && |s| >= 2 {
      assert s[1] == '/';
    } else if |c| >= 2 {
      assert s[..2] == c[..2];
    }
  }

  lemma SlashedNotDot(cs: seq<string>)
    requires cs != [] && Names(cs)
    ensures Slashed(cs) != "."
  {
    CompsOfSlashed(cs);
    if Slashed(cs) == "." {
      CompsOfName(".", "");
    }
  }

  /** Normalising a volume path does not move the volume: where the result leads from the stack
      directory is the cleaned form of where the original led, for every path, `..` past the
      root included.  The one exception is an empty path with no stack directory at all. */
  lemma NormaliseKeepsMeaning(p: string, stack: string)
    ensures Resolve(NormaliseVolumeHostPath(p, stack), stack) == Clean(Resolve(p, stack))
      <==> (p != "" || stack != "")
  {
    if p == "" {
      if stack != "" {
        CleanIdempotent(stack);
      }
    } else if !Rooted(p) {
      CleanParses(p);
      if stack == "" {
        CleanIdempotent(p);
      } else {
        JoinOfCleaned(stack, p);
        CleanIdempotent(stack + "/" + p);
      }
    } else {
      CleanParses(p);
      if stack != "" {
        RelativeIff(p, stack);
        RelativeLeadsBack(p, stack);
      }
    }
  }

  /** Paths that are not absolute, and all paths without a stack directory, are only cleaned. */
  lemma OthersAreCleaned(p: string, stack: string)
    requires !Rooted(p) || stack == ""
    ensures NormaliseVolumeHostPath(p, stack) == if p == "" then "" else Clean(p)
  {
    CleanParses(p);
  }

  lemma RelativeLeadsBack(p: string, stack: string)
    requires Rooted(p) && stack != ""
    ensures Resolve(NormaliseVolumeHostPath(p, stack), stack) == Clean(p)
  {
    RelativeIff(p, stack);
    CleanParses(p);
    var b, t := CleanComps(stack), CleanComps(p);
    if Rooted(stack) && |b| < |t| && b == t[..|b|] && !HasPrefix(t[|b|], "..") {
      CleanCanonical(p);
      var rel := t[|b|..];
      CompsOfSlashed(rel);
      CompsOfJoin(stack, Slashed(rel));
      FoldAppend(true, [], Comps(stack), rel);
      FoldPlain(true, b, rel);
      assert b + rel == t;
    }
  }

  lemma NormaliseIdempotent(p: string, stack: string)
    ensures NormaliseVolumeHostPath(NormaliseVolumeHostPath(p, stack), stack) == NormaliseVolumeHostPath(p, stack)
  {
    if p != "" {
      CleanParses(p);
      CleanIdempotent(p);
      if Rooted(p) && stack != "" {
        RelativeIff(p, stack);
        RelativeIff(Clean(p), stack);
        CanonicalStable(p);
        var b, t := CleanComps(stack), CleanComps(p);
        if Rooted(stack) && |b| < |t| && b == t[..|b|] && !HasPrefix(t[|b|], "..") {
          RelativeIsClean(t, |b|, p);
        }
      }
    }
  }

  lemma RelativeIsClean(t: seq<string>, k: nat, p: string)
    requires t == CleanComps(p) && Rooted(p) && k < |t|
    ensures var s := Slashed(t[k..]); Clean(s) == s && s != "" && !Rooted(s)
  {
    CleanCanonical(p);
    var rel := t[k..];
    assert forall i | 0 <= i < |rel| :: rel[i] == t[k + i];
    CompsOfSlashed(rel);
    FoldPlain(false, [], rel);
    assert [] + rel == rel;
  }
}
