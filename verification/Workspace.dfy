/** internal/container/validator.go: resolveWorkspace, and the weaker check of
    internal/protocol/command.go: validRelativeWorkspace. The file system is a function
    from paths to what Lstat says. */
module Workspace {
  import opened Common
  import opened Paths

  datatype Stat = Absent | Link | Plain | Failure

  /** filepath.Rel between two absolute paths. */
  function Rel(base: string, target: string): string {
    var b, t := Kept(base), Kept(target);
    var k := CommonPrefix(b, t);
    if b == t then "." else Join(seq(|b| - k, _ => "..") + t[k..])
  }

  function CommonPrefix(a: seq<string>, b: seq<string>): (k: nat)
    ensures k <= |a| && k <= |b|
  {
    if a == [] || b == [] || a[0] != b[0] then 0 else 1 + CommonPrefix(a[1..], b[1..])
  }

  /** The path k segments below the base. */
  function At(base: seq<string>, below: seq<string>, k: nat): string
    requires k <= |below|
  {
    Render(true, base + below[..k])
  }

  /** The walk stops at the first component that does not exist; all before it exist and are
      no symlinks. */
  predicate Walked(lstat: string -> Stat, base: seq<string>, below: seq<string>, done: nat)
    requires done <= |below|
    decreases |below| - done
  {
    done == |below|
    || match lstat(At(base, below, done + 1))
       case Absent => true
       case Plain => Walked(lstat, base, below, done + 1)
       case Link => false
       case Failure => false
  }

  /** The components below the root from `done` to k are there and no symlinks, and then the path
      ends or nothing is there. */
  ghost predicate PlainUntil(lstat: string -> Stat, base: seq<string>, below: seq<string>, done: nat, k: nat)
    requires k <= |below|
  {
    && (forall j :: done < j <= k ==> lstat(At(base, below, j)) == Plain)
    && (k == |below| || lstat(At(base, below, k + 1)) == Absent)
  }

  /** The walk succeeds exactly on a chain of plain components that ends with the path or before
      a component that does not exist. */
  lemma {:induction false} WalkedIff(lstat: string -> Stat, base: seq<string>, below: seq<string>, done: nat)
    requires done <= |below|
    ensures Walked(lstat, base, below, done) <==>
              exists k :: done <= k <= |below| && PlainUntil(lstat, base, below, done, k)
    decreases |below| - done
  {
    if done == |below| {
      assert PlainUntil(lstat, base, below, done, done);
    } else {
      WalkedIff(lstat, base, below, done + 1);
      var next := lstat(At(base, below, done + 1));
      if next == Absent { assert PlainUntil(lstat, base, below, done, done); }
      if next == Plain && Walked(lstat, base, below, done + 1) {
        var k :| done + 1 <= k <= |below| && PlainUntil(lstat, base, below, done + 1, k);
        assert PlainUntil(lstat, base, below, done, k);
      }
      if k :| done <= k <= |below| && PlainUntil(lstat, base, below, done, k) {
        if k > done { assert PlainUntil(lstat, base, below, done + 1, k); }
      }
    }
  }

  predicate Inside(root: string, relative: string) {
    IsAbs(root) && relative != "" && !IsAbs(relative) && Kept(relative) != [] && Kept(relative)[0] != ".."
  }

  lemma {:induction false} PrefixFound(a: seq<string>, b: seq<string>)
    ensures CommonPrefix(a, a + b) == |a|
  {
    if a != [] {
      assert (a + b)[1..] == a[1..] + b;
      PrefixFound(a[1..], b);
    }
  }

  /** Relative to the root, a path below it is the segments below it. */
  lemma RelBelow(base: seq<string>, below: seq<string>)
    requires Normal(true, base) && Normal(true, base + below) && below != []
    ensures Rel(Render(true, base), Render(true, base + below)) == Join(below)
  {
    KeptOfRender(true, base);
    KeptOfRender(true, base + below);
    PrefixFound(base, below);
    assert base != base + below by { assert |base| < |base + below|; }
    assert seq(0, _ => "..") + (base + below)[|base|..] == below;
  }

  /** The code's test on the cleaned string is a test on its first segment. */
  lemma ParentTest(kept: seq<string>)
    requires Normal(false, kept) && kept != []
    ensures (Join(kept) == ".." || "../" <= Join(kept)) <==> kept[0] == ".."
    ensures Join(kept) != "."
  {
    var s := Join(kept);
    SplitJoin(kept);
    if s == ".." {
      SplitPlain("..");
    } else if "../" <= s {
      assert s == ".." + "/" + s[3..];
      SplitConcat("..", s[3..]);
      SplitPlain("..");
    }
    if s == "." { SplitPlain("."); }
    if kept[0] == ".." && |kept| > 1 {
      assert s == ".." + "/" + Join(kept[1..]);
      assert s[..3] == "../";
    }
  }

  lemma BelowHasNoParent(relative: string)
    requires relative != "" && !IsAbs(relative) && Kept(relative) != [] && Kept(relative)[0] != ".."
    ensures Normal(true, Kept(relative))
    ensures ".." !in Kept(relative)
  {
    KeptNormal(relative);
  }

  /** The code's three comparisons reject exactly what has no segment or begins with a parent. */
  lemma CleanedTest(relative: string)
    requires relative != "" && !IsAbs(relative)
    ensures (Clean(relative) == "." || Clean(relative) == ".." || "../" <= Clean(relative))
        <==> (Kept(relative) == [] || Kept(relative)[0] == "..")
  {
    KeptNormal(relative);
    if Kept(relative) != [] { ParentTest(Kept(relative)); }
  }

  /** Joining and taking apart again: the path relative to the root is the cleaned one. */
  lemma JoinThenRel(root: string, relative: string)
    requires Inside(root, relative)
    ensures var base, below := Kept(root), Kept(relative);
            var workspace := JoinPath(Clean(root), Clean(relative));
            && workspace == Render(true, base + below)
            && Rel(Clean(root), workspace) == Join(below)
            && Join(below) != ".." && !("../" <= Join(below))
            && Split(Join(below)) == below
            && Normal(true, base) && Normal(true, below)
  {
    KeptNormal(root);
    BelowHasNoParent(relative);
    JoinBelow(Kept(root), Kept(relative));
    RelBelow(Kept(root), Kept(relative));
    ParentTest(Kept(relative));
    SplitJoin(Kept(relative));
  }

  method ResolveWorkspace(root: string, relative: string, lstat: string -> Stat) returns (r: Option<string>)
    ensures r.Some? <==> Inside(root, relative) && Walked(lstat, Kept(root), Kept(relative), 0)
    ensures r.Some? <==>
              && IsAbs(root) && relative != "" && !IsAbs(relative)
              && Kept(relative) != [] && Kept(relative)[0] != ".."
              && exists k :: 0 <= k <= |Kept(relative)| && PlainUntil(lstat, Kept(root), Kept(relative), 0, k)
    ensures r.Some? ==> r.value == Render(true, Kept(root) + Kept(relative))
  {
    WalkedIff(lstat, Kept(root), Kept(relative), 0);
    if root == "" || !IsAbs(root) || relative == "" || IsAbs(relative) { return None; }
    var cleanRelative := Clean(relative);
    CleanedTest(relative);
    if cleanRelative == "." || cleanRelative == ".." || "../" <= cleanRelative { return None; }
    JoinThenRel(root, relative);
    var cleanRoot := Clean(root);
    var workspace := JoinPath(cleanRoot, cleanRelative);
    var rel := Rel(cleanRoot, workspace);
    if rel == ".." || "../" <= rel { return None; }
    var plain := WalkComponents(cleanRoot, Split(rel), lstat, Kept(root));
    return if plain then Some(workspace) else None;
  }

  /** The loop over the components below the root. */
  method WalkComponents(root: string, segments: seq<string>, lstat: string -> Stat, ghost base: seq<string>)
    returns (plain: bool)
    requires Normal(true, base) && Normal(true, segments) && root == Render(true, base)
    ensures plain == Walked(lstat, base, segments, 0)
    ensures plain <==> exists k :: 0 <= k <= |segments| && PlainUntil(lstat, base, segments, 0, k)
  {
    var current := root;
    WalkedIff(lstat, base, segments, 0);
    assert base + segments[..0] == base;
    for i := 0 to |segments|
      invariant current == At(base, segments, i) && Normal(true, base + segments[..i])
      invariant Walked(lstat, base, segments, 0) == Walked(lstat, base, segments, i)
    {
      WalkStep(base, segments, i);
      current := JoinPath(current, segments[i]);
      match lstat(current)
      case Absent => return true;
      case Failure => return false;
      case Link => return false;
      case Plain =>
    }
    return true;
  }

  lemma WalkStep(base: seq<string>, below: seq<string>, i: nat)
    requires i < |below| && Normal(true, base + below[..i]) && Normal(true, below)
    ensures JoinPath(At(base, below, i), below[i]) == At(base, below, i + 1)
    ensures Normal(true, base + below[..i + 1])
  {
    var one := [below[i]];
    assert Normal(true, one);
    JoinBelow(base + below[..i], one);
    assert (base + below[..i]) + one == base + below[..i + 1];
    assert Join(one) == below[i];
  }

  /** Whatever is returned lies strictly below the cleaned root: the root's segments, then at
      least one more, none of them empty, "." or "..". */
  lemma ResultIsBelowRoot(root: string, relative: string)
    requires Inside(root, relative)
    ensures var base, below := Kept(root), Kept(relative);
            var w := Render(true, base + below);
            && Kept(w) == base + below && |below| >= 1
            && (forall s :: s in base + below ==> s != ".." && s != "." && s != "" && NoSlash(s))
            && Clean(w) == w
  {
    KeptNormal(root);
    BelowHasNoParent(relative);
    var all := Kept(root) + Kept(relative);
    assert Normal(true, all);
    KeptOfRender(true, all);
    forall s | s in all ensures s != ".." && s != "." && s != "" && NoSlash(s) {
      var i :| 0 <= i < |all| && all[i] == s;
    }
  }

  /** A symlink is followed nowhere: every component looked at before the first missing one
      exists and is plain. */
  lemma {:induction false} NoSymlinkWalked(lstat: string -> Stat, base: seq<string>, below: seq<string>,
                                           done: nat, k: nat)
    requires done <= k < |below| && Walked(lstat, base, below, done)
    requires forall j :: done < j <= k ==> lstat(At(base, below, j)) != Absent
    ensures lstat(At(base, below, k + 1)) == Absent || lstat(At(base, below, k + 1)) == Plain
    decreases k - done
  {
    if done < k {
      assert lstat(At(base, below, done + 1)) == Plain;
      NoSymlinkWalked(lstat, base, below, done + 1, k);
    }
  }

  // ---------- The check made when the command is decoded ----------

  predicate ValidRelativeWorkspace(value: string) {
    && value != "" && value[0] != '/' && value[0] != '\\'
    && Clean(value) == value && value != "." && value != ".."
    && ':' !in value
  }

  /** Of the values that pass it, resolveWorkspace's own lexical test refuses exactly those that
      begin with "../". */
  lemma DecodedPathRefusedIff(root: string, value: string)
    requires IsAbs(root) && ValidRelativeWorkspace(value)
    ensures Inside(root, value) <==> !("../" <= value)
  {
    KeptNormal(value);
    if Kept(value) != [] { ParentTest(Kept(value)); }
  }

  // ---------- Where a decoded path would lead without that test ----------

  /** How many ".." stand in front. */
  function Parents(kept: seq<string>): (n: nat)
    ensures n <= |kept|
  {
    if kept == [] || kept[0] != ".." then 0 else 1 + Parents(kept[1..])
  }

  lemma {:induction false} ParentsInFront(kept: seq<string>, j: nat)
    requires Normal(false, kept) && j < |kept|
    ensures kept[j] == ".." <==> j < Parents(kept)
  {
    if kept[0] == ".." {
      if j > 0 {
        assert Normal(false, kept[1..]) by {
          assert forall i :: 0 <= i < |kept[1..]| ==> kept[1..][i] == kept[i + 1];
        }
        ParentsInFront(kept[1..], j - 1);
      }
    }
  }

  /** The segments of the root that n parents leave. */
  function Cut(base: seq<string>, n: nat): nat {
    if n <= |base| then |base| - n else 0
  }

  /** Each parent takes one segment of the root away while there is one. */
  lemma {:induction false} PushParents(base: seq<string>, ups: seq<string>, down: seq<string>)
    requires Normal(true, base) && (forall i :: 0 <= i < |ups| ==> ups[i] == "..")
    requires forall i :: 0 <= i < |down| ==> down[i] != "" && down[i] != "." && down[i] != ".."
    ensures PushAll(true, base, ups + down) == base[..Cut(base, |ups|)] + down
    decreases ups
  {
    if ups == [] {
      assert ups + down == down && base[..|base|] == base;
      PushAllPlain(true, base, down);
    } else {
      var next := Push(true, base, "..");
      assert next == base[..Cut(base, 1)];
      assert (ups + down)[1..] == ups[1..] + down;
      assert Normal(true, next) by { assert forall i :: 0 <= i < |next| ==> next[i] == base[i]; }
      PushParents(next, ups[1..], down);
      assert next[..Cut(next, |ups| - 1)] == base[..Cut(base, |ups|)];
    }
  }

  /** The clean root and the value, joined and processed segment by segment. */
  lemma JoinedSegments(root: string, value: string)
    requires IsAbs(root) && ValidRelativeWorkspace(value)
    ensures Kept(JoinPath(Clean(root), value)) == PushAll(true, Kept(root), Kept(value))
  {
    var whole := Clean(root) + "/" + value;
    KeptNormal(root);
    KeptNormal(value);
    KeptOfRender(true, Kept(root));
    SplitConcat(Clean(root), value);
    SplitJoin(Kept(value));
    PushAllConcat(true, [], Split(Clean(root)), Kept(value));
    assert IsAbs(whole) && Kept(whole) == PushAll(true, Kept(root), Kept(value));
    KeptNormal(whole);
    KeptOfRender(true, Kept(whole));
  }

  lemma PushLeading(base: seq<string>, v: seq<string>)
    requires Normal(true, base) && Normal(false, v)
    ensures PushAll(true, base, v) == base[..Cut(base, Parents(v))] + v[Parents(v)..]
  {
    var n := Parents(v);
    var ups, down := v[..n], v[n..];
    forall j | 0 <= j < |v| ensures v[j] == ".." <==> j < n { ParentsInFront(v, j); }
    assert v == ups + down;
    assert forall i :: 0 <= i < |down| ==> down[i] == v[n + i];
    PushParents(base, ups, down);
  }

  /** The segments of the joined path: what the parents leave of the root, then the rest. */
  lemma DecodedPathLeadsTo(root: string, value: string)
    requires IsAbs(root) && ValidRelativeWorkspace(value)
    ensures var base, v := Kept(root), Kept(value);
            var n := Parents(v);
            Kept(JoinPath(Clean(root), value)) == base[..Cut(base, n)] + v[n..]
  {
    JoinedSegments(root, value);
    KeptNormal(root);
    KeptNormal(value);
    PushLeading(Kept(root), Kept(value));
  }

  /** A sequence is found again in front exactly when what was cut off follows. */
  lemma PrefixRestored(base: seq<string>, cut: nat, rest: seq<string>)
    requires cut <= |base|
    ensures base <= base[..cut] + rest <==> base[cut..] <= rest
  {
    var joined := base[..cut] + rest;
    if base <= joined {
      assert forall i :: 0 <= i < |base| - cut ==> base[cut..][i] == base[cut + i] == joined[cut + i] == rest[i];
    }
    if base[cut..] <= rest {
      assert forall i :: cut <= i < |base| ==> base[i] == base[cut..][i - cut] == rest[i - cut] == joined[i];
    }
  }

  predicate Leaves(root: string, value: string) {
    !(Kept(root) <= Kept(JoinPath(Clean(root), value)))
  }

  /** The joined path is outside the root exactly when what follows the parents does not lead
      back down through the segments they took away. */
  lemma DecodedPathLeavesIff(root: string, value: string)
    requires IsAbs(root) && ValidRelativeWorkspace(value)
    ensures var base, v := Kept(root), Kept(value);
            Leaves(root, value) <==> !(base[Cut(base, Parents(v))..] <= v[Parents(v)..])
  {
    DecodedPathLeadsTo(root, value);
    PrefixRestored(Kept(root), Cut(Kept(root), Parents(Kept(value))), Kept(value)[Parents(Kept(value))..]);
  }

  /** resolveWorkspace's test lets none of those through. */
  lemma NoneThatLeavesIsInside(root: string, value: string)
    requires ValidRelativeWorkspace(value) && Inside(root, value)
    ensures !Leaves(root, value)
  {
    DecodedPathLeavesIff(root, value);
  }

  lemma OneUp(name: string)
    requires NoSlash(name) && name != "" && name != "." && name != ".." && ':' !in name
    ensures ValidRelativeWorkspace("../" + name) && Kept("../" + name) == ["..", name]
  {
    var kept := ["..", name];
    assert kept[1..] == [name] && Join(kept) == ".." + "/" + name == "../" + name;
    assert Normal(false, kept);
    KeptOfRender(false, kept);
  }

  /** Under every root but "/" some decoded value leads outside: it goes up and down again by
      another name. */
  lemma DecodedPathMayLeave(root: string)
    requires IsAbs(root) && Kept(root) != []
    ensures var value := if Kept(root)[|Kept(root)| - 1] == "x" then "../y" else "../x";
            ValidRelativeWorkspace(value) && Leaves(root, value)
  {
    var base := Kept(root);
    var name := if base[|base| - 1] == "x" then "y" else "x";
    OneUp(name);
    assert "../x" == "../" + "x" && "../y" == "../" + "y";
    assert Parents(["..", name]) == 1 + Parents(["..", name][1..]) == 1;
    DecodedPathLeavesIff(root, "../" + name);
    assert base[Cut(base, 1)..][0] == base[|base| - 1];
    assert ["..", name][1..] == [name];
  }

  /** And under every such root some decoded value begins with a parent and stays inside. */
  lemma DecodedPathMayReturn(root: string)
    requires IsAbs(root) && Kept(root) != [] && ':' !in Kept(root)[|Kept(root)| - 1]
    ensures var value := "../" + Kept(root)[|Kept(root)| - 1];
            ValidRelativeWorkspace(value) && !Leaves(root, value) && !Inside(root, value)
  {
    var base := Kept(root);
    var name := base[|base| - 1];
    KeptNormal(root);
    OneUp(name);
    assert Parents(["..", name]) == 1 + Parents(["..", name][1..]) == 1;
    DecodedPathLeavesIff(root, "../" + name);
    assert base[Cut(base, 1)..] == [name] == ["..", name][1..];
  }
}
