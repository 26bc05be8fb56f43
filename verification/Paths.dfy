/** Lexical paths as Go's path and path/filepath packages treat them on Unix: a path is a
    string, cleaning works on its segments. */
module Paths {

  // ---------- Splitting and joining at the slash ----------

  /** strings.Split(s, "/"). */
  function Split(s: string): (r: seq<string>)
    ensures r != []
  {
    if s == "" then [""]
    else if s[0] == '/' then [""] + Split(s[1..])
    else
      var rest := Split(s[1..]);
      [[s[0]] + rest[0]] + rest[1..]
  }

  /** strings.Join(segments, "/"). */
  function Join(segments: seq<string>): string {
    if segments == [] then ""
    else if |segments| == 1 then segments[0]
    else segments[0] + "/" + Join(segments[1..])
  }

  predicate NoSlash(s: string) {
    forall i :: 0 <= i < |s| ==> s[i] != '/'
  }

  predicate AllNoSlash(segments: seq<string>) {
    forall i :: 0 <= i < |segments| ==> NoSlash(segments[i])
  }

  lemma {:induction false} SplitNoSlash(s: string)
    ensures AllNoSlash(Split(s))
  {
    if s != "" { SplitNoSlash(s[1..]); }
  }

  lemma {:induction false} SplitPlain(s: string)
    requires NoSlash(s)
    ensures Split(s) == [s]
  {
    if s != "" {
      SplitPlain(s[1..]);
      assert [s[0]] + s[1..] == s;
    }
  }

  lemma SplitCons(c: char, s: string)
    ensures Split([c] + s) == if c == '/' then [""] + Split(s) else [[c] + Split(s)[0]] + Split(s)[1..]
  {
    assert ([c] + s)[1..] == s;
  }

  lemma GrowHead(c: char, x: seq<string>, y: seq<string>)
    requires x != []
    ensures [[c] + (x + y)[0]] + (x + y)[1..] == ([[c] + x[0]] + x[1..]) + y
    ensures [""] + (x + y) == ([""] + x) + y
  {}

  lemma {:induction false} SplitConcat(a: string, b: string)
    ensures Split(a + "/" + b) == Split(a) + Split(b)
  {
    if a == "" {
      assert a + "/" + b == ['/'] + b;
      SplitCons('/', b);
    } else {
      var rest := a[1..] + "/" + b;
      assert a + "/" + b == [a[0]] + rest && a == [a[0]] + a[1..];
      SplitConcat(a[1..], b);
      SplitCons(a[0], rest);
      SplitCons(a[0], a[1..]);
      GrowHead(a[0], Split(a[1..]), Split(b));
    }
  }

  lemma {:induction false} SplitJoin(segments: seq<string>)
    requires segments != [] && AllNoSlash(segments)
    ensures Split(Join(segments)) == segments
  {
    SplitPlain(segments[0]);
    if |segments| > 1 {
      var more := segments[1..];
      assert AllNoSlash(more);
      SplitJoin(more);
      SplitConcat(segments[0], Join(more));
      assert [segments[0]] + more == segments;
    }
  }

  lemma {:induction false} JoinSplit(s: string)
    ensures Join(Split(s)) == s
  {
    if s != "" {
      JoinSplit(s[1..]);
      var rest := Split(s[1..]);
      if s[0] == '/' {
        assert Split(s)[1..] == rest;
      } else if |rest| > 1 {
        assert Split(s)[1..] == rest[1..];
      }
      assert [s[0]] + s[1..] == s;
    }
  }

  // ---------- Cleaning ----------

  /** One segment is processed: empty and "." vanish, ".." takes back a real segment. */
  function Push(rooted: bool, kept: seq<string>, segment: string): seq<string> {
    if segment == "" || segment == "." then kept
    else if segment != ".." then kept + [segment]
    else if kept != [] && kept[|kept| - 1] != ".." then kept[..|kept| - 1]
    else if rooted then kept
    else kept + [".."]
  }

  function PushAll(rooted: bool, kept: seq<string>, segments: seq<string>): seq<string>
    decreases segments
  {
    if segments == [] then kept else PushAll(rooted, Push(rooted, kept, segments[0]), segments[1..])
  }

  predicate IsAbs(s: string) {
    s != "" && s[0] == '/'
  }

  /** The segments that survive cleaning. */
  function Kept(s: string): seq<string> {
    PushAll(IsAbs(s), [], Split(s))
  }

  function Render(rooted: bool, kept: seq<string>): string {
    if rooted then "/" + Join(kept)
    else if kept == [] then "."
    else Join(kept)
  }

  /** path.Clean and, on Unix, filepath.Clean. */
  function Clean(s: string): string {
    if s == "" then "." else Render(IsAbs(s), Kept(s))
  }

  /** filepath.Join of two elements. */
  function JoinPath(a: string, b: string): string {
    if a != "" then Clean(a + "/" + b) else if b != "" then Clean(b) else ""
  }

  /** path.Base: the last segment that is not empty. */
  function Base(s: string): string {
    if s == "" then "." else LastReal(Split(s))
  }

  function LastReal(segments: seq<string>): string {
    if segments == [] then "/"
    else if segments[|segments| - 1] != "" then segments[|segments| - 1]
    else LastReal(segments[..|segments| - 1])
  }

  /** A real segment, or a leading ".." of a relative path. */
  predicate Normal(rooted: bool, kept: seq<string>) {
    && AllNoSlash(kept)
    && (forall i :: 0 <= i < |kept| ==> kept[i] != "" && kept[i] != ".")
    && (forall i :: 0 <= i < |kept| && kept[i] == ".." ==> !rooted && forall j :: 0 <= j < i ==> kept[j] == "..")
  }

  lemma {:induction false} PushAllNormal(rooted: bool, kept: seq<string>, segments: seq<string>)
    requires Normal(rooted, kept) && AllNoSlash(segments)
    ensures Normal(rooted, PushAll(rooted, kept, segments))
    decreases segments
  {
    if segments != [] {
      var next := Push(rooted, kept, segments[0]);
      if segments[0] == ".." && kept != [] && kept[|kept| - 1] != ".." {
        assert forall i :: 0 <= i < |next| ==> next[i] == kept[i];
      }
      PushAllNormal(rooted, next, segments[1..]);
    }
  }

  /** Cleaning leaves ".." only in front, and nowhere in an absolute path. */
  lemma KeptNormal(s: string)
    ensures Normal(IsAbs(s), Kept(s))
  {
    SplitNoSlash(s);
    PushAllNormal(IsAbs(s), [], Split(s));
  }

  lemma {:induction false} PushAllConcat(rooted: bool, kept: seq<string>, a: seq<string>, b: seq<string>)
    ensures PushAll(rooted, kept, a + b) == PushAll(rooted, PushAll(rooted, kept, a), b)
    decreases a
  {
    if a == [] {
      assert a + b == b;
    } else {
      assert (a + b)[1..] == a[1..] + b;
      PushAllConcat(rooted, Push(rooted, kept, a[0]), a[1..], b);
    }
  }

  /** Segments that are already clean are kept as they are. */
  lemma {:induction false} PushAllClean(rooted: bool, kept: seq<string>, more: seq<string>)
    requires Normal(rooted, kept + more)
    ensures PushAll(rooted, kept, more) == kept + more
    decreases more
  {
    if more != [] {
      var all, s := kept + more, more[0];
      assert all[|kept|] == s;
      if s == ".." && kept != [] {
        assert all[|kept| - 1] == kept[|kept| - 1] == "..";
      }
      assert Push(rooted, kept, s) == kept + [s];
      assert (kept + [s]) + more[1..] == all;
      PushAllClean(rooted, kept + [s], more[1..]);
    } else {
      assert kept + more == kept;
    }
  }

  /** Segments without "..", pushed on anything, are appended. */
  lemma {:induction false} PushAllPlain(rooted: bool, kept: seq<string>, more: seq<string>)
    requires forall i :: 0 <= i < |more| ==> more[i] != "" && more[i] != "." && more[i] != ".."
    ensures PushAll(rooted, kept, more) == kept + more
    decreases more
  {
    if more == [] {
      assert kept + more == kept;
    } else {
      PushAllPlain(rooted, kept + [more[0]], more[1..]);
      assert (kept + [more[0]]) + more[1..] == kept + more;
    }
  }

  lemma FirstChar(kept: seq<string>)
    requires kept != [] && AllNoSlash(kept) && kept[0] != ""
    ensures Join(kept) != "" && Join(kept)[0] == kept[0][0] && !IsAbs(Join(kept))
  {}

  /** Reading back what was rendered gives the same segments. */
  lemma KeptOfRender(rooted: bool, kept: seq<string>)
    requires Normal(rooted, kept)
    ensures Kept(Render(rooted, kept)) == kept && IsAbs(Render(rooted, kept)) == rooted
    ensures Render(rooted, kept) != ""
  {
    var s := Render(rooted, kept);
    if rooted {
      assert s[1..] == Join(kept);
      assert Split(s) == [""] + Split(Join(kept));
      assert Kept(s) == PushAll(true, [], Split(Join(kept))) by {
        assert Split(s)[1..] == Split(Join(kept));
      }
      if kept == [] {
        assert PushAll(true, [], [""]) == PushAll(true, [], [""][1..]) == [];
      } else {
        SplitJoin(kept);
        assert [] + kept == kept;
        PushAllClean(true, [], kept);
      }
    } else if kept == [] {
      SplitPlain(".");
      assert PushAll(false, [], ["."]) == PushAll(false, [], ["."][1..]) == [];
    } else {
      FirstChar(kept);
      SplitJoin(kept);
      assert [] + kept == kept;
      PushAllClean(false, [], kept);
    }
  }

  /** Cleaning twice is cleaning once. */
  lemma CleanIdempotent(s: string)
    ensures Clean(Clean(s)) == Clean(s)
  {
    if s == "" {
      KeptOfRender(false, []);
    } else {
      KeptNormal(s);
      KeptOfRender(IsAbs(s), Kept(s));
    }
  }

  /** A clean base with clean segments below it is joined by writing them one after the other. */
  lemma JoinBelow(base: seq<string>, below: seq<string>)
    requires Normal(true, base) && Normal(true, below) && below != []
    ensures JoinPath(Render(true, base), Join(below)) == Render(true, base + below)
    ensures Normal(true, base + below)
  {
    var a, b := Render(true, base), Join(below);
    KeptOfRender(true, base);
    SplitConcat(a, b);
    SplitJoin(below);
    var whole := a + "/" + b;
    assert IsAbs(whole) && whole[0] == a[0];
    PushAllConcat(true, [], Split(a), Split(b));
    PushAllPlain(true, base, below);
  }

  // ---------- What cleaning does to a path ----------

  /** A path is processed up to any slash, and then on from there. */
  lemma KeptAcross(a: string, b: string)
    requires a != ""
    ensures Kept(a + "/" + b) == PushAll(IsAbs(a), Kept(a), Split(b))
  {
    SplitConcat(a, b);
    PushAllConcat(IsAbs(a), [], Split(a), Split(b));
    assert (a + "/" + b)[0] == a[0];
  }

  lemma PushOne(rooted: bool, kept: seq<string>, segment: string)
    requires NoSlash(segment)
    ensures PushAll(rooted, kept, Split(segment)) == Push(rooted, kept, segment)
  {
    SplitPlain(segment);
    assert [segment][1..] == [];
  }

  lemma SameClean(a: string, b: string)
    requires a != "" && b != "" && IsAbs(a) == IsAbs(b) && Kept(a) == Kept(b)
    ensures Clean(a) == Clean(b)
  {}

  /** Doubled slashes and slashes at the end are one, a dot is nothing, and a segment followed by
      a parent is nothing, wherever they stand. */
  lemma CleanLaws(a: string, b: string, name: string)
    requires a != "" && NoSlash(name) && name != "" && name != "." && name != ".."
    ensures Clean(a + "/") == Clean(a)
    ensures Clean(a + "/" + ".") == Clean(a)
    ensures Clean(a + "/" + name + "/" + "..") == Clean(a)
    ensures Clean(a + "/" + "/" + b) == Clean(a + "/" + b)
    ensures Clean(a + "/" + "." + "/" + b) == Clean(a + "/" + b)
    ensures Clean(a + "/" + name + "/" + ".." + "/" + b) == Clean(a + "/" + b)
  {
    NothingAdded(a, "");
    NothingAdded(a, ".");
    NamedAndLeft(a, name);
    assert a + "/" + "" == a + "/";
    assert (a + "/") + "/" + b == a + "/" + "/" + b;
    CleanAfter(a + "/", a, b);
    CleanAfter(a + "/" + ".", a, b);
    CleanAfter(a + "/" + name + "/" + "..", a, b);
  }

  lemma NothingAdded(a: string, segment: string)
    requires a != "" && (segment == "" || segment == ".")
    ensures var s := a + "/" + segment;
            s != "" && IsAbs(s) == IsAbs(a) && Kept(s) == Kept(a) && Clean(s) == Clean(a)
  {
    KeptAcross(a, segment);
    PushOne(IsAbs(a), Kept(a), segment);
    assert (a + "/" + segment)[0] == a[0];
  }

  lemma NamedAndLeft(a: string, name: string)
    requires a != "" && NoSlash(name) && name != "" && name != "." && name != ".."
    ensures var s := a + "/" + name + "/" + "..";
            s != "" && IsAbs(s) == IsAbs(a) && Kept(s) == Kept(a) && Clean(s) == Clean(a)
  {
    var t := a + "/" + name;
    KeptAcross(a, name);
    PushOne(IsAbs(a), Kept(a), name);
    KeptAcross(t, "..");
    PushOne(IsAbs(a), Kept(t), "..");
    assert t[0] == a[0] && (t + "/" + "..")[0] == a[0];
    assert (Kept(a) + [name])[..|Kept(a)|] == Kept(a);
  }

  lemma CleanAfter(s: string, a: string, b: string)
    requires s != "" && a != "" && IsAbs(s) == IsAbs(a) && Kept(s) == Kept(a)
    ensures Clean(s + "/" + b) == Clean(a + "/" + b)
  {
    KeptAcross(s, b);
    KeptAcross(a, b);
    assert (s + "/" + b)[0] == s[0] && (a + "/" + b)[0] == a[0];
    SameClean(s + "/" + b, a + "/" + b);
  }

  /** A leading parent of a relative path stays. */
  lemma LeadingParentStays(name: string)
    requires NoSlash(name) && name != "" && name != "." && name != ".."
    ensures Kept("..") == [".."] && Kept("../" + name) == ["..", name] && Kept(name) == [name]
  {
    KeptOfRender(false, [".."]);
    KeptOfRender(false, [name]);
    KeptAcross("..", name);
    PushOne(false, [".."], name);
    assert ".." + "/" + name == "../" + name;
  }

  /** A parent at the root stays at the root. */
  lemma RootHasNoParent(b: string)
    ensures Clean("/" + ".." + "/" + b) == Clean("/" + b)
  {
    SplitConcat("", ".." + "/" + b);
    SplitConcat("..", b);
    SplitConcat("", b);
    SplitPlain("..");
    assert "/" + ".." + "/" + b == "" + "/" + (".." + "/" + b) && "/" + b == "" + "/" + b;
    assert Split("") == [""];
    var down := Split(b);
    PushAllConcat(true, [], [""], [".."] + down);
    PushAllConcat(true, [], [""], down);
    PushAllConcat(true, [], [".."], down);
    assert PushAll(true, [], [""]) == PushAll(true, [], [""][1..]) == [];
    assert PushAll(true, [], [".."]) == PushAll(true, [], [".."][1..]) == [];
  }
}
