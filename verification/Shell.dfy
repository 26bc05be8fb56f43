/** internal/modeldeploy/manager.go: the shell command that copies model files, read back by
    the rules of the POSIX Shell Command Language: escape character (section 2.2.1), single
    quotes (2.2.2) and token recognition (2.3). The reader refuses every unquoted character
    that would start an expansion, a redirection, a comment or another operator than "&&". */
module Shell {
  import opened Common
  import opened Paths
  import Workspace

  // ---------- Reading a command line ----------

  /** Unquoted characters the reader does not give a meaning to. */
  predicate Refused(c: char) {
    || c == '|' || c == ';' || c == '<' || c == '>' || c == '(' || c == ')' || c == '$' || c == '`' || c == '"'
    || c == '\n' || c == '*' || c == '?' || c == '[' || c == ']' || c == '#' || c == '~' || c == '=' || c == '%'
    || c == '{' || c == '}'
  }

  predicate Blank(c: char) {
    c == ' ' || c == '\t'
  }

  /** An ordinary character of an unquoted word. */
  predicate Ordinary(c: char) {
    !Refused(c) && !Blank(c) && c != '\'' && c != '\\' && c != '&'
  }

  /** What has been read: finished commands, finished words of this command, the word under way. */
  datatype Progress = Progress(list: seq<seq<string>>, words: seq<string>, word: Option<string>)

  const START := Progress([], [], None)

  function Extend(p: Progress, s: string): Progress {
    p.(word := Some(if p.word.Some? then p.word.value + s else s))
  }

  function EndWord(p: Progress): Progress {
    if p.word.None? then p else p.(words := p.words + [p.word.value], word := None)
  }

  function EndCommand(p: Progress): Progress {
    Progress(p.list + [EndWord(p).words], [], None)
  }

  /** The AND-list of simple commands a string stands for, each a list of words. */
  function Read(s: string, quoted: bool, p: Progress): Option<seq<seq<string>>>
    decreases |s|
  {
    if s == "" then
      if quoted || EndWord(p).words == [] then None else Some(EndCommand(p).list)
    else if quoted then
      if s[0] == '\'' then Read(s[1..], false, p) else Read(s[1..], true, Extend(p, [s[0]]))
    else if s[0] == '\'' then Read(s[1..], true, Extend(p, ""))
    else if s[0] == '\\' then
      if |s| == 1 then None
      else if s[1] == '\n' then Read(s[2..], false, p)
      else Read(s[2..], false, Extend(p, [s[1]]))
    else if Blank(s[0]) then Read(s[1..], false, EndWord(p))
    else if s[0] == '&' then
      if |s| == 1 || s[1] != '&' || EndWord(p).words == [] then None
      else Read(s[2..], false, EndCommand(p))
    else if Refused(s[0]) then None
    else Read(s[1..], false, Extend(p, [s[0]]))
  }

  function Parse(s: string): Option<seq<seq<string>>> {
    Read(s, false, START)
  }

  // ---------- Quoting ----------

  function EscapeChar(c: char): string {
    if c == '\'' then "'\\''" else [c]
  }

  /** strings.ReplaceAll(value, "'", `'\''`). */
  function Escape(v: string): string {
    if v == "" then "" else EscapeChar(v[0]) + Escape(v[1..])
  }

  function Quote(v: string): string {
    "'" + Escape(v) + "'"
  }

  lemma ExtendTwice(p: Progress, a: string, b: string)
    ensures Extend(Extend(p, a), b) == Extend(p, a + b)
  {
    if p.word.Some? {
      assert (p.word.value + a) + b == p.word.value + (a + b);
    }
  }

  lemma ReadOpenQuote(rest: string, p: Progress)
    ensures Read("'" + rest, false, p) == Read(rest, true, Extend(p, ""))
  {
    assert ("'" + rest)[1..] == rest;
  }

  lemma ReadCloseQuote(rest: string, p: Progress)
    ensures Read("'" + rest, true, p) == Read(rest, false, p)
  {
    assert ("'" + rest)[1..] == rest;
  }

  lemma ReadBackslash(c: char, rest: string, p: Progress)
    requires c != '\n'
    ensures Read("\\" + [c] + rest, false, p) == Read(rest, false, Extend(p, [c]))
  {
    var s := "\\" + [c] + rest;
    assert s[0] == '\\' && s[1] == c && s[2..] == rest;
  }

  /** Inside the quotes one escaped character adds that character. */
  lemma ReadEscapedChar(c: char, rest: string, p: Progress)
    requires p.word.Some?
    ensures Read(EscapeChar(c) + rest, true, p) == Read(rest, true, Extend(p, [c]))
  {
    if c == '\'' {
      var t := "'" + rest;
      var u := "\\" + [c] + t;
      assert EscapeChar(c) + rest == "'" + u;
      ReadCloseQuote(u, p);
      ReadBackslash(c, t, p);
      ReadOpenQuote(rest, Extend(p, [c]));
      ExtendTwice(p, [c], "");
      assert [c] + "" == [c];
    } else {
      assert ([c] + rest)[1..] == rest;
    }
  }

  /** Inside the quotes every character stands for itself. */
  lemma {:induction false} ReadEscaped(v: string, rest: string, p: Progress)
    requires p.word.Some?
    ensures Read(Escape(v) + "'" + rest, true, p) == Read(rest, false, Extend(p, v))
    decreases |v|
  {
    if v == "" {
      assert Escape(v) + "'" + rest == "'" + rest;
      ReadCloseQuote(rest, p);
      assert p.word.value + "" == p.word.value;
    } else {
      var tail := Escape(v[1..]) + "'" + rest;
      assert Escape(v) + "'" + rest == EscapeChar(v[0]) + tail;
      ReadEscapedChar(v[0], tail, p);
      ReadEscaped(v[1..], rest, Extend(p, [v[0]]));
      ExtendTwice(p, [v[0]], v[1..]);
      assert [v[0]] + v[1..] == v;
    }
  }

  /** A quoted string continues the word under way by exactly the string. */
  lemma ReadQuoted(v: string, rest: string, p: Progress)
    ensures Read(Quote(v) + rest, false, p) == Read(rest, false, Extend(p, v))
  {
    var inner := Escape(v) + "'" + rest;
    assert Quote(v) + rest == "'" + inner;
    ReadOpenQuote(inner, p);
    ReadEscaped(v, rest, Extend(p, ""));
    ExtendTwice(p, "", v);
    assert "" + v == v;
  }

  lemma ReadEnd(p: Progress)
    requires p.word.Some?
    ensures Read("", false, p) == Some(EndCommand(p).list)
  {}

  /** For every string: its quoted form reads back as the single word it is. */
  lemma QuoteRoundTrip(v: string)
    ensures Parse(Quote(v)) == Some([[v]])
  {
    ReadQuoted(v, "", START);
    assert Quote(v) + "" == Quote(v);
    ReadEnd(Extend(START, v));
    assert EndWord(Extend(START, v)).words == [v] && START.list + [[v]] == [[v]];
  }

  // ---------- Whole command lines ----------

  /** A word of the command under construction. */
  datatype Arg = Literal(text: string) | Quoted(text: string)

  predicate Sound(a: Arg) {
    a.Literal? ==> a.text != "" && forall i :: 0 <= i < |a.text| ==> Ordinary(a.text[i])
  }

  function Write(a: Arg): string {
    if a.Literal? then a.text else Quote(a.text)
  }

  /** Words separated by one space. */
  function WriteCommand(c: seq<Arg>): string {
    if c == [] then ""
    else if |c| == 1 then Write(c[0])
    else Write(c[0]) + " " + WriteCommand(c[1..])
  }

  function WriteList(cs: seq<seq<Arg>>): string {
    if cs == [] then ""
    else if |cs| == 1 then WriteCommand(cs[0])
    else WriteCommand(cs[0]) + " && " + WriteList(cs[1..])
  }

  function Texts(c: seq<Arg>): (r: seq<string>)
    ensures |r| == |c|
  {
    seq(|c|, i requires 0 <= i < |c| => c[i].text)
  }

  function AllTexts(cs: seq<seq<Arg>>): (r: seq<seq<string>>)
    ensures |r| == |cs|
  {
    seq(|cs|, i requires 0 <= i < |cs| => Texts(cs[i]))
  }

  lemma {:induction false} ReadLiteral(text: string, rest: string, p: Progress)
    requires text != "" && forall i :: 0 <= i < |text| ==> Ordinary(text[i])
    ensures Read(text + rest, false, p) == Read(rest, false, Extend(p, text))
    decreases |text|
  {
    var s := text + rest;
    assert s[0] == text[0] && s[1..] == text[1..] + rest && Ordinary(text[0]);
    assert Read(s, false, p) == Read(s[1..], false, Extend(p, [text[0]]));
    if |text| > 1 {
      ReadLiteral(text[1..], rest, Extend(p, [text[0]]));
      assert [text[0]] + text[1..] == text;
      if p.word.Some? { assert (p.word.value + [text[0]]) + text[1..] == p.word.value + text; }
    } else {
      assert text[1..] + rest == rest && [text[0]] == text;
    }
  }

  lemma ReadArg(a: Arg, rest: string, p: Progress)
    requires Sound(a) && p.word.None?
    ensures Read(Write(a) + rest, false, p) == Read(rest, false, p.(word := Some(a.text)))
  {
    if a.Literal? { ReadLiteral(a.text, rest, p); } else { ReadQuoted(a.text, rest, p); }
  }

  lemma ReadSpace(rest: string, p: Progress)
    ensures Read(" " + rest, false, p) == Read(rest, false, EndWord(p))
  {
    assert (" " + rest)[1..] == rest;
  }

  /** Where the reader stands after a written command: its last word is under way. */
  function Behind(c: seq<Arg>, p: Progress): Progress
    requires c != []
    decreases |c|
  {
    var q := p.(word := Some(c[0].text));
    if |c| == 1 then q else Behind(c[1..], EndWord(q))
  }

  lemma {:induction false} BehindTexts(c: seq<Arg>, p: Progress)
    requires c != []
    ensures Behind(c, p).word.Some? && Behind(c, p).list == p.list
    ensures EndWord(Behind(c, p)).words == p.words + Texts(c)
    decreases |c|
  {
    if |c| == 1 {
      assert Texts(c) == [c[0].text];
    } else {
      BehindTexts(c[1..], EndWord(p.(word := Some(c[0].text))));
      assert (p.words + [c[0].text]) + Texts(c[1..]) == p.words + Texts(c);
    }
  }

  lemma {:induction false} ReadCommand(c: seq<Arg>, rest: string, p: Progress)
    requires SoundCommand(c) && p.word.None?
    ensures Read(WriteCommand(c) + rest, false, p) == Read(rest, false, Behind(c, p))
    decreases |c|
  {
    assert c[0] in c;
    if |c| == 1 {
      ReadArg(c[0], rest, p);
    } else {
      var a, t, q := c[0], c[1..], p.(word := Some(c[0].text));
      assert SoundCommand(t);
      var more := WriteCommand(t) + rest;
      Regroup(Write(a), " ", WriteCommand(t), rest);
      ReadArg(a, " " + more, p);
      ReadSpace(more, q);
      ReadCommand(t, rest, EndWord(q));
    }
  }

  lemma Regroup(a: string, b: string, c: string, d: string)
    ensures (a + b + c) + d == a + (b + (c + d))
    ensures a + b + c == a + (b + c)
  {}

  lemma ReadAnd(rest: string, q: Progress)
    requires q.word.Some?
    ensures Read(" && " + rest, false, q) == Read(rest, false, EndCommand(q))
  {
    var t := "&& " + rest;
    assert " && " + rest == " " + t;
    ReadSpace(t, q);
    assert t[0] == '&' && t[1] == '&' && t[2..] == " " + rest;
    ReadSpace(rest, EndCommand(q));
  }

  predicate SoundCommand(c: seq<Arg>) {
    c != [] && forall a :: a in c ==> Sound(a)
  }

  predicate AllSound(cs: seq<seq<Arg>>) {
    forall c :: c in cs ==> SoundCommand(c)
  }

  lemma AfterCommand(c: seq<Arg>, list: seq<seq<string>>)
    requires c != []
    ensures var q := Behind(c, Progress(list, [], None));
            q.word.Some? && EndCommand(q) == Progress(list + [Texts(c)], [], None)
  {
    BehindTexts(c, Progress(list, [], None));
    assert [] + Texts(c) == Texts(c);
  }

  lemma TextsOfMore(list: seq<seq<string>>, cs: seq<seq<Arg>>)
    requires cs != []
    ensures (list + [Texts(cs[0])]) + AllTexts(cs[1..]) == list + AllTexts(cs)
  {}

  /** A written list reads back as the words it was written from. */
  lemma {:induction false} ReadList(cs: seq<seq<Arg>>, list: seq<seq<string>>)
    requires cs != [] && AllSound(cs)
    ensures Read(WriteList(cs), false, Progress(list, [], None)) == Some(list + AllTexts(cs))
    decreases |cs|
  {
    var c, p := cs[0], Progress(list, [], None);
    assert c in cs;
    AfterCommand(c, list);
    TextsOfMore(list, cs);
    if |cs| == 1 {
      assert WriteList(cs) == WriteCommand(c) + "";
      ReadCommand(c, "", p);
      ReadEnd(Behind(c, p));
      assert (list + [Texts(c)]) + AllTexts(cs[1..]) == list + [Texts(c)];
    } else {
      var more := cs[1..];
      Regroup(WriteCommand(c), " && ", WriteList(more), "");
      ReadCommand(c, " && " + WriteList(more), p);
      ReadAnd(WriteList(more), Behind(c, p));
      ReadList(more, list + [Texts(c)]);
    }
  }

  lemma {:induction false} WriteListAppend(cs: seq<seq<Arg>>, c: seq<Arg>)
    requires cs != []
    ensures WriteList(cs + [c]) == WriteList(cs) + (" && " + WriteCommand(c))
  {
    var all := cs + [c];
    if |cs| == 1 {
      assert all[0] == cs[0] && all[1..] == [c];
      assert WriteList([c]) == WriteCommand(c);
    } else {
      assert all[0] == cs[0] && all[1..] == cs[1..] + [c];
      WriteListAppend(cs[1..], c);
      Reassociate(WriteCommand(cs[0]), WriteList(cs[1..]), " && " + WriteCommand(c));
    }
  }

  lemma Reassociate(a: string, b: string, c: string)
    ensures a + " && " + (b + c) == (a + " && " + b) + c
  {}

  // ---------- The command of Deploy ----------

  const STUDENT_ROOT := "/home/student"
  const TARGET_ROOT := "/usr/local/zy-T100/utils_x86/models/A"
  const CONFIG_TARGET_ROOT := "/usr/local/zy-T100/utils_x86"
  const OBJECT_DETECTOR := "/usr/local/zy-T100/utils_x86/object_detector.py"

  datatype Payload = Payload(modelPath: string, configPath: string, overwrite: bool)

  function Source(path: string): string {
    JoinPath(STUDENT_ROOT, path)
  }

  function Copy(overwrite: bool, source: string, target: string): seq<Arg> {
    [Literal("cp")] + (if overwrite then [Literal("-f")] else []) + [Literal("--"), Quoted(source), Quoted(target)]
  }

  function Absent(target: string): seq<Arg> {
    [Literal("test"), Literal("!"), Literal("-e"), Quoted(target)]
  }

  /** The commands that are meant, in order. */
  function Plan(overwrite: bool, detector: bool, root: string, modelSource: string, modelTarget: string,
                configSource: string, configTarget: string, detectorTarget: string): seq<seq<Arg>>
  {
    [[Literal("mkdir"), Literal("-p"), Quoted(root)]]
    + (if overwrite then [] else [Absent(modelTarget), Absent(configTarget)])
    + [Copy(overwrite, modelSource, modelTarget), Copy(overwrite, configSource, configTarget)]
    + (if detector then [Copy(overwrite, configSource, detectorTarget)] else [])
  }

  function Intended(p: Payload): seq<seq<Arg>> {
    Plan(p.overwrite, Base(p.configPath) == "object_detector.py", TARGET_ROOT,
         Source(p.modelPath), JoinPath(TARGET_ROOT, Base(p.modelPath)),
         Source(p.configPath), JoinPath(CONFIG_TARGET_ROOT, Base(p.configPath)), OBJECT_DETECTOR)
  }

  // ---------- Writing the pieces ----------

  lemma WriteTwo(a: Arg, b: Arg)
    ensures WriteCommand([a, b]) == Write(a) + " " + Write(b)
  {
    assert [a, b][1..] == [b];
  }

  lemma WriteMore(a: Arg, c: seq<Arg>)
    requires c != []
    ensures WriteCommand([a] + c) == Write(a) + " " + WriteCommand(c)
  {
    assert ([a] + c)[1..] == c;
  }

  /** Literal words in front of the rest: one string. */
  lemma GlueTwo(a: string, b: string, rest: string)
    ensures a + " " + (b + " " + rest) == (a + " " + b + " ") + rest
  {}

  lemma WriteMkdir(target: string)
    ensures WriteCommand([Literal("mkdir"), Literal("-p"), Quoted(target)]) == "mkdir -p " + Quote(target)
  {
    var c := [Literal("-p"), Quoted(target)];
    assert [Literal("mkdir"), Literal("-p"), Quoted(target)] == [Literal("mkdir")] + c;
    WriteMore(Literal("mkdir"), c);
    WriteTwo(Literal("-p"), Quoted(target));
    GlueTwo("mkdir", "-p", Quote(target));
    assert "mkdir" + " " + "-p" + " " == "mkdir -p ";
  }

  lemma GlueThree(a: string, b: string, c: string, rest: string)
    ensures a + " " + (b + " " + (c + " " + rest)) == (a + " " + b + " " + c + " ") + rest
  {}

  lemma WriteAbsent(target: string)
    ensures WriteCommand(Absent(target)) == "test ! -e " + Quote(target)
  {
    var c := [Literal("-e"), Quoted(target)];
    assert Absent(target) == [Literal("test")] + ([Literal("!")] + c);
    WriteMore(Literal("test"), [Literal("!")] + c);
    WriteMore(Literal("!"), c);
    WriteTwo(Literal("-e"), Quoted(target));
    GlueThree("test", "!", "-e", Quote(target));
    assert "test" + " " + "!" + " " + "-e" + " " == "test ! -e ";
  }

  lemma WriteTail(source: string, target: string)
    ensures WriteCommand([Literal("--"), Quoted(source), Quoted(target)]) == "-- " + Quote(source) + " " + Quote(target)
  {
    assert [Literal("--"), Quoted(source), Quoted(target)] == [Literal("--")] + [Quoted(source), Quoted(target)];
    WriteMore(Literal("--"), [Quoted(source), Quoted(target)]);
    WriteTwo(Quoted(source), Quoted(target));
    assert "--" + " " == "-- ";
    assert "--" + " " + (Quote(source) + " " + Quote(target)) == ("--" + " ") + Quote(source) + " " + Quote(target);
  }

  lemma GlueFour(a: string, b: string, c: string, s: string, t: string)
    ensures a + " " + (b + " " + (c + s + " " + t)) == a + (" " + b) + (" " + c) + s + " " + t
    ensures a + " " + (c + s + " " + t) == a + "" + (" " + c) + s + " " + t
  {
    assert a + "" == a;
  }

  lemma WriteCopy(overwrite: bool, source: string, target: string)
    ensures WriteCommand(Copy(overwrite, source, target))
         == "cp" + (if overwrite then " -f" else "") + " -- " + Quote(source) + " " + Quote(target)
  {
    var tail := [Literal("--"), Quoted(source), Quoted(target)];
    WriteTail(source, target);
    GlueFour("cp", "-f", "-- ", Quote(source), Quote(target));
    assert " " + "-- " == " -- " && " " + "-f" == " -f";
    if overwrite {
      assert Copy(overwrite, source, target) == [Literal("cp")] + ([Literal("-f")] + tail);
      WriteMore(Literal("cp"), [Literal("-f")] + tail);
      WriteMore(Literal("-f"), tail);
    } else {
      assert Copy(overwrite, source, target) == [Literal("cp")] + tail;
      WriteMore(Literal("cp"), tail);
    }
  }

  lemma ShortLiteralsSound()
    ensures Sound(Literal("-p")) && Sound(Literal("!")) && Sound(Literal("-e")) && Sound(Literal("cp"))
    ensures Sound(Literal("-f")) && Sound(Literal("--"))
  {}

  lemma LongLiteralsSound()
    ensures Sound(Literal("mkdir")) && Sound(Literal("test"))
  {}

  lemma CommandsSound(overwrite: bool, source: string, target: string)
    ensures SoundCommand([Literal("mkdir"), Literal("-p"), Quoted(target)])
    ensures SoundCommand(Absent(target)) && SoundCommand(Copy(overwrite, source, target))
  {
    ShortLiteralsSound();
    LongLiteralsSound();
  }

  /** One more command behind the others. */
  lemma Appended(cs: seq<seq<Arg>>, c: seq<Arg>, command: string, piece: string)
    requires cs != [] && AllSound(cs) && SoundCommand(c)
    requires command == WriteList(cs) && piece == " && " + WriteCommand(c)
    ensures AllSound(cs + [c]) && WriteList(cs + [c]) == command + piece
  {
    WriteListAppend(cs, c);
  }

  /** The string is built piece by piece; for every payload it parses to exactly the
      intended AND-list, each argument being the one word it is meant to be. */
  method DeployCommand(p: Payload) returns (command: string)
    ensures Parse(command) == Some(AllTexts(Intended(p)))
    ensures forall fs :: Deployed(p, fs, RunList(Parse(command).value, fs))
  {
    forall fs ensures Deployed(p, fs, RunList(AllTexts(Intended(p)), fs)) {
      IntendedDeploys(p, fs);
    }
    var modelSource, configSource := JoinPath(STUDENT_ROOT, p.modelPath), JoinPath(STUDENT_ROOT, p.configPath);
    var modelTarget := JoinPath(TARGET_ROOT, Base(p.modelPath));
    var configTarget := JoinPath(CONFIG_TARGET_ROOT, Base(p.configPath));
    command := BuildCommand(p.overwrite, Base(p.configPath) == "object_detector.py", TARGET_ROOT,
                            modelSource, modelTarget, configSource, configTarget, OBJECT_DETECTOR);
  }

  method BuildCommand(overwrite: bool, detector: bool, root: string, modelSource: string, modelTarget: string,
                      configSource: string, configTarget: string, detectorTarget: string)
    returns (command: string)
    ensures Parse(command) == Some(AllTexts(Plan(overwrite, detector, root, modelSource, modelTarget,
                                                 configSource, configTarget, detectorTarget)))
  {
    ghost var cs;
    command, cs := BeginCommand(root);
    if !overwrite {
      command, cs := AddAbsent(command, cs, modelTarget);
      command, cs := AddAbsent(command, cs, configTarget);
    }
    command, cs := AddCopy(command, cs, overwrite, modelSource, modelTarget);
    command, cs := AddCopy(command, cs, overwrite, configSource, configTarget);
    if detector {
      command, cs := AddCopy(command, cs, overwrite, configSource, detectorTarget);
    }
    ReadList(cs, []);
    assert [] + AllTexts(cs) == AllTexts(cs);
    assert cs == Plan(overwrite, detector, root, modelSource, modelTarget, configSource, configTarget, detectorTarget);
  }

  method BeginCommand(target: string) returns (command: string, ghost cs: seq<seq<Arg>>)
    ensures cs == [[Literal("mkdir"), Literal("-p"), Quoted(target)]]
    ensures AllSound(cs) && command == WriteList(cs)
  {
    command := "mkdir -p " + Quote(target);
    cs := [[Literal("mkdir"), Literal("-p"), Quoted(target)]];
    WriteMkdir(target);
    CommandsSound(false, "", target);
  }

  lemma GlueAbsent(a: string, b: string, t: string)
    ensures (a + b) + t == a + (b + t)
  {}

  method AddAbsent(before: string, ghost cs: seq<seq<Arg>>, target: string)
    returns (command: string, ghost cs': seq<seq<Arg>>)
    requires cs != [] && AllSound(cs) && before == WriteList(cs)
    ensures cs' == cs + [Absent(target)] && AllSound(cs') && command == WriteList(cs')
  {
    command := before + (" && test ! -e " + Quote(target));
    cs' := cs + [Absent(target)];
    PieceAbsent(target);
    CommandsSound(false, "", target);
    Appended(cs, Absent(target), before, " && test ! -e " + Quote(target));
  }

  lemma PieceAbsent(target: string)
    ensures " && test ! -e " + Quote(target) == " && " + WriteCommand(Absent(target))
  {
    WriteAbsent(target);
    assert " && test ! -e " == " && " + "test ! -e ";
    GlueAbsent(" && ", "test ! -e ", Quote(target));
  }

  lemma GlueCopy(a: string, b: string, f: string, d: string, s: string, t: string)
    ensures (a + b) + f + d + s + " " + t == a + (b + f + d + s + " " + t)
  {}

  lemma PieceCopy(overwrite: bool, source: string, target: string)
    ensures " && cp" + (if overwrite then " -f" else "") + " -- " + Quote(source) + " " + Quote(target)
         == " && " + WriteCommand(Copy(overwrite, source, target))
  {
    WriteCopy(overwrite, source, target);
    assert " && cp" == " && " + "cp";
    GlueCopy(" && ", "cp", if overwrite then " -f" else "", " -- ", Quote(source), Quote(target));
  }

  method AddCopy(before: string, ghost cs: seq<seq<Arg>>, overwrite: bool, source: string, target: string)
    returns (command: string, ghost cs': seq<seq<Arg>>)
    requires cs != [] && AllSound(cs) && before == WriteList(cs)
    ensures cs' == cs + [Copy(overwrite, source, target)] && AllSound(cs') && command == WriteList(cs')
  {
    var force := if overwrite then " -f" else "";
    var piece := " && cp" + force + " -- " + Quote(source) + " " + Quote(target);
    command := before + piece;
    cs' := cs + [Copy(overwrite, source, target)];
    PieceCopy(overwrite, source, target);
    CommandsSound(overwrite, source, target);
    Appended(cs, Copy(overwrite, source, target), before, piece);
  }

  // ---------- What the command does ----------

  /** Regular files and their contents. */
  type Files = map<string, string>

  datatype Ran = Ran(files: Files, ok: bool)

  function CopyFile(fs: Files, source: string, target: string): Ran {
    if source in fs && source != target then Ran(fs[target := fs[source]], true) else Ran(fs, false)
  }

  /** The three utilities; anything else fails. */
  function RunCommand(words: seq<string>, fs: Files): Ran {
    if |words| == 3 && words[0] == "mkdir" && words[1] == "-p" then Ran(fs, true)
    else if |words| == 4 && words[0] == "test" && words[1] == "!" && words[2] == "-e" then Ran(fs, words[3] !in fs)
    else if |words| == 4 && words[0] == "cp" && words[1] == "--" then CopyFile(fs, words[2], words[3])
    else if |words| == 5 && words[0] == "cp" && words[1] == "-f" && words[2] == "--" then
      CopyFile(fs, words[3], words[4])
    else Ran(fs, false)
  }

  /** An AND-list runs up to its first failure. */
  function RunList(commands: seq<seq<string>>, fs: Files): Ran {
    if commands == [] then Ran(fs, true)
    else
      var first := RunCommand(commands[0], fs);
      if first.ok then RunList(commands[1..], first.files) else first
  }

  /** What deploying means. Without overwriting, a file at either target stops it before anything
      is changed. Otherwise, when both sources are there and no two of the paths involved clash,
      the model target ends as the model source, the config target as the config source, and so
      does the object detector if that is the config's name; every other file stays. */
  ghost predicate DeployedAt(overwrite: bool, named: bool, model: string, modelTarget: string, config: string,
                             configTarget: string, detector: string, before: Files, after: Ran)
  {
    if !overwrite && (modelTarget in before || configTarget in before) then after == Ran(before, false)
    else if model !in before then after == Ran(before, false)
    else
      Apart(model, modelTarget, config, configTarget, detector) ==>
        && (after.ok <==> config in before)
        && modelTarget in after.files && after.files[modelTarget] == before[model]
        && (config in before ==> configTarget in after.files && after.files[configTarget] == before[config])
        && (config in before && named ==> detector in after.files && after.files[detector] == before[config])
        && forall n :: n != modelTarget && (config in before ==> n != configTarget && (named ==> n != detector)) ==>
             && (n in before <==> n in after.files)
             && (n in before ==> after.files[n] == before[n])
  }

  /** No file is copied over itself, the config source survives the first copy, and the model
      survives the copies behind it. */
  predicate Apart(model: string, modelTarget: string, config: string, configTarget: string, detector: string) {
    && model != modelTarget && config != modelTarget && config != configTarget && config != detector
    && modelTarget != configTarget && modelTarget != detector
  }

  ghost predicate Deployed(p: Payload, before: Files, after: Ran) {
    DeployedAt(p.overwrite, Base(p.configPath) == "object_detector.py",
               JoinPath("/home/student", p.modelPath),
               JoinPath("/usr/local/zy-T100/utils_x86/models/A", Base(p.modelPath)),
               JoinPath("/home/student", p.configPath),
               JoinPath("/usr/local/zy-T100/utils_x86", Base(p.configPath)),
               "/usr/local/zy-T100/utils_x86/object_detector.py", before, after)
  }

  lemma RunCons(c: seq<string>, rest: seq<seq<string>>, fs: Files)
    ensures RunList([c] + rest, fs)
         == if RunCommand(c, fs).ok then RunList(rest, RunCommand(c, fs).files) else RunCommand(c, fs)
  {
    assert ([c] + rest)[1..] == rest;
  }

  lemma RunAbsent(target: string, fs: Files)
    ensures RunCommand(Texts(Absent(target)), fs) == Ran(fs, target !in fs)
  {}

  lemma RunCopy(overwrite: bool, source: string, target: string, fs: Files)
    ensures RunCommand(Texts(Copy(overwrite, source, target)), fs) == CopyFile(fs, source, target)
  {}

  lemma RunMkdir(target: string, fs: Files)
    ensures RunCommand(Texts([Literal("mkdir"), Literal("-p"), Quoted(target)]), fs) == Ran(fs, true)
  {}

  /** The copies, and what they leave. */
  function Copies(overwrite: bool, named: bool, model: string, modelTarget: string, config: string,
                  configTarget: string, detector: string): seq<seq<string>>
  {
    [Texts(Copy(overwrite, model, modelTarget))]
    + ([Texts(Copy(overwrite, config, configTarget))]
       + (if named then [Texts(Copy(overwrite, config, detector))] + [] else []))
  }

  lemma RunCopies(overwrite: bool, named: bool, model: string, modelTarget: string, config: string,
                  configTarget: string, detector: string, fs: Files)
    ensures var all := Copies(overwrite, named, model, modelTarget, config, configTarget, detector);
            var one := CopyFile(fs, model, modelTarget);
            var two := CopyFile(one.files, config, configTarget);
            RunList(all, fs) == (if !one.ok then one
                                 else if !two.ok || !named then two
                                 else CopyFile(two.files, config, detector))
  {
    var third := if named then [Texts(Copy(overwrite, config, detector))] + [] else [];
    var one := CopyFile(fs, model, modelTarget);
    var two := CopyFile(one.files, config, configTarget);
    RunCopy(overwrite, model, modelTarget, fs);
    RunCopy(overwrite, config, configTarget, one.files);
    RunCopy(overwrite, config, detector, two.files);
    RunCons(Texts(Copy(overwrite, model, modelTarget)), [Texts(Copy(overwrite, config, configTarget))] + third, fs);
    RunCons(Texts(Copy(overwrite, config, configTarget)), third, one.files);
    if named { RunCons(Texts(Copy(overwrite, config, detector)), [], two.files); }
  }

  /** The checks in front of the copies. */
  lemma RunChecks(overwrite: bool, modelTarget: string, configTarget: string, rest: seq<seq<string>>, fs: Files)
    ensures var checks := if overwrite then [] else [Texts(Absent(modelTarget))] + [Texts(Absent(configTarget))];
            RunList(checks + rest, fs) == (if !overwrite && (modelTarget in fs || configTarget in fs)
                                           then Ran(fs, false)
                                           else RunList(rest, fs))
  {
    var one, two := Texts(Absent(modelTarget)), Texts(Absent(configTarget));
    RunAbsent(modelTarget, fs);
    RunAbsent(configTarget, fs);
    if overwrite {
      assert [] + rest == rest;
    } else {
      assert ([one] + [two]) + rest == [one] + ([two] + rest);
      RunCons(one, [two] + rest, fs);
      RunCons(two, rest, fs);
    }
  }

  lemma PlanTexts(overwrite: bool, named: bool, root: string, model: string, modelTarget: string,
                  config: string, configTarget: string, detector: string)
    ensures AllTexts(Plan(overwrite, named, root, model, modelTarget, config, configTarget, detector))
         == [Texts([Literal("mkdir"), Literal("-p"), Quoted(root)])]
            + ((if overwrite then [] else [Texts(Absent(modelTarget))] + [Texts(Absent(configTarget))])
               + Copies(overwrite, named, model, modelTarget, config, configTarget, detector))
  {}

  lemma RunPlan(overwrite: bool, named: bool, root: string, model: string, modelTarget: string,
                config: string, configTarget: string, detector: string, fs: Files)
    ensures RunList(AllTexts(Plan(overwrite, named, root, model, modelTarget, config, configTarget, detector)), fs)
         == if !overwrite && (modelTarget in fs || configTarget in fs) then Ran(fs, false)
            else RunList(Copies(overwrite, named, model, modelTarget, config, configTarget, detector), fs)
  {
    var checks := if overwrite then [] else [Texts(Absent(modelTarget))] + [Texts(Absent(configTarget))];
    var copies := Copies(overwrite, named, model, modelTarget, config, configTarget, detector);
    PlanTexts(overwrite, named, root, model, modelTarget, config, configTarget, detector);
    RunMkdir(root, fs);
    RunCons(Texts([Literal("mkdir"), Literal("-p"), Quoted(root)]), checks + copies, fs);
    RunChecks(overwrite, modelTarget, configTarget, copies, fs);
  }

  lemma PlanDeploys(overwrite: bool, named: bool, root: string, model: string, modelTarget: string,
                    config: string, configTarget: string, detector: string, fs: Files)
    ensures DeployedAt(overwrite, named, model, modelTarget, config, configTarget, detector, fs,
                       RunList(AllTexts(Plan(overwrite, named, root, model, modelTarget,
                                             config, configTarget, detector)), fs))
  {
    RunPlan(overwrite, named, root, model, modelTarget, config, configTarget, detector, fs);
    RunCopies(overwrite, named, model, modelTarget, config, configTarget, detector, fs);
  }

  lemma IntendedDeploys(p: Payload, fs: Files)
    ensures Deployed(p, fs, RunList(AllTexts(Intended(p)), fs))
  {
    PlanDeploys(p.overwrite, Base(p.configPath) == "object_detector.py", TARGET_ROOT,
                Source(p.modelPath), JoinPath(TARGET_ROOT, Base(p.modelPath)),
                Source(p.configPath), JoinPath(CONFIG_TARGET_ROOT, Base(p.configPath)), OBJECT_DETECTOR, fs);
  }

  // ---------- Where the arguments point ----------

  /** internal/protocol/command.go: validModelPath. */
  predicate ValidModelPath(value: string) {
    && value != "" && !IsAbs(value) && Clean(value) == value && value != "." && value != ".."
    && !("../" <= value) && '\\' !in value && '\0' !in value
  }

  lemma BaseOfKept(path: string)
    requires ValidModelPath(path) && Kept(path) != []
    ensures Base(path) == Kept(path)[|Kept(path)| - 1]
  {
    KeptNormal(path);
    SplitJoin(Kept(path));
  }

  lemma JoinOne(target: string, name: string)
    requires IsAbs(target) && NoSlash(name) && name != "" && name != "." && name != ".."
    ensures JoinPath(Clean(target), name) == Render(true, Kept(target) + [name])
  {
    KeptNormal(target);
    assert Normal(true, [name]) && Join([name]) == name;
    JoinBelow(Kept(target), [name]);
  }

  /** A path that passed the decoder's check names a file strictly below any clean root it is
      joined to, and its base is copied directly into any clean target directory. */
  lemma ModelFileStaysBelow(root: string, target: string, path: string)
    requires IsAbs(root) && IsAbs(target) && ValidModelPath(path)
    ensures Kept(path) != [] && ".." !in Kept(path)
    ensures JoinPath(Clean(root), path) == Render(true, Kept(root) + Kept(path))
    ensures Base(path) == Kept(path)[|Kept(path)| - 1]
    ensures JoinPath(Clean(target), Base(path)) == Render(true, Kept(target) + [Base(path)])
  {
    Workspace.CleanedTest(path);
    Workspace.JoinThenRel(root, path);
    Workspace.BelowHasNoParent(path);
    BaseOfKept(path);
    var last := |Kept(path)| - 1;
    assert Kept(path)[last] in Kept(path);
    JoinOne(target, Kept(path)[last]);
  }

  predicate Plain(name: string) {
    NoSlash(name) && name != "" && name != "." && name != ".."
  }

  lemma KeptPlus(a: string, name: string)
    requires IsAbs(a) && Plain(name)
    ensures IsAbs(a + "/" + name) && Kept(a + "/" + name) == Kept(a) + [name]
  {
    KeptAcross(a, name);
    PushOne(true, Kept(a), name);
    assert (a + "/" + name)[0] == a[0];
  }

  lemma KeptOfJoin(a: string, b: string)
    requires IsAbs(a)
    ensures Kept(JoinPath(a, b)) == PushAll(true, Kept(a), Split(b))
  {
    var whole := a + "/" + b;
    assert whole[0] == a[0];
    KeptAcross(a, b);
    KeptNormal(whole);
    KeptOfRender(true, Kept(whole));
  }

  /** A model source keeps its root in front; a target is one name below its root. */
  lemma WhereTheyPoint(root: string, target: string, path: string)
    requires IsAbs(root) && IsAbs(target) && ValidModelPath(path)
    ensures Kept(JoinPath(root, path)) == Kept(root) + Kept(path)
    ensures Kept(JoinPath(target, Base(path))) == Kept(target) + [Base(path)]
  {
    Workspace.CleanedTest(path);
    Workspace.BelowHasNoParent(path);
    SplitJoin(Kept(path));
    KeptOfJoin(root, path);
    PushAllPlain(true, Kept(root), Kept(path));
    BaseOfKept(path);
    assert Base(path) in Kept(path);
    KeptOfJoin(target, Base(path));
    PushOne(true, Kept(target), Base(path));
  }

  lemma TwoSegments(a: string, b: string)
    requires Plain(a) && Plain(b)
    ensures IsAbs("/" + a + "/" + b) && Kept("/" + a + "/" + b) == [a, b]
  {
    KeptOfRender(true, [a]);
    assert Join([a]) == a && "/" + a == Render(true, [a]);
    KeptPlus("/" + a, b);
  }

  lemma FourSegments(a: string, b: string, c: string, d: string)
    requires Plain(a) && Plain(b) && Plain(c) && Plain(d)
    ensures IsAbs("/" + a + "/" + b + "/" + c + "/" + d)
    ensures Kept("/" + a + "/" + b + "/" + c + "/" + d) == [a, b, c, d]
  {
    TwoSegments(a, b);
    KeptPlus("/" + a + "/" + b, c);
    KeptPlus("/" + a + "/" + b + "/" + c, d);
  }

  lemma PlainNames()
    ensures Plain("home") && Plain("student") && Plain("usr") && Plain("local")
    ensures Plain("zy-T100") && Plain("utils_x86") && "home" != "usr"
  {}

  lemma HomeLiteral()
    ensures "/" + "home" + "/" + "student" == "/home/student"
  {}

  lemma ToolLiteral()
    ensures "/" + "usr" + "/" + "local" + "/" + "zy-T100" + "/" + "utils_x86" == "/usr/local/zy-T100/utils_x86"
  {}

  lemma TargetLiterals()
    ensures "/usr/local/zy-T100/utils_x86" + "/models/A" == "/usr/local/zy-T100/utils_x86/models/A"
    ensures "/usr/local/zy-T100/utils_x86" + "/object_detector.py"
         == "/usr/local/zy-T100/utils_x86/object_detector.py"
  {}

  lemma PlainTargets()
    ensures Plain("models") && Plain("A") && Plain("object_detector.py")
  {}

  lemma SlashLiterals()
    ensures "/" + "models" + "/" + "A" == "/models/A" && "/" + "object_detector.py" == "/object_detector.py"
  {}

  lemma TwoBelow(a: string, b: string, c: string)
    requires IsAbs(a) && Plain(b) && Plain(c)
    ensures IsAbs(a + ("/" + b + "/" + c)) && Kept(a + ("/" + b + "/" + c)) == Kept(a) + [b, c]
  {
    KeptPlus(a, b);
    KeptPlus(a + "/" + b, c);
    assert a + "/" + b + "/" + c == a + ("/" + b + "/" + c);
    assert (Kept(a) + [b]) + [c] == Kept(a) + [b, c];
  }

  lemma BelowTools(tools: string)
    requires IsAbs(tools)
    ensures IsAbs(tools + "/models/A") && Kept(tools + "/models/A") == Kept(tools) + ["models", "A"]
    ensures Kept(tools + "/object_detector.py") == Kept(tools) + ["object_detector.py"]
  {
    PlainTargets();
    SlashLiterals();
    TwoBelow(tools, "models", "A");
    KeptPlus(tools, "object_detector.py");
    GlueAbsent(tools, "/", "object_detector.py");
  }

  lemma ApartBelow(home: string, tools: string, p: Payload)
    requires IsAbs(home) && IsAbs(tools) && ValidModelPath(p.modelPath) && ValidModelPath(p.configPath)
    requires Kept(home) != [] && Kept(tools) != [] && Kept(home)[0] != Kept(tools)[0]
    ensures Apart(JoinPath(home, p.modelPath), JoinPath(tools + "/models/A", Base(p.modelPath)),
                  JoinPath(home, p.configPath), JoinPath(tools, Base(p.configPath)),
                  tools + "/object_detector.py")
  {
    BelowTools(tools);
    WhereTheyPoint(home, tools + "/models/A", p.modelPath);
    WhereTheyPoint(home, tools, p.configPath);
    var source, target := Kept(home) + Kept(p.modelPath), Kept(tools) + ["models", "A"] + [Base(p.modelPath)];
    assert source[0] == Kept(home)[0] && target[0] == Kept(tools)[0];
    assert (Kept(home) + Kept(p.configPath))[0] == Kept(home)[0];
    assert (Kept(tools) + [Base(p.configPath)])[0] == Kept(tools)[0];
    assert (Kept(tools) + ["object_detector.py"])[0] == Kept(tools)[0];
    assert |target| == |Kept(tools)| + 3;
  }

  /** For every payload the decoder lets through the paths are apart, so it is deployed as said. */
  lemma DecodedPathsAreApart(p: Payload)
    requires ValidModelPath(p.modelPath) && ValidModelPath(p.configPath)
    ensures Apart(JoinPath("/home/student", p.modelPath),
                  JoinPath("/usr/local/zy-T100/utils_x86/models/A", Base(p.modelPath)),
                  JoinPath("/home/student", p.configPath),
                  JoinPath("/usr/local/zy-T100/utils_x86", Base(p.configPath)),
                  "/usr/local/zy-T100/utils_x86/object_detector.py")
  {
    PlainNames();
    TwoSegments("home", "student");
    HomeLiteral();
    FourSegments("usr", "local", "zy-T100", "utils_x86");
    ToolLiteral();
    TargetLiterals();
    ApartBelow("/home/student", "/usr/local/zy-T100/utils_x86", p);
  }
}
