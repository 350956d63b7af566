/** The function-table loader (`parse_functions`): the imported modules are loaded
    first, in text order; then the unit's own table comes from the cache under the
    hash of its text or, on a miss, from its text (checked line by line, then
    extracted), is stored, and is checked for a `main` function. The answer is the
    unit's own functions followed by the imported ones. */
module FunctionTable {
  import opened Values
  import opened Text

  // ---------------------------------------------------------------- inputs

  /** One function as the extraction step finds it: name, parameter text, body text. */
  datatype RawFunction = RawFunction(name: string, paramText: string, bodyText: string)

  /** The loader's steps whose code is not part of this model: the content hash, the
      comment-stripping regex, `replace` macro expansion with function extraction, and
      the parser that turns a body into lines of tokens. */
  datatype Frontend = Frontend(
    hash: string -> string,
    stripComments: string -> string,
    extract: string -> seq<RawFunction>,
    parseCode: string -> seq<seq<Value>>)

  /** The module files a program can read, by path. */
  type Modules = map<string, string>

  /** Stored tables by content hash. */
  type Store = map<string, seq<FunctionDef>>

  /** The `.compute/` cache directory: one stored table per content hash. */
  class Cache {
    var entries: Store

    constructor (stored: Store)
      ensures entries == stored
    {
      entries := stored;
    }

    /** Reads the file for `key`, when there is one. */
    method Lookup(key: string) returns (r: Option<seq<FunctionDef>>)
      ensures r.Some? <==> key in entries
      ensures r.Some? ==> r.value == entries[key]
    {
      if key in entries {
        r := Some(entries[key]);
      } else {
        r := None;
      }
    }

    /** Writes the table under `key`, replacing any file there. */
    method Put(key: string, table: seq<FunctionDef>)
      modifies this
      ensures entries == old(entries)[key := table]
    {
      entries := entries[key := table];
    }
  }

  // ---------------------------------------------------------------- import lines

  /** Where the import line starting at `start` ends, just past its newline. The
      source grows a slice from 7 characters until its last character is a newline;
      a slice past the end of the text panics. */
  function ImportLineEnd(content: string, start: nat): (r: Result<nat>)
    ensures r.Ok? <==> exists j | start + 6 <= j < |content| :: content[j] == '\n'
    ensures r.Ok? ==> start + 7 <= r.value <= |content| && content[r.value - 1] == '\n'
    ensures r.Ok? ==> forall j | start + 6 <= j < r.value - 1 :: content[j] != '\n'
    ensures r.Failure? ==> r.error.Panic?
  {
    match IndexOfFrom(content, '\n', start + 6)
    case Some(k) => Ok(k + 1)
    case None => Failure(Panic("byte index out of range"))
  }

  /** The growing-slice loop of the source. */
  method FindImportLineEnd(content: string, start: nat) returns (r: Result<nat>)
    ensures r == ImportLineEnd(content, start)
  {
    var i := 7;
    if start + i > |content| {
      return Failure(Panic("byte index out of range"));
    }
    while content[start + i - 1] != '\n'
      invariant 7 <= i && start + i <= |content|
      invariant forall j | start + 6 <= j < start + i - 1 :: content[j] != '\n'
      decreases |content| - (start + i)
    {
      i := i + 1;
      if start + i > |content| {
        return Failure(Panic("byte index out of range"));
      }
    }
    return Ok(start + i);
  }

  /** The file an import line names: the line with every `import` removed and then
      trimmed, between `./` and `.compute`. */
  function ModulePath(line: string): (r: string)
    ensures StartsWith(r, "./") && EndsWith(r, ".compute")
  {
    var r := "./" + Trim(ReplaceAll(line, "import", "")) + ".compute";
    assert r[..2] == "./";
    assert r[|r| - 8..] == ".compute";
    r
  }

  /** A text made of `./` repeated zero or more times. */
  predicate DotSlashRun(s: string)
    decreases |s|
  {
    |s| == 0 || (StartsWith(s, "./") && DotSlashRun(s[2..]))
  }

  /** The name a missing module is reported by: every leading `./` removed, and
      nothing else. */
  function ModuleName(path: string): (r: string)
    ensures !StartsWith(r, "./")
    ensures |r| <= |path| && r == path[|path| - |r|..]
    ensures DotSlashRun(path[..|path| - |r|])
    decreases |path|
  {
    if StartsWith(path, "./") then
      var r := ModuleName(path[2..]);
      assert path[..|path| - |r|][2..] == path[2..][..|path[2..]| - |r|];
      assert StartsWith(path[..|path| - |r|], "./") by {
        assert path[..|path| - |r|][..2] == path[..2];
      }
      r
    else
      assert path[..0] == [];
      path
  }

  /** A text holding `import` at no position. */
  lemma NoImportInPadded(m: string)
    requires !Contains(m, "import")
    ensures !Contains(" " + m + "\n", "import")
  {
    var s := " " + m + "\n";
    forall k | 0 <= k <= |s| ensures !OccursAt(s, "import", k) {
      if k + 6 <= |s| {
        if k == 0 {
          assert s[k..k + 6][0] == ' ';
        } else if k + 6 <= |m| + 1 {
          assert s[k..k + 6] == m[k - 1..k + 5];
          assert !OccursAt(m, "import", k - 1);
        } else {
          assert s[k..k + 6][5] == '\n';
        }
      }
    }
  }

  /** Removing `import` from a line `import m`. */
  lemma RemoveImportWord(m: string)
    requires !Contains(m, "import")
    ensures ReplaceAll("import " + m + "\n", "import", "") == " " + m + "\n"
  {
    var s := " " + m + "\n";
    NoImportInPadded(m);
    ReplaceAbsent(s, "import", "");
    var line := "import " + m + "\n";
    assert line[..6] == "import" && line[6..] == s;
  }

  /** Removing `import` from a line `\nimport m`: the newline is kept in front. */
  lemma RemoveImportAfterNewline(m: string)
    requires !Contains(m, "import")
    ensures ReplaceAll("\nimport " + m + "\n", "import", "") == "\n " + m + "\n"
  {
    RemoveImportWord(m);
    var line := "\nimport " + m + "\n";
    assert line[..6] != "import" by {
      assert line[0] == '\n';
    }
    assert line[1..] == "import " + m + "\n";
    assert ReplaceAll(line, "import", "") == "\n" + (" " + m + "\n");
    assert "\n" + (" " + m + "\n") == "\n " + m + "\n";
  }

  /** An import line `import m`, at the start of the text or after a newline, names
      the file `./m.compute`, for any module name without edge whitespace and without
      `import` inside. */
  lemma ModulePathOfImport(m: string)
    requires NoEdgeWhitespace(m) && !Contains(m, "import")
    ensures ModulePath("import " + m + "\n") == "./" + m + ".compute"
    ensures ModulePath("\nimport " + m + "\n") == "./" + m + ".compute"
  {
    RemoveImportWord(m);
    TrimPadded(" ", m, "\n");
    RemoveImportAfterNewline(m);
    TrimPadded("\n ", m, "\n");
  }

  /** A missing module is reported by its file name without the leading `./`. */
  lemma MissingModuleName(m: string)
    requires !StartsWith(m, "./")
    ensures ModuleName("./" + m + ".compute") == m + ".compute"
  {
    var name := m + ".compute";
    var path := "./" + m + ".compute";
    DotSlashChars(m);
    DotSlashChars(name);
    DotSlashChars(path);
    if |m| >= 2 {
      assert name[0] == m[0] && name[1] == m[1];
    } else if |m| == 1 {
      assert name[1] == '.';
    } else {
      assert name[1] == 'c';
    }
    assert path[0] == '.' && path[1] == '/';
    assert path[2..] == name;
    ModuleNameStrips(path);
    ModuleNameKeeps(name);
  }

  /** A text starts with `./` exactly when its first two characters are `.` and `/`. */
  lemma DotSlashChars(s: string)
    ensures StartsWith(s, "./") <==> |s| >= 2 && s[0] == '.' && s[1] == '/'
  {
    if |s| >= 2 {
      assert s[..2] == [s[0], s[1]];
    }
  }

  /** One leading `./` is removed and the rest named as before. */
  lemma ModuleNameStrips(path: string)
    requires StartsWith(path, "./")
    ensures ModuleName(path) == ModuleName(path[2..])
  {
  }

  /** A path without a leading `./` names itself. */
  lemma ModuleNameKeeps(path: string)
    requires !StartsWith(path, "./")
    ensures ModuleName(path) == path
  {
  }

  /** `\nimport` cannot overlap itself: no occurrence starts strictly inside another. */
  lemma ImportMarkersApart(content: string, p: int)
    requires OccursAt(content, "\nimport", p)
    ensures forall d | p < d < p + 7 :: !OccursAt(content, "\nimport", d)
  {
    forall d | p < d < p + 7 ensures !OccursAt(content, "\nimport", d) {
      if d + 7 <= |content| {
        assert content[d] == content[p..p + 7][d - p];
        assert content[d] != '\n';
        assert content[d..d + 7][0] == content[d];
      }
    }
  }

  /** Every `\nimport` of the text is listed by the scan. */
  lemma MarkersFound(content: string)
    ensures forall q | OccursAt(content, "\nimport", q) :: q in Occurrences(content, "\nimport")
  {
    var found := Occurrences(content, "\nimport");
    forall q | OccursAt(content, "\nimport", q) ensures q in found {
      OccurrencesComplete(content, "\nimport", 0, q);
      var i :| 0 <= i < |found| && found[i] <= q < found[i] + |"\nimport"|;
      ImportMarkersApart(content, found[i]);
    }
  }

  /** Where import lines start: at 0 when the text starts with `import`, then at each
      `\nimport`, strictly in text order; every `\nimport` is listed. */
  function ImportStarts(content: string): (r: seq<nat>)
    ensures forall i, j | 0 <= i < j < |r| :: r[i] < r[j]
    ensures forall i | 0 <= i < |r| ::
              (r[i] == 0 && StartsWith(content, "import")) || OccursAt(content, "\nimport", r[i])
    ensures StartsWith(content, "import") ==> |r| > 0 && r[0] == 0
    ensures forall q | OccursAt(content, "\nimport", q) :: q in r
  {
    var found := Occurrences(content, "\nimport");
    MarkersFound(content);
    if StartsWith(content, "import") then
      assert forall i | 0 <= i < |found| :: found[i] > 0 by {
        forall i | 0 <= i < |found| ensures found[i] > 0 {
          assert content[found[i]..found[i] + 7][0] == '\n';
          assert content[..6][0] == 'i';
        }
      }
      [0] + found
    else found
  }

  /** The first line of a text that starts with an import names its module. */
  lemma FirstImportNamesModule(m: string, rest: string)
    requires NoEdgeWhitespace(m) && !Contains(m, "import") && '\n' !in m
    ensures var content := "import " + m + "\n" + rest;
            && |ImportStarts(content)| > 0 && ImportStarts(content)[0] == 0
            && ImportLineEnd(content, 0) == Ok(|m| + 8)
            && ModulePath(content[0..|m| + 8]) == "./" + m + ".compute"
  {
    var line := "import " + m + "\n";
    var content := line + rest;
    assert content[..|line|] == line;
    assert StartsWith(content, "import") by {
      assert content[..6] == line[..6];
    }
    assert content[|m| + 7] == '\n';
    forall j | 6 <= j < |m| + 7 ensures content[j] != '\n' {
      assert content[j] == line[j];
      if j > 6 {
        assert line[j] == m[j - 7];
      }
    }
    assert IndexOfFrom(content, '\n', 6) == Some(|m| + 7);
    assert content[0..|m| + 8] == line;
    ModulePathOfImport(m);
  }

  /** The module path the import line starting at `start` names, or the panic of a
      line that runs off the end of the text. */
  function ImportPath(content: string, start: nat): (r: Result<string>)
    ensures r.Ok? ==> StartsWith(r.value, "./") && EndsWith(r.value, ".compute")
    ensures r.Failure? <==> ImportLineEnd(content, start).Failure?
    ensures r.Failure? ==> r.error.Panic?
  {
    var end :- ImportLineEnd(content, start);
    Ok(ModulePath(content[start..end]))
  }

  /** Import paths whose only failures are panics. */
  predicate PanicsOnly(paths: seq<Result<string>>)
  {
    forall k | 0 <= k < |paths| :: paths[k].Failure? ==> paths[k].error.Panic?
  }

  /** The module paths of the unit's import lines, in text order. */
  function ImportPaths(content: string): (r: seq<Result<string>>)
    ensures |r| == |ImportStarts(content)| && PanicsOnly(r)
  {
    var starts := ImportStarts(content);
    seq(|starts|, k requires 0 <= k < |starts| => ImportPath(content, starts[k]))
  }

  /** Each entry of the import paths is the path its import line names. */
  lemma ImportPathAt(content: string, k: nat)
    requires k < |ImportStarts(content)|
    ensures ImportPaths(content)[k] == ImportPath(content, ImportStarts(content)[k])
  {
  }

  // ---------------------------------------------------------------- the line check

  /** A line of whitespace only. */
  predicate Blank(line: string)
  {
    forall i | 0 <= i < |line| :: IsWhitespace(line[i])
  }

  /** Blank lines are exactly those that trim to nothing. */
  lemma BlankIffTrimsEmpty(line: string)
    ensures Blank(line) <==> Trim(line) == ""
  {
  }

  /** Lines the check skips: imports, macros and lines that trim to nothing. */
  predicate Exempt(line: string)
  {
    StartsWith(line, "import") || StartsWith(line, "replace") || Blank(line)
  }

  /** Lines that end a statement or open or close a block. */
  predicate Terminated(line: string)
  {
    EndsWith(line, "{") || EndsWith(line, "}") || EndsWith(line, ";")
  }

  /** Lines whose missing terminator is reported as a bracket. */
  predicate OpensBlock(line: string)
  {
    StartsWith(line, "if") || StartsWith(line, "for") || StartsWith(line, "while") || line == "}"
  }

  /** The report for an unterminated line, with the number the counter shows. */
  function LineError(line: string, shown: int): Error
  {
    var prefix := if OpensBlock(line) then "Missing bracket at line " else "Missing semicolon at line ";
    Fatal(prefix + Decimal(shown))
  }

  /** The report is fatal, begins with "Missing " and ends with the number shown. */
  lemma LineErrorMissing(line: string, shown: int)
    ensures LineError(line, shown).Fatal?
    ensures StartsWith(LineError(line, shown).message, "Missing ")
    ensures EndsWith(LineError(line, shown).message, Decimal(shown))
  {
    var prefix := if OpensBlock(line) then "Missing bracket at line " else "Missing semicolon at line ";
    var number := Decimal(shown);
    var message := prefix + number;
    assert LineError(line, shown) == Fatal(message);
    assert |prefix| >= 8 && prefix[..8] == "Missing ";
    assert message[..8] == prefix[..8];
    assert message[|prefix|..] == number;
  }

  /** The index of the first line from `k` on that is neither exempt nor terminated. */
  function FirstBadLine(lines: seq<string>, k: nat): (r: Option<nat>)
    ensures r.Some? ==> k <= r.value < |lines| && !Exempt(lines[r.value]) && !Terminated(lines[r.value])
    ensures r.Some? ==> forall j | k <= j < r.value :: Exempt(lines[j]) || Terminated(lines[j])
    ensures r.None? ==> forall j | k <= j < |lines| :: Exempt(lines[j]) || Terminated(lines[j])
    decreases |lines| - k
  {
    if k >= |lines| then None
    else if !Exempt(lines[k]) && !Terminated(lines[k]) then Some(k)
    else FirstBadLine(lines, k + 1)
  }

  /** The line check with a line counter that does not wrap: the first offending
      line, numbered from 1. */
  function CheckLines(lines: seq<string>): (r: Option<Error>)
    ensures r.None? <==> forall j | 0 <= j < |lines| :: Exempt(lines[j]) || Terminated(lines[j])
  {
    Report(lines, FirstBadLine(lines, 0))
  }

  /** The report for the offending line found, if any, numbered from 1. */
  function Report(lines: seq<string>, first: Option<nat>): Option<Error>
    requires first.Some? ==> first.value < |lines|
  {
    match first
    case None => None
    case Some(k) => Some(LineError(lines[k], k + 1))
  }

  /** The check reports exactly the first offending line, by its 1-based number. */
  lemma CheckLinesReportsFirst(lines: seq<string>, k: nat)
    requires k < |lines| && !Exempt(lines[k]) && !Terminated(lines[k])
    requires forall j | 0 <= j < k :: Exempt(lines[j]) || Terminated(lines[j])
    ensures FirstBadLine(lines, 0) == Some(k)
    ensures CheckLines(lines) == Some(LineError(lines[k], k + 1))
  {
    FirstBadLineAt(lines, k);
    ReportOfSome(lines, k);
  }

  /** A line found is reported with its 1-based number. */
  lemma ReportOfSome(lines: seq<string>, k: nat)
    requires k < |lines|
    ensures Report(lines, Some(k)) == Some(LineError(lines[k], k + 1))
  {
  }

  /** The scan stops at the first line that is neither exempt nor terminated. */
  lemma FirstBadLineAt(lines: seq<string>, k: nat)
    requires k < |lines| && !Exempt(lines[k]) && !Terminated(lines[k])
    requires forall j | 0 <= j < k :: Exempt(lines[j]) || Terminated(lines[j])
    ensures FirstBadLine(lines, 0) == Some(k)
  {
  }

  /** The check line by line, with the counter kept as an unbounded number. */
  method CheckLineTerminators(lines: seq<string>) returns (r: Option<Error>)
    ensures r == CheckLines(lines)
  {
    var lineNumber: nat := 1;
    for k := 0 to |lines|
      invariant lineNumber == k + 1
      invariant FirstBadLine(lines, k) == FirstBadLine(lines, 0)
    {
      var line := lines[k];
      if !Exempt(line) && !Terminated(line) {
        return Some(LineError(line, lineNumber));
      }
      lineNumber := lineNumber + 1;
    }
    return None;
  }

  /** `i8` addition as a release build performs it: wrapping into [-128, 127]. */
  function Wrap8(x: int): (r: int)
    ensures -128 <= r <= 127
    ensures -128 <= x <= 127 ==> r == x
    ensures (r - x) % 256 == 0
  {
    (x + 128) % 256 - 128
  }

  /** The line check as written: the counter is an `i8` starting at 1 and incremented
      after every line, so line `k + 1` is shown as `Wrap8(k + 1)`. */
  function CheckLinesAsWritten(lines: seq<string>): (r: Option<Error>)
    ensures r.None? <==> forall j | 0 <= j < |lines| :: Exempt(lines[j]) || Terminated(lines[j])
    ensures r.Some? ==> r.value.Fatal? && StartsWith(r.value.message, "Missing ")
  {
    match FirstBadLine(lines, 0)
    case None => None
    case Some(k) =>
      LineErrorMissing(lines[k], Wrap8(k + 1));
      Some(LineError(lines[k], Wrap8(k + 1)))
  }

  /** Different numbers print differently. */
  lemma DecimalInjective(a: int, b: int)
    requires Decimal(a) == Decimal(b)
    ensures a == b
  {
    if a >= 0 && b >= 0 {
      DigitsRoundTrip(a);
      DigitsRoundTrip(b);
    } else if a < 0 && b < 0 {
      assert Decimal(a)[1..] == Digits(-a);
      assert Decimal(b)[1..] == Digits(-b);
      DigitsRoundTrip(-a);
      DigitsRoundTrip(-b);
    }
  }

  /** Two reports about the same line agree only when they show the same number. */
  lemma LineErrorInjective(line: string, a: int, b: int)
    requires LineError(line, a) == LineError(line, b)
    ensures a == b
  {
    var prefix := if OpensBlock(line) then "Missing bracket at line " else "Missing semicolon at line ";
    assert (prefix + Decimal(a))[|prefix|..] == Decimal(a);
    assert (prefix + Decimal(b))[|prefix|..] == Decimal(b);
    DecimalInjective(a, b);
  }

  /** The `i8` counter reports the right number exactly while the first offending
      line is among the first 127; the number shown for line 128 and later is wrong. */
  lemma LineCounterWraps(lines: seq<string>)
    ensures CheckLinesAsWritten(lines) == CheckLines(lines)
            <==> (FirstBadLine(lines, 0).None? || FirstBadLine(lines, 0).value < 127)
  {
    match FirstBadLine(lines, 0)
    case None =>
    case Some(k) =>
      if k < 127 {
        assert Wrap8(k + 1) == k + 1;
      } else {
        WrappedReportDiffers(lines[k], k);
      }
  }

  /** From line 128 on, the report with the wrapped number differs from the true one. */
  lemma WrappedReportDiffers(line: string, k: nat)
    requires k >= 127
    ensures LineError(line, Wrap8(k + 1)) != LineError(line, k + 1)
  {
    var shown := Wrap8(k + 1);
    assert shown != k + 1;
    if LineError(line, shown) == LineError(line, k + 1) {
      LineErrorInjective(line, shown, k + 1);
    }
  }

  /** The offending line of the example: an assignment without its `;`. */
  lemma UnterminatedAssignment(last: string)
    requires last == "y = 1"
    ensures !Exempt(last) && !Terminated(last) && !OpensBlock(last)
    ensures LineError(last, -128) == Fatal("Missing semicolon at line -128")
    ensures LineError(last, 128) == Fatal("Missing semicolon at line 128")
  {
    assert !Exempt(last) by {
      assert |last| == 5 && last[0] == 'y' && !IsWhitespace(last[0]);
    }
    assert !Terminated(last) by {
      assert last[4..] == "1";
    }
    assert !OpensBlock(last) by {
      assert last[0] == 'y';
    }
    assert Decimal(128) == "128" by {
      assert Digits(1) == "1";
      assert Digits(12) == "12";
    }
    assert Decimal(-128) == "-128";
    assert "Missing semicolon at line " + "-128" == "Missing semicolon at line -128";
    assert "Missing semicolon at line " + "128" == "Missing semicolon at line 128";
  }

  /** 127 good lines followed by an unterminated assignment: the report says line
      -128 where line 128 is meant. */
  lemma LineCounterWrapsExample(lines: seq<string>)
    requires |lines| == 128 && lines[127] == "y = 1"
    requires forall j | 0 <= j < 127 :: lines[j] == "x;"
    ensures CheckLinesAsWritten(lines) == Some(Fatal("Missing semicolon at line -128"))
    ensures CheckLines(lines) == Some(Fatal("Missing semicolon at line 128"))
  {
    ExampleFirstBadLine(lines);
    UnterminatedAssignment(lines[127]);
    assert Wrap8(128) == -128;
  }

  /** In the example, the check stops at the last line. */
  lemma ExampleFirstBadLine(lines: seq<string>)
    requires |lines| == 128 && lines[127] == "y = 1"
    requires forall j | 0 <= j < 127 :: lines[j] == "x;"
    ensures FirstBadLine(lines, 0) == Some(127)
  {
    forall j | 0 <= j < 127 ensures Terminated(lines[j]) {
      assert "x;"[1..] == ";";
    }
    UnterminatedAssignment(lines[127]);
    CheckLinesReportsFirst(lines, 127);
  }

  // ---------------------------------------------------------------- parameters and tables

  /** Each piece trimmed. */
  function TrimEach(pieces: seq<string>): (r: seq<string>)
    ensures |r| == |pieces|
    ensures forall k {:trigger r[k]} | 0 <= k < |pieces| :: r[k] == Trim(pieces[k])
  {
    seq(|pieces|, k requires 0 <= k < |pieces| => Trim(pieces[k]))
  }

  /** The parameter list: the text split at commas and each piece trimmed, where a
      list whose only piece is empty means no parameters. */
  function SplitParams(text: string): (r: seq<string>)
    ensures forall k | 0 <= k < |r| :: ',' !in r[k]
  {
    var args := TrimEach(Split(text, ','));
    assert forall k | 0 <= k < |args| :: ',' !in args[k] by {
      forall k | 0 <= k < |args| ensures ',' !in args[k] {
        TrimInside(Split(text, ',')[k]);
      }
    }
    if args == [""] then [] else args
  }

  /** Trimming keeps a contiguous part of the text. */
  lemma TrimInside(s: string)
    ensures exists i, j | 0 <= i <= j <= |s| :: Trim(s) == s[i..j]
  {
    var a := TrimStart(s);
    var b := TrimEnd(a);
    var i := |s| - |a|;
    assert a == s[i..];
    assert b == a[..|b|];
    assert b == s[i..i + |b|];
  }

  /** Parameter names written with commas between them (and any whitespace around
      them) read back as those names; blank text is no parameters. */
  lemma ParamsRoundTrip(pieces: seq<string>)
    requires |pieces| >= 1
    requires forall k | 0 <= k < |pieces| :: ',' !in pieces[k]
    requires TrimEach(pieces) != [""]
    ensures SplitParams(Join(pieces, ',')) == TrimEach(pieces)
  {
    SplitJoin(pieces, ',');
  }

  /** Names without edge whitespace, joined by commas, read back exactly. */
  lemma ParamNamesRoundTrip(names: seq<string>)
    requires |names| >= 1 && names != [""]
    requires forall k | 0 <= k < |names| :: ',' !in names[k] && NoEdgeWhitespace(names[k])
    ensures SplitParams(Join(names, ',')) == names
  {
    forall k | 0 <= k < |names| ensures Trim(names[k]) == names[k] {
      TrimPadded("", names[k], "");
      assert "" + names[k] + "" == names[k];
    }
    assert TrimEach(names) == names;
    ParamsRoundTrip(names);
  }

  /** Text without a comma is one parameter, or none when it is blank. */
  lemma SingleParam(text: string)
    requires ',' !in text
    ensures SplitParams(text) == if Trim(text) == "" then [] else [Trim(text)]
  {
    assert IndexOfFrom(text, ',', 0).None?;
    var pieces := Split(text, ',');
    assert pieces == [text];
    var args := TrimEach(pieces);
    assert args == [Trim(text)];
    assert args == [""] <==> Trim(text) == "";
  }

  /** One table entry from an extracted function: its name, its parameters, and its
      trimmed body parsed into lines. */
  function Entry(fe: Frontend, raw: RawFunction): FunctionDef
  {
    FunctionDef(raw.name, SplitParams(raw.paramText), fe.parseCode(Trim(raw.bodyText)))
  }

  /** The table of the extracted functions, in extraction order. */
  function Table(fe: Frontend, raws: seq<RawFunction>): (r: seq<FunctionDef>)
    ensures |r| == |raws|
    ensures forall k {:trigger r[k]} | 0 <= k < |raws| :: r[k] == Entry(fe, raws[k])
  {
    seq(|raws|, k requires 0 <= k < |raws| => Entry(fe, raws[k]))
  }

  /** The table of one more extracted function is the shorter table plus its entry. */
  lemma TableExtends(fe: Frontend, raws: seq<RawFunction>, k: nat)
    requires k < |raws|
    ensures Table(fe, raws[..k + 1]) == Table(fe, raws[..k]) + [Entry(fe, raws[k])]
  {
    var longer := Table(fe, raws[..k + 1]);
    var extended := Table(fe, raws[..k]) + [Entry(fe, raws[k])];
    assert |longer| == |extended| == k + 1;
    forall j | 0 <= j < k + 1 ensures longer[j] == extended[j] {
      assert raws[..k + 1][j] == raws[j];
      if j < k {
        assert raws[..k][j] == raws[j];
      }
    }
  }

  /** The `push` loop that builds the table. */
  method BuildFunctions(fe: Frontend, raws: seq<RawFunction>) returns (table: seq<FunctionDef>)
    ensures table == Table(fe, raws)
  {
    table := [];
    for k := 0 to |raws|
      invariant table == Table(fe, raws[..k])
    {
      TableExtends(fe, raws, k);
      table := table + [Entry(fe, raws[k])];
    }
    assert raws[..|raws|] == raws;
  }

  /** The table has a function called `main`. */
  predicate HasMain(table: seq<FunctionDef>)
  {
    exists k | 0 <= k < |table| :: table[k].name == "main"
  }

  /** The table keeps the extracted names in order, and has `main` exactly when the
      extraction found a function of that name. */
  lemma TableNames(fe: Frontend, raws: seq<RawFunction>)
    ensures forall k | 0 <= k < |raws| :: Table(fe, raws)[k].name == raws[k].name
    ensures HasMain(Table(fe, raws)) <==> exists k | 0 <= k < |raws| :: raws[k].name == "main"
  {
    var t := Table(fe, raws);
    if exists k | 0 <= k < |raws| :: raws[k].name == "main" {
      var k :| 0 <= k < |raws| && raws[k].name == "main";
      assert t[k].name == "main";
    }
  }

  /** The pieces concatenated with nothing between them. */
  function Flatten(pieces: seq<string>): string
  {
    if |pieces| == 0 then "" else pieces[0] + Flatten(pieces[1..])
  }

  /** The text after comment stripping with every line trimmed and the lines joined
      with nothing between them. */
  function Compact(text: string): string
  {
    Flatten(TrimEach(Lines(text)))
  }

  /** The unit's own table from its text: comments stripped, every line checked,
      lines trimmed and joined, functions extracted and parsed. Only the line check
      can fail. */
  function OwnFunctions(fe: Frontend, content: string): Result<seq<FunctionDef>>
  {
    var stripped := fe.stripComments(content);
    match CheckLines(Lines(stripped))
    case Some(e) => Failure(e)
    case None => Ok(Table(fe, fe.extract(Compact(stripped))))
  }

  /** A unit's own table fails exactly when one of its lines after comment stripping
      is unterminated, with a `Missing ...` report; otherwise it is the table of the
      functions extracted from the compacted text. */
  lemma OwnFunctionsChecked(fe: Frontend, content: string)
    ensures var r := OwnFunctions(fe, content);
            var lines := Lines(fe.stripComments(content));
            && (r.Failure? <==> exists j | 0 <= j < |lines| :: !Exempt(lines[j]) && !Terminated(lines[j]))
            && (r.Failure? ==> r.error.Fatal? && StartsWith(r.error.message, "Missing "))
            && (r.Ok? ==> r.value == Table(fe, fe.extract(Compact(fe.stripComments(content)))))
  {
    var lines := Lines(fe.stripComments(content));
    match FirstBadLine(lines, 0)
    case None =>
    case Some(k) =>
      LineErrorMissing(lines[k], k + 1);
  }

  /** A unit's own table never fails for want of `main`. */
  lemma OwnFunctionsHasNoMainError(fe: Frontend, content: string)
    ensures OwnFunctions(fe, content) != Failure(Fatal("No main function"))
  {
    OwnFunctionsChecked(fe, content);
    assert "No main function"[..8][0] == 'N';
  }

  // ---------------------------------------------------------------- loading with the cache

  /** What loading needs to know of a unit's text: its cache key, the module paths
      its import lines name, and its own function table. */
  datatype Analysis = Analysis(hash: string -> string,
                               imports: string -> seq<Result<string>>,
                               own: string -> Result<seq<FunctionDef>>)

  /** The analysis `parse_functions` performs with a given front end. */
  function Analyse(fe: Frontend): Analysis
  {
    Analysis(fe.hash, c => ImportPaths(c), c => OwnFunctions(fe, c))
  }

  /** An analysis whose import paths fail only by panicking and whose own tables
      never fail for want of `main`. */
  ghost predicate Sound(a: Analysis)
  {
    forall c :: PanicsOnly(a.imports(c)) && a.own(c) != Failure(Fatal("No main function"))
  }

  /** The analysis of `parse_functions` is sound. */
  lemma AnalyseSound(fe: Frontend)
    ensures Sound(Analyse(fe))
  {
    forall c ensures OwnFunctions(fe, c) != Failure(Fatal("No main function")) {
      OwnFunctionsHasNoMainError(fe, c);
    }
  }

  /** What loading a unit leaves behind: its result and the cache contents. */
  datatype Loaded = Loaded(result: Result<seq<FunctionDef>>, after: Store)

  /** The imports from position `i` of `paths` on, each loaded (without the main
      check) and appended in order to `acc`; the first failure stops the loop. */
  function LoadImports(entries: Store, a: Analysis, modules: Modules, paths: seq<Result<string>>,
                       i: nat, acc: seq<FunctionDef>, fuel: nat): Loaded
    requires i <= |paths|
    decreases fuel, 0, |paths| - i
  {
    if i == |paths| then Loaded(Ok(acc), entries)
    else
      match paths[i]
      case Failure(e) => Loaded(Failure(e), entries)
      case Ok(path) =>
        if path !in modules then Loaded(Failure(Fatal("Cannot find module " + ModuleName(path))), entries)
        else if fuel == 0 then Loaded(Failure(OutOfFuel), entries)
        else
          var sub := Load(entries, a, modules, modules[path], false, fuel - 1);
          if sub.result.Failure? then sub
          else LoadImports(sub.after, a, modules, paths, i + 1, acc + sub.result.value, fuel)
  }

  /** `parse_functions` on the cache contents `entries`: the imports, then the cache
      read, then on a miss the unit's own table, the cache write and the main check. */
  function Load(entries: Store, a: Analysis, modules: Modules, content: string, checkMain: bool, fuel: nat)
    : Loaded
    decreases fuel, 1, 0
  {
    var imports := LoadImports(entries, a, modules, a.imports(content), 0, [], fuel);
    if imports.result.Failure? then imports
    else Finish(imports.after, a, content, checkMain, imports.result.value)
  }

  /** What `parse_functions` does once the imports are loaded into `mid`: the cache
      read, then on a miss the unit's own table, the cache write and the main check. */
  function Finish(mid: Store, a: Analysis, content: string, checkMain: bool, imported: seq<FunctionDef>)
    : Loaded
  {
    var key := a.hash(content);
    if key in mid then Loaded(Ok(mid[key] + imported), mid)
    else
      match a.own(content)
      case Failure(e) => Loaded(Failure(e), mid)
      case Ok(own) =>
        if checkMain && !HasMain(own) then Loaded(Failure(Fatal("No main function")), mid[key := own])
        else Loaded(Ok(own + imported), mid[key := own])
  }

  /** `parse_functions`: the import loop, the cache read, the line check, the table
      loop, the cache write and the main check, in that order. */
  method ParseFunctions(cache: Cache, fe: Frontend, modules: Modules, content: string, checkMain: bool, fuel: nat)
    returns (r: Result<seq<FunctionDef>>)
    modifies cache
    ensures Loaded(r, cache.entries) == Load(old(cache.entries), Analyse(fe), modules, content, checkMain, fuel)
    decreases fuel, 3
  {
    var imported :- LoadImportLines(cache, fe, modules, content, fuel);
    r := FinishLoad(cache, fe, content, checkMain, imported);
  }

  /** The import loop of `parse_functions`: the module of every import line loaded,
      in text order, each one's functions appended to those before. */
  method LoadImportLines(cache: Cache, fe: Frontend, modules: Modules, content: string, fuel: nat)
    returns (r: Result<seq<FunctionDef>>)
    modifies cache
    ensures Loaded(r, cache.entries)
            == LoadImports(old(cache.entries), Analyse(fe), modules, ImportPaths(content), 0, [], fuel)
    decreases fuel, 2
  {
    var starts := ImportStarts(content);
    ghost var paths := ImportPaths(content);
    var imported: seq<FunctionDef> := [];
    for i := 0 to |starts|
      invariant LoadImports(cache.entries, Analyse(fe), modules, paths, i, imported, fuel)
                == LoadImports(old(cache.entries), Analyse(fe), modules, paths, 0, [], fuel)
    {
      var sub :- LoadImportAt(cache, fe, modules, content, starts[i], i, imported, fuel);
      imported := imported + sub;
    }
    r := Ok(imported);
  }

  /** One pass of the import loop: the import line starting at `start`, the `i`-th,
      read to its end, its module looked up and parsed. A failure ends the loading;
      otherwise the loop goes on from the next line with the functions appended. */
  method LoadImportAt(cache: Cache, fe: Frontend, modules: Modules, content: string, start: nat, i: nat,
                      imported: seq<FunctionDef>, fuel: nat)
    returns (r: Result<seq<FunctionDef>>)
    requires i < |ImportStarts(content)| && start == ImportStarts(content)[i]
    modifies cache
    ensures var before := LoadImports(old(cache.entries), Analyse(fe), modules, ImportPaths(content), i, imported, fuel);
            if r.Failure? then before == Loaded(r, cache.entries)
            else before == LoadImports(cache.entries, Analyse(fe), modules, ImportPaths(content), i + 1,
                                       imported + r.value, fuel)
    decreases fuel, 1
  {
    ghost var paths := ImportPaths(content);
    ImportPathAt(content, i);
    var read := ReadImportPath(content, start);
    if read.Failure? {
      ImportUnread(cache.entries, Analyse(fe), modules, paths, i, imported, fuel);
      return Failure(read.error);
    }
    var path := read.value;
    if path !in modules {
      ImportMissing(cache.entries, Analyse(fe), modules, paths, i, imported, fuel);
      return Failure(Fatal("Cannot find module " + ModuleName(path)));
    }
    if fuel == 0 {
      ImportMissing(cache.entries, Analyse(fe), modules, paths, i, imported, fuel);
      return Failure(OutOfFuel);
    }
    r := LoadModule(cache, fe, modules, paths, path, i, imported, fuel);
  }

  /** The module named by entry `i` of the import paths, which is there, parsed with fuel to
      spare; the loop goes on from the next line when it succeeds. */
  method LoadModule(cache: Cache, fe: Frontend, modules: Modules, ghost paths: seq<Result<string>>, path: string,
                    i: nat, imported: seq<FunctionDef>, fuel: nat)
    returns (r: Result<seq<FunctionDef>>)
    requires i < |paths| && paths[i] == Ok(path)
    requires path in modules && fuel > 0
    modifies cache
    ensures var before := LoadImports(old(cache.entries), Analyse(fe), modules, paths, i, imported, fuel);
            if r.Failure? then before == Loaded(r, cache.entries)
            else before == LoadImports(cache.entries, Analyse(fe), modules, paths, i + 1, imported + r.value, fuel)
    decreases fuel, 0
  {
    ghost var entries := cache.entries;
    var spare: nat := fuel - 1;
    r := ParseFunctions(cache, fe, modules, modules[path], false, spare);
    ImportParsed(entries, Analyse(fe), modules, paths, i, imported, spare, path, r, cache.entries);
  }

  /** The module path of the import line starting at `start`, the line read to its
      end as the loop reads it. */
  method ReadImportPath(content: string, start: nat) returns (r: Result<string>)
    ensures r == ImportPath(content, start)
  {
    var end :- FindImportLineEnd(content, start);
    r := Ok(ModulePath(content[start..end]));
  }

  /** An import line that cannot be read ends the loading with its error. */
  lemma ImportUnread(entries: Store, a: Analysis, modules: Modules, paths: seq<Result<string>>, i: nat,
                     acc: seq<FunctionDef>, fuel: nat)
    requires i < |paths| && paths[i].Failure?
    ensures LoadImports(entries, a, modules, paths, i, acc, fuel) == Loaded(Failure(paths[i].error), entries)
  {
  }

  /** A module that is not there, or no fuel left to load it, ends the loading. */
  lemma ImportMissing(entries: Store, a: Analysis, modules: Modules, paths: seq<Result<string>>, i: nat,
                      acc: seq<FunctionDef>, fuel: nat)
    requires i < |paths| && paths[i].Ok? && (paths[i].value !in modules || fuel == 0)
    ensures LoadImports(entries, a, modules, paths, i, acc, fuel)
            == Loaded(Failure(if paths[i].value !in modules then Fatal("Cannot find module " + ModuleName(paths[i].value))
                              else OutOfFuel), entries)
  {
  }

  /** A module that is there is loaded, with the answer `r` and the cache `after`;
      its failure ends the loading, otherwise the loop goes on from the next line
      with its functions appended. */
  lemma ImportParsed(entries: Store, a: Analysis, modules: Modules, paths: seq<Result<string>>, i: nat,
                     acc: seq<FunctionDef>, spare: nat, path: string, r: Result<seq<FunctionDef>>, after: Store)
    requires i < |paths| && paths[i] == Ok(path) && path in modules
    requires Loaded(r, after) == Load(entries, a, modules, modules[path], false, spare)
    ensures r.Failure? ==> LoadImports(entries, a, modules, paths, i, acc, spare + 1) == Loaded(r, after)
    ensures r.Ok? ==> LoadImports(entries, a, modules, paths, i, acc, spare + 1)
                      == LoadImports(after, a, modules, paths, i + 1, acc + r.value, spare + 1)
  {
  }

  /** The part of `parse_functions` after the import loop: the cache read, the line
      check, the table loop, the cache write and the main check, in that order. */
  method FinishLoad(cache: Cache, fe: Frontend, content: string, checkMain: bool, imported: seq<FunctionDef>)
    returns (r: Result<seq<FunctionDef>>)
    modifies cache
    ensures Loaded(r, cache.entries) == Finish(old(cache.entries), Analyse(fe), content, checkMain, imported)
  {
    var key := fe.hash(content);
    var stored := cache.Lookup(key);
    if stored.Some? {
      return Ok(stored.value + imported);
    }
    var stripped := fe.stripComments(content);
    var problem := CheckLineTerminators(Lines(stripped));
    if problem.Some? {
      return Failure(problem.value);
    }
    var own := BuildFunctions(fe, fe.extract(Compact(stripped)));
    cache.Put(key, own);
    if checkMain && !HasMain(own) {
      return Failure(Fatal("No main function"));
    }
    r := Ok(own + imported);
  }

  /** The answer is the unit's stored table followed by the imported functions, on
      the hit and the miss path alike; a miss stores only the unit's own table. */
  lemma OwnThenImported(entries: Store, a: Analysis, modules: Modules, content: string, checkMain: bool, fuel: nat)
    ensures var imports := LoadImports(entries, a, modules, a.imports(content), 0, [], fuel);
            var r := Load(entries, a, modules, content, checkMain, fuel);
            var key := a.hash(content);
            && (r.result.Ok? ==> imports.result.Ok? && key in r.after
                                 && r.result.value == r.after[key] + imports.result.value)
            && (imports.result.Ok? && key !in imports.after && a.own(content).Ok? ==>
                  r.after == imports.after[key := a.own(content).value])
            && (imports.result.Ok? && key in imports.after ==>
                  r == Loaded(Ok(imports.after[key] + imports.result.value), imports.after))
  {
  }

  // ---------------------------------------------------------------- the cache is transparent

  /** The imports loaded without a cache. */
  function PureImports(a: Analysis, modules: Modules, paths: seq<Result<string>>, i: nat,
                       acc: seq<FunctionDef>, fuel: nat): Result<seq<FunctionDef>>
    requires i <= |paths|
    decreases fuel, 0, |paths| - i
  {
    if i == |paths| then Ok(acc)
    else
      var path :- paths[i];
      if path !in modules then Failure(Fatal("Cannot find module " + ModuleName(path)))
      else if fuel == 0 then Failure(OutOfFuel)
      else
        var sub :- PureLoad(a, modules, modules[path], false, fuel - 1);
        PureImports(a, modules, paths, i + 1, acc + sub, fuel)
  }

  /** The reference loader without a cache: imports, then the unit's own table, then
      the main check. */
  function PureLoad(a: Analysis, modules: Modules, content: string, checkMain: bool, fuel: nat)
    : Result<seq<FunctionDef>>
    decreases fuel, 1, 0
  {
    var imported :- PureImports(a, modules, a.imports(content), 0, [], fuel);
    var own :- a.own(content);
    if checkMain && !HasMain(own) then Failure(Fatal("No main function")) else Ok(own + imported)
  }

  /** A hash with no collisions. */
  ghost predicate Injective(hash: string -> string)
  {
    forall x, y | hash(x) == hash(y) :: x == y
  }

  /** Every stored table is the own table of the text with that hash. */
  ghost predicate Faithful(entries: Store, a: Analysis)
  {
    forall c | a.hash(c) in entries :: a.own(c) == Ok(entries[a.hash(c)])
  }

  /** Storing a unit's own table under its hash keeps the cache faithful. */
  lemma StoreKeepsFaithful(entries: Store, a: Analysis, content: string, own: seq<FunctionDef>)
    requires Injective(a.hash) && Faithful(entries, a) && a.own(content) == Ok(own)
    ensures Faithful(entries[a.hash(content) := own], a)
  {
    var after := entries[a.hash(content) := own];
    forall c | a.hash(c) in after ensures a.own(c) == Ok(after[a.hash(c)]) {
      if a.hash(c) == a.hash(content) {
        assert c == content;
      }
    }
  }

  /** A missing module is not reported as a missing `main`. */
  lemma MissingIsNotNoMain(path: string)
    ensures "Cannot find module " + ModuleName(path) != "No main function"
  {
    var message := "Cannot find module " + ModuleName(path);
    assert message[0] != "No main function"[0];
  }

  /** Loading never drops a cache entry. */
  lemma {:induction false} ImportsKeep(entries: Store, a: Analysis, modules: Modules,
                                       paths: seq<Result<string>>, i: nat, acc: seq<FunctionDef>, fuel: nat)
    requires i <= |paths|
    ensures entries.Keys <= LoadImports(entries, a, modules, paths, i, acc, fuel).after.Keys
    decreases fuel, 0, |paths| - i
  {
    if i < |paths| && paths[i].Ok? && paths[i].value in modules && fuel > 0 {
      var path := paths[i].value;
      var sub := Load(entries, a, modules, modules[path], false, fuel - 1);
      LoadKeeps(entries, a, modules, modules[path], false, fuel - 1);
      if sub.result.Ok? {
        ImportsKeep(sub.after, a, modules, paths, i + 1, acc + sub.result.value, fuel);
      }
    }
  }

  lemma {:induction false} LoadKeeps(entries: Store, a: Analysis, modules: Modules, content: string,
                                     checkMain: bool, fuel: nat)
    ensures entries.Keys <= Load(entries, a, modules, content, checkMain, fuel).after.Keys
    decreases fuel, 1, 0
  {
    ImportsKeep(entries, a, modules, a.imports(content), 0, [], fuel);
  }

  /** With a sound analysis, only the unit loaded with the main check can fail for
      want of `main`. */
  lemma {:induction false} ImportsNoMainError(entries: Store, a: Analysis, modules: Modules,
                                              paths: seq<Result<string>>, i: nat, acc: seq<FunctionDef>, fuel: nat)
    requires i <= |paths| && PanicsOnly(paths) && Sound(a)
    ensures LoadImports(entries, a, modules, paths, i, acc, fuel).result != Failure(Fatal("No main function"))
    decreases fuel, 0, |paths| - i
  {
    if i < |paths| && paths[i].Ok? {
      var path := paths[i].value;
      if path !in modules {
        MissingIsNotNoMain(path);
      } else if fuel > 0 {
        var sub := Load(entries, a, modules, modules[path], false, fuel - 1);
        LoadNoMainError(entries, a, modules, modules[path], fuel - 1);
        if sub.result.Ok? {
          ImportsNoMainError(sub.after, a, modules, paths, i + 1, acc + sub.result.value, fuel);
        }
      }
    }
  }

  lemma {:induction false} LoadNoMainError(entries: Store, a: Analysis, modules: Modules, content: string,
                                           fuel: nat)
    requires Sound(a)
    ensures Load(entries, a, modules, content, false, fuel).result != Failure(Fatal("No main function"))
    decreases fuel, 1, 0
  {
    ImportsNoMainError(entries, a, modules, a.imports(content), 0, [], fuel);
  }

  /** Loading keeps a faithful cache faithful. */
  lemma {:induction false} ImportsFaithful(entries: Store, a: Analysis, modules: Modules,
                                           paths: seq<Result<string>>, i: nat, acc: seq<FunctionDef>, fuel: nat)
    requires i <= |paths| && Injective(a.hash) && Faithful(entries, a)
    ensures Faithful(LoadImports(entries, a, modules, paths, i, acc, fuel).after, a)
    decreases fuel, 0, |paths| - i
  {
    if i < |paths| && paths[i].Ok? && paths[i].value in modules && fuel > 0 {
      var path := paths[i].value;
      var sub := Load(entries, a, modules, modules[path], false, fuel - 1);
      LoadFaithful(entries, a, modules, modules[path], false, fuel - 1);
      if sub.result.Ok? {
        ImportsFaithful(sub.after, a, modules, paths, i + 1, acc + sub.result.value, fuel);
      }
    }
  }

  lemma {:induction false} LoadFaithful(entries: Store, a: Analysis, modules: Modules, content: string,
                                        checkMain: bool, fuel: nat)
    requires Injective(a.hash) && Faithful(entries, a)
    ensures Faithful(Load(entries, a, modules, content, checkMain, fuel).after, a)
    decreases fuel, 1, 0
  {
    var imports := LoadImports(entries, a, modules, a.imports(content), 0, [], fuel);
    ImportsFaithful(entries, a, modules, a.imports(content), 0, [], fuel);
    if imports.result.Ok? && a.hash(content) !in imports.after && a.own(content).Ok? {
      StoreKeepsFaithful(imports.after, a, content, a.own(content).value);
    }
  }

  /** With a faithful cache and a collision-free hash, the imports load through the
      cache to what they load to without it. */
  lemma {:induction false} CachedImports(entries: Store, a: Analysis, modules: Modules,
                                         paths: seq<Result<string>>, i: nat, acc: seq<FunctionDef>, fuel: nat)
    requires i <= |paths| && Injective(a.hash) && Faithful(entries, a)
    ensures LoadImports(entries, a, modules, paths, i, acc, fuel).result == PureImports(a, modules, paths, i, acc, fuel)
    decreases fuel, 0, |paths| - i
  {
    if i < |paths| && paths[i].Ok? && paths[i].value in modules && fuel > 0 {
      var path := paths[i].value;
      var sub := Load(entries, a, modules, modules[path], false, fuel - 1);
      CachedLoad(entries, a, modules, modules[path], false, fuel - 1);
      if sub.result.Ok? {
        LoadFaithful(entries, a, modules, modules[path], false, fuel - 1);
        CachedImports(sub.after, a, modules, paths, i + 1, acc + sub.result.value, fuel);
      }
    }
  }

  /** With a faithful cache and a collision-free hash, loading through the cache
      answers what loading without it answers, except that a cache hit skips the main
      check; every table it answers is the one loading without the main check gives. */
  lemma {:induction false} CachedLoad(entries: Store, a: Analysis, modules: Modules, content: string,
                                      checkMain: bool, fuel: nat)
    requires Injective(a.hash) && Faithful(entries, a)
    ensures var r := Load(entries, a, modules, content, checkMain, fuel);
            var pure := PureLoad(a, modules, content, checkMain, fuel);
            && (|| r.result == pure
                || (checkMain && pure == Failure(Fatal("No main function"))
                    && r.result == PureLoad(a, modules, content, false, fuel)))
            && (r.result.Ok? ==> r.result == PureLoad(a, modules, content, false, fuel))
    decreases fuel, 1, 0
  {
    CachedImports(entries, a, modules, a.imports(content), 0, [], fuel);
    var imports := LoadImports(entries, a, modules, a.imports(content), 0, [], fuel);
    if imports.result.Ok? && a.hash(content) in imports.after {
      ImportsFaithful(entries, a, modules, a.imports(content), 0, [], fuel);
      assert a.own(content) == Ok(imports.after[a.hash(content)]);
    }
  }

  /** Store-then-load is the identity: once a unit has loaded, loading it again
      from the cache it left behind gives the same table. */
  lemma StoreThenLoad(entries: Store, a: Analysis, modules: Modules, content: string, checkMain: bool, fuel: nat)
    requires Injective(a.hash) && Faithful(entries, a)
    ensures var first := Load(entries, a, modules, content, checkMain, fuel);
            var second := Load(first.after, a, modules, content, checkMain, fuel);
            first.result.Ok? ==> second.result == first.result
  {
    var first := Load(entries, a, modules, content, checkMain, fuel);
    if first.result.Ok? {
      var paths := a.imports(content);
      LoadFaithful(entries, a, modules, content, checkMain, fuel);
      CachedLoad(entries, a, modules, content, checkMain, fuel);
      CachedLoad(first.after, a, modules, content, checkMain, fuel);
      OwnThenImported(entries, a, modules, content, checkMain, fuel);
      CachedImports(entries, a, modules, paths, 0, [], fuel);
      CachedImports(first.after, a, modules, paths, 0, [], fuel);
      ImportsKeep(first.after, a, modules, paths, 0, [], fuel);
      OwnThenImported(first.after, a, modules, content, checkMain, fuel);
    }
  }

  /** The cache is written before the main check: a program without `main` fails
      the first time and, loaded again from the cache it left, passes. */
  lemma SecondRunSkipsMainCheck(entries: Store, a: Analysis, modules: Modules, content: string, fuel: nat)
    requires Injective(a.hash) && Faithful(entries, a) && Sound(a)
    ensures var first := Load(entries, a, modules, content, true, fuel);
            var second := Load(first.after, a, modules, content, true, fuel);
            first.result == Failure(Fatal("No main function")) ==> second.result.Ok?
  {
    var first := Load(entries, a, modules, content, true, fuel);
    if first.result == Failure(Fatal("No main function")) {
      var paths := a.imports(content);
      ImportsNoMainError(entries, a, modules, paths, 0, [], fuel);
      LoadFaithful(entries, a, modules, content, true, fuel);
      CachedImports(entries, a, modules, paths, 0, [], fuel);
      CachedImports(first.after, a, modules, paths, 0, [], fuel);
      ImportsKeep(first.after, a, modules, paths, 0, [], fuel);
      OwnThenImported(first.after, a, modules, content, true, fuel);
    }
  }
}
