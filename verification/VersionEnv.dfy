/**
 * The version env file that pins a Docker bundle: `updateVersionEnv` rewrites one
 * assignment among arbitrary other lines, `parseVersionEnvPin` reads it back
 * (docker_release_identity.go, artifact.go, docker_manifest.go). Text is a sequence of
 * Unicode characters.
 */
module VersionEnv {
  import opened Basics
  import opened Text

  const NAME := "AUTOSTREAM_DOCKER_VERSION"
  const KEY := "AUTOSTREAM_DOCKER_VERSION="

  // --- Pins -------------------------------------------------------------------

  predicate IsAlphanumeric(c: char) {
    IsDigit(c) || 'a' <= c <= 'z' || 'A' <= c <= 'Z'
  }

  predicate AllDigits(s: string) {
    s != "" && forall i :: 0 <= i < |s| ==> IsDigit(s[i])
  }

  predicate AllAlphanumeric(s: string) {
    s != "" && forall i :: 0 <= i < |s| ==> IsAlphanumeric(s[i])
  }

  /** `versionPattern`: v, three dotted numbers, and an optional suffix of dot or dash separated words. */
  predicate IsVersion(s: string) {
    && s != "" && s[0] == 'v'
    && (var words := Split(s[1..], '-');
        && (var numbers := Split(words[0], '.');
            |numbers| == 3 && forall k :: 0 <= k < 3 ==> AllDigits(numbers[k]))
        && forall k :: 1 <= k < |words| ==>
             forall part :: part in Split(words[k], '.') ==> AllAlphanumeric(part))
  }

  /** `digestPattern` */
  predicate IsDigest(s: string) {
    && |s| == 71 && s[..7] == "sha256:"
    && forall i :: 7 <= i < 71 ==> IsDigit(s[i]) || 'a' <= s[i] <= 'f'
  }

  datatype Pin = Pin(version: string, digest: string)

  /** The text `version@digest`, taken apart and checked. */
  function ParsePin(value: string): (r: Option<Pin>) {
    var parts := Split(value, '@');
    if |parts| == 2 && IsVersion(parts[0]) && IsDigest(parts[1]) then Some(Pin(parts[0], parts[1])) else None
  }

  /** The characters a pin is made of. */
  predicate IsPinChar(c: char) {
    IsAlphanumeric(c) || c == '.' || c == '-' || c == ':' || c == '@'
  }

  lemma VersionChars(s: string, c: char)
    requires IsVersion(s) && c in s
    ensures IsAlphanumeric(c) || c == '.' || c == '-'
  {
    if c != s[0] && c != '-' && c != '.' {
      assert c in s[1..];
      SplitCovers(s[1..], '-', c);
      var word :| word in Split(s[1..], '-') && c in word;
      SplitCovers(word, '.', c);
    }
  }

  lemma DigestChars(s: string, c: char)
    requires IsDigest(s) && c in s
    ensures IsAlphanumeric(c) || c == ':'
  {
    var i :| 0 <= i < |s| && s[i] == c;
    if i < 7 {
      assert c == s[..7][i];
    }
  }

  /** A pin's text is `version@digest` and nothing else. */
  lemma PinText(value: string)
    requires ParsePin(value).Some?
    ensures var pin := ParsePin(value).value;
            value == pin.version + "@" + pin.digest
    ensures forall i :: 0 <= i < |value| ==> IsPinChar(value[i])
    ensures value != ""
  {
    var pin := ParsePin(value).value;
    SplitsBack(value, '@');
    assert Split(value, '@') == [pin.version, pin.digest];
    assert [pin.version, pin.digest][1..] == [pin.digest];
    forall i | 0 <= i < |value| ensures IsPinChar(value[i]) {
      if i < |pin.version| {
        VersionChars(pin.version, value[i]);
      } else if i > |pin.version| {
        DigestChars(pin.digest, value[i]);
      }
    }
  }

  /** Conversely every version and digest make a pin. */
  lemma PinOfParts(pin: Pin)
    requires IsVersion(pin.version) && IsDigest(pin.digest)
    ensures ParsePin(pin.version + "@" + pin.digest) == Some(pin)
  {
    if '@' in pin.version {
      VersionChars(pin.version, '@');
    }
    if '@' in pin.digest {
      DigestChars(pin.digest, '@');
    }
    SplitCons(pin.version, pin.digest, '@');
    SplitSingle(pin.digest, '@');
  }

  // --- Lines --------------------------------------------------------------------

  lemma {:induction false} TrimLeftAppend(s: string, c: char)
    requires IsSpace(c)
    ensures TrimLeft(s + [c]) == (if TrimLeft(s) == "" then "" else TrimLeft(s) + [c])
  {
    if s == "" {
      assert (s + [c])[1..] == "";
    } else if IsSpace(s[0]) {
      assert (s + [c])[1..] == s[1..] + [c];
      TrimLeftAppend(s[1..], c);
    }
  }

  /** A trailing space is invisible to `TrimSpace`. */
  lemma TrimAppend(s: string, c: char)
    requires IsSpace(c)
    ensures TrimSpace(s + [c]) == TrimSpace(s)
  {
    TrimLeftAppend(s, c);
    var t := TrimLeft(s);
    assert (t + [c])[..|t|] == t;
  }

  predicate IsAssignment(line: string) {
    HasPrefix(TrimSpace(line), KEY)
  }

  function ValueOf(line: string): string
    requires IsAssignment(line)
  {
    TrimSpace(line)[|KEY|..]
  }

  /** The value a line assigns to the key, if it does. */
  function Assigned(line: string): Option<string> {
    if IsAssignment(line) then Some(ValueOf(line)) else None
  }

  function Unrelated(line: string): Option<string> {
    if IsAssignment(line) then None else Some(line)
  }

  /** The values assigned to the key, in line order. */
  function Values(lines: seq<string>): seq<string> {
    Select(Assigned, lines)
  }

  /** The lines that are not assignments to the key, in order. */
  function Others(lines: seq<string>): seq<string> {
    Select(Unrelated, lines)
  }

  function DropTrailingEmpty(lines: seq<string>): (r: seq<string>)
    ensures r <= lines
  {
    if lines != [] && lines[|lines| - 1] == "" then DropTrailingEmpty(lines[..|lines| - 1]) else lines
  }

  /** `strings.ReplaceAll(s, "\r\n", "\n")` */
  function NormalizeNewlines(s: string): string {
    if |s| >= 2 && s[0] == '\r' && s[1] == '\n' then ['\n'] + NormalizeNewlines(s[2..])
    else if s == "" then ""
    else [s[0]] + NormalizeNewlines(s[1..])
  }

  function Lines(text: string): (lines: seq<string>)
    ensures |lines| >= 1
  {
    Split(NormalizeNewlines(text), '\n')
  }

  lemma EmptyLine()
    ensures !IsAssignment("") && Values([""]) == [] && Others([""]) == [""]
  {
    assert TrimSpace("") == "";
    SelectOne(Assigned, "");
    SelectOne(Unrelated, "");
  }

  // --- Reading the pin --------------------------------------------------------------

  /** Only the last assignment may be non-empty. */
  predicate LastOnly(values: seq<string>) {
    forall k :: 0 <= k < |values| - 1 ==> values[k] == ""
  }

  /** What `parseVersionEnvPin` accepts: the last assignment is a pin, all earlier ones are empty. */
  function PinOf(text: string): (r: Option<Pin>) {
    var values := Values(Lines(text));
    if values != [] && LastOnly(values) then ParsePin(values[|values| - 1]) else None
  }

  /** The loop of `parseVersionEnvPin`: a second assignment after a non-empty one is an error. */
  method FindAssignment(lines: seq<string>) returns (found: Option<string>)
    ensures found.Some? <==> LastOnly(Values(lines))
    ensures found.Some? ==> found.value == LastOf(Values(lines))
  {
    var last := "";
    ghost var seen: seq<string> := [];
    for i := 0 to |lines|
      invariant seen == Values(lines[..i]) && LastOnly(seen)
      invariant last == LastOf(seen)
    {
      SelectNext(Assigned, lines, i);
      var line := TrimSpace(lines[i]);
      if HasPrefix(line, KEY) {
        if last != "" {
          SelectPrefix(Assigned, lines, i + 1);
          TwoAssigned(Values(lines), |seen| - 1);
          return None;
        }
        last := line[|KEY|..];
        seen := seen + [last];
      }
    }
    assert lines[..|lines|] == lines;
    found := Some(last);
  }

  function LastOf(values: seq<string>): string {
    if values == [] then "" else values[|values| - 1]
  }

  lemma TwoAssigned(values: seq<string>, k: nat)
    requires k < |values| - 1 && values[k] != ""
    ensures !LastOnly(values)
  {
  }

  /** `parseVersionEnvPin` */
  method ParseVersionEnvPin(text: string) returns (r: Option<Pin>)
    ensures r == PinOf(text)
  {
    var found := FindAssignment(Lines(text));
    if found.None? {
      return None;
    }
    r := ParsePin(found.value);
  }

  // --- Writing the pin ----------------------------------------------------------------

  /** Every assignment line rewritten, all other lines kept in place. */
  function Rewritten(lines: seq<string>, assignment: string): (r: seq<string>)
    ensures |r| == |lines|
    ensures forall i :: 0 <= i < |lines| ==> r[i] == if IsAssignment(lines[i]) then assignment else lines[i]
  {
    seq(|lines|, i requires 0 <= i < |lines| => if IsAssignment(lines[i]) then assignment else lines[i])
  }

  /** The lines `updateVersionEnv` joins, for an original with at most one assignment. */
  function UpdatedLines(lines: seq<string>, assignment: string): seq<string> {
    if Values(lines) != [] then Rewritten(lines, assignment)
    else (if lines == [""] then [] else lines) + [assignment]
  }

  /** `strings.TrimRight(s, "\n")` */
  function TrimNewlines(s: string): string {
    if s != "" && s[|s| - 1] == '\n' then TrimNewlines(s[..|s| - 1]) else s
  }

  /** The updated file, and exactly when there is one. */
  function Updated(original: string, name: string, value: string): (r: Option<string>)
    ensures r.Some? <==> name == NAME && ParsePin(value).Some? && |Values(Lines(original))| <= 1
  {
    if name != NAME || ParsePin(value).None? || |Values(Lines(original))| > 1 then None
    else Some(TrimNewlines(Join(UpdatedLines(Lines(original), KEY + value), '\n')) + "\n")
  }

  /** The loop of `updateVersionEnv`: count the assignments and rewrite each of them. */
  method RewriteAssignments(original: seq<string>, assignment: string) returns (lines: seq<string>, found: nat)
    ensures |lines| == |original|
    ensures forall k :: 0 <= k < |lines| ==> lines[k] == if IsAssignment(original[k]) then assignment else original[k]
    ensures found == |Values(original)|
  {
    lines := original;
    found := 0;
    ghost var seen: seq<string> := [];
    for i := 0 to |original|
      invariant |lines| == |original|
      invariant seen == Values(original[..i]) && found == |seen|
      invariant forall k :: 0 <= k < i ==> lines[k] == if IsAssignment(original[k]) then assignment else original[k]
      invariant forall k :: i <= k < |lines| ==> lines[k] == original[k]
    {
      SelectNext(Assigned, original, i);
      if HasPrefix(TrimSpace(lines[i]), KEY) {
        found := found + 1;
        seen := seen + [ValueOf(original[i])];
        lines := lines[i := assignment];
      }
    }
    assert original[..|original|] == original;
  }

  /** `updateVersionEnv` */
  method UpdateVersionEnv(original: string, name: string, value: string) returns (r: Option<string>)
    ensures r == Updated(original, name, value)
  {
    if name != NAME || ParsePin(value).None? {
      return None;
    }
    var before := Lines(original);
    var lines, found := RewriteAssignments(before, KEY + value);
    if found > 1 {
      return None;
    }
    if found == 0 {
      Unassigned(before, KEY + value);
      if |lines| == 1 && lines[0] == "" {
        lines := [];
      }
      lines := lines + [KEY + value];
    }
    assert lines == UpdatedLines(before, KEY + value);
    r := Some(TrimNewlines(Join(lines, '\n')) + "\n");
  }

  lemma {:induction false} Unassigned(lines: seq<string>, assignment: string)
    requires Values(lines) == []
    ensures Rewritten(lines, assignment) == lines
  {
    forall i | 0 <= i < |lines| ensures !IsAssignment(lines[i]) {
      SelectNext(Assigned, lines, i);
      SelectPrefix(Assigned, lines, i + 1);
    }
  }

  // --- The lines of the updated file ------------------------------------------------------

  /** Equal up to one trailing carriage return per line. */
  predicate SameButReturns(a: seq<string>, b: seq<string>) {
    |a| == |b| && forall k :: 0 <= k < |a| ==> a[k] == b[k] || a[k] == b[k] + "\r"
  }

  lemma SplitHead(c: char, s: string, t: string)
    requires SameButReturns(Split(s, '\n'), Split(t, '\n'))
    ensures SameButReturns(Split([c] + s, '\n'), Split([c] + t, '\n'))
  {
    assert ([c] + s)[1..] == s && ([c] + t)[1..] == t;
    var a, b := Split(s, '\n'), Split(t, '\n');
    assert a[0] == b[0] + "\r" ==> [c] + a[0] == [c] + b[0] + "\r";
  }

  /** Normalizing newlines removes at most one carriage return from the end of each line. */
  lemma {:induction false} NormalizeLines(s: string)
    ensures SameButReturns(Split(s, '\n'), Split(NormalizeNewlines(s), '\n'))
    decreases |s|
  {
    if |s| >= 2 && s[0] == '\r' && s[1] == '\n' {
      NormalizeLines(s[2..]);
      assert s == "\r" + ['\n'] + s[2..];
      SplitCons("\r", s[2..], '\n');
      assert (['\n'] + NormalizeNewlines(s[2..]))[1..] == NormalizeNewlines(s[2..]);
    } else if s != "" {
      NormalizeLines(s[1..]);
      assert NormalizeNewlines(s) == [s[0]] + NormalizeNewlines(s[1..]);
      SplitHead(s[0], s[1..], NormalizeNewlines(s[1..]));
      assert [s[0]] + s[1..] == s;
    }
  }

  lemma {:induction false} NoReturns(s: string)
    requires '\r' !in s
    ensures NormalizeNewlines(s) == s
  {
    if s != "" {
      assert s[0] in s;
      NoReturns(s[1..]);
    }
  }

  lemma SameValues(a: seq<string>, b: seq<string>)
    requires SameButReturns(a, b)
    ensures Values(a) == Values(b)
  {
    forall k | 0 <= k < |a| ensures Assigned(a[k]) == Assigned(b[k]) {
      TrimAppend(b[k], '\r');
    }
    SelectSame(Assigned, a, b);
  }

  lemma {:induction false} TrimJoined(lines: seq<string>)
    requires forall line :: line in lines ==> '\n' !in line
    requires DropTrailingEmpty(lines) != []
    ensures TrimNewlines(Join(lines, '\n')) == Join(DropTrailingEmpty(lines), '\n')
    decreases |lines|
  {
    var n := |lines| - 1;
    var last := lines[n];
    assert lines[..n] + [last] == lines;
    if n > 0 {
      JoinAppend(lines[..n], last, '\n');
    }
    if last == "" {
      TrimJoined(lines[..n]);
      assert Join(lines, '\n')[..|Join(lines, '\n')| - 1] == Join(lines[..n], '\n');
    } else {
      assert last[|last| - 1] in last;
    }
  }

  lemma {:induction false} DropKeeps(lines: seq<string>)
    ensures Values(DropTrailingEmpty(lines)) == Values(lines)
    ensures DropTrailingEmpty(Others(DropTrailingEmpty(lines))) == DropTrailingEmpty(Others(lines))
    decreases |lines|
  {
    EmptyLine();
    var n := |lines| - 1;
    if lines != [] && lines[n] == "" {
      DropKeeps(lines[..n]);
      assert lines[..n] + [""] == lines;
      SelectConcat(Assigned, lines[..n], [""]);
      SelectConcat(Unrelated, lines[..n], [""]);
      assert (Others(lines[..n]) + [""])[..|Others(lines[..n])|] == Others(lines[..n]);
    }
  }

  lemma NothingToTrim(s: string)
    requires s != "" && !IsSpace(s[0]) && !IsSpace(s[|s| - 1])
    ensures TrimSpace(s) == s
  {
  }

  lemma AssignmentLine(value: string)
    requires ParsePin(value).Some?
    ensures IsAssignment(KEY + value) && ValueOf(KEY + value) == value
    ensures '\n' !in KEY + value
  {
    PinText(value);
    var line := KEY + value;
    assert line[|line| - 1] == value[|value| - 1];
    NothingToTrim(line);
  }

  lemma {:induction false} RewrittenLines(lines: seq<string>, assignment: string)
    requires IsAssignment(assignment)
    ensures |Values(Rewritten(lines, assignment))| == |Values(lines)|
    ensures forall v :: v in Values(Rewritten(lines, assignment)) ==> v == ValueOf(assignment)
    ensures Others(Rewritten(lines, assignment)) == Others(lines)
  {
    if lines != [] {
      RewrittenLines(lines[1..], assignment);
      assert Rewritten(lines, assignment)[1..] == Rewritten(lines[1..], assignment);
    }
  }

  /** What the new lines hold: the one pin, and the other lines in their order. */
  lemma UpdatedLinesHold(lines: seq<string>, assignment: string)
    requires IsAssignment(assignment) && |Values(lines)| <= 1
    ensures Values(UpdatedLines(lines, assignment)) == [ValueOf(assignment)]
    ensures DropTrailingEmpty(Others(UpdatedLines(lines, assignment))) == DropTrailingEmpty(Others(lines))
  {
    if Values(lines) != [] {
      RewrittenLines(lines, assignment);
      var values := Values(Rewritten(lines, assignment));
      assert values[0] in values;
    } else {
      AppendedLines(lines, assignment);
    }
  }

  lemma AppendedLines(lines: seq<string>, assignment: string)
    requires IsAssignment(assignment) && Values(lines) == []
    ensures Values(UpdatedLines(lines, assignment)) == [ValueOf(assignment)]
    ensures DropTrailingEmpty(Others(UpdatedLines(lines, assignment))) == DropTrailingEmpty(Others(lines))
  {
    var kept := if lines == [""] then [] else lines;
    EmptyLine();
    SelectConcat(Assigned, kept, [assignment]);
    SelectConcat(Unrelated, kept, [assignment]);
    SelectOne(Assigned, assignment);
    SelectOne(Unrelated, assignment);
    assert Others(kept) + [] == Others(kept);
    assert DropTrailingEmpty([""]) == DropTrailingEmpty([""][..0]) == [];
  }

  /** Joining, trimming and terminating lines gives a file with those lines, less the empty ones at the end. */
  lemma JoinedFile(lines: seq<string>)
    requires forall line :: line in lines ==> '\n' !in line
    requires DropTrailingEmpty(lines) != []
    ensures Split(TrimNewlines(Join(lines, '\n')) + "\n", '\n') == DropTrailingEmpty(lines) + [""]
  {
    var kept := DropTrailingEmpty(lines);
    TrimJoined(lines);
    JoinAppend(kept, "", '\n');
    assert Join(kept, '\n') + "\n" == Join(kept, '\n') + ['\n'] + "";
    SplitJoin(kept + [""], '\n');
  }

  lemma NoNewlines(original: string, assignment: string)
    requires '\n' !in assignment
    ensures forall line :: line in UpdatedLines(Lines(original), assignment) ==> '\n' !in line
  {
    var lines := UpdatedLines(Lines(original), assignment);
    SplitHasNoSeparator(NormalizeNewlines(original), '\n');
    forall line | line in lines ensures '\n' !in line {
      var k :| 0 <= k < |lines| && lines[k] == line;
      assert line in Lines(original) || line == assignment;
    }
  }

  /** The raw lines of the updated file. */
  lemma UpdatedFile(original: string, value: string)
    requires Updated(original, NAME, value).Some?
    ensures var lines := UpdatedLines(Lines(original), KEY + value);
            Split(Updated(original, NAME, value).value, '\n') == DropTrailingEmpty(lines) + [""]
  {
    var lines := UpdatedLines(Lines(original), KEY + value);
    AssignmentLine(value);
    NoNewlines(original, KEY + value);
    UpdatedLinesHold(Lines(original), KEY + value);
    DropKeeps(lines);
    JoinedFile(lines);
  }

  lemma UpdatedValues(original: string, value: string)
    requires Updated(original, NAME, value).Some?
    ensures Values(Split(Updated(original, NAME, value).value, '\n')) == [value]
  {
    var lines := UpdatedLines(Lines(original), KEY + value);
    AssignmentLine(value);
    UpdatedFile(original, value);
    UpdatedLinesHold(Lines(original), KEY + value);
    DropKeeps(lines);
    EmptyLine();
    SelectConcat(Assigned, DropTrailingEmpty(lines), [""]);
  }

  /**
   * Reading back what was written: on every original the update accepts, the parser
   * returns the pin just written, and the file again has exactly one assignment.
   */
  lemma UpdateThenParse(original: string, value: string)
    requires Updated(original, NAME, value).Some?
    ensures PinOf(Updated(original, NAME, value).value) == ParsePin(value)
    ensures Values(Lines(Updated(original, NAME, value).value)) == [value]
  {
    var out := Updated(original, NAME, value).value;
    UpdatedValues(original, value);
    NormalizeLines(out);
    SameValues(Split(out, '\n'), Lines(out));
  }

  lemma UpdatedOthers(original: string, value: string)
    requires Updated(original, NAME, value).Some?
    ensures DropTrailingEmpty(Others(Split(Updated(original, NAME, value).value, '\n'))) ==
            DropTrailingEmpty(Others(Lines(original)))
  {
    var lines := UpdatedLines(Lines(original), KEY + value);
    AssignmentLine(value);
    UpdatedFile(original, value);
    UpdatedLinesHold(Lines(original), KEY + value);
    DropKeeps(lines);
    EmptyLine();
    DropLast(Others(DropTrailingEmpty(lines)));
    SelectConcat(Unrelated, DropTrailingEmpty(lines), [""]);
  }

  lemma DropLast(lines: seq<string>)
    ensures DropTrailingEmpty(lines + [""]) == DropTrailingEmpty(lines)
  {
    assert (lines + [""])[..|lines|] == lines;
  }

  /**
   * The other lines are kept in order, up to blank lines at the end of the file; for an
   * original without carriage returns these are its raw lines.
   */
  lemma UpdateKeepsOtherLines(original: string, value: string)
    requires Updated(original, NAME, value).Some?
    ensures var out := Updated(original, NAME, value).value;
            && DropTrailingEmpty(Others(Split(out, '\n'))) == DropTrailingEmpty(Others(Lines(original)))
            && ('\r' !in original ==> Lines(original) == Split(original, '\n'))
  {
    UpdatedOthers(original, value);
    if '\r' !in original {
      NoReturns(original);
    }
  }
}
