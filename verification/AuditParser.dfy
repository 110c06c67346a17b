/** The list of audit exceptions: a line parser, and the printer that it inverts. */
module AuditParser {
  import opened Wrappers

  type Record = map<string, string>

  /** The line that could not be split. */
  datatype ValueError = ValueError(line: string)

  // ---------- Strings ----------

  /** The white space that Python strips. */
  predicate Space(c: char) {
    var n := c as int;
    9 <= n <= 13 || 28 <= n <= 32 || n == 0x85 || n == 0xA0 || n == 0x1680 || 0x2000 <= n <= 0x200A || n == 0x2028 || n == 0x2029
    || n == 0x202F || n == 0x205F || n == 0x3000
  }

  /** Tab to carriage return, the separators from 28 to space, and the spaces of Unicode. */
  lemma WhiteSpace(c: char)
    ensures Space(c) <==> c as int in {
      9, 10, 11, 12, 13, 28, 29, 30, 31, 32, 0x85, 0xA0, 0x1680, 0x2000, 0x2001, 0x2002, 0x2003, 0x2004, 0x2005, 0x2006, 0x2007,
      0x2008, 0x2009, 0x200A, 0x2028, 0x2029, 0x202F, 0x205F, 0x3000}
  {
  }

  function StripLeft(s: string): (r: string)
    ensures r == "" || !Space(r[0])
  {
    if s != "" && Space(s[0]) then StripLeft(s[1..]) else s
  }

  function StripRight(s: string): (r: string)
    ensures r == "" || !Space(r[|r| - 1])
  {
    if s != "" && Space(s[|s| - 1]) then StripRight(s[..|s| - 1]) else s
  }

  function Strip(s: string): string {
    StripRight(StripLeft(s))
  }

  predicate StartsWith(s: string, prefix: string) {
    prefix <= s
  }

  /** Starts and ends with other than white space, or is empty. */
  predicate Trimmed(s: string) {
    s == "" || (!Space(s[0]) && !Space(s[|s| - 1]))
  }

  lemma {:induction false} StripMiddle(left: string, s: string, right: string)
    requires s != "" && Trimmed(s)
    requires forall i :: 0 <= i < |left| ==> Space(left[i])
    requires forall i :: 0 <= i < |right| ==> Space(right[i])
    ensures Strip(left + s + right) == s
  {
    StripLeftOf(left, s + right);
    assert left + s + right == left + (s + right);
    StripRightOf(s, right);
  }

  lemma {:induction false} StripLeftOf(left: string, s: string)
    requires s != "" && !Space(s[0])
    requires forall i :: 0 <= i < |left| ==> Space(left[i])
    ensures StripLeft(left + s) == s
  {
    if left == "" {
      assert left + s == s;
    } else {
      assert (left + s)[1..] == left[1..] + s;
      StripLeftOf(left[1..], s);
    }
  }

  lemma {:induction false} StripRightOf(s: string, right: string)
    requires s != "" && !Space(s[|s| - 1])
    requires forall i :: 0 <= i < |right| ==> Space(right[i])
    ensures StripRight(s + right) == s
  {
    if right == "" {
      assert s + right == s;
    } else {
      assert (s + right)[..|s + right| - 1] == s + right[..|right| - 1];
      StripRightOf(s, right[..|right| - 1]);
    }
  }

  // ---------- One line ----------

  datatype Field = Field(key: string, value: string)

  /** The position of the first colon, or the length. */
  function Colon(s: string): (k: nat)
    ensures k <= |s|
    ensures k < |s| ==> s[k] == ':'
    ensures forall i :: 0 <= i < k ==> s[i] != ':'
  {
    if s == "" || s[0] == ':' then 0 else 1 + Colon(s[1..])
  }

  predicate Quoted(v: string, quote: char) {
    v != "" && v[0] == quote && v[|v| - 1] == quote
  }

  /** Drops one pair of quotes. A lone quote character is its own pair. */
  function Unquoted(v: string): string {
    if !Quoted(v, '"') && !Quoted(v, '\'') then v
    else if |v| == 1 then ""
    else v[1..|v| - 1]
  }

  /** Splits a line at its first colon; a line without one is an error. */
  function SplitKV(line: string): Result<Field, ValueError> {
    if Colon(line) == |line| then Err(ValueError(line))
    else Ok(Field(Strip(line[..Colon(line)]), Unquoted(Strip(line[Colon(line) + 1..]))))
  }

  datatype State = State(finished: seq<Record>, current: Option<Record>)

  /** Records without fields are dropped. */
  function Finished(s: State): seq<Record> {
    if s.current.Some? && s.current.value != map[] then s.finished + [s.current.value] else s.finished
  }

  /** Blank lines, comments, and the two header keys. */
  predicate Ignored(raw: string) {
    var line := Strip(raw);
    line == "" || StartsWith(line, "#") || StartsWith(line, "version:") || StartsWith(line, "exceptions:")
  }

  function Put(s: State, line: string): Result<State, ValueError> {
    match SplitKV(line)
    case Err(e) => Err(e)
    case Ok(f) => Ok(State(s.finished, Some((if s.current.Some? then s.current.value else map[])[f.key := f.value])))
  }

  /** What one line does. */
  function Step(s: State, raw: string): Result<State, ValueError> {
    var line := Strip(raw);
    if Ignored(raw) then Ok(s)
    else if StartsWith(line, "- ") then
      var started := State(Finished(s), Some(map[]));
      var rest := Strip(line[2..]);
      if rest == "" then Ok(started) else Put(started, rest)
    else if s.current.Some? && ':' in line then Put(s, line)
    else Ok(s)
  }

  function Run(s: State, lines: seq<string>): Result<State, ValueError>
    decreases |lines|
  {
    if lines == [] then Ok(s)
    else
      match Step(s, lines[0])
      case Err(e) => Err(e)
      case Ok(t) => Run(t, lines[1..])
  }

  function Parsed(lines: seq<string>): Result<seq<Record>, ValueError> {
    match Run(State([], None), lines)
    case Err(e) => Err(e)
    case Ok(s) => Ok(Finished(s))
  }

  method SplitLine(line: string) returns (r: Result<Field, ValueError>)
    ensures r == SplitKV(line)
  {
    var k := Colon(line);
    if k == |line| {
      return Err(ValueError(line));
    }
    var value := Strip(line[k + 1..]);
    if Quoted(value, '"') || Quoted(value, '\'') {
      value := if |value| == 1 then "" else value[1..|value| - 1];
    }
    return Ok(Field(Strip(line[..k]), value));
  }

  /** Reads the exceptions line by line. */
  method ParseExceptions(lines: seq<string>) returns (r: Result<seq<Record>, ValueError>)
    ensures r == Parsed(lines)
  {
    var exceptions: seq<Record>, current: Option<Record> := [], None;
    for i := 0 to |lines|
      invariant Run(State([], None), lines) == Run(State(exceptions, current), lines[i..])
    {
      var line := Strip(lines[i]);
      assert lines[i..][1..] == lines[i + 1..];
      if line == "" || StartsWith(line, "#") {
        continue;
      }
      if StartsWith(line, "version:") || StartsWith(line, "exceptions:") {
        continue;
      }
      if StartsWith(line, "- ") {
        if current.Some? && current.value != map[] {
          exceptions := exceptions + [current.value];
        }
        current := Some(map[]);
        line := Strip(line[2..]);
        if line != "" {
          var kv := SplitLine(line);
          if kv.Err? {
            return Err(kv.error);
          }
          current := Some(current.value[kv.value.key := kv.value.value]);
        }
        continue;
      }
      if current.Some? && ':' in line {
        var kv := SplitLine(line);
        if kv.Err? {
          return Err(kv.error);
        }
        current := Some(current.value[kv.value.key := kv.value.value]);
      }
    }
    if current.Some? && current.value != map[] {
      exceptions := exceptions + [current.value];
    }
    return Ok(exceptions);
  }

  // ---------- Printing ----------

  /** A key that can be read back: without colons, and without white space at its ends. */
  predicate Key(k: string) {
    ':' !in k && Trimmed(k)
  }

  /** A key that may stand on a continuation line. */
  predicate Continues(k: string) {
    k != "version" && k != "exceptions" && !StartsWith(k, "#") && !StartsWith(k, "- ")
  }

  /** How a value is written: as it is, or in one kind of quotes. */
  datatype Form = Bare | SingleQuoted | DoubleQuoted

  /** A field as it is written. */
  datatype Line = Line(key: string, value: string, form: Form)

  function Shown(l: Line): string {
    match l.form
    case Bare => l.value
    case SingleQuoted => "'" + l.value + "'"
    case DoubleQuoted => "\"" + l.value + "\""
  }

  function Pair(l: Line): string {
    l.key + ":" + if Shown(l) == "" then "" else " " + Shown(l)
  }

  /** The key can be read back; and a bare value must not have white space, or one kind of quote character, at both ends. */
  predicate Readable(l: Line) {
    Key(l.key) && (l.form.Bare? ==> Trimmed(l.value) && !Quoted(l.value, '"') && !Quoted(l.value, '\''))
  }

  predicate Printable(record: seq<Line>) {
    && record != []
    && (forall l :: l in record ==> Readable(l))
    && (forall l :: l in record[1..] ==> Continues(l.key))
  }

  function Continuation(fields: seq<Line>): seq<string> {
    if fields == [] then [] else ["  " + Pair(fields[0])] + Continuation(fields[1..])
  }

  function PrintedRecord(record: seq<Line>): seq<string> {
    if record == [] then [] else ["- " + Pair(record[0])] + Continuation(record[1..])
  }

  function Printed(records: seq<seq<Line>>): seq<string> {
    if records == [] then [] else PrintedRecord(records[0]) + Printed(records[1..])
  }

  /** The record that a list of fields stands for; a repeated key keeps its last value. */
  function RecordOf(before: Record, fields: seq<Line>): Record
    decreases |fields|
  {
    if fields == [] then before else RecordOf(before[fields[0].key := fields[0].value], fields[1..])
  }

  function RecordsOf(records: seq<seq<Line>>): seq<Record> {
    if records == [] then [] else [RecordOf(map[], records[0])] + RecordsOf(records[1..])
  }

  // ---------- Round trip ----------

  lemma {:induction false} ColonAfter(key: string, rest: string)
    requires ':' !in key
    ensures Colon(key + ":" + rest) == |key|
  {
    if key == "" {
      assert key + ":" + rest == ":" + rest;
    } else {
      assert (key + ":" + rest)[1..] == key[1..] + ":" + rest;
      ColonAfter(key[1..], rest);
    }
  }

  lemma {:induction false} SplitAtColon(key: string, tail: string)
    requires Key(key)
    ensures SplitKV(key + ":" + tail) == Ok(Field(key, Unquoted(Strip(tail))))
  {
    var line := key + ":" + tail;
    ColonAfter(key, tail);
    assert line[..|key|] == key && line[|key| + 1..] == tail;
    StripTrimmed(key);
  }

  /** Splitting inverts printing: a bare value comes back as it is, and a quoted one without its outermost pair of quotes. */
  lemma {:induction false} SplitInvertsPair(l: Line)
    requires Readable(l)
    ensures SplitKV(Pair(l)) == Ok(Field(l.key, l.value))
  {
    SplitAtColon(l.key, if Shown(l) == "" then "" else " " + Shown(l));
    ShownValue(l);
    StripTail(Shown(l));
  }

  lemma {:induction false} ShownValue(l: Line)
    requires Readable(l)
    ensures Trimmed(Shown(l)) && Unquoted(Shown(l)) == l.value
  {
    if !l.form.Bare? {
      assert Shown(l)[1..|Shown(l)| - 1] == l.value;
    }
  }

  lemma {:induction false} StripTail(shown: string)
    requires Trimmed(shown)
    ensures Strip(if shown == "" then "" else " " + shown) == shown
  {
    if shown != "" {
      assert " " + shown + "" == " " + shown;
      StripMiddle(" ", shown, "");
    }
  }

  /** A lone quote character is read as the empty value. */
  lemma {:induction false} SplitLoneQuote(key: string, quote: string)
    requires Key(key) && (quote == "\"" || quote == "'")
    ensures SplitKV(key + ": " + quote) == Ok(Field(key, ""))
  {
    assert key + ": " + quote == key + ":" + (" " + quote);
    SplitAtColon(key, " " + quote);
    StripTail(quote);
  }

  lemma {:induction false} StripTrimmed(s: string)
    requires Trimmed(s)
    ensures Strip(s) == s
  {
    if s != "" {
      assert "" + s + "" == s;
      StripMiddle("", s, "");
    }
  }

  lemma PairTrimmed(f: Line)
    requires Readable(f)
    ensures Pair(f) != "" && Trimmed(Pair(f)) && ':' in Pair(f)
  {
    ShownValue(f);
    assert Pair(f)[|f.key|] == ':';
    assert Pair(f)[|Pair(f)| - 1] == if Shown(f) == "" then ':' else Shown(f)[|Shown(f)| - 1];
  }

  lemma {:induction false} PairStart(f: Line, name: string)
    requires Readable(f) && ':' !in name
    ensures StartsWith(Pair(f), name + ":") <==> f.key == name
  {
    assert Pair(f)[..|f.key|] == f.key && Pair(f)[|f.key|] == ':';
    if StartsWith(Pair(f), name + ":") {
      assert Pair(f)[|name|] == (name + ":")[|name|] == ':';
      assert forall i :: 0 <= i < |name| ==> Pair(f)[i] == (name + ":")[i] == name[i];
      assert forall i :: 0 <= i < |f.key| ==> Pair(f)[i] == f.key[i];
    }
  }

  lemma {:induction false} PairDash(f: Line)
    requires Readable(f)
    ensures StartsWith(Pair(f), "- ") <==> StartsWith(f.key, "- ")
    ensures StartsWith(Pair(f), "#") <==> StartsWith(f.key, "#")
  {
    assert Pair(f)[..|f.key|] == f.key && Pair(f)[|f.key|] == ':';
    if StartsWith(Pair(f), "- ") {
      assert Pair(f)[0] == '-' && Pair(f)[1] == ' ';
      assert |f.key| >= 2 && f.key[0] == '-' && f.key[1] == ' ';
    }
  }

  lemma {:induction false} ContinuationLine(f: Line)
    requires Readable(f)
    ensures Strip("  " + Pair(f)) == Pair(f)
    ensures StartsWith(Pair(f), "version:") <==> f.key == "version"
    ensures StartsWith(Pair(f), "exceptions:") <==> f.key == "exceptions"
    ensures StartsWith(Pair(f), "#") <==> StartsWith(f.key, "#")
    ensures StartsWith(Pair(f), "- ") <==> StartsWith(f.key, "- ")
  {
    PairTrimmed(f);
    assert "  " + Pair(f) + "" == "  " + Pair(f);
    StripMiddle("  ", Pair(f), "");
    assert "version" + ":" == "version:" && "exceptions" + ":" == "exceptions:";
    PairStart(f, "version");
    PairStart(f, "exceptions");
    PairDash(f);
  }

  lemma {:induction false} Continued(s: State, f: Line)
    requires Readable(f) && Continues(f.key) && s.current.Some?
    ensures Step(s, "  " + Pair(f)) == Ok(State(s.finished, Some(s.current.value[f.key := f.value])))
  {
    ContinuationLine(f);
    PairTrimmed(f);
    SplitInvertsPair(f);
  }

  /** A continuation line sets its field exactly when its key continues: other keys are skipped or start a new record. */
  lemma {:induction false} SetsIffContinues(s: State, f: Line)
    requires Readable(f) && s.current.Some? && s.current.value != map[] && f.key !in s.current.value
    ensures Step(s, "  " + Pair(f)) == Ok(State(s.finished, Some(s.current.value[f.key := f.value]))) <==> Continues(f.key)
  {
    ContinuationLine(f);
    PairTrimmed(f);
    if Continues(f.key) {
      Continued(s, f);
    } else if Ignored("  " + Pair(f)) {
      assert f.key in s.current.value[f.key := f.value];
    } else {
      assert |Finished(s)| == |s.finished| + 1;
    }
  }

  lemma {:induction false} FirstLine(f: Line)
    requires Readable(f)
    ensures var line := "- " + Pair(f);
            Strip(line) == line && StartsWith(line, "- ") && Strip(line[2..]) == Pair(f) && !Ignored(line)
  {
    PairTrimmed(f);
    var line := "- " + Pair(f);
    assert line[|line| - 1] == Pair(f)[|Pair(f)| - 1] && line[0] == '-' && line[1] == ' ';
    StripTrimmed(line);
    assert line[2..] == Pair(f);
    StripTrimmed(Pair(f));
  }

  lemma {:induction false} StepFirst(s: State, raw: string, rest: string)
    requires !Ignored(raw) && StartsWith(Strip(raw), "- ") && Strip(Strip(raw)[2..]) == rest && rest != ""
    ensures Step(s, raw) == Put(State(Finished(s), Some(map[])), rest)
  {
  }

  lemma {:induction false} PutPair(s: State, f: Line)
    requires Readable(f) && s.current.Some?
    ensures Put(s, Pair(f)) == Ok(State(s.finished, Some(s.current.value[f.key := f.value])))
  {
    SplitInvertsPair(f);
  }

  lemma {:induction false} Started(s: State, f: Line)
    requires Readable(f)
    ensures Step(s, "- " + Pair(f)) == Ok(State(Finished(s), Some(map[f.key := f.value])))
  {
    FirstLine(f);
    PairTrimmed(f);
    StepFirst(s, "- " + Pair(f), Pair(f));
    PutPair(State(Finished(s), Some(map[])), f);
    assert map[][f.key := f.value] == map[f.key := f.value];
  }

  lemma {:induction false} RunContinuation(s: State, fields: seq<Line>, rest: seq<string>)
    requires s.current.Some? && forall f :: f in fields ==> Readable(f) && Continues(f.key)
    ensures Run(s, Continuation(fields) + rest) == Run(State(s.finished, Some(RecordOf(s.current.value, fields))), rest)
    decreases |fields|
  {
    if fields == [] {
      assert Continuation(fields) + rest == rest;
    } else {
      var t := State(s.finished, Some(s.current.value[fields[0].key := fields[0].value]));
      Continued(s, fields[0]);
      RunLine(s, "  " + Pair(fields[0]), Continuation(fields[1..]), rest, t);
      RunContinuation(t, fields[1..], rest);
    }
  }

  lemma {:induction false} RunLine(s: State, line: string, lines: seq<string>, rest: seq<string>, t: State)
    requires Step(s, line) == Ok(t)
    ensures Run(s, [line] + lines + rest) == Run(t, lines + rest)
  {
    var all := [line] + lines + rest;
    assert all[0] == line && all[1..] == lines + rest;
  }

  lemma {:induction false} RunRecord(s: State, record: seq<Line>, rest: seq<string>)
    requires Printable(record)
    ensures Run(s, PrintedRecord(record) + rest) == Run(State(Finished(s), Some(RecordOf(map[], record))), rest)
  {
    var f := record[0];
    var t := State(Finished(s), Some(map[f.key := f.value]));
    Started(s, f);
    RunLine(s, "- " + Pair(f), Continuation(record[1..]), rest, t);
    RunContinuation(t, record[1..], rest);
    assert map[][f.key := f.value] == map[f.key := f.value];
  }

  lemma {:induction false} RecordNotEmpty(before: Record, fields: seq<Line>)
    requires before != map[] || fields != []
    ensures RecordOf(before, fields) != map[]
    decreases |fields|
  {
    if fields != [] {
      assert fields[0].key in before[fields[0].key := fields[0].value];
      RecordNotEmpty(before[fields[0].key := fields[0].value], fields[1..]);
    }
  }

  /** The state after reading printed records. */
  function After(s: State, records: seq<seq<Line>>): State
    decreases |records|
  {
    if records == [] then s else After(State(Finished(s), Some(RecordOf(map[], records[0]))), records[1..])
  }

  ghost predicate AllPrintable(records: seq<seq<Line>>) {
    forall r :: r in records ==> Printable(r)
  }

  lemma {:induction false} RunPrinted(s: State, records: seq<seq<Line>>)
    requires AllPrintable(records)
    ensures Run(s, Printed(records)) == Ok(After(s, records))
    decreases |records|
  {
    if records != [] {
      assert records[0] in records;
      RunRecord(s, records[0], Printed(records[1..]));
      RunPrinted(State(Finished(s), Some(RecordOf(map[], records[0]))), records[1..]);
    }
  }

  lemma {:induction false} NextFinished(s: State, record: seq<Line>)
    requires record != []
    ensures Finished(State(Finished(s), Some(RecordOf(map[], record)))) == Finished(s) + [RecordOf(map[], record)]
  {
    RecordNotEmpty(map[], record);
  }

  lemma {:induction false} AllFinished(s: State, records: seq<seq<Line>>)
    requires AllPrintable(records)
    ensures Finished(After(s, records)) == Finished(s) + RecordsOf(records)
    decreases |records|
  {
    if records != [] {
      assert records[0] in records;
      var first, rest := RecordOf(map[], records[0]), RecordsOf(records[1..]);
      NextFinished(s, records[0]);
      AllFinished(State(Finished(s), Some(first)), records[1..]);
      assert Finished(s) + [first] + rest == Finished(s) + ([first] + rest);
    }
  }

  /** The lines that are not ignored. */
  function Significant(lines: seq<string>): seq<string> {
    if lines == [] then [] else (if Ignored(lines[0]) then [] else [lines[0]]) + Significant(lines[1..])
  }

  /** Blank lines, comments and header keys may stand anywhere. */
  lemma {:induction false} RunSignificant(s: State, lines: seq<string>)
    ensures Run(s, lines) == Run(s, Significant(lines))
    decreases |lines|
  {
    if lines != [] {
      if Ignored(lines[0]) {
        assert Significant(lines) == Significant(lines[1..]);
        RunSignificant(s, lines[1..]);
      } else {
        assert Significant(lines)[1..] == Significant(lines[1..]);
        if Step(s, lines[0]).Ok? {
          RunSignificant(Step(s, lines[0]).value, lines[1..]);
        }
      }
    }
  }

  /** The lines without the white space around them. */
  function Stripped(lines: seq<string>): (r: seq<string>)
    ensures |r| == |lines| && forall i :: 0 <= i < |lines| ==> r[i] == Strip(lines[i])
  {
    seq(|lines|, i requires 0 <= i < |lines| => Strip(lines[i]))
  }

  /** Indentation does not matter. */
  lemma {:induction false} RunStripped(s: State, a: seq<string>, b: seq<string>)
    requires Stripped(a) == Stripped(b)
    ensures Run(s, a) == Run(s, b)
    decreases |a|
  {
    assert |a| == |Stripped(a)| == |Stripped(b)| == |b|;
    if a != [] {
      assert Strip(a[0]) == Stripped(a)[0] == Stripped(b)[0] == Strip(b[0]);
      assert Stripped(a)[1..] == Stripped(a[1..]) && Stripped(b)[1..] == Stripped(b[1..]);
      assert Step(s, a[0]) == Step(s, b[0]);
      if Step(s, a[0]).Ok? {
        RunStripped(Step(s, a[0]).value, a[1..], b[1..]);
      }
    }
  }

  /**
    Parsing inverts printing, in any mixture of the three forms and with any indentation, whatever blank lines, comments and
    header keys stand between the printed lines.
    */
  lemma {:induction false} ParseInvertsPrint(records: seq<seq<Line>>, lines: seq<string>)
    requires AllPrintable(records)
    requires Stripped(Significant(lines)) == Stripped(Printed(records))
    ensures Parsed(lines) == Ok(RecordsOf(records))
  {
    RunSignificant(State([], None), lines);
    RunStripped(State([], None), Significant(lines), Printed(records));
    RunPrinted(State([], None), records);
    AllFinished(State([], None), records);
    assert [] + RecordsOf(records) == RecordsOf(records);
  }

  /** Nothing before the first record line is read. */
  lemma {:induction false} PreambleIgnored(s: State, lines: seq<string>)
    requires s.current == None && forall raw :: raw in lines ==> !StartsWith(Strip(raw), "- ")
    ensures Run(s, lines) == Ok(s)
    decreases |lines|
  {
    if lines != [] {
      assert lines[0] in lines;
      PreambleIgnored(s, lines[1..]);
    }
  }

  /** The one line that cannot be parsed: a first field without a colon. */
  predicate Undivided(raw: string) {
    var line := Strip(raw);
    StartsWith(line, "- ") && Strip(line[2..]) != "" && ':' !in Strip(line[2..])
  }

  lemma {:induction false} ColonFound(s: string)
    ensures Colon(s) < |s| <==> ':' in s
  {
    if Colon(s) < |s| {
      assert s[Colon(s)] in s;
    }
  }

  lemma {:induction false} StepFails(s: State, raw: string)
    ensures Step(s, raw).Err? <==> Undivided(raw)
  {
    var line := Strip(raw);
    ColonFound(line);
    if StartsWith(line, "- ") {
      assert line[0] == '-';
      ColonFound(Strip(line[2..]));
    }
  }

  lemma {:induction false} RunFails(s: State, lines: seq<string>)
    ensures Run(s, lines).Err? <==> exists raw :: raw in lines && Undivided(raw)
    decreases |lines|
  {
    if lines != [] {
      StepFails(s, lines[0]);
      if Step(s, lines[0]).Ok? {
        RunFails(Step(s, lines[0]).value, lines[1..]);
        assert lines == [lines[0]] + lines[1..];
      }
    }
  }

  /** Parsing fails exactly on a first field without a colon; every other line is read or ignored. */
  lemma {:induction false} ParseFails(lines: seq<string>)
    ensures Parsed(lines).Err? <==> exists raw :: raw in lines && Undivided(raw)
  {
    RunFails(State([], None), lines);
  }

  /** No parsed record is empty. */
  lemma {:induction false} NoEmptyRecords(s: State, lines: seq<string>)
    requires forall r :: r in s.finished ==> r != map[]
    ensures Run(s, lines).Ok? ==> forall r :: r in Finished(Run(s, lines).value) ==> r != map[]
    decreases |lines|
  {
    if lines != [] && Step(s, lines[0]).Ok? {
      StepKeepsFull(s, lines[0]);
      NoEmptyRecords(Step(s, lines[0]).value, lines[1..]);
    }
  }

  lemma {:induction false} StepKeepsFull(s: State, raw: string)
    requires Step(s, raw).Ok? && forall r :: r in s.finished ==> r != map[]
    ensures forall r :: r in Step(s, raw).value.finished ==> r != map[]
  {
  }

  // ---------- The file ----------

  predicate Break(c: char) {
    c == '\n' || c == '\r'
  }

  function LineEnd(text: string): (k: nat)
    ensures k <= |text| && (k < |text| ==> Break(text[k]))
    ensures forall i :: 0 <= i < k ==> !Break(text[i])
  {
    if text == "" || Break(text[0]) then 0 else 1 + LineEnd(text[1..])
  }

  /** The lines of a text file, as universal newlines split it, without their line breaks. */
  function Lines(text: string): seq<string>
    decreases |text|
  {
    if text == "" then []
    else
      var k := LineEnd(text);
      if k == |text| then [text]
      else [text[..k]] + Lines(text[if StartsWith(text[k..], "\r\n") then k + 2 else k + 1..])
  }

  /** The three line breaks of universal newlines. */
  predicate LineBreak(br: string) {
    br == "\n" || br == "\r" || br == "\r\n"
  }

  function Text(lines: seq<string>, br: string): string {
    if lines == [] then "" else lines[0] + br + Text(lines[1..], br)
  }

  ghost predicate Unbroken(line: string) {
    forall i :: 0 <= i < |line| ==> line[i] != '\n' && line[i] != '\r'
  }

  lemma {:induction false} LineEndAt(line: string, rest: string)
    requires Unbroken(line) && rest != "" && (rest[0] == '\n' || rest[0] == '\r')
    ensures LineEnd(line + rest) == |line|
  {
    if line == "" {
      assert line + rest == rest;
    } else {
      assert (line + rest)[1..] == line[1..] + rest;
      LineEndAt(line[1..], rest);
    }
  }

  lemma {:induction false} LinesFirst(line: string, br: string, rest: string)
    requires Unbroken(line) && LineBreak(br) && (br == "\r" && rest != "" ==> rest[0] != '\n')
    ensures Lines(line + br + rest) == [line] + Lines(rest)
  {
    var text := line + br + rest;
    assert text == line + (br + rest);
    LineEndAt(line, br + rest);
    assert text[..|line|] == line && text[|line|..] == br + rest && text[|line| + |br|..] == rest;
    AfterBreak(br, rest);
  }

  lemma {:induction false} AfterBreak(br: string, rest: string)
    requires LineBreak(br) && (br == "\r" && rest != "" ==> rest[0] != '\n')
    ensures (if StartsWith(br + rest, "\r\n") then 2 else 1) == |br|
  {
    if br == "\r\n" {
      assert (br + rest)[..2] == "\r\n";
    } else {
      assert (br + rest)[0] == br[0];
      assert |br + rest| > 1 ==> (br + rest)[1] == rest[0];
    }
  }

  lemma {:induction false} TextStart(lines: seq<string>)
    requires forall line :: line in lines ==> Unbroken(line)
    ensures Text(lines, "\r") != "" ==> Text(lines, "\r")[0] != '\n'
  {
    if lines != [] {
      assert lines[0] in lines;
      assert Text(lines, "\r") == lines[0] + ("\r" + Text(lines[1..], "\r"));
    }
  }

  lemma {:induction false} LinesInvertText(lines: seq<string>, br: string)
    requires LineBreak(br) && forall line :: line in lines ==> Unbroken(line)
    ensures Lines(Text(lines, br)) == lines
    decreases |lines|
  {
    if lines != [] {
      assert lines[0] in lines;
      TextStart(lines[1..]);
      LinesFirst(lines[0], br, Text(lines[1..], br));
      LinesInvertText(lines[1..], br);
    }
  }

  /** The same for the file, with any of the line breaks: no printed or interspersed line may hold one of its own. */
  lemma {:induction false} FileRoundTrip(records: seq<seq<Line>>, lines: seq<string>, br: string)
    requires AllPrintable(records) && Stripped(Significant(lines)) == Stripped(Printed(records))
    requires LineBreak(br) && forall line :: line in lines ==> Unbroken(line)
    ensures Parsed(Lines(Text(lines, br))) == Ok(RecordsOf(records))
  {
    LinesInvertText(lines, br);
    ParseInvertsPrint(records, lines);
  }

  /** A last line without a line break counts. */
  lemma {:induction false} LastLine(line: string)
    requires Unbroken(line) && line != ""
    ensures Lines(line) == [line]
  {
    assert LineEnd(line) == |line|;
  }
}
