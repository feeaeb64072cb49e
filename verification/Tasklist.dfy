/** Reading `tasklist /FO CSV /NH` for the processes of dockup's own binary. */
module Tasklist {
  import opened StateFile
  import opened Text

  datatype Proc = Proc(pid: int, kb: nat)

  // ---------- CSV ----------

  /** The fields of a line read so far as `cur`, inside or outside quotes. */
  function FieldsFrom(line: string, inQuotes: bool, cur: string): seq<string> {
    if line == "" then [cur]
    else if line[0] == '"' then FieldsFrom(line[1..], !inQuotes, cur)
    else if line[0] == ',' && !inQuotes then [cur] + FieldsFrom(line[1..], inQuotes, "")
    else FieldsFrom(line[1..], inQuotes, cur + [line[0]])
  }

  function Fields(line: string): seq<string> {
    FieldsFrom(line, false, "")
  }

  method SplitCsv(line: string) returns (fields: seq<string>)
    ensures fields == Fields(line)
  {
    fields := [];
    var cur, inQuotes := "", false;
    for i := 0 to |line|
      invariant fields + FieldsFrom(line[i..], inQuotes, cur) == Fields(line)
    {
      assert line[i..][1..] == line[i + 1..];
      if line[i] == '"' {
        inQuotes := !inQuotes;
      } else if line[i] == ',' && !inQuotes {
        fields := fields + [cur];
        cur := "";
      } else {
        cur := cur + [line[i]];
      }
    }
    assert FieldsFrom(line[|line|..], inQuotes, cur) == [cur];
    fields := fields + [cur];
  }

  function UnquotedCommas(line: string, inQuotes: bool): nat {
    if line == "" then 0
    else if line[0] == '"' then UnquotedCommas(line[1..], !inQuotes)
    else (if line[0] == ',' && !inQuotes then 1 else 0) + UnquotedCommas(line[1..], inQuotes)
  }

  /** The line without its quotes and its separating commas. */
  function Payload(line: string, inQuotes: bool): string {
    if line == "" then ""
    else if line[0] == '"' then Payload(line[1..], !inQuotes)
    else (if line[0] == ',' && !inQuotes then "" else [line[0]]) + Payload(line[1..], inQuotes)
  }

  function Concat(fields: seq<string>): string {
    if fields == [] then "" else fields[0] + Concat(fields[1..])
  }

  lemma {:induction false} FieldsFromKeeps(line: string, inQuotes: bool, cur: string)
    ensures |FieldsFrom(line, inQuotes, cur)| == 1 + UnquotedCommas(line, inQuotes)
    ensures Concat(FieldsFrom(line, inQuotes, cur)) == cur + Payload(line, inQuotes)
  {
    if line == "" {
      assert Concat([cur]) == cur + Concat([cur][1..]) == cur;
    } else if line[0] == '"' {
      FieldsFromKeeps(line[1..], !inQuotes, cur);
    } else if line[0] == ',' && !inQuotes {
      FieldsFromKeeps(line[1..], inQuotes, "");
      var rest := FieldsFrom(line[1..], inQuotes, "");
      assert ([cur] + rest)[1..] == rest;
    } else {
      FieldsFromKeeps(line[1..], inQuotes, cur + [line[0]]);
      assert cur + [line[0]] + Payload(line[1..], inQuotes) == cur + ([line[0]] + Payload(line[1..], inQuotes));
    }
  }

  /** Splitting yields one field more than the unquoted commas, and loses only quotes and separators. */
  lemma SplitLosesOnlySyntax(line: string)
    ensures |Fields(line)| == 1 + UnquotedCommas(line, false)
    ensures Concat(Fields(line)) == Payload(line, false)
  {
    FieldsFromKeeps(line, false, "");
  }

  // ---------- Rows ----------

  function DigitsOf(s: string): (digits: string)
    ensures AllDigits(digits)
  {
    if s == "" then "" else (if IsDigit(s[0]) then [s[0]] else "") + DigitsOf(s[1..])
  }

  method DigitsOnly(s: string) returns (digits: string)
    ensures digits == DigitsOf(s)
  {
    digits := "";
    for i := 0 to |s|
      invariant digits + DigitsOf(s[i..]) == DigitsOf(s)
    {
      assert s[i..][1..] == s[i + 1..];
      if '0' <= s[i] <= '9' {
        digits := digits + [s[i]];
      }
    }
  }

  /** strings.EqualFold; `fold` is Unicode simple case folding. */
  predicate SameName(a: string, b: string, fold: char -> char) {
    Map(a, fold) == Map(b, fold)
  }

  /** The process a row describes, unless it is another image, this process, or not readable as one. */
  function ProcOf(row: seq<string>, self: int, image: string, fold: char -> char): Option<Proc> {
    if |row| < 5 || !SameName(row[0], image, fold) then None
    else match (Atoi(row[1]), ParseUint(DigitsOf(row[4])))
      case (Some(pid), Some(kb)) => if pid == self then None else Some(Proc(pid, kb))
      case _ => None
  }

  function ProcsOf(rows: seq<seq<string>>, self: int, image: string, fold: char -> char): seq<Proc> {
    if rows == [] then []
    else
      (match ProcOf(rows[0], self, image, fold) case Some(p) => [p] case None => [])
      + ProcsOf(rows[1..], self, image, fold)
  }

  function ProcOfLine(line: string, self: int, image: string, fold: char -> char): Option<Proc> {
    ProcOf(Fields(TrimSpace(line)), self, image, fold)
  }

  function Reads(lines: seq<string>, self: int, image: string, fold: char -> char): (found: seq<Option<Proc>>)
    ensures |found| == |lines|
  {
    if lines == [] then [] else [ProcOfLine(lines[0], self, image, fold)] + Reads(lines[1..], self, image, fold)
  }

  /** What there is, in order. */
  function Somes(found: seq<Option<Proc>>): seq<Proc> {
    if found == [] then [] else (if found[0].Some? then [found[0].value] else []) + Somes(found[1..])
  }

  /** What tasklist's output says. */
  function Procs(out: string, self: int, image: string, fold: char -> char): seq<Proc> {
    Somes(Reads(Split(out, '\n'), self, image, fold))
  }

  lemma {:induction false} ReadAt(lines: seq<string>, i: nat, self: int, image: string, fold: char -> char)
    requires i < |lines|
    ensures Reads(lines, self, image, fold)[i] == ProcOfLine(lines[i], self, image, fold)
  {
    if i > 0 {
      ReadAt(lines[1..], i - 1, self, image, fold);
    }
  }

  lemma {:induction false} SomesSnoc(found: seq<Option<Proc>>, i: nat)
    requires i < |found|
    ensures Somes(found[..i + 1]) == Somes(found[..i]) + if found[i].Some? then [found[i].value] else []
  {
    if i > 0 {
      SomesSnoc(found[1..], i - 1);
      assert found[..i + 1][1..] == found[1..][..i] && found[..i][1..] == found[1..][..i - 1];
    }
  }

  /** What a line says, read as the loop body of the parser found it. */
  method ParseRow(lines: seq<string>, i: nat, self: int, image: string, fold: char -> char)
    returns (proc: Option<Proc>)
    requires i < |lines|
    ensures proc == Reads(lines, self, image, fold)[i]
  {
    ReadAt(lines, i, self, image, fold);
    var f := SplitCsv(TrimSpace(lines[i]));
    if |f| < 5 || !SameName(f[0], image, fold) {
      return None;
    }
    var pid := Atoi(f[1]);
    if pid.None? || pid.value == self {
      return None;
    }
    var digits := DigitsOnly(f[4]);
    var kb := ParseUint(digits);
    if kb.None? {
      return None;
    }
    return Some(Proc(pid.value, kb.value));
  }

  method ParseTasklist(out: string, self: int, image: string, fold: char -> char) returns (procs: seq<Proc>)
    ensures procs == Procs(out, self, image, fold)
  {
    procs := [];
    var lines := Split(out, '\n');
    ghost var found := Reads(lines, self, image, fold);
    for i := 0 to |lines|
      invariant procs == Somes(found[..i])
    {
      SomesSnoc(found, i);
      var proc := ParseRow(lines, i, self, image, fold);
      if proc.Some? {
        procs := procs + [proc.value];
      }
    }
    assert found[..|lines|] == found;
  }

  // ---------- Rendering ----------

  /** A row as tasklist prints it: every field quoted, separated by commas. */
  function Rendered(row: seq<string>): string
    requires row != []
  {
    var field := "\"" + row[0] + "\"";
    if |row| == 1 then field else field + "," + Rendered(row[1..])
  }

  function RenderedAll(rows: seq<seq<string>>): string
    requires AllRows(rows)
  {
    if rows == [] then "" else Rendered(rows[0]) + "\r\n" + RenderedAll(rows[1..])
  }

  predicate PlainField(field: string) {
    '"' !in field && '\n' !in field
  }

  predicate IsRow(row: seq<string>) {
    row != [] && forall i :: 0 <= i < |row| ==> PlainField(row[i])
  }

  predicate AllRows(rows: seq<seq<string>>) {
    forall i :: 0 <= i < |rows| ==> IsRow(rows[i])
  }

  lemma {:induction false} QuotedReads(field: string, rest: string, cur: string)
    requires '"' !in field
    ensures FieldsFrom(field + "\"" + rest, true, cur) == FieldsFrom(rest, false, cur + field)
    decreases |field|
  {
    var line := field + "\"" + rest;
    if field == "" {
      assert line[1..] == rest && cur + field == cur;
    } else {
      assert line[1..] == field[1..] + "\"" + rest;
      QuotedReads(field[1..], rest, cur + [field[0]]);
      assert cur + [field[0]] + field[1..] == cur + field;
    }
  }

  lemma {:induction false} RenderedReads(row: seq<string>)
    requires IsRow(row)
    ensures Fields(Rendered(row)) == row
    ensures '\n' !in Rendered(row)
    ensures |Rendered(row)| >= 2 && Rendered(row)[0] == '"' && Rendered(row)[|Rendered(row)| - 1] == '"'
  {
    var line := Rendered(row);
    assert PlainField(row[0]);
    if |row| == 1 {
      assert line[1..] == row[0] + "\"" + "";
      QuotedReads(row[0], "", "");
    } else {
      var tail := Rendered(row[1..]);
      assert IsRow(row[1..]);
      RenderedReads(row[1..]);
      assert line[1..] == row[0] + "\"" + ("," + tail);
      QuotedReads(row[0], "," + tail, "");
      assert ("," + tail)[1..] == tail && "" + row[0] == row[0];
      assert FieldsFrom("," + tail, false, row[0]) == [row[0]] + Fields(tail);
      assert [row[0]] + row[1..] == row;
      assert line[|line| - 1] == tail[|tail| - 1];
    }
  }

  lemma TrimsToQuotes(line: string)
    requires line != "" && line[0] == '"' && line[|line| - 1] == '"'
    ensures TrimSpace(line + "\r") == line
  {
    assert IsSpace('\r') && !IsSpace('"');
    assert TrimLeft(line + "\r", IsSpace) == line + "\r";
    assert (line + "\r")[..|line|] == line && TrimRight(line, IsSpace) == line;
  }

  /** Nothing is read from the empty line behind the last newline. */
  lemma NothingInEmptyLine(self: int, image: string, fold: char -> char)
    ensures Somes(Reads([""], self, image, fold)) == []
  {
    assert TrimSpace("") == "" && Fields("") == [""];
    assert ProcOfLine("", self, image, fold) == None;
    var found := Reads([""], self, image, fold);
    assert found == [None] && found[1..] == [];
  }

  /** A rendered row in front of other lines adds what it says in front of what they say. */
  lemma RowInFront(row: seq<string>, lines: seq<string>, self: int, image: string, fold: char -> char)
    requires IsRow(row)
    ensures Somes(Reads([Rendered(row) + "\r"] + lines, self, image, fold)) ==
              (match ProcOf(row, self, image, fold) case Some(p) => [p] case None => [])
              + Somes(Reads(lines, self, image, fold))
  {
    var line, proc := Rendered(row) + "\r", ProcOf(row, self, image, fold);
    RenderedReads(row);
    TrimsToQuotes(Rendered(row));
    assert ProcOfLine(line, self, image, fold) == proc;
    assert ([line] + lines)[0] == line && ([line] + lines)[1..] == lines;
    assert Reads([line] + lines, self, image, fold) == [proc] + Reads(lines, self, image, fold);
    assert ([proc] + Reads(lines, self, image, fold))[1..] == Reads(lines, self, image, fold);
  }

  /** What tasklist prints for any rows is read as exactly the rows' matching processes, in order. */
  lemma {:induction false} TasklistReadsRows(rows: seq<seq<string>>, self: int, image: string, fold: char -> char)
    requires AllRows(rows)
    ensures Procs(RenderedAll(rows), self, image, fold) == ProcsOf(rows, self, image, fold)
  {
    if rows == [] {
      NothingInEmptyLine(self, image, fold);
    } else {
      var line, rest := Rendered(rows[0]) + "\r", RenderedAll(rows[1..]);
      assert IsRow(rows[0]);
      RenderedReads(rows[0]);
      assert RenderedAll(rows) == line + ['\n'] + rest;
      SplitFirst(line, '\n', rest);
      RowInFront(rows[0], Split(rest, '\n'), self, image, fold);
      TasklistReadsRows(rows[1..], self, image, fold);
    }
  }

  // ---------- Processes to text and back ----------

  /** Digits with arbitrary separators before, between and after them. */
  function Grouped(digits: string, separators: seq<string>): string
    requires |separators| == |digits| + 1
  {
    if digits == "" then separators[0] else separators[0] + [digits[0]] + Grouped(digits[1..], separators[1..])
  }

  predicate NoDigit(s: string) {
    forall i :: 0 <= i < |s| ==> !IsDigit(s[i])
  }

  lemma {:induction false} DigitsOfAppend(a: string, b: string)
    requires NoDigit(a)
    ensures DigitsOf(a + b) == DigitsOf(b)
  {
    if a == "" {
      assert a + b == b;
    } else {
      assert (a + b)[1..] == a[1..] + b;
      DigitsOfAppend(a[1..], b);
    }
  }

  lemma {:induction false} GroupingIsIgnored(digits: string, separators: seq<string>)
    requires AllDigits(digits) && |separators| == |digits| + 1
    requires forall i :: 0 <= i < |separators| ==> NoDigit(separators[i])
    ensures DigitsOf(Grouped(digits, separators)) == digits
  {
    assert NoDigit(separators[0]);
    if digits == "" {
      DigitsOfAppend(separators[0], "");
      assert separators[0] + "" == separators[0];
    } else {
      var rest := Grouped(digits[1..], separators[1..]);
      assert separators[0] + [digits[0]] + rest == separators[0] + ([digits[0]] + rest);
      DigitsOfAppend(separators[0], [digits[0]] + rest);
      assert ([digits[0]] + rest)[1..] == rest && IsDigit(digits[0]);
      GroupingIsIgnored(digits[1..], separators[1..]);
    }
  }

  /** One running process as tasklist shows it. */
  datatype Task = Task(name: string, pid: nat, session: string, number: string, kb: nat, separators: seq<string>,
                       more: seq<string>)

  predicate IsTask(t: Task) {
    && PlainField(t.name) && PlainField(t.session) && PlainField(t.number)
    && (forall i :: 0 <= i < |t.more| ==> PlainField(t.more[i]))
    && |t.separators| == |Decimal(t.kb)| + 1
    && (forall i :: 0 <= i < |t.separators| ==> NoDigit(t.separators[i]))
    && PlainField(Grouped(Decimal(t.kb), t.separators))
    && t.pid <= 0x7FFF_FFFF_FFFF_FFFF && t.kb <= MAX_UINT64
  }

  function RowOf(t: Task): seq<string>
    requires IsTask(t)
  {
    [t.name, Decimal(t.pid), t.session, t.number, Grouped(Decimal(t.kb), t.separators)] + t.more
  }

  lemma RowOfTaskIsRow(t: Task)
    requires IsTask(t)
    ensures IsRow(RowOf(t))
  {
    var row := RowOf(t);
    DecimalIsPlain(t.pid);
    forall i | 0 <= i < |row|
      ensures PlainField(row[i])
    {
      assert i >= 5 ==> row[i] == t.more[i - 5];
    }
  }

  lemma RowOfTaskReads(t: Task, self: int, image: string, fold: char -> char)
    requires IsTask(t)
    ensures ProcOf(RowOf(t), self, image, fold) ==
              if SameName(t.name, image, fold) && t.pid != self then Some(Proc(t.pid, t.kb)) else None
  {
    GroupingIsIgnored(Decimal(t.kb), t.separators);
    DecimalParses(t.kb);
    DecimalParses(t.pid);
  }

  lemma DecimalIsPlain(n: nat)
    ensures PlainField(Decimal(n))
  {
    assert forall c :: c in Decimal(n) ==> IsDigit(c);
  }

  predicate AllTasks(tasks: seq<Task>) {
    forall i :: 0 <= i < |tasks| ==> IsTask(tasks[i])
  }

  function RowsOfTasks(tasks: seq<Task>): seq<seq<string>>
    requires AllTasks(tasks)
  {
    if tasks == [] then [] else [RowOf(tasks[0])] + RowsOfTasks(tasks[1..])
  }

  /** The processes of the image, in order, without this one. */
  function Others(tasks: seq<Task>, self: int, image: string, fold: char -> char): seq<Proc> {
    if tasks == [] then []
    else
      var t := tasks[0];
      (if SameName(t.name, image, fold) && t.pid != self then [Proc(t.pid, t.kb)] else [])
      + Others(tasks[1..], self, image, fold)
  }

  lemma {:induction false} TasksRead(tasks: seq<Task>, self: int, image: string, fold: char -> char)
    requires AllTasks(tasks)
    ensures AllRows(RowsOfTasks(tasks))
    ensures ProcsOf(RowsOfTasks(tasks), self, image, fold) == Others(tasks, self, image, fold)
  {
    if tasks != [] {
      RowOfTaskIsRow(tasks[0]);
      RowOfTaskReads(tasks[0], self, image, fold);
      TasksRead(tasks[1..], self, image, fold);
      assert RowsOfTasks(tasks)[1..] == RowsOfTasks(tasks[1..]);
    }
  }

  /** Whatever processes run, and however their memory figures are grouped, parsing tasklist's text gives
      exactly the pid and kilobytes of those of the image other than this one, in order. */
  lemma TasklistRoundTrip(tasks: seq<Task>, self: int, image: string, fold: char -> char)
    requires AllTasks(tasks)
    ensures AllRows(RowsOfTasks(tasks))
    ensures Procs(RenderedAll(RowsOfTasks(tasks)), self, image, fold) == Others(tasks, self, image, fold)
  {
    TasksRead(tasks, self, image, fold);
    TasklistReadsRows(RowsOfTasks(tasks), self, image, fold);
  }

  // ---------- What is passed over ----------

  /** A row is passed over exactly when it is too short, of another image, of this process, or without a pid and a
      figure that can be read. */
  lemma RowIsReadExactlyWhen(row: seq<string>, self: int, image: string, fold: char -> char)
    ensures ProcOf(row, self, image, fold).Some? <==>
              && |row| >= 5 && Map(row[0], fold) == Map(image, fold)
              && Atoi(row[1]).Some? && Atoi(row[1]) != Some(self)
              && DigitsOf(row[4]) != "" && Value(DigitsOf(row[4])) <= 18446744073709551615
    ensures ProcOf(row, self, image, fold).Some? ==>
              ProcOf(row, self, image, fold) == Some(Proc(Atoi(row[1]).value, Value(DigitsOf(row[4]))))
  {
  }

  lemma {:induction false} NoDigitsAtAll(s: string)
    ensures NoDigit(s) <==> DigitsOf(s) == ""
  {
    if s != "" {
      NoDigitsAtAll(s[1..]);
      assert NoDigit(s) <==> !IsDigit(s[0]) && NoDigit(s[1..]) by {
        assert forall i :: 0 < i < |s| ==> s[i] == s[1..][i - 1];
      }
    }
  }
}
