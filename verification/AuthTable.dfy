/** The auth-file: one line `login:permissions:map_groups:password` per user, groups separated by semicolons. */
module AuthTables {
  import opened Prelude
  import opened Permissions

  datatype AuthData = AuthData(permissions: Permission, mapGroups: seq<string>, password: string)

  type AuthTable = map<string, AuthData>

  // ---------------------------------------------------------------- strings

  /** std::string::find: the first place of `c` at or after `start`, or the length of `s` for npos. */
  function Find(s: string, c: char, start: nat): (i: nat)
    ensures i <= |s|
    ensures i < |s| ==> start <= i && s[i] == c
    decreases |s| - start
  {
    if start >= |s| then |s| else if s[start] == c then start else Find(s, c, start + 1)
  }

  lemma {:induction false} FindSkips(s: string, c: char, start: nat)
    requires start <= |s|
    ensures start <= Find(s, c, start) && Free(s[start..Find(s, c, start)], c)
    decreases |s| - start
  {
    if start < |s| && s[start] != c {
      FindSkips(s, c, start + 1);
      var i := Find(s, c, start);
      assert s[start..i] == [s[start]] + s[start + 1..i];
    }
  }

  /** The pieces of `s` between the occurrences of `c`; one more than there are occurrences. */
  function Pieces(s: string, c: char): (p: seq<string>)
    ensures p != []
  {
    if s == [] then [""]
    else
      var rest := Pieces(s[1..], c);
      if s[0] == c then [""] + rest else [[s[0]] + rest[0]] + rest[1..]
  }

  function Split(s: string, c: char): seq<string> {
    if s == [] then [] else Pieces(s, c)
  }

  function Join(parts: seq<string>, c: char): string {
    if parts == [] then ""
    else if |parts| == 1 then parts[0]
    else parts[0] + [c] + Join(parts[1..], c)
  }

  predicate Free(s: string, c: char) {
    c !in s
  }

  predicate AllFree(parts: seq<string>, c: char) {
    forall i :: 0 <= i < |parts| ==> Free(parts[i], c)
  }

  lemma {:induction false} PiecesOfFree(a: string, c: char)
    requires Free(a, c)
    ensures Pieces(a, c) == [a]
  {
    if a != [] {
      PiecesOfFree(a[1..], c);
      assert a == [a[0]] + a[1..];
    }
  }

  lemma {:induction false} PiecesOfConcat(a: string, b: string, c: char)
    requires Free(a, c)
    ensures Pieces(a + [c] + b, c) == [a] + Pieces(b, c)
  {
    var s := a + [c] + b;
    if a == [] {
      assert s[1..] == b;
    } else {
      assert s[1..] == a[1..] + [c] + b;
      PiecesOfConcat(a[1..], b, c);
      assert a == [a[0]] + a[1..];
    }
  }

  lemma {:induction false} PiecesAreFree(s: string, c: char)
    ensures AllFree(Pieces(s, c), c)
  {
    if s != [] {
      PiecesAreFree(s[1..], c);
    }
  }

  lemma {:induction false} PiecesHold(s: string, c: char, d: char)
    requires Free(s, d)
    ensures AllFree(Pieces(s, c), d)
  {
    if s != [] {
      PiecesHold(s[1..], c, d);
    }
  }

  lemma {:induction false} JoinPieces(s: string, c: char)
    ensures Join(Pieces(s, c), c) == s
  {
    if s != [] {
      JoinPieces(s[1..], c);
      var rest := Pieces(s[1..], c);
      if s[0] == c {
        JoinCons("", rest, c);
      } else {
        JoinHead([s[0]], rest, c);
      }
      assert s == [s[0]] + s[1..];
    }
  }

  lemma JoinCons(head: string, rest: seq<string>, c: char)
    requires rest != []
    ensures Join([head] + rest, c) == head + [c] + Join(rest, c)
  {
    assert ([head] + rest)[1..] == rest;
  }

  lemma JoinHead(start: string, parts: seq<string>, c: char)
    requires parts != []
    ensures Join([start + parts[0]] + parts[1..], c) == start + Join(parts, c)
  {
    var longer := [start + parts[0]] + parts[1..];
    if |parts| > 1 {
      assert longer[1..] == parts[1..];
      assert start + parts[0] + [c] + Join(parts[1..], c) == start + (parts[0] + [c] + Join(parts[1..], c));
    }
  }

  lemma {:induction false} PiecesJoin(parts: seq<string>, c: char)
    requires parts != [] && AllFree(parts, c)
    ensures Pieces(Join(parts, c), c) == parts
  {
    if |parts| == 1 {
      PiecesOfFree(parts[0], c);
    } else {
      PiecesJoin(parts[1..], c);
      PiecesOfConcat(parts[0], Join(parts[1..], c), c);
    }
  }

  lemma {:induction false} JoinFree(parts: seq<string>, c: char, d: char)
    requires AllFree(parts, d) && c != d
    ensures Free(Join(parts, c), d)
  {
    if |parts| > 1 {
      JoinFree(parts[1..], c, d);
    }
  }

  /** split_str undoes join_vector on exactly the vectors without a delimiter in an element, other than the one
      that holds just the empty string; and join_vector always undoes split_str. */
  lemma SplitJoin(parts: seq<string>, s: string, c: char)
    ensures Split(Join(parts, c), c) == parts <==> AllFree(parts, c) && parts != [""]
    ensures Join(Split(s, c), c) == s
  {
    JoinPieces(s, c);
    var j := Join(parts, c);
    if AllFree(parts, c) && parts != [] {
      PiecesJoin(parts, c);
    }
    if Split(j, c) == parts {
      PiecesAreFree(j, c);
    }
  }

  // -------------------------------------------------- split_str and join_vector

  lemma PieceAt(s: string, c: char, start: nat)
    requires start <= |s|
    ensures var i := Find(s, c, start);
            && (i == |s| ==> Pieces(s[start..], c) == [s[start..]])
            && (i < |s| ==> start <= i && Pieces(s[start..], c) == [s[start..i]] + Pieces(s[i + 1..], c))
  {
    var i := Find(s, c, start);
    FindSkips(s, c, start);
    if i < |s| {
      assert s[start..] == s[start..i] + [c] + s[i + 1..];
      PiecesOfConcat(s[start..i], s[i + 1..], c);
    } else {
      assert s[start..i] == s[start..];
      PiecesOfFree(s[start..], c);
    }
  }

  method SplitStr(input: string, delimiter: char) returns (result: seq<string>)
    ensures result == Split(input, delimiter)
  {
    result := [];
    if |input| == 0 {
      return;
    }
    var previous := 0;
    var found := Find(input, delimiter, previous);
    while found < |input|
      invariant previous <= |input| && found == Find(input, delimiter, previous)
      invariant result + Pieces(input[previous..], delimiter) == Pieces(input, delimiter)
      decreases |input| - previous
    {
      PieceAt(input, delimiter, previous);
      Reassociated(result, [input[previous..found]], Pieces(input[found + 1..], delimiter));
      result := result + [input[previous..found]];
      previous := found + 1;
      found := Find(input, delimiter, previous);
    }
    PieceAt(input, delimiter, previous);
    result := result + [input[previous..]];
  }

  method JoinVector(vec: seq<string>, delimiter: char) returns (result: string)
    ensures result == Join(vec, delimiter)
  {
    result := "";
    for i := 0 to |vec|
      invariant result + Join(vec[i..], delimiter) == Join(vec, delimiter)
    {
      assert vec[i..][1..] == vec[i + 1..];
      result := result + vec[i];
      if i != |vec| - 1 {
        result := result + [delimiter];
      }
    }
  }

  // ------------------------------------------------------------------- stoi

  predicate IsSpace(c: char) {
    c == ' ' || '\U{0009}' <= c <= '\U{000D}'
  }

  predicate IsDigit(c: char) {
    '0' <= c <= '9'
  }

  function SkipSpace(s: string): (r: string)
    ensures |r| <= |s|
  {
    if s != [] && IsSpace(s[0]) then SkipSpace(s[1..]) else s
  }

  /** The value of the digits at the start of `s`, read after `value`. */
  function DigitsValue(s: string, value: nat): nat {
    if s != [] && IsDigit(s[0]) then DigitsValue(s[1..], 10 * value + (s[0] as int - '0' as int)) else value
  }

  /** std::stoi: blanks, a sign and digits; what follows the digits is ignored. None is an exception. */
  function Stoi(s: string): Option<int> {
    var t := SkipSpace(s);
    var signed := t != [] && (t[0] == '-' || t[0] == '+');
    var digits := if signed then t[1..] else t;
    if digits == [] || !IsDigit(digits[0]) then None
    else
      var v := if signed && t[0] == '-' then 0 - DigitsValue(digits, 0) else DigitsValue(digits, 0);
      if -0x8000_0000 <= v < 0x8000_0000 then Some(v) else None
  }

  /** The assignment of an int to an unsigned int. */
  function ToUnsigned(v: int): int {
    if v < 0 then v + 0x1_0000_0000 else v
  }

  // ------------------------------------------------------------------- lines

  datatype Entry = Entry(login: string, data: AuthData)

  function PermissionOf(code: int): Permission
    requires 0 <= code <= 2
  {
    if code == 0 then Blocked else if code == 1 then View else Control
  }

  function CodeText(p: Permission): string {
    match p
    case Blocked => "0"
    case View => "1"
    case Control => "2"
  }

  /** The four columns of a line, as text. */
  datatype Row = Row(login: string, code: string, groups: string, password: string)

  /** The first three colons delimit the columns; later ones belong to the password. */
  function Columns(line: string): Option<Row> {
    var first := Find(line, ':', 0);
    if first == |line| then None
    else
      var second := Find(line, ':', first + 1);
      if second == |line| then None
      else
        var third := Find(line, ':', second + 1);
        if third == |line| then None
        else Some(Row(line[..first], line[first + 1..second], line[second + 1..third], line[third + 1..]))
  }

  function Interpret(r: Row): Option<Entry> {
    var code := Stoi(r.code);
    if code == None || !(0 <= ToUnsigned(code.value) <= 2) then None
    else Some(Entry(r.login, AuthData(PermissionOf(ToUnsigned(code.value)), Split(r.groups, ';'), r.password)))
  }

  /** One line of the file, or None for a line that is skipped. */
  function ParseLine(line: string): Option<Entry> {
    if Columns(line) == None then None else Interpret(Columns(line).value)
  }

  function PrintLine(e: Entry): string {
    e.login + ":" + (CodeText(e.data.permissions) + ":" + (Join(e.data.mapGroups, ';') + ":" + e.data.password))
  }

  predicate WellFormedEntry(e: Entry) {
    && Free(e.login, ':') && Free(e.login, '\n')
    && AllFree(e.data.mapGroups, ':') && AllFree(e.data.mapGroups, ';') && AllFree(e.data.mapGroups, '\n')
    && e.data.mapGroups != [""]
    && Free(e.data.password, '\n')
  }

  lemma {:induction false} FindPast(line: string, c: char, start: nat, i: nat)
    requires start <= i < |line| && line[i] == c && Free(line[start..i], c)
    ensures Find(line, c, start) == i
    decreases i - start
  {
    if start < i {
      assert line[start..i][0] == line[start];
      assert line[start + 1..i] == line[start..i][1..];
      FindPast(line, c, start + 1, i);
    }
  }

  lemma {:induction false} FindFrom(s: string, c: char, start: nat, i: nat)
    requires start <= i <= |s|
    ensures Find(s[start..], c, i - start) == Find(s, c, i) - start
    decreases |s| - i
  {
    if i < |s| && s[i] != c {
      FindFrom(s, c, start, i + 1);
    }
  }

  /** `a` is the column that starts at place `start` and ends at the next colon. */
  predicate Found(line: string, start: nat, a: string) {
    start + |a| < |line| && Find(line, ':', start) == start + |a| && line[start..start + |a|] == a
  }

  /** The column `a` that starts at place `start` of the line is found, and the rest follows its colon. */
  lemma TakeColumn(line: string, start: nat, a: string, rest: string) returns (next: nat)
    requires start <= |line| && Free(a, ':') && line[start..] == a + ":" + rest
    ensures Found(line, start, a) && next == start + |a| + 1 <= |line| && line[next..] == rest
  {
    next := start + |a| + 1;
    var tail := line[start..];
    assert tail[..|a|] == a && tail[0..|a|] == a && tail[|a| + 1..] == rest && tail[|a|] == ':';
    FindPast(tail, ':', 0, |a|);
    FindFrom(line, ':', start, start);
    assert line[start..start + |a|] == tail[..|a|];
    assert line[next..] == tail[|a| + 1..];
  }

  lemma CodeTextParses(p: Permission)
    ensures Stoi(CodeText(p)) == Some(Code(p)) && PermissionOf(ToUnsigned(Code(p))) == p
    ensures Free(CodeText(p), ':') && Free(CodeText(p), '\n')
  {
    var s := CodeText(p);
    assert SkipSpace(s) == s;
    assert DigitsValue(s, 0) == DigitsValue(s[1..], s[0] as int - '0' as int);
  }

  lemma ThreeColumns(line: string, r: Row, second: nat, third: nat, last: nat)
    requires Found(line, 0, r.login) && second == |r.login| + 1
    requires Found(line, second, r.code) && third == second + |r.code| + 1
    requires Found(line, third, r.groups) && last == third + |r.groups| + 1 <= |line| && line[last..] == r.password
    ensures Columns(line) == Some(r)
  {
  }

  lemma PrintedColumns(r: Row)
    requires Free(r.login, ':') && Free(r.code, ':') && Free(r.groups, ':')
    ensures Columns(r.login + ":" + (r.code + ":" + (r.groups + ":" + r.password))) == Some(r)
  {
    var r2 := r.groups + ":" + r.password;
    ColumnsAre(r, r.login + ":" + (r.code + ":" + r2), r.code + ":" + r2, r2);
  }

  lemma ColumnsAre(r: Row, line: string, r1: string, r2: string)
    requires Free(r.login, ':') && Free(r.code, ':') && Free(r.groups, ':')
    requires line == r.login + ":" + r1 && r1 == r.code + ":" + r2 && r2 == r.groups + ":" + r.password
    ensures Columns(line) == Some(r)
  {
    assert line[0..] == line;
    var second := TakeColumn(line, 0, r.login, r1);
    var third := TakeColumn(line, second, r.code, r2);
    var last := TakeColumn(line, third, r.groups, r.password);
    ThreeColumns(line, r, second, third, last);
  }

  lemma PrintedLineParses(e: Entry)
    requires WellFormedEntry(e)
    ensures ParseLine(PrintLine(e)) == Some(e)
  {
    CodeTextParses(e.data.permissions);
    JoinFree(e.data.mapGroups, ';', ':');
    SplitJoin(e.data.mapGroups, "", ';');
    var code, groups := CodeText(e.data.permissions), Join(e.data.mapGroups, ';');
    PrintedColumns(Row(e.login, code, groups, e.data.password));
  }

  lemma PrintedLineIsLine(e: Entry)
    requires WellFormedEntry(e)
    ensures Free(PrintLine(e), '\n') && PrintLine(e) != ""
  {
    CodeTextParses(e.data.permissions);
    JoinFree(e.data.mapGroups, ';', '\n');
  }

  lemma SlicesAreFree(s: string, c: char, i: nat, j: nat)
    requires i <= j <= |s| && Free(s, c)
    ensures Free(s[i..j], c)
  {
  }

  lemma ColumnIsFree(line: string, start: nat)
    requires start <= |line| && Free(line, '\n')
    ensures Free(line[start..Find(line, ':', start)], ':') && Free(line[start..Find(line, ':', start)], '\n')
  {
    FindSkips(line, ':', start);
    SlicesAreFree(line, '\n', start, Find(line, ':', start));
  }

  lemma ColumnsAreFree(line: string)
    requires Free(line, '\n') && Columns(line).Some?
    ensures var r := Columns(line).value;
            Free(r.login, ':') && Free(r.login, '\n') && Free(r.groups, ':') && Free(r.groups, '\n')
            && Free(r.password, '\n')
  {
    var first := Find(line, ':', 0);
    var second := Find(line, ':', first + 1);
    var third := Find(line, ':', second + 1);
    assert line[..first] == line[0..first] && line[third + 1..] == line[third + 1..|line|];
    ColumnIsFree(line, 0);
    ColumnIsFree(line, second + 1);
    SlicesAreFree(line, '\n', third + 1, |line|);
  }

  lemma ParsedLineIsWellFormed(line: string)
    requires Free(line, '\n') && ParseLine(line).Some?
    ensures WellFormedEntry(ParseLine(line).value)
  {
    ColumnsAreFree(line);
    var groups := Columns(line).value.groups;
    PiecesAreFree(groups, ';');
    PiecesHold(groups, ';', ':');
    PiecesHold(groups, ';', '\n');
    JoinPieces(groups, ';');
  }

  // ------------------------------------------------------------- the whole file

  function WithoutLastEmpty(p: seq<string>): seq<string> {
    if p != [] && p[|p| - 1] == "" then p[..|p| - 1] else p
  }

  /** What std::getline reads from a file: the lines, without a last one that is empty. */
  function Lines(text: string): seq<string> {
    WithoutLastEmpty(Pieces(text, '\n'))
  }

  /** unordered_map::insert keeps an entry that is already there. */
  function Insert(t: AuthTable, e: Option<Entry>): AuthTable {
    if e.Some? && e.value.login !in t then t[e.value.login := e.value.data] else t
  }

  function LoadLines(lines: seq<string>): AuthTable {
    if lines == [] then map[]
    else Insert(LoadLines(lines[..|lines| - 1]), ParseLine(lines[|lines| - 1]))
  }

  function Load(text: string): AuthTable {
    LoadLines(Lines(text))
  }

  /** `order` is a possible iteration order of the table. */
  ghost predicate Enumerates(order: seq<string>, t: AuthTable) {
    NoDuplicates(order) && forall login :: login in order <==> login in t
  }

  function PrintLines(t: AuthTable, order: seq<string>): (lines: seq<string>)
    requires forall login :: login in order ==> login in t
    ensures |lines| == |order|
    ensures forall k :: 0 <= k < |order| ==> lines[k] == PrintLine(Entry(order[k], t[order[k]]))
  {
    seq(|order|, k requires 0 <= k < |order| => PrintLine(Entry(order[k], t[order[k]])))
  }

  function Save(t: AuthTable, order: seq<string>): string
    requires Enumerates(order, t)
  {
    Join(PrintLines(t, order), '\n')
  }

  lemma WithoutLastEmptyCons(x: string, rest: seq<string>)
    requires rest != [] || x != ""
    ensures WithoutLastEmpty([x] + rest) == [x] + WithoutLastEmpty(rest)
  {
    var p := [x] + rest;
    if rest != [] {
      assert p[|p| - 1] == rest[|rest| - 1];
      assert p[..|p| - 1] == [x] + rest[..|rest| - 1];
    }
  }

  lemma LineAt(text: string, start: nat)
    requires start < |text|
    ensures var i := Find(text, '\n', start);
            start <= i &&
            Lines(text[start..]) == [text[start..i]] + if i < |text| then Lines(text[i + 1..]) else []
  {
    PieceAt(text, '\n', start);
    var i := Find(text, '\n', start);
    assert i == |text| ==> text[start..i] == text[start..] != "";
    WithoutLastEmptyCons(text[start..i], if i < |text| then Pieces(text[i + 1..], '\n') else []);
  }

  lemma LoadSnoc(lines: seq<string>, line: string)
    ensures LoadLines(lines + [line]) == Insert(LoadLines(lines), ParseLine(line))
  {
    assert (lines + [line])[..|lines|] == lines;
  }

  lemma LineRead(text: string, position: nat, done: seq<string>)
    requires position < |text| && done + Lines(text[position..]) == Lines(text)
    ensures var end := Find(text, '\n', position);
            position <= end &&
            done + [text[position..end]] + Lines(text[if end < |text| then end + 1 else end..]) == Lines(text)
  {
    LineAt(text, position);
    var end := Find(text, '\n', position);
    if end == |text| {
      assert text[end..] == "" && Lines("") == [];
    }
  }

  /** The end of the loop body, once the columns are known; None is `continue`. */
  method ReadRow(r: Row) returns (e: Option<Entry>)
    ensures e == Interpret(r)
  {
    var code := Stoi(r.code);
    if code == None {
      return None;
    }
    var permissions := ToUnsigned(code.value);
    if permissions > 2 {
      return None;
    }
    var mapGroups := SplitStr(r.groups, ';');
    return Some(Entry(r.login, AuthData(PermissionOf(permissions), mapGroups, r.password)));
  }

  /** The body of the loading loop up to the insertion; None is `continue`. */
  method ReadLine(line: string) returns (e: Option<Entry>)
    ensures e == ParseLine(line)
  {
    var first := Find(line, ':', 0);
    if first == |line| {
      return None;
    }
    var second := Find(line, ':', first + 1);
    if second == |line| {
      return None;
    }
    var third := Find(line, ':', second + 1);
    if third == |line| {
      return None;
    }
    e := ReadRow(Row(line[..first], line[first + 1..second], line[second + 1..third], line[third + 1..]));
  }

  method OpenAuthTable(text: string) returns (table: AuthTable)
    ensures table == Load(text)
  {
    table := map[];
    var position := 0;
    ghost var done: seq<string> := [];
    while position < |text|
      invariant position <= |text|
      invariant done + Lines(text[position..]) == Lines(text)
      invariant table == LoadLines(done)
      decreases |text| - position
    {
      LineRead(text, position, done);
      var end := Find(text, '\n', position);
      var line := text[position..end];
      position := if end < |text| then end + 1 else end;
      LoadSnoc(done, line);
      done := done + [line];
      assert done + Lines(text[position..]) == Lines(text);
      var entry := ReadLine(line);
      if entry.Some? && entry.value.login !in table {
        table := table[entry.value.login := entry.value.data];
      }
    }
    assert text[position..] == "" && Lines("") == [];
    assert done + [] == done;
  }

  lemma LineText(a: string, b: string, c: string, d: string)
    ensures a + ":" + b + ":" + c + ":" + d == a + ":" + (b + ":" + (c + ":" + d))
  {
  }

  lemma JoinRest(lines: seq<string>, k: nat)
    requires k < |lines|
    ensures Join(lines[k..], '\n') == lines[k] + if k + 1 < |lines| then "\n" + Join(lines[k + 1..], '\n') else ""
  {
    assert lines[k..][1..] == lines[k + 1..];
  }

  method SaveAuthTable(table: AuthTable, order: seq<string>) returns (text: string)
    requires Enumerates(order, table)
    ensures text == Save(table, order)
  {
    text := "";
    ghost var lines := PrintLines(table, order);
    for k := 0 to |order|
      invariant text + Join(lines[k..], '\n') == Join(lines, '\n')
    {
      var data := table[order[k]];
      var groups := JoinVector(data.mapGroups, ';');
      var line := order[k] + ":" + CodeText(data.permissions) + ":" + groups + ":" + data.password;
      LineText(order[k], CodeText(data.permissions), groups, data.password);
      JoinRest(lines, k);
      Reassociated(text, line, if k + 1 < |lines| then "\n" + Join(lines[k + 1..], '\n') else "");
      text := text + line;
      if k != |order| - 1 {
        Reassociated(text, "\n", Join(lines[k + 1..], '\n'));
        text := text + "\n";
      }
    }
  }

  // --------------------------------------------------------------- guarantees

  predicate WellFormed(t: AuthTable) {
    forall login :: login in t ==> WellFormedEntry(Entry(login, t[login]))
  }

  lemma {:induction false} LoadedLinesAreWellFormed(lines: seq<string>)
    requires AllFree(lines, '\n')
    ensures WellFormed(LoadLines(lines))
  {
    if lines != [] {
      LoadedLinesAreWellFormed(lines[..|lines| - 1]);
      assert Free(lines[|lines| - 1], '\n');
      if ParseLine(lines[|lines| - 1]).Some? {
        ParsedLineIsWellFormed(lines[|lines| - 1]);
      }
    }
  }

  /** Whatever the file holds, the loaded table is well formed. */
  lemma LoadedIsWellFormed(text: string)
    ensures WellFormed(Load(text))
  {
    PiecesAreFree(text, '\n');
    LoadedLinesAreWellFormed(Lines(text));
  }

  lemma PrintLinesSnoc(t: AuthTable, order: seq<string>)
    requires order != [] && forall login :: login in order ==> login in t
    ensures var last := order[|order| - 1];
            PrintLines(t, order) == PrintLines(t, order[..|order| - 1]) + [PrintLine(Entry(last, t[last]))]
  {
  }

  lemma RestrictSnoc(t: AuthTable, rest: seq<string>, last: string)
    requires last in t && last !in rest && forall login :: login in rest ==> login in t
    ensures (map login | login in rest + [last] :: t[login]) == (map login | login in rest :: t[login])[last := t[last]]
  {
  }

  lemma {:induction false} LoadPrintedLines(t: AuthTable, order: seq<string>)
    requires WellFormed(t) && NoDuplicates(order) && forall login :: login in order ==> login in t
    ensures LoadLines(PrintLines(t, order)) == map login | login in order :: t[login]
  {
    if order != [] {
      var last := order[|order| - 1];
      var rest := order[..|order| - 1];
      assert order == rest + [last];
      LoadPrintedLines(t, rest);
      var e := Entry(last, t[last]);
      PrintLinesSnoc(t, order);
      LoadSnoc(PrintLines(t, rest), PrintLine(e));
      PrintedLineParses(e);
      RestrictSnoc(t, rest, last);
    }
  }

  lemma LinesOfSaved(t: AuthTable, order: seq<string>)
    requires WellFormed(t) && Enumerates(order, t)
    ensures Lines(Save(t, order)) == PrintLines(t, order)
  {
    var lines := PrintLines(t, order);
    forall k | 0 <= k < |lines| ensures Free(lines[k], '\n') && lines[k] != "" {
      PrintedLineIsLine(Entry(order[k], t[order[k]]));
    }
    if lines != [] {
      PiecesJoin(lines, '\n');
    }
  }

  /** Loading what was saved gives the table back, for any iteration order, exactly when the table is well formed. */
  lemma LoadAfterSave(t: AuthTable, order: seq<string>)
    requires Enumerates(order, t)
    ensures Load(Save(t, order)) == t <==> WellFormed(t)
  {
    LoadedIsWellFormed(Save(t, order));
    if WellFormed(t) {
      LinesOfSaved(t, order);
      LoadPrintedLines(t, order);
      assert (map login | login in order :: t[login]) == t;
    }
  }

  /** Loading normalises: for every text, saving the loaded table and loading it again changes nothing. */
  lemma NormalisationIsIdempotent(text: string, order: seq<string>)
    requires Enumerates(order, Load(text))
    ensures Load(Save(Load(text), order)) == Load(text)
  {
    LoadedIsWellFormed(text);
    LoadAfterSave(Load(text), order);
  }

  predicate Defines(lines: seq<string>, k: nat, login: string) {
    k < |lines| && ParseLine(lines[k]).Some? && ParseLine(lines[k]).value.login == login
  }

  lemma {:induction false} LoadedIsDefined(lines: seq<string>, login: string)
    ensures login in LoadLines(lines) <==> exists k: nat :: Defines(lines, k, login)
  {
    if lines != [] {
      var rest := lines[..|lines| - 1];
      LoadedIsDefined(rest, login);
      assert forall k: nat :: k < |rest| ==> Defines(rest, k, login) == Defines(lines, k, login);
      assert Defines(lines, |rest|, login) <==>
             ParseLine(lines[|rest|]).Some? && ParseLine(lines[|rest|]).value.login == login;
    }
  }

  lemma FirstsDefine(lines: seq<string>, j: nat, login: string)
    requires j < |lines| - 1
    ensures Defines(lines[..|lines| - 1], j, login) == Defines(lines, j, login)
  {
  }

  lemma InsertNewOrKeep(t: AuthTable, e: Option<Entry>, login: string)
    ensures login in t ==> login in Insert(t, e) && Insert(t, e)[login] == t[login]
    ensures login !in t && e.Some? && e.value.login == login ==>
              login in Insert(t, e) && Insert(t, e)[login] == e.value.data
  {
  }

  /** Each user has the data of the first acceptable line with that login; lines that are not acceptable and later
      lines with the same login leave no trace. */
  lemma {:induction false} FirstLineWins(lines: seq<string>, k: nat, login: string)
    requires Defines(lines, k, login) && forall j: nat :: j < k ==> !Defines(lines, j, login)
    ensures login in LoadLines(lines) && LoadLines(lines)[login] == ParseLine(lines[k]).value.data
  {
    var rest := lines[..|lines| - 1];
    forall j: nat | j < |rest| ensures Defines(rest, j, login) == Defines(lines, j, login) {
      FirstsDefine(lines, j, login);
    }
    InsertNewOrKeep(LoadLines(rest), ParseLine(lines[|rest|]), login);
    if k < |rest| {
      FirstLineWins(rest, k, login);
    } else {
      LoadedIsDefined(rest, login);
    }
  }
}
