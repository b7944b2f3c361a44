/** Which files and lines the user table accepts, and what it reads from them, said about their text alone. */
module AuthLines {
  import opened Prelude
  import opened Permissions
  import opened AuthTables

  // -------------------------------------------------------- the permission column

  predicate AllSpaces(s: string) {
    forall i :: 0 <= i < |s| ==> s[i] == ' ' || '\U{0009}' <= s[i] <= '\U{000D}'
  }

  predicate AllZeros(s: string) {
    forall i :: 0 <= i < |s| ==> s[i] == '0'
  }

  function LastDigit(p: Permission): char {
    match p
    case Blocked => '0'
    case View => '1'
    case Control => '2'
  }

  /** A text that is read as a permission: blanks, a sign, zeros, the digit, and then anything that is no digit. A
      minus sign is good for nothing but zero. */
  predicate Spelled(c: string, p: Permission, blanks: string, sign: string, zeros: string, rest: string) {
    && c == blanks + (sign + (zeros + ([LastDigit(p)] + rest)))
    && AllSpaces(blanks) && AllZeros(zeros) && (rest == "" || !('0' <= rest[0] <= '9'))
    && (sign == "" || sign == "+" || (sign == "-" && p == Blocked))
  }

  ghost predicate ReadsAs(c: string, p: Permission) {
    exists blanks, sign, zeros, rest :: Spelled(c, p, blanks, sign, zeros, rest)
  }

  lemma {:induction false} SpacesAreSkipped(blanks: string, t: string)
    requires AllSpaces(blanks) && t != "" && !IsSpace(t[0])
    ensures SkipSpace(blanks + t) == t
  {
    if blanks == "" {
      assert blanks + t == t;
    } else {
      assert (blanks + t)[1..] == blanks[1..] + t;
      SpacesAreSkipped(blanks[1..], t);
    }
  }

  lemma {:induction false} SkippedAreSpaces(s: string) returns (blanks: string)
    ensures AllSpaces(blanks) && s == blanks + SkipSpace(s)
  {
    if s != [] && IsSpace(s[0]) {
      var more := SkippedAreSpaces(s[1..]);
      blanks := [s[0]] + more;
      assert s == [s[0]] + s[1..];
    } else {
      blanks := "";
    }
  }

  lemma {:induction false} NumeralHasValue(zeros: string, d: char, rest: string)
    requires AllZeros(zeros) && IsDigit(d) && (rest == "" || !IsDigit(rest[0]))
    ensures DigitsValue(zeros + ([d] + rest), 0) == d as int - '0' as int
  {
    var s := zeros + ([d] + rest);
    if zeros == "" {
      assert s == [d] + rest && s[1..] == rest;
    } else {
      assert s[1..] == zeros[1..] + ([d] + rest);
      NumeralHasValue(zeros[1..], d, rest);
    }
  }

  lemma {:induction false} DigitsGrow(s: string, value: nat)
    ensures DigitsValue(s, value) >= value
  {
    if s != [] && IsDigit(s[0]) {
      DigitsGrow(s[1..], 10 * value + (s[0] as int - '0' as int));
    }
  }

  /** A numeral below three is zeros and one digit. */
  lemma {:induction false} SmallNumeral(s: string, p: Permission) returns (zeros: string, rest: string)
    requires s != "" && IsDigit(s[0]) && DigitsValue(s, 0) == Code(p)
    ensures s == zeros + ([LastDigit(p)] + rest) && AllZeros(zeros) && (rest == "" || !IsDigit(rest[0]))
  {
    var d := s[0] as int - '0' as int;
    assert s == [s[0]] + s[1..];
    if |s| > 1 && IsDigit(s[1]) {
      assert s[1..][1..] == s[2..];
      DigitsGrow(s[2..], 10 * d + (s[1] as int - '0' as int));
      zeros, rest := SmallNumeral(s[1..], p);
      zeros := "0" + zeros;
    } else {
      zeros, rest := "", s[1..];
      assert DigitsValue(s[1..], d) == d;
    }
  }

  lemma StoiSkips(c: string, t: string)
    requires SkipSpace(c) == t && SkipSpace(t) == t
    ensures Stoi(c) == Stoi(t)
  {
  }

  lemma SignedIsRead(p: Permission, sign: string, digits: string)
    requires sign == "" || sign == "+" || (sign == "-" && p == Blocked)
    requires digits != "" && IsDigit(digits[0]) && DigitsValue(digits, 0) == Code(p)
    ensures SkipSpace(sign + digits) == sign + digits && Stoi(sign + digits) == Some(Code(p))
  {
    if sign == "" {
      assert sign + digits == digits;
    } else {
      assert (sign + digits)[1..] == digits;
    }
  }

  lemma SpelledIsRead(c: string, p: Permission, blanks: string, sign: string, zeros: string, rest: string)
    requires Spelled(c, p, blanks, sign, zeros, rest)
    ensures Stoi(c) == Some(Code(p))
  {
    var digits := zeros + ([LastDigit(p)] + rest);
    assert IsDigit(digits[0]);
    NumeralHasValue(zeros, LastDigit(p), rest);
    SpacesAreSkipped(blanks, sign + digits);
    SignedIsRead(p, sign, digits);
    StoiSkips(c, sign + digits);
  }

  /** What Stoi reads after the blanks. */
  lemma SignIsSplit(t: string, p: Permission) returns (sign: string, digits: string)
    requires t == SkipSpace(t) && Stoi(t).Some? && ToUnsigned(Stoi(t).value) == Code(p)
    ensures t == sign + digits && (sign == "" || sign == "+" || (sign == "-" && p == Blocked))
    ensures digits != "" && IsDigit(digits[0]) && DigitsValue(digits, 0) == Code(p)
  {
    if t[0] == '-' || t[0] == '+' {
      sign, digits := [t[0]], t[1..];
    } else {
      sign, digits := "", t;
    }
  }

  lemma {:induction false} SkippedTwice(s: string)
    ensures SkipSpace(SkipSpace(s)) == SkipSpace(s)
  {
    if s != [] && IsSpace(s[0]) {
      SkippedTwice(s[1..]);
    }
  }

  lemma ReadIsSpelled(c: string, p: Permission)
    requires Stoi(c).Some? && ToUnsigned(Stoi(c).value) == Code(p)
    ensures ReadsAs(c, p)
  {
    var blanks := SkippedAreSpaces(c);
    var t := SkipSpace(c);
    SkippedTwice(c);
    var sign, digits := SignIsSplit(t, p);
    var zeros, rest := SmallNumeral(digits, p);
    assert Spelled(c, p, blanks, sign, zeros, rest);
  }

  /** The column is accepted as a permission exactly if it is a text of that form. */
  lemma CodeIsReadExactly(c: string, p: Permission)
    ensures ReadsAs(c, p) <==> Stoi(c).Some? && ToUnsigned(Stoi(c).value) == Code(p)
  {
    if ReadsAs(c, p) {
      var blanks, sign, zeros, rest :| Spelled(c, p, blanks, sign, zeros, rest);
      SpelledIsRead(c, p, blanks, sign, zeros, rest);
    }
    if Stoi(c).Some? && ToUnsigned(Stoi(c).value) == Code(p) {
      ReadIsSpelled(c, p);
    }
  }

  // --------------------------------------------------------------------- groups

  /** Joining keeps the order: one element is itself, and the join of two vectors is that of the first, a delimiter
      and that of the second. */
  lemma {:induction false} JoinKeepsOrder(a: seq<string>, b: seq<string>, c: char)
    requires a != [] && b != []
    ensures Join(a + b, c) == Join(a, c) + [c] + Join(b, c)
    ensures |a| == 1 ==> Join(a, c) == a[0]
  {
    if |a| == 1 {
      assert (a + b)[1..] == b;
    } else {
      assert (a + b)[1..] == a[1..] + b;
      JoinKeepsOrder(a[1..], b, c);
    }
  }

  // --------------------------------------------------------------------- a line

  /** The line of an entry with the text `code` in its second column. */
  predicate LineOf(line: string, e: Entry, code: string) {
    var groups := Join(e.data.mapGroups, ';');
    && line == e.login + ":" + code + ":" + groups + ":" + e.data.password
    && ':' !in e.login && ':' !in code && ':' !in groups
    && AllFree(e.data.mapGroups, ';') && e.data.mapGroups != [""]
  }

  lemma LineOfIsParsed(line: string, e: Entry, code: string)
    requires LineOf(line, e, code) && ReadsAs(code, e.data.permissions)
    ensures ParseLine(line) == Some(e)
  {
    var groups := Join(e.data.mapGroups, ';');
    LineText(e.login, code, groups, e.data.password);
    PrintedColumns(Row(e.login, code, groups, e.data.password));
    CodeIsReadExactly(code, e.data.permissions);
    SplitJoin(e.data.mapGroups, "", ';');
  }

  lemma CutAt(s: string, i: nat)
    requires i < |s| && s[i] == ':'
    ensures s == s[..i] + (":" + s[i + 1..])
  {
  }

  lemma CutThrice(line: string, first: nat, second: nat, third: nat)
    requires first < second < third < |line| && line[first] == line[second] == line[third] == ':'
    ensures line == line[..first] + (":" + (line[first + 1..second] + (":" +
                    (line[second + 1..third] + (":" + line[third + 1..])))))
  {
    var a, b := line[first + 1..], line[second + 1..];
    CutAt(line, first);
    CutAt(a, second - first - 1);
    assert a[..second - first - 1] == line[first + 1..second] && a[second - first..] == b;
    CutAt(b, third - second - 1);
    assert b[..third - second - 1] == line[second + 1..third] && b[third - second..] == line[third + 1..];
  }

  lemma Nested(line: string, r: Row)
    requires line == r.login + (":" + (r.code + (":" + (r.groups + (":" + r.password)))))
    ensures line == r.login + ":" + r.code + ":" + r.groups + ":" + r.password
  {
  }

  predicate CutFrom(r: Row, line: string, first: nat, second: nat, third: nat) {
    && first < second < third < |line| && line[first] == line[second] == line[third] == ':'
    && r == Row(line[..first], line[first + 1..second], line[second + 1..third], line[third + 1..])
  }

  lemma ColumnsAreCut(line: string, r: Row) returns (first: nat, second: nat, third: nat)
    requires Columns(line) == Some(r)
    ensures CutFrom(r, line, first, second, third)
  {
    first := Find(line, ':', 0);
    second := Find(line, ':', first + 1);
    third := Find(line, ':', second + 1);
  }

  lemma ColumnsMakeLine(line: string, r: Row)
    requires Columns(line) == Some(r)
    ensures line == r.login + (":" + (r.code + (":" + (r.groups + (":" + r.password)))))
  {
    var first, second, third := ColumnsAreCut(line, r);
    CutMakesLine(line, r, first, second, third);
  }

  lemma CutMakesLine(line: string, r: Row, first: nat, second: nat, third: nat)
    requires CutFrom(r, line, first, second, third)
    ensures line == r.login + (":" + (r.code + (":" + (r.groups + (":" + r.password)))))
  {
    CutThrice(line, first, second, third);
  }

  lemma ColumnsHaveNoColon(line: string)
    requires Columns(line).Some?
    ensures var r := Columns(line).value; ':' !in r.login && ':' !in r.code && ':' !in r.groups
  {
    var first := Find(line, ':', 0);
    var second := Find(line, ':', first + 1);
    FindSkips(line, ':', 0);
    FindSkips(line, ':', first + 1);
    FindSkips(line, ':', second + 1);
    assert line[0..first] == line[..first];
  }

  lemma ParsedIsLineOf(line: string) returns (code: string)
    requires ParseLine(line).Some?
    ensures LineOf(line, ParseLine(line).value, code)
    ensures ReadsAs(code, ParseLine(line).value.data.permissions)
  {
    var r := Columns(line).value;
    ColumnsMakeLine(line, r);
    Nested(line, r);
    ColumnsHaveNoColon(line);
    code := r.code;
    SplitIsFree(r.groups);
    CodeIsReadExactly(code, ParseLine(line).value.data.permissions);
  }

  lemma SplitIsFree(s: string)
    ensures Join(Split(s, ';'), ';') == s && AllFree(Split(s, ';'), ';') && Split(s, ';') != [""]
  {
    SplitJoin([], s, ';');
    SplitJoin(Split(s, ';'), s, ';');
  }

  /** A line is accepted, and read as an entry, exactly if it is the entry's login, a text that reads as its
      permission, its groups joined by semicolons and its password, with colons between them and none before the
      password. Every other line is skipped. */
  lemma AcceptedExactly(line: string, e: Entry)
    ensures ParseLine(line) == Some(e) <==> exists code :: LineOf(line, e, code) && ReadsAs(code, e.data.permissions)
  {
    if ParseLine(line) == Some(e) {
      var code := ParsedIsLineOf(line);
    }
    if code :| LineOf(line, e, code) && ReadsAs(code, e.data.permissions) {
      LineOfIsParsed(line, e, code);
    }
  }

  // --------------------------------------------------------------------- a file

  /** The text of lines that all end with a newline. */
  function Ended(lines: seq<string>): string {
    if lines == [] then "" else lines[0] + "\n" + Ended(lines[1..])
  }

  lemma {:induction false} PiecesOfFile(lines: seq<string>, last: string)
    requires AllFree(lines, '\n') && Free(last, '\n')
    ensures Pieces(Ended(lines) + last, '\n') == lines + [last]
  {
    if lines == [] {
      assert Ended(lines) + last == last;
      PiecesOfFree(last, '\n');
    } else {
      var rest := Ended(lines[1..]) + last;
      assert Ended(lines) + last == lines[0] + ['\n'] + rest;
      PiecesOfConcat(lines[0], rest, '\n');
      PiecesOfFile(lines[1..], last);
    }
  }

  /** The lines of a file are those that end with a newline, and what follows the last newline unless it is empty. */
  lemma LinesOfFile(lines: seq<string>, last: string)
    requires AllFree(lines, '\n') && Free(last, '\n')
    ensures Lines(Ended(lines) + last) == lines + if last == "" then [] else [last]
  {
    PiecesOfFile(lines, last);
    assert (lines + [last])[..|lines|] == lines;
  }

  lemma {:induction false} JoinIsEnded(lines: seq<string>)
    requires lines != []
    ensures Join(lines, '\n') == Ended(lines[..|lines| - 1]) + lines[|lines| - 1]
  {
    if |lines| > 1 {
      JoinIsEnded(lines[1..]);
      assert lines[1..][..|lines| - 2] == lines[..|lines| - 1][1..];
    }
  }

  /** The text that is saved for a user. */
  predicate SavedAs(line: string, login: string, data: AuthData) {
    line == login + ":" + [LastDigit(data.permissions)] + ":" + Join(data.mapGroups, ';') + ":" + data.password
  }

  lemma UserIsSavedAs(login: string, data: AuthData)
    ensures SavedAs(PrintLine(Entry(login, data)), login, data)
  {
    LineText(login, [LastDigit(data.permissions)], Join(data.mapGroups, ';'), data.password);
  }

  /** A saved file holds one line for each user in the order of iteration, with a newline between neighbours and none
      at the end, whatever the names, groups and passwords are. */
  lemma SavedFile(t: AuthTable, order: seq<string>) returns (lines: seq<string>)
    requires Enumerates(order, t)
    ensures |lines| == |order| && forall k :: 0 <= k < |order| ==> SavedAs(lines[k], order[k], t[order[k]])
    ensures Save(t, order) == if lines == [] then "" else Ended(lines[..|lines| - 1]) + lines[|lines| - 1]
  {
    lines := PrintLines(t, order);
    forall k | 0 <= k < |order| ensures SavedAs(lines[k], order[k], t[order[k]]) {
      UserIsSavedAs(order[k], t[order[k]]);
    }
    if lines != [] {
      JoinIsEnded(lines);
    }
  }
}
