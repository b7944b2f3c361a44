/** Digest authentication: reading the Authorization field, checking the response, and the challenge. */
module Digests {
  import opened Prelude
  import opened Permissions
  import opened AuthTables

  /** SHA-256 as lower-case hexadecimal text; nothing is assumed about it. */
  type Hash = string -> string

  // ------------------------------------------------- key_value_regex as a matcher

  predicate IsLetter(c: char) {
    'a' <= c <= 'z' || 'A' <= c <= 'Z'
  }

  /** The class [a-zA-Z0-9_\-+=] of unquoted values. */
  predicate IsTokenChar(c: char) {
    IsLetter(c) || IsDigit(c) || c == '_' || c == '-' || c == '+' || c == '='
  }

  /** What the dot of an ECMAScript expression does not match. */
  predicate IsLineBreak(c: char) {
    c == '\n' || c == '\r'
  }

  predicate IsInner(c: char) {
    c != '"' && !IsLineBreak(c)
  }

  /** The longest prefix of `s` whose characters satisfy `p`. */
  function Span(s: string, p: char -> bool): (r: string)
    ensures r <= s
  {
    if s != [] && p(s[0]) then [s[0]] + Span(s[1..], p) else []
  }

  /** A quoted value: at least one character, of which the first may be a quote, up to the next quote. */
  function QuotedValue(s: string): (r: string)
    ensures r <= s
  {
    if |s| < 2 || IsLineBreak(s[1]) then ""
    else
      var m := Span(s[2..], IsInner);
      if 2 + |m| < |s| && s[2 + |m|] == '"' then s[..3 + |m|] else ""
  }

  /** The text matched by the second group, or the empty string if there is no match. */
  function RawValue(s: string): (r: string)
    ensures r <= s
  {
    if s != [] && s[0] == '"' then QuotedValue(s) else Span(s, IsTokenChar)
  }

  function SkipComma(s: string): string {
    if s != [] && s[0] == ',' then s[1..] else s
  }

  /** One match: the two groups, and the text after the match. */
  datatype Match = Match(key: string, raw: string, rest: string)

  /** The match from the `=` on, given the first group. */
  function MatchValue(key: string, u: string): (r: Option<Match>)
    ensures r.Some? ==> |r.value.rest| < |u| && r.value.raw != ""
  {
    if key == "" || u == "" || u[0] != '=' then None
    else
      var raw := RawValue(u[1..]);
      if raw == "" then None else Some(Match(key, raw, SkipSpace(SkipComma(u[1 + |raw|..]))))
  }

  function MatchKey(t: string): (r: Option<Match>)
    ensures r.Some? ==> |r.value.rest| < |t| && r.value.raw != ""
  {
    var key := Span(t, IsLetter);
    MatchValue(key, t[|key|..])
  }

  /** The expression matched at the start of `s`. None of its repetitions ever gives characters back, because the
      character that follows each is outside its class. */
  function MatchHere(s: string): (r: Option<Match>)
    ensures r.Some? ==> |r.value.rest| < |s| && r.value.raw != ""
  {
    MatchKey(SkipSpace(s))
  }

  /** The leftmost match in `s`. */
  function Search(s: string): (r: Option<Match>)
    ensures r.Some? ==> |r.value.rest| < |s| && r.value.raw != ""
  {
    if MatchHere(s).Some? then MatchHere(s)
    else if s == [] then None
    else Search(s[1..])
  }

  /** The matches that std::sregex_iterator visits. */
  function Matches(s: string): seq<Match>
    decreases |s|
  {
    match Search(s)
    case None => []
    case Some(m) => [m] + Matches(m.rest)
  }

  // -------------------------------------------------------------- digest_auth

  datatype DigestAuth = DigestAuth(
    username: string, response: string, nonce: string, realm: string, uri: string,
    nc: Option<string>, cnonce: Option<string>, opaque_: Option<string>, qop: Option<string>)

  const EMPTY := DigestAuth("", "", "", "", "", None, None, None, None)

  function WithField(d: DigestAuth, key: string, value: string): DigestAuth {
    if key == "username" then d.(username := value)
    else if key == "response" then d.(response := value)
    else if key == "nonce" then d.(nonce := value)
    else if key == "realm" then d.(realm := value)
    else if key == "uri" then d.(uri := value)
    else if key == "nc" then d.(nc := Some(value))
    else if key == "cnonce" then d.(cnonce := Some(value))
    else if key == "opaque" then d.(opaque_ := Some(value))
    else if key == "qop" then d.(qop := Some(value))
    else d
  }

  predicate IsValid(d: DigestAuth) {
    && d.username != "" && d.response != "" && d.nonce != "" && d.realm != "" && d.uri != ""
    && if d.qop.Some? then d.cnonce.Some? && d.nc.Some? else d.cnonce.None? && d.nc.None?
  }

  function Unquoted(raw: string): string {
    if raw != "" && raw[0] == '"' && raw[|raw| - 1] == '"' then
      (if |raw| == 1 then "" else raw[1..|raw| - 1])
    else raw
  }

  function WithMatches(d: DigestAuth, ms: seq<Match>): DigestAuth
    decreases |ms|
  {
    if ms == [] then d else WithMatches(WithField(d, ms[0].key, Unquoted(ms[0].raw)), ms[1..])
  }

  function ParseDigestAuth(header: string): Option<DigestAuth> {
    var d := WithMatches(EMPTY, Matches(header));
    if "Digest" <= header && IsValid(d) then Some(d) else None
  }

  /** Credentials are readable exactly if the header starts with the word Digest and the fields found in it include
      the five mandatory ones, and cnonce and nc exactly if there is a qop. */
  lemma ReadableExactly(header: string, d: DigestAuth)
    ensures ParseDigestAuth(header) == Some(d) <==>
              && |header| >= 6 && header[..6] == "Digest" && d == WithMatches(EMPTY, Matches(header))
              && d.username != "" && d.response != "" && d.nonce != "" && d.realm != "" && d.uri != ""
              && (d.qop.Some? <==> d.cnonce.Some?) && (d.qop.Some? <==> d.nc.Some?)
  {
  }

  class DigestParams {
    var username: string
    var response: string
    var nonce: string
    var realm: string
    var uri: string
    var nc: Option<string>
    var cnonce: Option<string>
    var opaque_: Option<string>
    var qop: Option<string>

    function Value(): DigestAuth
      reads this
    {
      DigestAuth(username, response, nonce, realm, uri, nc, cnonce, opaque_, qop)
    }

    constructor ()
      ensures Value() == EMPTY
    {
      username, response, nonce, realm, uri := "", "", "", "", "";
      nc, cnonce, opaque_, qop := None, None, None, None;
    }

    method SetField(key: string, value: string)
      modifies this
      ensures Value() == WithField(old(Value()), key, value)
    {
      if key == "username" { username := value; }
      if key == "response" { response := value; }
      if key == "nonce" { nonce := value; }
      if key == "realm" { realm := value; }
      if key == "uri" { uri := value; }
      if key == "nc" { nc := Some(value); }
      if key == "cnonce" { cnonce := Some(value); }
      if key == "opaque" { opaque_ := Some(value); }
      if key == "qop" { qop := Some(value); }
    }
  }

  lemma NextMatch(s: string, d: DigestAuth)
    ensures WithMatches(d, Matches(s)) ==
            if Search(s) == None then d
            else var m := Search(s).value; WithMatches(WithField(d, m.key, Unquoted(m.raw)), Matches(m.rest))
  {
    if Search(s).Some? {
      var m := Search(s).value;
      assert ([m] + Matches(m.rest))[1..] == Matches(m.rest);
    }
  }

  method ParseDigestAuthField(fieldValue: string) returns (params: Option<DigestAuth>)
    ensures params == ParseDigestAuth(fieldValue)
  {
    if !("Digest" <= fieldValue) {
      return None;
    }
    var p := new DigestParams();
    var rest := fieldValue;
    var it := Search(rest);
    while it.Some?
      invariant it == Search(rest) && fresh(p)
      invariant WithMatches(p.Value(), Matches(rest)) == WithMatches(EMPTY, Matches(fieldValue))
      decreases |rest|
    {
      NextMatch(rest, p.Value());
      var key, value := it.value.key, it.value.raw;
      if value[0] == '"' && value[|value| - 1] == '"' {
        value := if |value| == 1 then "" else value[1..|value| - 1];
      }
      p.SetField(key, value);
      rest := it.value.rest;
      it := Search(rest);
    }
    NextMatch(rest, p.Value());
    if IsValid(p.Value()) {
      return Some(p.Value());
    } else {
      return None;
    }
  }

  // ------------------------------------------------------------ get_auth

  function MethodName(verb: string): string {
    if verb in {"GET", "PUT", "DELETE", "HEAD", "OPTIONS", "CONNECT"} then verb else "unknown"
  }

  predicate CheckPassword(d: DigestAuth, password: string, method_: string, nonce: string, opaque_: string,
                          table: AuthTable, hash: Hash)
    requires d.qop.Some? ==> d.nc.Some? && d.cnonce.Some?
  {
    if d.username !in table || d.qop == None || d.opaque_ == None || d.opaque_.value != opaque_ then false
    else
      var a1 := hash(d.username + ":" + d.realm + ":" + password);
      var a2 := hash(method_ + ":" + d.uri);
      d.response == hash(a1 + ":" + nonce + ":" + d.nc.value + ":" + d.cnonce.value + ":" + d.qop.value + ":" + a2)
  }

  function GetAuth(authorization: Option<string>, verb: string, table: AuthTable, nonce: string, opaque_: string,
                   hash: Hash): Option<AuthData> {
    if authorization == None then None
    else
      match ParseDigestAuth(authorization.value)
      case None => None
      case Some(d) =>
        if d.username !in table then None
        else if CheckPassword(d, table[d.username].password, MethodName(verb), nonce, opaque_, table, hash)
        then Some(table[d.username]) else None
  }

  // ------------------------------------------------ printing a list of fields

  /** A `key=value` or `key="value"` pair of a header. */
  datatype Pair = Pair(key: string, value: string, quoted: bool)

  function PrintValue(f: Pair): string {
    if f.quoted then "\"" + f.value + "\"" else f.value
  }

  function PrintPairs(fs: seq<Pair>): string {
    if fs == [] then ""
    else fs[0].key + ("=" + PrintValue(fs[0]) + if |fs| == 1 then "" else ", " + PrintPairs(fs[1..]))
  }

  function Header(fs: seq<Pair>): string {
    "Digest " + PrintPairs(fs)
  }

  predicate All(s: string, p: char -> bool) {
    forall i :: 0 <= i < |s| ==> p(s[i])
  }

  /** What can be sent as a quoted value. */
  predicate Sendable(s: string) {
    s != "" && All(s, IsInner)
  }

  /** A pair that can be printed: quoted values are free of quotes and line breaks, others are tokens. */
  predicate Printable(f: Pair) {
    && f.key != "" && All(f.key, IsLetter) && f.value != ""
    && if f.quoted then All(f.value, IsInner) else All(f.value, IsTokenChar)
  }

  lemma {:induction false} SpanConcat(a: string, b: string, p: char -> bool)
    requires All(a, p) && (b == "" || !p(b[0]))
    ensures Span(a + b, p) == a
  {
    if a == "" {
      assert a + b == b;
    } else {
      assert (a + b)[1..] == a[1..] + b;
      SpanConcat(a[1..], b, p);
      assert a == [a[0]] + a[1..];
    }
  }

  lemma PrintedValueIsMatched(f: Pair, tail: string)
    requires Printable(f) && (tail == "" || tail[0] == ',')
    ensures RawValue(PrintValue(f) + tail) == PrintValue(f)
  {
    var s := PrintValue(f) + tail;
    if f.quoted {
      assert s == "\"" + f.value + "\"" + tail;
      assert s[0] == '"' && s[1] == f.value[0] && IsInner(f.value[0]);
      assert s[2..] == f.value[1..] + ("\"" + tail);
      SpanConcat(f.value[1..], "\"" + tail, IsInner);
      assert s[..3 + |f.value[1..]|] == PrintValue(f);
    } else {
      assert s[0] == f.value[0] && IsTokenChar(f.value[0]);
      SpanConcat(f.value, tail, IsTokenChar);
    }
  }

  lemma PrintedTailIsMatched(f: Pair, tail: string)
    requires Printable(f) && (tail == "" || tail[0] == ',')
    ensures MatchValue(f.key, "=" + PrintValue(f) + tail) ==
            Some(Match(f.key, PrintValue(f), SkipSpace(SkipComma(tail))))
  {
    PrintedValueIsMatched(f, tail);
    var u := "=" + PrintValue(f) + tail;
    assert u[1..] == PrintValue(f) + tail;
    assert u[1 + |PrintValue(f)|..] == tail;
  }

  lemma StartsWithLetter(s: string)
    requires s != "" && IsLetter(s[0])
    ensures SkipSpace(s) == s
  {
  }

  lemma SeparatorIsSkipped(rest: string)
    requires rest != "" && IsLetter(rest[0])
    ensures SkipSpace(SkipComma(", " + rest)) == rest && SkipSpace(" " + rest) == rest
  {
    assert (", " + rest)[1..] == " " + rest;
    assert (" " + rest)[1..] == rest;
    StartsWithLetter(rest);
  }

  /** What separates a pair from what follows it. */
  function Tail(rest: string): string {
    if rest == "" then "" else ", " + rest
  }

  /** A printed pair is matched as a whole, and what follows its comma and blank is left. */
  lemma PrintedPairIsMatched(f: Pair, rest: string)
    requires Printable(f) && (rest == "" || IsLetter(rest[0]))
    ensures MatchHere(f.key + ("=" + PrintValue(f) + Tail(rest))) == Some(Match(f.key, PrintValue(f), rest))
  {
    var u := "=" + PrintValue(f) + Tail(rest);
    var s := f.key + u;
    assert s[0] == f.key[0];
    StartsWithLetter(s);
    SpanConcat(f.key, u, IsLetter);
    assert s[|f.key|..] == u;
    PrintedTailIsMatched(f, Tail(rest));
    if rest != "" {
      SeparatorIsSkipped(rest);
    }
  }

  /** The matches of a printed list. */
  function Printed(fs: seq<Pair>): seq<Match> {
    if fs == [] then []
    else [Match(fs[0].key, PrintValue(fs[0]), PrintPairs(fs[1..]))] + Printed(fs[1..])
  }

  predicate AllPrintable(fs: seq<Pair>) {
    forall k :: 0 <= k < |fs| ==> Printable(fs[k])
  }

  lemma PairsStartWithLetter(fs: seq<Pair>)
    requires AllPrintable(fs)
    ensures fs != [] ==> PrintPairs(fs) != "" && IsLetter(PrintPairs(fs)[0])
  {
    if fs != [] {
      assert PrintPairs(fs)[0] == fs[0].key[0];
    }
  }

  lemma FirstPairIsMatched(fs: seq<Pair>)
    requires AllPrintable(fs) && fs != []
    ensures MatchHere(PrintPairs(fs)) == Some(Printed(fs)[0])
  {
    PairsStartWithLetter(fs[1..]);
    PrintedPairIsMatched(fs[0], PrintPairs(fs[1..]));
  }

  lemma {:induction false} PrintedPairsAreMatched(fs: seq<Pair>)
    requires AllPrintable(fs)
    ensures Matches(PrintPairs(fs)) == Printed(fs)
  {
    if fs != [] {
      FirstPairIsMatched(fs);
      PrintedPairsAreMatched(fs[1..]);
    }
  }

  lemma {:induction false} SearchSkipsWord(word: string, s: string)
    requires All(word, IsLetter)
    ensures Search(word + (" " + s)) == Search(" " + s)
  {
    var t := word + (" " + s);
    if word == "" {
      assert t == " " + s;
    } else {
      StartsWithLetter(t);
      SpanConcat(word, " " + s, IsLetter);
      assert t[|word|..] == " " + s;
      assert t[1..] == word[1..] + (" " + s);
      SearchSkipsWord(word[1..], s);
    }
  }

  /** Reading a header gives exactly the pairs printed in it, in their order. */
  lemma HeaderIsRead(fs: seq<Pair>)
    requires AllPrintable(fs)
    ensures Matches(Header(fs)) == Printed(fs)
  {
    var s := PrintPairs(fs);
    SearchSkipsWord("Digest", s);
    assert Header(fs) == "Digest" + (" " + s);
    PrintedPairsAreMatched(fs);
    SearchAfterBlank(fs);
  }

  lemma SearchAfterBlank(fs: seq<Pair>)
    requires AllPrintable(fs)
    ensures Search(" " + PrintPairs(fs)) == Search(PrintPairs(fs))
  {
    var s := PrintPairs(fs);
    assert (" " + s)[1..] == s;
    if fs != [] {
      PairsStartWithLetter(fs);
      SeparatorIsSkipped(s);
      StartsWithLetter(s);
      FirstPairIsMatched(fs);
    }
  }

  // -------------------------------------------------------- answering a challenge

  /** What a record holds for a key; an empty string is the absence of a mandatory field. */
  function Held(d: DigestAuth, key: string): Option<string> {
    if key == "nc" then d.nc
    else if key == "cnonce" then d.cnonce
    else if key == "opaque" then d.opaque_
    else if key == "qop" then d.qop
    else
      var v := if key == "username" then d.username
               else if key == "response" then d.response
               else if key == "nonce" then d.nonce
               else if key == "realm" then d.realm
               else if key == "uri" then d.uri else "";
      if v == "" then None else Some(v)
  }

  const KEYS: set<string> :=
    {"username", "response", "nonce", "realm", "uri", "nc", "cnonce", "opaque", "qop"}

  lemma FieldIsHeld(d: DigestAuth, key: string, value: string, other: string)
    requires value != ""
    ensures Held(WithField(d, key, value), other) ==
            if other == key && key in KEYS then Some(value) else Held(d, other)
  {
  }

  lemma UnquotedPrinted(f: Pair)
    requires Printable(f)
    ensures Unquoted(PrintValue(f)) == f.value
  {
    var raw := PrintValue(f);
    if f.quoted {
      assert raw[1..|raw| - 1] == f.value;
    } else {
      assert IsTokenChar(f.value[0]);
    }
  }

  predicate DistinctKeys(fs: seq<Pair>) {
    forall i, j :: 0 <= i < j < |fs| ==> fs[i].key != fs[j].key
  }

  /** Every pair of a header with distinct keys ends up in its field, whatever their order. */
  lemma {:induction false} PairsAreHeld(d: DigestAuth, fs: seq<Pair>, key: string)
    requires AllPrintable(fs) && DistinctKeys(fs) && key in KEYS
    ensures var h := Held(WithMatches(d, Printed(fs)), key);
            && (forall k :: 0 <= k < |fs| && fs[k].key == key ==> h == Some(fs[k].value))
            && ((forall k :: 0 <= k < |fs| ==> fs[k].key != key) ==> h == Held(d, key))
    decreases |fs|
  {
    if fs != [] {
      var e := WithField(d, fs[0].key, fs[0].value);
      UnquotedPrinted(fs[0]);
      FieldIsHeld(d, fs[0].key, fs[0].value, key);
      assert Printed(fs)[1..] == Printed(fs[1..]);
      PairsAreHeld(e, fs[1..], key);
      assert forall k :: 0 < k < |fs| ==> fs[1..][k - 1] == fs[k];
    }
  }

  predicate Carries(fs: seq<Pair>, key: string, value: string) {
    exists k :: 0 <= k < |fs| && fs[k].key == key && fs[k].value == value
  }

  /** The header carries the fields of `d`, in any order, and possibly others with other names. */
  predicate Answers(fs: seq<Pair>, d: DigestAuth) {
    && AllPrintable(fs) && DistinctKeys(fs)
    && Carries(fs, "username", d.username) && Carries(fs, "response", d.response) && Carries(fs, "nonce", d.nonce)
    && Carries(fs, "realm", d.realm) && Carries(fs, "uri", d.uri)
    && d.nc.Some? && Carries(fs, "nc", d.nc.value) && d.cnonce.Some? && Carries(fs, "cnonce", d.cnonce.value)
    && d.opaque_.Some? && Carries(fs, "opaque", d.opaque_.value) && d.qop.Some? && Carries(fs, "qop", d.qop.value)
  }

  lemma CarriedIsHeld(fs: seq<Pair>, key: string, value: string)
    requires AllPrintable(fs) && DistinctKeys(fs) && key in KEYS && Carries(fs, key, value)
    ensures Held(WithMatches(EMPTY, Matches(Header(fs))), key) == Some(value) && value != ""
  {
    HeaderIsRead(fs);
    PairsAreHeld(EMPTY, fs, key);
  }

  lemma HeldFields(e: DigestAuth, d: DigestAuth)
    requires d.nc.Some? && d.cnonce.Some? && d.opaque_.Some? && d.qop.Some?
    requires Held(e, "username") == Some(d.username) && Held(e, "response") == Some(d.response)
    requires Held(e, "nonce") == Some(d.nonce) && Held(e, "realm") == Some(d.realm) && Held(e, "uri") == Some(d.uri)
    requires Held(e, "nc") == d.nc && Held(e, "cnonce") == d.cnonce
    requires Held(e, "opaque") == d.opaque_ && Held(e, "qop") == d.qop
    ensures e == d && IsValid(e)
  {
  }

  /** Parsing the header returns exactly the fields printed in it. */
  lemma AnswerIsParsed(fs: seq<Pair>, d: DigestAuth)
    requires Answers(fs, d)
    ensures ParseDigestAuth(Header(fs)) == Some(d)
  {
    CarriedIsHeld(fs, "username", d.username);
    CarriedIsHeld(fs, "response", d.response);
    CarriedIsHeld(fs, "nonce", d.nonce);
    CarriedIsHeld(fs, "realm", d.realm);
    CarriedIsHeld(fs, "uri", d.uri);
    CarriedIsHeld(fs, "nc", d.nc.value);
    CarriedIsHeld(fs, "cnonce", d.cnonce.value);
    CarriedIsHeld(fs, "opaque", d.opaque_.value);
    CarriedIsHeld(fs, "qop", d.qop.value);
    HeldFields(WithMatches(EMPTY, Matches(Header(fs))), d);
    assert Header(fs)[..6] == "Digest";
  }

  /** KD of section 3.3 of RFC 7616. */
  function Kd(hash: Hash, secret: string, data: string): string {
    hash(secret + ":" + data)
  }

  /** The response of section 3.4.1 of RFC 7616, with A1 and A2 as sections 3.4.2 and 3.4.3 define them. */
  function RequestDigest(hash: Hash, d: DigestAuth, password: string, verb: string, nonce: string): string
    requires d.nc.Some? && d.cnonce.Some? && d.qop.Some?
  {
    var a1 := d.username + ":" + d.realm + ":" + password;
    var a2 := verb + ":" + d.uri;
    Kd(hash, hash(a1), nonce + ":" + d.nc.value + ":" + d.cnonce.value + ":" + d.qop.value + ":" + hash(a2))
  }

  lemma SixParts(a: string, b: string, c: string, d: string, e: string, f: string)
    ensures a + ":" + b + ":" + c + ":" + d + ":" + e + ":" + f ==
            a + ":" + (b + ":" + c + ":" + d + ":" + e + ":" + f)
  {
  }

  /** Digest authentication is complete, and accepts nothing else: a client that answers the current challenge is
      given the stored data of its user exactly when its response is the request digest for that user's password,
      the method's name and the server's nonce. The order and the quoting of the fields do not matter. */
  lemma DigestIsDecidedByResponse(fs: seq<Pair>, d: DigestAuth, verb: string, table: AuthTable, nonce: string,
                                  opaque_: string, hash: Hash)
    requires Answers(fs, d) && d.username in table && d.opaque_ == Some(opaque_)
    ensures GetAuth(Some(Header(fs)), verb, table, nonce, opaque_, hash) ==
            if d.response == RequestDigest(hash, d, table[d.username].password, MethodName(verb), nonce)
            then Some(table[d.username]) else None
  {
    AnswerIsParsed(fs, d);
    var password := table[d.username].password;
    SixParts(hash(d.username + ":" + d.realm + ":" + password), nonce, d.nc.value, d.cnonce.value, d.qop.value,
             hash(MethodName(verb) + ":" + d.uri));
  }

  // ----------------------------------------------------------- a client's answer

  /** Every value of the hash is non-empty and free of quotes and line breaks, as hexadecimal text is. */
  ghost predicate Quotable(hash: Hash) {
    forall x :: Sendable(hash(x))
  }

  function Answer(hash: Hash, username: string, password: string, verb: string, uri: string, nonce: string,
                  opaque_: string, nc: string, cnonce: string): DigestAuth {
    var d := DigestAuth(username, "", nonce, "viewcontrol", uri, Some(nc), Some(cnonce), Some(opaque_), Some("auth"));
    d.(response := RequestDigest(hash, d, password, verb, nonce))
  }

  /** The header fields in which a client sends its answer. */
  function AnswerPairs(d: DigestAuth): seq<Pair>
    requires d.nc.Some? && d.cnonce.Some? && d.opaque_.Some?
  {
    [Pair("username", d.username, true), Pair("realm", d.realm, true), Pair("nonce", d.nonce, true),
     Pair("uri", d.uri, true), Pair("response", d.response, true), Pair("qop", "auth", false),
     Pair("nc", d.nc.value, false), Pair("cnonce", d.cnonce.value, true), Pair("opaque", d.opaque_.value, true)]
  }

  predicate SendableAnswer(d: DigestAuth) {
    && Sendable(d.username) && Sendable(d.realm) && Sendable(d.nonce) && Sendable(d.uri) && Sendable(d.response)
    && d.nc.Some? && d.nc.value != "" && All(d.nc.value, IsTokenChar) && d.cnonce.Some? && Sendable(d.cnonce.value)
    && d.opaque_.Some? && Sendable(d.opaque_.value) && d.qop == Some("auth")
  }

  predicate KeyText(key: string) {
    key != "" && All(key, IsLetter)
  }

  lemma AnswerKeysAreText()
    ensures KeyText("username") && KeyText("realm") && KeyText("nonce") && KeyText("uri") && KeyText("response")
    ensures KeyText("qop") && KeyText("nc") && KeyText("cnonce") && KeyText("opaque") && All("auth", IsTokenChar)
  {
  }

  lemma AnswerPairsArePrintable(d: DigestAuth)
    requires SendableAnswer(d)
    ensures AllPrintable(AnswerPairs(d))
  {
    AnswerKeysAreText();
  }

  lemma AnswerKeysAreDistinct(d: DigestAuth)
    requires SendableAnswer(d)
    ensures DistinctKeys(AnswerPairs(d))
  {
    assert |"username"| == 8 && |"realm"| == 5 && |"nonce"| == 5 && |"uri"| == 3 && |"response"| == 8;
    assert |"qop"| == 3 && |"nc"| == 2 && |"cnonce"| == 6 && |"opaque"| == 6;
    assert "username"[0] == 'u' && "response"[0] == 'r' && "realm"[0] == 'r' && "nonce"[0] == 'n';
    assert "uri"[0] == 'u' && "qop"[0] == 'q' && "cnonce"[0] == 'c' && "opaque"[0] == 'o';
  }

  lemma PairCarries(fs: seq<Pair>, k: nat)
    requires k < |fs|
    ensures Carries(fs, fs[k].key, fs[k].value)
  {
  }

  lemma AnswerPairsAnswer(d: DigestAuth)
    requires SendableAnswer(d)
    ensures Answers(AnswerPairs(d), d)
  {
    AnswerPairsArePrintable(d);
    AnswerKeysAreDistinct(d);
    forall k: nat | k < 9 ensures Carries(AnswerPairs(d), AnswerPairs(d)[k].key, AnswerPairs(d)[k].value) {
      PairCarries(AnswerPairs(d), k);
    }
    var fs := AnswerPairs(d);
    assert fs[0].key == "username" && fs[1].key == "realm" && fs[2].key == "nonce" && fs[3].key == "uri";
    assert fs[4].key == "response" && fs[5].key == "qop" && fs[6].key == "nc" && fs[7].key == "cnonce";
    assert fs[8].key == "opaque";
  }

  lemma AnswerIsSendable(hash: Hash, username: string, password: string, verb: string, uri: string, nonce: string,
                         opaque_: string, nc: string, cnonce: string)
    requires Quotable(hash) && Sendable(username) && Sendable(uri) && Sendable(nonce) && Sendable(opaque_)
    requires Sendable(cnonce) && nc != "" && All(nc, IsTokenChar)
    ensures SendableAnswer(Answer(hash, username, password, verb, uri, nonce, opaque_, nc, cnonce))
  {
    assert Sendable("viewcontrol");
  }

  /** The server knows the method by its name. */
  predicate NamesMethod(verb: string) {
    MethodName(verb) == verb
  }

  /** Every stored user gets in: for every user name and URI that are non-empty and free of quotes and line breaks,
      the header in which a client answers with the stored password is accepted with that user's data if the server
      names the method; for another method it is accepted exactly if the digest happens to be the one for the method
      "unknown". */
  lemma StoredUserIsAccepted(hash: Hash, table: AuthTable, username: string, verb: string, uri: string,
                             nonce: string, opaque_: string, nc: string, cnonce: string)
    requires Quotable(hash) && username in table && Sendable(username) && Sendable(uri)
    requires Sendable(nonce) && Sendable(opaque_) && Sendable(cnonce) && nc != "" && All(nc, IsTokenChar)
    ensures var password := table[username].password;
            var d := Answer(hash, username, password, verb, uri, nonce, opaque_, nc, cnonce);
            var accepted := GetAuth(Some(Header(AnswerPairs(d))), verb, table, nonce, opaque_, hash);
            && SendableAnswer(d)
            && (NamesMethod(verb) ==> accepted == Some(table[username]))
            && (!NamesMethod(verb) ==>
                  accepted == if d.response == RequestDigest(hash, d, password, "unknown", nonce)
                              then Some(table[username]) else None)
  {
    var password := table[username].password;
    AnswerIsSendable(hash, username, password, verb, uri, nonce, opaque_, nc, cnonce);
    var d := Answer(hash, username, password, verb, uri, nonce, opaque_, nc, cnonce);
    AnswerPairsAnswer(d);
    DigestIsDecidedByResponse(AnswerPairs(d), d, verb, table, nonce, opaque_, hash);
  }

  /** Whoever is accepted named a stored user, sent back the server's opaque value, and gave the response that
      only the stored password produces. */
  lemma AcceptedMeansResponse(authorization: Option<string>, verb: string, table: AuthTable, nonce: string,
                              opaque_: string, hash: Hash)
    requires GetAuth(authorization, verb, table, nonce, opaque_, hash).Some?
    ensures authorization.Some? && ParseDigestAuth(authorization.value).Some?
    ensures var d := ParseDigestAuth(authorization.value).value;
            && d.username in table && d.opaque_ == Some(opaque_) && d.qop.Some? && d.nc.Some? && d.cnonce.Some?
            && GetAuth(authorization, verb, table, nonce, opaque_, hash) == Some(table[d.username])
            && d.response == RequestDigest(hash, d, table[d.username].password, MethodName(verb), nonce)
  {
    var d := ParseDigestAuth(authorization.value).value;
    SixParts(hash(d.username + ":" + d.realm + ":" + table[d.username].password), nonce, d.nc.value, d.cnonce.value,
             d.qop.value, hash(MethodName(verb) + ":" + d.uri));
  }

  // ------------------------------------------------------------- the challenge

  function GenerateDigestResponse(nonce: string, opaque_: string, stale: bool): string {
    var end := if stale then ", " + "stale=TRUE" else "";
    "Digest " +
    ("realm=" + ("\"viewcontrol\"" + (", " +
    ("nonce=" + ("\"" + nonce + "\"" + (", " +
    ("algorithm=" + ("SHA-256" + (", " +
    ("qop=" + ("\"auth\"" + (", " +
    ("opaque=" + ("\"" + opaque_ + "\"" + end))))))))))))))
  }

  function ChallengePairs(nonce: string, opaque_: string, stale: bool): seq<Pair> {
    [Pair("realm", "viewcontrol", true), Pair("nonce", nonce, true), Pair("algorithm", "SHA-256", false),
     Pair("qop", "auth", true), Pair("opaque", opaque_, true)] + if stale then [Pair("stale", "TRUE", false)] else []
  }

  lemma PrintFirst(f: Pair, rest: seq<Pair>, keyText: string, valueText: string, restText: string)
    requires keyText == f.key + "=" && valueText == PrintValue(f) && restText == PrintPairs(rest)
    ensures PrintPairs([f] + rest) == keyText + (valueText + if rest == [] then "" else ", " + restText)
  {
    assert ([f] + rest)[1..] == rest;
  }

  /** The text from the third parameter of the challenge on. */
  lemma ChallengeEnd(opaque_: string, end: string, last: seq<Pair>)
    requires end == if last == [] then "" else ", " + PrintPairs(last)
    ensures PrintPairs([Pair("algorithm", "SHA-256", false)] + ([Pair("qop", "auth", true)] +
                       ([Pair("opaque", opaque_, true)] + last))) ==
            "algorithm=" + ("SHA-256" + (", " + ("qop=" + ("\"auth\"" + (", " +
            ("opaque=" + ("\"" + opaque_ + "\"" + end)))))))
  {
    var f1 := [Pair("opaque", opaque_, true)] + last;
    var f2 := [Pair("qop", "auth", true)] + f1;
    PrintFirst(Pair("opaque", opaque_, true), last, "opaque=", "\"" + opaque_ + "\"", PrintPairs(last));
    PrintFirst(Pair("qop", "auth", true), f1, "qop=", "\"auth\"", PrintPairs(f1));
    PrintFirst(Pair("algorithm", "SHA-256", false), f2, "algorithm=", "SHA-256", PrintPairs(f2));
  }

  /** The text up to the third parameter. */
  lemma ChallengeStart(nonce: string, rest: seq<Pair>, text: string)
    requires rest != [] && text == PrintPairs(rest)
    ensures PrintPairs([Pair("realm", "viewcontrol", true)] + ([Pair("nonce", nonce, true)] + rest)) ==
            "realm=" + ("\"viewcontrol\"" + (", " + ("nonce=" + ("\"" + nonce + "\"" + (", " + text)))))
  {
    var f := [Pair("nonce", nonce, true)] + rest;
    PrintFirst(Pair("nonce", nonce, true), rest, "nonce=", "\"" + nonce + "\"", text);
    PrintFirst(Pair("realm", "viewcontrol", true), f, "realm=", "\"viewcontrol\"", PrintPairs(f));
  }

  lemma ChallengeText(nonce: string, opaque_: string, stale: bool)
    ensures GenerateDigestResponse(nonce, opaque_, stale) == Header(ChallengePairs(nonce, opaque_, stale))
  {
    var last := if stale then [Pair("stale", "TRUE", false)] else [];
    var end := if stale then ", " + "stale=TRUE" else "";
    if stale {
      assert last == [Pair("stale", "TRUE", false)] + [];
      PrintFirst(Pair("stale", "TRUE", false), [], "stale=", "TRUE", "");
      assert PrintPairs(last) == "stale=TRUE";
    }
    var rest := [Pair("algorithm", "SHA-256", false)] + ([Pair("qop", "auth", true)] +
                ([Pair("opaque", opaque_, true)] + last));
    ChallengeEnd(opaque_, end, last);
    ChallengeStart(nonce, rest, PrintPairs(rest));
    ChallengeIsNested(nonce, opaque_, stale, last);
  }

  lemma ChallengeIsNested(nonce: string, opaque_: string, stale: bool, last: seq<Pair>)
    requires last == if stale then [Pair("stale", "TRUE", false)] else []
    ensures ChallengePairs(nonce, opaque_, stale) ==
            [Pair("realm", "viewcontrol", true)] + ([Pair("nonce", nonce, true)] +
            ([Pair("algorithm", "SHA-256", false)] +
            ([Pair("qop", "auth", true)] + ([Pair("opaque", opaque_, true)] + last))))
  {
  }

  lemma FixedPairsArePrintable()
    ensures Printable(Pair("realm", "viewcontrol", true)) && Printable(Pair("algorithm", "SHA-256", false))
    ensures Printable(Pair("qop", "auth", true)) && Printable(Pair("stale", "TRUE", false))
  {
  }

  lemma ChallengePairsArePrintable(nonce: string, opaque_: string, stale: bool)
    requires Sendable(nonce) && Sendable(opaque_)
    ensures AllPrintable(ChallengePairs(nonce, opaque_, stale))
  {
    FixedPairsArePrintable();
    assert Printable(Pair("nonce", nonce, true)) && Printable(Pair("opaque", opaque_, true));
  }

  /** A client that reads the challenge by the same grammar finds the realm, the nonce, the opaque value, the
      algorithm and the quality of protection that the server put there. */
  lemma ChallengeIsReadable(nonce: string, opaque_: string, stale: bool)
    requires Sendable(nonce) && Sendable(opaque_)
    ensures Matches(GenerateDigestResponse(nonce, opaque_, stale)) == Printed(ChallengePairs(nonce, opaque_, stale))
  {
    ChallengeText(nonce, opaque_, stale);
    ChallengePairsArePrintable(nonce, opaque_, stale);
    HeaderIsRead(ChallengePairs(nonce, opaque_, stale));
  }

  /** The parameters of a challenge as the same grammar reads them. */
  function ReadChallenge(text: string): DigestAuth {
    WithMatches(EMPTY, Matches(text))
  }

  /** A list of pairs with distinct keys that carries a nonce and an opaque value. */
  predicate Challenges(fs: seq<Pair>, nonce: string, opaque_: string) {
    && AllPrintable(fs) && DistinctKeys(fs) && nonce != ""
    && Carries(fs, "nonce", nonce) && Carries(fs, "opaque", opaque_)
  }

  lemma ChallengeKeysAreDistinct(nonce: string, opaque_: string, stale: bool)
    ensures DistinctKeys(ChallengePairs(nonce, opaque_, stale))
  {
    assert |"realm"| == 5 && |"nonce"| == 5 && |"algorithm"| == 9 && |"qop"| == 3 && |"opaque"| == 6 && |"stale"| == 5;
    assert "realm"[0] == 'r' && "nonce"[0] == 'n' && "stale"[0] == 's';
  }

  lemma ChallengeIsGood(nonce: string, opaque_: string, stale: bool)
    requires Sendable(nonce) && Sendable(opaque_)
    ensures Challenges(ChallengePairs(nonce, opaque_, stale), nonce, opaque_)
  {
    var fs := ChallengePairs(nonce, opaque_, stale);
    ChallengePairsArePrintable(nonce, opaque_, stale);
    ChallengeKeysAreDistinct(nonce, opaque_, stale);
    assert fs[1].key == "nonce" && fs[4].key == "opaque";
  }

  lemma FoundInPairs(text: string, fs: seq<Pair>, nonce: string, opaque_: string)
    requires Challenges(fs, nonce, opaque_) && Matches(text) == Printed(fs)
    ensures ReadChallenge(text).nonce == nonce && ReadChallenge(text).opaque_ == Some(opaque_)
  {
    PairsAreHeld(EMPTY, fs, "nonce");
    PairsAreHeld(EMPTY, fs, "opaque");
  }

  /** The nonce and the opaque value are found in the challenge. */
  lemma ChallengeIsFound(nonce: string, opaque_: string, stale: bool, text: string)
    requires Sendable(nonce) && Sendable(opaque_)
    requires text == GenerateDigestResponse(nonce, opaque_, stale)
    ensures ReadChallenge(text).nonce == nonce && ReadChallenge(text).opaque_ == Some(opaque_)
  {
    ChallengeIsReadable(nonce, opaque_, stale);
    ChallengeIsGood(nonce, opaque_, stale);
    FoundInPairs(text, ChallengePairs(nonce, opaque_, stale), nonce, opaque_);
  }
}
