/** Answering one HTTP request: authorization, the map list, map images and files. */
module Requests {
  import opened Prelude
  import opened Json
  import opened Permissions
  import opened AuthTables
  import opened Endpoints
  import opened Digests
  import opened Configs

  datatype Request = Request(verb: string, target: string, authorization: Option<string>, keepAlive: bool,
                             upgrade: bool)

  /** How opening a file ends. */
  datatype FileResult = Missing | Failing(what: string) | File(size: nat)

  /** What a request is answered from, besides the nonce. */
  datatype Server = Server(docRoot: string, table: AuthTable, opaque_: string, maps: seq<MapEntry>, hash: Hash,
                           files: string -> FileResult)

  /** What the WWW-Authenticate field of a 401 is made from. */
  datatype Challenge = Challenge(nonce: string, opaque_: string, stale: bool)

  function WwwAuthenticate(c: Challenge): string {
    GenerateDigestResponse(c.nonce, c.opaque_, c.stale)
  }

  /** `body` is false for HEAD. */
  datatype Content =
    | BadRequest(why: string)
    | Unauthorized(challenge: Challenge, target: string)
    | Forbidden(target: string)
    | NotFound(target: string)
    | ServerError(what: string)
    | MapList(list: Json, body: bool)
    | Document(path: string, size: nat, body: bool)

  datatype Response = Response(content: Content, keepAlive: bool)

  predicate Succeeds(c: Content) {
    c.MapList? || c.Document?
  }

  // ------------------------------------------------------------------- the parts

  const INDEXABLE: set<string> := {"/", "/view", "/control"}

  function PathCat(base: string, path: string): string {
    if base == "" then path
    else (if base[|base| - 1] == '/' then base[..|base| - 1] else base) + path
  }

  function FilePath(docRoot: string, target: string): string
    requires target != ""
  {
    PathCat(docRoot, target) + Index(target)
  }

  /** What is appended to ask for an index page. */
  function Index(target: string): string
    requires target != ""
  {
    if target[|target| - 1] == '/' then "index.html" else if target in INDEXABLE then "/index.html" else ""
  }

  predicate HasParentDir(target: string) {
    exists i :: 0 <= i < |target| - 1 && target[i] == '.' && target[i + 1] == '.'
  }

  predicate LegalTarget(target: string) {
    target != "" && target[0] == '/' && !HasParentDir(target)
  }

  predicate Lawful(r: Request) {
    (r.verb == "GET" || r.verb == "HEAD") && LegalTarget(r.target)
  }

  function Credentials(s: Server, r: Request, nonce: string): Option<AuthData> {
    GetAuth(r.authorization, r.verb, s.table, nonce, s.opaque_, s.hash)
  }

  function Needed(target: string): Option<Permission> {
    GetEndpointPermissions(ENDPOINT_MAP, target)
  }

  function Refusal(s: Server, r: Request, drawn: string, stale: bool): Response {
    Response(Unauthorized(Challenge(drawn, s.opaque_, stale), r.target), r.keepAlive)
  }

  function Opening(s: Server, target: string, path: string, body: bool): (c: Content)
    ensures c.NotFound? || c.ServerError? || (c.Document? && c.path == path)
  {
    match s.files(path)
    case Missing => NotFound(target)
    case Failing(what) => ServerError(what)
    case File(size) => Document(path, size, body)
  }

  function MapImage(s: Server, target: string, body: bool): (c: Content)
    requires TargetStartsWithSegment(target, "maps")
    ensures c.NotFound? || c.ServerError? || c.Document?
  {
    if target == "/maps" || target == "/maps/" then NotFound(target)
    else
      match MapById(s.maps, target[6..])
      case None => NotFound(target)
      case Some(m) => Opening(s, target, m.mapImagePath, body)
  }

  /** The answer to a request that has passed the checks. None is the exception of reading an absent optional. */
  function Serve(s: Server, r: Request, user: Option<AuthData>): (c: Option<Content>)
    requires Lawful(r)
    ensures c.Some? ==> Succeeds(c.value) || c.value.NotFound? || c.value.ServerError?
    ensures c == None <==> IsTargetSingleLevel(r.target, "config") && user == None
  {
    if IsTargetSingleLevel(r.target, "config") then
      match user
      case None => None
      case Some(u) => Some(MapList(Arr(MapsForClient(s.maps, u)), r.verb == "GET"))
    else if TargetStartsWithSegment(r.target, "maps") then Some(MapImage(s, r.target, r.verb == "GET"))
    else Some(Opening(s, r.target, FilePath(s.docRoot, r.target), r.verb == "GET"))
  }

  /** What the checks make of a request: `needed` is the permission of its endpoint, `user` who asks. */
  datatype Verdict = Illegal(why: string) | Forbid | Ask | Pass

  function Judge(r: Request, needed: Option<Permission>, user: Option<AuthData>): (v: Verdict)
    ensures v == Pass ==> Lawful(r)
  {
    if r.verb != "GET" && r.verb != "HEAD" then Illegal("Unknown HTTP method")
    else if !LegalTarget(r.target) then Illegal("Illegal request target")
    else if needed == None then Pass
    else if needed.value == Blocked then Forbid
    else if user == None then Ask
    else if Code(user.value.permissions) < Code(needed.value) then Forbid
    else Pass
  }

  /** The response, or None for an exception. */
  function Reply(s: Server, r: Request, v: Verdict, user: Option<AuthData>, drawn: string): Option<Response>
    requires v == Pass ==> Lawful(r)
  {
    match v
    case Illegal(why) => Some(Response(BadRequest(why), r.keepAlive))
    case Forbid => Some(Response(Forbidden(r.target), r.keepAlive))
    case Ask => Some(Refusal(s, r, drawn, false))
    case Pass =>
      var c := Serve(s, r, user);
      if c == None then None else Some(Response(c.value, r.keepAlive))
  }

  /** The response, or None for an exception, and the nonce afterwards; `drawn` is the nonce that a 401 draws. */
  function Decide(s: Server, r: Request, nonce: string, drawn: string): (Option<Response>, string) {
    var user := Credentials(s, r, nonce);
    var v := Judge(r, Needed(r.target), user);
    (Reply(s, r, v, user, drawn), if v == Ask then drawn else nonce)
  }

  // ------------------------------------------------------------ the handler itself

  /** The nonce that all connections of one address share. */
  class Nonce {
    var value: string

    constructor (value: string)
      ensures this.value == value
    {
      this.value := value;
    }
  }

  method UnauthorizedResponse(nonce: Nonce, drawn: string, s: Server, r: Request, stale: bool) returns (res: Response)
    modifies nonce
    ensures nonce.value == drawn && res == Refusal(s, r, drawn, stale)
  {
    nonce.value := drawn;
    res := Response(Unauthorized(Challenge(nonce.value, s.opaque_, stale), r.target), r.keepAlive);
  }

  /** Opening the file at `path` and answering with it. */
  method Open(s: Server, r: Request, path: string) returns (content: Content)
    ensures content == Opening(s, r.target, path, r.verb == "GET")
  {
    var attempt := s.files(path);
    if attempt == Missing {
      return NotFound(r.target);
    }
    if attempt.Failing? {
      return ServerError(attempt.what);
    }
    if r.verb == "HEAD" {
      return Document(path, attempt.size, false);
    }
    return Document(path, attempt.size, r.verb == "GET");
  }

  /** The rest of handle_request, after the checks. */
  method AnswerRequest(s: Server, r: Request, nonce: string) returns (res: Option<Response>)
    requires Lawful(r)
    ensures res == Reply(s, r, Pass, Credentials(s, r, nonce), "")
  {
    if IsTargetSingleLevel(r.target, "config") {
      var user := GetAuth(r.authorization, r.verb, s.table, nonce, s.opaque_, s.hash);
      if user == None {
        return None;
      }
      var list := GetMapsForClient(s.maps, user.value);
      return Some(Response(MapList(list, r.verb == "GET"), r.keepAlive));
    }
    var path: string;
    if TargetStartsWithSegment(r.target, "maps") {
      if r.target == "/maps" || r.target == "/maps/" {
        return Some(Response(NotFound(r.target), r.keepAlive));
      }
      var found := GetMapById(s.maps, r.target[6..]);
      if found == None {
        return Some(Response(NotFound(r.target), r.keepAlive));
      }
      path := found.value.mapImagePath;
    } else {
      path := PathCat(s.docRoot, r.target);
      if r.target[|r.target| - 1] == '/' {
        path := path + "index.html";
      } else if r.target in INDEXABLE {
        path := path + "/index.html";
      } else {
        assert path + "" == path;
      }
    }
    var content := Open(s, r, path);
    return Some(Response(content, r.keepAlive));
  }

  method HandleRequest(s: Server, r: Request, nonce: Nonce, drawn: string) returns (res: Option<Response>)
    modifies nonce
    ensures (res, nonce.value) == Decide(s, r, old(nonce.value), drawn)
  {
    if r.verb != "GET" && r.verb != "HEAD" {
      return Some(Response(BadRequest("Unknown HTTP method"), r.keepAlive));
    }
    if r.target == "" || r.target[0] != '/' || HasParentDir(r.target) {
      return Some(Response(BadRequest("Illegal request target"), r.keepAlive));
    }
    var endpointPerms := GetEndpointPermissions(ENDPOINT_MAP, r.target);
    if endpointPerms.Some? {
      if endpointPerms.value == Blocked {
        return Some(Response(Forbidden(r.target), r.keepAlive));
      }
      if r.authorization == None {
        var refusal := UnauthorizedResponse(nonce, drawn, s, r, false);
        return Some(refusal);
      }
      var auth := GetAuth(r.authorization, r.verb, s.table, nonce.value, s.opaque_, s.hash);
      if auth == None {
        var refusal := UnauthorizedResponse(nonce, drawn, s, r, false);
        return Some(refusal);
      }
      if Code(auth.value.permissions) < Code(endpointPerms.value) {
        return Some(Response(Forbidden(r.target), r.keepAlive));
      }
    }
    res := AnswerRequest(s, r, nonce.value);
  }

  // ------------------------------------------------------------ what is guaranteed

  /** The reply shows the verdict. */
  lemma ReplyShowsVerdict(s: Server, r: Request, v: Verdict, user: Option<AuthData>, drawn: string)
    requires v == Pass ==> Lawful(r)
    ensures var res := Reply(s, r, v, user, drawn);
            && (res == None <==> v == Pass && IsTargetSingleLevel(r.target, "config") && user == None)
            && (res.Some? ==>
              && (res.value.content.Unauthorized? <==> v == Ask) && (res.value.content.Forbidden? <==> v == Forbid)
              && (Succeeds(res.value.content) ==> v == Pass))
  {
  }

  lemma VerdictOnProtected(r: Request, needed: Permission, user: Option<AuthData>)
    requires Lawful(r) && needed != Blocked
    ensures Judge(r, Some(needed), user) ==
            if user == None then Ask else if AtLeast(user.value.permissions, needed) then Pass else Forbid
  {
  }

  /** A lawful request for a protected target is refused with 401 exactly when its credentials are not accepted, with
      403 exactly when they are accepted but the permission is too low, and answered otherwise. */
  lemma ProtectedTargetIsDecidedByUser(s: Server, r: Request, nonce: string, drawn: string)
    requires Lawful(r) && Protection(r.target).Some?
    ensures var user := Credentials(s, r, nonce);
            var res := Decide(s, r, nonce, drawn).0;
            && res.Some?
            && (res.value.content.Unauthorized? <==> user == None)
            && (res.value.content.Forbidden? <==>
                  user.Some? && !AtLeast(user.value.permissions, Protection(r.target).value))
  {
    ProtectedIffSegment(r.target);
    var needed := Protection(r.target).value;
    var user := Credentials(s, r, nonce);
    VerdictOnProtected(r, needed, user);
    ReplyShowsVerdict(s, r, Judge(r, Some(needed), user), user, drawn);
    if user.Some? && IsTargetSingleLevel(r.target, "config") {
      assert Serve(s, r, user).Some?;
    }
  }

  /** A success for a target whose first segment is an endpoint was asked for by a stored user whose permission is
      at least the endpoint's, and who proved to know the password with the nonce of that moment. */
  lemma SuccessIsAuthorized(s: Server, r: Request, nonce: string, drawn: string)
    requires Protection(r.target).Some? && Decide(s, r, nonce, drawn).0.Some?
    requires Succeeds(Decide(s, r, nonce, drawn).0.value.content)
    ensures Credentials(s, r, nonce).Some?
    ensures AtLeast(Credentials(s, r, nonce).value.permissions, Protection(r.target).value)
    ensures exists d :: ParseDigestAuth(r.authorization.value) == Some(d) && d.username in s.table
                        && Credentials(s, r, nonce) == Some(s.table[d.username])
                        && d.qop.Some? && d.nc.Some? && d.cnonce.Some?
                        && d.response == RequestDigest(s.hash, d, s.table[d.username].password, r.verb, nonce)
  {
    assert Lawful(r);
    ProtectedTargetIsDecidedByUser(s, r, nonce, drawn);
    AcceptedMeansResponse(r.authorization, r.verb, s.table, nonce, s.opaque_, s.hash);
  }

  /** The shared nonce is replaced exactly by a 401, and the challenge in the 401 is the one for the new nonce. */
  lemma NonceIsReplacedBy401(s: Server, r: Request, nonce: string, drawn: string)
    ensures var (res, after) := Decide(s, r, nonce, drawn);
            if res.Some? && res.value.content.Unauthorized?
            then after == drawn && res.value == Refusal(s, r, drawn, false)
            else after == nonce
  {
    var user := Credentials(s, r, nonce);
    ReplyShowsVerdict(s, r, Judge(r, Needed(r.target), user), user, drawn);
  }

  /** The exception, exactly: a target such as `/configconfig`, which is taken for `/config` without being protected
      like it, asked for without accepted credentials. */
  lemma ThrowsExactly(s: Server, r: Request, nonce: string, drawn: string)
    ensures Decide(s, r, nonce, drawn).0 == None <==>
            && Lawful(r) && IsTargetSingleLevel(r.target, "config") && !TargetStartsWithSegment(r.target, "config")
            && Credentials(s, r, nonce) == None
  {
    var user := Credentials(s, r, nonce);
    ReplyShowsVerdict(s, r, Judge(r, Needed(r.target), user), user, drawn);
    ProtectedIffSegment(r.target);
    if IsTargetSingleLevel(r.target, "config") {
      OtherSegments(r.target);
    }
  }

  /** A target that starts like `/config` starts with no other endpoint. */
  lemma OtherSegments(target: string)
    requires IsTargetSingleLevel(target, "config")
    ensures !TargetStartsWithSegment(target, "maps") && !TargetStartsWithSegment(target, "view")
    ensures !TargetStartsWithSegment(target, "control")
  {
    assert target[..7] == "/" + "config";
    assert target[1] == 'c' && target[3] == 'n' && target[4] == 'f';
    assert ("/" + "control")[4] == 't';
  }

  /** Targets outside the endpoints are answered alike for everyone. */
  lemma PublicTargetsIgnoreCredentials(s: Server, r: Request, q: Request, nonce: string, drawn: string)
    requires q == r.(authorization := q.authorization)
    requires Protection(r.target) == None && !IsTargetSingleLevel(r.target, "config")
    ensures Decide(s, q, nonce, drawn) == Decide(s, r, nonce, drawn)
  {
    ProtectedIffSegment(r.target);
    ServeIgnoresUser(s, q, r, Credentials(s, q, nonce), Credentials(s, r, nonce), drawn);
  }

  lemma ServeIgnoresUser(s: Server, q: Request, r: Request, a: Option<AuthData>, b: Option<AuthData>, drawn: string)
    requires q == r.(authorization := q.authorization) && !IsTargetSingleLevel(r.target, "config")
    ensures Reply(s, q, Judge(q, None, a), a, drawn) == Reply(s, r, Judge(r, None, b), b, drawn)
  {
  }

  lemma NoParentDirAdded(target: string, end: string)
    requires !HasParentDir(target) && !HasParentDir(end)
    requires target != "" && end != "" ==> target[|target| - 1] != '.' || end[0] != '.'
    ensures !HasParentDir(target + end)
  {
  }

  lemma IndexAddsNoParentDir(target: string)
    requires LegalTarget(target)
    ensures !HasParentDir(target + Index(target))
  {
    NoParentDirAdded(target, Index(target));
  }

  lemma PathsConcat(base: string, a: string, b: string)
    ensures PathCat(base, a) + b == PathCat(base, "") + (a + b)
  {
  }

  lemma FilePathIsBelow(docRoot: string, target: string) returns (below: string)
    requires LegalTarget(target)
    ensures FilePath(docRoot, target) == PathCat(docRoot, "") + below
    ensures target <= below && !HasParentDir(below)
  {
    IndexAddsNoParentDir(target);
    PathsConcat(docRoot, target, Index(target));
    below := target + Index(target);
  }

  lemma PassedIsServed(s: Server, r: Request, nonce: string, drawn: string, user: Option<AuthData>,
                       needed: Option<Permission>)
    requires user == Credentials(s, r, nonce) && needed == Needed(r.target) && Judge(r, needed, user) == Pass
    ensures Decide(s, r, nonce, drawn) == (Reply(s, r, Pass, user, drawn), nonce)
  {
  }

  /** A file that is not a map image is below the document root: its path is the root without a final slash, and then
      a path that starts with the target, and that has no parent directory in it. */
  lemma DocumentsStayBelowRoot(s: Server, r: Request, nonce: string, drawn: string) returns (below: string)
    requires Decide(s, r, nonce, drawn).0.Some? && Decide(s, r, nonce, drawn).0.value.content.Document?
    requires !TargetStartsWithSegment(r.target, "maps")
    ensures Decide(s, r, nonce, drawn).0.value.content.path == PathCat(s.docRoot, "") + below
    ensures r.target <= below && below[0] == '/' && !HasParentDir(below)
  {
    var user := Credentials(s, r, nonce);
    var needed := Needed(r.target);
    ReplyShowsVerdict(s, r, Judge(r, needed, user), user, drawn);
    PassedIsServed(s, r, nonce, drawn, user, needed);
    ServedPath(s, r, user);
    below := FilePathIsBelow(s.docRoot, r.target);
  }

  lemma ServedPath(s: Server, r: Request, user: Option<AuthData>)
    requires Lawful(r) && !TargetStartsWithSegment(r.target, "maps")
    ensures Serve(s, r, user).Some? && Serve(s, r, user).value.Document? ==>
            Serve(s, r, user).value.path == FilePath(s.docRoot, r.target)
  {
  }

  lemma ConfigTarget(target: string)
    requires target == "/config" || target == "/config/"
    ensures LegalTarget(target) && IsTargetSingleLevel(target, "config") && Protection(target) == Some(View)
  {
    assert "/" + "config" == target[..7];
    assert target == "/config/" ==> target[1..] == "config" + "/";
    assert target == "/config" ==> target[1..] == "config";
  }

  /** Asking for `/config`, an authorized client is sent the list of the maps for it. */
  lemma ConfigListsShownMaps(s: Server, r: Request, nonce: string, drawn: string)
    requires (r.verb == "GET" || r.verb == "HEAD") && (r.target == "/config" || r.target == "/config/")
    requires Credentials(s, r, nonce).Some? && AtLeast(Credentials(s, r, nonce).value.permissions, View)
    ensures Decide(s, r, nonce, drawn).0 ==
            Some(Response(MapList(Arr(MapsForClient(s.maps, Credentials(s, r, nonce).value)), r.verb == "GET"),
                          r.keepAlive))
  {
    ConfigTarget(r.target);
    ProtectedIffSegment(r.target);
    var user := Credentials(s, r, nonce);
    VerdictOnProtected(r, View, user);
    PassedIsServed(s, r, nonce, drawn, user, Some(View));
  }

  lemma MapTarget(target: string, id: string)
    requires target == "/maps/" + id && id != ""
    ensures target[6..] == id && TargetStartsWithSegment(target, "maps") && !IsTargetSingleLevel(target, "config")
    ensures target != "/maps" && target != "/maps/" && Protection(target) == Some(View)
  {
    assert target[1] == 'm' && target[5] == '/' && |target| > 6;
    assert "/" + "maps" == target[..5];
    assert ("/" + "config")[1] == 'c' && ("/" + "control")[1] == 'c' && ("/" + "view")[1] == 'v';
  }

  /** An authorized client gets the image of exactly the first map with the id it asks for, and 404 for the others. */
  lemma MapImageIsThatOfItsMap(s: Server, r: Request, nonce: string, drawn: string, id: string)
    requires Lawful(r) && r.target == "/maps/" + id && id != ""
    requires Credentials(s, r, nonce).Some? && AtLeast(Credentials(s, r, nonce).value.permissions, View)
    ensures Decide(s, r, nonce, drawn).0.Some?
    ensures var content := Decide(s, r, nonce, drawn).0.value.content;
            && (forall k :: 0 <= k < |s.maps| && s.maps[k].id == id && (forall j :: 0 <= j < k ==> s.maps[j].id != id)
                  ==> content == Opening(s, r.target, s.maps[k].mapImagePath, r.verb == "GET"))
            && ((forall k :: 0 <= k < |s.maps| ==> s.maps[k].id != id) ==> content == NotFound(r.target))
  {
    MapTarget(r.target, id);
    MapIsServed(s, r, nonce, drawn);
    MapImageByPlace(s, r.target, id, r.verb == "GET");
  }

  lemma MapIsServed(s: Server, r: Request, nonce: string, drawn: string)
    requires Lawful(r) && Protection(r.target) == Some(View)
    requires TargetStartsWithSegment(r.target, "maps") && !IsTargetSingleLevel(r.target, "config")
    requires Credentials(s, r, nonce).Some? && AtLeast(Credentials(s, r, nonce).value.permissions, View)
    ensures Decide(s, r, nonce, drawn).0 == Some(Response(MapImage(s, r.target, r.verb == "GET"), r.keepAlive))
  {
    ProtectedIffSegment(r.target);
    var user := Credentials(s, r, nonce);
    VerdictOnProtected(r, View, user);
    PassedIsServed(s, r, nonce, drawn, user, Some(View));
  }

  lemma MapImageByPlace(s: Server, target: string, id: string, body: bool)
    requires TargetStartsWithSegment(target, "maps") && target != "/maps" && target != "/maps/"
    requires |target| > 6 && target[6..] == id
    ensures forall k :: 0 <= k < |s.maps| && s.maps[k].id == id && (forall j :: 0 <= j < k ==> s.maps[j].id != id)
              ==> MapImage(s, target, body) == Opening(s, target, s.maps[k].mapImagePath, body)
    ensures (forall k :: 0 <= k < |s.maps| ==> s.maps[k].id != id) ==> MapImage(s, target, body) == NotFound(target)
  {
    forall k | 0 <= k < |s.maps| && s.maps[k].id == id && (forall j :: 0 <= j < k ==> s.maps[j].id != id)
      ensures MapById(s.maps, id) == Some(s.maps[k])
    {
      MapByIdIsFirst(s.maps, id, k);
    }
    if forall k :: 0 <= k < |s.maps| ==> s.maps[k].id != id {
      MapByIdIsNone(s.maps, id);
    }
  }

  lemma {:induction false} MapByIdIsNone(maps: seq<MapEntry>, id: string)
    requires forall k :: 0 <= k < |maps| ==> maps[k].id != id
    ensures MapById(maps, id) == None
  {
    if maps != [] {
      MapByIdIsNone(maps[1..], id);
    }
  }

  /** A user whose credentials are accepted is not asked again. */
  lemma AcceptedIsNotAsked(s: Server, r: Request, nonce: string, drawn: string)
    requires Lawful(r) && Credentials(s, r, nonce).Some?
    ensures var res := Decide(s, r, nonce, drawn).0;
            && res.Some? && !res.value.content.Unauthorized?
            && (res.value.content.Forbidden? <==>
                  Protection(r.target).Some?
                  && !AtLeast(Credentials(s, r, nonce).value.permissions, Protection(r.target).value))
  {
    ProtectedIffSegment(r.target);
    var user := Credentials(s, r, nonce);
    ReplyShowsVerdict(s, r, Judge(r, Needed(r.target), user), user, drawn);
  }

  /** The handshake is complete. A client that is refused with 401 finds in the challenge the nonce that the server
      now holds; if it answers with the request digest for that nonce and its user's stored password, then its next
      request is not refused again, and is forbidden only if the user lacks the permission. */
  lemma ChallengeThenAnswer(s: Server, first: Request, nonce: string, drawn: string, c: DigestAuth,
                            second: Request, fs: seq<Pair>, d: DigestAuth, other: string)
    requires Sendable(drawn) && Sendable(s.opaque_)
    requires var res := Decide(s, first, nonce, drawn).0;
             && res.Some? && res.value.content.Unauthorized?
             && c == ReadChallenge(WwwAuthenticate(res.value.content.challenge))
    requires Lawful(second) && second.authorization == Some(Header(fs)) && Answers(fs, d) && d.username in s.table
    requires d.opaque_ == c.opaque_
    requires d.response == RequestDigest(s.hash, d, s.table[d.username].password, second.verb, c.nonce)
    ensures var res := Decide(s, second, Decide(s, first, nonce, drawn).1, other).0;
            && res.Some? && !res.value.content.Unauthorized?
            && (res.value.content.Forbidden? <==>
                  Protection(second.target).Some?
                  && !AtLeast(s.table[d.username].permissions, Protection(second.target).value))
  {
    NonceIsReplacedBy401(s, first, nonce, drawn);
    ChallengeIsFound(drawn, s.opaque_, false, WwwAuthenticate(Challenge(drawn, s.opaque_, false)));
    DigestIsDecidedByResponse(fs, d, second.verb, s.table, drawn, s.opaque_, s.hash);
    AcceptedIsNotAsked(s, second, drawn, other);
  }

  /** Every stored user gets in, in two requests: after any 401, the client of any stored user who has the permission
      reads the challenge, answers it, and is neither asked again nor forbidden. */
  lemma StoredUserGetsIn(s: Server, first: Request, nonce: string, drawn: string, username: string,
                         second: Request, nc: string, cnonce: string, other: string)
    requires Quotable(s.hash) && Sendable(drawn) && Sendable(s.opaque_)
    requires Decide(s, first, nonce, drawn).0.Some? && Decide(s, first, nonce, drawn).0.value.content.Unauthorized?
    requires username in s.table && Sendable(username) && Sendable(cnonce) && nc != "" && All(nc, IsTokenChar)
    requires Lawful(second) && Sendable(second.target)
    requires Protection(second.target).Some?
             ==> AtLeast(s.table[username].permissions, Protection(second.target).value)
    requires var c := ReadChallenge(WwwAuthenticate(Decide(s, first, nonce, drawn).0.value.content.challenge));
             && c.opaque_.Some?
             && var d := Answer(s.hash, username, s.table[username].password, second.verb, second.target,
                                c.nonce, c.opaque_.value, nc, cnonce);
                second.authorization == Some(Header(AnswerPairs(d)))
    ensures var res := Decide(s, second, Decide(s, first, nonce, drawn).1, other).0;
            res.Some? && !res.value.content.Unauthorized? && !res.value.content.Forbidden?
  {
    NonceIsReplacedBy401(s, first, nonce, drawn);
    ChallengeIsFound(drawn, s.opaque_, false, WwwAuthenticate(Challenge(drawn, s.opaque_, false)));
    StoredUserIsAccepted(s.hash, s.table, username, second.verb, second.target, drawn, s.opaque_, nc, cnonce);
    AcceptedIsNotAsked(s, second, drawn, other);
  }
}
