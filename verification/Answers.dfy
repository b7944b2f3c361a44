/** What is answered to a request, in terms of its target, its method and the server's files and maps alone. */
module Answers {
  import opened Prelude
  import opened Json
  import opened Permissions
  import opened AuthTables
  import opened Endpoints
  import opened Digests
  import opened Configs
  import opened Requests

  // --------------------------------------------------------------- targets as text

  /** The endpoint itself, or something below it. */
  predicate Under(target: string, endpoint: string) {
    target == endpoint || endpoint + "/" <= target
  }

  lemma SegmentIsPrefix(target: string, name: string, endpoint: string)
    requires endpoint == "/" + name
    ensures TargetStartsWithSegment(target, name) <==> Under(target, endpoint)
  {
    if endpoint <= target && |target| > |endpoint| {
      assert target[..|endpoint|] == endpoint;
      assert target[|endpoint|] == '/' ==> target[..|endpoint| + 1] == endpoint + "/";
    }
    if endpoint + "/" <= target {
      assert target[..|endpoint|] == (endpoint + "/")[..|endpoint|] == endpoint;
      assert target[|endpoint|] == (endpoint + "/")[|endpoint|] == '/';
    }
  }

  lemma EndpointTexts()
    ensures "/" + "config" == "/config" && "/" + "maps" == "/maps"
    ensures "/" + "view" == "/view" && "/" + "control" == "/control"
  {
  }

  lemma SegmentsArePrefixes(target: string)
    ensures TargetStartsWithSegment(target, "config") <==> Under(target, "/config")
    ensures TargetStartsWithSegment(target, "maps") <==> Under(target, "/maps")
    ensures TargetStartsWithSegment(target, "view") <==> Under(target, "/view")
    ensures TargetStartsWithSegment(target, "control") <==> Under(target, "/control")
  {
    EndpointTexts();
    SegmentIsPrefix(target, "config", "/config");
    SegmentIsPrefix(target, "maps", "/maps");
    SegmentIsPrefix(target, "view", "/view");
    SegmentIsPrefix(target, "control", "/control");
  }

  /** get_endpoint_permissions, on every string: Control for `/control` and what is below it, View for `/config`,
      `/maps`, `/view` and what is below them, and nothing for all others. */
  lemma PermissionsExactly(target: string)
    ensures GetEndpointPermissions(ENDPOINT_MAP, target) ==
            if Under(target, "/config") || Under(target, "/maps") || Under(target, "/view") then Some(View)
            else if Under(target, "/control") then Some(Control)
            else None
  {
    ProtectedIffSegment(target);
    SegmentsArePrefixes(target);
  }

  ghost predicate StartsWith(s: string, t: string) {
    exists rest :: s == t + rest
  }

  ghost predicate EndsIn(s: string, t: string) {
    exists rest :: s == rest + t
  }

  lemma PrefixesAndSuffixes(s: string, t: string)
    ensures t <= s <==> StartsWith(s, t)
    ensures EndsWith(s, t) <==> EndsIn(s, t)
  {
    if t <= s {
      assert s == t + s[|t|..];
    }
    if EndsWith(s, t) {
      assert s == s[..|s| - |t|] + t;
    }
    if rest :| s == rest + t {
      assert s[|rest|..] == t;
    }
  }

  /** A target is taken for `/config` exactly if it starts with it and ends in `config` or `config/`. */
  lemma SingleLevelExactly(target: string)
    ensures IsTargetSingleLevel(target, "config") <==>
            StartsWith(target, "/config") && (EndsIn(target, "config/") || EndsIn(target, "config"))
  {
    assert "/" + "config" == "/config" && "config" + "/" == "config/";
    PrefixesAndSuffixes(target, "/config");
    PrefixesAndSuffixes(target, "config/");
    PrefixesAndSuffixes(target, "config");
  }

  ghost predicate HasDots(target: string) {
    exists a, b :: target == a + ".." + b
  }

  lemma DotsAreFound(target: string)
    ensures HasParentDir(target) <==> HasDots(target)
  {
    if i :| 0 <= i < |target| - 1 && target[i] == '.' && target[i + 1] == '.' {
      assert target == target[..i] + ".." + target[i + 2..];
    }
    if a, b :| target == a + ".." + b {
      assert target[|a|] == '.' && target[|a| + 1] == '.';
    }
  }

  /** A request is bad exactly if its method is neither GET nor HEAD, or its target is empty, does not start with a
      slash or has two dots in a row. */
  lemma BadRequestsExactly(s: Server, r: Request, nonce: string, drawn: string)
    ensures var res := Decide(s, r, nonce, drawn).0;
            res.Some? && res.value.content.BadRequest? <==>
              (r.verb != "GET" && r.verb != "HEAD") || r.target == "" || r.target[0] != '/' || HasDots(r.target)
  {
    DotsAreFound(r.target);
    LawfulIsNotBad(s, r, Judge(r, Needed(r.target), Credentials(s, r, nonce)), Credentials(s, r, nonce), drawn);
  }

  lemma LawfulIsNotBad(s: Server, r: Request, v: Verdict, user: Option<AuthData>, drawn: string)
    requires v == Pass ==> Lawful(r)
    ensures var res := Reply(s, r, v, user, drawn);
            res.Some? && res.value.content.BadRequest? <==> v.Illegal?
  {
  }

  /** Who is refused: below `/control` whoever is not accepted is asked, and whoever lacks Control is forbidden; below
      `/config`, `/maps` and `/view` whoever is not accepted is asked, and whoever is Blocked is forbidden; elsewhere
      nobody is asked or forbidden. */
  lemma RefusalsExactly(s: Server, r: Request, nonce: string, drawn: string)
    requires Lawful(r)
    ensures var res := Decide(s, r, nonce, drawn).0;
            var user := Credentials(s, r, nonce);
            var asked := res.Some? && res.value.content.Unauthorized?;
            var forbidden := res.Some? && res.value.content.Forbidden?;
            if Under(r.target, "/config") || Under(r.target, "/maps") || Under(r.target, "/view") then
              asked == (user == None) && forbidden == (user.Some? && user.value.permissions == Blocked)
            else if Under(r.target, "/control") then
              asked == (user == None) && forbidden == (user.Some? && user.value.permissions != Control)
            else !asked && !forbidden
  {
    PermissionsExactly(r.target);
    var user := Credentials(s, r, nonce);
    ReplyShowsVerdict(s, r, Judge(r, Needed(r.target), user), user, drawn);
  }

  /** Every response keeps the connection alive exactly if the request asked for it. */
  lemma KeepAliveIsKept(s: Server, r: Request, nonce: string, drawn: string)
    ensures var res := Decide(s, r, nonce, drawn).0; res.Some? ==> res.value.keepAlive == r.keepAlive
  {
    var user := Credentials(s, r, nonce);
    ReplyKeepsAlive(s, r, Judge(r, Needed(r.target), user), user, drawn);
  }

  lemma ReplyKeepsAlive(s: Server, r: Request, v: Verdict, user: Option<AuthData>, drawn: string)
    requires v == Pass ==> Lawful(r)
    ensures var res := Reply(s, r, v, user, drawn); res.Some? ==> res.value.keepAlive == r.keepAlive
  {
  }

  // -------------------------------------------------------------------------- files

  /** The answer with the file at `path`: with its body for GET and without for HEAD, 404 if there is none, and a
      server error if it cannot be opened. */
  predicate Shows(content: Content, s: Server, r: Request, path: string) {
    && (s.files(path) == Missing ==> content == NotFound(r.target))
    && (s.files(path).Failing? ==> content == ServerError(s.files(path).what))
    && (s.files(path).File? ==> content == Document(path, s.files(path).size, r.verb == "GET"))
  }

  /** Who may see the target. */
  predicate MayPass(s: Server, r: Request, nonce: string) {
    var user := Credentials(s, r, nonce);
    if Under(r.target, "/config") || Under(r.target, "/maps") || Under(r.target, "/view") then
      user.Some? && user.value.permissions != Blocked
    else if Under(r.target, "/control") then user.Some? && user.value.permissions == Control
    else true
  }

  lemma PassIsJudged(s: Server, r: Request, nonce: string)
    requires Lawful(r) && MayPass(s, r, nonce)
    ensures Judge(r, Needed(r.target), Credentials(s, r, nonce)) == Pass
  {
    PermissionsExactly(r.target);
  }

  /** The document root without a final slash. */
  predicate IsRoot(root: string, docRoot: string) {
    docRoot == root + "/" || (docRoot == root && (root == "" || root[|root| - 1] != '/'))
  }

  lemma PathInRoot(docRoot: string, root: string, target: string)
    requires IsRoot(root, docRoot)
    ensures PathCat(docRoot, target) == root + target
  {
    if docRoot == root + "/" {
      assert docRoot[..|docRoot| - 1] == root;
    }
  }

  /** Whoever may see a target that is neither a map nor the configuration gets the file of that name below the
      document root; of a directory, of `/view` and of `/control` its index page. */
  lemma FileIsServed(s: Server, r: Request, nonce: string, drawn: string, root: string)
    requires Lawful(r) && MayPass(s, r, nonce) && IsRoot(root, s.docRoot)
    requires !Under(r.target, "/maps") && !IsTargetSingleLevel(r.target, "config")
    ensures Decide(s, r, nonce, drawn).0.Some?
    ensures Shows(Decide(s, r, nonce, drawn).0.value.content, s, r,
                  if r.target[|r.target| - 1] == '/' then root + r.target + "index.html"
                  else if r.target == "/view" || r.target == "/control" then root + r.target + "/index.html"
                  else root + r.target)
  {
    var user := Credentials(s, r, nonce);
    SegmentsArePrefixes(r.target);
    PassIsJudged(s, r, nonce);
    PassedIsServed(s, r, nonce, drawn, user, Needed(r.target));
    PathInRoot(s.docRoot, root, r.target);
    FileIsOpened(s, r, user, FilePath(s.docRoot, r.target));
    assert root + r.target + "" == root + r.target;
  }

  lemma FileIsOpened(s: Server, r: Request, user: Option<AuthData>, path: string)
    requires Lawful(r) && !TargetStartsWithSegment(r.target, "maps") && !IsTargetSingleLevel(r.target, "config")
    requires path == FilePath(s.docRoot, r.target)
    ensures Serve(s, r, user).Some? && Shows(Serve(s, r, user).value, s, r, path)
  {
  }

  lemma MapIsUnder(target: string, id: string)
    requires target == "/maps/" + id
    ensures Under(target, "/maps")
  {
    assert "/maps" + "/" == "/maps/";
  }

  lemma OpeningShows(s: Server, r: Request, path: string)
    ensures Shows(Opening(s, r.target, path, r.verb == "GET"), s, r, path)
  {
  }

  /** Whoever may see maps gets, for `/maps/id`, the image of the first map with that id, and 404 if there is none. */
  lemma MapImageIsServed(s: Server, r: Request, nonce: string, drawn: string, id: string)
    requires Lawful(r) && MayPass(s, r, nonce) && r.target == "/maps/" + id && id != ""
    ensures Decide(s, r, nonce, drawn).0.Some?
    ensures var content := Decide(s, r, nonce, drawn).0.value.content;
            && (forall k :: 0 <= k < |s.maps| && s.maps[k].id == id && (forall j :: 0 <= j < k ==> s.maps[j].id != id)
                  ==> Shows(content, s, r, s.maps[k].mapImagePath))
            && ((forall k :: 0 <= k < |s.maps| ==> s.maps[k].id != id) ==> content == NotFound(r.target))
  {
    MapIsUnder(r.target, id);
    MapImageIsThatOfItsMap(s, r, nonce, drawn, id);
    forall k | 0 <= k < |s.maps| {
      OpeningShows(s, r, s.maps[k].mapImagePath);
    }
  }

  // -------------------------------------------------------------- the configuration

  /** Whoever may see it gets, for `/config`, one entry with id, group and gates for each map in its order, except
      that a user with Control gets none for a map of a group the user does not have. */
  lemma ClientListIsServed(s: Server, r: Request, nonce: string, drawn: string) returns (places: seq<nat>)
    requires (r.verb == "GET" || r.verb == "HEAD") && (r.target == "/config" || r.target == "/config/")
    requires MayPass(s, r, nonce)
    ensures Credentials(s, r, nonce).Some? && Decide(s, r, nonce, drawn).0.Some?
    ensures var content := Decide(s, r, nonce, drawn).0.value.content;
            var user := Credentials(s, r, nonce).value;
            && content.MapList? && content.body == (r.verb == "GET") && content.list.Arr?
            && |content.list.items| == |places| && (forall j, k :: 0 <= j < k < |places| ==> places[j] < places[k])
            && (forall k :: 0 <= k < |places| ==>
                  && places[k] < |s.maps|
                  && var m := s.maps[places[k]];
                     content.list.items[k] == Obj(map["id" := Str(m.id),
                                                      "group" := if m.group.Some? then Str(m.group.value) else Null,
                                                      "gates" := m.gateConfig]))
            && (forall n: nat :: n in places <==>
                  n < |s.maps| && (user.permissions == Control && s.maps[n].group.Some?
                                   ==> s.maps[n].group.value in user.mapGroups))
  {
    ConfigIsUnder(r.target);
    ConfigListsShownMaps(s, r, nonce, drawn);
    places := ClientListIsFiltered(s.maps, Credentials(s, r, nonce).value);
  }

  lemma ConfigIsUnder(target: string)
    requires target == "/config" || target == "/config/"
    ensures Under(target, "/config")
  {
    assert "/config" + "/" == "/config/";
  }
}
