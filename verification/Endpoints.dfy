/** From a request path to the permission it needs. */
module Endpoints {
  import opened Prelude
  import opened Permissions
  import opened AuthTables

  datatype Endpoint = Endpoint(path: string, permissions: Option<Permission>)

  const ENDPOINT_MAP: seq<Endpoint> := [
    Endpoint("/config", Some(View)), Endpoint("/maps", Some(View)), Endpoint("/control", Some(Control)),
    Endpoint("/view", Some(View)), Endpoint("/", None)]

  /** The first entry from `k` on whose path starts `path`, or the size of the map. */
  function FirstMatch(table: seq<Endpoint>, path: string, k: nat): (i: nat)
    ensures i <= |table| || i == k
    ensures i < |table| ==> k <= i && table[i].path <= path
    decreases |table| - k
  {
    if k >= |table| then k else if table[k].path <= path then k else FirstMatch(table, path, k + 1)
  }

  /** std::string::rfind: the last `c`, or the length of `s` for npos. */
  function FindLast(s: string, c: char): (i: nat)
    ensures i <= |s|
    ensures i < |s| ==> s[i] == c
    ensures forall k :: 0 <= k < |s| && s[k] == c ==> k <= i < |s|
  {
    if s == [] then 0
    else if s[|s| - 1] == c then |s| - 1
    else
      var i := FindLast(s[..|s| - 1], c);
      if i == |s| - 1 then |s| else i
  }

  /** get_endpoint_permissions: as long as more segments follow, the last one is cut off. */
  function GetEndpointPermissions(table: seq<Endpoint>, path: string): Option<Permission>
    decreases |path|
  {
    var k := FirstMatch(table, path, 0);
    if k >= |table| then None
    else
      var endpoint := table[k].path;
      if |path| > |endpoint| then
        if Find(path, '/', |endpoint|) < |path| then
          GetEndpointPermissions(table, path[..FindLast(path, '/')])
        else None
      else table[k].permissions
  }

  // --------------------------------------------------------------- a simple form

  /** The first segment of a path with its leading slash; the empty string if the path does not start with one. */
  function FirstSegment(path: string): string {
    if path == "" || path[0] != '/' then "" else path[..Find(path, '/', 1)]
  }

  /** The permission of the entry that is exactly `segment`. */
  function Lookup(table: seq<Endpoint>, segment: string): Option<Permission> {
    if table == [] then None
    else if table[0].path == segment then table[0].permissions
    else Lookup(table[1..], segment)
  }

  /** A slash and a non-empty name without a slash. */
  predicate IsSegment(s: string) {
    |s| > 1 && s[0] == '/' && Free(s[1..], '/')
  }

  /** Single-segment entries, and then the root without a permission. */
  predicate Segmented(table: seq<Endpoint>) {
    && table != [] && table[|table| - 1] == Endpoint("/", None)
    && forall k :: 0 <= k < |table| - 1 ==> IsSegment(table[k].path)
  }

  /** Entry `j`, the first with its path, comes after an entry whose path is a proper prefix of it. */
  predicate Hidden(table: seq<Endpoint>, j: nat) {
    && j < |table| - 1 && (forall m :: 0 <= m < j ==> table[m].path != table[j].path)
    && exists i :: 0 <= i < j && table[i].path <= table[j].path
  }

  /** No entry that needs a permission is hidden. */
  ghost predicate NothingHidden(table: seq<Endpoint>) {
    forall j: nat :: Hidden(table, j) ==> table[j].permissions == None
  }

  lemma NoEndpointStartsAnother()
    ensures forall i, j :: 0 <= i < j < 4 ==> !(ENDPOINT_MAP[i].path <= ENDPOINT_MAP[j].path)
  {
    assert ENDPOINT_MAP[0].path[1] == 'c' && ENDPOINT_MAP[0].path[4] == 'f';
    assert ENDPOINT_MAP[1].path[1] == 'm';
    assert ENDPOINT_MAP[2].path[1] == 'c' && ENDPOINT_MAP[2].path[4] == 't';
    assert ENDPOINT_MAP[3].path[1] == 'v';
  }

  lemma EndpointMapIsSegmented()
    ensures Segmented(ENDPOINT_MAP)
  {
  }

  lemma UnprefixedIsNotHidden(table: seq<Endpoint>)
    requires forall i, j :: 0 <= i < j < |table| - 1 ==> !(table[i].path <= table[j].path)
    ensures NothingHidden(table)
  {
  }

  lemma EndpointMapIsGood()
    ensures Segmented(ENDPOINT_MAP) && NothingHidden(ENDPOINT_MAP)
  {
    EndpointMapIsSegmented();
    NoEndpointStartsAnother();
    UnprefixedIsNotHidden(ENDPOINT_MAP);
  }

  lemma {:induction false} FirstMatchIsFirst(table: seq<Endpoint>, path: string, k: nat, j: nat)
    requires k <= j < |table| && table[j].path <= path
    ensures FirstMatch(table, path, k) <= j
    decreases |table| - k
  {
    if k < j {
      FirstMatchIsFirst(table, path, k + 1, j);
    }
  }

  lemma {:induction false} LookupMisses(table: seq<Endpoint>, segment: string)
    requires forall k :: 0 <= k < |table| ==> table[k].path != segment || table[k].permissions == None
    ensures Lookup(table, segment) == None
  {
    if table != [] {
      assert forall k :: 0 <= k < |table[1..]| ==> table[1..][k] == table[k + 1];
      LookupMisses(table[1..], segment);
    }
  }

  lemma {:induction false} LookupHits(table: seq<Endpoint>, k: nat)
    requires k < |table| && forall j :: 0 <= j < k ==> table[j].path != table[k].path
    ensures Lookup(table, table[k].path) == table[k].permissions
  {
    if k > 0 {
      assert forall j :: 0 <= j < |table[1..]| ==> table[1..][j] == table[j + 1];
      LookupHits(table[1..], k - 1);
    }
  }

  lemma {:induction false} FindEarlier(s: string, c: char, i: nat, j: nat)
    requires i <= j <= |s| && Free(s[i..j], c)
    ensures Find(s, c, i) == Find(s, c, j)
    decreases j - i
  {
    if i < j {
      assert s[i..j][0] == s[i] && s[i..j][1..] == s[i + 1..j];
      FindEarlier(s, c, i + 1, j);
    }
  }

  lemma {:induction false} FindInPrefix(s: string, c: char, start: nat, n: nat)
    requires start <= n <= |s| && Find(s, c, start) <= n
    ensures Find(s[..n], c, start) == Find(s, c, start)
    decreases n - start
  {
    if start < n && s[start] != c {
      FindInPrefix(s, c, start + 1, n);
    }
  }

  /** Cutting off the last of several segments keeps the first. */
  lemma ShorterPathSameSegment(path: string, n: nat)
    requires path != "" && path[0] == '/' && 1 <= Find(path, '/', 1) <= n <= |path|
    ensures FirstSegment(path[..n]) == FirstSegment(path)
  {
    FindInPrefix(path, '/', 1, n);
    var f := Find(path, '/', 1);
    assert path[..n][..f] == path[..f];
  }

  /** An entry that starts the path is followed by the end of the path or by the rest of the first segment. */
  lemma EntryStartsSegment(table: seq<Endpoint>, path: string, k: nat)
    requires Segmented(table) && k < |table| && table[k].path <= path
    ensures path != "" && path[0] == '/' && 1 <= |table[k].path| <= Find(path, '/', 1)
    ensures Find(path, '/', |table[k].path|) == Find(path, '/', 1)
  {
    var e := table[k].path;
    if k < |table| - 1 {
      assert path[1..|e|] == e[1..];
    } else {
      assert path[1..1] == "";
    }
    FindEarlier(path, '/', 1, |e|);
    FindSkips(path, '/', |e|);
  }

  /** The first entry with a given path, if there is one. */
  lemma {:induction false} FirstWithPath(table: seq<Endpoint>, path: string, j: nat) returns (f: nat)
    requires j < |table| && table[j].path == path
    ensures f <= j && table[f].path == path && forall m :: 0 <= m < f ==> table[m].path != path
  {
    if m: nat :| m < j && table[m].path == path {
      f := FirstWithPath(table, path, m);
    } else {
      f := j;
    }
  }

  lemma ShorterEntryHides(table: seq<Endpoint>, k: nat, f: nat)
    requires NothingHidden(table) && k <= f < |table| && table[|table| - 1].permissions == None
    requires table[k].path <= table[f].path && |table[k].path| < |table[f].path|
    requires forall m :: 0 <= m < f ==> table[m].path != table[f].path
    ensures table[f].permissions == None
  {
    if f < |table| - 1 {
      assert k < f && table[k].path <= table[f].path;
      assert Hidden(table, f);
    }
  }

  /** A single segment that is longer than the first entry that starts it needs no permission. */
  lemma LongerSegmentMisses(table: seq<Endpoint>, path: string, k: nat)
    requires Segmented(table) && NothingHidden(table) && k == FirstMatch(table, path, 0) && k < |table|
    requires |path| > |table[k].path|
    ensures Lookup(table, path) == None
  {
    if j: nat :| j < |table| && table[j].path == path {
      var f := FirstWithPath(table, path, j);
      FirstMatchIsFirst(table, path, 0, f);
      LookupHits(table, f);
      ShorterEntryHides(table, k, f);
    } else {
      LookupMisses(table, path);
    }
  }

  /** The same entry is the first that starts its own path and the one that Lookup finds. */
  lemma EntryIsFound(table: seq<Endpoint>, k: nat)
    requires k < |table| && k == FirstMatch(table, table[k].path, 0)
    ensures Lookup(table, table[k].path) == table[k].permissions
  {
    forall j | 0 <= j < k ensures table[j].path != table[k].path {
      if table[j].path == table[k].path {
        FirstMatchIsFirst(table, table[k].path, 0, j);
      }
    }
    LookupHits(table, k);
  }

  lemma NoMatchMeansNoSlash(table: seq<Endpoint>, path: string)
    requires Segmented(table) && FirstMatch(table, path, 0) >= |table|
    ensures Lookup(table, FirstSegment(path)) == None
  {
    if path != "" && path[0] == '/' {
      assert table[|table| - 1].path <= path;
      FirstMatchIsFirst(table, path, 0, |table| - 1);
    }
    forall j | 0 <= j < |table| ensures table[j].path != "" {
      assert j < |table| - 1 ==> IsSegment(table[j].path);
    }
    LookupMisses(table, "");
  }

  /** get_endpoint_permissions terminates on every path, and is the permission of the entry that is exactly the
      first segment of the path. */
  lemma {:induction false} PermissionsOfFirstSegment(table: seq<Endpoint>, path: string)
    requires Segmented(table) && NothingHidden(table)
    ensures GetEndpointPermissions(table, path) == Lookup(table, FirstSegment(path))
    decreases |path|
  {
    var k := FirstMatch(table, path, 0);
    if k >= |table| {
      NoMatchMeansNoSlash(table, path);
    } else {
      var e := table[k].path;
      EntryStartsSegment(table, path, k);
      if |path| > |e| {
        if Find(path, '/', |e|) < |path| {
          var n := FindLast(path, '/');
          PermissionsOfFirstSegment(table, path[..n]);
          ShorterPathSameSegment(path, n);
        } else {
          assert FirstSegment(path) == path;
          LongerSegmentMisses(table, path, k);
        }
      } else {
        assert path == e && FirstSegment(path) == path;
        EntryIsFound(table, k);
      }
    }
  }

  /** A hidden entry that needs a permission is missed for its own path. */
  lemma HiddenEntryIsMissed(table: seq<Endpoint>, j: nat)
    requires Segmented(table) && Hidden(table, j)
    ensures GetEndpointPermissions(table, table[j].path) == None
    ensures Lookup(table, FirstSegment(table[j].path)) == table[j].permissions
  {
    var path := table[j].path;
    var i :| 0 <= i < j && table[i].path <= path;
    FirstMatchIsFirst(table, path, 0, i);
    EntryStartsSegment(table, path, j);
    EntryStartsSegment(table, path, FirstMatch(table, path, 0));
    assert Find(path, '/', |path|) == |path|;
    assert FirstSegment(path) == path;
    LookupHits(table, j);
  }

  /** For every map of single segments and the root, the lookup follows the first segment on all paths exactly if no
      entry that needs a permission stands behind a proper prefix of it. */
  lemma LookupFollowsFirstSegment(table: seq<Endpoint>)
    requires Segmented(table)
    ensures (forall path :: GetEndpointPermissions(table, path) == Lookup(table, FirstSegment(path)))
            <==> NothingHidden(table)
  {
    if NothingHidden(table) {
      forall path ensures GetEndpointPermissions(table, path) == Lookup(table, FirstSegment(path)) {
        PermissionsOfFirstSegment(table, path);
      }
    } else {
      var j: nat :| Hidden(table, j) && table[j].permissions != None;
      HiddenEntryIsMissed(table, j);
    }
  }

  // -------------------------------------------------------------- segment tests

  predicate TargetStartsWithSegment(target: string, name: string) {
    var start := "/" + name;
    if start <= target then |start| == |target| || target[|start|] == '/' else false
  }

  predicate EndsWith(s: string, end: string) {
    |end| <= |s| && s[|s| - |end|..] == end
  }

  predicate IsTargetSingleLevel(target: string, name: string) {
    "/" + name <= target && (EndsWith(target, name + "/") || EndsWith(target, name))
  }

  lemma StartsWithSegmentIsFirstSegment(target: string, name: string)
    requires name != "" && Free(name, '/')
    ensures TargetStartsWithSegment(target, name) <==> FirstSegment(target) == "/" + name
  {
    var start := "/" + name;
    if start <= target {
      assert target[1..|start|] == name;
      FindEarlier(target, '/', 1, |start|);
    }
    if FirstSegment(target) == start {
      assert start == target[..Find(target, '/', 1)];
    }
  }

  /** The endpoints and the permission each needs, by the first segment of the target. */
  function Protection(target: string): Option<Permission> {
    if TargetStartsWithSegment(target, "config") || TargetStartsWithSegment(target, "maps")
       || TargetStartsWithSegment(target, "view") then Some(View)
    else if TargetStartsWithSegment(target, "control") then Some(Control)
    else None
  }

  lemma SegmentTests(target: string)
    ensures TargetStartsWithSegment(target, "config") <==> FirstSegment(target) == "/config"
    ensures TargetStartsWithSegment(target, "maps") <==> FirstSegment(target) == "/maps"
    ensures TargetStartsWithSegment(target, "view") <==> FirstSegment(target) == "/view"
    ensures TargetStartsWithSegment(target, "control") <==> FirstSegment(target) == "/control"
  {
    SegmentTest(target, "config", "/config");
    SegmentTest(target, "maps", "/maps");
    SegmentTest(target, "view", "/view");
    SegmentTest(target, "control", "/control");
  }

  lemma SegmentTest(target: string, name: string, segment: string)
    requires name != "" && Free(name, '/') && segment == "/" + name
    ensures TargetStartsWithSegment(target, name) <==> FirstSegment(target) == segment
  {
    StartsWithSegmentIsFirstSegment(target, name);
  }

  /** The two tests of the server agree: a path needs a permission exactly when it starts with the segment of an
      endpoint, and then it needs the permission of that endpoint. */
  lemma ProtectedIffSegment(target: string)
    ensures GetEndpointPermissions(ENDPOINT_MAP, target) == Protection(target)
  {
    EndpointMapIsGood();
    PermissionsOfFirstSegment(ENDPOINT_MAP, target);
    SegmentTests(target);
    LookupInMap(FirstSegment(target));
  }

  lemma LookupInMap(s: string)
    ensures Lookup(ENDPOINT_MAP, s) ==
            if s == "/config" || s == "/maps" || s == "/view" then Some(View)
            else if s == "/control" then Some(Control) else None
  {
    EndpointMapIsGood();
    assert forall i, j :: 0 <= i < j < 5 ==> ENDPOINT_MAP[i].path != ENDPOINT_MAP[j].path;
    if s == "/config" {
      LookupHits(ENDPOINT_MAP, 0);
    } else if s == "/maps" {
      LookupHits(ENDPOINT_MAP, 1);
    } else if s == "/control" {
      LookupHits(ENDPOINT_MAP, 2);
    } else if s == "/view" {
      LookupHits(ENDPOINT_MAP, 3);
    } else {
      LookupMisses(ENDPOINT_MAP, s);
    }
  }
}
