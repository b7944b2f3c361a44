/** The gate configuration: validating and parsing its JSON value, printing it, and filtering it for a client. */
module Configs {
  import opened Prelude
  import opened Json
  import opened Permissions
  import opened AuthTables

  datatype MapEntry = MapEntry(id: string, group: Option<string>, mapImagePath: string, gateConfig: Json)

  function GroupJson(group: Option<string>): Json {
    if group.Some? then Str(group.value) else Null
  }

  function ToJson(m: MapEntry): Json {
    Obj(map["id" := Str(m.id), "group" := GroupJson(m.group), "mapImage" := Str(m.mapImagePath),
            "gates" := m.gateConfig])
  }

  function ToClientJson(m: MapEntry): Json {
    Obj(map["id" := Str(m.id), "group" := GroupJson(m.group), "gates" := m.gateConfig])
  }

  function ConfigJson(maps: seq<MapEntry>): Json {
    Arr(seq(|maps|, k requires 0 <= k < |maps| => ToJson(maps[k])))
  }

  // ------------------------------------------------------- validating and parsing

  /** A number that the JSON reader keeps as an unsigned 64-bit integer. */
  predicate IsNumberUnsigned(j: Json) {
    j.Int? && 0 <= j.n < 0x1_0000_0000_0000_0000
  }

  predicate ValidGate(entry: Json) {
    entry.Obj? && IsNumberUnsigned(Field(entry, "x")) && IsNumberUnsigned(Field(entry, "y"))
    && IsNumberUnsigned(Field(entry, "id"))
  }

  predicate ValidGates(gates: Json) {
    gates.Arr? && forall k :: 0 <= k < |gates.items| ==> ValidGate(gates.items[k])
  }

  predicate ValidMap(entry: Json) {
    && entry.Obj? && Field(entry, "id").Str? && (Field(entry, "group").Str? || Field(entry, "group").Null?)
    && Field(entry, "mapImage").Str? && ValidGates(Field(entry, "gates"))
  }

  predicate ValidConfig(config: Json) {
    config.Arr? && forall k :: 0 <= k < |config.items| ==> ValidMap(config.items[k])
  }

  function MapOf(entry: Json): MapEntry
    requires ValidMap(entry)
  {
    var group := Field(entry, "group");
    MapEntry(Field(entry, "id").s, if group.Str? then Some(group.s) else None, Field(entry, "mapImage").s,
             Field(entry, "gates"))
  }

  /** None is the parse_error exception. */
  function ParseConfig(config: Json): Option<seq<MapEntry>> {
    if ValidConfig(config) then
      Some(seq(|config.items|, k requires 0 <= k < |config.items| => MapOf(config.items[k])))
    else None
  }

  method ValidateMapEntry(entry: Json) returns (valid: bool)
    ensures valid == ValidMap(entry)
  {
    if !entry.Obj? || !Field(entry, "id").Str? || (!Field(entry, "group").Str? && !Field(entry, "group").Null?)
       || !Field(entry, "mapImage").Str? || !Field(entry, "gates").Arr? {
      return false;
    }
    var gates := Field(entry, "gates").items;
    for k := 0 to |gates|
      invariant forall j :: 0 <= j < k ==> ValidGate(gates[j])
    {
      if !ValidGate(gates[k]) {
        return false;
      }
    }
    return true;
  }

  method ValidateConfig(config: Json) returns (valid: bool)
    ensures valid == ValidConfig(config)
  {
    if !config.Arr? {
      return false;
    }
    for k := 0 to |config.items|
      invariant forall j :: 0 <= j < k ==> ValidMap(config.items[j])
    {
      var ok := ValidateMapEntry(config.items[k]);
      if !ok {
        return false;
      }
    }
    return true;
  }

  method Parse(config: Json) returns (maps: Option<seq<MapEntry>>)
    ensures maps == ParseConfig(config)
  {
    var valid := ValidateConfig(config);
    if !valid {
      return None;
    }
    var result: seq<MapEntry> := [];
    for k := 0 to |config.items|
      invariant |result| == k && forall j :: 0 <= j < k ==> result[j] == MapOf(config.items[j])
    {
      var entry := config.items[k];
      var groupValue: Option<string> := None;
      if Field(entry, "group").Str? {
        groupValue := Some(Field(entry, "group").s);
      }
      result := result +
        [MapEntry(Field(entry, "id").s, groupValue, Field(entry, "mapImage").s, Field(entry, "gates"))];
    }
    assert result == ParseConfig(config).value;
    return Some(result);
  }

  lemma PrintedMapParses(m: MapEntry)
    ensures ValidMap(ToJson(m)) <==> ValidGates(m.gateConfig)
    ensures ValidMap(ToJson(m)) ==> MapOf(ToJson(m)) == m
  {
    var j := ToJson(m);
    assert Field(j, "id") == Str(m.id) && Field(j, "group") == GroupJson(m.group);
    assert Field(j, "mapImage") == Str(m.mapImagePath) && Field(j, "gates") == m.gateConfig;
  }

  /** Parsing the printed form of a configuration gives it back exactly when all of its gates are valid; with an
      invalid gate the printed form is refused. */
  lemma ConfigRoundTrip(maps: seq<MapEntry>)
    ensures ParseConfig(ConfigJson(maps)) == Some(maps) <==>
            forall k :: 0 <= k < |maps| ==> ValidGates(maps[k].gateConfig)
    ensures ParseConfig(ConfigJson(maps)) == Some(maps) || ParseConfig(ConfigJson(maps)) == None
  {
    var j := ConfigJson(maps);
    forall k | 0 <= k < |maps|
      ensures ValidMap(j.items[k]) <==> ValidGates(maps[k].gateConfig)
      ensures ValidMap(j.items[k]) ==> MapOf(j.items[k]) == maps[k]
    {
      PrintedMapParses(maps[k]);
    }
    if ValidConfig(j) {
      assert ParseConfig(j).value == maps;
      assert forall k :: 0 <= k < |maps| ==> ValidMap(j.items[k]);
    }
  }

  /** Whatever JSON was accepted, printing the configuration and parsing it again changes nothing. */
  lemma ParsingNormalises(config: Json)
    requires ParseConfig(config).Some?
    ensures ParseConfig(ConfigJson(ParseConfig(config).value)) == ParseConfig(config)
  {
    var maps := ParseConfig(config).value;
    forall k | 0 <= k < |maps| ensures ValidGates(maps[k].gateConfig) {
      assert ValidMap(config.items[k]);
    }
    ConfigRoundTrip(maps);
  }

  /** A gate with unsigned coordinates and id; nothing is said about further fields. */
  predicate HasPlace(gate: Json) {
    && gate.Obj? && "x" in gate.fields && "y" in gate.fields && "id" in gate.fields
    && forall key :: key in {"x", "y", "id"} ==>
         gate.fields[key].Int? && 0 <= gate.fields[key].n < 0x1_0000_0000_0000_0000
  }

  /** The JSON value of a map: an id, a group that is a text or null or absent, an image and an array of gates. */
  predicate Tells(entry: Json, m: MapEntry) {
    && entry.Obj? && "id" in entry.fields && entry.fields["id"] == Str(m.id)
    && (if m.group.Some? then "group" in entry.fields && entry.fields["group"] == Str(m.group.value)
        else "group" in entry.fields ==> entry.fields["group"] == Null)
    && "mapImage" in entry.fields && entry.fields["mapImage"] == Str(m.mapImagePath)
    && "gates" in entry.fields && entry.fields["gates"] == m.gateConfig && m.gateConfig.Arr?
    && forall k :: 0 <= k < |m.gateConfig.items| ==> HasPlace(m.gateConfig.items[k])
  }

  lemma GateIsValidExactly(gate: Json)
    ensures ValidGate(gate) <==> HasPlace(gate)
  {
    if gate.Obj? {
      assert Field(gate, "x").Int? <==> "x" in gate.fields && gate.fields["x"].Int?;
      assert Field(gate, "y").Int? <==> "y" in gate.fields && gate.fields["y"].Int?;
      assert Field(gate, "id").Int? <==> "id" in gate.fields && gate.fields["id"].Int?;
    }
  }

  lemma MapIsReadExactly(entry: Json, m: MapEntry)
    ensures ValidMap(entry) && MapOf(entry) == m <==> Tells(entry, m)
  {
    if Field(entry, "gates").Arr? {
      var gates := Field(entry, "gates").items;
      forall k | 0 <= k < |gates| ensures ValidGate(gates[k]) <==> HasPlace(gates[k]) {
        GateIsValidExactly(gates[k]);
      }
    }
  }

  /** A configuration is accepted, and read as these maps, exactly if it is an array of the JSON values of these maps,
      in their order; in particular one gate without x, y or id has the whole configuration refused. */
  lemma ConfigIsReadExactly(config: Json, maps: seq<MapEntry>)
    ensures ParseConfig(config) == Some(maps) <==>
            config.Arr? && |config.items| == |maps| && forall k :: 0 <= k < |maps| ==> Tells(config.items[k], maps[k])
  {
    if config.Arr? && |config.items| == |maps| {
      forall k | 0 <= k < |maps|
        ensures ValidMap(config.items[k]) && MapOf(config.items[k]) == maps[k] <==> Tells(config.items[k], maps[k])
      {
        MapIsReadExactly(config.items[k], maps[k]);
      }
      if forall k :: 0 <= k < |maps| ==> Tells(config.items[k], maps[k]) {
        assert ValidConfig(config);
        assert ParseConfig(config).value == maps;
      }
      if ParseConfig(config) == Some(maps) {
        assert forall k :: 0 <= k < |maps| ==> ParseConfig(config).value[k] == MapOf(config.items[k]);
      }
    }
  }

  // ---------------------------------------------------------- filtering for a client

  /** Whether a user is shown a map: a user with Control only the maps without a group or with one of the user's
      groups, every other user all maps. */
  predicate ShownTo(m: MapEntry, user: AuthData) {
    !(AtLeast(user.permissions, Control) && m.group.Some? && m.group.value !in user.mapGroups)
  }

  /** The list built by get_maps_for_client. */
  function MapsForClient(maps: seq<MapEntry>, user: AuthData): seq<Json> {
    if maps == [] then []
    else
      var m := maps[|maps| - 1];
      MapsForClient(maps[..|maps| - 1], user) + if ShownTo(m, user) then [ToClientJson(m)] else []
  }

  method FindGroup(groups: seq<string>, group: string) returns (found: bool)
    ensures found == (group in groups)
  {
    for k := 0 to |groups|
      invariant group !in groups[..k]
    {
      if groups[k] == group {
        return true;
      }
    }
    assert groups[..|groups|] == groups;
    return false;
  }

  method GetMapsForClient(maps: seq<MapEntry>, user: AuthData) returns (json: Json)
    ensures json == Arr(MapsForClient(maps, user))
  {
    var jsonifiedMaps: seq<Json> := [];
    for k := 0 to |maps|
      invariant jsonifiedMaps == MapsForClient(maps[..k], user)
    {
      assert maps[..k + 1][..k] == maps[..k];
      var m := maps[k];
      if AtLeast(user.permissions, Control) && m.group.Some? {
        var found := FindGroup(user.mapGroups, m.group.value);
        if !found {
          continue;
        }
      }
      jsonifiedMaps := jsonifiedMaps + [ToClientJson(m)];
    }
    assert maps[..|maps|] == maps;
    return Arr(jsonifiedMaps);
  }

  /** The places of the maps that are shown. */
  function ShownPlaces(maps: seq<MapEntry>, user: AuthData): seq<nat> {
    if maps == [] then []
    else
      var n := |maps| - 1;
      ShownPlaces(maps[..n], user) + if ShownTo(maps[n], user) then [n] else []
  }

  /** The client list is the subsequence of exactly the maps that are shown, in their order. */
  lemma {:induction false} ClientListIsSubsequence(maps: seq<MapEntry>, user: AuthData)
    ensures var places := ShownPlaces(maps, user); var list := MapsForClient(maps, user);
            && |places| == |list|
            && (forall k :: 0 <= k < |places| ==> places[k] < |maps| && list[k] == ToClientJson(maps[places[k]]))
            && (forall j, k :: 0 <= j < k < |places| ==> places[j] < places[k])
            && (forall n: nat :: n in places <==> n < |maps| && ShownTo(maps[n], user))
  {
    if maps != [] {
      ClientListIsSubsequence(maps[..|maps| - 1], user);
      var n := |maps| - 1;
      assert forall k: nat :: k < n ==> maps[..n][k] == maps[k];
    }
  }

  /** The client list, said about the maps and the user alone: in their order, one entry with id, group and gates for
      each map, except that a user with Control gets none for a map of a group the user does not have. */
  lemma ClientListIsFiltered(maps: seq<MapEntry>, user: AuthData) returns (places: seq<nat>)
    ensures var list := MapsForClient(maps, user);
            && |places| == |list| && (forall j, k :: 0 <= j < k < |places| ==> places[j] < places[k])
            && (forall k :: 0 <= k < |places| ==>
                  && places[k] < |maps|
                  && var m := maps[places[k]];
                     list[k] == Obj(map["id" := Str(m.id),
                                        "group" := if m.group.Some? then Str(m.group.value) else Null,
                                        "gates" := m.gateConfig]))
            && (user.permissions == Control ==>
                  forall n: nat :: n in places <==>
                    n < |maps| && (maps[n].group == None || maps[n].group.value in user.mapGroups))
            && (user.permissions != Control ==> forall n: nat :: n in places <==> n < |maps|)
  {
    places := ShownPlaces(maps, user);
    ClientListIsSubsequence(maps, user);
  }

  /** More groups never show less, and losing Control shows everything. */
  lemma MoreGroupsShowMore(maps: seq<MapEntry>, user: AuthData, more: AuthData)
    requires forall g :: g in user.mapGroups ==> g in more.mapGroups
    requires AtLeast(user.permissions, more.permissions)
    ensures forall n :: n in ShownPlaces(maps, user) ==> n in ShownPlaces(maps, more)
    ensures !AtLeast(more.permissions, Control) ==> forall n: nat :: n < |maps| ==> n in ShownPlaces(maps, more)
  {
    ClientListIsSubsequence(maps, user);
    ClientListIsSubsequence(maps, more);
  }

  function MapById(maps: seq<MapEntry>, id: string): Option<MapEntry> {
    if maps == [] then None else if maps[0].id == id then Some(maps[0]) else MapById(maps[1..], id)
  }

  /** find_if: the first map with the id; None is the exception. */
  method GetMapById(maps: seq<MapEntry>, id: string) returns (found: Option<MapEntry>)
    ensures found == MapById(maps, id)
  {
    var k := 0;
    while k < |maps|
      invariant k <= |maps| && MapById(maps[k..], id) == MapById(maps, id)
    {
      if maps[k].id == id {
        return Some(maps[k]);
      }
      k := k + 1;
    }
    return None;
  }

  lemma {:induction false} MapByIdIsFirst(maps: seq<MapEntry>, id: string, k: nat)
    requires k < |maps| && maps[k].id == id && forall j :: 0 <= j < k ==> maps[j].id != id
    ensures MapById(maps, id) == Some(maps[k])
  {
    if k > 0 {
      MapByIdIsFirst(maps[1..], id, k - 1);
    }
  }
}
