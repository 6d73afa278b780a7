/** The local logic of the logical-interconnect resource: the defaults that
    update_settings puts into a settings payload, the first-match lookup of
    get_by_name, and the URIs of delete_interconnect and the firmware endpoint.
    ResourceClient is not part of this model: its build_uri is a parameter, and
    the requests it would send are returned instead of sent. */
module LogicalInterconnects {
  import opened Json
  import opened Exceptions
  import PyOps
  import Text

  const URI := "/rest/logical-interconnects"
  const FIRMWARE_PATH := "/firmware"
  const LOCATIONS_PATH := "/locations/interconnects"
  const LOCATIONS_URI := URI + LOCATIONS_PATH
  const SETTINGS_PATH := "/settings"
  const INTERCONNECT_SETTINGS_TYPE := "InterconnectSettingsV3"
  const ETHERNET_SETTINGS_TYPE := "EthernetInterconnectSettingsV3"

  /** ResourceClient.build_uri: from a resource id or URI to the resource's URI. */
  type BuildUri = string -> string

  // ------------------------------------------------------------------------
  // Settings payloads

  /** A Python dict that callers may share: the settings passed to update_settings
      and the dicts nested in it. */
  class Dict {
    var items: map<string, Value>

    constructor (items: map<string, Value>)
      ensures this.items == items
    {
      this.items := items;
    }
  }

  /** An entry of a shared dict: a dict held by reference, or a plain value. A
      Python dict is always an object its holders share, so a dict entry of a
      payload is `Nested`. */
  datatype Value = Leaf(json: Json) | Nested(dict: Dict)

  /** The request update_settings hands to ResourceClient.update. */
  datatype Update = Update(data: Dict, uri: string)

  /** `if key not in d: d[key] = default`, on the dict's contents. */
  function WithDefault<V>(m: map<string, V>, key: string, default: V): (r: map<string, V>)
    ensures r.Keys == m.Keys + {key}
    ensures key in m ==> r[key] == m[key]
    ensures key !in m ==> r[key] == default
    ensures forall k :: k in m && k != key ==> r[k] == m[k]
  {
    if key in m then m else m[key := default]
  }

  /** The dict that update_settings writes through: a shared `ethernetSettings` dict. */
  function SharedEthernet(settings: Dict): set<Dict>
    reads settings
  {
    if "ethernetSettings" in settings.items && settings.items["ethernetSettings"].Nested?
    then {settings.items["ethernetSettings"].dict}
    else {}
  }

  /** The `ethernetSettings` entry, when it is a dict, is held by reference, as every
      Python dict is. */
  predicate EthernetHeldByReference(items: map<string, Value>)
  {
    "ethernetSettings" in items && items["ethernetSettings"].Leaf? ==> !items["ethernetSettings"].json.JObj?
  }

  /** An `ethernetSettings` that is neither a dict nor a str or list containing 'type':
      the `in` test or the item assignment raises TypeError. */
  predicate RejectsEthernet(items: map<string, Value>)
  {
    && "ethernetSettings" in items
    && items["ethernetSettings"].Leaf?
    && !items["ethernetSettings"].json.JObj?
    && PyOps.In("type", items["ethernetSettings"].json) != Ok(true)
  }

  /** update_settings: a shallow copy of the settings with 'type' defaulted to
      'InterconnectSettingsV3', the `ethernetSettings` dict given the type
      'EthernetInterconnectSettingsV3' when it has none, and the settings URI. The
      copy shares the caller's `ethernetSettings` dict, so that dict is changed in
      place; the caller's top-level dict is changed only when it is its own
      `ethernetSettings`, and no other dict is touched. */
  method UpdateSettings(buildUri: BuildUri, idOrUri: string, settings: Dict) returns (r: Result<Update>)
    requires EthernetHeldByReference(settings.items)
    modifies SharedEthernet(settings)
    ensures r.Err? <==> RejectsEthernet(old(settings.items))
    ensures r.Err? ==> r.error == TypeError
    ensures r.Ok? ==> fresh(r.value.data) && r.value.uri == SettingsUri(buildUri, idOrUri)
    ensures r.Ok? ==> var data := r.value.data.items; var before := old(settings.items);
                      && data.Keys == before.Keys + {"type"}
                      && data["type"] == (if "type" in before then before["type"] else Leaf(JStr(INTERCONNECT_SETTINGS_TYPE)))
                      && forall k :: k in before && k != "type" && k != "ethernetSettings" ==> data[k] == before[k]
    ensures r.Ok? && "ethernetSettings" in old(settings.items) ==>
              match old(settings.items)["ethernetSettings"]
              case Nested(ethernet) =>
                && r.value.data.items["ethernetSettings"] == Nested(ethernet)
                && ethernet.items == WithDefault(old(ethernet.items), "type", Leaf(JStr(ETHERNET_SETTINGS_TYPE)))
              case Leaf(other) =>
                r.value.data.items["ethernetSettings"] == Leaf(other)
    ensures settings !in old(SharedEthernet(settings)) ==> settings.items == old(settings.items)
  {
    var data := new Dict(settings.items);
    if "type" !in data.items {
      data.items := data.items["type" := Leaf(JStr(INTERCONNECT_SETTINGS_TYPE))];
    }
    if "ethernetSettings" in data.items {
      match data.items["ethernetSettings"]
      case Nested(ethernet) =>
        if "type" !in ethernet.items {
          ethernet.items := ethernet.items["type" := Leaf(JStr(ETHERNET_SETTINGS_TYPE))];
        }
      case Leaf(other) =>
        // `'type' in other` raises on None, a bool or an int; when it is False the
        // item assignment on a str or list raises
        var has := PyOps.In("type", other);
        if has != Ok(true) {
          return Err(TypeError);
        }
    }
    r := Ok(Update(data, SettingsUri(buildUri, idOrUri)));
  }

  /** Defaulting a key twice is defaulting it once: the first default wins. */
  lemma WithDefaultIsIdempotent<V>(m: map<string, V>, key: string, default: V, other: V)
    ensures WithDefault(WithDefault(m, key, default), key, other) == WithDefault(m, key, default)
  {
  }

  /** Defaulting changes the map exactly when the key was missing. */
  lemma WithDefaultExtends<V>(m: map<string, V>, key: string, default: V)
    ensures key in m <==> WithDefault(m, key, default) == m
  {
    if key !in m {
      assert key in WithDefault(m, key, default).Keys;
    }
  }

  // ------------------------------------------------------------------------
  // Lookup by name

  /** `x['name']` succeeds: x is a dict with a name. */
  predicate HasName(x: Json)
  {
    x.JObj? && "name" in x.fields
  }

  predicate AllNamed(items: seq<Json>)
  {
    forall i :: 0 <= i < |items| ==> HasName(items[i])
  }

  /** `[x for x in items if x['name'] == name]`: evaluated front to back, so the
      first element that is not a dict with a name raises, whether or not a match
      came before it. */
  function FilterByName(items: seq<Json>, name: Json): (r: Result<seq<Json>>)
    ensures r.Ok? <==> AllNamed(items)
    ensures r.Err? ==> r.error == KeyError(JStr("name")) || r.error == TypeError
    ensures r.Ok? ==> |r.value| <= |items| && forall x :: x in r.value ==> x in items && HasName(x) && x.fields["name"] == name
  {
    if items == [] then Ok([])
    else
      var n :- PyOps.Subscript(items[0], "name");
      var rest :- FilterByName(items[1..], name);
      assert AllNamed(items) by {
        assert forall i :: 1 <= i < |items| ==> items[i] == items[1..][i - 1];
      }
      Ok(if n == name then [items[0]] + rest else rest)
  }

  /** get_by_name over the list get_all returned: the first match, or None. */
  function GetByName(items: seq<Json>, name: Json): (r: Result<Option<Json>>)
    ensures r.Ok? <==> AllNamed(items)
    ensures r.Ok? && r.value.Some? ==> r.value.value in items && r.value.value.fields["name"] == name
  {
    var result :- FilterByName(items, name);
    Ok(if |result| > 0 then Some(result[0]) else None)
  }

  /** The filter begins with the first element whose name matches. */
  lemma {:induction false} FilterStartsAtFirstMatch(items: seq<Json>, name: Json, i: nat)
    requires AllNamed(items) && i < |items| && items[i].fields["name"] == name
    requires forall j :: 0 <= j < i ==> items[j].fields["name"] != name
    ensures FilterByName(items, name).Ok?
    ensures |FilterByName(items, name).value| > 0 && FilterByName(items, name).value[0] == items[i]
  {
    assert AllNamed(items[1..]) by {
      assert forall k :: 0 <= k < |items[1..]| ==> items[1..][k] == items[k + 1];
    }
    if i > 0 {
      assert forall j :: 0 <= j < i - 1 ==> items[1..][j] == items[j + 1];
      FilterStartsAtFirstMatch(items[1..], name, i - 1);
    }
  }

  /** With no element of that name the filter is empty. */
  lemma {:induction false} FilterWithoutMatchIsEmpty(items: seq<Json>, name: Json)
    requires AllNamed(items)
    requires forall j :: 0 <= j < |items| ==> items[j].fields["name"] != name
    ensures FilterByName(items, name) == Ok([])
  {
    if items != [] {
      assert forall k :: 0 <= k < |items[1..]| ==> items[1..][k] == items[k + 1];
      FilterWithoutMatchIsEmpty(items[1..], name);
    }
  }

  /** The filter raises the error of the first element that has no name: KeyError
      for a dict without one, TypeError for anything that is not a dict. */
  lemma {:induction false} FilterFailsAtFirstUnnamed(items: seq<Json>, name: Json, i: nat)
    requires i < |items| && !HasName(items[i])
    requires forall j :: 0 <= j < i ==> HasName(items[j])
    ensures FilterByName(items, name) == Err(if items[i].JObj? then KeyError(JStr("name")) else TypeError)
  {
    if i > 0 {
      assert forall j :: 0 <= j < i - 1 ==> items[1..][j] == items[j + 1];
      FilterFailsAtFirstUnnamed(items[1..], name, i - 1);
    }
  }

  /** get_by_name returns the first element whose name matches, None when none
      does, and raises the error of the first element without a name; every list is
      in exactly one of the three cases. */
  lemma GetByNameIsFirstMatch(items: seq<Json>, name: Json)
    ensures AllNamed(items) ==>
              forall i :: 0 <= i < |items| && items[i].fields["name"] == name
                          && (forall j :: 0 <= j < i ==> items[j].fields["name"] != name)
                          ==> GetByName(items, name) == Ok(Some(items[i]))
    ensures (AllNamed(items) && forall j :: 0 <= j < |items| ==> items[j].fields["name"] != name) ==>
              GetByName(items, name) == Ok(None)
    ensures forall i :: 0 <= i < |items| && !HasName(items[i]) && (forall j :: 0 <= j < i ==> HasName(items[j]))
              ==> GetByName(items, name) == Err(if items[i].JObj? then KeyError(JStr("name")) else TypeError)
  {
    forall i | 0 <= i < |items| && AllNamed(items) && items[i].fields["name"] == name
               && (forall j :: 0 <= j < i ==> items[j].fields["name"] != name)
      ensures GetByName(items, name) == Ok(Some(items[i]))
    {
      FilterStartsAtFirstMatch(items, name, i);
    }
    if AllNamed(items) && (forall j :: 0 <= j < |items| ==> items[j].fields["name"] != name) {
      FilterWithoutMatchIsEmpty(items, name);
    }
    forall i | 0 <= i < |items| && !HasName(items[i]) && (forall j :: 0 <= j < i ==> HasName(items[j]))
      ensures GetByName(items, name) == Err(if items[i].JObj? then KeyError(JStr("name")) else TypeError)
    {
      FilterFailsAtFirstUnnamed(items, name, i);
    }
  }

  // ------------------------------------------------------------------------
  // URIs

  const DELETE_PREFIX := LOCATIONS_URI + "?location=Enclosure:"
  const BAY_MARK := ",Bay:"

  /** The URI delete_interconnect sends its DELETE to, for an enclosure URI and a bay number. */
  function DeleteInterconnectUri(enclosureUri: string, bay: int): string
  {
    DELETE_PREFIX + enclosureUri + BAY_MARK + Text.IntToString(bay)
  }

  /** Reads the enclosure and the bay back from a delete_interconnect URI. */
  function ParseDeleteInterconnectUri(uri: string): Option<(string, int)>
  {
    if DELETE_PREFIX <= uri then ParseLocation(uri[|DELETE_PREFIX|..]) else None
  }

  /** Reads `<enclosure>,Bay:<bay>`. The bay follows the last colon, since the
      enclosure URI may itself hold ",Bay:". */
  function ParseLocation(location: string): Option<(string, int)>
  {
    match Text.LastIndexOf(location, ':')
    case None => None
    case Some(colon) =>
      if colon + 1 < |BAY_MARK| || location[colon + 1 - |BAY_MARK|..colon + 1] != BAY_MARK then None
      else
        match Text.ParseInt(location[colon + 1..])
        case None => None
        case Some(bay) => Some((location[..colon + 1 - |BAY_MARK|], bay))
  }

  /** The last colon of `head + tail` is the one that ends head, when tail has none. */
  lemma LastColonEndsHead(head: string, tail: string)
    requires |head| > 0 && head[|head| - 1] == ':'
    requires forall k :: 0 <= k < |tail| ==> tail[k] != ':'
    ensures Text.LastIndexOf(head + tail, ':') == Some(|head| - 1)
  {
    var s := head + tail;
    assert s[|head| - 1] == ':';
    assert forall k :: |head| <= k < |s| ==> s[k] == tail[k - |head|];
  }

  /** The location part reads back as the enclosure and the bay it was built from. */
  lemma LocationRoundTrip(enclosureUri: string, bay: int)
    ensures ParseLocation(enclosureUri + BAY_MARK + Text.IntToString(bay)) == Some((enclosureUri, bay))
  {
    var digits := Text.IntToString(bay);
    var head := enclosureUri + BAY_MARK;
    Text.IntToStringHasNoColon(bay);
    LastColonEndsHead(head, digits);
    assert (head + digits)[|enclosureUri|..|head|] == BAY_MARK;
    assert (head + digits)[|head|..] == digits;
    assert (head + digits)[..|enclosureUri|] == enclosureUri;
    Text.IntToStringRoundTrip(bay);
  }

  /** A prefix followed by anything starts with that prefix, and the rest follows it. */
  lemma AfterPrefix(prefix: string, rest: string)
    ensures prefix <= prefix + rest && (prefix + rest)[|prefix|..] == rest
  {
    assert (prefix + rest)[..|prefix|] == prefix;
  }

  /** A delete_interconnect URI names its enclosure and bay unambiguously. */
  lemma DeleteInterconnectUriRoundTrip(enclosureUri: string, bay: int)
    ensures ParseDeleteInterconnectUri(DeleteInterconnectUri(enclosureUri, bay)) == Some((enclosureUri, bay))
  {
    var location := enclosureUri + BAY_MARK + Text.IntToString(bay);
    assert DeleteInterconnectUri(enclosureUri, bay) == DELETE_PREFIX + location;
    AfterPrefix(DELETE_PREFIX, location);
    LocationRoundTrip(enclosureUri, bay);
  }

  /** Distinct enclosure and bay pairs give distinct delete_interconnect URIs. */
  lemma DeleteInterconnectUriIsInjective(enclosure1: string, bay1: int, enclosure2: string, bay2: int)
    requires DeleteInterconnectUri(enclosure1, bay1) == DeleteInterconnectUri(enclosure2, bay2)
    ensures enclosure1 == enclosure2 && bay1 == bay2
  {
    DeleteInterconnectUriRoundTrip(enclosure1, bay1);
    DeleteInterconnectUriRoundTrip(enclosure2, bay2);
  }

  /** `__build_firmware_uri`: the resource's URI followed by '/firmware'. */
  function FirmwareUri(buildUri: BuildUri, idOrUri: string): string
  {
    buildUri(idOrUri) + FIRMWARE_PATH
  }

  /** The settings URI of update_settings: the resource's URI followed by '/settings'. */
  function SettingsUri(buildUri: BuildUri, idOrUri: string): string
  {
    buildUri(idOrUri) + SETTINGS_PATH
  }

  /** The firmware and settings endpoints never coincide, whatever build_uri returns:
      both suffixes have nine characters and end differently. */
  lemma FirmwareAndSettingsUrisDiffer(buildUri: BuildUri, id1: string, id2: string)
    ensures FirmwareUri(buildUri, id1) != SettingsUri(buildUri, id2)
  {
    var f := FirmwareUri(buildUri, id1);
    var s := SettingsUri(buildUri, id2);
    assert f[|f| - 1] == FIRMWARE_PATH[|FIRMWARE_PATH| - 1] == 'e';
    assert s[|s| - 1] == SETTINGS_PATH[|SETTINGS_PATH| - 1] == 's';
  }

  /** A URI that ends in a fixed path determines what comes before the path. */
  lemma SuffixDeterminesPrefix(head1: string, head2: string, path: string)
    requires head1 + path == head2 + path
    ensures head1 == head2
  {
    assert |head1| == |head2|;
    assert head1 == (head1 + path)[..|head1|];
    assert head2 == (head2 + path)[..|head2|];
  }

  /** The firmware endpoint determines the resource: two ids with the same firmware
      URI are the same resource URI to build_uri. */
  lemma FirmwareUriDeterminesResource(buildUri: BuildUri, id1: string, id2: string)
    requires FirmwareUri(buildUri, id1) == FirmwareUri(buildUri, id2)
    ensures buildUri(id1) == buildUri(id2)
  {
    SuffixDeterminesPrefix(buildUri(id1), buildUri(id2), FIRMWARE_PATH);
  }

  /** The settings endpoint determines the resource in the same way. */
  lemma SettingsUriDeterminesResource(buildUri: BuildUri, id1: string, id2: string)
    requires SettingsUri(buildUri, id1) == SettingsUri(buildUri, id2)
    ensures buildUri(id1) == buildUri(id2)
  {
    SuffixDeterminesPrefix(buildUri(id1), buildUri(id2), SETTINGS_PATH);
  }
}
