/** `get_tags`, `get_tag_id` and `get_addrs_by_tag` of phpipam.py: the tag
    list, a tag name resolved to its id by a first-match scan, and the
    addresses carrying a tag, optionally without gateways. */
module TagLookup {
  import opened Outcomes
  import opened PyJson
  import opened Session

  const TagsPath := "addresses/tags/"

  /** `get_tags()`: the normalised reply to `addresses/tags/`, unchanged. */
  function GetTags(opts: Option<map<string, Json>>, net: Transport): (r: Result<Json>)
    ensures Connect(opts, net).Err? ==> r == Err(Connect(opts, net).error)
    ensures Connect(opts, net).Ok? ==>
      var reply := net(QueryRequest(Connect(opts, net).value, "addresses/tags/"));
      && (reply.Refused? ==> r == Err(HttpError(reply.status)))
      && (reply.Body? ==> r == Normalise(reply.json))
  {
    var api :- Connect(opts, net);
    Query(api, net, TagsPath)
  }

  // ---------------------------------------------------------------------
  // get_tag_id

  /** What `get_tag_id` returns when it finds the tag. */
  datatype TagRef = TagRef(tag: string, tagId: Json)

  /** The entry's `type` is the tag name. */
  predicate IsTag(entry: map<string, Json>, tag: string) {
    Lookup(entry, "type", JNull) == JStr(tag)
  }

  /** The scan of lines 199-207: the `id` of the first entry of type `tag`. */
  function FindTag(entries: seq<Json>, tag: string): Result<Option<Json>>
  {
    if entries == [] then Ok(None)
    else if !entries[0].JObject? then Err(TypeFault)
    else if IsTag(entries[0].fields, tag) then Ok(Some(Lookup(entries[0].fields, "id", JNull)))
    else FindTag(entries[1..], tag)
  }

  /** Entry `j` is the first of type `tag`, and the scan reaches it. */
  predicate FirstTagAt(entries: seq<Json>, tag: string, j: int) {
    && 0 <= j < |entries|
    && entries[j].JObject?
    && IsTag(entries[j].fields, tag)
    && forall i :: 0 <= i < j ==> entries[i].JObject? && !IsTag(entries[i].fields, tag)
  }

  /** `get_tag_id(tag)`, as a value. */
  function TagIdSpec(opts: Option<map<string, Json>>, net: Transport, tag: string): Result<Option<TagRef>>
  {
    var tags :- GetTags(opts, net);
    var entries :- Entries(tags);
    var id :- FindTag(entries, tag);
    Ok(if id.Some? then Some(TagRef(tag, id.value)) else None)
  }

  /** `get_tag_id(tag)`: a linear scan that returns at the first match. */
  method GetTagId(opts: Option<map<string, Json>>, net: Transport, tag: string)
    returns (r: Result<Option<TagRef>>)
    ensures r == TagIdSpec(opts, net, tag)
  {
    var tags :- GetTags(opts, net);
    var entries :- Entries(tags);
    for i := 0 to |entries|
      invariant FindTag(entries[i..], tag) == FindTag(entries, tag)
    {
      var entry := entries[i];
      if !entry.JObject? {
        return Err(TypeFault);
      }
      var entryType := Lookup(entry.fields, "type", JNull);
      if entryType == JStr(tag) {
        return Ok(Some(TagRef(tag, Lookup(entry.fields, "id", JNull))));
      }
      assert entries[i..][1..] == entries[i + 1..];
    }
    return Ok(None);
  }

  /** The scan finds a tag exactly when some entry is the first of that type,
      and then yields that entry's id; it finds none exactly when every entry
      is a dict of another type. */
  lemma {:induction false} FindTagFirstMatch(entries: seq<Json>, tag: string)
    ensures forall j :: FirstTagAt(entries, tag, j) ==>
      FindTag(entries, tag) == Ok(Some(Lookup(entries[j].fields, "id", JNull)))
    ensures (FindTag(entries, tag).Ok? && FindTag(entries, tag).value.Some?)
        <==> exists j :: FirstTagAt(entries, tag, j)
    ensures FindTag(entries, tag) == Ok(None)
        <==> forall i :: 0 <= i < |entries| ==> entries[i].JObject? && !IsTag(entries[i].fields, tag)
  {
    if entries != [] && entries[0].JObject? && !IsTag(entries[0].fields, tag) {
      var rest := entries[1..];
      FindTagFirstMatch(rest, tag);
      forall j | FirstTagAt(entries, tag, j)
        ensures FirstTagAt(rest, tag, j - 1)
      {
        assert j != 0;
      }
      if exists j :: FirstTagAt(rest, tag, j) {
        var j :| FirstTagAt(rest, tag, j);
        assert FirstTagAt(entries, tag, j + 1);
      }
      if forall i :: 0 <= i < |rest| ==> rest[i].JObject? && !IsTag(rest[i].fields, tag) {
        assert forall i :: 0 < i < |entries| ==> entries[i] == rest[i - 1];
      }
    } else if entries != [] && entries[0].JObject? {
      assert FirstTagAt(entries, tag, 0);
    }
  }

  /** Once a tag is found, entries after it are never looked at: later
      duplicates are ignored. */
  lemma {:induction false} LaterEntriesIgnored(entries: seq<Json>, more: seq<Json>, tag: string)
    requires FindTag(entries, tag).Ok? && FindTag(entries, tag).value.Some?
    ensures FindTag(entries + more, tag) == FindTag(entries, tag)
  {
    assert (entries + more)[0] == entries[0];
    if !IsTag(entries[0].fields, tag) {
      assert (entries + more)[1..] == entries[1..] + more;
      LaterEntriesIgnored(entries[1..], more, tag);
    }
  }

  // ---------------------------------------------------------------------
  // get_addrs_by_tag

  /** One value of `details`. */
  datatype Detail = Detail(description: Json, hostname: Json, isGateway: Json)

  /** The mapping `get_addrs_by_tag` returns when the tag resolves. */
  datatype TaggedAddresses = TaggedAddresses(details: map<Json, Detail>, ipAddrs: seq<Json>, tag: string)

  function AddressesPath(tagId: Json): string {
    "addresses/tags/" + Render(tagId) + "/addresses/"
  }

  /** `is_valid(entry)` on a dict entry: everything when gateways are not
      excluded, otherwise a non-empty entry whose `is_gateway` is absent or
      false. */
  predicate Keep(entry: map<string, Json>, excludeGateway: bool) {
    !excludeGateway || (entry != map[] && !Truthy(Lookup(entry, "is_gateway", JNull)))
  }

  /** A value Python can use as a dict key. */
  predicate Hashable(j: Json) {
    !j.JArray? && !j.JObject?
  }

  function IpOf(entry: map<string, Json>): Json {
    Lookup(entry, "ip", JNull)
  }

  function DetailOf(entry: map<string, Json>): Detail {
    Detail(Lookup(entry, "description", JNull), Lookup(entry, "hostname", JNull),
           Lookup(entry, "is_gateway", JNull))
  }

  /** The loop body raises on this entry: it is not a dict, or it is kept and
      its ip cannot be a dict key. */
  predicate Faults(entry: Json, excludeGateway: bool) {
    !entry.JObject? || (Keep(entry.fields, excludeGateway) && !Hashable(IpOf(entry.fields)))
  }

  /** The loop body raises on none of the entries. */
  predicate NoneFaults(entries: seq<Json>, excludeGateway: bool) {
    forall i :: 0 <= i < |entries| ==> !Faults(entries[i], excludeGateway)
  }

  /** The dict entries the loop keeps, in order. */
  function Kept(entries: seq<Json>, excludeGateway: bool): seq<map<string, Json>>
  {
    if entries == [] then []
    else
      var last := entries[|entries| - 1];
      Kept(entries[..|entries| - 1], excludeGateway)
      + (if last.JObject? && Keep(last.fields, excludeGateway) then [last.fields] else [])
  }

  /** The positions of the kept entries. */
  function KeptAt(entries: seq<Json>, excludeGateway: bool): seq<nat>
  {
    if entries == [] then []
    else
      var last := entries[|entries| - 1];
      KeptAt(entries[..|entries| - 1], excludeGateway)
      + (if last.JObject? && Keep(last.fields, excludeGateway) then [|entries| - 1] else [])
  }

  /** `ip_addrs`: one element appended per kept entry. */
  function IpsOf(kept: seq<map<string, Json>>): seq<Json>
  {
    if kept == [] then [] else IpsOf(kept[..|kept| - 1]) + [IpOf(kept[|kept| - 1])]
  }

  /** `details`: one write per kept entry, under its ip. */
  function DetailsOf(kept: seq<map<string, Json>>): map<Json, Detail>
  {
    if kept == [] then map[]
    else DetailsOf(kept[..|kept| - 1])[IpOf(kept[|kept| - 1]) := DetailOf(kept[|kept| - 1])]
  }

  /** The address list of the lookup, when it gets that far. */
  ghost function TaggedEntries(opts: Option<map<string, Json>>, net: Transport, tag: string): seq<Json>
  {
    var found := TagIdSpec(opts, net, tag);
    if found.Err? || found.value.None? || Connect(opts, net).Err? then []
    else
      var data := Query(Connect(opts, net).value, net, AddressesPath(found.value.value.tagId));
      if data.Ok? && Entries(data.value).Ok? then Entries(data.value).value else []
  }

  /** The loop of lines 233-252 over `entries`, as a value. */
  function Listing(entries: seq<Json>, excludeGateway: bool, tag: string): Result<TaggedAddresses>
  {
    if !NoneFaults(entries, excludeGateway) then Err(TypeFault)
    else
      var kept := Kept(entries, excludeGateway);
      Ok(TaggedAddresses(DetailsOf(kept), IpsOf(kept), tag))
  }

  /** `get_addrs_by_tag(tag, exclude_gateway)`, as a value; `None` is `{}`. */
  function AddrsByTagSpec(opts: Option<map<string, Json>>, net: Transport, tag: string, excludeGateway: bool)
    : Result<Option<TaggedAddresses>>
  {
    var found :- TagIdSpec(opts, net, tag);
    var tagId := if found.Some? then found.value.tagId else JNull;
    if !Truthy(tagId) then Ok(None)
    else
      var api :- Connect(opts, net);
      var data :- Query(api, net, AddressesPath(tagId));
      var entries :- Entries(data);
      var listing :- Listing(entries, excludeGateway, tag);
      Ok(Some(listing))
  }

  /** `get_addrs_by_tag(tag, exclude_gateway)`: resolve the tag, stop with
      `{}` when it has no truthy id, otherwise list its addresses. */
  method GetAddrsByTag(opts: Option<map<string, Json>>, net: Transport, tag: string, excludeGateway: bool)
    returns (r: Result<Option<TaggedAddresses>>)
    ensures r == AddrsByTagSpec(opts, net, tag, excludeGateway)
  {
    var data := GetTagId(opts, net, tag);
    var found :- data;
    var tagId := if found.Some? then found.value.tagId else JNull;
    if !Truthy(tagId) {
      return Ok(None);
    }
    var api :- Connect(opts, net);
    var reply :- Query(api, net, AddressesPath(tagId));
    var entries :- Entries(reply);
    var listing :- ListAddresses(entries, excludeGateway, tag);
    return Ok(Some(listing));
  }

  /** The loop of lines 233-252: `details` and `ip_addrs` built side by side,
      one entry at a time. */
  method ListAddresses(entries: seq<Json>, excludeGateway: bool, tag: string)
    returns (r: Result<TaggedAddresses>)
    ensures r == Listing(entries, excludeGateway, tag)
  {
    var details: map<Json, Detail> := map[];
    var ipAddrs: seq<Json> := [];
    ghost var kept: seq<map<string, Json>> := [];
    for i := 0 to |entries|
      invariant NoneFaults(entries[..i], excludeGateway)
      invariant kept == Kept(entries[..i], excludeGateway)
      invariant details == DetailsOf(kept)
      invariant ipAddrs == IpsOf(kept)
    {
      ListStep(entries, i, excludeGateway);
      var entry := entries[i];
      if !entry.JObject? {
        return Err(TypeFault);
      }
      var ipAddr := Lookup(entry.fields, "ip", JNull);
      if Keep(entry.fields, excludeGateway) {
        if !Hashable(ipAddr) {
          return Err(TypeFault);
        }
        details := details[ipAddr := Detail(Lookup(entry.fields, "description", JNull),
                                            Lookup(entry.fields, "hostname", JNull),
                                            Lookup(entry.fields, "is_gateway", JNull))];
        ipAddrs := ipAddrs + [Lookup(entry.fields, "ip", JNull)];
        KeptAppend(kept, entry.fields);
        kept := kept + [entry.fields];
      }
    }
    assert entries[..|entries|] == entries;
    return Ok(TaggedAddresses(details, ipAddrs, tag));
  }

  /** One more entry: it faults, or it is kept or dropped. */
  lemma ListStep(entries: seq<Json>, i: nat, excludeGateway: bool)
    requires i < |entries|
    ensures NoneFaults(entries[..i + 1], excludeGateway)
        <==> NoneFaults(entries[..i], excludeGateway) && !Faults(entries[i], excludeGateway)
    ensures Kept(entries[..i + 1], excludeGateway)
         == Kept(entries[..i], excludeGateway)
            + (if entries[i].JObject? && Keep(entries[i].fields, excludeGateway) then [entries[i].fields] else [])
  {
    var next := entries[..i + 1];
    assert next[..i] == entries[..i] && next[i] == entries[i];
    if NoneFaults(entries[..i], excludeGateway) && !Faults(entries[i], excludeGateway) {
      forall j | 0 <= j < i + 1
        ensures !Faults(next[j], excludeGateway)
      {
        if j < i {
          assert next[j] == entries[..i][j];
        }
      }
    }
  }

  /** One more kept entry: one more ip, one more detail write. */
  lemma KeptAppend(kept: seq<map<string, Json>>, entry: map<string, Json>)
    ensures IpsOf(kept + [entry]) == IpsOf(kept) + [IpOf(entry)]
    ensures DetailsOf(kept + [entry]) == DetailsOf(kept)[IpOf(entry) := DetailOf(entry)]
  {
  }

  /** The kept entries are exactly the dict entries `is_valid` accepts, in
      their original order. */
  lemma {:induction false} KeptIsFilter(entries: seq<Json>, excludeGateway: bool)
    ensures |Kept(entries, excludeGateway)| == |KeptAt(entries, excludeGateway)|
    ensures forall k :: 0 <= k < |KeptAt(entries, excludeGateway)| ==>
      && KeptAt(entries, excludeGateway)[k] < |entries|
      && entries[KeptAt(entries, excludeGateway)[k]].JObject?
      && Kept(entries, excludeGateway)[k] == entries[KeptAt(entries, excludeGateway)[k]].fields
    ensures forall k, l :: 0 <= k < l < |KeptAt(entries, excludeGateway)| ==>
      KeptAt(entries, excludeGateway)[k] < KeptAt(entries, excludeGateway)[l]
    ensures forall i :: 0 <= i < |entries| ==>
      (i in KeptAt(entries, excludeGateway) <==> entries[i].JObject? && Keep(entries[i].fields, excludeGateway))
  {
    if entries != [] {
      var init := entries[..|entries| - 1];
      KeptIsFilter(init, excludeGateway);
      assert forall i :: 0 <= i < |init| ==> init[i] == entries[i];
    }
  }

  /** Without gateway exclusion every entry is kept. */
  lemma {:induction false} KeptAllWithoutExclusion(entries: seq<Json>)
    requires forall i :: 0 <= i < |entries| ==> entries[i].JObject?
    ensures |Kept(entries, false)| == |entries|
    ensures forall k :: 0 <= k < |entries| ==> Kept(entries, false)[k] == entries[k].fields
  {
    if entries != [] {
      var init := entries[..|entries| - 1];
      KeptAllWithoutExclusion(init);
      assert forall i :: 0 <= i < |init| ==> init[i] == entries[i];
    }
  }

  /** `ip_addrs` lists the kept entries' ips in order, duplicates included. */
  lemma {:induction false} IpsInOrder(kept: seq<map<string, Json>>)
    ensures |IpsOf(kept)| == |kept|
    ensures forall k :: 0 <= k < |kept| ==> IpsOf(kept)[k] == IpOf(kept[k])
  {
    if kept != [] {
      IpsInOrder(kept[..|kept| - 1]);
    }
  }

  /** The keys of `details` are exactly the elements of `ip_addrs`. */
  lemma {:induction false} DetailsKeyedByIps(kept: seq<map<string, Json>>)
    ensures DetailsOf(kept).Keys == set x | x in IpsOf(kept)
  {
    if kept != [] {
      var n := |kept| - 1;
      DetailsKeyedByIps(kept[..n]);
      assert IpsOf(kept) == IpsOf(kept[..n]) + [IpOf(kept[n])];
      assert (set x | x in IpsOf(kept)) == (set x | x in IpsOf(kept[..n])) + {IpOf(kept[n])};
    }
  }

  /** For an ip shared by several kept entries, `details` holds the last
      one's detail. */
  lemma {:induction false} DetailsLastWriteWins(kept: seq<map<string, Json>>, j: nat)
    requires j < |kept|
    requires forall l :: j < l < |kept| ==> IpOf(kept[l]) != IpOf(kept[j])
    ensures IpOf(kept[j]) in DetailsOf(kept)
    ensures DetailsOf(kept)[IpOf(kept[j])] == DetailOf(kept[j])
  {
    var n := |kept| - 1;
    if j < n {
      var init := kept[..n];
      assert forall l :: j < l < n ==> init[l] == kept[l];
      DetailsLastWriteWins(init, j);
      assert init[j] == kept[j];
    }
  }

  /** The shape of a resolved `get_addrs_by_tag`: `ip_addrs` lists, in order,
      the ip of every dict entry `is_valid` accepts (every entry when gateways
      are not excluded), `details` is keyed by exactly those ips, and `tag` is
      the name asked for. */
  lemma AddrsByTagOutputs(opts: Option<map<string, Json>>, net: Transport, tag: string, excludeGateway: bool)
    requires AddrsByTagSpec(opts, net, tag, excludeGateway).Ok?
    requires AddrsByTagSpec(opts, net, tag, excludeGateway).value.Some?
    ensures
      var t := AddrsByTagSpec(opts, net, tag, excludeGateway).value.value;
      var entries := TaggedEntries(opts, net, tag);
      var at := KeptAt(entries, excludeGateway);
      && t.tag == tag
      && |t.ipAddrs| == |at|
      && (forall k :: 0 <= k < |at| ==>
            at[k] < |entries| && entries[at[k]].JObject? && t.ipAddrs[k] == IpOf(entries[at[k]].fields))
      && (forall i :: 0 <= i < |entries| ==>
            (i in at <==> entries[i].JObject? && Keep(entries[i].fields, excludeGateway)))
      && t.details.Keys == (set x | x in t.ipAddrs)
      && (!excludeGateway ==> |t.ipAddrs| == |entries|)
  {
    var found := TagIdSpec(opts, net, tag).value;
    var api := Connect(opts, net).value;
    var data := Query(api, net, AddressesPath(found.value.tagId)).value;
    var entries := Entries(data).value;
    assert entries == TaggedEntries(opts, net, tag);
    var kept := Kept(entries, excludeGateway);
    assert AddrsByTagSpec(opts, net, tag, excludeGateway).value.value
        == TaggedAddresses(DetailsOf(kept), IpsOf(kept), tag);
    KeptIsFilter(entries, excludeGateway);
    IpsInOrder(kept);
    DetailsKeyedByIps(kept);
    if !excludeGateway {
      assert NoneFaults(entries, excludeGateway);
      KeptAllWithoutExclusion(entries);
    }
  }

  /** A GET whose url ends in `/addresses/`: the address listing of a tag. */
  predicate ListsAddresses(req: Request) {
    req.verb == Get && |req.url| >= 11 && req.url[|req.url| - 11..] == "/addresses/"
  }

  /** When the tag does not resolve to a truthy id, `get_addrs_by_tag` returns
      `{}` without the address listing: its outcome is the same whatever the
      service would answer to such a request. */
  lemma NoTagNoListing(opts: Option<map<string, Json>>, net: Transport, other: Transport,
                       tag: string, excludeGateway: bool)
    requires TagIdSpec(opts, net, tag).Ok?
    requires TagIdSpec(opts, net, tag).value.None? || !Truthy(TagIdSpec(opts, net, tag).value.value.tagId)
    requires forall req :: !ListsAddresses(req) ==> other(req) == net(req)
    ensures AddrsByTagSpec(opts, net, tag, excludeGateway) == Ok(None)
    ensures AddrsByTagSpec(opts, other, tag, excludeGateway) == Ok(None)
  {
    if opts.Some? && ReadSettings(Section(opts.value)).Ok? {
      var s := ReadSettings(Section(opts.value)).value;
      assert !ListsAddresses(AuthRequest(s));
      assert Connect(opts, other) == Connect(opts, net);
      if Connect(opts, net).Ok? {
        var req := QueryRequest(Connect(opts, net).value, TagsPath);
        assert req.url[|req.url| - 11] == 'e';
        assert !ListsAddresses(req);
      }
    }
    assert TagIdSpec(opts, other, tag) == TagIdSpec(opts, net, tag);
  }
}
