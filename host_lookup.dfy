/** `get(key)` of phpipam.py: the addresses recorded for a hostname.

    The partial-hostname search is filtered down to exact matches that carry
    an ip and a subnet id; each survivor is joined with its subnet record and
    stored under the next key of a dense counter, "0", "1", ... in search
    order. The optional CIDR filter is modelled with no CIDR given (see
    `GetAsWritten` for the code as it stands). */
module HostLookup {
  import opened Outcomes
  import opened PyJson
  import opened Session

  /** One value of the mapping `get` returns. */
  datatype HostAddress = HostAddress(ipv4: Json, netmask: Json, description: Json, subnetId: Json)

  function SearchPath(key: string): string {
    "addresses/search_hostname_partial/" + key
  }

  function SubnetPath(subnetId: Json): string {
    "subnets/" + Render(subnetId)
  }

  /** The filter of line 153: a truthy ip, a truthy subnet id, and a hostname
      equal to the key, not merely containing it. */
  predicate Wanted(entry: map<string, Json>, key: string) {
    && Truthy(Lookup(entry, "ip", JNull))
    && Truthy(Lookup(entry, "subnetId", JNull))
    && Lookup(entry, "hostname", JNull) == JStr(key)
  }

  /** What one pass of the loop body makes of `entry`: nothing, one address,
      or an exception. */
  function Survive(api: Api, net: Transport, key: string, entry: Json): (r: Result<Option<HostAddress>>)
    ensures !entry.JObject? ==> r == Err(TypeFault)
    ensures entry.JObject? && !Wanted(entry.fields, key) ==> r == Ok(None)
    ensures entry.JObject? && Wanted(entry.fields, key) ==>
      var subnet := Query(api, net, SubnetPath(entry.fields["subnetId"]));
      && (subnet.Err? ==> r == Err(subnet.error))
      && (subnet.Ok? && !Truthy(subnet.value) ==> r == Ok(None))
      && (subnet.Ok? && Truthy(subnet.value) ==>
            if subnet.value.JObject? && Lookup(subnet.value.fields, "calculation", Empty).JObject?
            then r.Ok? && r.value.Some?
            else r == Err(TypeFault))
    ensures r.Ok? && r.value.Some? ==>
      entry.JObject? && Wanted(entry.fields, key) &&
      var subnetId := entry.fields["subnetId"];
      var subnet := Query(api, net, SubnetPath(subnetId));
      subnet.Ok? && Truthy(subnet.value) && subnet.value.JObject? &&
      var calculation := Lookup(subnet.value.fields, "calculation", Empty);
      calculation.JObject? &&
      r.value.value == HostAddress(entry.fields["ip"],
                                   Lookup(calculation.fields, "Subnet netmask", JNull),
                                   Lookup(subnet.value.fields, "description", JNull),
                                   subnetId)
  {
    if !entry.JObject? then Err(TypeFault)
    else if !Wanted(entry.fields, key) then Ok(None)
    else
      var subnetId := entry.fields["subnetId"];
      var subnet :- Query(api, net, SubnetPath(subnetId));
      if !Truthy(subnet) then Ok(None)
      else if !subnet.JObject? then Err(TypeFault)
      else
        var calculation := Lookup(subnet.fields, "calculation", Empty);
        if !calculation.JObject? then Err(TypeFault)
        else
          Ok(Some(HostAddress(entry.fields["ip"],
                              Lookup(calculation.fields, "Subnet netmask", JNull),
                              Lookup(subnet.fields, "description", JNull),
                              subnetId)))
  }

  /** The addresses the loop collects over `entries`, in order, or the first
      exception it meets. */
  function Survivors(api: Api, net: Transport, key: string, entries: seq<Json>): Result<seq<HostAddress>>
  {
    if entries == [] then Ok([])
    else
      var found :- Survivors(api, net, key, entries[..|entries| - 1]);
      var hit :- Survive(api, net, key, entries[|entries| - 1]);
      Ok(if hit.Some? then found + [hit.value] else found)
  }

  /** The entry yields an address. */
  predicate IsHit(api: Api, net: Transport, key: string, entry: Json) {
    var r := Survive(api, net, key, entry);
    r.Ok? && r.value.Some?
  }

  /** The positions, in the search result, of the entries that yield an
      address. */
  function Hits(api: Api, net: Transport, key: string, entries: seq<Json>): seq<nat>
  {
    if entries == [] then []
    else
      Hits(api, net, key, entries[..|entries| - 1])
      + (if IsHit(api, net, key, entries[|entries| - 1]) then [|entries| - 1] else [])
  }

  /** The mapping `ret` with counter `match`: the k-th address found is stored
      under `str(k)`. */
  function Numbered(found: seq<HostAddress>): map<string, HostAddress>
  {
    if found == [] then map[]
    else Numbered(found[..|found| - 1])[Decimal(|found| - 1) := found[|found| - 1]]
  }

  /** The search result the loop iterates over, when the lookup gets that far. */
  ghost function SearchEntries(opts: Option<map<string, Json>>, net: Transport, key: string): seq<Json>
    requires Connect(opts, net).Ok?
  {
    var data := Query(Connect(opts, net).value, net, SearchPath(key));
    if data.Ok? && Truthy(data.value) && Entries(data.value).Ok? then Entries(data.value).value else []
  }

  /** `get(key)`, as a value. */
  function GetSpec(opts: Option<map<string, Json>>, net: Transport, key: string): Result<map<string, HostAddress>>
  {
    var api :- Connect(opts, net);
    var data :- Query(api, net, SearchPath(key));
    if !Truthy(data) then Ok(map[])
    else
      var entries :- Entries(data);
      var found :- Survivors(api, net, key, entries);
      Ok(Numbered(found))
  }

  /** `get(key)`: the loop of lines 148-172, with `valid` true at line 162
      because no CIDR is given. */
  method Get(opts: Option<map<string, Json>>, net: Transport, key: string)
    returns (r: Result<map<string, HostAddress>>)
    ensures r == GetSpec(opts, net, key)
  {
    var api :- Connect(opts, net);
    var data :- Query(api, net, SearchPath(key));
    var ret: map<string, HostAddress> := map[];
    if !Truthy(data) {
      // the hostname is not recorded
      return Ok(ret);
    }
    var entries :- Entries(data);
    var matches := 0;
    ghost var found: seq<HostAddress> := [];
    for i := 0 to |entries|
      invariant Survivors(api, net, key, entries[..i]) == Ok(found)
      invariant matches == |found|
      invariant ret == Numbered(found)
    {
      SurvivorsStep(api, net, key, entries, i, found);
      var entry := entries[i];
      if !entry.JObject? {
        SurvivorsErrorPersists(api, net, key, entries, i + 1);
        return Err(TypeFault);
      }
      var ipaddr := Lookup(entry.fields, "ip", JNull);
      var hostname := Lookup(entry.fields, "hostname", JNull);
      var subnetId := Lookup(entry.fields, "subnetId", JNull);
      if Truthy(ipaddr) && Truthy(subnetId) && hostname == JStr(key) {
        var subnet := Query(api, net, SubnetPath(subnetId));
        if subnet.Err? {
          SurvivorsErrorPersists(api, net, key, entries, i + 1);
          return Err(subnet.error);
        }
        if !Truthy(subnet.value) {
          continue;
        }
        if !subnet.value.JObject? {
          SurvivorsErrorPersists(api, net, key, entries, i + 1);
          return Err(TypeFault);
        }
        var calculation := Lookup(subnet.value.fields, "calculation", Empty);
        if !calculation.JObject? {
          SurvivorsErrorPersists(api, net, key, entries, i + 1);
          return Err(TypeFault);
        }
        var netmask := Lookup(calculation.fields, "Subnet netmask", JNull);
        var description := Lookup(subnet.value.fields, "description", JNull);
        var valid := true;
        if valid {
          var address := HostAddress(ipaddr, netmask, description, subnetId);
          ret := ret[Decimal(matches) := address];
          NumberedAppend(found, address);
          found := found + [address];
          matches := matches + 1;
        }
      }
    }
    assert entries[..|entries|] == entries;
    return Ok(ret);
  }

  /** One more pass of the loop over the prefix `entries[..i]`. */
  lemma SurvivorsStep(api: Api, net: Transport, key: string, entries: seq<Json>, i: nat, found: seq<HostAddress>)
    requires i < |entries|
    requires Survivors(api, net, key, entries[..i]) == Ok(found)
    ensures
      var hit := Survive(api, net, key, entries[i]);
      Survivors(api, net, key, entries[..i + 1])
        == if hit.Err? then Err(hit.error)
           else Ok(if hit.value.Some? then found + [hit.value.value] else found)
  {
    assert entries[..i + 1][..i] == entries[..i];
  }

  /** One more address takes the next key. */
  lemma NumberedAppend(found: seq<HostAddress>, address: HostAddress)
    ensures Numbered(found + [address]) == Numbered(found)[Decimal(|found|) := address]
  {
  }

  /** Once the loop has raised on a prefix, the whole lookup raises the same
      exception. */
  lemma {:induction false} SurvivorsErrorPersists(api: Api, net: Transport, key: string, entries: seq<Json>, n: nat)
    requires n <= |entries|
    requires Survivors(api, net, key, entries[..n]).Err?
    ensures Survivors(api, net, key, entries) == Survivors(api, net, key, entries[..n])
    decreases |entries| - n
  {
    if n < |entries| {
      assert entries[..n + 1][..n] == entries[..n];
      SurvivorsErrorPersists(api, net, key, entries, n + 1);
    } else {
      assert entries[..n] == entries;
    }
  }

  /** The loop raises exactly when some entry raises, and then it raises what
      the first such entry raises. */
  lemma {:induction false} SurvivorsFirstError(api: Api, net: Transport, key: string, entries: seq<Json>)
    ensures Survivors(api, net, key, entries).Ok?
        <==> forall i :: 0 <= i < |entries| ==> Survive(api, net, key, entries[i]).Ok?
    ensures Survivors(api, net, key, entries).Err? ==>
      exists i :: 0 <= i < |entries|
        && Survive(api, net, key, entries[i]) == Err(Survivors(api, net, key, entries).error)
        && forall j :: 0 <= j < i ==> Survive(api, net, key, entries[j]).Ok?
  {
    if entries != [] {
      var init := entries[..|entries| - 1];
      SurvivorsFirstError(api, net, key, init);
      assert forall i :: 0 <= i < |init| ==> init[i] == entries[i];
      if Survivors(api, net, key, init).Err? {
        var i :| 0 <= i < |init|
          && Survive(api, net, key, init[i]) == Err(Survivors(api, net, key, init).error)
          && forall j :: 0 <= j < i ==> Survive(api, net, key, init[j]).Ok?;
        assert Survive(api, net, key, entries[i]) == Err(Survivors(api, net, key, entries).error);
      }
    }
  }

  /** The hit positions ascend strictly and are exactly the entries that
      yield an address. */
  lemma {:induction false} HitsAreTheHits(api: Api, net: Transport, key: string, entries: seq<Json>)
    ensures forall k :: 0 <= k < |Hits(api, net, key, entries)| ==>
      Hits(api, net, key, entries)[k] < |entries|
    ensures forall k, l :: 0 <= k < l < |Hits(api, net, key, entries)| ==>
      Hits(api, net, key, entries)[k] < Hits(api, net, key, entries)[l]
    ensures forall i :: 0 <= i < |entries| ==>
      (i in Hits(api, net, key, entries) <==> IsHit(api, net, key, entries[i]))
  {
    if entries != [] {
      var init := entries[..|entries| - 1];
      HitsAreTheHits(api, net, key, init);
      assert forall i :: 0 <= i < |init| ==> init[i] == entries[i];
    }
  }

  /** When the loop completes, the k-th address it found is the one the k-th
      hit yields: survivors keep their search order and an entry skipped for
      an empty subnet takes no place. */
  lemma {:induction false} SurvivorsFollowHits(api: Api, net: Transport, key: string, entries: seq<Json>)
    requires Survivors(api, net, key, entries).Ok?
    ensures |Survivors(api, net, key, entries).value| == |Hits(api, net, key, entries)|
    ensures forall k :: 0 <= k < |Hits(api, net, key, entries)| ==>
      && Hits(api, net, key, entries)[k] < |entries|
      && Survive(api, net, key, entries[Hits(api, net, key, entries)[k]])
         == Ok(Some(Survivors(api, net, key, entries).value[k]))
  {
    if entries != [] {
      var init := entries[..|entries| - 1];
      SurvivorsFollowHits(api, net, key, init);
      assert forall i :: 0 <= i < |init| ==> init[i] == entries[i];
    }
  }

  /** The mapping's keys are exactly "0" .. str(n-1) for the n addresses
      found, and key str(k) holds the k-th. */
  lemma {:induction false} NumberedIsDense(found: seq<HostAddress>)
    ensures Numbered(found).Keys == set k | 0 <= k < |found| :: Decimal(k)
    ensures forall k :: 0 <= k < |found| ==> Numbered(found)[Decimal(k)] == found[k]
  {
    NumberedKeys(found);
    NumberedValues(found);
  }

  lemma {:induction false} NumberedKeys(found: seq<HostAddress>)
    ensures Numbered(found).Keys == set k | 0 <= k < |found| :: Decimal(k)
  {
    if found != [] {
      var n := |found| - 1;
      NumberedKeys(found[..n]);
      var before := set k | 0 <= k < n :: Decimal(k);
      var after := set k | 0 <= k < |found| :: Decimal(k);
      forall x | x in after
        ensures x in before + {Decimal(n)}
      {
        var k :| 0 <= k < |found| && x == Decimal(k);
        if k < n {
          assert x in before;
        }
      }
      assert after == before + {Decimal(n)};
    }
  }

  lemma {:induction false} NumberedValues(found: seq<HostAddress>)
    ensures forall k :: 0 <= k < |found| ==> Decimal(k) in Numbered(found) && Numbered(found)[Decimal(k)] == found[k]
  {
    if found != [] {
      var n := |found| - 1;
      var init := found[..n];
      NumberedValues(init);
      assert Numbered(found) == Numbered(init)[Decimal(n) := found[n]];
      forall k | 0 <= k < n
        ensures Decimal(k) != Decimal(n)
      {
        if Decimal(k) == Decimal(n) {
          DecimalInjective(k, n);
        }
      }
      forall k | 0 <= k < |found|
        ensures Numbered(found)[Decimal(k)] == found[k]
      {
        if k < n {
          assert init[k] == found[k];
        }
      }
    }
  }

  /** `get` returns `{}` when the search finds nothing. */
  lemma GetNotFound(opts: Option<map<string, Json>>, net: Transport, key: string)
    requires Connect(opts, net).Ok?
    requires Query(Connect(opts, net).value, net, SearchPath(key)).Ok?
    requires !Truthy(Query(Connect(opts, net).value, net, SearchPath(key)).value)
    ensures GetSpec(opts, net, key) == Ok(map[])
  {
  }

  /** The shape of a successful `get`: with n the number of search entries
      that yield an address, the keys are exactly "0" .. str(n-1), assigned in
      search order, and key str(k) holds what the k-th such entry yields. */
  lemma GetKeysFollowSearchOrder(opts: Option<map<string, Json>>, net: Transport, key: string)
    requires GetSpec(opts, net, key).Ok?
    ensures Connect(opts, net).Ok?
    ensures
      var api := Connect(opts, net).value;
      var entries := SearchEntries(opts, net, key);
      var hits := Hits(api, net, key, entries);
      var m := GetSpec(opts, net, key).value;
      && m.Keys == (set k | 0 <= k < |hits| :: Decimal(k))
      && forall k :: 0 <= k < |hits| ==>
           hits[k] < |entries| && Survive(api, net, key, entries[hits[k]]) == Ok(Some(m[Decimal(k)]))
  {
    var api := Connect(opts, net).value;
    var entries := SearchEntries(opts, net, key);
    var data := Query(api, net, SearchPath(key)).value;
    if Truthy(data) {
      SurvivorsFollowHits(api, net, key, entries);
      NumberedIsDense(Survivors(api, net, key, entries).value);
    }
  }

  // ---------------------------------------------------------------------
  // Line 162 as written. `cidr` is not a parameter of `get` and not defined
  // anywhere in the module, so evaluating `... if cidr else True` raises
  // NameError for the first entry that reaches it.

  /** One pass of the loop body as written. */
  function SurviveAsWritten(api: Api, net: Transport, key: string, entry: Json): (r: Result<Option<HostAddress>>)
    ensures r.Ok? ==> r.value.None?
    ensures IsHit(api, net, key, entry) ==> r == Err(NameFault("cidr"))
    ensures !IsHit(api, net, key, entry) ==> r == Survive(api, net, key, entry)
  {
    match Survive(api, net, key, entry)
    case Ok(Some(_)) => Err(NameFault("cidr"))
    case other => other
  }

  /** The loop as written. */
  function SurvivorsAsWritten(api: Api, net: Transport, key: string, entries: seq<Json>): (r: Result<seq<HostAddress>>)
    ensures r.Ok? ==> r.value == []
  {
    if entries == [] then Ok([])
    else
      var found :- SurvivorsAsWritten(api, net, key, entries[..|entries| - 1]);
      var hit :- SurviveAsWritten(api, net, key, entries[|entries| - 1]);
      Ok(match hit case Some(address) => found + [address] case None => found)
  }

  /** `get(key)` as written. */
  function GetAsWritten(opts: Option<map<string, Json>>, net: Transport, key: string): (r: Result<map<string, HostAddress>>)
    ensures r.Ok? ==> r.value == map[]
  {
    var api :- Connect(opts, net);
    var data :- Query(api, net, SearchPath(key));
    if !Truthy(data) then Ok(map[])
    else
      var entries :- Entries(data);
      var found :- SurvivorsAsWritten(api, net, key, entries);
      Ok(Numbered(found))
  }

  /** Where the intended loop finds nothing the code as written agrees with
      it; where it finds an address the code as written raises NameError. */
  lemma {:induction false} AsWrittenLoop(api: Api, net: Transport, key: string, entries: seq<Json>)
    requires Survivors(api, net, key, entries).Ok?
    ensures SurvivorsAsWritten(api, net, key, entries)
         == if Survivors(api, net, key, entries).value == [] then Ok([]) else Err(NameFault("cidr"))
  {
    if entries != [] {
      AsWrittenLoop(api, net, key, entries[..|entries| - 1]);
    }
  }

  /** As written, `get` never returns an address: every lookup that would
      find one raises NameError instead. */
  lemma AsWrittenNeverFinds(opts: Option<map<string, Json>>, net: Transport, key: string)
    requires GetSpec(opts, net, key).Ok?
    ensures GetSpec(opts, net, key).value == map[] ==> GetAsWritten(opts, net, key) == Ok(map[])
    ensures GetSpec(opts, net, key).value != map[] ==> GetAsWritten(opts, net, key) == Err(NameFault("cidr"))
  {
    var api := Connect(opts, net).value;
    var data := Query(api, net, SearchPath(key)).value;
    if Truthy(data) {
      var entries := Entries(data).value;
      AsWrittenLoop(api, net, key, entries);
      if Survivors(api, net, key, entries).value == [] {
        assert Numbered([]) == map[];
      } else {
        var found := Survivors(api, net, key, entries).value;
        NumberedIsDense(found);
        assert Decimal(0) in Numbered(found);
      }
    }
  }

  /** A master configuration naming `https://ipam`. */
  const ExampleOpts: Option<map<string, Json>> :=
    Some(map["phpipam" := JObject(map[
      "url" := JStr("https://ipam"),
      "auth" := JObject(map["user" := JStr("reader"), "password" := JStr("secret")])])])

  /** A service that grants a token, records host `web1` at 10.0.0.5 in
      subnet 7, and describes that subnet. */
  function ExampleService(req: Request): Reply {
    if req.verb == Post then
      Body(JObject(map["data" := JObject(map["token" := JStr("t0k")])]))
    else if req.url == "https://ipam" + LookupPrefix + "/" + SearchPath("web1") then
      Body(JObject(map["data" := JArray([
        JObject(map["ip" := JStr("10.0.0.5"), "hostname" := JStr("web1"), "subnetId" := JStr("7")])])]))
    else
      Body(JObject(map["data" := JObject(map[
        "description" := JStr("lan"),
        "calculation" := JObject(map["Subnet netmask" := JStr("255.255.255.0")])])]))
  }

  const ExampleApi := Api(JStr("https://ipam"), JStr("reader"), JStr("secret"),
                           "https://ipam" + LookupPrefix, JStr(DefaultVerify), JStr("t0k"))

  const ExampleEntry := JObject(map["ip" := JStr("10.0.0.5"), "hostname" := JStr("web1"), "subnetId" := JStr("7")])

  const ExampleAddress := HostAddress(JStr("10.0.0.5"), JStr("255.255.255.0"), JStr("lan"), JStr("7"))

  lemma ExampleConnects()
    ensures Connect(ExampleOpts, ExampleService) == Ok(ExampleApi)
  {
  }

  lemma ExampleEntryHits()
    ensures Survive(ExampleApi, ExampleService, "web1", ExampleEntry) == Ok(Some(ExampleAddress))
  {
    var subnet := JObject(map[
      "description" := JStr("lan"),
      "calculation" := JObject(map["Subnet netmask" := JStr("255.255.255.0")])]);
    var req := QueryRequest(ExampleApi, SubnetPath(JStr("7")));
    assert |req.url| != |"https://ipam" + LookupPrefix + "/" + SearchPath("web1")|;
    assert ExampleService(req) == Body(JObject(map["data" := subnet]));
    assert Query(ExampleApi, ExampleService, SubnetPath(JStr("7"))) == Ok(subnet);
    assert Wanted(ExampleEntry.fields, "web1");
    assert ExampleEntry.fields["subnetId"] == JStr("7") && ExampleEntry.fields["ip"] == JStr("10.0.0.5");
    assert "description" in subnet.fields;
    var calculation := Lookup(subnet.fields, "calculation", Empty);
    assert calculation == JObject(map["Subnet netmask" := JStr("255.255.255.0")]);
    assert Lookup(calculation.fields, "Subnet netmask", JNull) == JStr("255.255.255.0");
    assert Lookup(subnet.fields, "description", JNull) == JStr("lan");
  }

  lemma ExampleSearch()
    ensures Query(ExampleApi, ExampleService, SearchPath("web1")) == Ok(JArray([ExampleEntry]))
  {
  }

  /** A search that returns one entry yielding `a`: the intended `get`
      returns `a` under key "0", the code as written raises NameError. */
  lemma OneHit(opts: Option<map<string, Json>>, net: Transport, key: string, api: Api, e: Json, a: HostAddress)
    requires Connect(opts, net) == Ok(api)
    requires Query(api, net, SearchPath(key)) == Ok(JArray([e]))
    requires Survive(api, net, key, e) == Ok(Some(a))
    ensures GetSpec(opts, net, key) == Ok(map["0" := a])
    ensures GetAsWritten(opts, net, key) == Err(NameFault("cidr"))
  {
    assert [e][..0] == [];
    var none: seq<HostAddress> := [];
    assert Survivors(api, net, key, []) == Ok(none);
    assert none + [a] == [a];
    assert Survivors(api, net, key, [e]) == Ok([a]);
    assert SurvivorsAsWritten(api, net, key, [e]) == Err(NameFault("cidr"));
    assert Truthy(JArray([e])) && Entries(JArray([e])) == Ok([e]);
    assert [a][..0] == [];
    assert Decimal(0) == "0";
    assert Numbered([a]) == map["0" := a];
  }

  /** `get('web1')` against that service: the intended lookup returns one
      address under key "0"; the code as written raises NameError. */
  lemma CidrNameError()
    ensures GetSpec(ExampleOpts, ExampleService, "web1") == Ok(map["0" := ExampleAddress])
    ensures GetAsWritten(ExampleOpts, ExampleService, "web1") == Err(NameFault("cidr"))
  {
    ExampleConnects();
    ExampleEntryHits();
    ExampleSearch();
    OneHit(ExampleOpts, ExampleService, "web1", ExampleApi, ExampleEntry, ExampleAddress);
  }
}
