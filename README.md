# phpipam: a verified model of the SaltStack {php}IPAM execution module

phpipam.py is a SaltStack execution module. It answers lookups against a
{php}IPAM server's REST API: the addresses recorded for a hostname, the list
of address tags, a tag name resolved to its id, and the addresses carrying a
tag. This project models the part of the module that shapes data, and proves
what each operation returns. The model covers:

- `Api.__init__`: the settings read from the master configuration, the
  `verify` default, the lookup url and the token request.
- `Api.query`: the request it sends and how it normalises the decoded body.
- The four module functions `get`, `get_tags`, `get_tag_id` and
  `get_addrs_by_tag`.

The remote server is a `Transport`, a function from the request sent to the
reply received. A `Refused(status)` reply stands for `raise_for_status()`
raising. A `Body(json)` reply is the decoded JSON document. The master
configuration is an input: `None` when it cannot be read, otherwise its
mapping.

Python's dynamic typing is modelled, not assumed away. Two kinds of failure
come from it:

- Subscripting, calling `.get` on, or iterating a value of the wrong shape
  ends in `Err(TypeFault)`, the `TypeError` or `AttributeError` Python raises.
- A missing key ends in `Err(KeyMissing(k))` where Python raises `KeyError`.

`Truthy` follows Python's truth values. The filters of `get` and
`get_addrs_by_tag` depend on it: `"0"` is truthy, and `0`, `""`, `[]` and `{}`
are falsy.

Files:

- `outcomes.dfy` (module `Outcomes`): `Option`, the exceptions the module
  lets escape, and a `Result` type that propagates them.
- `json.dfy` (module `PyJson`): decoded JSON values and the Python operations
  the module applies to them.
- `session.dfy` (module `Session`): the `Api` class.
- `host_lookup.dfy` (module `HostLookup`): `get`.
- `tag_lookup.dfy` (module `TagLookup`): `get_tags`, `get_tag_id` and
  `get_addrs_by_tag`.

Each loop of the source is a method with a loop, proved equal to a recursive
specification function:

| loop | method | specification function |
|---|---|---|
| `get` | `HostLookup.Get` | `HostLookup.GetSpec` |
| `get_tag_id` | `TagLookup.GetTagId` | `TagLookup.TagIdSpec` |
| `get_addrs_by_tag` | `TagLookup.GetAddrsByTag` and `TagLookup.ListAddresses` | `TagLookup.AddrsByTagSpec` and `TagLookup.Listing` |

The lemmas beside each method state what the source promises about the
specification function.

`Api.__init__` assigns its fields once and nothing changes them afterwards.
`Api` is therefore an immutable datatype. `Session.Connect` is the
constructor together with the ways it can fail.

Two details of the code shape the model:

- `get` keys its result by a counter `match` that only surviving records
  advance (phpipam.py:148, 164-170). The keys are therefore dense, not the
  records' positions in the search result.
- `Api.__init__` checks only that the settings are present
  (phpipam.py:47-51). Empty values are accepted.

## Model

| member | source | states |
|---|---|---|
| Session.ReadSettings | phpipam.py:47-60 | Reading the settings succeeds exactly when `url`, `auth`, `auth.user` and `auth.password` are all present; empty values are accepted. A missing key gives CommandExecutionError (`ConfigMissing`) exactly when that key is absent from a dict. Any other failure is a TypeError. On success the values are stored unchanged, and `verify` defaults to `/etc/ssl/certs/ca-certificates.crt`. |
| Session.CatchKeyError | phpipam.py:52-56 | The `except KeyError` turns exactly the KeyError into CommandExecutionError. It passes every other outcome through unchanged. |
| Session.FetchToken | phpipam.py:77-92 | The token request succeeds exactly when its reply carries `data.token`, and the token is that value. A refused reply raises with its status. |
| Session.Connect | phpipam.py:43-75 | An unreadable configuration gives CommandExecutionError, and so does a missing setting. On success the Api holds: the settings unchanged; `verify` defaulted; `apiUrl = str(url) + "/api/lookup/"`; the `data.token` of the reply to the token request POSTed to `apiUrl + "/" + "user"` with the user and password. With all settings present, construction succeeds exactly when that reply carries a token. |
| Session.Normalise | phpipam.py:116-123 | On a dict body: the `data` field if present, else `{}`. On any other body: `{}` or a TypeError, and never anything else. A list raises exactly when it contains `"data"` or `"message"`, and so does a string containing either word. `None`, booleans and numbers always raise. |
| Session.Query | phpipam.py:100-123 | `query` fails with the status of a refused reply; otherwise it returns the normalised body. |
| Session.MessageIgnored | phpipam.py:117-123 | Whether a `message` field is present never changes what `query` returns for a dict body. |
| Session.RequestUrls | phpipam.py:58-104 | Every query goes to the configured url followed by `/api/lookup/`, a further `/` and the resource, and carries the session's token. The token request goes to the same base url followed by `/api/lookup/`, `/` and `user`. |
| PyJson.Index | phpipam.py:48-51 | `j[k]` succeeds exactly on a dict holding `k`. A dict without `k` raises KeyError; any other value raises TypeError. |
| PyJson.Entries | phpipam.py:149-150 | A `for` loop whose body starts with `entry.get` visits exactly a list's items. An empty dict or empty string visits nothing. Every other value raises TypeError: `None`, booleans and numbers are not iterable, and a non-empty dict or string yields strings that have no `.get`. |
| PyJson.DecimalInjective | phpipam.py:164 | `str(match)` is injective on counter values, so distinct counter values give distinct keys. |
| HostLookup.Survive | phpipam.py:149-170 | One pass of the loop body. A non-dict entry raises. An entry that is not an exact hostname match with a truthy `ip` and `subnetId` is skipped. For a wanted entry: a failing subnet query raises its error; an empty subnet reply skips the entry; a non-empty subnet reply that is not a dict, or whose `calculation` is not a dict, raises TypeError; otherwise an address is emitted. An emitted address is `{ipv4: ip, netmask: calculation."Subnet netmask", description, subnet_id}`, built from a wanted entry and its non-empty subnet record. |
| HostLookup.Get | phpipam.py:138-172 | The loop of `get`, with no CIDR given, computes exactly `GetSpec`: `{}` for a falsy search result, otherwise the surviving addresses under "0", "1", ... |
| HostLookup.GetNotFound | phpipam.py:143-146 | `get` returns `{}` when the search result is falsy. |
| HostLookup.SurvivorsFirstError | phpipam.py:149-170 | The loop completes exactly when no entry raises. Otherwise it raises what the first raising entry raises. |
| HostLookup.HitsAreTheHits | phpipam.py:153-170 | The hit positions lie strictly inside the search result and ascend strictly. They are exactly the entries that yield an address. |
| HostLookup.SurvivorsFollowHits | phpipam.py:148-170 | A completed loop collects one address per hit, and the k-th collected address is the one the k-th hit yields. |
| HostLookup.NumberedIsDense | phpipam.py:164-170 | The keys of `ret` are exactly `str(0)` .. `str(n-1)` for n addresses, and `str(k)` holds the k-th. |
| HostLookup.GetKeysFollowSearchOrder | phpipam.py:144-172 | A successful `get` has the keys "0" .. str(n-1), where n is the number of search entries that yield an address. Keys follow search order, and an entry skipped for an empty subnet takes no key. |
| HostLookup.SurvivorsAsWritten | phpipam.py:148-170 | As written, the loop never collects an address: it either raises or collects nothing. |
| HostLookup.GetAsWritten | phpipam.py:138-172 | As written, `get` returns `{}` whenever it returns at all. |
| HostLookup.SurviveAsWritten | phpipam.py:153-170 | As written, an entry that would yield an address raises NameError for `cidr`. Every other entry behaves as intended. |
| HostLookup.AsWrittenLoop | phpipam.py:148-170 | As written, the loop agrees with the intended one when that finds nothing. Otherwise it raises NameError. |
| HostLookup.AsWrittenNeverFinds | phpipam.py:138-172 | As written, `get` never returns an address. Where the intended `get` returns `{}` it does too; where the intended one finds addresses it raises NameError. |
| HostLookup.OneHit | phpipam.py:138-172 | When the session connects and the search returns a single entry that yields an address, the intended `get` returns that address under "0". The code as written raises NameError for `cidr`. |
| HostLookup.CidrNameError | phpipam.py:162 | For `get('web1')` against a concrete service, the intended lookup returns `{"0": {ipv4: 10.0.0.5, netmask: 255.255.255.0, description: lan, subnet_id: 7}}`. The code as written raises NameError. |
| TagLookup.GetTags | phpipam.py:184-186 | `get_tags` propagates a failed construction and a refused reply. Otherwise it returns the normalised reply to `addresses/tags/`, whatever the shape of the body. |
| TagLookup.GetTagId | phpipam.py:199-207 | The scan with early return computes exactly `TagIdSpec`: `{tag, tag_id: id}` of the first match, or `{}`. |
| TagLookup.FindTagFirstMatch | phpipam.py:199-207 | The scan finds a tag exactly when some entry is the first whose `type` equals the tag, and it then yields that entry's `id`. It returns `{}` exactly when every entry is a dict of another type. |
| TagLookup.LaterEntriesIgnored | phpipam.py:199-205 | Once a tag is found, appending further entries, duplicates included, changes nothing. |
| TagLookup.GetAddrsByTag | phpipam.py:223-252 | `get_addrs_by_tag` computes exactly `AddrsByTagSpec`: `{}` when the tag has no truthy id, otherwise the listing of the tag's addresses. |
| TagLookup.ListAddresses | phpipam.py:233-252 | The loop that builds `details` and `ip_addrs` side by side computes exactly `Listing`: one detail write and one append per kept entry, or a TypeError. |
| TagLookup.KeptIsFilter | phpipam.py:233-246 | The kept entries are exactly the dict entries that `is_valid` accepts, in their original order. |
| TagLookup.KeptAllWithoutExclusion | phpipam.py:233-240 | With `exclude_gateway` false, every entry is kept. |
| TagLookup.IpsInOrder | phpipam.py:246 | `ip_addrs` lists the kept entries' ips in input order, duplicates included. |
| TagLookup.DetailsKeyedByIps | phpipam.py:241-246 | The keys of `details` are exactly the elements of `ip_addrs`. |
| TagLookup.DetailsLastWriteWins | phpipam.py:241-245 | For an ip shared by several kept entries, `details` holds the last entry's description, hostname and `is_gateway`. |
| TagLookup.AddrsByTagOutputs | phpipam.py:223-252 | A resolved `get_addrs_by_tag` has these outputs: `tag` is the name asked for; `ip_addrs` is, in order, the ip of every entry `is_valid` accepts (all entries when gateways are not excluded); `details` is keyed by exactly those ips. |
| TagLookup.NoTagNoListing | phpipam.py:223-226 | When the tag does not resolve to a truthy id, `get_addrs_by_tag` returns `{}` and its outcome is the same whatever the server would answer to an address-listing request. |

## Left out

- HTTP, TLS and JSON decoding happen in the `requests` library. They are folded into the `Transport` oracle. The model does not cover:
  - a status other than 200 that `raise_for_status()` lets through;
  - a body that fails to decode.
- Reading `/etc/salt/master` with `salt.config.client_config` is file I/O. The configuration is an input, and `None` stands for a read that raised.
- Logging (phpipam.py:53, 70, 121) has no effect on results and is left out. The `json['message']` argument of the debug log is evaluated, and its TypeError is modelled.
- `salt.utils.network.in_subnet` is a foreign call. The CIDR filter of `get` is modelled only for the case where no CIDR is given (see Findings).
- The remote state is fixed: every request sees the same oracle. `get_addrs_by_tag` builds two `Api` objects and authenticates twice; both authentications receive the same answer.
- JSON numbers are integers; floating point is not modelled.
- `str()` of a list or dict, where the source formats one into a url, is a fixed placeholder rather than Python's `repr`.
- Python treats `True` and `1`, and `False` and `0`, as the same dict key. In `details` they are distinct keys.
- The `debug` constructor flag is stored and never read, so it is not modelled. The `token()` accessor is the `token` field of `Api`.
- Python dicts keep insertion order, and `get` and `get_addrs_by_tag` return `ret` and `details` in that order. Dafny maps are unordered, so the model does not state the order of those mappings. The order of `ip_addrs` is modelled.
- Command-line arguments (`key`, `tag`) are taken as strings.

## Findings

| source | as written | input that shows it | evidently intended | confidence | as-written member | corrected member |
|---|---|---|---|---|---|---|
| phpipam.py:162 | `valid` is computed from `cidr`, a name that neither `get` nor the module defines, so evaluating it raises NameError | `get('web1')` where the search returns one entry `{ip: 10.0.0.5, hostname: web1, subnetId: 7}` and `subnets/7` is a non-empty subnet record | with no CIDR given, `valid` is true and the entry is returned under key "0" | high; not executed | HostLookup.GetAsWritten | HostLookup.Get |
