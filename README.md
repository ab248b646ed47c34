# CatWeazle instance registration, modelled in Dafny

CatWeazle hands out DNS names to new machines. A client posts an instance id, a
`dns_indicator` template and an IPv4 address. The service then:

- picks the smallest free host number for every `NUM` in the template;
- stores the record in MongoDB;
- announces the name to every configured DNS backend: foreman smart proxies in the
  current generation, and foreman proxies and AWS Route 53 in the legacy one;
- optionally enrols the host in a FreeIPA realm, whose one-time password goes back
  into the record.

When a DNS or realm backend fails with one of the service's own errors (`BackendError`
in the current generation, any `BaseError` in the legacy one), the registration is
rolled back through the service's own delete endpoint. Any other failure, such as a
reply that does not decode or an address that does not parse, escapes without a
rollback and leaves the record stored. Deleting is best-effort once the record has been
read and its stored address parses: then every backend's errors are swallowed and the
record is removed. A record that cannot be read, or an address that does not parse,
ends the delete before anything is removed.

The project models both generations of that pipeline:

- the hostname allocator (`crud/instances.py`, and the legacy `models/instances.py`);
- the store contract (`crud/common.py` over an in-memory collection with unique indexes);
- the query, projection, sort and pagination helpers (`crud/mixins.py`, `models/mixins.py`);
- the DNS and realm clients (`crud/foreman.py`, `models/foreman_proxy.py`,
  `models/aws_route53.py`);
- the two orchestrators (`controller/api/v2/instances.py`, `controller/instances.py`);
- the start-up validator that allows at most one realm provider (`main.py`).

Every remote is modelled the same way. A remote is an append-only log of the requests
sent to it, plus a reply oracle (`Http.Remote`). The database is a sequence of
documents, a set of unique indexes, a trip counter, and an oracle that says which trip
loses the connection (`Mongo.Collection`). Each class method is specified by a pure
function of the old state, and the properties are lemmas about those functions.

Modules:

- Supporting: `Base` (errors and results), `Strings` (Python `replace`, `split`,
  `strip`, `int`, `str`), `IPv4` (addresses, CIDR membership as in section 3.1 of
  RFC 4632, and the IN-ADDR.ARPA name of section 3.5 of RFC 1035), `Sorting`, `Mongo`
  and `Http`.
- One module per core file: `CrudMixins`, `CrudCommon`, `CrudInstances`,
  `CrudForeman`, `ControllerV2`, `MainSetup`, `ModelsMixins`, `ModelsInstances`,
  `ModelsForemanProxy`, `ModelsAwsRoute53` and `ControllerLegacy`.

Where the code looks wrong, both versions are modelled: the code as written, with a
lemma that exhibits the discrepancy, and the corrected behaviour, which the class
methods and the rest of the model use. Each such case is a row under "## Findings"
naming both members; the rows below say "corrected" where a member is of the second
kind. Everything else follows the code. Two behaviours look unintended but are modelled
as written:

- The AWS client's `dns_arpa_enable` property returns the forward flag.
- Both rollbacks, legacy and v2, go through the delete handler and so ask for `INSTANCE:DELETE` again.

## Model

| member | source | states |
|---|---|---|
| CrudMixins.FilterBooleanOn | catweazle/crud/mixins.py:6-13 | `None` leaves the query unchanged. Exactly `True`, "true", "True" and "1" select true documents; anything else selects false ones. No other key changes. |
| CrudMixins.FilterBoolean | catweazle/crud/mixins.py:6-13 | The in-place update leaves the query object holding `FilterBooleanOn` of its old contents. |
| CrudMixins.Dedup | catweazle/crud/mixins.py:20 | `list(set(...))`: every element occurs exactly once, and nothing else is added. |
| CrudMixins.FilterListOn | catweazle/crud/mixins.py:16-24 | `None` leaves the query unchanged. Otherwise the field gets `$nin` when `nin` is set and `$in` when it is not. Text is split on "," and each piece is kept once; a list is kept as it is. |
| CrudMixins.FilterList | catweazle/crud/mixins.py:16-24 | The in-place update equals `FilterListOn` of the old query. |
| CrudMixins.FilterReOn | catweazle/crud/mixins.py:27-33 | A non-empty pattern sets `$regex`, and any list (or both) sets `$in`. With neither, the query is unchanged. |
| CrudMixins.FilterRe | catweazle/crud/mixins.py:27-33 | The in-place update equals `FilterReOn` of the old query. |
| CrudMixins.FilterLiteralOn | catweazle/crud/mixins.py:36-42 | A selector with a non-empty list gives `$eq` and `$in`. A selector alone gives plain equality, and a non-empty list alone gives `$in`. An empty list is ignored. |
| CrudMixins.FilterLiteral | catweazle/crud/mixins.py:36-42 | The in-place update equals `FilterLiteralOn` of the old query. |
| CrudMixins.LiteralSameAsEq | catweazle/crud/mixins.py:38-41 | Plain equality and `$eq` select the same documents. |
| CrudMixins.Format | catweazle/crud/mixins.py:47-49 | Exactly `_id` is removed; every other key keeps its value. |
| CrudMixins.FormatMulti | catweazle/crud/mixins.py:51-53 | The page's documents are `result`, unchanged and in order, and `result_size` is the count it is given, which `_search` makes the number of all matches (`CrudCommon.SearchOutcome`). |
| CrudMixins.PagesTile | catweazle/crud/mixins.py:56-59 | `_pagination_skip` tiles the result with pages of one size: page 0 skips nothing, page `p + 1` starts where page `p` ends, and no later page starts inside an earlier one. |
| CrudMixins.ProjectionOf | catweazle/crud/mixins.py:64-70 | An absent or empty field list gives no projection. Otherwise every listed field maps to 1, and nothing else is in the projection. |
| CrudMixins.BuildProjection | catweazle/crud/mixins.py:64-70 | The loop builds exactly `ProjectionOf` of the fields. |
| CrudMixins.SortOf | catweazle/crud/mixins.py:75-79 | The sort is a single key, ascending iff the order is "ascending". |
| CrudCommon.SetFields | catweazle/crud/common.py:120-124 | The `$set` document holds exactly the payload keys whose value is not `None`, with their values. |
| CrudCommon.CrudMongo.constructor | catweazle/crud/common.py:32-35 | The store wraps the given collection. |
| CrudCommon.CrudMongo.Get | catweazle/crud/common.py:69-83 | The result and the new store are `GetSpec` of the old store. |
| CrudCommon.CrudMongo.GetByObjId | catweazle/crud/common.py:85-87 | A lookup by `_id` through `_get`. |
| CrudCommon.CrudMongo.Create | catweazle/crud/common.py:45-57 | The result and the new store are `CreateSpec`: insert, then read the document back by its object id. |
| CrudCommon.CrudMongo.Delete | catweazle/crud/common.py:59-67 | The result and the new store are `DeleteSpec`. |
| CrudCommon.CrudMongo.SetClause | catweazle/crud/common.py:120-124 | The loop builds exactly `SetFields` of the payload. |
| CrudCommon.CrudMongo.Update | catweazle/crud/common.py:117-138 | The result and the new store are `UpdateSpec` (`find_one_and_update` with `$set`, returning the document after the update). |
| CrudCommon.CrudMongo.Search | catweazle/crud/common.py:93-115 | The result and the new store are `SearchSpec`: the count, then the page. |
| CrudCommon.CrudMongo.BuildCursor | catweazle/crud/common.py:106-111 | The cursor is `SearchCursor`: the projection of the fields, sorted only when both `sort` and `sort_order` are given, paginated only when `page` and `limit` are both non-zero. |
| CrudCommon.GetFindsFirst | catweazle/crud/common.py:69-83 | `ResourceNotFound` iff no document matches. A found record is the first match, projected, without `_id`; the documents are unchanged. |
| CrudCommon.GetErrors | catweazle/crud/common.py:73-80 | `BackendError` iff the connection is lost; no other error arises, and the documents never change. |
| CrudCommon.CreateOutcome | catweazle/crud/common.py:45-57 | A duplicate key gives `DuplicateResource` with the documents unchanged. A lost connection gives `BackendError`. On success the payload is the new last document, and the result is that document, projected. |
| CrudCommon.CreateStoredDespiteError | catweazle/crud/common.py:50-57 | A read-back that loses the connection reports `BackendError`, even though the record was stored. |
| CrudCommon.DeleteOutcome | catweazle/crud/common.py:59-67 | `ResourceNotFound` iff nothing matches, and then nothing changes. Otherwise exactly the first match is removed and `{}` returned. |
| CrudCommon.UpdateNotFound | catweazle/crud/common.py:133-137 | With no match the result is `ResourceNotFound` and the documents are unchanged. |
| CrudCommon.UpdateFailedUnchanged | catweazle/crud/common.py:125-137 | A failed update changes no document. |
| CrudCommon.UpdateOutcome | catweazle/crud/common.py:117-138 | Only the first match changes, and only in its non-`None` payload keys. The result is that document after the change. |
| CrudCommon.SearchOutcome | catweazle/crud/common.py:93-115 | `result_size` counts every match, whatever the page. The page has at most `limit` items, never more than the count. The only error is `BackendError` on a lost connection. |
| CrudCommon.SearchFirstPage | catweazle/crud/common.py:102-112 | Without both a truthy page and a truthy limit the cursor skips nothing and sets no limit, so `page = 0` is the first page. The result is every match in cursor order, projected, and `to_list(limit)` still cuts it to the first `limit` of them. |
| CrudCommon.SearchToList | catweazle/crud/common.py:102-112 | A successful search returns the cursor's documents cut to `limit` by `to_list`, or all of them when no limit is given. |
| CrudCommon.UnboundedCursor | catweazle/crud/common.py:106-108 | A cursor without skip and limit yields every match, sorted when a sort is set, projected. |
| CrudCommon.SearchSingle | catweazle/crud/common.py:102-112 | A store holding one matching document, on the first page, returns exactly that document with the count 1. |
| CrudCommon.SearchPaged | catweazle/crud/common.py:109-111 | With both given, the page is the `limit` matches after the first `page * limit`. |
| CrudCommon.SearchSorted | catweazle/crud/common.py:107-108 | The cursor is sorted iff both `sort` and `sort_order` are given, and then by that single key. |
| CrudInstances.StrField | catweazle/model/v2/instances.py:36-42 | A `StrictStr` field: absent or `None` reads as `None`, text is kept, and anything else fails validation. |
| CrudInstances.MetaField | catweazle/model/v2/instances.py:42 | `meta` fails validation iff it is present and neither a dictionary nor `None`. |
| CrudInstances.FromToDoc | catweazle/crud/instances.py:91 | Validating the stored form of an instance gives the instance back. |
| CrudInstances.FromDocIgnoresOthers | catweazle/crud/instances.py:91 | Keys outside the model (`_id`) do not affect validation. |
| CrudInstances.FromDocs | catweazle/crud/instances.py:127 | A page validates iff every record does, and the result keeps the order. |
| CrudInstances.LeastFree | catweazle/crud/instances.py:40-43 | The result is a number at least `n`, below 1000, whose name is free, with the names of all smaller numbers from `n` taken. `None` iff all are taken. |
| CrudInstances.LeastFreeUnique | catweazle/crud/instances.py:40-43 | The least free number is the only free number with every smaller one taken. |
| CrudInstances.FreeNumberMinimal | catweazle/crud/instances.py:38-44 | The result is `str(n)` for the least free `n` in 1..999. `HostNumRangeExceeded(1000)` iff all of 1..999 are taken. |
| CrudInstances.Fqdns | catweazle/crud/instances.py:34-36 | One entry per record, in order, holding that record's fqdn. |
| CrudInstances.Instances.constructor | catweazle/crud/instances.py:22-26 | The store and the domain suffix are as given. |
| CrudInstances.Instances.Search | catweazle/crud/instances.py:100-127 | The result and the new store are `SearchSpec`: a regex filter per given field, then `_search`. |
| CrudInstances.Instances.Filter | catweazle/crud/instances.py:115-118 | The four `_filter_re` calls give `SearchFilter`: a regular-expression condition for each given field and nothing else. |
| CrudInstances.Instances.TakenNames | catweazle/crud/instances.py:34-36 | The loop's list is `Fqdns` of the records found. |
| CrudInstances.Instances.FirstFree | catweazle/crud/instances.py:38-44 | Corrected allocator: the counting loop returns exactly `FreeNumber` of the taken names under the stored naming `indicator.replace("NUM", n) + suffix`, its early return included. |
| CrudInstances.Instances.NextNum | catweazle/crud/instances.py:32-44 | Corrected allocator: the result and the new store are `NextNumSpec`, the indicator search, then the least number whose stored name is free. |
| CrudInstances.Instances.IndexCreate | catweazle/crud/instances.py:46-50 | The result and the new store are `IndexCreateSpec`: unique indexes on `id`, then on `fqdn`. |
| CrudInstances.Instances.Create | catweazle/crud/instances.py:52-65 | Corrected allocator: the result and the new store are `CreateSpec`, fqdn derivation with the corrected number, record build, then `_create`. |
| CrudInstances.Instances.Delete | catweazle/crud/instances.py:67-73 | The result and the new store are `DeleteSpec` on `{"id": _id}`. |
| CrudInstances.Instances.Get | catweazle/crud/instances.py:82-91 | The result and the new store are `GetSpec` on `{"id": _id}`. |
| CrudInstances.Instances.Update | catweazle/crud/instances.py:129-138 | The result and the new store are `UpdateSpec` with the dumped metadata payload. |
| CrudInstances.Instances.UpdateIpaOtp | catweazle/crud/instances.py:141-151 | The result and the new store are `UpdateIpaOtpSpec` with the payload `{"ipa_otp": otp}`. |
| CrudInstances.NextNumTaken | catweazle/crud/instances.py:33-36 | The taken names are exactly the fqdns of the records whose indicator matches the indicator as a regex, in store order; the search changes no document. |
| CrudInstances.IndicatorSearchMatched | catweazle/crud/instances.py:33 | `search(dns_indicator=indicator)` returns every record whose indicator matches, unprojected and in store order, with their count, and changes no document. |
| CrudInstances.CreateWithoutNum | catweazle/crud/instances.py:58-59 | Without `NUM` in the indicator no search runs, and the stored fqdn is `indicator + suffix`. |
| CrudInstances.NextNumMinimal | catweazle/crud/instances.py:38-43 | The chosen number is the least in 1..999 whose stored name is not among the fqdns found; each smaller one is taken. |
| CrudInstances.CreateWithNum | catweazle/crud/instances.py:59-62 | With `NUM`, the stored fqdn is the indicator with every `NUM` replaced by the chosen number, then the suffix. |
| CrudInstances.CreateRangeExceeded | catweazle/crud/instances.py:39-44 | When every number 1..999 is taken, the result is exactly `HostNumRangeExceeded(1000)` and nothing is stored. |
| CrudInstances.SearchReadsStored | catweazle/crud/instances.py:100-127 | A store holding the one matching record returns that record as an `Instance`, count 1. |
| CrudInstances.StoreRecordFields | catweazle/crud/instances.py:55-64 | On success the record is the new last document, with the fields it was built from. |
| CrudInstances.CreateStoresRecord | catweazle/crud/instances.py:55-64 | The stored record has `id = _id`, `ip_address = str(ip)`, and the request's indicator and metadata. |
| CrudInstances.CreateWithoutIndicator | catweazle/crud/instances.py:58-59 | A missing indicator raises `TypeError` before the store is touched. |
| CrudInstances.StoreRecordDuplicate | catweazle/crud/instances.py:48 | With the `id` index in place, a record with an id already in use is refused. |
| CrudInstances.CreateDuplicateId | catweazle/crud/instances.py:48 | A second `create` with the same id gives `DuplicateResource` and leaves the documents unchanged. |
| CrudInstances.IndexCreateUnique | catweazle/crud/instances.py:46-50 | After `index_create` both unique indexes exist, and no two records share an id or an fqdn. |
| CrudInstances.GetReadsStored | catweazle/crud/instances.py:82-91 | A record in its stored form reads back as itself when no field list is given. |
| CrudInstances.GetOmitsOtp | catweazle/crud/instances.py:82-91 | A non-empty field list without `ipa_otp` never returns the password. |
| CrudInstances.UpdateWritesMetaOnly | catweazle/crud/instances.py:135-137 | `update` changes at most `meta`; every other field of every record is unchanged. |
| CrudInstances.UpdateIpaOtpWritesOtpOnly | catweazle/crud/instances.py:147-150 | `update_ipa_otp` changes only `ipa_otp`, and sets it to the given password. |
| CrudInstances.CheckedIsStored | catweazle/crud/instances.py:38-42 | For a suffix without the letters N, U and M, the name checked equals the name stored. |
| CrudInstances.LeastFreeAgrees | catweazle/crud/instances.py:40-43 | Under the same condition, both namings choose the same least free number. |
| CrudInstances.NextNumAgrees | catweazle/crud/instances.py:32-44 | Under the same condition, the allocator as written and the corrected one agree. |
| CrudInstances.NumInSuffixReusesNumber | catweazle/crud/instances.py:38-43 | A counterexample: with `NUM` in the suffix, the code as written picks a number whose stored name is taken. |
| CrudForeman.ResponsibleIffPrefix | catweazle/crud/foreman.py:120-124 | Membership is a prefix match of the address with some zone (section 3.1 of RFC 4632). |
| CrudForeman.Foreman.constructor | catweazle/crud/foreman.py:14-40 | The backend's name, URL, flags and realm name are as given, and its zone set is exactly the configured networks. |
| CrudForeman.Foreman.RequestPost | catweazle/crud/foreman.py:111-118 | Exactly one POST is appended, to `url + path`. A reply other than 200 is `BackendError`. A 200 reply whose body is not JSON text raises `JSONDecodeError` uncaught. Any other 200 reply returns its JSON value: the object, or `None` for JSON that is not one (`null`, a list, a string). |
| CrudForeman.Foreman.RequestDelete | catweazle/crud/foreman.py:103-109 | Exactly one DELETE is appended, to `url + path`. A reply other than 200 is `BackendError`. |
| CrudForeman.Foreman.ArpaResponsible | catweazle/crud/foreman.py:120-124 | The loop with an early return answers `Responsible`. |
| CrudForeman.Foreman.CreateArpaDns | catweazle/crud/foreman.py:130-147 | The log and the outcome are `CreateArpaOp` of the old log: any 200 reply that is JSON text passes, whatever its value. |
| CrudForeman.Foreman.CreateForwardDns | catweazle/crud/foreman.py:149-165 | The log and the outcome are `CreateForwardOp` of the old log: any 200 reply that is JSON text passes, whatever its value. |
| CrudForeman.Foreman.CreateDns | catweazle/crud/foreman.py:126-128 | The PTR step, then the A step only if the PTR step passed; equals `CreateDnsOp`. |
| CrudForeman.Foreman.DeleteArpaDns | catweazle/crud/foreman.py:171-183 | The log and the outcome are `DeleteArpaOp` of the old log. |
| CrudForeman.Foreman.DeleteForwardDns | catweazle/crud/foreman.py:185-195 | The log and the outcome are `DeleteForwardOp` of the old log. |
| CrudForeman.Foreman.DeleteDns | catweazle/crud/foreman.py:167-169 | The PTR deletion, then the A deletion; equals `DeleteDnsOp`. |
| CrudForeman.Foreman.CreateRealm | catweazle/crud/foreman.py:197-207 | The log and the result are `CreateRealmOp` of the old log: the password of an object reply, `TypeError` for JSON that is not an object, `KeyError` for an object without one. |
| CrudForeman.Foreman.DeleteRealm | catweazle/crud/foreman.py:209-215 | The log and the outcome are `DeleteRealmOp` of the old log. |
| CrudForeman.RequestStatus | catweazle/crud/foreman.py:103-118 | Every request goes to `url + path`. A reply other than 200 is `BackendError`, and a 200 reply never is. |
| CrudForeman.CreateArpaRequests | catweazle/crud/foreman.py:130-147 | One PTR POST `{fqdn, reverse_pointer(ip), "PTR"}` to `/dns/` iff reverse DNS is on and a zone holds the address. The step passes iff that POST, if sent, gets a 200 reply whose body is JSON text; a non-object value such as `null` passes too. |
| CrudForeman.CreateDnsRequests | catweazle/crud/foreman.py:126-165 | The PTR record is sent under the reverse/zone condition, and comes first. The A record `{fqdn, ip, "A"}` is sent iff forward DNS is on and the PTR step did not fail, whatever the zones. Each step passes iff its POST gets a 200 reply that is JSON text. |
| CrudForeman.CreateDnsBadAddress | catweazle/crud/foreman.py:137 | An address that does not parse sends nothing and fails with `ValueError`, which is not a `BackendError`. |
| CrudForeman.DeleteDnsRequests | catweazle/crud/foreman.py:167-195 | `DELETE /dns/<reverse pointer>/PTR` is sent under the same conditions as the PTR record. `DELETE /dns/<fqdn>/A` is sent iff forward DNS is on and the PTR step passed. |
| CrudForeman.CreateRealmRequests | catweazle/crud/foreman.py:197-207 | With the realm off, nothing is sent and `None` is returned. Otherwise one POST of `{hostname: fqdn}` goes to `/realm/<name>`, and the reply's `randompassword` is returned. A reply other than 200 is `BackendError`. A 200 reply without an object is `JSONDecodeError` when it is not JSON text and `TypeError` otherwise; an object without the key is `KeyError`. |
| CrudForeman.DeleteRealmRequests | catweazle/crud/foreman.py:209-215 | With the realm off, nothing is sent. Otherwise one `DELETE /realm/<name>/<fqdn>` is sent. |
| IPv4.InNetworkIffPrefix | catweazle/crud/foreman.py:122 | `ip in zone` iff the address and the network agree on their leading prefix bits. |
| IPv4.ParseToText | catweazle/crud/foreman.py:137 | `IPv4Address(str(ip)) == ip`. |
| IPv4.ToTextParse | catweazle/crud/foreman.py:137 | Only canonical dotted text parses, and it is the text of its address. |
| IPv4.ReversePointer | catweazle/crud/foreman.py:141 | `reverse_pointer`: the four octets, reversed, then `in-addr.arpa` (section 3.5 of RFC 1035). |
| IPv4.ReversePointerInjective | catweazle/crud/foreman.py:141 | Different addresses have different reverse names. |
| ControllerV2.RequirePermission | catweazle/authorize/__init__.py:90-110 | Passes iff a user was found and is an admin or holds the permission. A missing user raises the gate's error; a missing permission raises `PermError`. |
| ControllerV2.Discard | catweazle/controller/api/v2/instances.py:168 | Exactly the requested fields other than the discarded one. |
| ControllerV2.StepExtends | catweazle/controller/api/v2/instances.py:117-157 | A backend turn only appends requests. An unregister turn never ends with `BackendError`. |
| ControllerV2.FanOutSnoc | catweazle/controller/api/v2/instances.py:117-134 | The loop over `k + 1` backends is the loop over `k` followed by backend `k`'s turn, when that loop passed. |
| ControllerV2.FanOutExtends | catweazle/controller/api/v2/instances.py:117-157 | The loop only appends requests. |
| ControllerV2.FanOutStops | catweazle/controller/api/v2/instances.py:126-134 | Once a backend has failed, no later backend is contacted. |
| ControllerV2.FanOutFirstFailure | catweazle/controller/api/v2/instances.py:117-134 | A failed loop failed at one backend `k`: all earlier ones passed, and `k`'s turn gives the outcome and the last requests. |
| ControllerV2.FanOutPrefix | catweazle/controller/api/v2/instances.py:117-134 | Every prefix of a passing loop passed, with a prefix of its log. |
| ControllerV2.FanOutVisitsAll | catweazle/controller/api/v2/instances.py:117-125 | A passing loop gave every backend its full turn, in list order. |
| ControllerV2.UnregisterPasses | catweazle/controller/api/v2/instances.py:144-157 | When the address parses (or no backend does reverse DNS), withdrawing passes whatever the backends reply. |
| ControllerV2.CreateStoreFirst | catweazle/controller/api/v2/instances.py:110-116 | A refused permission or a refused store write is returned before any backend request. |
| ControllerV2.CreateSucceeds | catweazle/controller/api/v2/instances.py:114-135 | Success returns the record the store made, keeps it, and has given every backend its turn. No OTP is written. |
| ControllerV2.CreateRollsBack | catweazle/controller/api/v2/instances.py:126-134 | On `BackendError` at backend `k`: every earlier backend passed, and no later one was asked to register. The rollback runs `delete` from `k`'s log, and the caller sees the same `BackendError` unless the rollback raised. |
| ControllerV2.CreateOtherErrorKeepsRecord | catweazle/controller/api/v2/instances.py:117-134 | An error other than `BackendError` escapes without rollback, and the record stays. |
| ControllerV2.RollbackNeedsDeletePermission | catweazle/controller/api/v2/instances.py:130-133 | The rollback re-checks `INSTANCE:DELETE`. A caller without it gets `PermError`, and the record stays after a backend failure. |
| ControllerV2.DeleteBestEffort | catweazle/controller/api/v2/instances.py:137-158 | After the record is read (and the address parses), every backend gets `delete_dns` and `delete_realm` whatever it replies, and the record is then deleted. |
| ControllerV2.DeleteUnknown | catweazle/controller/api/v2/instances.py:141-143 | An unreadable instance causes no backend request; the read's error is returned. |
| ControllerV2.GetHidesOtp | catweazle/controller/api/v2/instances.py:166-168 | An authenticated user never receives `ipa_otp`, and the corrected get succeeds exactly when the as-written one does. |
| ControllerV2.GetCorrectionAgrees | catweazle/controller/api/v2/instances.py:166-176 | The correction changes nothing when the field list is non-empty after the discard. |
| ControllerV2.GetLeaksOtp | catweazle/controller/api/v2/instances.py:166-176 | A counterexample: asking for `["ipa_otp"]` alone returns the whole record, password included (as written). |
| ControllerV2.GetAnonymous | catweazle/controller/api/v2/instances.py:169-176 | Without a session, the caller is answered only when its host equals the stored `ip_address`. Otherwise the credential error is re-raised, and any other gate error is passed on. |
| ControllerV2.SearchHidesOtp | catweazle/controller/api/v2/instances.py:202-214 | The corrected search never returns `ipa_otp`. As written, asking only for `ipa_otp` (with an admitted page size) searches whole records. |
| ControllerV2.SearchLeaksOtp | catweazle/controller/api/v2/instances.py:202-214 | A counterexample: as written, a user asking for `["ipa_otp"]` alone gets the whole stored record, password included; the corrected search returns it without the password. |
| ControllerV2.SearchLimitChecked | catweazle/controller/api/v2/instances.py:194-202 | A page size outside 10..1000 is refused with the framework's validation error (422) before the user check, the store untouched. A successful search had an admitted page size and a user. |
| ControllerV2.UpdateMetaOnly | catweazle/controller/api/v2/instances.py:216-228 | Requires `INSTANCE:POST`, and then changes only the record's metadata. |
| ControllerV2.Controller.constructor | catweazle/controller/api/v2/instances.py:30-40 | The store, the backend list and the remote are as given. |
| ControllerV2.Controller.Turn | catweazle/controller/api/v2/instances.py:118-125 | One backend's turn equals `StepOp` on the log. |
| ControllerV2.Controller.Each | catweazle/controller/api/v2/instances.py:117-157 | The `for` loop equals `FanOut` over all backends. |
| ControllerV2.Controller.Delete | catweazle/controller/api/v2/instances.py:137-158 | The result, the store and the log are `DeleteSpec` of the old state. |
| ControllerV2.Controller.Create | catweazle/controller/api/v2/instances.py:103-135 | The result, the store and the log are `CreateSpec` of the old state, over the corrected allocator of `CrudInstances.Instances.Create`. |
| ControllerV2.Controller.Get | catweazle/controller/api/v2/instances.py:160-176 | The result and the store are the corrected `GetSpec`. |
| ControllerV2.Controller.Search | catweazle/controller/api/v2/instances.py:178-214 | The result and the store are the corrected `SearchSpec`: the page-size check, the user check, then the search with `ipa_otp` withheld from every record. |
| ControllerV2.Controller.Update | catweazle/controller/api/v2/instances.py:216-228 | The result and the store are `UpdateSpec`. |
| MainSetup.SetupSpec | catweazle/main.py:171-200 | Corrected start-up (every backend given its `ssl_ca`): a failure is only ever the fatal `SystemExit`. |
| MainSetup.SetupForemanBackend | catweazle/main.py:171-200 | Corrected start-up: the loop with its `realm` flag computes `SetupSpec`. |
| MainSetup.SetupAtMostOneRealm | catweazle/main.py:172-199 | Corrected start-up: no foreman setting gives `[]`. Otherwise there is at most one realm provider, one backend per section in order, each with its section's flags, zones and realm name. |
| MainSetup.SetupSecondRealmFatal | catweazle/main.py:180-182 | Corrected start-up: a second `realmenable` section, wherever it comes, is fatal. |
| MainSetup.SetupAsWritten | catweazle/main.py:187-198 | As written, any failure is the `TypeError` of the constructor call that misses `ssl_ca`. |
| MainSetup.SetupAsWrittenBuildsNothing | catweazle/main.py:171-200 | As written, start-up never builds a backend and never reaches the fatal exit. It agrees with the corrected `SetupSpec` exactly when there is nothing to build. |
| MainSetup.SetupAdminUser | catweazle/main.py:132-150 | The result and the store are `SetupAdminSpec` of the old store. |
| MainSetup.SetupAdminCreatesIfAbsent | catweazle/main.py:132-150 | An existing admin is untouched. A missing one becomes the last document, with `admin = True`. An unreachable store creates nothing. |
| ModelsMixins.Listed | catweazle/models/mixins.py:19-20 | The text after the first ':' split on ',' with spaces stripped; `IndexError` without ':'. |
| ModelsMixins.StripStripped | catweazle/models/mixins.py:20 | A stripped text has no surrounding spaces. |
| ModelsMixins.ListedJoin | catweazle/models/mixins.py:19-20 | A heading, ':' and the values joined by ',' list exactly those values. |
| ModelsMixins.FirstNamed | catweazle/models/mixins.py:17-18 | The position of the first parameter with the name; `None` when there is none. |
| ModelsMixins.SchemaValues | catweazle/models/mixins.py:17-20 | The values of the first parameter with the name, or `None` when the loop falls through. |
| ModelsMixins.ParseAll | catweazle/models/mixins.py:22-23 | Every value as `int`, in order, or `ValueError` at the first that is not a number. |
| ModelsMixins.ProjectionFieldsOf | catweazle/models/mixins.py:28-36 | Every listed field maps to 1. |
| ModelsMixins.Ascend | catweazle/models/mixins.py:44-46 | Every listed criterion, ascending, in order. |
| ModelsMixins.PaginationSorted | catweazle/models/mixins.py:16-25 | The page sizes come out ascending, and are a permutation of the listed ones. |
| ModelsMixins.FindValues | catweazle/models/mixins.py:17-20 | The search loop equals `SchemaValues`. |
| ModelsMixins.ParseInts | catweazle/models/mixins.py:21-23 | The conversion loop equals `ParseAll`. |
| ModelsMixins.PaginationFromSchema | catweazle/models/mixins.py:16-25 | Equals `PaginationOf`: the listed sizes, sorted. |
| ModelsMixins.Ones | catweazle/models/mixins.py:33-35 | The loop maps every field to 1, and nothing else. |
| ModelsMixins.ProjectionFromSchema | catweazle/models/mixins.py:28-36 | Equals `ProjectionFieldsOf`. |
| ModelsMixins.SortFromSchema | catweazle/models/mixins.py:39-47 | Equals `SortFieldsOf`. |
| ModelsMixins.FilterBooleanOn | catweazle/models/mixins.py:91-100 | `None` leaves the query unchanged. The true and false literals select that boolean, and anything else is `InvalidSelectors`. |
| ModelsMixins.FilterBoolean | catweazle/models/mixins.py:91-100 | The in-place update equals `FilterBooleanOn`, and on an error the query is unchanged. |
| ModelsMixins.FilterBooleanAgrees | catweazle/models/mixins.py:91-100 | Wherever the legacy filter accepts a value it agrees with the current one, and it rejects only values the current one reads as false. |
| ModelsMixins.FilterList | catweazle/models/mixins.py:103-108 | A list as given, or text split on ',' with each piece once, as `$in`. |
| ModelsMixins.FilterReOn | catweazle/models/mixins.py:122-125 | Every selector but `None`, the empty text included, becomes `$regex`. |
| ModelsMixins.FilterRe | catweazle/models/mixins.py:122-125 | The in-place update equals `FilterReOn`. |
| ModelsMixins.FilterReEmptyPattern | catweazle/models/mixins.py:122-125 | The empty text still filters, unlike the current helper. |
| ModelsMixins.ProjectionFor | catweazle/models/mixins.py:132-142 | No fields gives the whole `projection_fields`. An unknown field is `InvalidFields`. Otherwise exactly the requested fields map to 1. |
| ModelsMixins.ProjectionJoin | catweazle/models/mixins.py:132-142 | Asking for known fields joined by ',' projects exactly those fields. |
| ModelsMixins.Projection | catweazle/models/mixins.py:132-142 | The two loops equal `ProjectionFor`. |
| ModelsMixins.Positive | catweazle/models/mixins.py:153-156 | `int(text)` when it is at least 1, otherwise `None`. |
| ModelsMixins.PaginationSkip | catweazle/models/mixins.py:149-168 | A falsy page gives 0. A bad page is `InvalidParameterValue`, checked first, and a bad limit is `InvalidPaginationLimit`. A falsy limit means the default. Otherwise the result is `page * limit`. |
| ModelsMixins.PaginationSkipDecimal | catweazle/models/mixins.py:149-168 | Decimal page `p` and limit `l` skip `p * l`, and page "0" is refused. |
| ModelsMixins.PaginationLimit | catweazle/models/mixins.py:170-177 | A falsy limit gives the default. Otherwise the result is the limit, which must be one of the steps (`InvalidPaginationLimit`); text that is not a number raises an uncaught `ValueError`. |
| ModelsMixins.PaginationLimitSteps | catweazle/models/mixins.py:170-177 | A decimal limit is accepted iff it is one of the steps. |
| ModelsMixins.StrictOrder | catweazle/models/mixins.py:211-220 | Item `k` must name `sort_fields[k]` (`InvalidSortCriteria`). The missing trailing criteria are appended, so the result follows `sort_fields`. |
| ModelsMixins.SortFor | catweazle/models/mixins.py:183-203 | An absent request gives `sort_fields`. '-' means descending. An unknown or repeated criterion is `InvalidSortCriteria`, and strict requests are put in model order. |
| ModelsMixins.SortRendered | catweazle/models/mixins.py:183-203 | Known, distinct criteria written as a request read back as themselves. |
| ModelsMixins.SortValidCriteria | catweazle/models/mixins.py:205-209 | Passes iff some model criterion has the name. |
| ModelsMixins.SortStrictOrder | catweazle/models/mixins.py:211-220 | The loop equals `StrictOrder`. |
| ModelsMixins.Sort | catweazle/models/mixins.py:183-203 | The loop equals `SortFor`. |
| ModelsMixins.CheckCriteria | catweazle/models/mixins.py:186-200 | Gives the parsed criteria exactly when each names a sortable field and none repeats; otherwise `InvalidSortCriteria`. |
| ModelsInstances.MongoErr | catweazle/models/instances.py:57-58 | A connection failure is `MongoConnError`; other driver errors escape. |
| ModelsInstances.FormatAll | catweazle/models/instances.py:120-122 | Every page item in order, without `_id`. |
| ModelsInstances.SearchParams | catweazle/models/instances.py:115-119 | The search succeeds iff the projection, the strict sort, the skip and the page size are all valid, and then it carries each of them. |
| ModelsInstances.TakenOf | catweazle/models/instances.py:36-38 | Every record's `fqdn`, in order; a record without one is a `KeyError`. |
| ModelsInstances.Free | catweazle/models/instances.py:40-44 | The least number whose candidate `(indicator + suffix).replace('NUM', n)` is free, every smaller one taken. `None` when 1..999 are all taken. |
| ModelsInstances.Instances.constructor | catweazle/models/instances.py:15-28 | The page sizes, projection and sort criteria (those the schema parsers produce) are kept, and the default page size is the last step. |
| ModelsInstances.Instances.Params | catweazle/models/instances.py:115-119 | Equals `SearchParams` of the settings. |
| ModelsInstances.Instances.FormatEach | catweazle/models/instances.py:120-122 | The loop equals `FormatAll`. |
| ModelsInstances.Instances.Filter | catweazle/models/instances.py:107-111 | The four `_filter_re` calls give `SearchFilter`. |
| ModelsInstances.Instances.Search | catweazle/models/instances.py:104-125 | The result and the store are `SearchSpec`. |
| ModelsInstances.Instances.TakenNames | catweazle/models/instances.py:36-38 | The loop equals `TakenOf`. |
| ModelsInstances.Instances.FirstFree | catweazle/models/instances.py:40-44 | The loop equals `Free`, falling through with `None`. |
| ModelsInstances.Instances.NextNum | catweazle/models/instances.py:34-44 | The result and the store are `NextNumSpec`. |
| ModelsInstances.Instances.Get | catweazle/models/instances.py:90-102 | The result and the store are `GetSpec`. |
| ModelsInstances.Instances.Create | catweazle/models/instances.py:46-59 | The result and the store are `CreateSpec`. |
| ModelsInstances.Instances.SetIpaOtp | catweazle/models/instances.py:61-77 | The result and the store are `SetIpaOtpSpec`. |
| ModelsInstances.Instances.Delete | catweazle/models/instances.py:79-88 | The result and the store are `DeleteSpec`. |
| ModelsInstances.NextNumReadOnly | catweazle/models/instances.py:34-44 | The allocator changes neither the documents nor the indexes. |
| ModelsInstances.NextNumMinimal | catweazle/models/instances.py:34-44 | The least free candidate among the fqdns found. `None`, with no range error, when all 1..999 are taken. |
| ModelsInstances.CreateWithoutNum | catweazle/models/instances.py:47-52 | Without `NUM` no search runs, and the fqdn is `indicator + suffix`. |
| ModelsInstances.StoreAppends | catweazle/models/instances.py:53-54 | A successful insert appends the payload, with its `_id`, after the existing records. |
| ModelsInstances.CreateStoresChecked | catweazle/models/instances.py:48-52 | With `NUM`, the stored fqdn is exactly the candidate the allocator found free. |
| ModelsInstances.CreateNumbersExhausted | catweazle/models/instances.py:41-51 | With 1..999 all taken, `replace` with `None` raises `TypeError`, and nothing is stored. |
| ModelsInstances.StoreErrors | catweazle/models/instances.py:53-58 | A duplicate key is `DuplicateResource` and a lost connection is `MongoConnError`; neither stores anything. |
| ModelsInstances.SetIpaOtpWritesOtpOnly | catweazle/models/instances.py:61-77 | Only `ipa_otp` is written, `""` for a falsy password. A missing record is `ResourceNotFound`, and nothing changes. |
| ModelsInstances.DeleteAndGetNotFound | catweazle/models/instances.py:79-102 | `delete` removes the first record with the id, and both `delete` and `get` raise `ResourceNotFound` when there is none. |
| ModelsInstances.SearchPage | catweazle/models/instances.py:104-125 | At most one page, of the requested or default size, and no `_id`. |
| ModelsForemanProxy.ZoneSet | catweazle/models/foreman_proxy.py:19-21 | Empty tokens are skipped. Every other token must be a network, IPv4 or IPv6, or the result is `ValueError`. The set holds exactly the IPv4 networks read; an IPv6 one is accepted but holds no IPv4 address, so it is not kept. |
| ModelsForemanProxy.ForemanProxy.constructor | catweazle/models/foreman_proxy.py:11-28 | The zone set is what `ZoneSet` reads, so a list mixing IPv4 and IPv6 networks starts; the flags, URL and realm are as given. |
| ModelsForemanProxy.MixedFamiliesRead | catweazle/models/foreman_proxy.py:18-21 | A setting such as `"10.0.0.0/8 fd00::/8"` reads without error, to the IPv4 zone alone. |
| ModelsForemanProxy.ForemanProxy.RequestPost | catweazle/models/foreman_proxy.py:78-92 | A dry run sends nothing and gives `None`. Otherwise one POST is sent. A reply other than 200 is `ForemanConnError`. A JSON body that does not decode raises `JSONDecodeError` uncaught. A body that is not JSON gives `None`. |
| ModelsForemanProxy.ForemanProxy.RequestDelete | catweazle/models/foreman_proxy.py:67-76 | A dry run sends nothing. Otherwise one DELETE is sent; a reply other than 200 is `ForemanConnError`. |
| ModelsForemanProxy.ForemanProxy.ArpaResponsible | catweazle/models/foreman_proxy.py:94-97 | True iff some zone holds the address; the source's falsy `None` is `false` here. |
| ModelsForemanProxy.ForemanProxy.CreateArpaDns | catweazle/models/foreman_proxy.py:103-116 | Equals `CreateArpaOp` on the log. |
| ModelsForemanProxy.ForemanProxy.CreateForwardDns | catweazle/models/foreman_proxy.py:118-130 | Equals `CreateForwardOp` on the log. |
| ModelsForemanProxy.ForemanProxy.CreateDns | catweazle/models/foreman_proxy.py:99-101 | Equals `CreateDnsOp`: PTR first, then A. |
| ModelsForemanProxy.ForemanProxy.DeleteArpaDns | catweazle/models/foreman_proxy.py:136-145 | Equals `DeleteArpaOp`. |
| ModelsForemanProxy.ForemanProxy.DeleteForwardDns | catweazle/models/foreman_proxy.py:147-154 | Equals `DeleteForwardOp`. |
| ModelsForemanProxy.ForemanProxy.DeleteDns | catweazle/models/foreman_proxy.py:132-134 | Equals `DeleteDnsOp`. |
| ModelsForemanProxy.ForemanProxy.CreateRealm | catweazle/models/foreman_proxy.py:156-166 | Equals `CreateRealmOp`. |
| ModelsForemanProxy.ForemanProxy.DeleteRealm | catweazle/models/foreman_proxy.py:168-172 | Equals `DeleteRealmOp`. |
| ModelsForemanProxy.DryRunSendsNothing | catweazle/models/foreman_proxy.py:67-69 | A dry run sends nothing, and every step passes except a PTR step on an unparsable address. The realm password is `dry_run_dummy_pw`. |
| ModelsForemanProxy.DnsFailures | catweazle/models/foreman_proxy.py:99-154 | DNS steps only append requests. They fail only with `ForemanConnError`, with `JSONDecodeError` on an undecodable POST reply, or with `ValueError` on an unparsable address when reverse DNS is on. |
| ModelsForemanProxy.RequestStatus | catweazle/models/foreman_proxy.py:67-92 | Outside a dry run every request goes to the URL. Exactly a reply other than 200 is `ForemanConnError`, and exactly an undecodable 200 POST reply is `JSONDecodeError`. |
| ModelsForemanProxy.PostFailures | catweazle/models/foreman_proxy.py:78-92 | A POST only appends, and fails only with `ForemanConnError` or `JSONDecodeError`. |
| ModelsForemanProxy.CreateDnsRequests | catweazle/models/foreman_proxy.py:99-130 | A PTR POST is sent iff reverse DNS is on and a zone holds the address, and it comes first. An A POST is sent iff forward DNS is on and the PTR step passed, that is, got a 200 reply that decodes. Failures are `ForemanConnError` or `JSONDecodeError`. |
| ModelsForemanProxy.DeleteDnsRequests | catweazle/models/foreman_proxy.py:132-154 | `DELETE <url>/dns/<reverse pointer>/PTR` is sent under the same condition. `DELETE <url>/dns/<fqdn>/A` is sent iff forward DNS is on and the PTR step passed. |
| ModelsForemanProxy.CreateRealmRequests | catweazle/models/foreman_proxy.py:156-166 | One POST of the hostname to `<url>/realm/<realm>`, answered with the reply's `randompassword`. A 200 reply without a JSON object is `JSONDecodeError` when its body does not decode, and `TypeError` otherwise. |
| ModelsForemanProxy.DeleteRealmRequests | catweazle/models/foreman_proxy.py:168-172 | One `DELETE <url>/realm/<realm>/<fqdn>`. |
| ModelsAwsRoute53.Put | catweazle/models/aws_route53.py:23 | `table[z] = id`: a known zone keeps its place and takes the new id; a new zone goes last. |
| ModelsAwsRoute53.ZoneEntry | catweazle/models/aws_route53.py:22-23 | A token must split at ':' into exactly two parts, with a network first; otherwise `ValueError`. |
| ModelsAwsRoute53.Entries | catweazle/models/aws_route53.py:21-23 | Every space-separated token, the empty one included, must be a valid entry, or the result is `ValueError`; the entries keep their order. |
| ModelsAwsRoute53.Table | catweazle/models/aws_route53.py:20-23 | Successive assignments leave a table with no zone listed twice. |
| ModelsAwsRoute53.TableZones | catweazle/models/aws_route53.py:20-23 | The table holds exactly the listed zones. |
| ModelsAwsRoute53.LastEntryWins | catweazle/models/aws_route53.py:23 | A zone listed twice takes the id of its last entry. |
| ModelsAwsRoute53.FirstHolding | catweazle/models/aws_route53.py:55-58 | The first table position whose zone holds the address. |
| ModelsAwsRoute53.AwsRoute53.constructor | catweazle/models/aws_route53.py:14-28 | The zone table is `ZonesOf` the text; the flags and forward zone are as given. |
| ModelsAwsRoute53.ReadZones | catweazle/models/aws_route53.py:20-23 | The loop builds `ZonesOf` the text: every entry in order, a repeated network keeping the last zone id, with no zone listed twice. |
| ModelsAwsRoute53.AwsRoute53.ArpaResponsible | catweazle/models/aws_route53.py:54-58 | The loop returns the zone id of the first holding zone in table order, or `None`. |
| ModelsAwsRoute53.AwsRoute53.Change | catweazle/models/aws_route53.py:72-90 | One change batch is appended; a `ClientError` reply is swallowed. |
| ModelsAwsRoute53.AwsRoute53.CreateForward | catweazle/models/aws_route53.py:66-90 | Equals `CreateForwardOp` on the log. |
| ModelsAwsRoute53.AwsRoute53.CreateArpa | catweazle/models/aws_route53.py:92-120 | Equals `CreateArpaOp` on the log. |
| ModelsAwsRoute53.AwsRoute53.Create | catweazle/models/aws_route53.py:60-64 | Equals `CreateOp`: PTR, then A. |
| ModelsAwsRoute53.AwsRoute53.DeleteForward | catweazle/models/aws_route53.py:128-152 | Equals `DeleteForwardOp`, which is gated on `dns_arpa_enable`. |
| ModelsAwsRoute53.AwsRoute53.DeleteArpa | catweazle/models/aws_route53.py:154-182 | Equals `DeleteArpaOp`. |
| ModelsAwsRoute53.AwsRoute53.Delete | catweazle/models/aws_route53.py:122-126 | Equals `DeleteOp`: PTR deletion, then A deletion. |
| ModelsAwsRoute53.ArpaFlagUnused | catweazle/models/aws_route53.py:30-32 | Two clients that differ only in the reverse flag send the same requests and give the same answers. |
| ModelsAwsRoute53.CreateNeverFailsOnReplies | catweazle/models/aws_route53.py:60-120 | `create` fails iff forward DNS is on and the address does not parse (`ValueError`, nothing sent). A dry run, or forward DNS off, sends nothing. |
| ModelsAwsRoute53.CreateArpaOnText | catweazle/models/aws_route53.py:92-120 | For a stored address text: one PTR change to the holding zone, when its id is non-empty and the step is live. |
| ModelsAwsRoute53.DeleteArpaOnText | catweazle/models/aws_route53.py:154-182 | The same for the PTR deletion. |
| ModelsAwsRoute53.ChangesExtend | catweazle/models/aws_route53.py:60-182 | Create and delete only append requests. |
| ModelsAwsRoute53.CreateRequests | catweazle/models/aws_route53.py:60-120 | First the PTR UPSERT (`reverse_pointer`, TTL 300, value fqdn) to the holding zone when its id is non-empty. Then the A UPSERT (fqdn, TTL 300, value ip) to the forward zone. Both only when forward DNS is on and it is not a dry run. It never fails. |
| ModelsAwsRoute53.DeleteRequests | catweazle/models/aws_route53.py:122-182 | The same records with `DELETE` and "remove" comments, under the same conditions. |
| ModelsAwsRoute53.ResponsibleFirst | catweazle/models/aws_route53.py:54-58 | Overlapping zones are decided by table order: the first zone that holds the address is chosen. |
| ControllerLegacy.Query | catweazle/controller/instances.py:134-141 | `request.query.get(key, None)`. |
| ControllerLegacy.ArgsOf | catweazle/controller/instances.py:58-60 | `KeyError` iff a backend loop runs and `fqdn` or `ip_address` is missing, or the realm step runs and `fqdn` is missing. |
| ControllerLegacy.Swallow | catweazle/controller/instances.py:62-63 | Exactly `ForemanConnError` becomes a pass. |
| ControllerLegacy.TurnExtends | catweazle/controller/instances.py:56-71 | A backend turn only appends requests. |
| ControllerLegacy.FanOutSnoc | catweazle/controller/instances.py:110-119 | The loop over `k + 1` backends is the loop over `k`, then backend `k`'s turn. |
| ControllerLegacy.FanOutStops | catweazle/controller/instances.py:109-125 | After a failure, no later backend is contacted. |
| ControllerLegacy.FanOutExtends | catweazle/controller/instances.py:110-119 | The loop only appends requests. |
| ControllerLegacy.FanOutAppend | catweazle/controller/instances.py:110-119 | The two loops are one loop over both lists; the second starts only when the first passed. |
| ControllerLegacy.UnregisterPasses | catweazle/controller/instances.py:56-71 | When the stored address parses, withdrawing passes whatever the backends reply. |
| ControllerLegacy.Backends | catweazle/controller/instances.py:110-119 | The foreman backends come first, then the AWS ones. |
| ControllerLegacy.BackendsInOrder | catweazle/controller/instances.py:110-119 | An AWS backend is contacted only after every foreman backend passed. |
| ControllerLegacy.PostChecksFirst | catweazle/controller/instances.py:102-107 | A refused `INSTANCE:POST`, an unreadable body, or an instance id that does not match `indicator_regex` (`InvalidName`) fails before the store or any backend. |
| ControllerLegacy.PostStoreFirst | catweazle/controller/instances.py:108 | A refused store write is returned before any backend request. |
| ControllerLegacy.PostSucceeds | catweazle/controller/instances.py:108-130 | Success keeps the record and gives every backend its turn, foreman first. With a realm backend, the result carries the written OTP. |
| ControllerLegacy.PostRollsBack | catweazle/controller/instances.py:125-129 | A `BaseError` of a DNS backend runs `delete` from the failed log. The caller sees the generic `BackEndError` unless the rollback raised. |
| ControllerLegacy.PostRealmRollsBack | catweazle/controller/instances.py:120-129 | A realm failure or a failed OTP write that is a `BaseError` also rolls back. |
| ControllerLegacy.PostOtherErrorKeepsRecord | catweazle/controller/instances.py:109-125 | Errors outside `BaseError` escape without rollback, and the record stays. |
| ControllerLegacy.DeleteBestEffort | catweazle/controller/instances.py:52-80 | Once the record is read (and the address parses): every DNS backend, then the realm backend, gets its turn, and the record is deleted. |
| ControllerLegacy.DeleteUnknown | catweazle/controller/instances.py:54-55 | An unreadable instance causes no backend request; the read's error is returned. |
| ControllerLegacy.GetAddressOverride | catweazle/controller/instances.py:84-97 | A `ModelError` refusal is overridden iff the caller's address is the stored one. An unknown instance or another address gives the gate's error, and so does any non-`ModelError`. |
| ControllerLegacy.SearchOpen | catweazle/controller/instances.py:132-143 | The gate's answers do not matter. |
| ControllerLegacy.Instances.constructor | catweazle/controller/instances.py:19-26 | The backends, the realm backend and the store are as given. |
| ControllerLegacy.Instances.ForemanTurn | catweazle/controller/instances.py:57-63 | Equals `TurnOp` of foreman backend `k` on the log. |
| ControllerLegacy.Instances.AwsTurn | catweazle/controller/instances.py:65-71 | Equals `TurnOp` of AWS backend `k` on the log. |
| ControllerLegacy.Instances.ForemanLoop | catweazle/controller/instances.py:110-114 | Equals `FanOut` over the foreman backends. |
| ControllerLegacy.Instances.AwsLoop | catweazle/controller/instances.py:115-119 | Equals `FanOut` over the AWS backends, continuing from the foreman loop. |
| ControllerLegacy.Instances.Each | catweazle/controller/instances.py:110-119 | Equals `FanOut` over `Backends`. |
| ControllerLegacy.Instances.Delete | catweazle/controller/instances.py:52-80 | The result, the store and the log are `DeleteSpec`. |
| ControllerLegacy.Instances.Rollback | catweazle/controller/instances.py:128-129 | Equals `RollbackSpec`. |
| ControllerLegacy.Instances.Post | catweazle/controller/instances.py:100-130 | The result, the store and the log are `PostSpec`. |
| ControllerLegacy.Instances.Enrol | catweazle/controller/instances.py:120-130 | The result, the store and the log are `RealmSpec`: without a realm backend the stored record; otherwise its password written into the record, a `BaseError` of either step rolled back. |
| ControllerLegacy.Instances.Get | catweazle/controller/instances.py:82-98 | The result and the store are `GetSpec`. |
| ControllerLegacy.Instances.Search | catweazle/controller/instances.py:132-143 | The result and the store are `SearchSpec`. |

## Left out

- I/O is not modelled: HTTP clients, TLS contexts, the AWS SDK, logging and async scheduling are gone. Every awaited call is one sequential step on a request log, and replies come from an oracle.
- Authentication is an oracle. Sessions, credentials, the permission store and the legacy `aa.require` are replaced by the caller's identity, admin flag and granted permissions (v2), and by a `require` function on the request (legacy).
- Text parsing of networks is not modelled. `ip_network` is an oracle from text to a network, or refusal; IPv4 address text is parsed exactly. The legacy foreman proxy's oracle may also answer that a text is an IPv6 network: it is accepted, and since no IPv4 address is inside it, the model does not keep it in the zone set.
- The regex engine is an oracle. So is the legacy `indicator_regex` match.
- JSON and schema validation of the legacy POST body are not modelled. The body arrives already parsed and unwrapped from `data`. A `dns_indicator` that is not text is refused as the schema would (`ValidationError`). The schema file is not part of this model.
- The `{"data": ...}` envelope of the legacy `_format` is dropped: records are handled without it.
- The values inside a JSON reply object are text only. A reply whose `randompassword` is a number or another non-text value is not modelled.
- Start-up with unreadable zones is not modelled. A foreman proxy or Route 53 constructor whose zone text cannot be read exits the service; the constructors require readable zones.
- A missing `dns_arpa_zones` setting (`AttributeError`) is not modelled either.
- ModelsInstances.Instances.constructor: requires a non-empty list of page sizes. The schema-less start-up, where `pagination_steps[-1]` raises, is not modelled.
- `delete_mark` and `resource_exists` of `crud/instances.py` are outside the registration pipeline.
- The v1 controller, `register.py`, the Lambda function, the user, permission and credential controllers, and the LDAP and OAuth code are outside this model.
- Botocore `ClientError` is modelled as a swallowed failure reply. Other SDK and network exceptions are not modelled.
- Transport exceptions of the HTTP clients (aiohttp's `ClientConnectorError` and the like) are not modelled: every request gets a reply. In the code they escape every handler, so a registration that meets one is neither rolled back nor does a delete carry on past it.
- Of the v2 search endpoint's query validation, only the page-size bounds 10..1000 are modelled (`RequestValidation`, checked in `SearchAsWritten`). The literal types of `fields`, `sort` and `sort_order` are not: the model accepts any text there.
- CrudMixins.Dedup: Python leaves the order of `list(set(...))` unspecified. Here the last occurrence of each element decides it, so only membership and uniqueness are promised.
- Mongo.ValueLe: embedded documents all compare equal when sorting. MongoDB's element-wise order for them is not modelled.
- Strings.ParseInt: surrounding whitespace and `_` separators, which Python's `int` also accepts, are not modelled.
- ControllerLegacy.ArgsOf: stored `fqdn` and `ip_address` values that are neither text nor `null` are read as `None`.
- ModelsAwsRoute53.CreateRequests: stated for addresses stored as canonical text, the form every stored record has. Non-canonical text fails in `IPv4Address`, which `CreateNeverFailsOnReplies` covers.

## Findings

| source | as written | input that shows it | evidently intended | confidence | as-written member | corrected member |
|---|---|---|---|---|---|---|
| catweazle/crud/instances.py:38-43 | `_next_num` checks `(indicator + suffix).replace("NUM", n)`, but `create` stores `indicator.replace("NUM", n) + suffix` (lines 59-62) | suffix `.NUM`, indicator `hNUM`, stored fqdn `h1.NUM`: number 1 is chosen again and its stored name is taken | the names checked are the names stored; the class methods `FirstFree`, `NextNum`, `Create` and the v2 `Create` run this corrected allocator | not executed | CrudInstances.NumInSuffixReusesNumber | CrudInstances.NextNumMinimal |
| catweazle/controller/api/v2/instances.py:166-176 | `fields.discard("ipa_otp")` on the set `["ipa_otp"]` leaves no field, and no field list means no projection | an authenticated user asks `GET /instances/<id>?fields=ipa_otp` | an authenticated user never receives the one-time password | not executed | ControllerV2.GetLeaksOtp | ControllerV2.GetHidesOtp |
| catweazle/controller/api/v2/instances.py:202-214 | `fields.discard("ipa_otp")` on the set `{"ipa_otp"}` leaves no field, and no field list means no projection | an authenticated user searches with `fields=ipa_otp` | search results never carry the one-time password; `Controller.Search` runs the corrected search | not executed | ControllerV2.SearchLeaksOtp | ControllerV2.SearchHidesOtp |
| catweazle/main.py:187-198 | `CrudForeman(...)` is called without `ssl_ca`, a parameter without a default (catweazle/crud/foreman.py:20) | any `foreman` setting with one section: the call raises `TypeError` | one backend per section with at most one realm provider, every constructor given an `ssl_ca` (the settings have no such key; the model leaves TLS out) | not executed | MainSetup.SetupAsWrittenBuildsNothing | MainSetup.SetupAtMostOneRealm |
