# Marmot Terraform provider — conversion and handler model

This project models the core of the Terraform provider for the Marmot data
catalog. The provider translates between Terraform's attribute model, where
every value is null, unknown or known, and the catalog's request and response
records. It also sequences those translations with calls to the catalog in
the Create/Read/Update/Delete handlers of three resources: assets, glossary
terms and lineage edges. The model also covers the provider's own
configuration step: it checks the host and API key and splits the scheme off
the host.

Modules:

- `Framework` (`framework.dfy`) — the tri-state values `TfString`, `TfInt64`,
  `TfBool`, `TfMap` and `TfSet`. Also `ValueString`, diagnostics, the
  `Reply` of a client call, and the framework conversions the provider
  relies on (`ElementsAs`, `SetValueFrom` with its duplicate-element
  error, `MapValueFrom`).
- `Strings` (`strings.dfy`) — Go's byte-wise string order and `sort.Strings`,
  written as an in-place insertion sort on an array. Also `strings.HasPrefix`
  and `strings.TrimPrefix`, and the decimal text `%d` produces.
- `Dynamic` (`dynamic.dfy`) — the `interface{}` values the catalog returns in
  metadata and property maps, and the two ways the provider renders them as
  text.
- `Asset` (`asset.dfy`) — the asset resource:
  - the request converters, including `mapToDictionary`, `mapToStringMap`
    and the nested links, sources and environments;
  - `updateModelFromResponse` and its helpers;
  - the handlers.
- `Glossary` (`glossary.dfy`) — the glossary term resource with its own null
  rules.
- `Lineage` (`lineage.dfy`) — the lineage edge resource.
- `Provider` (`provider.dfy`) — `Configure` and `Resources`.

The generated REST client is a datatype of total functions, one per endpoint.
Each handler returns the diagnostics it raises, the state it writes (`None`
when it writes none) and the log of client calls it made. The log lets the
contracts say "the client is not called" and "Update sends the ID held in
state".

Three behaviours of the code are worth stating on their own:

- Delete reports every client error, a not-found included, so deleting an
  object that is already gone is not idempotent.
- Lineage Update copies the plan into state without calling the catalog; it
  does not reject the change.
- The glossary term resource is defined, but `Resources` does not register
  it.

## Model

| member | source | states |
|---|---|---|
| Strings.SortStrings | internal/provider/asset_resource.go:456 | `sort.Strings` sorts a slice in place: afterwards it is ascending in Go's byte-wise string order and a permutation of what it held |
| Strings.SortedCopy | internal/provider/asset_resource.go:718-721 | copy-then-sort of a slice yields an ascending permutation of it |
| Strings.SortedUnique | internal/provider/asset_resource.go:718-721 | two ascending permutations of one multiset of strings are equal, so the sorted order of a set is unique |
| Strings.TrimPrefix | internal/provider/provider.go:97 | `strings.TrimPrefix` removes the prefix once when present (prefix + result is the input) and returns the input otherwise |
| Strings.DecimalRoundTrip | internal/provider/asset_resource.go:809-810 | the `%d` text of an integer reads back as that integer |
| Strings.DecimalInjective | internal/provider/asset_resource.go:809-810 | different integers never render to the same text |
| Framework.RepeatsAtTwoPositions | internal/provider/asset_resource.go:723-724 | the duplicate test `SetValueFrom` applies to a slice holds exactly when two different positions of the slice hold the same string |
| Dynamic.CoerceFacts | internal/provider/asset_resource.go:803-820 | nil and the empty string are dropped, integers become decimal text that reads back as the integer, booleans `true`/`false`, kept text is never empty except a float's |
| Asset.DictionaryExact | internal/provider/asset_resource.go:597-634 | a dictionary is never present and empty; it is present exactly when the map is known, has only string elements and has a known string; it then holds exactly the known string entries with their values |
| Asset.SortedKeys | internal/provider/asset_resource.go:607-612 | collecting a map's keys and sorting them yields an ascending sequence holding exactly the map's keys |
| Asset.ScanStopsAtFirst | internal/provider/asset_resource.go:614-625 | the non-string element the sorted scan stops at has the least such key |
| Asset.ScanComplete | internal/provider/asset_resource.go:614-634 | a scan that passes every key has seen only strings and kept exactly the known string entries |
| Asset.MapToDictionary | internal/provider/asset_resource.go:597-635 | null, unknown and empty maps are absent with no error; otherwise the result equals the `Dictionary` specification; a non-string element gives exactly one "Type Conversion Error" naming the type at the least such key, and no dictionary |
| Asset.MapToStringMap | internal/provider/asset_resource.go:637-659 | present exactly when the map is known with a known string entry, then exactly those entries; a non-string element is skipped, never an error; on convertible maps it agrees with `mapToDictionary` |
| Asset.ConvertExternalLinks | internal/provider/asset_resource.go:533-552 | absent for no links; otherwise the same length, element i from link i, and a null or unknown icon sent as `""` |
| Asset.ConvertSources | internal/provider/asset_resource.go:554-576 | absent for no sources; otherwise the same length, element i from source i, and a null priority sent as 0; no diagnostic exactly when every property map is convertible, and every diagnostic is a type conversion error |
| Asset.ConvertEnvironments | internal/provider/asset_resource.go:578-595 | absent for no environments; otherwise the same keys, each with its name, path and metadata dictionary; no diagnostic exactly when every metadata map is convertible |
| Asset.SortedServicesAndTags | internal/provider/asset_resource.go:453-462 | services are an ascending permutation of the set's elements; tags are an ascending permutation when the tag set is known and absent otherwise; the only error is an unknown services set |
| Asset.RequestMaps | internal/provider/asset_resource.go:464-488 | metadata, schema, links, sources and environments of a request follow their converters; no diagnostic exactly when every dictionary is convertible |
| Asset.ToCreateRequest | internal/provider/asset_resource.go:451-489 | the create request carries the plan's fields as `CreateRequestFor` specifies; no diagnostic exactly when the plan is convertible |
| Asset.ToUpdateRequest | internal/provider/asset_resource.go:491-531 | the same as the create request plus the user description, `""` when null or unknown; no diagnostic exactly when the plan is convertible |
| Asset.NormalizeTimestamp | internal/provider/asset_resource.go:661-670 | the empty string stays empty and text that does not parse is kept as it is |
| Asset.NullIfEmptyRoundTrip | internal/provider/asset_resource.go:685-715 | an empty wire string is null in state and any other is that text; reading the state back gives the wire text, and a null or non-empty state value survives the trip |
| Asset.CoercedMapFacts | internal/provider/asset_resource.go:801-822 | a key with a nil or empty-string value is dropped, a non-empty string is kept verbatim, an integer as decimal text that reads back as the integer, a boolean as `true`/`false` |
| Asset.ConvertMapToStringMapSorted | internal/provider/asset_resource.go:788-824 | the result's keys are among the map's, a key is kept exactly when its value has a text, and each kept key holds that text |
| Asset.ConvertModelExternalLinks | internal/provider/asset_resource.go:826-845 | one link per record, in order, an empty icon becoming null |
| Asset.ConvertModelSources | internal/provider/asset_resource.go:847-871 | one source per record, in order, with its priority, and its properties null when absent or empty |
| Asset.ConvertModelEnvironments | internal/provider/asset_resource.go:873-897 | the same keys, each with its name and path, and its metadata null when absent or empty |
| Asset.SortedSetValue | internal/provider/asset_resource.go:718-744 | when no string repeats, services and tags in state are known sets, ascending permutations of the record's list, and empty rather than null when the list is empty; a repeated string gives exactly one "Duplicate Set Element" error and an unknown set |
| Asset.RecordDiagnostics | internal/provider/asset_resource.go:718-744 | the record's conversion reports nothing exactly when neither providers nor tags repeat a string, and otherwise only duplicate-element errors |
| Asset.MetadataState | internal/provider/asset_resource.go:746-755 | state metadata holds the coerced entries of the record's metadata, and is an empty map, never null, when there are none |
| Asset.NestedState | internal/provider/asset_resource.go:767-783 | external links and sources are nil exactly when the record has none, otherwise converted element by element; environments hold the record's keys and are never nil |
| Asset.UpdateModelFromResponse | internal/provider/asset_resource.go:672-786 | returns a duplicate-element error for each of providers and tags that repeats a string; when neither does, every attribute of the state follows the record as `StateFor` specifies (IDs and names verbatim, timestamps normalised, optional text null exactly when empty, sets sorted, collections determinate) |
| Asset.ServicesStable | internal/provider/asset_resource.go:453-456 | services sent sorted and echoed by the catalog come back as the same sorted set, and sending that state again sends the same services |
| Asset.TagsStable | internal/provider/asset_resource.go:458-462 | known tags sent sorted and echoed come back as the same sorted set and are sent again unchanged; null or unknown tags are not sent and come back as a known empty set, not null |
| Asset.StateMapRoundTrip | internal/provider/asset_resource.go:757-765 | a map attribute built from a catalog string map holds only strings and converts back to that map, and a non-empty one is sent as the same dictionary |
| Asset.MetadataAbsentRoundTrip | internal/provider/asset_resource.go:627-634 | metadata with no known string entry is not sent, and absent metadata comes back as an empty map, not null |
| Asset.UserDescriptionRoundTrip | internal/provider/asset_resource.go:514-522 | a null or non-empty user description survives an update round trip |
| Asset.Create | internal/provider/asset_resource.go:314-352 | an unconvertible plan stops with an error before any call; otherwise exactly one post of the plan's request; a client error gives "Unable to create asset: …" and no state; an empty returned ID gives "API Error" and no state; a record repeating a provider or tag gives its duplicate-element errors and no state; otherwise the state built from the record |
| Asset.Read | internal/provider/asset_resource.go:354-381 | an empty ID gives "Configuration Error" without a call; otherwise one get of that ID; a client error, or a record repeating a provider or tag, gives its errors and no state; otherwise the state built from the record |
| Asset.Update | internal/provider/asset_resource.go:383-425 | an unconvertible plan stops before any call; otherwise one put of the plan's request to the ID held in the prior state, not the plan's; a client error, or a record repeating a provider or tag, gives its errors and no state; otherwise the state built from the record |
| Asset.Delete | internal/provider/asset_resource.go:427-445 | one delete of the stored ID; any client error is reported |
| Glossary.KnownOrEmpty | internal/provider/glossary_resource.go:299-305 | an optional text is sent as its value when known and as `""` when null or unknown |
| Glossary.MetadataRequestEntries | internal/provider/glossary_resource.go:320-330 | request metadata drops only null strings: an unknown string is sent as `""`, a known one verbatim, and an element of another type is left out |
| Glossary.ConvertOwners | internal/provider/glossary_resource.go:307-318 | owners are absent when the plan has none, otherwise one request per owner, in order, with id and type |
| Glossary.ConvertMetadata | internal/provider/glossary_resource.go:320-330 | request metadata holds the non-null string entries and is absent when the map is null or unknown or none remains |
| Glossary.ToCreateRequest | internal/provider/glossary_resource.go:288-333 | the create request carries name, definition, optional text, owners and metadata as `CreateRequestFor` specifies, and no diagnostic |
| Glossary.ToUpdateRequest | internal/provider/glossary_resource.go:335-377 | the update request carries the same fields by the same rules, and no diagnostic |
| Glossary.CreateAndUpdateAgree | internal/provider/glossary_resource.go:288-377 | the create and update requests built for one plan carry equal fields |
| Glossary.MetadataText | internal/provider/glossary_resource.go:414-421 | every response metadata key is kept, a string value verbatim |
| Glossary.ConvertOwnersFromTerm | internal/provider/glossary_resource.go:400-411 | response owners are nil when empty, otherwise the same length and order |
| Glossary.ConvertMetadataFromTerm | internal/provider/glossary_resource.go:413-427 | response metadata is null (not an empty map) when absent or empty, otherwise every entry as text |
| Glossary.UpdateModelFromResponse | internal/provider/glossary_resource.go:379-430 | every attribute follows the term as `StateFor` specifies: timestamps copied verbatim, description and parent null exactly when empty |
| Glossary.DescriptionRoundTrip | internal/provider/glossary_resource.go:299-301 | a null or non-empty description survives a round trip; an unknown one comes back null |
| Glossary.OwnersRoundTrip | internal/provider/glossary_resource.go:307-318 | known owners echoed by the catalog come back as the plan's owners |
| Glossary.MetadataRoundTrip | internal/provider/glossary_resource.go:320-330 | known string metadata echoed by the catalog comes back as the plan's map |
| Glossary.Create | internal/provider/glossary_resource.go:151-189 | one post of the plan's request; a client error gives "Unable to create glossary term: …" and no state; an empty returned ID gives "API Error" and no state; otherwise the state built from the term |
| Glossary.Read | internal/provider/glossary_resource.go:191-218 | an empty ID gives "Configuration Error" without a call; otherwise one get of that ID |
| Glossary.Update | internal/provider/glossary_resource.go:220-262 | one put of the plan's request to the ID held in the prior state |
| Glossary.Delete | internal/provider/glossary_resource.go:264-282 | one delete of the stored ID; any client error is reported |
| Lineage.Create | internal/provider/lineage_resource.go:93-116 | one post of the edge between the plan's source and target; a client error gives "Unable to create lineage: …" and no state; otherwise the plan with the returned ID and type, with no check for an empty ID |
| Lineage.Read | internal/provider/lineage_resource.go:118-134 | no call; the state written is the state read |
| Lineage.Update | internal/provider/lineage_resource.go:136-145 | no call; the new state is the plan |
| Lineage.Delete | internal/provider/lineage_resource.go:147-165 | one delete of the stored resource ID; any client error is reported |
| Provider.Configure | internal/provider/provider.go:61-112 | a null host and a null API key each add their attribute error, both in one call; any error means no client; otherwise scheme `http` exactly for an `http://` host, that prefix or `https://` removed once, so prefix + host is the configured host; base path `/api/v1` and the key in the `X-API-Key` header |
| Provider.Resources | internal/provider/provider.go:114-119 | the asset and the lineage resource, in that order; the glossary resource is not registered |

## Left out

- The generated REST client and its HTTP transport. Each endpoint is an abstract function returning a payload or an error text.
- Logging, schema declarations and validators, and the `Metadata`, `Schema`, `ImportState` and `Configure` boilerplate of the resources.
- Reading the plan, state and configuration into the model, and writing state back. These framework steps can raise diagnostics that the model does not represent.
- Go's map iteration order. Maps are Dafny maps; only the explicit sorts are modelled.
- `Asset.NormalizeTimestamp`: `time.Parse` and `Format` are a parameter, so only the empty-string and does-not-parse cases are stated.
- `Dynamic.Coerce` and `Dynamic.DefaultText`: the `%.6f` and `%v` texts of floats and other values are carried by the value, not computed.
- `Framework.ElementsAs` and `Framework.SetValueFrom` are the framework's conversions between sets and slices, taken by definition rather than proved.
- `Framework.SetValueFrom` reports a repeated string with one "Duplicate Set Element" error whose detail does not name the value; the framework reports each repeated pair and names it.
- Building a map attribute from a Go `map[string]string` cannot fail, so the model gives `MapValueFrom` no diagnostics.
- `Strings.SortStrings` is an insertion sort; Go's library uses a different algorithm with the same result.
- A non-map `interface{}` in a record's metadata or properties is modelled as absent, which is how the type assertion treats it.
