# Fundraiser-Ngo-API: the single-table key scheme, in Dafny

Fundraiser-Ngo-API is an AWS Lambda back end that stores four kinds of
record in one DynamoDB table, `NGOdetails`:

- NGOs;
- fundraisers run by an NGO;
- fundraisers run by an individual;
- updates posted on a fundraiser.

Another file of the `fundraiser` package, `fundraiser.go`, stores
fundraisers under raw keys. It declares the same error variables as
`fundraiser_ngo.go`, and main.go routes none of its functions. The model
calls it the legacy fundraiser file.

Every record is filed under a `(pk, sk)` pair. Each half of the pair is a
fixed tag glued to a caller-supplied id:

| record | pk | sk |
|---|---|---|
| NGO | `"DetailsNGO"` | `"Ngo" + ngoId` |
| fundraiser of an NGO | `"Ngo" + ngoId` | `"Fundraiser" + fundraiserId` |
| fundraiser of a person | `"Individual" + emailId` | `"Fundraiser" + fundraiserId` |
| update of a fundraiser | `"Fundraiser" + fundraiserId` | `"Update" + updateId` |
| legacy fundraiser | `ngoId` | `fundraiserId` |

Each kind has five operations:

- Fetch: a point read.
- FetchMany: a partition query with a `begins_with` condition on the sort key.
- Create: decode the body, tag the key fields, upsert.
- Update: decode, run an existence Fetch, upsert.
- Delete: remove the key without checking that it exists.

The Lambda handler routes each request on the single string
`HTTPMethod + "|" + PathParameters["method"]`.

The model is laid out as follows:

- `outcomes.dfy`: the error values and their messages.
- `storage.dfy`: the table, a class whose only field is a `map` from
  `Key(pk, sk)` to attribute maps. Its invariant is that every item is stored
  at the key its own `pk`/`sk` attributes name. It also holds the read
  primitives `GetItem` and `Query`.
- `keys.dfy`: the tags and the key builders.
- `ngo.dfy`, `fundraiser_ngo.dfy`, `fundraiser_individual.dfy`, `update.dfy`
  and `fundraiser.dfy`: one module per Go file. Reads are functions over the
  table's map. Create, Update and Delete are methods that modify the table.
- `lifecycle.dfy`: how the packages interact through the shared table.
- `router.dfy`: the dispatch switch, as main.go's ordered list of cases tried first to last.

Failures of the storage service and of the marshalling layer are boolean
parameters (`getFails`, `queryFails`, `putFails`, `deleteFails`,
`unmarshalFails`, `marshalFails`). A request body is an `Option` of the
decoded record: `None` means the JSON did not decode.

A point read of an absent key is not an error. The SDK's `GetItem` then
returns no item, and unmarshalling that gives the zero record with no
error. So Fetch of an absent key returns the record whose fields are all
empty. The Update operations rely on exactly this: they reject only when the
fetched record has an empty sort-key field. The model follows the code
here, rather than the description of Fetch as failing on a missing record.

## Model

| member | source | states |
|---|---|---|
| Outcomes.MessageInjective | Fundraiser-Ngo-API/pkg/ngo/ngo.go:16-25 | the eight error messages are pairwise distinct, so a caller can tell every failure apart by its text |
| Keys.Tagged | Fundraiser-Ngo-API/pkg/ngo/ngo.go:40 | a tagged id starts with the tag and the rest of it is the id |
| Keys.NgoKey | Fundraiser-Ngo-API/pkg/ngo/ngo.go:40-51 | an NGO is filed in the partition "DetailsNGO" under the sort key "Ngo" followed by its id |
| Keys.FundraiserNgoKey | Fundraiser-Ngo-API/pkg/fundraiser/fundraiser_ngo.go:38-39 | a fundraiser of an NGO is filed in the partition "Ngo" + ngoId under "Fundraiser" + fundraiserId |
| Keys.FundraiserIndividualKey | Fundraiser-Ngo-API/pkg/fundraiser/fundraiser_individual.go:30-31 | a fundraiser of a person is filed in the partition "Individual" + emailId under "Fundraiser" + fundraiserId |
| Keys.UpdateKey | Fundraiser-Ngo-API/pkg/update/update.go:35-36 | an update is filed in the partition "Fundraiser" + fundraiserId under "Update" + updateId |
| Keys.TaggedInjective | Fundraiser-Ngo-API/pkg/fundraiser/fundraiser_individual.go:30-31 | two ids tagged with the same tag are equal iff the ids are equal |
| Keys.TaggedNeverRaw | Fundraiser-Ngo-API/pkg/fundraiser/fundraiser_ngo.go:38-39 | a tagged id never equals the bare id |
| Keys.KeysInjective | Fundraiser-Ngo-API/pkg/update/update.go:35-36 | each kind's key determines the ids it was built from |
| Keys.PartitionsDisjoint | Fundraiser-Ngo-API/pkg/update/update.go:35 | the partitions "DetailsNGO", "Ngo"+x, "Individual"+e and "Fundraiser"+f never coincide, whatever the ids |
| Keys.KindsNeverCollide | Fundraiser-Ngo-API/pkg/ngo/ngo.go:141-142 | keys built by the four key builders never coincide, so the Create, Update and Delete of the four tagged kinds, except UpdateFundraiserNgo, never overwrite another kind's record; UpdateFundraiserNgo and the raw-key Create, Update and Delete of fundraiser.go are the exceptions |
| Storage.ContainsIffOccurs | Fundraiser-Ngo-API/pkg/ngo/ngo.go:78 | the `contains` scan holds iff the filter string occurs at some position of the attribute |
| Storage.GetItem | Fundraiser-Ngo-API/pkg/ngo/ngo.go:55-60 | a failed call gives "failed to fetch record"; otherwise the item at the key, or the empty item when the key is absent |
| Storage.Query | Fundraiser-Ngo-API/pkg/fundraiser/fundraiser_ngo.go:73-86 | `pk = :pk AND begins_with(sk, :sk)`: exactly the items of the partition whose sort key begins with the prefix, with their stored values |
| Storage.Table.PutItem | Fundraiser-Ngo-API/pkg/ngo/ngo.go:151-160 | a put either fails and changes nothing, or stores the item at its own key and leaves every other key alone |
| Storage.Table.DeleteItem | Fundraiser-Ngo-API/pkg/ngo/ngo.go:207-222 | a delete either fails and changes nothing, or removes exactly the one key, present or not |
| Ngos.ToItem | Fundraiser-Ngo-API/pkg/ngo/ngo.go:27-36 | marshalling an Ngo and reading it back gives the same Ngo; the item's key is (pk, ngoId) |
| Ngos.Tag | Fundraiser-Ngo-API/pkg/ngo/ngo.go:141-142 | the stored record is keyed at ("DetailsNGO", "Ngo"+ngoId), and only the two key fields change |
| Ngos.FetchNgo | Fundraiser-Ngo-API/pkg/ngo/ngo.go:38-71 | reads exactly ("DetailsNGO", "Ngo"+ngoId); storage error gives "failed to fetch record", decode error gives "failed to unmarshal record"; an absent key gives the zero record |
| Ngos.FetchNgos | Fundraiser-Ngo-API/pkg/ngo/ngo.go:72-127 | lists exactly the items with pk "DetailsNGO", sk beginning "Ngo", ngoCountry containing `countries` and ngoCategory containing `categories`; an empty listing is success |
| Ngos.FetchNgosFilterHolds | Fundraiser-Ngo-API/pkg/ngo/ngo.go:78 | every listed NGO's country and category contain the filter strings as substrings |
| Ngos.Save | Fundraiser-Ngo-API/pkg/ngo/ngo.go:144-161 | marshal failure, then put failure, else the record is written at its own key and returned |
| Ngos.Missing | Fundraiser-Ngo-API/pkg/ngo/ngo.go:175 | the existence test: a successful fetch whose NgoId is empty; Ngos.MissingIffAbsent relates it to the table |
| Ngos.CreateNgo | Fundraiser-Ngo-API/pkg/ngo/ngo.go:128-162 | an undecodable body gives "invalid user data" and no write; otherwise the table becomes the old table with ("DetailsNGO", "Ngo"+ngoId) set to the tagged record, which is returned |
| Ngos.MissingIffAbsent | Fundraiser-Ngo-API/pkg/ngo/ngo.go:173-177 | the existence test fires iff the fetch succeeded and the NGO's key is absent from the table |
| Ngos.UpdateNgo | Fundraiser-Ngo-API/pkg/ngo/ngo.go:164-198 | rejects with "user.User does not exist", without writing, iff the fetch succeeded and the key is absent; a failed fetch skips the test; otherwise writes the same tagged record as CreateNgo |
| Ngos.DeleteNgo | Fundraiser-Ngo-API/pkg/ngo/ngo.go:200-225 | removes exactly ("DetailsNGO", "Ngo"+ngoId) from the `ngoId` query parameter, with no existence check; its only error is "could not delete item" |
| Ngos.CreateThenFetch | Fundraiser-Ngo-API/pkg/ngo/ngo.go:140-161 | after the create write, FetchNgo with the raw id returns the stored record, whose NgoId is "Ngo"+id |
| Ngos.CreateThenList | Fundraiser-Ngo-API/pkg/ngo/ngo.go:72-78 | after the create write, FetchNgos lists the record iff it passes the country/category filter |
| Ngos.DeleteThenFetch | Fundraiser-Ngo-API/pkg/ngo/ngo.go:200-225 | after the delete, FetchNgo returns the zero record, so a later update is rejected |
| FundraisersNgo.ToItem | Fundraiser-Ngo-API/pkg/fundraiser/fundraiser_ngo.go:25-34 | marshalling a FundraiserNgo and reading it back gives the same record, keyed by (ngoId, fundraiserId) |
| FundraisersNgo.Tag | Fundraiser-Ngo-API/pkg/fundraiser/fundraiser_ngo.go:109-110 | the tagged record is keyed at ("Ngo"+ngoId, "Fundraiser"+fundraiserId), other fields unchanged |
| FundraisersNgo.FetchFundraiserNgo | Fundraiser-Ngo-API/pkg/fundraiser/fundraiser_ngo.go:36-67 | reads exactly ("Ngo"+ngoId, "Fundraiser"+fundraiserId), with the fetch and unmarshal error paths |
| FundraisersNgo.FetchFundraisersNgo | Fundraiser-Ngo-API/pkg/fundraiser/fundraiser_ngo.go:68-97 | lists exactly the items of partition "Ngo"+ngoId whose sk begins "Fundraiser" |
| FundraisersNgo.ListingScoped | Fundraiser-Ngo-API/pkg/fundraiser/fundraiser_ngo.go:70 | a listing never holds another NGO's fundraiser or any NGO detail record |
| FundraisersNgo.Save | Fundraiser-Ngo-API/pkg/fundraiser/fundraiser_ngo.go:113-126 | marshal failure, then put failure, else the record is written at its own key |
| FundraisersNgo.Missing | Fundraiser-Ngo-API/pkg/fundraiser/fundraiser_ngo.go:141 | the existence test: a successful fetch whose FundraiserId is empty; FundraisersNgo.MissingIffAbsent relates it to the table |
| FundraisersNgo.CreateFundraiserNgo | Fundraiser-Ngo-API/pkg/fundraiser/fundraiser_ngo.go:98-127 | decode failure gives "invalid user data" and no write; otherwise the tagged record overwrites whatever was at its key |
| FundraisersNgo.MissingIffAbsent | Fundraiser-Ngo-API/pkg/fundraiser/fundraiser_ngo.go:139-143 | the existence test fires iff the fetch succeeded and the tagged key is absent |
| FundraisersNgo.UpdateFundraiserNgo | Fundraiser-Ngo-API/pkg/fundraiser/fundraiser_ngo.go:129-158 | checks the tagged key (a failed fetch skips the check), then writes the body with untagged key fields at (ngoId, fundraiserId) |
| FundraisersNgo.UpdateLeavesTaggedRecord | Fundraiser-Ngo-API/pkg/fundraiser/fundraiser_ngo.go:144-157 | the untagged write lands at a different key from the tagged record, which reads back unchanged |
| FundraisersNgo.DeleteFundraiserNgo | Fundraiser-Ngo-API/pkg/fundraiser/fundraiser_ngo.go:160-187 | removes exactly the tagged key from the `ngoId`/`fundraiserId` query parameters, with no existence check |
| FundraisersNgo.CreateThenFetch | Fundraiser-Ngo-API/pkg/fundraiser/fundraiser_ngo.go:109-126 | after the create write, Fetch with the raw ids returns the tagged record |
| FundraisersNgo.CreateThenList | Fundraiser-Ngo-API/pkg/fundraiser/fundraiser_ngo.go:68-97 | after the create write, the NGO's listing holds the tagged record |
| FundraisersIndividual.ToItem | Fundraiser-Ngo-API/pkg/fundraiser/fundraiser_individual.go:14-26 | marshalling and reading back is the identity; the key is (emailId, fundraiserId) |
| FundraisersIndividual.Tag | Fundraiser-Ngo-API/pkg/fundraiser/fundraiser_individual.go:103-104 | the tagged record is keyed at ("Individual"+emailId, "Fundraiser"+fundraiserId), other fields unchanged |
| FundraisersIndividual.FetchFundraiserIndividual | Fundraiser-Ngo-API/pkg/fundraiser/fundraiser_individual.go:28-59 | reads exactly ("Individual"+emailId, "Fundraiser"+fundraiserId), with the fetch and unmarshal error paths |
| FundraisersIndividual.FetchFundraisersIndividual | Fundraiser-Ngo-API/pkg/fundraiser/fundraiser_individual.go:60-91 | lists exactly the items of partition "Individual"+emailId whose sk begins "Fundraiser" |
| FundraisersIndividual.ListingScoped | Fundraiser-Ngo-API/pkg/fundraiser/fundraiser_individual.go:62 | a listing never holds another email's fundraisers nor an NGO's fundraiser of the same id |
| FundraisersIndividual.Save | Fundraiser-Ngo-API/pkg/fundraiser/fundraiser_individual.go:107-120 | marshal failure, then put failure, else the record is written at its own key |
| FundraisersIndividual.Missing | Fundraiser-Ngo-API/pkg/fundraiser/fundraiser_individual.go:135 | the existence test: a successful fetch whose IndividualFundraiserId is empty; FundraisersIndividual.MissingIffAbsent relates it to the table |
| FundraisersIndividual.CreateFundraiserIndividual | Fundraiser-Ngo-API/pkg/fundraiser/fundraiser_individual.go:92-121 | decode failure gives "invalid user data" and no write; otherwise the tagged record is upserted and returned |
| FundraisersIndividual.MissingIffAbsent | Fundraiser-Ngo-API/pkg/fundraiser/fundraiser_individual.go:133-137 | the existence test fires iff the fetch succeeded and the tagged key is absent |
| FundraisersIndividual.UpdateFundraiserIndividual | Fundraiser-Ngo-API/pkg/fundraiser/fundraiser_individual.go:123-155 | rejects with "user.User does not exist" iff the fetch succeeded and the key is absent; otherwise tags and writes at the key Create uses |
| FundraisersIndividual.DeleteFundraiserIndividual | Fundraiser-Ngo-API/pkg/fundraiser/fundraiser_individual.go:157-184 | removes exactly the tagged key from the `emailId`/`fundraiserId` query parameters, with no existence check |
| FundraisersIndividual.CreateThenFetch | Fundraiser-Ngo-API/pkg/fundraiser/fundraiser_individual.go:102-120 | after the create write, Fetch with the raw ids returns the tagged record |
| Updates.ToItem | Fundraiser-Ngo-API/pkg/update/update.go:24-30 | marshalling and reading back is the identity; the key is (fundraiserId, updateId) |
| Updates.Tag | Fundraiser-Ngo-API/pkg/update/update.go:108-109 | the tagged record is keyed at ("Fundraiser"+fundraiserId, "Update"+updateId), other fields unchanged |
| Updates.FetchUpdate | Fundraiser-Ngo-API/pkg/update/update.go:32-64 | reads exactly ("Fundraiser"+fundraiserId, "Update"+updateId), with the fetch and unmarshal error paths |
| Updates.FetchUpdates | Fundraiser-Ngo-API/pkg/update/update.go:65-96 | lists exactly the items of partition "Fundraiser"+fundraiserId whose sk begins "Update" |
| Updates.ListingScoped | Fundraiser-Ngo-API/pkg/update/update.go:67 | a listing never holds another fundraiser's updates, nor any NGO, NGO-fundraiser or individual-fundraiser record |
| Updates.Save | Fundraiser-Ngo-API/pkg/update/update.go:112-125 | marshal failure, then put failure, else the record is written at its own key |
| Updates.Missing | Fundraiser-Ngo-API/pkg/update/update.go:140 | the existence test: a successful fetch whose UpdateId is empty; Updates.MissingIffAbsent relates it to the table |
| Updates.CreateUpdate | Fundraiser-Ngo-API/pkg/update/update.go:97-126 | decode failure gives "invalid user data" and no write; otherwise the tagged record is upserted and returned |
| Updates.MissingIffAbsent | Fundraiser-Ngo-API/pkg/update/update.go:139-142 | the existence test fires iff the fetch succeeded and the tagged key is absent |
| Updates.UpdateUpdate | Fundraiser-Ngo-API/pkg/update/update.go:128-160 | rejects with "user.User does not exist" iff the fetch succeeded and the key is absent; otherwise tags and writes at the Create key |
| Updates.DeleteUpdate | Fundraiser-Ngo-API/pkg/update/update.go:162-189 | removes exactly the tagged key from the `fundraiserId`/`updateId` query parameters, with no existence check |
| Updates.CreateThenFetch | Fundraiser-Ngo-API/pkg/update/update.go:108-125 | after the create write, FetchUpdate with the raw ids returns the tagged record |
| Fundraisers.ToItem | Fundraiser-Ngo-API/pkg/fundraiser/fundraiser.go:26-35 | marshalling and reading back is the identity; the key is (ngoID, fundraiserId) verbatim |
| Fundraisers.FetchFundraiser | Fundraiser-Ngo-API/pkg/fundraiser/fundraiser.go:37-64 | reads the caller's (ngoId, fundraiserId) as (pk, sk) with no tagging, with the fetch and unmarshal error paths |
| Fundraisers.FetchFundraisers | Fundraiser-Ngo-API/pkg/fundraiser/fundraiser.go:65-93 | a single point read of (ngoId, "fundraiser"), returning the item there (empty when absent) |
| Fundraisers.FetchFundraisersIsPointRead | Fundraiser-Ngo-API/pkg/fundraiser/fundraiser.go:66-76 | writing any other sort key of the partition leaves FetchFundraisers' result unchanged: it is not a prefix query |
| Fundraisers.Save | Fundraiser-Ngo-API/pkg/fundraiser/fundraiser.go:104-117 | marshal failure, then put failure, else the body is written at its raw key |
| Fundraisers.CreateFundraiser | Fundraiser-Ngo-API/pkg/fundraiser/fundraiser.go:94-118 | decode failure gives "invalid user data"; otherwise the body is upserted verbatim at (ngoID, fundraiserId) and returned |
| Fundraisers.Missing | Fundraiser-Ngo-API/pkg/fundraiser/fundraiser.go:131 | the existence test: a successful fetch whose FundraiserId is empty; Fundraisers.MissingIffAbsent relates it to the table |
| Fundraisers.MissingIffAbsent | Fundraiser-Ngo-API/pkg/fundraiser/fundraiser.go:130-133 | the existence test fires iff the fetch succeeded and either the raw key is absent or the fundraiser id is empty |
| Fundraisers.UpdateFundraiser | Fundraiser-Ngo-API/pkg/fundraiser/fundraiser.go:120-148 | rejects iff the existence test fires (a failed fetch skips it); otherwise writes the body verbatim |
| Fundraisers.DeleteFundraiser | Fundraiser-Ngo-API/pkg/fundraiser/fundraiser.go:150-173 | removes the raw (ngoId, fundraiserId) key from the query parameters, with no existence check |
| Fundraisers.CreateThenFetch | Fundraiser-Ngo-API/pkg/fundraiser/fundraiser.go:104-117 | after the create write, FetchFundraiser with the same ids returns the body |
| Lifecycle.QueryIgnoresOtherPartition | Fundraiser-Ngo-API/pkg/ngo/ngo.go:207-222 | removing a key outside a partition leaves every query of that partition unchanged |
| Lifecycle.DeleteNgoKeepsFundraisers | Fundraiser-Ngo-API/pkg/ngo/ngo.go:200-225 | deleting an NGO does not cascade: its fundraisers are still listed and still readable |
| Lifecycle.DeleteFundraiserNgoKeepsUpdates | Fundraiser-Ngo-API/pkg/fundraiser/fundraiser_ngo.go:160-187 | deleting an NGO's fundraiser leaves the updates of every fundraiser in place |
| Lifecycle.DeleteFundraiserIndividualKeepsUpdates | Fundraiser-Ngo-API/pkg/fundraiser/fundraiser_individual.go:157-184 | deleting an individual's fundraiser leaves the updates of every fundraiser in place |
| Lifecycle.LegacyReadsUntaggedWrite | Fundraiser-Ngo-API/pkg/fundraiser/fundraiser_ngo.go:144-157 | the record UpdateFundraiserNgo writes under raw ids is what the legacy FetchFundraiser reads at those ids |
| Lifecycle.UntaggedUpdateOverwritesNgo | Fundraiser-Ngo-API/pkg/fundraiser/fundraiser_ngo.go:129-158 | the exception to disjoint kinds: a fundraiser body with ids ("DetailsNGO", "Ngo" + n) that was created passes UpdateFundraiserNgo's existence check, and its untagged write lands on NGO n's key, which then reads back with every detail empty |
| Lifecycle.UntaggedUpdateReachesTaggedKey | Fundraiser-Ngo-API/pkg/fundraiser/fundraiser_ngo.go:129-158 | a body whose ids are already tagged skips the existence check when the fetch fails, and the untagged write lands on the tagged fundraiser key, where FetchFundraiserNgo reads the body back |
| Lifecycle.LegacyWriteOverwritesNgo | Fundraiser-Ngo-API/pkg/fundraiser/fundraiser.go:94-148 | the legacy Create, and the legacy Update once NGO n exists (its check then passes), write a body with ids ("DetailsNGO", "Ngo" + n) onto NGO n's key, which then reads back with every detail empty |
| Lifecycle.ExampleKeys | Fundraiser-Ngo-API/pkg/fundraiser/fundraiser_ngo.go:38-39 | NGO "123" is filed at ("DetailsNGO", "Ngo123") and its fundraiser "7" at ("Ngo123", "Fundraiser7"), with the update and individual keys alike |
| Router.Dispatch | Fundraiser-Ngo-API/main.go:33-34 | `handler`'s switch key: the HTTP method, "|" and the `method` path parameter, read as "" when absent; its routing is stated by Router.EndpointReachesHandler and Router.OnlyEndpointsRoute |
| Router.JoinUnique | Fundraiser-Ngo-API/main.go:34 | joining two strings with a pipe character is injective when the expected parts contain no pipe |
| Router.JoinedInjective | Fundraiser-Ngo-API/main.go:34 | two endpoints whose halves hold no pipe join to the same string only when they are the same endpoint |
| Router.SwitchFromSelects | Fundraiser-Ngo-API/main.go:34-91 | whatever the switch selects, it selects through a case whose joined string equals the key, and with the table "NGOdetails"; otherwise it falls to the default |
| Router.SwitchFromReaches | Fundraiser-Ngo-API/main.go:34-91 | a case whose endpoint no earlier case repeats is taken on its own joined string |
| Router.RoutesWellFormed | Fundraiser-Ngo-API/main.go:38-89 | every case compares against its handler's endpoint, whose halves hold no pipe and whose name is not empty, and no case repeats an earlier case's endpoint |
| Router.EndpointReachesHandler | Fundraiser-Ngo-API/main.go:33-93 | a request with a handler's HTTP method and method name reaches that handler, whatever other parameters it carries |
| Router.OnlyEndpointsRoute | Fundraiser-Ngo-API/main.go:33-93 | a routed request carries exactly its handler's HTTP method and method name, and the table "NGOdetails"; anything else falls through |
| Router.EndpointsDistinct | Fundraiser-Ngo-API/main.go:38-89 | distinct handlers answer to distinct (method, name) pairs |
| Router.WrongVerbFallsThrough | Fundraiser-Ngo-API/main.go:90-91 | "POST" with the name "getNgo" reaches UnhandledMethod |

## Left out

- `main` (the Lambda start-up and AWS session): environment and network I/O.
- The DynamoDB service. The table is a map; calls to it are point reads,
  begins-with queries, puts and deletes; each call's failure is a boolean
  parameter. Result order, pagination, consistency and capacity errors are
  not modelled, so listings are maps from key to record.
- The expression builder of FetchNgos and its error return: with fixed
  condition names it has no failing input.
- JSON and attribute-value (un)marshalling. The decoded body is an
  `Option`; marshal and unmarshal failures are boolean parameters. The SDK
  stores an empty string as NULL, and DynamoDB rejects a key attribute that
  is empty, in a put, a delete or a point read alike. These rejections are
  folded into the `putFails`, `deleteFails` and `getFails` parameters; the
  abstract table itself admits an item under an empty sort key.
- Fundraisers.FetchFundraisers: returns the raw item read at
  (ngoId, "fundraiser"). It does not model unmarshalling that single map
  into a slice of fundraisers, whose outcome depends on SDK internals.
- Storage.Contains: DynamoDB's `contains` on strings is modelled as plain
  substring matching, and an absent attribute fails the filter. Other
  attribute types and further edge cases are not modelled.
- The handlers package (HTTP responses built by `apiResponse`, which is not
  part of this model) and all logging.
- Concurrency: the existence check and the write of each Update are not
  atomic in the service. The model runs one request at a time.
