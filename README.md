# parse-rs client core, modelled in Dafny

This project models the decision logic of `parse-rs`, a Rust client for the
Parse Server REST API. Sending bytes over HTTP cannot be verified, but
deciding what to send can. So every call is modelled in two steps:

- a **request plan**: the verb, the endpoint, the query parameters or body,
  the master-key flag and the session-token override;
- the **wire request** that one of the client's two dispatch procedures
  builds from that plan: the API path and the headers after merging with the
  client's default headers.

The network is a parameter `Transport` (a function from wire request to
reply), so a property that holds for every transport holds whatever the
server does. A pre-flight error means no request is sent, and the model
states this by proving the outcome does not depend on the transport.

Modules follow the crate's files:

| module | models |
|---|---|
| `Wrappers`, `Json`, `Errors`, `Strings` | `Option`/`Result`, a tagged JSON value, the error variants the code raises, string helpers (trim, split, join, sorted de-duplication, decimal text) |
| `Dispatch` | the header and credential rules of `_get_with_url_params` and `_request`, the API path, and response classification (`src/client.rs`) |
| `Client` | `Parse::new` URL normalisation, the `session_token` field, upload URL and headers, master-key pre-checks, query execution (`src/client.rs`) |
| `QueryValues`, `Query` | the query state and its parameters as values, and the mutable `ParseQuery` builder over them (`src/query.rs`) |
| `Acl` | the `ParseACL` permission map, its setters, getters and JSON form (`src/acl.rs`) |
| `Objects` | `ParseObject` field operations, class-name and id guards, the delete-response check (`src/object.rs`) |
| `Common` | `Pointer`, `ParseDate`, `RelationOp`, `ParseRelation` (`src/types/common.rs`) |
| `Requests` | `_send_and_process_response` and the `get`/`post`/`put`/`delete` wrappers (`src/requests.rs`) |
| `User` | the session-token state machine of `ParseUserHandle` (`src/user.rs`) |
| `Session`, `Relations`, `Role`, `Config` | the plans and guards of `src/session.rs`, `src/relations.rs`, `src/role.rs`, `src/config.rs` |

Some things after sending are parameters rather than models:

- `Shape` is a predicate saying whether a JSON value decodes as the expected
  Rust type;
- `UrlParser` stands for `Url::parse`;
- `esc` stands for `regex::escape`.

These facts about the code are proved as lemmas:

- `_request` lets a stored session token outrank the master flag.
- The "master key if configured, else the stored token" choice in
  `src/relations.rs` and `src/role.rs` makes no difference on the wire
  (`Relations.PreferMasterIsPlain`).
- The master key always travels in the default headers when it is
  configured.

Where the code and its documentation disagree, the model follows the code:

- `ParseQuery::get` still sends `build_query_params()`, although its doc
  comment says it does not.
- `related_to` inserts only the `$relatedTo` key and keeps the other
  constraints.
- Appending an order key to an order of `Some("")` adds no comma.
- In `Parse::new`, every `https` URL is rebuilt from scheme, host and port,
  so its path is dropped. Only `http` URLs keep their sub-path
  (`Client.HttpsDropsPath`, `Client.SubPathKeptOnlyOverHttp`).

Four methods are worked examples with no contract of their own.
`Acl.AclScenario` mirrors the unit tests in `src/acl.rs`.
`Client.ClientScenario`, `Query.QueryScenario` and `Objects.ObjectScenario`
call the operations in sequence and assert the composed states that the
contracts imply.

Request headers and default headers are merged the way the HTTP library
documents: a header set on the request replaces the default of the same
name (`Dispatch.Merge`).

## Model

| member | source | states |
|---|---|---|
| `Json.Single` | src/config.rs:89 | a one-member object: exactly the given key, holding the given value |
| `Json.StringField` | src/object.rs:123-148 | a string member is read back iff the value is an object whose member is a string |
| `Strings.TrimEnd` | src/client.rs:206-208 | the result is a prefix of the input, does not end in the trimmed character, and only that character was removed |
| `Strings.TrimStart` | src/client.rs:1211 | the result is a suffix of the input, does not start with the trimmed character, and only that character was removed |
| `Strings.SplitJoin` | src/query.rs:346-369 | splitting a join of separator-free parts gives the parts back |
| `Strings.SortedUnique` | src/query.rs:346-369 | two strictly sorted sequences with the same members are equal, so sorting and de-duplicating is determined by the set of keys |
| `Strings.SortDedupSorted` | src/query.rs:353-354 | sort-and-dedup yields a strictly sorted sequence |
| `Strings.NatDecimalRoundTrip` | src/query.rs:381-386 | the decimal text of a number reads back as that number |
| `Dispatch.Merge` | src/client.rs:178-199 | every header comes from the request when the request sets it, otherwise from the defaults |
| `Dispatch.CredentialHeaders` | src/client.rs:1237-1279 | a credential yields exactly its own header with its own value, and nothing yields no header |
| `Dispatch.FirstPresent` | src/client.rs:1237-1279 | the first present candidate: none iff all are absent, and always one of the candidates |
| `Dispatch.DefaultHeaders` | src/client.rs:178-199 | the app id always; the master key when configured, else the JavaScript key, else the REST key; never a session token or content type |
| `Dispatch.DefaultHeadersPrecedence` | src/client.rs:178-199 | the default headers are the app id plus the first present of master, JavaScript and REST key |
| `Dispatch.GetCredential` | src/client.rs:1237-1279 | `_get_with_url_params`: an override wins; with the master flag the master key, or `MasterKeyRequired` when there is none; the error happens exactly then |
| `Dispatch.GetCredentialPrecedence` | src/client.rs:1237-1279 | the chosen credential is the first present of override, master key (under the flag), stored token, JavaScript key, REST key |
| `Dispatch.RequestCredential` | src/client.rs:1391-1412 | `_request`: the override or else the stored token wins over the master flag; refused only with the flag, no token and no master key; never a JavaScript or REST key |
| `Dispatch.RequestCredentialPrecedence` | src/client.rs:1391-1412 | the chosen credential is the first present of override, stored token and master key (under the flag) |
| `Dispatch.PrecedenceDiffers` | src/client.rs:1237-1279 | with both a token and a master key, the two procedures pick different credentials for the same master-flag call |
| `Dispatch.ApiPath` | src/client.rs:1211 | the path is `/parse/` plus the endpoint with all its leading slashes removed |
| `Dispatch.Prepare` | src/client.rs:1211-1279 | a wire request carries the API path of the plan; for a client whose stored URL `Parse::new` settled, the only pre-flight error is `MasterKeyRequired` under the master flag without a master key |
| `Dispatch.FetchWireHeaders` | src/client.rs:1237-1279 | a query request carries the app id, JSON content type, the configured master key, and the override as session token |
| `Dispatch.CallWireHeaders` | src/client.rs:1391-1419 | a `_request` carries the app id, the configured master key and the override as token, and has a content type exactly for POST, PUT and PATCH |
| `Dispatch.PreflightSendsNothing` | src/client.rs:1237-1279 | a refused plan gives the same error whatever the transport does |
| `Dispatch.FinishOutcomes` | src/client.rs:1313-1485 | results have the expected shape; a server error comes only from a non-2xx reply and carries its status; `_request` maps 204 to `{}`; a 2xx decode failure is `JsonDeserializationFailed`, recording the body its message embeds, for queries and `JsonError` for `_request`; an unreachable server is a transport error |
| `Dispatch.ExecuteOutcomes` | src/client.rs:1349-1487 | a result of a whole round trip has the expected shape; a server error needs a prepared request whose reply was non-2xx, with that status; an unreachable server is a transport error |
| `Dispatch.ServerErrorBody` | src/client.rs:1335-1344 | a non-success reply goes to the error table with its status and its JSON body, or with `{"code": status, "error": text}` when the body is not JSON |
| `Requests.Take` | src/requests.rs:61 | at most `n` characters, a prefix of the text, and the whole text when it is short enough |
| `Requests.NonJsonErrorBody` | src/requests.rs:55-64 | the fallback body names the status text and holds a snippet of at most 100 characters that is a prefix of the text |
| `Requests.ProcessErrorReply` | src/requests.rs:44-66 | a non-success JSON body is passed through unchanged, any other body is replaced by the fallback, and the status goes along |
| `Requests.ProcessSuccessReply` | src/requests.rs:21-43 | an empty or `{}` body with a unit result decodes as `null`; any other success is the body's own value, of the expected shape; a failure is `JsonDeserializationFailed`, recording the body text its message embeds |
| `Requests.WrappersDelegate` | src/requests.rs:71-103 | `get`/`post`/`put`/`delete` are `_request` calls with their verb, no master flag and no override; only `post` and `put` carry a body |
| `Requests.Discard` | src/session.rs:262-271 | discarding a reply succeeds iff the reply did and passes its error through |
| `Client.WithScheme` | src/client.rs:165-167 | the URL starts with `http://` or `https://`; one that already did is unchanged, others get `http://` prepended |
| `Client.StripParse` | src/client.rs:206-212 | one trailing `/parse` is removed, if present |
| `Client.ServerBaseHttp` | src/client.rs:169-227 | an `http` URL keeps its path, without trailing slashes and without one trailing `/parse` |
| `Client.HttpsDropsPath` | src/client.rs:214-227 | an `https` URL is rebuilt as scheme, host and port, or is an `SdkError` without a host |
| `Client.SubPathKeptOnlyOverHttp` | src/client.rs:214-227 | an example of the two general lemmas above: the same sub-path is kept over `http` and dropped over `https` |
| `Client.New` | src/client.rs:155-243 | the client is created iff the URL settles; it holds the settled URL, the given keys, and no session token |
| `Client.Parse.constructor` | src/client.rs:229-242 | the fields are the given values and there is no session token |
| `Client.SettleServerUrl` | src/client.rs:169-227 | the step-by-step trimming and rebuilding of the parsed URL computes the settled base, or the `InvalidUrl` / cannot-be-a-base / missing-host error |
| `Client.Parse.SetSessionToken` | src/client.rs:246-248 | only the session token changes |
| `Client.Parse.SessionToken` | src/client.rs:271-273 | returns the stored token |
| `Client.Parse.IsAuthenticated` | src/client.rs:294-296 | true iff a session token is stored |
| `Client.UploadUrlParseBranch` | src/client.rs:359-378 | a server URL ending in `/parse` or `/parse/` gets `/files/<name>` after its trailing slashes are removed |
| `Client.UploadUrlOtherBranch` | src/client.rs:359-378 | any other server URL gets `/parse/files/<name>` |
| `Client.UploadHeaders` | src/client.rs:385-413 | the upload carries the session token if present, else the master key, else neither; plus the app id and the given MIME type |
| `Client.UploadRequest` | src/client.rs:353-413 | the upload fails with `InvalidUrl` iff its URL does not parse; otherwise it targets that URL with the merged headers |
| `Client.UploadCredentials` | src/client.rs:385-413 | on the wire, the upload carries the stored token and the configured master key |
| `Client.DeleteWithMasterKeyPlan` | src/client.rs:586-597 | refused with `MasterKeyRequired` iff there is no master key; otherwise DELETE with the master flag |
| `Client.SchemaPlan` | src/client.rs:727-1166 | every schema call is refused iff there is no master key, with its own message; otherwise it targets `schemas[/<class>]` with the master flag |
| `Client.SchemaPlanPrepares` | src/client.rs:727-1166 | with a master key, a schema call always reaches the network |
| `Client.AggregateRequest` | src/client.rs:518-538 | a query request to `aggregate/<class>` with the master flag and the given pipeline value, whatever its form, as its one parameter |
| `Client.DistinctIsAggregate` | src/query.rs:473-524 | `distinct` is an aggregation of its pipeline |
| `Client.ExecuteQueryRequest` | src/client.rs:606-628 | `execute_query` is `find` with the stored token as override |
| `Client.QueryCredentialsDiffer` | src/client.rs:606-650 | with both credentials, `find` sends the master key and `execute_query` sends the token, with the same parameters |
| `Client.StampClassName` | src/client.rs:638-650 | every decoded object gets the query's class name, and nothing else changes |
| `QueryValues.NewQuery` | src/query.rs:29-41 | no conditions, no master flag, and no limit, skip, order, include or keys |
| `QueryValues.RegexCondition` | src/query.rs:160-206 | `{"$regex": pattern}`, with `$options` exactly when modifiers are given |
| `QueryValues.OperatorRegexIsPlainRegex` | src/query.rs:160-185 | the operator form the string helpers use equals the regex condition without options |
| `QueryValues.SearchParams` | src/query.rs:217-247 | `$term` always; `$language`, `$caseSensitive` and `$diacriticSensitive` exactly when given |
| `QueryValues.SearchCondition` | src/query.rs:217-247 | the search parameters are nested under `$text` and `$search` |
| `QueryValues.RelatedToCondition` | src/query.rs:263-282 | an object with exactly `object`, decoding back to the parent pointer, and `key` |
| `QueryValues.AppendedOrder` | src/query.rs:307-318 | a comma and the key after a non-empty order; the key alone after none or an empty one |
| `QueryValues.AppendedOrderSegments` | src/query.rs:307-318 | appending a comma-free key adds exactly one segment after the old ones |
| `QueryValues.AscendingThenDescending` | src/query.rs:307-342 | ascending `x` then descending `y` gives `x,-y` |
| `QueryValues.MergedParts` | src/query.rs:346-369 | the merged keys are strictly sorted and are exactly the old non-empty segments plus the new keys |
| `QueryValues.MergeKeysMembers` | src/query.rs:346-369 | the stored text splits back into exactly those keys |
| `QueryValues.MergeKeysIdempotent` | src/query.rs:346-369 | repeating a merge with non-empty, comma-free keys changes nothing |
| `QueryValues.MergeNothingOnUnset` | src/query.rs:346-369 | merging no keys into an unset list gives the empty text |
| `QueryValues.QueryParamsSound` | src/query.rs:374-397 | each emitted parameter is the one its field calls for: `where` only with conditions, the others only when set |
| `QueryValues.QueryParamsComplete` | src/query.rs:374-397 | every parameter the state calls for is emitted |
| `QueryValues.QueryParamsOrdered` | src/query.rs:374-397 | parameters appear in the fixed order where, limit, skip, order, include, keys |
| `QueryValues.DistinctPipeline` | src/query.rs:480-523 | a `$match` of the conditions only when there are some, then a `$group` on `"$" + field` |
| `QueryValues.LimitParamAt` | src/query.rs:374-397 | the limit is emitted right after `where`, as decimal text |
| `QueryValues.FirstRequestParams` | src/query.rs:411-423 | `first` sends limit 1 and otherwise only parameters of the query |
| `QueryValues.CountRequestParams` | src/query.rs:457-469 | `count` sends limit 0 and ends with `count=1` |
| `QueryValues.DerivedRequests` | src/query.rs:399-524 | `get` sends the same parameters as `find`; `distinct` sends one parameter with the master flag; none of them passes an override |
| `QueryValues.FirstResult` | src/query.rs:435-440 | the first result, and none iff there are none |
| `QueryValues.DistinctValues` | src/query.rs:506-523 | the `objectId` of each result, in order |
| `Query.ParseQuery.constructor` | src/query.rs:29-41 | a fresh query is the new query state for the class |
| `Query.ParseQuery.Clone` | src/query.rs:411-469 | a fresh query with the same state |
| `Query.ParseQuery.SetMasterKey` | src/query.rs:54-57 | only the master flag changes |
| `Query.ParseQuery.AddSimpleCondition` | src/query.rs:60-63 | only the given key's condition is written, replacing any earlier one |
| `Query.ParseQuery.AddOperatorCondition` | src/query.rs:66-72 | only the given key is written, as `{op: value}` |
| `Query.ParseQuery.EqualTo` | src/query.rs:75-83 | the key holds the value itself |
| `Query.ParseQuery.NotEqualTo` | src/query.rs:86-91 | the key holds `{"$ne": value}` |
| `Query.ParseQuery.Exists` | src/query.rs:94-96 | the key holds `{"$exists": true}` |
| `Query.ParseQuery.DoesNotExist` | src/query.rs:99-101 | the key holds `{"$exists": false}` |
| `Query.ParseQuery.GreaterThan` | src/query.rs:104-109 | the key holds `{"$gt": value}` |
| `Query.ParseQuery.GreaterThanOrEqualTo` | src/query.rs:112-117 | the key holds `{"$gte": value}` |
| `Query.ParseQuery.LessThan` | src/query.rs:120-125 | the key holds `{"$lt": value}` |
| `Query.ParseQuery.LessThanOrEqualTo` | src/query.rs:128-133 | the key holds `{"$lte": value}` |
| `Query.ParseQuery.ContainedIn` | src/query.rs:136-141 | the key holds `{"$in": values}` |
| `Query.ParseQuery.NotContainedIn` | src/query.rs:144-149 | the key holds `{"$nin": values}` |
| `Query.ParseQuery.ContainsAll` | src/query.rs:152-157 | the key holds `{"$all": values}` |
| `Query.ParseQuery.StartsWith` | src/query.rs:160-166 | the key holds the regex `"^" + esc(prefix)` |
| `Query.ParseQuery.EndsWith` | src/query.rs:169-175 | the key holds the regex `esc(suffix) + "$"` |
| `Query.ParseQuery.Contains` | src/query.rs:179-185 | the key holds the regex `".*" + esc(s) + ".*"` |
| `Query.ParseQuery.MatchesRegex` | src/query.rs:189-206 | the key holds the regex with options exactly when modifiers are given |
| `Query.ParseQuery.Search` | src/query.rs:217-247 | the key holds the `$text` search condition |
| `Query.ParseQuery.RelatedTo` | src/query.rs:263-282 | only `$relatedTo` is written; every other constraint stays |
| `Query.ParseQuery.Limit` | src/query.rs:287-290 | only the limit changes |
| `Query.ParseQuery.Skip` | src/query.rs:293-296 | only the skip changes |
| `Query.ParseQuery.Order` | src/query.rs:301-304 | the order is replaced by the given text |
| `Query.ParseQuery.OrderByAscending` | src/query.rs:321-324 | the order is replaced by the key |
| `Query.ParseQuery.OrderByDescending` | src/query.rs:327-330 | the order is replaced by `-` and the key |
| `Query.ParseQuery.AppendOrderKey` | src/query.rs:307-318 | the order becomes the appended order |
| `Query.ParseQuery.AddAscendingOrder` | src/query.rs:333-336 | the ascending key is appended |
| `Query.ParseQuery.AddDescendingOrder` | src/query.rs:339-342 | the descending key is appended |
| `Query.ParseQuery.Include` | src/query.rs:346-357 | the include list becomes the sorted, de-duplicated merge |
| `Query.ParseQuery.Select` | src/query.rs:360-369 | the key list becomes the sorted, de-duplicated merge |
| `Query.ParseQuery.BuildQueryParams` | src/query.rs:374-397 | the emitted parameters are those of the state, which is unchanged |
| `Query.ParseQuery.FindPlan` | src/query.rs:399-432 | the `find` request of the current state |
| `Query.ParseQuery.FirstPlan` | src/query.rs:411-440 | the `first` request: a clone with limit 1 |
| `Query.ParseQuery.GetPlan` | src/query.rs:444-454 | the `get` request to `classes/<class>/<id>` |
| `Query.ParseQuery.CountPlan` | src/query.rs:457-469 | the `count` request: limit 0 and `count=1` |
| `Query.ParseQuery.DistinctPlan` | src/query.rs:473-524 | the `distinct` aggregation request |
| `Query.ParseQuery.AggregatePlan` | src/query.rs:538-546 | the aggregation request for the query's class, with the stages sent as one array |
| `Acl.RoleKey` | src/acl.rs:96-121 | a role's key is `role:` followed by the role name |
| `Acl.WithRead` | src/acl.rs:37-45 | sets one entry's read flag, keeping its write flag (none for a new entry) and every other entry |
| `Acl.WithWrite` | src/acl.rs:51-59 | sets one entry's write flag, keeping its read flag and every other entry |
| `Acl.ReadOf` | src/acl.rs:126-173 | true iff the entry exists and its read flag is `Some(true)` |
| `Acl.WriteOf` | src/acl.rs:126-173 | true iff the entry exists and its write flag is `Some(true)` |
| `Acl.ReadAfterSet` | src/acl.rs:37-173 | a read getter returns what was just set; writes and other entries are unaffected |
| `Acl.WriteAfterSet` | src/acl.rs:51-173 | a write getter returns what was just set; reads and other entries are unaffected |
| `Acl.Explicit` | src/acl.rs:184-200 | keeps exactly the entries with at least one explicit flag, unchanged |
| `Acl.AclJson` | src/acl.rs:184-200 | the serialised object has exactly the explicit entries as members |
| `Acl.AclFromJson` | src/acl.rs:205-211 | a decoded map has exactly the object's members as keys |
| `Acl.LevelRoundTrip` | src/acl.rs:184-211 | one entry decodes back to itself |
| `Acl.AclRoundTrip` | src/acl.rs:184-211 | decoding the serialised map gives back its explicit entries |
| `Acl.ParseACL.constructor` | src/acl.rs:27-31 | a new ACL has no entries |
| `Acl.ParseACL.SetPublicReadAccess` | src/acl.rs:37-45 | sets the read flag of `*` |
| `Acl.ParseACL.SetPublicWriteAccess` | src/acl.rs:51-59 | sets the write flag of `*` |
| `Acl.ParseACL.SetUserReadAccess` | src/acl.rs:66-74 | sets the read flag of the user id |
| `Acl.ParseACL.SetUserWriteAccess` | src/acl.rs:81-89 | sets the write flag of the user id |
| `Acl.ParseACL.SetRoleReadAccess` | src/acl.rs:96-105 | sets the read flag of `role:<name>` |
| `Acl.ParseACL.SetRoleWriteAccess` | src/acl.rs:112-121 | sets the write flag of `role:<name>` |
| `Common.NewPointer` | src/types/common.rs:17-23 | type tag `Pointer`, class and id unchanged |
| `Common.NewDate` | src/types/common.rs:38-43 | type tag `Date`, the text unchanged |
| `Common.AddRelation` | src/types/common.rs:64-69 | operation `AddRelation` over exactly the given objects |
| `Common.RemoveRelation` | src/types/common.rs:71-76 | operation `RemoveRelation` over exactly the given objects |
| `Common.NewRelation` | src/types/common.rs:94-99 | type tag `Relation` and the given class |
| `Common.PointerRoundTrip` | src/types/common.rs:6-23 | a pointer's JSON decodes back to it |
| `Common.PointersJson` | src/types/common.rs:6-23 | one JSON pointer per pointer, in order |
| `Common.RelationOpJson` | src/types/common.rs:50-76 | exactly `__op` and `objects`, and each object decodes back to its pointer |
| `Objects.NewObject` | src/object.rs:58-67 | the given class, no fields, no id, no dates, no ACL |
| `Objects.FieldOpJson` | src/object.rs:84-118 | `__op` names the operation, with `amount` for an increment and `objects` for the array operations |
| `Objects.FieldOpRoundTrip` | src/object.rs:84-118 | a field operation decodes back to itself |
| `Objects.DecrementIsNegatedIncrement` | src/object.rs:92-94 | a decrement is the increment by the negated amount, which stays in range |
| `Objects.ParseObject.constructor` | src/object.rs:58-67 | a new object has the new-object state |
| `Objects.ParseObject.Set` | src/object.rs:69-72 | only the given field is written |
| `Objects.ParseObject.SetAcl` | src/object.rs:80-82 | only the ACL changes |
| `Objects.ParseObject.Increment` | src/object.rs:84-90 | only the field is written, as an `Increment` operation |
| `Objects.ParseObject.Decrement` | src/object.rs:92-94 | the field holds the increment by the negated amount |
| `Objects.ParseObject.AddToArray` | src/object.rs:96-102 | only the field is written, as an `Add` operation |
| `Objects.ParseObject.AddUniqueToArray` | src/object.rs:104-110 | only the field is written, as an `AddUnique` operation |
| `Objects.ParseObject.RemoveFromArray` | src/object.rs:112-118 | only the field is written, as a `Remove` operation |
| `Objects.CheckTarget` | src/object.rs:189-213 | accepts iff the class name is valid and the id, when given, is non-empty; an empty class name is reported first, then an empty id |
| `Objects.CheckTargetMessages` | src/object.rs:156-176 | the first-character message appears exactly when the first character is wrong, and the character-set message exactly when a later character is |
| `Objects.CreateObjectPlan` | src/object.rs:151-182 | POST `classes/<class>` iff the class name is valid |
| `Objects.RetrieveObjectPlan` | src/object.rs:184-217 | GET `classes/<class>/<id>` iff the class name is valid and the id non-empty |
| `Objects.UpdateObjectPlan` | src/object.rs:219-253 | PUT `classes/<class>/<id>` under the same guards |
| `Objects.DeleteObjectPlan` | src/object.rs:255-281 | DELETE `classes/<class>/<id>` under the same guards |
| `Objects.GuardsSendNothing` | src/object.rs:189-280 | the three id calls refuse the same inputs with the same error |
| `Objects.DeleteOutcome` | src/object.rs:282-294 | success iff the reply is an empty object; any other object is `UnexpectedResponse` |
| `Objects.DeleteNoContent` | src/object.rs:282-294 | a 204 reply to a delete is a success |
| `User.SignupToken` | src/user.rs:35-46 | the token is the reply's `sessionToken` member |
| `User.UserToken` | src/user.rs:10-32 | the reply's optional `sessionToken` member |
| `User.SignupOutcome` | src/user.rs:80-97 | success stores the reply's token; failure keeps the old token |
| `User.LoginOutcome` | src/user.rs:99-115 | success stores the reply's optional token, which may clear it; failure keeps the old one |
| `User.MeOutcome` | src/user.rs:118-127 | no token gives `SessionTokenMissing`; the token never changes |
| `User.LogoutOutcome` | src/user.rs:130-147 | no token gives `SessionTokenMissing`; success clears the token; failure keeps it |
| `User.PasswordResetOutcome` | src/user.rs:150-169 | the token never changes; success is unit, failure is the request's error |
| `User.BecomeUserOutcome` | src/user.rs:174-212 | success keeps the target token; failure restores the old token |
| `User.UserPlansAnonymous` | src/user.rs:80-169 | every user request uses no master flag and no override |
| `User.TokenlessSendsNothing` | src/user.rs:118-133 | without a token, `me` and `logout` fail the same way whatever the transport |
| `User.BecomeUserSendsTarget` | src/user.rs:195-201 | the request of `become_user` carries the target token |
| `User.BecomeUserFailureRestores` | src/user.rs:207-210 | after a failed `become_user` the client is what it was |
| `User.SignupThenLogout` | src/user.rs:80-147 | a logout after a successful signup sends the new token and, on success, leaves no token |
| `User.ParseUserHandle.constructor` | src/user.rs:70-77 | the handle works on the given client |
| `User.ParseUserHandle.Signup` | src/user.rs:80-97 | the result and new token are the signup outcome; nothing else in the client changes |
| `User.ParseUserHandle.Login` | src/user.rs:99-115 | the result and new token are the login outcome; nothing else changes |
| `User.ParseUserHandle.Me` | src/user.rs:118-127 | the result is the `me` outcome and the client is unchanged |
| `User.ParseUserHandle.Logout` | src/user.rs:130-147 | the result and new token are the logout outcome; nothing else changes |
| `User.ParseUserHandle.RequestPasswordReset` | src/user.rs:150-169 | the result is the reset outcome and the client is unchanged |
| `User.ParseUserHandle.BecomeUser` | src/user.rs:174-212 | the result and final token are the `become_user` outcome; nothing else changes |
| `Session.CurrentSessionPlan` | src/session.rs:153-161 | refused with `SessionTokenMissing` iff there is no token; otherwise GET `sessions/me`, no flag, no override |
| `Session.AllSessionsEndpoint` | src/session.rs:429-432 | `sessions?` and the query string when given, else `sessions` |
| `Session.AllSessionsEndpointInjective` | src/session.rs:429-432 | different query-string choices give different endpoints |
| `Session.AllSessionsResult` | src/session.rs:420-438 | the `results` array, each a session, or the request's error |
| `Session.CurrentSessionCredential` | src/session.rs:153-161 | with a token, the request carries it |
| `Session.AdminCallsCredential` | src/session.rs:210-438 | the admin calls use the master flag and no override, are refused iff there is neither token nor master key, and send the stored token when there is one |
| `Session.DeleteSessionNoContent` | src/session.rs:262-271 | a 204 reply to a session delete is `Ok(())` |
| `Relations.PreferMasterCall` | src/relations.rs:43-48 | the master flag iff a master key is configured; the stored token as override only without one |
| `Relations.PreferMasterIsPlain` | src/relations.rs:43-48 | on the wire that choice equals a plain call, which is never refused |
| `Relations.RelationEditPlan` | src/relations.rs:20-127 | empty targets are refused first, then empty parts; otherwise PUT to the parent with one relation operation |
| `Relations.RelationEditBody` | src/relations.rs:39-41 | the body names exactly the relation key, holds the operation asked for, and its objects decode back to the targets |
| `Relations.RelationEditSends` | src/relations.rs:39-48 | an edit that passes its guards reaches the network as a plain PUT |
| `Relations.UpdatedDate` | src/relations.rs:66 | the date wraps the reply's `updatedAt`, or the error passes through |
| `Role.NewRoleJson` | src/role.rs:48-58 | exactly `name` and `ACL`, and the ACL decodes back to its explicit entries |
| `Role.PointersTo` | src/role.rs:188-191 | one pointer to the class per id, in order |
| `Role.CreatedRole` | src/role.rs:88-107 | name and ACL as sent, id and creation date from the reply, no update date, no other members |
| `Role.UsersEditPlan` | src/role.rs:177-280 | refused iff there are no user ids; otherwise a PUT of `users` with `_User` pointers under the master-preferring rule |
| `Role.AddChildRolesPlan` | src/role.rs:291-334 | refused iff there are no ids; otherwise a PUT of `roles` with `_Role` pointers |
| `Role.EditBodies` | src/role.rs:177-376 | each body names one relation, holds the operation asked for, and decodes back to pointers to the ids |
| `Role.RoleCallsArePlain` | src/role.rs:84-166 | create, get and delete send what the plain wrapper sends, and are never refused |
| `Role.RemoveChildRolesPreflight` | src/role.rs:345-376 | removing child roles is refused iff there is neither a token nor a master key, even for an empty list |
| `Role.DeleteRoleDiscards` | src/role.rs:143-166 | deleting a role succeeds iff the request does, whatever the body |
| `Config.GetConfigPlan` | src/config.rs:42-58 | refused iff there is no master key; otherwise GET `config` with the master flag |
| `Config.UpdateConfigPlan` | src/config.rs:72-99 | the master key is checked before emptiness; the body is `{"params": …}` |
| `Config.ConfigCallsCarryMasterKey` | src/config.rs:42-99 | on the wire both calls carry the master key, and the stored token when there is one |

## Left out

- HTTP sending, async scheduling and concurrency: the model is one sequential client, and the network is the parameter `Transport`.
- `HeaderValue::from_str` failures and `Client::builder` failure: header values are plain strings.
- `Url::parse`: a parameter `UrlParser` returning the scheme, host, port and serialisation. `Url::join` is not modelled: a wire request carries its path.
- `serde_json` text: JSON is a datatype and maps are compared as values. The text of `where` is not specified, because it depends on key order. A serialisation failure is treated as impossible.
- JSON floating-point numbers: numbers are integers.
- `regex::escape`: the parameter `esc`. No claim is made that the pattern matches the literal.
- The second `Url::parse` of the stored server URL in `_get_with_url_params` and `_request`, and its `InvalidUrl` error: the stored URL is one `Parse::new` produced from a successful parse, so `Dispatch.Prepare` does not model that branch.
- Acl.AclFromJson: decodes only the map form of an access level (`{"read": …, "write": …}`), and a `ParseDate` is read only as an object; serde's derived decoders also accept the sequence form (`[true, false]`), which is not modelled.
- `char::is_alphabetic` and `is_alphanumeric`: restricted to ASCII letters and digits.
- `ParseError::from_response` and its code table: the error `Server(status, body)` records its two inputs.
- The Debug text of `UnexpectedResponse`: the variant carries the JSON value.
- Errors.JsonDeserializationFailed: the variant records only the body text that the source's message embeds; the serde error text, and the URL in the message of `_send_and_process_response`, are dropped.
- Decoding a reply into a Rust type: the parameter `Shape`, plus predicates for the reply shapes the core reads from.
- The upload body bytes and the `FileField` built from the upload reply.
- Logging.
- `ParseConfig::get`, the date deserialisers and `get` in `src/object.rs`: typed accessors with no decision logic.
- `src/schema.rs`, `src/file.rs`, `src/roles.rs`, `src/cloud.rs`, `src/installation.rs`, `src/analytics.rs`, `src/geopoint.rs` and the chrono conversions in `src/types/date.rs`: these files are not part of this model.
- Objects.ParseObject.Decrement: requires `amount != i64::MIN`, because the source negates it and that overflows.
