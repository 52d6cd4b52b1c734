# kandigpanel backend, modelled in Dafny

kandigpanel is a small serverless backend that provisions hosting "panels" on a
remote provisioning API. Each HTTP handler runs a fixed chain of guards: a bearer
token, the method, the parameters, the role, the account type, and existence or
uniqueness in the database. The chain ends in a lookup or a change on one of three
MongoDB collections: `users`, `panelConfigs` and `userPanels`.

The model has one Dafny module per handler file, on top of six shared modules and one module that links handlers:

- `Wrappers`: `Option`.
- `Documents`: the three kinds of document and the identity a token carries. It also
  holds `findOne`/`deleteOne` by one field (first match in natural order), uniqueness
  of a field, and the parsing `new ObjectId(string)` does. That parse accepts exactly
  24 hexadecimal digits.
- `Database`: class `Store`, whose three collections are `seq` fields. Its driver
  operations are methods (`insertOne`, `updateOne` with `$set`, `deleteOne`). Each
  states the counts it reports and the whole new state. `nextId` stands for the
  `_id` generator.
- `Http`: responses, the truthiness of request fields, `status || 500`, and the
  replies of the remote API.
- `Auth`: `authenticateToken`. The token is `split(' ')[1]` of the `Authorization`
  header, kept only when non-empty. Token verification is a function parameter.
- `HtmlEscape`: `escapeHTML` from create-panel, with an inverse (`Unescape`) to show
  that escaping loses nothing.
- `PanelOwnership`: links register, login and create-panel. The UUID that
  registration stores as `accountId` reaches create-panel as the token's `id`,
  where it never converts to an ObjectId.

Handlers that write to the database are methods `Handle(db: Store, ...)` with
`modifies db`. Their `ensures` give the response and the new collections on every
branch. list-panels and create-admin-panel change nothing and are functions.

Things outside the process are inputs of each handler:

- the verification of a token (`verify`);
- the bcrypt comparison (`matches`) and the bcrypt hash (`hashed`);
- the signed token (`sign`);
- the outcome of each `fetch` (`Reply`: it threw, or a status and a JSON body);
- whether the notification call threw;
- the clock (`now`) and `uuidv4()` (`uuid`).

Some behaviours of the code are modelled as written and proved:

- Registration stores a 36-character UUID as `accountId`, and login puts it into the
  token as `id`. create-panel converts that `id` with `new ObjectId(...)`, which
  throws for it. So a registered user never gets a panel recorded: the remote server
  is created, nothing is inserted, and the answer is 500
  (`PanelOwnership.RegisteredAccountCannotOwnPanels`, `CreatePanel.Handle`).
- create-panel records the owner under `userId` and no `accountId`. list-panels
  filters on `accountId`, so a caller with an `id` never sees such a record. A caller
  whose token has no `id` sees all of them, because the undefined filter value is sent
  as `null` (`ListPanels.NewPanelListing`).
- delete-panel looks the record up by `idServer` alone: any authenticated caller may
  delete any panel (`DeletePanel.GateIgnoresIdentity`, `DeletePanel.Handle`).
- A user update that changes nothing answers 404. So does a config update, either
  for an absent type or when the PUT repeats the stored values and the stored
  `updatedAt` already equals the current time (`ManageUsers.EmptyPutIsNoOp`,
  `ManageConfigs.PutModifies`, `ManageConfigs.Update`).
- User PUT does not check the new username, so it can break username uniqueness
  (`ManageUsers.PutCanDuplicateUsername`). Registration and user POST preserve it.
  Every config handler preserves "one config per type".
- When the notification call throws after the insert, the record stays and the
  caller gets 500.

## Model

| member | source | states |
|---|---|---|
| Documents.FindFirst | api/admin/manage-configs.js:36 | the position of the first document whose field equals the key, and None exactly when no document has it |
| Documents.DeleteFirst | api/admin/manage-configs.js:87 | `deleteOne` removes exactly the first matching document (one fewer, the rest as a multiset) and nothing when none matches |
| Documents.FindFirstUnique | api/auth/login.js:43-46 | with a unique field, the lookup by a document's value finds that very document |
| Documents.DeleteFirstUnique | api/delete-panel.js:81 | with a unique `_id`, `deleteOne` removes exactly that document and keeps the others in order |
| Documents.UniqueAppend | api/admin/manage-configs.js:52-57 | inserting a document whose key value is not found keeps the key unique |
| Documents.UniqueReplace | api/admin/manage-configs.js:67-72 | an update that keeps the key value keeps the key unique |
| Documents.UniqueDelete | api/admin/manage-configs.js:87 | deleting a document (by any field) keeps any key unique |
| Documents.IdsBelowDelete | api/delete-panel.js:81 | deleting keeps the generated `_id`s increasing and below the next one |
| Documents.HexValue | api/create-panel.js:81 | a value exists exactly when every character is a hexadecimal digit, and it is below 16 to the length |
| Documents.ParseObjectId | api/admin/manage-users.js:80 | `new ObjectId(s)` succeeds exactly for 24 hexadecimal digits |
| Documents.View | api/admin/manage-users.js:33 | the projection without `password` keeps every other field: id, name, role, account type, `accountId`, `createdAt` and last login |
| Database.ApplyConfigSet | api/admin/manage-configs.js:67-72 | a config `$set` keeps the type and `createdAt` and stamps `updatedAt` |
| Database.ApplyUserSet | api/admin/manage-users.js:70-82 | a user `$set` changes exactly the fields it holds and keeps every other field |
| Database.Store.NewObjectId | api/create-panel.js:81 | a fresh `_id`, above every stored one; the collections unchanged |
| Database.Store.InsertUser | api/auth/register.js:55 | the user is appended under a fresh `_id`; nothing else changes |
| Database.Store.InsertPanel | api/create-panel.js:80-88 | the panel is appended under a fresh `_id`; nothing else changes |
| Database.Store.InsertConfig | api/admin/manage-configs.js:57 | the config is appended; nothing else changes |
| Database.Store.UpdateConfigByType | api/admin/manage-configs.js:69-74 | the first config of the type gets the `$set`, and the count is 1 exactly when it changed |
| Database.Store.DeleteConfigByType | api/admin/manage-configs.js:87-89 | the first config of the type is removed, and the count says whether one was |
| Database.Store.UpdateUserById | api/admin/manage-users.js:79-84 | the user with the `_id` gets the `$set`, and the count is 1 exactly when it changed |
| Database.Store.SetLastLogin | api/auth/login.js:43-46 | only the `lastLogin` of the user with the `_id` changes |
| Database.Store.DeleteUserById | api/admin/manage-users.js:97-99 | the user with the `_id` is removed, and the count says whether one was |
| Database.Store.DeletePanelById | api/delete-panel.js:81-82 | the panel with the `_id` is removed, and the count says whether one was |
| Http.StatusOr500 | api/create-panel.js:118 | the status when it is nonzero, and 500 when it is 0 |
| Http.RemoteFailure | api/create-panel.js:117-119 | the code is `status \|\| 500`; the body is the remote body, or the fallback message for a `null` body |
| Auth.Split | api/create-panel.js:25 | `split(' ')` yields at least one field |
| Auth.SplitNoSpace | api/create-panel.js:25 | no field of `split(' ')` holds a space |
| Auth.JoinSplit | api/create-panel.js:25 | joining the fields with single spaces gives the string back: splitting loses nothing |
| Auth.SplitJoin | api/create-panel.js:25 | splitting the join of space-free fields gives the fields back |
| Auth.BearerToken | api/create-panel.js:25 | the token is non-empty and has no space, and there is none without a header |
| Auth.BearerTokenOfHeader | api/create-panel.js:25-26 | `scheme token...` yields the token, and an empty second field yields none |
| Auth.NoSpaceNoToken | api/create-panel.js:25-26 | a header without a space yields no token |
| Auth.Authenticate | api/create-panel.js:24-33 | no token, a rejected token, or the verified identity, and verification is consulted only on an extracted token |
| Auth.Rejection | api/create-panel.js:26-29 | 401 without a token, 403 for a rejected one |
| Auth.AdminGate | api/admin/manage-configs.js:22-24 | the request passes exactly for a verified admin token; no token gets 401, a rejected token 403, a verified non-admin 403 |
| HtmlEscape.EscapeChar | api/create-panel.js:13-20 | each of the five specials has its entity; every other character stands for itself; no entity holds `<`, `>`, `"` or `'` |
| HtmlEscape.EscapeHTML | api/create-panel.js:11-22 | the output is never shorter, and has the same length exactly when the input holds no special |
| HtmlEscape.EscapedHasNoMarkup | api/create-panel.js:12-21 | escaped text holds no `<`, `>`, `"` or `'` |
| HtmlEscape.EscapePlain | api/create-panel.js:12-21 | text without specials is left as it is |
| HtmlEscape.EscapeConcat | api/create-panel.js:12-21 | escaping distributes over concatenation |
| HtmlEscape.UnescapeStep | api/create-panel.js:13-20 | decoding an entity of the table gives back its character |
| HtmlEscape.UnescapeEscape | api/create-panel.js:11-22 | decoding escaped text gives back the original: escaping is injective |
| CreatePanel.Gate | api/create-panel.js:24-51 | the request passes exactly with a verified token, GET, all six parameters and role `user`; otherwise no token 401, a rejected token 403, non-GET 405, a missing parameter 400, a role other than `user` 403, in that order |
| CreatePanel.MethodBeforeParameters | api/create-panel.js:39-47 | a wrong method gets 405 whatever the parameters and role |
| CreatePanel.ParametersBeforeRole | api/create-panel.js:45-51 | a missing parameter gets 400 whatever the role |
| CreatePanel.TierDenial | api/create-panel.js:58-68 | a denial exactly when the account type restricts panel types and the requested one is not allowed |
| CreatePanel.UuidOwnerNotConvertible | api/create-panel.js:81 | an `id` of 36 characters cannot be converted to the owner's ObjectId |
| CreatePanel.Handle | api/create-panel.js:35-124 | guard responses with nothing inserted; 403 tier denial; 404 for a missing config; after a successful remote call exactly one record with the remote ids, type, time and owner is appended; 500 if the notification throws; 500 with nothing inserted when the call throws, an ok reply is `null`, the owner id does not convert or `result` is missing; otherwise nothing is inserted and the remote status (or 500) is passed on |
| DeletePanel.Gate | api/delete-panel.js:12-43 | the request passes exactly with a verified token, GET and an `idServer`; otherwise no token 401, a rejected token 403, non-GET 405, a missing `idServer` 400, in that order |
| DeletePanel.GateIgnoresIdentity | api/delete-panel.js:52-57 | the caller's role and id never change the outcome of the checks |
| DeletePanel.RemoteRefusal | api/delete-panel.js:89-93 | a non-200 reply is never answered with 200; an error body gives its status (or 500) and its truthy `message` or else the fallback text; a thrown call, an unreadable or a `null` body gives 500 |
| DeletePanel.Handle | api/delete-panel.js:29-99 | guard responses, 404 for a missing record or config, and a non-200 reply all leave the store unchanged; a 200 reply removes exactly the found record (by `_id`) and answers 200, or 500 with the partial-failure message when another request removed it first |
| ListPanels.OwnedBy | api/list-panels.js:40 | exactly the records whose `accountId` equals the caller's id, never more than the collection |
| ListPanels.OwnedBySubsequence | api/list-panels.js:38-41 | the filtered listing keeps the collection's order |
| ListPanels.OwnedByAppend | api/list-panels.js:40 | the filter distributes over concatenation |
| ListPanels.NewPanelListing | api/list-panels.js:40 | a record without `accountId` is invisible to a caller with an id and visible to one without |
| ListPanels.Handle | api/list-panels.js:8-49 | 401/403 for token failures, 405 for non-GET, 200 exactly otherwise: an admin gets every record, anyone else exactly `OwnedBy` their token's `id` |
| CreateAdminPanel.Gate | api/create-admin-panel.js:8-35 | the request passes exactly with a verified admin token, GET and a `username`; otherwise no token 401, a rejected token 403, a non-admin 403, non-GET 405, a missing `username` 400, in that order |
| CreateAdminPanel.RoleBeforeMethod | api/create-admin-panel.js:23-29 | a non-admin gets 403 whatever the method |
| CreateAdminPanel.Relay | api/create-admin-panel.js:50-54 | 200 with the remote body exactly when the reply is ok with a truthy `status`; otherwise the remote status (or 500) and body; 500 when the call throws or an ok reply is `null` |
| CreateAdminPanel.Handle | api/create-admin-panel.js:19-61 | guard responses; 404 without a `public` config whatever the remote reply; otherwise the relayed reply; 200 only after a found config and a 200-range reply |
| ManageConfigs.Lookup | api/admin/manage-configs.js:30-41 | with a type, at most one config, of that type, and none exactly when no config has it; without a type, all configs |
| ManageConfigs.LookupUnique | api/admin/manage-configs.js:34-37 | with one config per type, the lookup returns the config of that type |
| ManageConfigs.NewConfig | api/admin/manage-configs.js:57 | the inserted config holds the body's type, `domain`, `ptla`, `ptlc`, `eggId`, `nestId` and `loc`, with `createdAt` now and no `updatedAt` |
| ManageConfigs.PutOverwrites | api/admin/manage-configs.js:67-72 | PUT replaces the six fields by the body's (absent as null), keeps type and `createdAt`, and stamps `updatedAt` |
| ManageConfigs.PutModifies | api/admin/manage-configs.js:67-76 | a PUT on an existing type changes it unless it repeats the previous update at the same instant |
| ManageConfigs.Create | api/admin/manage-configs.js:46-59 | 400 or 409 with the configs unchanged, or exactly one config appended (201); one config per type is preserved |
| ManageConfigs.Update | api/admin/manage-configs.js:61-79 | 400 without a type; 404 when none has it; otherwise the config of the type is overwritten, and the answer is 200 exactly when something changed; one config per type is preserved |
| ManageConfigs.Remove | api/admin/manage-configs.js:81-94 | 400 without a type; otherwise the config of the type is removed (404 when there was none); one config per type is preserved |
| ManageConfigs.Handle | api/admin/manage-configs.js:18-103 | 401/403 for non-admins with no change; GET lists; POST 400/409 with no change or appends exactly one config (201); PUT 400, 404 or the overwrite (200 when it changed); DELETE 400 or removes the config of the type (404 if none); 405 otherwise; one config per type is preserved |
| ManageUsers.Views | api/admin/manage-users.js:32-35 | every user, in order, without the password |
| ManageUsers.NewUser | api/admin/manage-users.js:52-59 | the inserted user has the hashed password, no `accountId`, `lastLogin` null, and role and account type unchecked |
| ManageUsers.BuildChange | api/admin/manage-users.js:70-77 | the update is built field by field as exactly the truthy fields of the body |
| ManageUsers.PutChangesOnlySupplied | api/admin/manage-users.js:70-82 | PUT sets each supplied field (the password as the hash) and keeps every other field |
| ManageUsers.EmptyPutIsNoOp | api/admin/manage-users.js:70-86 | a PUT supplying nothing leaves the user unchanged |
| ManageUsers.PutCanDuplicateUsername | api/admin/manage-users.js:64-89 | renaming a user onto another's name breaks username uniqueness |
| ManageUsers.Create | api/admin/manage-users.js:37-62 | 400 or 409 with the users unchanged, or exactly one user appended under the next `_id` (201), keeping usernames unique |
| ManageUsers.Update | api/admin/manage-users.js:64-89 | 400 without an id, 500 for an id that is not an ObjectId, 404 when no user has it; otherwise that user gets the update, and the answer is 200 exactly when something changed |
| ManageUsers.Remove | api/admin/manage-users.js:91-104 | 400 or 500 with the users unchanged; otherwise the user with the id is removed (404 when there was none), keeping usernames unique |
| ManageUsers.Handle | api/admin/manage-users.js:20-113 | 401/403 for non-admins with no change; GET lists without passwords; POST 400/409 with no change or appends one user (201) and keeps usernames unique; PUT 400, 500 for a bad id, 404 or the update (200 when it changed); DELETE 400, 500, or removes the user with the id (404 if none); 405 otherwise |
| Register.Validate | api/auth/register.js:7-31 | the request passes exactly when it is a POST with all four fields and an accepted role and account type pair; otherwise 405 or 400 |
| Register.AdminExactlyWhenAdminAccount | api/auth/register.js:26-31 | an accepted registration has role `admin` exactly when its account type is `admin` |
| Register.NewUser | api/auth/register.js:45-53 | the stored user has the hashed password, the fresh `accountId` and `lastLogin` null |
| Register.Handle | api/auth/register.js:6-63 | validation failures and a duplicate username (409) change nothing; otherwise exactly one user is appended (201, with the plaintext password echoed); usernames stay unique |
| Login.Payload | api/auth/login.js:34-39 | the token payload is the user's `accountId` as `id`, name, role and account type |
| Login.Check | api/auth/login.js:9-32 | accepted exactly for a POST with both fields whose first same-named user has a matching password; an unknown name and a wrong password both get the same 401 |
| PanelOwnership.RegisteredUserCannotOwnPanels | api/auth/login.js:34-39 | a token issued to a user with a 36-character `accountId` can never own a created panel |
| PanelOwnership.RegisteredAccountCannotOwnPanels | api/auth/register.js:45-55 | the token of a user inserted by registration with a 36-character UUID never converts to a panel owner |
| Login.Handle | api/auth/login.js:9-54 | refusals change nothing; success answers 200 with the signed payload and changes only that user's `lastLogin` |

## Left out

- Token signing and verification (jsonwebtoken), and bcrypt salting, hashing and comparison. They are inputs: `verify`, `sign`, `matches` and `hashed`.
- The remote calls (`fetch`). Their outcome is an input. The request URLs, with their query strings built from the parameters and the config, are not modelled.
- The notification: its message template, the `toUpperCase` of package and type, and the escaping of the three fields it embeds. Only whether the call threw is an input; `escapeHTML` itself is modelled.
- Database connection failures and other driver exceptions. A caught exception is the body `Crashed`, whose message text (`error.message`) is not modelled. The fixed "Internal server error." answers of the admin handlers are modelled where the model can raise them: an unconvertible id.
- Concurrency between requests. The one exception is delete-panel: its `lostRace` input says whether another request removed the record while the remote call was in flight. That is the only way its partial-failure branch can be reached.
- The clock and `uuidv4()`. They are inputs (`now`, `uuid`). Uniqueness of the UUIDs is not modelled.
- Request fields that are not strings (numbers, arrays, objects in JSON bodies or repeated query keys). A request with no body at all is not modelled either.
- The `if (!req.user) return` line of each handler, which cannot be reached once a token has verified.
- The JSON key of the success flag (`success` in some handlers, `status` in others).
- `id_server` and the other remote identifiers are strings.
- `new ObjectId` of anything but a string (the driver's bson version is assumed to accept only 24 hexadecimal digits).
- The `_id` of a config document: configs carry none, so the GET listing lacks the `_id` of each returned document.
- Remote reply bodies other than `null` or an object (a number, string or array). `apiData.status` and `apiData || {…}` would treat those differently.
- The front-end login page script and the build configuration.
- CreatePanel.Handle: a call that throws after the remote server was created is modelled only by its response. The fact that a remote resource then exists with no local record is not stated.
- DeletePanel.Handle: the reply's body is read only when the status is not 200, and only its `message` is modelled.
