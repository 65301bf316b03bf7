# kdbx2bw in Dafny

A model of the core of kdbx2bw, which migrates a KeePass database into a Bitwarden
organization. The model covers three parts.

- **KeePass side.** `Keepass` flattens the decrypted group tree into
  (collection path, entry) pairs. It loads the database lazily, at most once, and reverses
  the flattened list (`_loadPasswords`, `getPasswords`).
- **Bitwarden client.** `Bitwarden` keeps a collection cache in front of the vault
  management API of `bw serve`. It has a dry-run mode, and its `createItem` recreates items
  by deleting exact-name duplicates before the create. The API is modelled as `Remote.Server`,
  an in-memory server that keeps collections, items and uploads and records every request in
  a trace. Request counts, request order and dry-run silence are therefore statements about
  that trace.
- **Migration.** `Migration` maps one KeePass entry to a Bitwarden `ItemTemplate` and unwraps
  attachment binaries. It then runs the whole transfer:
  - the sorted, distinct collection paths are created in one batch;
  - then, for each entry in order, one item create is followed by one upload per attachment.

Each state-changing method is proved against a function of the joint state
`Bitwarden.State(cache, store, trace)`. For example, `Bitwarden.CreateItem` ensures
`(Current(), id) == ItemStep(old(Current()), item, dryrun)`. The properties the source
promises are lemmas about those functions: counts per HTTP verb, which requests are sent and
in what order, what the store holds afterwards, dry-run silence, and the outcome of a
migration.

The server hands out ids `IdFor(n)` from a counter `nextId`. A store is *numbered*
(`Remote.Numbered`) when every stored id is `IdFor(k)` for some `k` below the counter. Every
request keeps a numbered store numbered, so each collection and item the server creates gets
an id that nothing stored before carries.

Modules: `Wrappers` (Option, Result, Outcome), `Text` (decimal index text, string order,
sort-and-deduplicate), `Kdbx` (the data kdbxweb hands over), `Keepass`, `BitwardenModels`
(the item schema), `OtpAuth` (the otpauth regular expression), `Remote` (the server),
`Bitwarden` and `Migration`.

## Model

| member | source | states |
|---|---|---|
| Text.NatToString | lib/api/bitwarden.ts:164 | The key `for..in` yields for an array index is a non-empty string of decimal digits. |
| Text.NatToStringValue | lib/api/bitwarden.ts:164 | The decimal text of `n` stands for `n`. |
| Text.NatToStringInjective | lib/api/bitwarden.ts:164 | Different numbers have different decimal texts. |
| Text.LessIrreflexive | lib/api/migration.ts:41 | The string order used by `sort` never puts a string before itself. |
| Text.LessTransitive | lib/api/migration.ts:41 | The string order is transitive. |
| Text.LessAsymmetric | lib/api/migration.ts:41 | The string order is asymmetric. |
| Text.LessTotal | lib/api/migration.ts:41 | Any two different strings are ordered one way or the other. |
| Text.InsertSorted | lib/api/migration.ts:41 | Inserting into a strictly sorted list keeps it strictly sorted and adds exactly the new element. |
| Text.SortedDistinct | lib/api/migration.ts:41 | `[...new Set(xs.sort())]` is strictly sorted (ascending, no repeats) and has exactly the elements of `xs`. |
| Text.StrictlySortedUnique | lib/api/migration.ts:41 | Two strictly sorted lists with the same elements are equal, so the collection path list is determined by the set of entry paths. |
| Kdbx.GetBinary | lib/api/migration.ts:122 | Reading a protected value XORs each byte with its salt byte; the length is kept. |
| Kdbx.FromBinary | lib/api/migration.ts:122 | Protecting bytes with a salt keeps their length and records the salt. |
| Kdbx.BinaryRoundTrip | lib/api/migration.ts:122 | Reading back a value protected with any salt yields the original bytes. |
| Keepass.Reverse | lib/api/keepass.ts:54 | `reverse()` keeps the length and puts element `i` at position `n-1-i`. |
| Keepass.FlattenCount | lib/api/keepass.ts:36-48 | `_loadPasswords` emits exactly one pair per entry anywhere in the group tree. |
| Keepass.FlattenComplete | lib/api/keepass.ts:36-48 | Every entry of every group in the tree is emitted, under the prefix followed by `/name` for each subgroup on the path to its group. |
| Keepass.FlattenSound | lib/api/keepass.ts:36-48 | Every emitted pair is an unchanged entry of some group of the tree, and its path is that group's path. |
| Keepass.FlattenOrder | lib/api/keepass.ts:38-47 | Within a group, all pairs from subgroups, under `prefix/`, come before the group's own entries, which keep their order under `prefix`. |
| Keepass.FlattenBlock | lib/api/keepass.ts:38-40 | Subgroup `k` contributes one contiguous block, its own flattening under `prefix/<name>`, placed right after the entries of the subgroups before it and before the group's own entries. |
| Keepass.FlattenSubgroupOrder | lib/api/keepass.ts:38-40 | Subgroups are emitted in array order: for `i < j` the block of subgroup `i` ends before the block of subgroup `j` starts. |
| Keepass.Keepass.constructor | lib/api/keepass.ts:25-28 | A new client has not loaded the database. |
| Keepass.Keepass.LoadDatabase | lib/api/keepass.ts:30-34 | A load stores the database on success, leaves it unset on failure, and is counted. |
| Keepass.Keepass.LoadPasswords | lib/api/keepass.ts:36-48 | The recursive walk with its two push loops produces exactly the flattening of the group under the prefix. |
| Keepass.Keepass.GetPasswords | lib/api/keepass.ts:50-55 | Returns the reversed flattening of the default group under the database name. It loads only when nothing is loaded yet, so the database is loaded at most once. A load error is returned. |
| OtpAuth.FirstLine | lib/api/migration.ts:72 | The part a match can lie in: the prefix before the first line terminator, which `.` does not cross. |
| OtpAuth.LastKey | lib/api/migration.ts:72 | Finds the last position below a bound where `secret=` can start a match, or reports that there is none. |
| OtpAuth.Secret | lib/api/migration.ts:72-75 | The regular expression matches iff some `secret=` position qualifies. The captured group is the rest of the first line after the last qualifying `secret=` (the greedy `.+`). |
| OtpAuth.SecretIsRestOfLine | lib/api/migration.ts:72-75 | For a one-line `otpauth<account>secret=<value>` with no further `secret=`, the captured seed is the whole value, including trailing parameters such as `&issuer=`. |
| Remote.Count | test/migration.api.test.ts:124-132 | The number of requests of one HTTP verb never exceeds the length of the trace. |
| Remote.CountAppend | test/migration.api.test.ts:124-132 | The verb counts of two request sequences add up. |
| Remote.CountSnoc | test/migration.api.test.ts:124-132 | One more request adds one to the count of its own verb and nothing to the others. |
| Remote.CountUnmoved | test/migration.api.test.ts:124-132 | Requests appended that all use other verbs leave a verb's count unchanged. |
| Remote.IdFor | lib/api/bitwarden.ts:174-175 | Server-generated ids are non-empty and do not start with a digit. |
| Remote.IdIsNotDecimal | lib/api/bitwarden.ts:164 | A server id is never the decimal text that `for..in` passes as a collection id. |
| Remote.ParseId | lib/api/bitwarden.ts:174-175 | Reading a number back from an id only succeeds on ids of the form `IdFor(n)`, and then gives that `n`. |
| Remote.ParseIdFor | lib/api/bitwarden.ts:174-175 | Every server id `IdFor(n)` reads back as `n`. |
| Remote.IdForInjective | lib/api/bitwarden.ts:174-175 | Different counters give different server ids. |
| Remote.NextIdFresh | lib/api/bitwarden.ts:174-175 | In a numbered store (every stored id is `IdFor(k)` with `k` below the counter) no stored collection or item carries `IdFor(nextId)`. |
| Remote.NumberedAdvance | lib/api/bitwarden.ts:174-175 | Adding entries under `IdFor(nextId)` and advancing the counter keeps a store numbered. |
| Remote.NumberedShrink | lib/api/bitwarden.ts:185 | Dropping stored items keeps a store numbered. |
| Remote.TaggedNeverListed | lib/api/bitwarden.ts:164 | An item whose collection ids are all server ids is never listed by the search of any `for..in` round. |
| Remote.OrgCollections | lib/api/bitwarden.ts:63-64 | The collection listing holds exactly the stored collections of the organization. |
| Remote.Search | lib/api/bitwarden.ts:144-151 | An item search lists exactly the stored items matching the organization, collection and search filters. |
| Remote.Without | lib/api/bitwarden.ts:185 | After a delete, exactly the items with other ids remain. |
| Remote.Server.constructor | lib/api/bitwarden.ts:44-49 | The server starts with the given store and an empty trace. |
| Remote.Server.Unlock | lib/api/bitwarden.ts:75-77 | Records the unlock request with its password and changes nothing stored. |
| Remote.Server.ListCollections | lib/api/bitwarden.ts:63-64 | Records the listing and answers with the organization's collections. |
| Remote.Server.CreateCollection | lib/api/bitwarden.ts:111-112 | Records the create and stores a new collection under `IdFor(nextId)`, which it returns with the name. On a numbered store no earlier collection carries that id, and the store stays numbered. |
| Remote.Server.SearchItems | lib/api/bitwarden.ts:144-151 | Records the search and answers with the matching items. |
| Remote.Server.CreateItem | lib/api/bitwarden.ts:174-175 | Records the create and stores the template under `IdFor(nextId)`, which it returns. On a numbered store no earlier item carries that id, and the store stays numbered. |
| Remote.Server.DeleteItem | lib/api/bitwarden.ts:185 | Records the delete and removes the items with that id. A numbered store stays numbered. |
| Remote.Server.AddAttachment | lib/api/bitwarden.ts:197 | Records the upload and stores the file under the item id. A numbered store stays numbered. |
| Bitwarden.AbsorbKeys | lib/api/bitwarden.ts:64-66 | After a fetch the cache knows its old names and every listed name, and no others. |
| Bitwarden.AbsorbKeeps | lib/api/bitwarden.ts:64-66 | A cached name that no listed collection carries keeps its id. |
| Bitwarden.AbsorbLastWins | lib/api/bitwarden.ts:64-66 | A listed name gets the id of its last listing, since `Map.set` overwrites. |
| Bitwarden.CollectionStepSpec | lib/api/bitwarden.ts:88-116 | `createCollection` lists the collections iff the cache is empty and the client is live. It creates the path iff it is still missing then, with one read-write, passwords-visible group per default id. It returns the cached id, the new id, or '' under dry-run. A live client caches the returned id, and no cached id changes. |
| Bitwarden.CollectionStepCalls | lib/api/bitwarden.ts:88-116 | One `createCollection` sends only a listing of the organization and a create of the path with the default groups. |
| Bitwarden.CollectionStepFresh | lib/api/bitwarden.ts:88-116 | On a numbered store `createCollection` keeps the store numbered, and when it creates, the id it returns is carried by no earlier collection. |
| Bitwarden.StepsKeepNumbered | lib/api/bitwarden.ts:185-197 | Listing, searching, deleting, uploading and unlocking keep a numbered store numbered. |
| Bitwarden.CollectionStepCache | lib/api/bitwarden.ts:112-115 | A live step keeps every cached id and caches the returned id under the path. |
| Bitwarden.CollectionStepCounts | lib/api/bitwarden.ts:89-111 | A live step sends a GET iff the cache was empty and a POST iff the path was missing after that. |
| Bitwarden.CollectionsRunCalls | lib/api/bitwarden.ts:124-131 | `createCollections` continues the trace with only organization listings and creates of given paths with the default groups. |
| Bitwarden.CollectionsRunKeys | lib/api/bitwarden.ts:124-131 | The returned map has exactly one key per distinct input path, live or dry. |
| Bitwarden.CollectionsRunDry | lib/api/bitwarden.ts:58-61 | Under dry-run from the initial empty cache, nothing is sent or stored, the cache stays empty and every path maps to ''. |
| Bitwarden.CollectionsRunLive | lib/api/bitwarden.ts:124-131 | Live: every returned id is the one the cache holds at the end. The cache gains exactly the paths and keeps the ids it had after the listing. |
| Bitwarden.CollectionsRunStep | lib/api/bitwarden.ts:89-90 | Past the first path, each `createCollection` of the batch finds the cache filled, so it sends no listing; the cache holds the names listed first plus the earlier paths. |
| Bitwarden.CollectionsRunCounts | lib/api/bitwarden.ts:124-131 | Live: one listing iff the cache was empty, one create per distinct path the cache did not know after the listing, and no deletes. For example, two new paths cost one listing and two creates. |
| Bitwarden.CollectionsRunNone | lib/api/bitwarden.ts:124-131 | With no paths, `createCollections` sends nothing, not even a listing, and returns an empty map. |
| Bitwarden.CollectionsRunNumbered | lib/api/bitwarden.ts:124-131 | `createCollections` keeps a numbered store numbered. |
| Bitwarden.DeleteDuplicatesStore | lib/api/bitwarden.ts:167-172 | The inner loop removes exactly the items whose id belongs to a listed exact-name match, and changes nothing else. |
| Bitwarden.DeleteDuplicatesCalls | lib/api/bitwarden.ts:167-172 | The inner loop sends exactly deletes of the exact-name matches' ids. |
| Bitwarden.DeleteDuplicatesCounts | lib/api/bitwarden.ts:167-172 | The inner loop sends no GET and no POST. |
| Bitwarden.RoundStore | lib/api/bitwarden.ts:165-172 | After one round, no item listed by its search under the exact name is left, and only items were removed. |
| Bitwarden.RoundCalls | lib/api/bitwarden.ts:165-172 | One round sends its search (with the index text as collection id) and then only deletes of exact-name items the server held. |
| Bitwarden.SweepShape | lib/api/bitwarden.ts:164-173 | The duplicate sweep only removes items and changes nothing else. |
| Bitwarden.SweepClean | lib/api/bitwarden.ts:164-173 | After the sweep, no item that any round's search listed under the exact name is left. |
| Bitwarden.SweepSearches | lib/api/bitwarden.ts:164-166 | Round `k` searches collection id `String(k)` with the item's organization and name. |
| Bitwarden.SweepDeletes | lib/api/bitwarden.ts:164-173 | Every request of the sweep is a search or a delete of an exact-name item that the server held before. |
| Bitwarden.RoundCounts | lib/api/bitwarden.ts:165-172 | One round sends exactly one GET, its search. |
| Bitwarden.SweepCounts | lib/api/bitwarden.ts:164-173 | The sweep sends one GET per round. |
| Bitwarden.SweepPosts | lib/api/bitwarden.ts:164-173 | The sweep sends no POST. |
| Bitwarden.ItemStepStore | lib/api/bitwarden.ts:159-176 | A live `createItem` stores the template under `IdFor(nextId)`, which it returns. Everything else kept was there before. No exact-name item any search listed survives, except the new one. |
| Bitwarden.ItemStepFresh | lib/api/bitwarden.ts:159-176 | On a numbered store, the id a live `createItem` returns is carried by no earlier item, the new item is the only one stored under it, and the store stays numbered. |
| Bitwarden.ItemStepUntagged | lib/api/bitwarden.ts:159-176 | For a template without `collectionId` a live `createItem` sends only the create and deletes nothing. |
| Bitwarden.ItemStepCalls | lib/api/bitwarden.ts:159-176 | Live: one search per element of `collectionId`; deletes only of earlier exact-name items; one create, sent last. |
| Bitwarden.ItemStepCounts | lib/api/bitwarden.ts:159-176 | Live: GETs grow by the number of collection ids, POSTs by 1. |
| Bitwarden.DryRunSilent | lib/api/bitwarden.ts:141-143 | Under dry-run, fetch, collection create, search, item create, delete, upload and unlock send nothing and change nothing. They answer `[]` or `''`, and the cache is never filled. |
| Bitwarden.Bitwarden.constructor | lib/api/bitwarden.ts:44-49 | A new client has an empty cache and keeps its password, default groups and mode; by default it runs dry with no default groups. |
| Bitwarden.Bitwarden.FetchCollections | lib/api/bitwarden.ts:55-67 | The loop that sets every listed name's id yields `Fetch`: one listing merged into the cache; nothing under dry-run. |
| Bitwarden.Bitwarden.Unlock | lib/api/bitwarden.ts:72-79 | A live unlock posts exactly the stored password; a dry one sends nothing. |
| Bitwarden.Bitwarden.CreateCollection | lib/api/bitwarden.ts:88-116 | New cache, store, trace and returned id are those of `CollectionStep`. |
| Bitwarden.Bitwarden.CreateCollections | lib/api/bitwarden.ts:124-131 | The loop over the paths yields the state and map of `CollectionsRun`. |
| Bitwarden.Bitwarden.FindItem | lib/api/bitwarden.ts:140-152 | Live: one search whose answer is returned. Dry: `[]` and nothing sent. |
| Bitwarden.Bitwarden.DeleteItem | lib/api/bitwarden.ts:182-187 | Live: one delete. Dry: nothing. |
| Bitwarden.Bitwarden.CreateItem | lib/api/bitwarden.ts:159-176 | The two nested loops and the create yield the state and id of `ItemStep`. |
| Bitwarden.Bitwarden.RemoveDuplicates | lib/api/bitwarden.ts:167-172 | The inner loop deletes each listed item whose name equals the item's name. |
| Bitwarden.Bitwarden.AddAttachment | lib/api/bitwarden.ts:194-199 | Live: one upload of the file to the item id. Dry: nothing. |
| Migration.GetText | lib/api/migration.ts:139-145 | A plain value reads as itself; a protected value reads as the decoding of its unmasked bytes. |
| Migration.ProtectedTextRoundTrip | lib/api/migration.ts:139-145 | A text protected with any salt reads back as itself when the decoding undoes the encoding. |
| Migration.Lookup | lib/api/migration.ts:66-68 | `Map.get` finds nothing iff no pair has the key; what it finds is stored under the key. |
| Migration.LookupFinds | lib/api/migration.ts:66-68 | With distinct keys, `get` returns a value iff that pair is in the map. |
| Migration.ToField | lib/api/migration.ts:92-101 | A plain value gives a text field ('0') with the verbatim value. A protected value gives a hidden field ('1') with the decrypted text. |
| Migration.CustomFieldAt | lib/api/migration.ts:90-104 | Each non-reserved pair lands at the position given by the number of non-reserved pairs before it, so custom fields keep the source key order. |
| Migration.CustomFieldsFrom | lib/api/migration.ts:90-104 | Every custom field comes from a pair whose name is not reserved. |
| Migration.CustomFieldsCount | lib/api/migration.ts:90-104 | There is exactly one custom field per non-reserved key, `otp` included. |
| Migration.TotpText | lib/api/migration.ts:70-77 | `totp` is the captured secret when the pattern matches, else the raw text. |
| Migration.ConvertToBitwarden | lib/api/migration.ts:60-107 | The field-by-field construction of the template, with its push loop, equals the item of the mapping policy, or the error of a missing required field. |
| Migration.CollectCustomFields | lib/api/migration.ts:90-104 | The push loop yields the custom fields of the entry in key order. |
| Migration.ItemForSpec | lib/api/migration.ts:60-107 | The item exists iff Title, UserName and Password are present. It carries the organization and `[collectionId]`. Name, username and password are those fields' resolved texts. `totp` follows the otpauth rule and is unset without `otp`. `URL` gives exactly one URI with match '0' (none without it). Notes are copied, default ''. Fields are the custom fields. |
| Migration.Payload | lib/api/migration.ts:117-123 | An attachment's bytes are the raw bytes, or the unmasked protected value, after dropping the hash wrapper. |
| Migration.PayloadRoundTrip | lib/api/migration.ts:117-123 | Whatever the wrapping, an attachment protected with any salt uploads its original bytes. |
| Migration.GetAttachments | lib/api/migration.ts:114-131 | One attachment per stored binary, in the entry's order, each its payload. |
| Migration.NamesMapped | lib/api/migration.ts:41-44 | Every entry's collection name has an id in the map `createCollections` returns for the path list. |
| Migration.EntriesRunStops | lib/api/migration.ts:43-50 | Once an entry fails to convert, later entries change nothing: `migrate` has thrown. |
| Migration.UploadsLive | lib/api/migration.ts:47-49 | Live: one upload per attachment, in order, all under the given item id, both sent and stored; nothing else changes. |
| Migration.UploadsCount | lib/api/migration.ts:47-49 | The live upload loop sends one POST per attachment and nothing else. |
| Migration.UploadsDry | lib/api/migration.ts:47-49 | Under dry-run the upload loop changes nothing. |
| Migration.UploadsCalls | lib/api/migration.ts:47-49 | The live upload loop continues the trace with uploads only. |
| Migration.UploadsNumbered | lib/api/migration.ts:47-49 | The upload loop keeps a numbered store numbered. |
| Migration.EntriesRunPasses | lib/api/migration.ts:43-50 | The entry loop goes through iff every entry is complete (has Title, UserName and Password). |
| Migration.AllCompleteEach | lib/api/migration.ts:43-50 | Completeness checked entry by entry along the loop is completeness of every entry. |
| Migration.EntriesRunNext | lib/api/migration.ts:43-50 | After entries that all went through, one more turn extends the run by that entry's step, and a failing turn is the result of the whole loop. |
| Migration.EntriesRunFailure | lib/api/migration.ts:43-50 | A failed loop reports the conversion error of an entry all of whose predecessors are complete, that is the first incomplete entry. |
| Migration.EntriesRunDry | lib/api/migration.ts:43-50 | Under dry-run the entry loop sends and stores nothing. |
| Migration.EntryStepLive | lib/api/migration.ts:45-49 | One live turn creates the item (create sent last), then uploads every attachment in order under the id the create returned, and nothing after. |
| Migration.EntryStepCalls | lib/api/migration.ts:44-49 | One turn sends only searches, deletes, item creates and uploads. |
| Migration.EntryStepNumbered | lib/api/migration.ts:44-49 | One turn of the entry loop keeps a numbered store numbered. |
| Migration.EntriesRunNumbered | lib/api/migration.ts:43-50 | The entry loop keeps a numbered store numbered. |
| Migration.EntriesRunCalls | lib/api/migration.ts:43-50 | The entry loop sends only searches, deletes, item creates and uploads. |
| Migration.EntriesRunCounts | lib/api/migration.ts:43-50 | A live loop that goes through sends one GET per entry. It sends one POST per entry plus one per attachment. |
| Migration.MigrateDryRun | lib/api/migration.ts:39-51 | A dry-run `migrate` from the initial empty cache sends nothing and leaves the server unchanged. |
| Migration.MigrateNumbered | lib/api/migration.ts:39-51 | `migrate` keeps a numbered store numbered, so each collection and item it creates gets an id no earlier one carries. |
| Migration.MigratePhases | lib/api/migration.ts:41-50 | First the collection batch, with only organization listings and creates of entry collection names under the default groups. Then only item-phase requests. |
| Migration.CollectionPhaseCounts | lib/api/migration.ts:41-42 | From an empty cache the collection batch sends one listing and one create per collection name the organization did not have. |
| Migration.MigrateNoEntries | lib/api/migration.ts:39-51 | A database without entries makes `migrate` send nothing, not even the collection listing, and go through. |
| Migration.MigrateCounts | lib/api/migration.ts:39-51 | A live `migrate` that goes through, from an empty cache, sends GETs: 1 + entries. It sends POSTs: new collection names + entries + attachments. |
| Migration.ItemForSucceeds | lib/api/migration.ts:66-68 | An entry converts iff it has Title, UserName and Password. |
| Migration.MigrateOutcome | lib/api/migration.ts:39-51 | A load error fails at once and changes nothing. A loaded database goes through iff every entry has Title, UserName and Password. |
| Migration.MigrateSendsNoUnlock | lib/api/migration.ts:39-51 | `migrate` only continues the trace and never sends an unlock. |
| Migration.FixtureShape | test/migration.api.test.ts:120-132 | The test's entries have two collection names unknown to the organization and one attachment in all. |
| Migration.TwoNewNames | test/migration.api.test.ts:120-132 | Three collection names drawn from two distinct ones, neither the known collection's, make exactly two new names. |
| Migration.MigrateFixture | test/migration.api.test.ts:120-132 | In the test's scenario, `migrate` goes through with 4 GETs (1 listing, 3 searches) and 6 POSTs (2 collections, 3 items, 1 attachment). |
| Migration.Migration.constructor | lib/api/migration.ts:30-34 | Keeps the organization id and both clients. |
| Migration.Migration.Migrate | lib/api/migration.ts:39-51 | Loads the passwords, creates the sorted distinct paths, then runs the entry loop. The resulting client/server state and outcome are those of `MigrateRun`. Afterwards the database is loaded exactly when the source decrypts, and an already loaded database is not read again. |
| Migration.Migration.MigrateEntries | lib/api/migration.ts:43-50 | The loop over the entries, stopping at the first conversion error, yields `EntriesRun`. |
| Migration.Migration.MigrateEntry | lib/api/migration.ts:44-49 | Convert, create, collect attachments, upload: the state and outcome of `EntryStep`. |
| Migration.Migration.UploadAll | lib/api/migration.ts:47-49 | The attachment loop yields the uploads of `Uploads`. |

## Left out

- HTTP transport, URLs, query strings and response envelopes are not modelled. `Remote.Server` answers each request in memory, and only the `data.data` / `data.id` / `data.name` fields the client reads are kept. The API base URL stands for the server object.
- A non-2xx response (a rejected request) is not modelled: every request succeeds.
- The server's search semantics are a model choice. `search` is a substring match on the name. Organization and collection filters apply as given, and an undefined one does not filter.
- Server ids are `id0`, `id1`, …, never bare decimal numbers.
- Async/await, logging and the `form-data` encoding are left out. The multipart body is modelled as the file bytes; the code sends no filename.
- File reading and KDBX decryption (`Kdbx.load`, `fs.readFile`) are replaced by `Keepass.source`, the database or the load error that reading would produce.
- kdbxweb's UTF-8 decoding of protected text is a parameter `decode`.
- `Keepass.Keepass.loads`: a ghost counter that states "loaded at most once"; nothing in the code counts loads.
- Text.Less: JavaScript's default `sort` compares UTF-16 code units. The model compares characters (code points). The two orders differ only for strings with characters outside the Basic Multilingual Plane.
- `convertToBitwarden` emits a URI whenever `URL` is present, even if its text is empty. The model follows the code.
- Path rewriting, the sync calls, skipping entries with an empty title, and the client-side filtering of `findItem` results do not exist in this code and are not modelled. `lib/models/path.rewrite.ts` declares an unused interface.
- The collection cache is shared by all organizations, as in the code: a non-empty cache from one organization suppresses the fetch for another.
- `createItem` iterates the indices of `collectionId` (`for..in`), so it searches collection ids "0", "1", …. This is modelled as written. A consequence: when collection ids are real server ids, the duplicate sweep finds nothing (`Remote.TaggedNeverListed`), so running `migrate` again creates a second copy of every item instead of replacing it, and the promised single delete of an existing exact-name item does not happen.
- In the migration test the POST labelled "unlock" is the attachment upload, since `migrate` never unlocks (`Migration.MigrateSendsNoUnlock`).
- `convertToBitwarden` throws on a missing Title, UserName or Password, because `_getText(undefined)` fails. This is modelled as the error `MissingField`, and `migrate` stops at the first such entry.
- Any other exception thrown by a collaborator is not modelled.
- `Keepass.Keepass.GetPasswords` returns the load error as a value instead of throwing.
- Test-only fields such as `collectionIds` in the test mocks are not part of the schema and are not modelled. The mocked `createItem` template sets `collectionIds` and leaves `collectionId` unset, so the code as written skips the duplicate sweep for it: it sends no search and no delete (`Bitwarden.ItemStepUntagged`), although the test expects one of each.
