# Proseline synchronisation core in Dafny

Proseline is a browser-based collaborative writing tool. Every project
has its own IndexedDB database. That database holds one append-only log
per writer. Peers replicate those logs over a swarm. This project models the
machinery behind that, and proves properties of the model:

- **The per-writer log store** (`ProjectLog`, `EntryKey`; db/project.js).
  - The `logs` object store is a map from `logEntryKey(publicKey, index)` to envelopes.
  - The log head is counted over an inclusive lexicographic key range.
  - Local appends (`_log`) and remote puts (`putEnvelope`) go through `add`.
    `add` refuses an existing key, and the unique `digest` index refuses a repeated digest.
  - Every completed write is reported to each registered update stream.
  - The offer stream first emits the current heads.
  - The class `ProjectLog.Project` holds the stores as fields.
- **A replication session** (`Replicate`; client/net/replicate.js).
  - The class `Replicate.Session` records, in order, what the session writes to the protocol.
  - It records what it passes to the database and whether it listens for local envelopes.
  - Each handler is a method, proved against the specification functions beside it.
  - `inclusiveRange` keeps its counting loop.
- **The swarm registry** (`Peer`; net/peer.js).
  - The module-level `swarms` array is the class `Peer.SwarmRegistry`.
  - It holds one record per joined discovery key, with the ids of the peers connected through it.
- **The client-global database** (`ProselineDb`; db/proseline.js).
  - The class `ProselineDb.Proseline` holds the `projects` and `user` stores and the page-bus events emitted after writes.
- **The project lifecycle and the list reductions** (`AppModel`; model.js).
  - The class `AppModel.Client` holds the handlers for creating, joining, leaving, renaming, persisting and loading projects.
  - `push mark`, `push note`, `push brief` and `project intro` are pure functions over the lists they build.
- **The URL router** (`Router`; index.js `render`): classifies a path and hash into a route.
- **The draft description** (`DraftDescription`; client/views/partials/draft-description.js).

Collaborators are fixed when an object is built, or passed to the operation that uses them. They are never interpreted:

- Signing, hashing, the canonical `stringify`, envelope validation, decryption, key derivation and `hexToBase64` are function-valued constants or parameters.
- An answer a database or library would give back later is a handler parameter. Examples: an error, a listing, a head.

## Model

| member | source | states |
|---|---|---|
| `EntryKey.PadStart` | db/project.js:138 | `padStart` keeps a string already at the width; otherwise it pads it to exactly the width with the fill character in front of it |
| `EntryKey.FormatEntryIndex` | db/project.js:137-139 | `formatEntryIndex`: the index in decimal, left-padded with `0` to 5 characters (properties in `FormatEntryIndexShape`, `FormatEntryIndexInjective`) |
| `EntryKey.LogEntryKey` | db/project.js:133-135 | `logEntryKey`: the public key, `:`, and the formatted index (properties in `LogEntryKeyInjective`, `LogEntryKeyOrder`, `LogEntryKeyInRange`) |
| `EntryKey.FormatEntryIndexShape` | db/project.js:137-139 | every formatted index is a digit string whose value is the index, at least 5 characters long, exactly 5 for indices up to `MAX_INDEX` |
| `EntryKey.FormatEntryIndexInjective` | db/project.js:137-139 | distinct non-negative indices format to distinct strings |
| `EntryKey.LogEntryKeyInjective` | db/project.js:133-135 | a writer's keys for two non-negative indices are equal only when the indices are |
| `EntryKey.LogEntryKeyOrder` | db/project.js:129-139 | for indices 0..99999 the lexicographic order of a writer's keys is the numeric order of the indices |
| `EntryKey.LogEntryKeyInRange` | db/project.js:167-171 | the key of every index 0..99999 lies in the inclusive range `bound(logEntryKey(pk, 0), logEntryKey(pk, 99999))` |
| `ProjectLog.Notified` | db/project.js:231-240 | every registered stream, and only those, receives the one update at its end |
| `ProjectLog.Head` | db/project.js:112-123 | `getLogHead`: undefined for a writer with no keys in its range, otherwise the count of those keys minus one (properties in `GapFreeHead`) |
| `ProjectLog.Add` | db/project.js:182-184 | `objectStore('logs').add`: refused with a ConstraintError when the key is stored or the digest is taken, otherwise the store with the entry added (properties in `SecondAddRefused`, `SameDigestRefused`, `AppendKeepsGapFree`) |
| `ProjectLog.DefaultIdentity` | db/project.js:85-91 | the identity the `default` entry points to, nothing when there is no default or no such identity, a DataError when it is not a key pointer (properties in `CreateDefaultThenGet`, `NoDefaultGetsNothing`) |
| `ProjectLog.GapFreeHead` | db/project.js:112-123 | in a gap-free log, the entry of index i (0..99999) is stored exactly when i is at most the head (undefined read as -1) |
| `ProjectLog.NextKeyFree` | db/project.js:166-184 | in a gap-free log with room, the key at the counted index is not yet stored |
| `ProjectLog.AppendKeepsGapFree` | db/project.js:166-184 | on a gap-free log with room and a new digest, `add` at the counted index succeeds, the log stays gap-free and the head rises by one |
| `ProjectLog.PutBeyondHeadOpensGap` | db/project.js:219-224 | a remote put claiming an index beyond head + 1 is accepted, because the head is not compared, and it leaves a gap |
| `ProjectLog.SecondAddRefused` | db/project.js:222-224 | once a key holds an entry, a second `add` under it fails with a ConstraintError and the first entry stays |
| `ProjectLog.SameDigestRefused` | db/project.js:57 | the unique `digest` index refuses the same entry under a second key |
| `ProjectLog.CreateDefaultThenGet` | db/project.js:65-95 | after `createIdentity(true)`, `getDefaultIdentity` returns that identity |
| `ProjectLog.NoDefaultGetsNothing` | db/project.js:85-91 | with no default recorded, `getDefaultIdentity` returns nothing |
| `ProjectLog.Project.constructor` | db/project.js:15-21 | a new project database has empty stores and no update streams |
| `ProjectLog.Project.Signed` | db/project.js:173-181 | the entry carries the message with its index set; it is signed over `stringify` of that indexed message, and its digest is `hash(stringify(...))` of it |
| `ProjectLog.Project.CreateIdentity` | db/project.js:65-79 | the identity is stored under its public key, and also as the default when `setDefault` is set; logs and streams are unchanged |
| `ProjectLog.Project.GetDefaultIdentity` | db/project.js:85-95 | the identity the default entry points to, nothing when there is no default |
| `ProjectLog.Project.GetLogHead` | db/project.js:112-123 | the head is count − 1 of the keys in the writer's range, and undefined exactly when no stored key is in that range |
| `ProjectLog.Project.StreamUpdate` | db/project.js:231-240 | every registered update stream receives `{publicKey, index}`; the stores are unchanged; a write error is passed on when at least one stream is registered, and with none it succeeds |
| `ProjectLog.Project.Log` | db/project.js:143-186 | the index is the writer's current count, the entry is added under that index's key (the `key` argument is not used), and once added, every stream is notified, the entry stays committed and the result is the entry, or the stream write error when a stream is registered; a log that was gap-free with room stays gap-free; on an `add` failure nothing changes |
| `ProjectLog.Project.PutEnvelope` | db/project.js:201-225 | the envelope with its digest is added under the index it claims; once added, every stream is notified, the entry stays committed and a stream write error is passed on when a stream is registered; on an `add` failure nothing changes |
| `ProjectLog.Project.GetEnvelope` | db/project.js:188-199 | the stored envelope without its digest; a missing entry fails reading `message` of undefined |
| `ProjectLog.Project.CurrentHeads` | db/project.js:245-265 | exactly one `{publicKey, head}` per public key in the store, each with that key's current head |
| `ProjectLog.Project.CreateOfferStream` | db/project.js:242-272 | the current heads, and one newly registered, empty update stream that later writes reach |
| `Replicate.Interval` | client/net/replicate.js:156 | the interval is empty exactly when `from > to` |
| `Replicate.IntervalShape` | client/net/replicate.js:157-162 | a non-empty interval has `to − from + 1` elements, the k-th being `from + k` |
| `Replicate.IntervalMembers` | client/net/replicate.js:155-163 | the interval holds exactly the integers from `from` to `to`, strictly ascending |
| `Replicate.InclusiveRange` | client/net/replicate.js:155-163 | the counting loop (and its two early answers) returns exactly that interval |
| `Replicate.OfferedIndexes` | client/net/replicate.js:89-92 | the indexes requested for an offer: `inclusiveRange(head + 1, offered)` with an undefined head read as -1, and none without an offer (properties in `OfferedIndexesSpec`) |
| `Replicate.OfferedIndexesSpec` | client/net/replicate.js:89-92 | with an undefined head read as -1, the requested indexes are exactly head+1 .. offered in ascending order, and none when head ≥ offered |
| `Replicate.Requests` | client/net/replicate.js:93-103 | one request per index, in the order of the indexes |
| `Replicate.HeadOffers` | client/net/replicate.js:39-47 | only offers, at most one per listed log |
| `Replicate.HeadOffersAllRead` | client/net/replicate.js:41-46 | when every head is read, every listed log is offered with its head, in listing order |
| `Replicate.HeadOffersSkipFailures` | client/net/replicate.js:42-43 | a log whose head could not be read is not offered |
| `Replicate.Session.constructor` | client/net/replicate.js:141-146 | a new session has sent one handshake and nothing else, and does not listen yet |
| `Replicate.Session.OnHandshake` | client/net/replicate.js:33-48 | only the first handshake subscribes and offers the listed heads; later ones change nothing; no offer is ever sent before it |
| `Replicate.Session.OnNotice` | client/net/replicate.js:50-62 | a local envelope is offered only once subscribed, and only when its discovery key is the session's |
| `Replicate.Session.OnRequest` | client/net/replicate.js:65-79 | a present entry is answered with its envelope; a failed read or a missing entry is answered with nothing |
| `Replicate.Session.OnOffer` | client/net/replicate.js:84-105 | after a failed head read nothing is sent; otherwise the requests for exactly the offered indexes are sent, in order |
| `Replicate.Session.OnEnvelope` | client/net/replicate.js:108-128 | an envelope with validation errors throws "Failed to validate envelope." and is never decrypted or stored; a valid one is decrypted and passed to `putEnvelope` |
| `Replicate.Session.OnError` | client/net/replicate.js:134-139 | the session unsubscribes only when it was listening, and that call goes to the database, so the page-bus subscription stays |
| `Peer.FindIndex` | net/peer.js:67-69 | the first record with the key, or -1 exactly when no record has it |
| `Peer.Join` | net/peer.js:18-24 | `joinSwarm`: nothing when the key is joined, otherwise a new record with no peers at the end (properties in `JoinSpec`) |
| `Peer.Accept` | net/peer.js:33-55 | the `peer` handler on the record set: refuse an id connected anywhere, else add it to the swarm's record (properties in `AcceptRefusesConnected`, `AcceptSpec`) |
| `Peer.End` | net/peer.js:51-53 | the `end` handler: remove the id from the swarm's record (properties in `EndDisconnects`, `AcceptThenEnd`) |
| `Peer.Leave` | net/peer.js:65-75 | `leaveSwarm`: splice out the first record with the key (properties in `LeaveSpec`) |
| `Peer.CountPeers` | net/peer.js:77-81 | `countPeers` on the record sets: the sum of the per-swarm counts (properties in `CountIsConnectedPeers`) |
| `Peer.JoinSpec` | net/peer.js:21-24 | joining twice is joining once; afterwards the key has a record; the registry stays well formed and the count unchanged |
| `Peer.AcceptRefusesConnected` | net/peer.js:35-41 | an id connected through any swarm is refused by every swarm |
| `Peer.AcceptSpec` | net/peer.js:42-54 | a new id on a joined swarm is added to exactly that record; the registry stays well formed and the count rises by one |
| `Peer.AcceptThenEnd` | net/peer.js:51-54 | the end of an accepted peer's stream undoes its acceptance |
| `Peer.EndDisconnects` | net/peer.js:51-53 | after its stream ends an id is connected nowhere, and the registry stays well formed |
| `Peer.LeaveSpec` | net/peer.js:65-75 | leaving removes the record of the key and keeps all others in order (an unknown key changes nothing); the registry stays well formed |
| `Peer.CountIsConnectedPeers` | net/peer.js:77-81 | the sum of per-swarm counts is the number of distinct connected peers, and 0 for an empty registry |
| `Peer.SwarmRegistry.constructor` | net/peer.js:16 | the registry starts empty |
| `Peer.SwarmRegistry.JoinSwarm` | net/peer.js:18-63 | the new registry is the join of the old one; it stays well formed |
| `Peer.SwarmRegistry.AcceptPeer` | net/peer.js:33-55 | a stream is started exactly for an id connected nowhere; the registry is the accept of the old one |
| `Peer.SwarmRegistry.EndPeer` | net/peer.js:51-53 | the id is removed from its swarm's set |
| `Peer.SwarmRegistry.LeaveSwarm` | net/peer.js:65-75 | the matching record is spliced out |
| `Peer.AcceptAsWritten` | net/peer.js:33-55 | the `peer` handler as written never writes a record; it ends in a TypeError exactly when it has started a replication stream |
| `Peer.AsWrittenNeverDeduplicates` | net/peer.js:35-59 | as written, the records' own peer sets stay empty, so the dedup check never refuses: every announced peer gets a stream, and the `add` on line 54 then throws |
| `Peer.AsWrittenAcceptsTwice` | net/peer.js:35-54 | as written, one peer id announced by two swarms gets a replication stream from each, and each handler throws |
| `ProselineDb.UpgradeSpec` | db/proseline.js:24-36 | an upgrade from below version 2 creates only missing stores, and leaves both `projects` and `user` |
| `ProselineDb.PutRecord` | db/proseline.js:40-51 | a put fails exactly when `projectDiscoveryKey` or `projectReadKey` is missing or the key is not a valid key |
| `ProselineDb.GetRecord` | db/proseline.js:66-68 | `getProject`: the record under the key, nothing when absent, a DataError for an invalid key (properties in `PutThenGet`, `DeleteThenGet`) |
| `ProselineDb.DeleteRecord` | db/proseline.js:70-77 | `deleteProject`: the store without the key, a DataError for an invalid key (properties in `DeleteThenGet`) |
| `ProselineDb.GetOrCreateIdentity` | db/proseline.js:87-102 | `getUserIdentity`: the stored identity, or the generated one, which is then stored (properties in `GetOrCreateIdentityStable`) |
| `ProselineDb.PutProjectRequiresKeys` | db/proseline.js:41-43 | a record missing either field is an assertion failure |
| `ProselineDb.PutThenGet` | db/proseline.js:40-68 | a stored record is read back under its discovery key, and every other key reads as before |
| `ProselineDb.OverwriteReplaces` | db/proseline.js:53-64 | an overwrite under the same key replaces the record, whatever was stored there |
| `ProselineDb.DeleteThenGet` | db/proseline.js:70-77 | after a delete the key reads as absent, and every other key reads as before |
| `ProselineDb.GetOrCreateIdentityStable` | db/proseline.js:87-102 | an identity is created only when none exists; every later call returns the same identity and writes nothing |
| `ProselineDb.UserSettingsRoundTrip` | db/proseline.js:104-120 | the subscription and the intro each read back what was set, and each setter leaves the other values |
| `ProselineDb.Proseline.constructor` | db/proseline.js:12-18 | opening the database at version 2 keeps the stores that existed and creates the missing ones |
| `ProselineDb.Proseline.Upgrade` | db/proseline.js:24-36 | `projects` is created below version 1 and `user` below version 2; the contents are unchanged |
| `ProselineDb.Proseline.PutProject` | db/proseline.js:40-51 | on success the record is stored and `added project` is emitted; on failure nothing changes |
| `ProselineDb.Proseline.OverwriteProject` | db/proseline.js:53-64 | on success the record is stored and `overwrote project` is emitted; on failure nothing changes |
| `ProselineDb.Proseline.GetProject` | db/proseline.js:66-68 | a record found is the one stored under the key |
| `ProselineDb.Proseline.DeleteProject` | db/proseline.js:70-77 | the key is removed and `deleted project` is emitted, also when there was no record |
| `ProselineDb.Proseline.GetUserIdentity` | db/proseline.js:87-102 | the stored identity, or a new hex-encoded pair that is stored |
| `ProselineDb.Proseline.GetSubscription` | db/proseline.js:104-106 | the stored subscription, or nothing |
| `ProselineDb.Proseline.SetSubscription` | db/proseline.js:108-110 | only the `subscription` entry of the user store changes |
| `ProselineDb.Proseline.GetIntro` | db/proseline.js:114-116 | the stored intro, or nothing |
| `ProselineDb.Proseline.SetIntro` | db/proseline.js:118-120 | only the `intro` entry of the user store changes |
| `AppModel.NewProject` | model.js:196-222 | with a replication key, the other three keys must be present and the key pair must be an object (else an assertion failure), and they are used as given; without one, new keys are generated and the discovery key is the hash of the replication key; the title defaults to `UNTITLED`; `persistent` is a boolean |
| `AppModel.Tombstone` | model.js:136-142 | the stub has `deleted` set, keeps the keys, the title and the key pair, and drops the encryption key and `persistent` |
| `AppModel.ClearProject` | model.js:435-445 | the `clear project` reduction: the four project keys are cleared, the title and `persistent` are kept |
| `AppModel.LoadedView` | model.js:414-432 | the `project` reduction's project fields: the record's title, keys, key pair and `persistent` |
| `AppModel.TombstoneEndsLife` | model.js:128-157 | after the overwrite the project is no longer live, its title is kept, and every other project's liveness is unchanged |
| `AppModel.LoadOutcome` | model.js:358-370 | loading succeeds exactly for a live record; a tombstone fails with "deleted project" |
| `AppModel.JoinAction` | model.js:159-194 | the corrected `join project` decision: an assertion failure for a key pair that is not an object, a redirect for a live project, else the record to create (properties in `JoinActionSpec`) |
| `AppModel.JoinActionAsWritten` | model.js:159-194 | the same decision as written, asserting a string key pair (properties in `JoinAsWrittenNeverCreates`) |
| `AppModel.JoinActionSpec` | model.js:159-194 | with the key pair the join link sends, creation is skipped exactly when a live project exists; otherwise the project is re-created under the derived key with the supplied keys and title |
| `AppModel.JoinAsWrittenNeverCreates` | model.js:160-163 | as written, an object key pair fails the string assertion, and every join that must create fails |
| `AppModel.Client.CreateProject` | model.js:196-240 | the record is put; the log key pair is created only after the put succeeded; any failure is reported |
| `AppModel.Client.LoadProject` | model.js:358-433 | on success the state shows the stored project's fields |
| `AppModel.Client.JoinProject` | model.js:159-194 | a live project is loaded without writing; otherwise the project is created and then loaded; on success the state shows the stored project under the derived key; every error stops the handler and leaves the state's project fields unchanged |
| `AppModel.Client.LeaveProject` | model.js:128-157 | the project database is deleted; the record is overwritten with its tombstone; only on success are the keys cleared from the state |
| `AppModel.Client.Rename` | model.js:246-265 | a database error is reported first, then a missing current key; a missing project fails with "no project to rename" and a deleted one with "deleted project"; a live one changes only its title, in the store and the state, unless the overwrite fails with its error |
| `AppModel.Client.Persist` | model.js:267-286 | a database error is reported first, then a missing current key; a missing project fails with "no project" and a deleted one with "deleted project"; a live one changes only `persistent`, to true, unless the overwrite fails with its error |
| `AppModel.KeepOthers` | model.js:714-719 | the filter keeps exactly the old marks that are not versions of the new one |
| `AppModel.KeepOthersConcat` | model.js:714-719 | the filter keeps the order of the old marks |
| `AppModel.ReplacingPriorMarks` | model.js:704-709 | the new mark followed by the old marks that are not versions of it (properties in `ReplacingPriorMarksSpec`) |
| `AppModel.ReplacingPriorMarksSpec` | model.js:712-720 | the new mark is first and the only version of itself; every other old mark is kept; a mark with no prior version is prepended; pushing it again changes nothing |
| `AppModel.PushMark` | model.js:702-711 | the mark heads both lists; a loaded list becomes `ReplacingPriorMarks` of it (prior versions dropped, the rest kept in order) and a list not loaded becomes `[mark]`; the mark is prepended to the activity |
| `AppModel.CountNote` | model.js:774-779 | exactly the briefs of the note's draft have their count raised by one; the others and the digests are unchanged |
| `AppModel.CountNoteTotal` | model.js:774-779 | the total count rises by the number of briefs of the note's draft |
| `AppModel.PushNote` | model.js:767-781 | the note is appended and prepended to the activity; the briefs become `CountNote` of them (each brief of the note's draft gains one, the others are unchanged), so the total rises by the number of those briefs; an unloaded list throws a TypeError |
| `AppModel.PushBrief` | model.js:685-687 | the brief is appended, and a list not loaded counts as empty |
| `AppModel.ProjectIntro` | model.js:79-85 | the intro is stored under its writer's key and every other intro is kept; it is prepended to the activity; with no intros loaded it throws |
| `Router.Split` | index.js:176 | `split(',')` yields at least one piece, no piece holds a comma, and joining the pieces with commas gives the string back |
| `Router.SplitHexList` | index.js:175-176 | a matching hex list splits into its 64-hex groups, and joining them gives the list back |
| `Router.JoinCommaHexList` | index.js:175-176 | joining 64-hex groups gives a list the pattern matches, which splits back into the same groups |
| `Router.ProjectRoute` | index.js:165-197 | the route for what follows `/projects/{discovery key}`, with hex keys turned into base64 (properties in the `…Remainder` lemmas and `ProjectRemainderFallsThrough`) |
| `Router.Render` | index.js:139-203 | `render`'s dispatch on path and hash (properties in `RenderLink`, `RenderJoin`, `RenderJoinOther`, `RenderJoinOnly`, `RenderFallsThrough`) |
| `Router.RenderProjectPath` | index.js:165-167 | a path of `/projects/` and 64 hex is dispatched on what follows the 74th character, with the key taken from characters 10..73 |
| `Router.EditorRemainder` | index.js:172-177 | `/drafts/new/` and a 64-hex list is the editor with those parents, in order |
| `Router.ComparisonRemainder` | index.js:179-181 | `/drafts/compare/A,B` is the comparison of A and B |
| `Router.ViewerRemainder` | index.js:183-185 | `/drafts/{64 hex}` is the viewer of that digest |
| `Router.MarkRemainder` | index.js:187-190 | `/marks/{64 hex}:{8 hex}` takes the key from characters 7..70 and the identifier from 72..79 |
| `Router.MemberRemainder` | index.js:192-194 | `/members/{64 hex}` is that member's view |
| `Router.RemainderRoute` | index.js:169-194 | every well-formed project link remainder, including `''` and `/drafts/new`, routes to its own view |
| `Router.RenderLink` | index.js:139-203 | every well-formed link, home and `/subscription` included, renders the route it names |
| `Router.RenderJoin` | index.js:146-160 | `/join` with four 64-hex groups joins with those keys, in order |
| `Router.RenderJoinOther` | index.js:146-149 | `/join` with any other hash is not found |
| `Router.RenderJoinOnly` | index.js:146-163 | a join route comes only from `/join` with a four-group hash |
| `Router.ProjectRemainderFallsThrough` | index.js:195-197 | a project path whose remainder matches no pattern is not found |
| `Router.RenderFallsThrough` | index.js:198-202 | every other path is not found |
| `DraftDescription.Kind` | client/views/partials/draft-description.js:4-6 | the text is one of the three descriptions |
| `DraftDescription.Article` | client/views/partials/draft-description.js:7-10 | "an " exactly before a text starting with 'o', "a " otherwise |
| `DraftDescription.Describe` | client/views/partials/draft-description.js:1-11 | the text node's text: the kind, after its article when `determiner` is set (properties in `ArticleAgrees`, `DeterminerPrefixes`) |
| `DraftDescription.KindClassifies` | client/views/partials/draft-description.js:4-6 | "original draft" exactly for 0 parents, "revising draft" exactly for 1, "combining draft" exactly for 2 or more |
| `DraftDescription.ArticleAgrees` | client/views/partials/draft-description.js:7-10 | with the determiner: "an original draft" exactly for 0 parents, "a revising draft" for 1, "a combining draft" for more |
| `DraftDescription.DeterminerPrefixes` | client/views/partials/draft-description.js:7-10 | the determiner only puts "a " or "an " before the text; without it the text is unchanged |

## Left out

- Cryptography is uninterpreted: signing, hashing, `stringify`, `validateEnvelope`, `decryptJSON`, key generation, `crypto.discoveryKey` and `hexToBase64`. It belongs to foreign libraries.
- IndexedDB is an in-memory map whose operations are atomic. The base `Database` class (`_get`, `_put`, `_count`, `_indexQuery`) is not part of this model.
- The other indexes created in db/project.js `_upgrade` are not modelled, apart from the unique `digest` index. The queries that read them are not modelled either (`listIntros`, `getDraft`, `getChildren`, `listDraftBriefs`, `getMark`, `getMarks`, `listMarks`, `getNotes`).
- Replicate.Session.OnHandshake: the heads are offered in the order the `getLogHead` callbacks fire, which the database decides. The model offers them in listing order (`Replicate.HeadOffers`).
- ProjectLog.Project.CurrentHeads: `runParallel` may write the heads of different logs in any order. The model fixes one order and states only that each key appears once with its head.
- ProjectLog.Project.PutEnvelope: the `change` event it emits is not modelled.
- ProjectLog.Project.StreamUpdate: the stream writes run in parallel, and the write error reported is a parameter. Which stream reports it, and whether the other writes still happen, is not modelled: every stream receives the update. Update streams are never unregistered, as in the source.
- ProjectLog.Project.Log: only the `ComputeDigest` and mark-key argument shapes are modelled. The argument is ignored, so `putMark`'s `markKey` has no effect.
- The protocol codec, `pageBus`, the signalling hub, `webrtc-swarm`, the ICE-server fetch and stream piping are network plumbing. The session and the registry keep only their decisions.
- Replicate.Session: logging and `loggingID` are not modelled. The `invalid` handler only logs. The duplicate-request suppression that the source leaves as a TODO is absent, as in the source.
- Replicate.Session.OnEnvelope: what `putEnvelope` does with the entry is not modelled. The session follows its own collaborator signature `putEnvelope(envelope, entry)`, which differs from db/project.js.
- Peer.SwarmRegistry: `joinSwarm` is modelled with its library callback completed before the next call starts. The async race between the check on line 21 and the push on line 56 is therefore not modelled.
- Peer.SwarmRegistry.AcceptPeer: it models the evidently intended peer set (see Findings).
- Peer.CountIsConnectedPeers: it states the count of the corrected registry. As written, `countPeers` sums `.length` of the swarm library's `peers` collection, which the library fills itself. That library is not part of this model, so the as-written count is not modelled.
- Peer.AcceptAsWritten: the library's `peers` is taken to be the Array that line 79 reads `.length` of. Lines 52 and 54 call `delete` and `add` on it, which an Array lacks, so line 54 throws a TypeError. Were it a Set instead, line 79 would add `undefined` and `countPeers` would give NaN; the two lines cannot both work. What the uncaught TypeError does to the page, and the later TypeError of the `end` handler at line 52, are not modelled.
- Peer: the replication call made for an accepted peer is not modelled. Its signature differs from the session in client/net/replicate.js.
- AppModel: model.js writes project records with `discoveryKey`, while db/proseline.js asserts `projectDiscoveryKey` and `projectReadKey`. Each file is modelled against its own collaborator, and the mismatch is not reconciled.
- AppModel.JoinAction: the discovery key comes from `crypto.discoveryKey` (`discoveryKeyOf`), while `createProject` uses `crypto.hash`. Both are kept as separate functions, as written.
- AppModel.Client.LoadProject: the parallel reads of log key pair, marks, briefs, intros, activity, subscription and user intro are one error parameter. Only the project fields of the `project` reduction are modelled.
- AppModel.Client: the redirects, `pushState` and `listProjects` / `load projects` are not modelled.
- AppModel.PushNote: `notesCount` is an integer. An undefined count (NaN in the source), `treeifyNotes` and `replyTo` are not modelled.
- AppModel.CountNote: `push note` increments `notesCount` on the brief objects themselves. Other holders of those objects would see the change too. The model returns new values, so this aliasing is not modelled.
- AppModel.ProjectIntro: `project intro` assigns into `state.intros` in place. The model returns the new map, so that aliasing is not modelled. An `activity` that is undefined is not modelled either.
- Router: only the dispatch is modelled, not the views it renders. `pathOf` is not part of this model: the path is an input. Strings are sequences of characters, not UTF-16 code units.
- EntryKey: `LexLess` compares characters, while IndexedDB compares strings by UTF-16 code units. The two orders agree on digits, `:` and the hex and base64 public keys these keys are built from.
- DraftDescription: `parents` is read as `draftOrBrief.parents` on both sides of the `||`. A draft with no `parents` property would throw. The model takes the parent count, so that case is not modelled. The DOM text node is not modelled.
- The fetches to paid.proseline.com, download and backup, the timestamps, the UI views and the editor are I/O or DOM code and are out of scope.

## Findings

| source | as written | input that shows it | evidently intended | confidence | as-written member | corrected member |
|---|---|---|---|---|---|---|
| net/peer.js:50-54 | inside the `peer` handler `swarm` names the swarm library's object (line 32), so `swarm.peers.add(id)` and `swarm.peers.delete(id)` never reach the registry record's `peers` Set (line 59) that the dedup check on line 36 reads; that object's `peers` is the Array line 79 reads `.length` of, so the `add` throws a TypeError after the replication stream is already piped on line 50 | one peer id `"p"` announced by the swarms of two joined projects `"a"` and `"b"`: both start a replication stream with it, and both handlers throw | the record's own Set is filled on accept and emptied on end, so an id connected anywhere is refused | not executed | `Peer.AsWrittenAcceptsTwice` | `Peer.AcceptSpec` |
| model.js:163 | `join project` asserts that `projectKeyPair` is a string, but the join link sends an object (index.js:156-159) and `createProject` asserts an object (model.js:208) | any join from a link, e.g. a key pair object `{publicKey, secretKey}` for a project not yet stored: the first assertion throws | the key pair is checked to be an object, so a join over a missing or deleted project creates it | not executed | `AppModel.JoinAsWrittenNeverCreates` | `AppModel.JoinActionSpec` |
