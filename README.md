# mangle-apis in Dafny

This project models the in-memory decision logic of the mangle-apis game backend. Bola is the
game server and `mangle-api-core` is the framework it runs on. `mangledb` is an unfinished
replicated record store. The model covers these parts:

- the leaderboard: a sorted, duplicate-free list of scores with a length cap;
- tournament week arithmetic;
- the session token granter and its request extractor;
- the bearer API-token gate;
- the OpenID Connect and OAuth2 pending-login registries, and the login result pages;
- connection de-duplication for the neo API;
- the WebRTC room table and the room codes;
- record ownership, mirroring and namespaces in the two mangledb implementations:
  - `mangle-api-core/src/db/mangledb` (modules `CoreDb`, `CoreDbConn` and `CoreDbRemote`);
  - the `mangledb` crate (modules `OwnedStore` and `UniqueOwned`).

There is one Dafny module per source file. Three helper modules sit beside them:
- `Wrappers`: `Option`, `Result`, `Outcome`;
- `Bytes`: ASCII conversions;
- `Siblings`: the fan-out of one HTTP body to every sibling node.

Objects that the source updates behind a `Mutex`, `RwLock` or `DashMap` are Dafny classes. Their
fields are `map`, `set` and `seq` values. Each method states its new state as a function of the
old one. The properties are then proved as lemmas about those functions.

Some things the source gets from outside become plain inputs:
- Randomness is a draw stream `rng: nat -> nat`.
- Clock readings are a sequence of `Reading`s.
- Store and network failures are `TxFault`, `EmailLookup`, `Exchange` or `Result` values passed by
  the caller.
- Serialisation (bincode) and UTF-8 decoding are function parameters.

A Rust panic (`todo!`, `expect`, `unwrap` on `None`) becomes `Outcome.Panicked(message)`.

A blocking wait on another thread becomes a returned flag:
- `CoreDb.MangleDb.CheckedWriteRecord` returns `waited` when it waits for a mirror's owner to go.
- `OwnedStore.RecordNamespace.GetRecord` returns `Blocked(flag)` and leaves the caller queued.

Observations the model makes explicit:
- `get_record` on an unlocked owned name reads the record but never sets `is_locked`. So two
  holders can exist at once (`mangledb/src/db.rs:87-111`, `mangledb/src/unique_owned.rs:98-122`).
  `OwnedStore.RecordNamespace.GetRecord` keeps that behaviour as written.
- `into_owned_namespace` compares the new name with every slot, including the caller's own slot,
  which still holds `""`. So the empty name is always refused
  (`mangledb/src/db.rs:135`, `mangledb/src/db.rs:205`). This is an ensures of
  `OwnedStore.IntoOwnedNamespace`.
- `host_session_random_id` draws until it finds a vacant id and never stops if every id is taken.
  The model needs the draw stream to contain a vacant id.
- `join_session` reads the room under a read guard and later takes `get_mut` separately. Under
  concurrency two joins can both pass the size check. The model is sequential; there, a join
  followed by a send never exceeds `max_size`.
- `try_get_mirrored_data` and `checked_write_record` wait for the mirror holder's death while
  holding a lock that the holder's `Drop` needs. That is a possible deadlock, and concurrency is
  not modelled.
- `owned_names` starts empty (`Default::default()`, `mangledb/src/db.rs:158`), and neither
  `mangledb/src/db.rs` nor `mangledb/src/unique_owned.rs` ever inserts into it. So `get_record` on
  a freshly registered namespace always reaches `todo!("get ownership")`, and the waitlist and `Drop`
  paths are unreachable from it. The model is the same: no method adds an owned-name entry.
- The `assert!` on the difficulty string in `add_leaderboard_entry` is a precondition of
  `Leaderboard.Leaderboard.AddLeaderboardEntry`.

## Model

| member | source | states |
|---|---|---|
| Leaderboard.CmpStrEq | bola-api/src/leaderboard.rs:24-28 | lexicographic string comparison is `Eq` exactly for equal strings |
| Leaderboard.CmpStrFlip | bola-api/src/leaderboard.rs:24-28 | swapping the operands of the string comparison flips its result |
| Leaderboard.CmpStrTrans | bola-api/src/leaderboard.rs:24-28 | the string ordering is transitive |
| Leaderboard.CmpEqIffSame | bola-api/src/leaderboard.rs:24-28 | the derived entry ordering (score, then username) is `Eq` exactly for equal entries |
| Leaderboard.CmpAntisymmetric | bola-api/src/leaderboard.rs:24-28 | swapping two entries flips their comparison |
| Leaderboard.BelowTransitive | bola-api/src/leaderboard.rs:24-28 | "strictly below" on entries is transitive |
| Leaderboard.BelowIrreflexive | bola-api/src/leaderboard.rs:24-28 | no entry is strictly below itself |
| Leaderboard.SortedHasNoDuplicates | bola-api/src/leaderboard.rs:87-91 | a strictly ascending board never holds two equal entries |
| Leaderboard.InsertSortedElements | bola-api/src/leaderboard.rs:87-91 | a new entry is added once, and all old entries are kept; an entry already present leaves the board unchanged |
| Leaderboard.InsertSortedIsSorted | bola-api/src/leaderboard.rs:87-91 | inserting at the sorted position keeps the board strictly ascending |
| Leaderboard.InsertAtSearchIndex | bola-api/src/leaderboard.rs:87-91 | inserting at the index where binary search stops puts the entry between the smaller and the larger ones |
| Leaderboard.SearchIndexExcludes | bola-api/src/leaderboard.rs:87-89 | when binary search stops at an insertion index, the entry is not on the board |
| Leaderboard.TruncateProperties | bola-api/src/leaderboard.rs:93-95 | `pop` over the span removes exactly the last, greatest element and keeps the board sorted; within the span nothing is removed |
| Leaderboard.AddEntryProperties | bola-api/src/leaderboard.rs:85-95 | after an add the board is sorted and stays within the span if it was; a present entry changes nothing; otherwise the result is the entry inserted in order, minus the last element when over the span |
| Leaderboard.BinarySearch | bola-api/src/leaderboard.rs:87-91 | `Ok(i)` means slot i holds the entry; `Err(k)` means everything before k is smaller and everything from k on is larger |
| Leaderboard.Board.constructor | bola-api/src/leaderboard.rs:53-71 | a board starts empty |
| Leaderboard.Leaderboard.constructor | bola-api/src/leaderboard.rs:53-71 | the three difficulty boards start empty with the given span |
| Leaderboard.Leaderboard.AddLeaderboardEntry | bola-api/src/leaderboard.rs:73-145 | the board becomes the sorted insert plus truncation; a duplicate returns `Ok` with no DB work and no broadcast; otherwise the broadcast snapshot is the new board, and `NotAUser`/`InternalError` follow a failed email lookup or update, with the in-memory change kept |
| Leaderboard.Leaderboard.AddEasyEntry | bola-api/src/leaderboard.rs:146-157 | adds through the easy board only and keeps the board invariant; reports exactly what `add_leaderboard_entry` reports with difficulty "easy": the duplicate no-op, the snapshot, `NotAUser`/`InternalError`, the `easy_highscore` write and the broadcast |
| Leaderboard.Leaderboard.AddNormalEntry | bola-api/src/leaderboard.rs:158-169 | adds through the normal board only and keeps the board invariant; reports exactly what `add_leaderboard_entry` reports with difficulty "normal": the duplicate no-op, the snapshot, `NotAUser`/`InternalError`, the `normal_highscore` write and the broadcast |
| Leaderboard.Leaderboard.AddExpertEntry | bola-api/src/leaderboard.rs:170-181 | adds through the expert board only and keeps the board invariant; reports exactly what `add_leaderboard_entry` reports with difficulty "expert": the duplicate no-op, the snapshot, `NotAUser`/`InternalError`, the `expert_highscore` write and the broadcast |
| Tournament.New | bola-api/src/tournament.rs:24-30 | week 0 of a new tournament starts at the configured instant and ends one week later |
| Tournament.ResolveElapsed | bola-api/src/tournament.rs:35-44 | the clock retry gives `None` exactly when a reading stayed before the start past the 1 s budget, and otherwise an elapsed value that was read |
| Tournament.GetTournamentWeek | bola-api/src/tournament.rs:32-55 | `None` exactly when the retry gives up; otherwise the week data for the elapsed seconds read |
| Tournament.WeekDataProperties | bola-api/src/tournament.rs:46-53 | week = elapsed / 604800; start = week·604800 + start secs; end − start = 604800; the current instant lies in [start, end) |
| Tournament.DivDivDiv | bola-api/src/tournament.rs:46 | dividing by 3600, 24 and 7 in turn is dividing by 604800 |
| Tournament.WeekIsMonotonic | bola-api/src/tournament.rs:46 | the week number never decreases as elapsed time grows |
| Tournament.SameWeekSameData | bola-api/src/tournament.rs:46-53 | two instants in the same week give the same data, seed included |
| Alphanumeric.CharsetByte | mangle-api-core/src/auth/token.rs:63-66 | each of the 62 charset positions is an ASCII letter or digit |
| Alphanumeric.CharsetInjective | mangle-api-core/src/auth/token.rs:63-66 | distinct charset positions give distinct characters |
| Alphanumeric.Pick | mangle-api-core/src/auth/token.rs:63-66 | every sampled character is alphanumeric ASCII |
| Alphanumeric.Sample | mangle-api-core/src/auth/token.rs:63-66 | n draws give exactly n alphanumeric ASCII bytes, the i-th coming from the i-th draw |
| Token.Lookup | mangle-api-core/src/auth/token.rs:97-104 | a token is found iff it is in the table, and then it yields its stored item |
| Token.BasicTokenGranter.constructor | mangle-api-core/src/auth/token.rs:53-60 | a granter starts with no tokens and the given token duration |
| Token.BasicTokenGranter.CreateToken | mangle-api-core/src/auth/token.rs:62-91 | the token is the n-character sample; it is stored with the item and a fresh expiry task id |
| Token.BasicTokenGranter.RevokeToken | mangle-api-core/src/auth/token.rs:93-95 | returns the stored item, or `None` for an unknown token, and removes only that token |
| Token.BasicTokenGranter.VerifyToken | mangle-api-core/src/auth/token.rs:97-104 | returns the item iff the token is present, and changes nothing |
| Token.BasicTokenGranter.ExpireTask | mangle-api-core/src/auth/token.rs:81-88 | the expiry event removes the token only if it still carries that task |
| Token.VerifyAfterCreate | mangle-api-core/src/auth/token.rs:72-75 | verifying a freshly created token returns its item |
| Token.RevokeEffect | mangle-api-core/src/auth/token.rs:93-104 | after a revoke the token is unknown and every other token's item is unchanged |
| Token.ExpireEffect | mangle-api-core/src/auth/token.rs:81-88 | expiry touches no other token; it removes the token only when the task matches and otherwise changes nothing |
| Token.RevokedTaskIsCancelled | mangle-api-core/src/auth/token.rs:81-95 | once a token is revoked and created again, the old expiry task no longer removes it |
| Token.FromRequestParts | mangle-api-core/src/auth/token.rs:174-196 | a missing header or a wrong length gives 400 with no lookup; an unknown token gives 401; otherwise `Ok` with the token and its item |
| Token.ExtractorAcceptsCreatedToken | mangle-api-core/src/auth/token.rs:62-75 | the extractor accepts a token just created, with its item |
| Token.ExtractorRejectsRevokedToken | mangle-api-core/src/auth/token.rs:93-95 | the extractor answers 401 for a revoked token |
| Bearer.BearerPrefixIsAscii | mangle-api-core/src/auth/bearer.rs:65-67 | the prefix is the 7 bytes of "Bearer " |
| Bearer.Authorize | mangle-api-core/src/auth/bearer.rs:43-79 | a public path is authorised whatever the headers; a missing or non-visible-ASCII header is rejected |
| Bearer.AuthorizeIffBearerToken | mangle-api-core/src/auth/bearer.rs:55-76 | a request is authorised iff the path is public, or the header is visible ASCII and is exactly "Bearer " followed by the API token |
| Bearer.PrefixIsCaseAndSpaceSensitive | mangle-api-core/src/auth/bearer.rs:65-67 | "bearer " and "Bearer  " (two spaces) before the right token are rejected |
| AuthPages.AuthPages.constructor | mangle-api-core/src/auth/auth_pages.rs:20-34 | after `new(src)` each getter returns the matching field of `src` |
| AuthPages.AuthPages.BorrowLate | mangle-api-core/src/auth/auth_pages.rs:36-38 | the late page; the constructor pins it to `src.late` and `SetLate(v)` to `v` |
| AuthPages.AuthPages.BorrowInvalid | mangle-api-core/src/auth/auth_pages.rs:40-42 | the invalid page; the constructor pins it to `src.invalid` and `SetInvalid(v)` to `v` |
| AuthPages.AuthPages.BorrowInternalError | mangle-api-core/src/auth/auth_pages.rs:44-46 | the internal-error page; the constructor pins it to `src.internalError` and `SetInternalError(v)` to `v` |
| AuthPages.AuthPages.BorrowSuccess | mangle-api-core/src/auth/auth_pages.rs:48-50 | the success page; the constructor pins it to `src.success` and `SetSuccess(v)` to `v` |
| AuthPages.AuthPages.SetLate | mangle-api-core/src/auth/auth_pages.rs:52-54 | the late page becomes v; the other three are unchanged |
| AuthPages.AuthPages.SetInvalid | mangle-api-core/src/auth/auth_pages.rs:56-58 | the invalid page becomes v; the other three are unchanged |
| AuthPages.AuthPages.SetInternalError | mangle-api-core/src/auth/auth_pages.rs:60-62 | the internal-error page becomes v; the other three are unchanged |
| AuthPages.AuthPages.SetSuccess | mangle-api-core/src/auth/auth_pages.rs:64-66 | the success page becomes v; the other three are unchanged |
| AuthPages.AuthPages.Clone | mangle-api-core/src/auth/auth_pages.rs:10-17 | a clone is a new object holding the same four pages |
| OpenId.CsrfToken | mangle-api-core/src/auth/openid.rs:19 | the CSRF state is 32 alphanumeric ASCII characters taken from the draws |
| OpenId.TrailingIsJoinPlusSpace | mangle-api-core/src/auth/openid.rs:68-74 | appending scope plus space for each scope gives the space-joined string plus one trailing space |
| OpenId.ScopeString | mangle-api-core/src/auth/openid.rs:68-74 | the loop with its final `pop` yields the scopes joined by single spaces |
| OpenId.JoinLayout | mangle-api-core/src/auth/openid.rs:68-74 | a non-empty join starts with the first scope, ends with the last, and is exactly one separator per gap longer than the scopes together |
| OpenId.VerdictCases | mangle-api-core/src/auth/openid.rs:166-195 | success iff granted with an id_token that decodes and validates; invalid iff `InvalidGrant` or a validation failure; internal error otherwise; userinfo is delivered iff success |
| OpenId.OidcState.constructor | mangle-api-core/src/auth/openid.rs:108-112 | the registry starts empty |
| OpenId.OidcState.TrackSession | mangle-api-core/src/auth/openid.rs:126-144 | the pending session is stored under its CSRF token, and the untracker names that token |
| OpenId.OidcState.UntrackSession | mangle-api-core/src/auth/openid.rs:148-150 | removes only that CSRF token |
| OpenId.OidcState.DropUntracker | mangle-api-core/src/auth/openid.rs:119-123 | dropping the untracker removes only its CSRF token |
| OpenId.OidcState.VerifyAuth | mangle-api-core/src/auth/openid.rs:152-196 | an unknown state gives the late page and changes nothing; a known one is removed first, then the page follows the verdict and the userinfo goes to that session's waiter on success |
| OpenId.Oidc.constructor | mangle-api-core/src/auth/openid.rs:37-56 | keeps the given registry and client |
| OpenId.Oidc.InitiateAuth | mangle-api-core/src/auth/openid.rs:58-101 | the options carry the joined scopes and the CSRF state; the session is tracked under that state |
| OAuth2.AddScopes | mangle-api-core/src/auth/oauth2.rs:104-108 | the loop appends every scope in order and leaves the rest of the request unchanged |
| OAuth2.ExchangePageCases | mangle-api-core/src/auth/oauth2.rs:221-239 | success iff the exchange succeeded; invalid iff a `ServerResponse` error; internal error for every other error; never late |
| OAuth2.OAuthState.constructor | mangle-api-core/src/auth/oauth2.rs:158-161 | the registry starts empty |
| OAuth2.OAuthState.TrackSession | mangle-api-core/src/auth/oauth2.rs:175-195 | the pending session, with its PKCE verifier, is stored under the CSRF secret; the untracker names it |
| OAuth2.OAuthState.UntrackSession | mangle-api-core/src/auth/oauth2.rs:197-199 | removes only that key |
| OAuth2.OAuthState.DropUntracker | mangle-api-core/src/auth/oauth2.rs:168-172 | dropping the untracker removes only its key |
| OAuth2.OAuthState.VerifyAuth | mangle-api-core/src/auth/oauth2.rs:201-240 | an unknown state gives the late page and no exchange; a known one is consumed; the exchange carries the PKCE verifier iff one was stored; the page follows the exchange outcome and the token goes to the waiter on success |
| OAuth2.OAuth.constructor | mangle-api-core/src/auth/oauth2.rs:75-98 | keeps the PKCE switch, the registry and the client |
| OAuth2.OAuth.InitiateAuth | mangle-api-core/src/auth/oauth2.rs:100-147 | the request carries the CSRF token and scopes; a PKCE challenge is attached and a verifier stored iff PKCE is on |
| NeoApi.AcquireCases | mangle-api-core/src/neo_api/mod.rs:65-76 | acquiring succeeds iff the id was free, and then adds it; a taken id gives `Err(id)` with the set unchanged; afterwards the id is in the set |
| NeoApi.SecondAcquireFails | mangle-api-core/src/neo_api/mod.rs:65-76 | acquiring the same id twice fails the second time with that id |
| NeoApi.AcquireReleaseRoundTrip | mangle-api-core/src/neo_api/mod.rs:35-39 | acquiring then releasing a free id restores the set, and the id can be acquired again |
| NeoApi.ReleaseIsLocal | mangle-api-core/src/neo_api/mod.rs:35-39 | dropping a lock frees its id and no other |
| NeoApi.ConnectionManager.constructor | mangle-api-core/src/neo_api/mod.rs:52-59 | the manager starts with no connections and the given ping delay |
| NeoApi.ConnectionManager.IsConnectionLocked | mangle-api-core/src/neo_api/mod.rs:61-63 | membership of the id in the connection set; `GetConnectionLock` and `DropLock` state their effect through it |
| NeoApi.ConnectionManager.GetConnectionLock | mangle-api-core/src/neo_api/mod.rs:61-76 | succeeds iff the id was not locked before; the id is locked afterwards |
| NeoApi.ConnectionManager.DropLock | mangle-api-core/src/neo_api/mod.rs:35-39 | the id is no longer locked, and nothing else changes |
| Multiplayer.TryFrom | bola-api/src/multiplayer.rs:9-14 | conversion fails iff the value is 0; otherwise the code holds the value |
| Multiplayer.GenRange | bola-api/src/multiplayer.rs:19 | the generated value lies in 1000..=9999 |
| Multiplayer.Generate | bola-api/src/multiplayer.rs:17-21 | the code lies in 1000..=9999 and the `unwrap` on `try_from` cannot fail |
| Multiplayer.GenerateCoversRange | bola-api/src/multiplayer.rs:19 | every value in 1000..=9999 can be generated |
| WebRtc.Deliveries | mangle-api-core/src/webrtc.rs:145-167 | offer i goes to peer i with answer index i |
| WebRtc.NewSession | mangle-api-core/src/webrtc.rs:226-230 | a new room has exactly the host as its one peer, and the given size |
| WebRtc.JoinedKeepsInvariant | mangle-api-core/src/webrtc.rs:169-170 | adding one peer to a room that is not full keeps the old peers and stays within `max_size` |
| WebRtc.SmallRoomIsFull | mangle-api-core/src/webrtc.rs:248-250 | a room of size 0 or 1 is full right after hosting |
| WebRtc.SessionManager.constructor | mangle-api-core/src/webrtc.rs:274-285 | the room table starts empty |
| WebRtc.SessionManager.HostSession | mangle-api-core/src/webrtc.rs:221-239 | an existing id gives `ExistingSessionError` with the table unchanged; a new id gets a one-peer room |
| WebRtc.SessionManager.JoinSession | mangle-api-core/src/webrtc.rs:241-258 | `NotFound` for an unknown id, `Full` when peers ≥ `max_size`; otherwise a sender whose member count is the current peer count |
| WebRtc.SessionManager.SendSdpOffers | mangle-api-core/src/webrtc.rs:132-180 | a count mismatch hands the offers back with the peers unchanged; otherwise offer i goes to peer i and exactly one peer is appended, staying within `max_size` |
| WebRtc.SessionManager.DropHost | mangle-api-core/src/webrtc.rs:92-96 | dropping the host receiver removes only its room |
| WebRtc.SessionManager.HostSessionRandomId | mangle-api-core/src/webrtc.rs:265-271 | returns the first drawn id that was vacant, and hosts a new room there |
| Siblings.Broadcast | mangle-api-core/src/db/mangledb/conn.rs:46-64 | one post per sibling address, in order, each with the same body |
| Siblings.SendToAll | mangle-api-core/src/db/mangledb/conn.rs:46-64 | the send loop produces exactly the broadcast |
| Siblings.BroadcastReachesEachOnce | mangle-api-core/src/db/mangledb/conn.rs:46-64 | every post carries the body; an address is posted to iff it is a sibling, as many times as it is listed |
| Siblings.MultiplicityMatches | mangle-api-core/src/db/mangledb/conn.rs:46-64 | the number of posts to an address equals the number of times it is listed |
| CoreDbConn.PropagateOwnedWrite | mangle-api-core/src/db/mangledb/conn.rs:39-65 | one request per sibling, each carrying the serialised (namespace, name, data) triple |
| CoreDbRemote.RemoteOwnerWrite | mangle-api-core/src/db/mangledb/conn.rs:69-95 | a body that does not decode gives 500; an owned record gives 400; both write nothing; otherwise the data is stored, with 200 iff the write succeeds and 500 otherwise |
| PersyStore.Persy.constructor | mangledb/src/db.rs:217-221 | the store holds the given records, indexes and segments |
| PersyStore.Persy.One | mangledb/src/db.rs:224-230 | an index lookup fails iff the index is missing, and otherwise finds exactly the stored value |
| PersyStore.Persy.Scan | mangle-api-core/src/db/mangledb/mod.rs:45-47 | a segment scan fails iff the segment is missing, and otherwise lists its contents |
| PersyStore.Persy.WriteRecord | mangle-api-core/src/db/mangledb/mod.rs:155-160 | a failed begin gives `BeginTransactionError`, a missing index `InsertError`, a failed commit `PrepareError`; only a successful write changes the records, by exactly that key |
| PersyStore.Persy.ReadRecord | mangle-api-core/src/db/mangledb/mod.rs:99-105 | a missing index gives `IndexOpsError`; a missing record panics; otherwise the decoded value, or `DeserializeError` |
| CoreDb.FindNamespace | mangle-api-core/src/db/mangledb/mod.rs:69-73 | finds the first entry with that namespace, or `None` iff there is none |
| CoreDb.DecodeErrorPersists | mangle-api-core/src/db/mangledb/mod.rs:45-47 | once a scanned name fails to decode, open fails with that error whatever follows |
| CoreDb.BuildErrorPersists | mangle-api-core/src/db/mangledb/mod.rs:43-54 | once one namespace fails, open fails with that error whatever follows |
| CoreDb.DecodeNamesMeaning | mangle-api-core/src/db/mangledb/mod.rs:45-47 | the scan succeeds iff every stored name is UTF-8, and the owned set is exactly the decoded names |
| CoreDb.BuildEntriesShape | mangle-api-core/src/db/mangledb/mod.rs:39-63 | open succeeds iff every namespace's entry does; then there is one entry per namespace, in order |
| CoreDb.EntryForMeaning | mangle-api-core/src/db/mangledb/mod.rs:43-54 | an entry's owned names are those decoded from segment "_{ns}_owned", and it starts with no mirrors |
| CoreDb.ScanOwnedNames | mangle-api-core/src/db/mangledb/mod.rs:45-47 | the inner scan loop computes the decoded owned-name set, stopping at the first failure |
| CoreDb.ScanNamespaces | mangle-api-core/src/db/mangledb/mod.rs:43-54 | the outer loop computes the entry list, stopping at the first failure |
| CoreDb.MangleDb.constructor | mangle-api-core/src/db/mangledb/mod.rs:56-62 | keeps the store, the entries, the siblings and the serialiser |
| CoreDb.MangleDb.IsRecordOwned | mangle-api-core/src/db/mangledb/mod.rs:184-199 | false for an unknown namespace, otherwise membership of the first matching entry's owned set; its meaning is stated by `IsRecordOwnedMeaning` |
| CoreDb.MangleDb.IsRecordOwnedMeaning | mangle-api-core/src/db/mangledb/mod.rs:184-199 | false for an unknown namespace, otherwise membership of that namespace's owned set |
| CoreDb.MangleDb.CheckedWriteRecord | mangle-api-core/src/db/mangledb/mod.rs:65-97 | an unknown namespace gives `UnrecognizedNamespace` and writes nothing; a mirrored name is waited for; a name not owned panics; an owned name is written and exactly that triple is propagated |
| CoreDb.MangleDb.TryGetMirroredData | mangle-api-core/src/db/mangledb/mod.rs:107-141 | an unknown namespace is an error; otherwise the name is registered as mirrored before the read, so a failed read leaves it registered |
| CoreDb.MangleDb.DropMirroredData | mangle-api-core/src/db/mangledb/mod.rs:143-153 | removes the name from that namespace's mirror map only; nothing changes for an unknown namespace |
| CoreDb.MangleDb.OwnRecord | mangle-api-core/src/db/mangledb/mod.rs:162-182 | the record check comes first (`IndexOpsError` or `UnrecognizedName`); then an unknown namespace gives `UnrecognizedNamespace`; on success exactly that namespace's owned set gains the name, and every other entry and field is unchanged |
| CoreDb.FindIgnoresOwnedNames | mangle-api-core/src/db/mangledb/mod.rs:170-181 | changing an entry's owned set does not change which entry a namespace finds |
| CoreDb.FindUnchanged | mangle-api-core/src/db/mangledb/mod.rs:143-153 | entries with the same namespaces in the same order find the same entry |
| CoreDb.Open | mangle-api-core/src/db/mangledb/mod.rs:39-63 | open fails with the first scan or UTF-8 error; otherwise the database has one entry per namespace, built from the owned segments |
| OwnedStore.Db.constructor | mangledb/src/db.rs:196-200 | keeps the store and the siblings |
| OwnedStore.ReleaseCases | mangledb/src/db.rs:47-56 | with an empty waitlist the name is unlocked and nobody is woken; otherwise the front waiter is woken, the rest stay queued in order, and the name stays locked |
| OwnedStore.DrainWakesInOrder | mangledb/src/db.rs:47-56 | k releases wake the first k waiters in queue order |
| OwnedStore.FifoHandOff | mangledb/src/db.rs:90-95 | waiters queued one after another on a locked name are woken in the order they arrived |
| OwnedStore.RecordNamespace.constructor | mangledb/src/db.rs:158-171 | a new namespace has no owned names |
| OwnedStore.RecordNamespace.ReadAfterWake | mangledb/src/db.rs:104-110 | a successful read returns the value with this namespace and the name; its errors and panics are those of the store read |
| OwnedStore.RecordNamespace.GetRecord | mangledb/src/db.rs:87-111 | an unknown name panics; a locked name queues the caller at the back; an unlocked name is read and left unlocked |
| OwnedStore.RecordNamespace.Drop | mangledb/src/db.rs:47-56 | a missing entry panics; otherwise the lock is handed to the front waiter, or released if none |
| OwnedStore.RecordNamespace.Finalize | mangledb/src/db.rs:21-27 | writes the serialised record under its name, keeping the store's indexes and segments, then drops the record |
| OwnedStore.CreateNamespaces | mangledb/src/db.rs:203-212 | N handles, indices 0..N−1, sharing one new array filled with "" |
| OwnedStore.KeysSegment | mangledb/src/db.rs:148 | the keys segment is "_" ++ namespace ++ "_keys" |
| OwnedStore.IntoOwnedNamespace | mangledb/src/db.rs:132-173 | a leading '_' or a name present in any slot panics, so the empty name is always refused; otherwise the name takes its own slot only; the missing index and keys segment are created, the first failing creation's fault is returned and stops the rest, and `Ok` comes exactly when both exist afterwards |
| UniqueOwned.OwnedWriteTagIsAscii | mangledb/src/unique_owned.rs:25 | the tag bytes are "OwnedWrite" |
| UniqueOwned.PayloadParts | mangledb/src/unique_owned.rs:25-27 | the payload is "OwnedWrite" ++ [0] ++ data, 11 bytes longer, and distinct data give distinct payloads |
| UniqueOwned.Finalize | mangledb/src/unique_owned.rs:15-40 | writes the serialised record, keeping the store's indexes and segments; a failed write returns the error and propagates nothing; a successful one sends the tagged payload to every sibling; the lock is released in both paths |

## Left out

- Async runtime, threads and blocking: locks, channels, `wait_for_death`, the aliveness pairs
  and the ping tasks belong to the runtime and are not modelled. Waiting shows up as a flag in
  the result.
- Leaderboard.Leaderboard.AddLeaderboardEntry: the DynamoDB update and the broadcast channel are
  inputs (`EmailLookup`, `updateOk`) and outputs (`Effects`). The model does not check the
  attribute name format sent to DynamoDB beyond passing it along.
- Leaderboard.Leaderboard.AddLeaderboardEntry: the difficulty `assert!` is a precondition rather
  than a panic, because the three public entry points only pass the three valid names.
- Tournament.GetTournamentWeek: the `StdRng` seed is an uninterpreted function of the week, and
  the `u64` arithmetic is unbounded. Overflow would need an elapsed time of about 10^13 years.
- Alphanumeric.Pick: `rand`'s `Alphanumeric` uses rejection sampling; here a draw is mapped to the
  62 characters by `% 62`. Only the charset and the length are modelled.
- Token.BasicTokenGranter.ExpireTask: the `sleep` timer is an explicit expiry event with the task
  id, instead of a clock.
- OAuth2.OAuth.InitiateAuth: the CSRF secret, PKCE challenge and verifier are inputs. Building the
  authorisation URL, a call into the `oauth2` crate, is not modelled.
- OpenId.OidcState.VerifyAuth and OAuth2.OAuthState.VerifyAuth: the provider exchange, id_token
  decoding and validation are one outcome value passed in. `MAX_AUTH_WAIT_TIME` and the waiter's
  channel are not modelled.
- OpenId.Oidc.InitiateAuth: the authorisation URL built by the `openid` crate is represented only
  by the options it receives.
- WebRtc.SessionManager.HostSessionRandomId: it requires that some draw is vacant, because the
  source loops forever when every id is taken.
- WebRtc.SessionManager.HostSession: the `mpsc::channel(max_size)` and `broadcast::channel(0)` it creates are opaque numbers. tokio documents that both constructors panic on a capacity of 0, so `host_session` as written would panic at `broadcast::channel(0)` for every vacant id; the model does not capture that panic and hosts the room.
- WebRtc.SessionManager.SendSdpOffers: the tokio channels are opaque numbers; channel capacity and
  send failures are not modelled.
- WebRtc.SessionManager.JoinSession: the race between the read guard and `get_mut` is not
  modelled, because the model is sequential.
- PersyStore.Persy.WriteRecord: a persy transaction is one of three fault outcomes; the store
  file, segment creation order and crash recovery are not modelled.
- CoreDb.MangleDb.CheckedWriteRecord: the wait for a mirror's owner to die is reported as
  `waited`; the deadlock it can cause is not modelled.
- OwnedStore.IntoOwnedNamespace: index and segment creation failures are the two `TxFault`
  inputs; a failure is returned as that fault. The `exists_index` and `exists_segment` queries
  (`mangledb/src/db.rs:139`, `mangledb/src/db.rs:149`) can fail as well; the model treats them as
  always answering, so those two error paths are not modelled.
- The `ws.rs`, `tls.rs`, `distributed.rs`, `redis.rs` and `lib.rs` files, the messagist crate,
  `manglext`, and the bola-api orchestration files (`main.rs`, `user_auth.rs`, `ws_api.rs`,
  `users.rs`, `state.rs`, `db.rs`, `control.rs`, `network.rs`, `config.rs`) are I/O and
  bootstrap plumbing and are not part of this model.
- `mangle-api-core/src/db/mangledb/structs.rs` and `serde.rs`, `sync.rs` in both crates,
  `mangledb/src/conn.rs` and `mangledb/src/error.rs` are not part of this model, beyond the
  error variants they declare. The `MirroredStruct` write-back is covered by the store write.
- Bincode serialisation and UTF-8 decoding are function parameters. Their own round trips are
  not modelled.
- `mangledb/src/unique_owned.rs` repeats `get_record` and `Drop` from `mangledb/src/db.rs`.
  Both are modelled once, by `OwnedStore.RecordNamespace`. The two `finalize` versions differ
  and are modelled separately.
