# IqraTogether session core in Dafny

IqraTogether lets a host and participants read a dua or a surah of the Quran
together. A Node/socket.io server keeps a map of sessions. Each session has a
participant list with one host, the content the host selected, and the host's
phrase index. Each browser runs a React context (the session agent) that
mirrors the host's content and index while "synced" and lets a participant
browse on their own while "unsynced". The session screen drives the agent:
phrase navigation, the host's auto-advance, content selection and the Back
button. The selection page filters the lists, and the client bundles its own
merged copy of the Quran.

This project models that core and proves properties of it.

| file | module | models |
|---|---|---|
| `wrappers.dfy` | `Wrappers` | `Option` (JavaScript `null`/`undefined`) |
| `decimal.dfy` | `Decimal` | `String(n)` and `parseInt(s, 10)` on decimal numerals |
| `protocol.dfy` | `Protocol` | the records exchanged over the socket, JavaScript truthiness and `\|\|` on strings |
| `server_quran.dfy` | `ServerQuran` | the start-up metadata build and sort; `getMergedSurahData` |
| `server_sessions.dfy` | `SessionServer` | the `sessions` map and the six session handlers, as the class `Server` over pure per-session functions |
| `client_agent.dfy` | `ClientAgent` | the `SocketProvider` state, as the class `SessionAgent` whose methods follow pure transition functions |
| `client_app.dfy` | `ClientApp` | `navigate`, the auto-advance tick, `handleContentSelection`, `handleBack` and `currentPhraseData`, with the class `AppView` |
| `selection_filter.dfy` | `SelectionFilter` | `filterContent` |
| `quran_collection.dfy` | `QuranCollection` | the client's module-level Quran collection build |

Each handler and action that changes state is a method on a class. Its
`ensures` gives the whole new state as a pure function of the old state. The
properties are proved about those functions: invariants kept, what
synchronisation means, ranges, order and membership.

Where the code and the project's design description disagree, the model
follows the code:
- The server has no disconnect grace period and no reconnection by name. A
  disconnect removes the socket's record at once.
- The server never emits `session-not-found` or `username-taken`. An unknown
  session id on `join-session` gets a generic `error` event. The client's
  listeners for the two events are modelled, but no server step produces
  them.
- `create-session` does not check whether the generated id is already in use.
  An existing entry is overwritten and keeps its place in the map's
  enumeration order.
- The `isHostAttemptingRejoin` flag that `joinSession` sends is never read by
  the server.
- `join-session` does not check whether the socket already has a record. A
  second join adds a second record, and a later `transfer_host` to that socket
  flags both records as host. `SessionServer.DuplicateJoinThenTransferFlagsTwoHosts`
  exhibits this. The single-host invariant is therefore proved under the
  assumption that participant ids are distinct.
- "Synced" does not imply "shows the host's content". A participant who has
  lost the connection and picks content keeps `isSyncedToHost` true
  (`ClientAgent.OfflineLocalSelectionKeepsSyncFlag`).
- The Back button of a host on the selection page emits `leave_session`. The
  server has no handler for it, so nothing happens on the server.

## Model

| member | source | states |
|---|---|---|
| `Decimal.NatToString` | server/index.js:158 | `String(i)` yields a decimal numeral, with more than one digit exactly when i >= 10 |
| `Decimal.ParseNatToString` | server/index.js:70 | `parseInt(String(n), 10) == n`, so the sort key of an ayah or surah number is that number |
| `Decimal.NatToStringInjective` | server/index.js:158 | distinct ayah numbers give distinct lookup keys |
| `ServerQuran.MetaListMembers` | server/index.js:50-67 | the mapped and filtered list holds one entry per surah with an `Ayahs` object and no other; each entry counts that surah's ayah keys |
| `ServerQuran.InsertNext` | server/index.js:70 | one insertion step of the sort: the prefix grows sorted by surah number, and the array stays a permutation |
| `ServerQuran.SortMetadata` | server/index.js:70 | the in-place sort leaves the list ordered by `parseInt(id)` and is a permutation of its input |
| `ServerQuran.BuildMetadata` | server/index.js:47-70 | the metadata list is sorted by surah number, is a permutation of the mapped and filtered list, and holds exactly the surahs that have `Ayahs`, with their ayah counts |
| `ServerQuran.FindMeta` | server/index.js:123 | `find` returns None exactly when no entry has the id, and otherwise the first entry that has it |
| `ServerQuran.GetMergedSurahData` | server/index.js:122-182 | null exactly when the metadata or one of the three `Ayahs` objects is missing; otherwise exactly `totalAyahs` verses, verse i numbered i+1 and built from the key `String(i+1)`, missing texts read as '' |
| `SessionServer.IdCountZeroIff` | server/index.js:417 | a socket has no record exactly when `findIndex` finds none |
| `SessionServer.UniqueIdsIff` | server/index.js:271-275 | participant ids are distinct exactly when every id has at most one record |
| `SessionServer.NewSession` | server/index.js:233-244 | a new session has the caller as host and only participant, no content and index 0; it has one host and distinct ids |
| `SessionServer.Joined` | server/index.js:271-275 | a join appends exactly one non-host record at the end; earlier records, host, content and index are unchanged |
| `SessionServer.JoinKeepsSingleHost` | server/index.js:271-275 | a join keeps exactly one host |
| `SessionServer.JoinKeepsUniqueIdsIff` | server/index.js:271-275 | after a join the ids are distinct exactly when they were before and the caller had no record |
| `SessionServer.StoredContent` | server/index.js:320-332 | the stored record keeps type, id and title; `totalAyahs` is present exactly for quran and is the metadata's count, or 0 when the surah is unknown |
| `SessionServer.AfterSelect` | server/index.js:307-333 | `null` clears the selection and a well-formed payload stores its record; the index is reset to 0 and the participants are untouched |
| `SessionServer.AcceptedIndex` | server/index.js:355-368 | a non-number or negative index is ignored; for quran with a known length an index past the end becomes the last index (-1 when the length is 0); any other index is stored as sent |
| `SessionServer.MarkHost` | server/index.js:400-403 | after the `map`, a record is host exactly when its id is the new host's; ids and names are kept |
| `SessionServer.MarkHostCount` | server/index.js:400-403 | after the `map`, the number of hosts equals the number of records of the new host |
| `SessionServer.Transferred` | server/index.js:399-403 | the new host id is stored and exactly its records are flagged; nothing else changes |
| `SessionServer.TransferSingleHostIff` | server/index.js:389-403 | a transfer leaves exactly one host exactly when the target's id occurs once |
| `SessionServer.TransferKeepsInvariants` | server/index.js:389-403 | with distinct ids, a transfer keeps one host and distinct ids |
| `SessionServer.FindIndex` | server/index.js:417 | `findIndex`: -1 exactly when there is no record, otherwise the first one |
| `SessionServer.AfterLeave` | server/index.js:420-427 | the splice removes exactly the first record of the socket and keeps the order of the rest; when the host leaves, the first remaining record becomes host |
| `SessionServer.LeaveEvents` | server/index.js:423-437 | `host_transferred` is sent exactly when the host left and someone remains; `update_participants` with the new list always comes last |
| `SessionServer.DisconnectKeepsSingleHost` | server/index.js:416-437 | a disconnect keeps exactly one host, provided a departing host has only one record |
| `SessionServer.DisconnectKeepsUniqueIds` | server/index.js:421 | a disconnect keeps participant ids distinct |
| `SessionServer.LeaveKeepsInvariants` | server/index.js:416-437 | with distinct ids, a disconnect keeps one host and distinct ids |
| `SessionServer.DuplicateJoinThenTransferFlagsTwoHosts` | server/index.js:271-275 | a socket that joins twice has two records, and a transfer to it leaves two hosts |
| `SessionServer.FirstHolding` | server/index.js:416-419 | the loop's target is the first session, in insertion order, that holds the socket; -1 when none does |
| `SessionServer.RemoveKey` | server/index.js:440 | deleting a key removes it from the enumeration order and keeps the order duplicate-free |
| `SessionServer.Server.CreateSession` | server/index.js:230-260 | stores the new session under the fresh id (overwriting, with no collision check), appends a new key to the order, and sends `session-created` then `update_participants`; keeps one host and distinct ids |
| `SessionServer.Server.JoinSession` | server/index.js:263-295 | for an unknown id, sends the error and changes nothing; otherwise appends the caller and sends `session-joined` with `contentSelected == (selectedContent != null)` |
| `SessionServer.Server.SelectContent` | server/index.js:299-347 | ignores a missing session or a non-host; rejects a malformed payload with an error; otherwise stores the selection and broadcasts it with index 0 |
| `SessionServer.Server.HostUpdateIndex` | server/index.js:351-374 | ignores a missing session, a non-host and a rejected index; otherwise stores and broadcasts the accepted index |
| `SessionServer.Server.TransferHost` | server/index.js:389-410 | ignores a missing session, a non-host or an absent target; otherwise stores the transfer and broadcasts `host_transferred` |
| `SessionServer.Server.LeaveSession` | server/index.js:419-444 | removes the socket's record, sends the leave events, and deletes the session (and its key) once it is empty |
| `SessionServer.Server.Disconnect` | server/index.js:413-447 | only the first session in insertion order that holds the socket changes; with none, nothing changes and nothing is sent |
| `ClientAgent.Initial` | client/src/contexts/SocketContext.js:108-126 | the initial state: disconnected, no session, synced, not host, both indices 0 |
| `ClientAgent.ShowContent` | client/src/contexts/SocketContext.js:283-289 | showing content records it and requests its load; showing nothing clears the loaded body and the request |
| `ClientAgent.AfterConnect` | client/src/contexts/SocketContext.js:156-164 | connected under the new socket id with the error cleared; nothing else changes |
| `ClientAgent.AfterDisconnect` | client/src/contexts/SocketContext.js:165-178 | disconnected with an empty participant list; the error is set unless the client closed the socket itself; session, content and indices are kept |
| `ClientAgent.AfterSessionCreated` | client/src/contexts/SocketContext.js:230-235 | host of the new session, synced, no content, index 0, and the latest host index left as it was |
| `ClientAgent.AfterSessionJoined` | client/src/contexts/SocketContext.js:236-251 | synced and mirroring the host's content and index; a load is requested exactly when content is selected; socket id and connection status are kept |
| `ClientAgent.AfterSessionNotFound` | client/src/contexts/SocketContext.js:325-338 | an error worded for host or participant and an empty participant list; nothing else changes |
| `ClientAgent.AfterUsernameTaken` | client/src/contexts/SocketContext.js:273-276 | an error, and the username cleared; nothing else changes |
| `ClientAgent.AfterHostContentUpdated` | client/src/contexts/SocketContext.js:277-291 | the host's content and index are always recorded; the view mirrors them exactly while synced and is untouched otherwise |
| `ClientAgent.AfterHostIndexUpdated` | client/src/contexts/SocketContext.js:292-298 | the host index is always recorded; the view's index moves only while synced |
| `ClientAgent.AfterUpdateParticipants` | client/src/contexts/SocketContext.js:299-301 | only the participant list changes |
| `ClientAgent.AfterHostTransferred` | client/src/contexts/SocketContext.js:302-318 | this client is host exactly when its socket id is the new host's; a new host is synced and shows content with the host content's id and type; others change only the host flag and the list |
| `ClientAgent.AfterServerError` | client/src/contexts/SocketContext.js:319 | only the error changes, to the server's message |
| `ClientAgent.OnEvent` | client/src/contexts/SocketContext.js:322-346 | every host broadcast records the host's index, and a content broadcast also records the host's content |
| `ClientAgent.CreateSession` | client/src/contexts/SocketContext.js:384-389 | the request is sent exactly when connected and a name is given; otherwise nothing changes |
| `ClientAgent.JoinSession` | client/src/contexts/SocketContext.js:392-398 | the request, with the rejoin flag, is sent exactly when connected with an id and a name; otherwise nothing changes |
| `ClientAgent.SelectAsHost` | client/src/contexts/SocketContext.js:400-412 | sent exactly by a connected host in a session; a deselection clears the view at once, a selection waits for the broadcast |
| `ClientAgent.SelectLocally` | client/src/contexts/SocketContext.js:414-433 | the view shows the choice; sync is lost exactly for a selection by a connected participant in a session; indices, host state and the loaded body are kept |
| `ClientAgent.SyncToHost` | client/src/contexts/SocketContext.js:435-456 | the host is unchanged; a participant becomes synced and follows the host's content at the latest host index, or clears its view when the host shows nothing, requesting the host content's load exactly when there is one |
| `ClientAgent.MaxIndex` | client/src/contexts/SocketContext.js:461 | the largest index the index actions accept: `totalAyahs - 1` for a non-zero ayah count, otherwise the last line of a dua with lines, otherwise 0 (also with no content loaded); never negative |
| `ClientAgent.UpdateHostIndex` | client/src/contexts/SocketContext.js:458-475 | only a host moves, and only to an index in [0, MaxIndex]; the server is told exactly when the host is connected and in a session |
| `ClientAgent.UpdateLocalIndex` | client/src/contexts/SocketContext.js:477-491 | only a participant moves, and only to an index in range; sync is lost exactly for such a move inside a session |
| `ClientAgent.UnsyncedViewFrozen` | client/src/contexts/SocketContext.js:277-298 | while unsynced, no sequence of host broadcasts moves the view, and the agent still tracks the host's latest content and index |
| `ClientAgent.SyncedViewFollows` | client/src/contexts/SocketContext.js:277-298 | while synced and following, every sequence of broadcasts keeps the view on the host's, and any non-empty one makes it an exact mirror |
| `ClientAgent.SyncAfterBroadcastsCatchesUp` | client/src/contexts/SocketContext.js:435-456 | a participant who let broadcasts pass while unsynced lands on the host's latest content and index when syncing |
| `ClientAgent.HostFlagUnchanged` | client/src/contexts/SocketContext.js:277-298 | content and index broadcasts never change who hosts |
| `ClientAgent.OfflineLocalSelectionKeepsSyncFlag` | client/src/contexts/SocketContext.js:419 | a disconnected participant who picks other content stays flagged synced while no longer following the host |
| `ClientAgent.LocalMoveUnsyncsOnlyInSession` | client/src/contexts/SocketContext.js:481-488 | an accepted local move lands on the index, and the agent stays synced exactly when it was synced and is not in a session |
| `ClientAgent.SessionAgent.HandleConnect` | client/src/contexts/SocketContext.js:156-164 | the new state is `AfterConnect` of the old |
| `ClientAgent.SessionAgent.HandleDisconnect` | client/src/contexts/SocketContext.js:165-178 | the new state is `AfterDisconnect` of the old |
| `ClientAgent.SessionAgent.HandleSessionCreated` | client/src/contexts/SocketContext.js:230-235 | the new state is `AfterSessionCreated` of the old |
| `ClientAgent.SessionAgent.HandleSessionJoined` | client/src/contexts/SocketContext.js:236-251 | the new state is `AfterSessionJoined` of the old |
| `ClientAgent.SessionAgent.HandleSessionNotFound` | client/src/contexts/SocketContext.js:325-338 | the new state is `AfterSessionNotFound` of the old |
| `ClientAgent.SessionAgent.HandleUsernameTaken` | client/src/contexts/SocketContext.js:273-276 | the new state is `AfterUsernameTaken` of the old |
| `ClientAgent.SessionAgent.HandleHostContentUpdated` | client/src/contexts/SocketContext.js:277-291 | the new state is `AfterHostContentUpdated` of the old |
| `ClientAgent.SessionAgent.HandleHostIndexUpdated` | client/src/contexts/SocketContext.js:292-298 | the new state is `AfterHostIndexUpdated` of the old |
| `ClientAgent.SessionAgent.HandleUpdateParticipants` | client/src/contexts/SocketContext.js:299-301 | the new state is `AfterUpdateParticipants` of the old |
| `ClientAgent.SessionAgent.HandleHostTransferred` | client/src/contexts/SocketContext.js:302-318 | the new state is `AfterHostTransferred` of the old |
| `ClientAgent.SessionAgent.HandleServerError` | client/src/contexts/SocketContext.js:319 | the new state is `AfterServerError` of the old |
| `ClientAgent.SessionAgent.Receive` | client/src/contexts/SocketContext.js:322-346 | dispatching an event gives `OnEvent` of the old state |
| `ClientAgent.SessionAgent.CreateSessionAction` | client/src/contexts/SocketContext.js:384-389 | the new state and the message sent are those of `CreateSession` |
| `ClientAgent.SessionAgent.JoinSessionAction` | client/src/contexts/SocketContext.js:392-398 | the new state and the message sent are those of `JoinSession` |
| `ClientAgent.SessionAgent.SelectContentAsHost` | client/src/contexts/SocketContext.js:400-412 | the new state and the message sent are those of `SelectAsHost` |
| `ClientAgent.SessionAgent.SelectContentLocally` | client/src/contexts/SocketContext.js:414-433 | the new state is `SelectLocally` of the old |
| `ClientAgent.SessionAgent.SyncToHostAction` | client/src/contexts/SocketContext.js:435-456 | the new state is `SyncToHost` of the old |
| `ClientAgent.SessionAgent.UpdateHostIndexAction` | client/src/contexts/SocketContext.js:458-475 | the new state and the message sent are those of `UpdateHostIndex` |
| `ClientAgent.SessionAgent.UpdateLocalIndexAction` | client/src/contexts/SocketContext.js:477-491 | the new state is `UpdateLocalIndex` of the old |
| `ClientApp.TotalPhrases` | client/src/components/DuaSyncApp.js:174 | `totalAyahs ?? (arabic lines ?? 0)`: the ayah count whenever one is present, even 0; 0 without content |
| `ClientApp.NavigateTarget` | client/src/components/DuaSyncApp.js:173-186 | a move happens exactly when content is loaded and `currentIndex + direction` lies in [0, totalPhrases); a host moves globally, a participant locally, both to exactly that index |
| `ClientApp.NavigateTargetAccepted` | client/src/components/DuaSyncApp.js:173-186 | every index `navigate` asks for passes the agent's own range check |
| `ClientApp.NavigateMovesByDirection` | client/src/components/DuaSyncApp.js:173-186 | `navigate` moves the index by exactly `direction` or changes nothing; it never clamps |
| `ClientApp.TickStep` | client/src/components/DuaSyncApp.js:154-163 | an active tick advances by exactly one before the last phrase (telling the server exactly when connected) and switches auto-advance off at the last phrase |
| `ClientApp.AutoAdvanceRun` | client/src/components/DuaSyncApp.js:149-170 | k ticks from index i, with i+k before the last phrase, land on i+k and leave auto-advance running |
| `ClientApp.AutoAdvanceStopsAtEnd` | client/src/components/DuaSyncApp.js:160-163 | on the last phrase the next tick switches auto-advance off and leaves the agent unchanged |
| `ClientApp.ContentSelection` | client/src/components/DuaSyncApp.js:267-293 | `null` is ignored; otherwise the local error is cleared; a message is sent exactly by a connected host in a session, and it selects the content and opens the share dialog |
| `ClientApp.ParticipantSelectionUnsyncs` | client/src/components/DuaSyncApp.js:280-286 | a connected participant who picks content shows it, stops following, and flips the browsing flag |
| `ClientApp.SelectionOutsideSessionIsLocal` | client/src/components/DuaSyncApp.js:272-275 | outside a session, picking content only shows it: no message, no change of sync or browsing |
| `ClientApp.DisconnectedHostSelectionIgnored` | client/src/components/DuaSyncApp.js:267-293 | a disconnected host that is not browsing cannot pick content; only the local error is cleared |
| `ClientApp.DisconnectedSelectionIsLocal` | client/src/components/DuaSyncApp.js:267-293 | a disconnected reader in a session who is browsing, or who is a participant, shows the picked content, stops browsing, sends nothing and keeps the sync flag |
| `ClientApp.Back` | client/src/components/DuaSyncApp.js:296-348 | the local error is always cleared; a message is sent exactly by a connected host in a session: the deselection (which also clears its view) when content is shown, `leave_session` otherwise; outside a session with content shown, the view is cleared locally and nothing is sent |
| `ClientApp.BackFromBrowsingResyncs` | client/src/components/DuaSyncApp.js:311-343 | a connected, browsing participant pressing Back stops browsing and follows the host again |
| `ClientApp.BackFromSyncedContentStartsBrowsing` | client/src/components/DuaSyncApp.js:320-323 | a connected participant following the host who presses Back opens the selection page and nothing else changes |
| `ClientApp.BackWhileDisconnectedClears` | client/src/components/DuaSyncApp.js:311-319 | a disconnected browsing reader pressing Back stops browsing and clears the view without syncing |
| `ClientApp.CurrentPhrase` | client/src/components/DuaSyncApp.js:354-382 | empty without content or when the index is not below `totalAyahs ?? 0`; a non-empty phrase implies the index is in range of the verse list of the content's type |
| `ClientApp.QuranPhraseIsVerse` | client/src/components/DuaSyncApp.js:362-371 | for loaded quran content, the phrase shown is the verse at the current index |
| `ClientApp.AppView.NavigateAction` | client/src/components/DuaSyncApp.js:173-186 | the agent's new state and the message sent are those of `Navigate` |
| `ClientApp.AppView.TickAction` | client/src/components/DuaSyncApp.js:155-164 | the screen's new state and the message sent are those of `Tick` |
| `ClientApp.AppView.HandleContentSelection` | client/src/components/DuaSyncApp.js:267-293 | the screen's new state and the message sent are those of `ContentSelection` |
| `ClientApp.AppView.HandleBack` | client/src/components/DuaSyncApp.js:296-348 | the screen's new state and the message sent are those of `Back` |
| `SelectionFilter.ContainsIff` | client/src/components/DuaSelectionPage.js:45 | `includes` holds exactly when the term occurs at some position |
| `SelectionFilter.FilterContent` | client/src/components/DuaSelectionPage.js:42-75 | an item is in the result exactly when it is in the input and its title matches and its category passes; the result is never longer than the input |
| `SelectionFilter.FilterIsSubsequence` | client/src/components/DuaSelectionPage.js:42-43 | the result is a subsequence of the input: order is kept |
| `SelectionFilter.FilterCounts` | client/src/components/DuaSelectionPage.js:42-75 | every kept item keeps all its copies and every dropped one keeps none |
| `SelectionFilter.AllKeepsTitleMatches` | client/src/components/DuaSelectionPage.js:53 | with 'all', exactly the title matches are kept |
| `SelectionFilter.EmptySearchKeepsTitled` | client/src/components/DuaSelectionPage.js:45-53 | with 'all' and an empty search term, exactly the items with a title are kept |
| `SelectionFilter.UnknownFilterIsAll` | client/src/components/DuaSelectionPage.js:72 | a filter value without a rule gives the same result as 'all' |
| `SelectionFilter.QuranCategoriesDisjoint` | client/src/components/DuaSelectionPage.js:59-64 | the surah categories short, medium and long are pairwise disjoint, a surah counted as 0 ayahs is in none, and any other surah is in one |
| `SelectionFilter.TitleMatchIgnoresCase` | client/src/components/DuaSelectionPage.js:45 | the title test gives the same answer on the lower-cased title and term |
| `QuranCollection.FindById` | client/src/data/quranCollection.js:19-20 | `find` returns None exactly when no surah has the id, and otherwise the first that has it |
| `QuranCollection.ContentOf` | client/src/data/quranCollection.js:38-58 | the combined list has one verse per Arabic verse, verse j numbered j+1 with the three texts at j |
| `QuranCollection.PartnersDoNotShorten` | client/src/data/quranCollection.js:41-47 | a shorter transliteration does not shorten the list; its missing verses read as '' |
| `QuranCollection.EntriesMembers` | client/src/data/quranCollection.js:17-35 | the metadata holds an entry exactly for each Arabic surah whose id both other arrays have, and no more entries than Arabic surahs |
| `QuranCollection.ContentMapKeys` | client/src/data/quranCollection.js:51 | the content map has exactly the ids of the metadata list |
| `QuranCollection.ContentMapAgrees` | client/src/data/quranCollection.js:28-58 | with distinct ids, each metadata entry and its map entry agree on id, title, Arabic title and ayah count, and the map entry has that many verses |
| `QuranCollection.BuildQuranCollection` | client/src/data/quranCollection.js:11-62 | nothing is produced unless all three inputs are arrays; otherwise the loops produce exactly the entries and the map defined by walking the Arabic array in order |

## Left out

- Socket.io transport: rooms, `socket.join`, and which sockets a broadcast reaches. A handler returns the events it emits, in order.
- `nanoid(6)`: the fresh session id is a parameter of `SessionServer.Server.CreateSession`.
- Reading and parsing the JSON files: the parsed objects are inputs, and `Object.keys` order is an input of `ServerQuran.BuildMetadata`.
- ServerQuran.BuildMetadata: requires every surah key to be a decimal numeral. This also excludes keys such as "2a", " 7" or "+3", which `parseInt` reads by their numeric prefix, so the source sorts them by that number; only a key with no leading number makes the comparator return NaN, and then the order depends on the engine.
- ServerQuran.SortMetadata: does not state that the sort is stable. Keys with the same number ("01" and "1") tie, and the contract leaves the order of tied entries open, where `Array.prototype.sort` keeps their `Object.keys` order.
- The `get_quran_metadata`, `get_quran_content` and `update_settings` handlers (server/index.js:192-224, 377-386). They are request/response plumbing around `getMergedSurahData`, and a relay that stores nothing.
- `leave_session`: the client emits it, but the server has no handler, so there is no server step for it.
- The ayah-count mismatch warning in `getMergedSurahData` (server/index.js:148-153) only logs.
- `_performFetch`, the `fetchTrigger` effect, `localStorage` caching and the simulated delay. The model records only which load was requested, in the ghost field `fetchTrigger`; `currentFullContent` changes only where a handler clears it.
- `connectToServer`, `connect_error` and the reconnect and cleanup effects. They are connection plumbing; only the `connect` and `disconnect` listeners are modelled.
- React scheduling: each handler reads the latest state, not the values captured by its closure, and each handler or action is one atomic step.
- The unused `handleSessionNotFound` (SocketContext.js:252-271) is never attached. The attached listener at lines 325-338 is modelled.
- The timer of auto-advance (`setInterval`, the interval length) and font size handling: only the per-tick step rule is modelled.
- JavaScript numbers: indices are unbounded integers. Fractional numbers, NaN and infinities are not modelled; any non-number index is `NotANumber`.
- ClientApp.CurrentPhrase: for quran content without a verse array, the source throws a TypeError; the model returns the empty phrase.
- QuranCollection.BuildQuranCollection: `null` entries in the bundled arrays are not modelled, since the source would throw on `arabicSurah.id` before its own null check. The constant `type: 'quran'` field is omitted.
- SelectionFilter.Lower: `toLowerCase` is modelled for ASCII letters only.
- The selection page's fetch effect, the share dialog, the theme toggle and the other UI-only components.
