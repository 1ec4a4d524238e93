# Verified model of an always-connected IRC client

These files model the parts of the bouncer whose correctness rests on hand-written protocols, and prove what those
protocols are for. `dafny verify dfyconfig.toml` checks everything.

| area | modules |
|---|---|
| strict transport security shared by several managers (IRCv3 `sts`) | `StsPolicy`, `StsProtocol`, `StsExpiry` |
| MONITOR reconciliation and 734 recovery | `Monitor` |
| writer lanes across reconnects, flood bucket | `SendQueue`, `RateLimit` |
| ISUPPORT and channel rosters | `Casemap`, `Isupport`, `RosterModel`, `RosterLaws`, `ModeLines`, `ModeRepeats`, `Roster`, `RosterPage` |
| registration (section 3.1 of RFC 2812, IRCv3 capability negotiation, sasl-3.1), SCRAM-SHA-256 (RFC 5802, RFC 7677), PLAIN (RFC 4616) | `Handshake`, `HandshakeMachine`, `Scram`, `Sasl` |
| IRCv3 multiline batches | `Multiline` |
| client queues, history pages, synced policy | `Fanout`, `HistoryPage`, `RenamePolicy` |
| password rotation, sessions, push subscriptions and deliveries | `Rotation`, `TokenTable` |
| shared vocabulary | `Wrappers`, `Text`, `Ordering`, `Sums` |

Concurrent code is a transition system: one atomic operation per step, steps of any number of tasks in any order, and
theorems over every finite run from the initial state (`StsProtocol`, `SendQueue`, `Fanout`, `Rotation`). Code that
updates an object in place is a class whose methods are proved against functions on values, and the theorems are about
those functions.

## Where the code and its description part

- The MODE handler does not keep the roster's byte ceiling. Its budget test is made before each letter, and one letter is
  granted in the live map and in an in-flight NAMES snapshot. `ModeLineCanPassCeiling` gives a line that ends one byte over.
  `LineKeepsCeilingIff` says for every line, from the line alone, whether it can take the total above its start at some
  letter, `LineEndsWithinCeilingIff` whether it can leave it there, and `ModeOvershootBounded` bounds by how much.
- The JOIN handler does not keep it either: it measures the new entry against the live one and then writes it to the
  snapshot too. `JoinGrowsIff` gives the exact condition, `RejoinCanPassCeiling` a JOIN that meets it.
- A stale write is healed only while the rename map has room: the map is started over at 128 entries, and then only the
  last rename is remembered.
  `FreshChainTracksIff` and `StaleWritesMeanTheSameIff` give the exact condition, `LongHistoryForgets` a history that fails.
- The comment on the writer's selects promises strict priority. The code allows one user message to overtake the rejoin
  JOINs. `OvertakeIff` says exactly when that can happen, `OneOvertakeIsPossible` gives an interleaving,
  `AtMostOneOvertakesJoins` the bound, `AtMostOneTakenLate` the one for writers that outlive their connection.
- A member whose nick folds to the empty key makes the roster cursor ambiguous with the first page. `ResumesIff` gives the
  exact condition for a cursor, `WalkContinuesIff` for a walk, `EmptyKeyRepeats` an endless walk.
- The MODE byte table and the symbol lookup disagree on a PREFIX value that repeats a letter: `SymbolTableAgreesIff`.
- An around request for history reads the row at its pivot unconditionally, which is out of range when no row was fetched:
  `PivotIsARowIff`, and the `ok` result of `BoundedHistoryPage`.
- The rate bound needs a burst of at least one, which the configuration defaults guarantee: `NoBurstNoBound`.

## Model

| member | source | states |
|---|---|---|
| `StsPolicy.LoadFailsClosed` | internal/irc/manager.go:1182-1217 | after a successful load a stored unexpired policy is enforced; plaintext is dialled exactly when the store has nothing active and no failed local write outlives the record |
| `StsPolicy.StsManager.constructor` | internal/irc/manager.go:245-278 | a new manager starts without any policy |
| `StsPolicy.StsManager.ResolveDirty` | internal/irc/manager.go:1224-1249 | which failed local write survives a reload, and the fields afterwards in either case |
| `StsPolicy.StsManager.LoadSts` | internal/irc/manager.go:1182-1217 | the lock section of a load is exactly `Load` on the policy fields |
| `StsPolicy.StsManager.EffectiveAddr` | internal/irc/manager.go:1254-1269 | TLS and the policy port exactly while a local policy is in force or TLS is configured |
| `StsPolicy.StsManager.ApplyBegin` | internal/irc/manager.go:1275-1302 | first lock section of applying an advertised duration |
| `StsPolicy.StsManager.ApplyFinish` | internal/irc/manager.go:1303-1344 | second lock section: adopts the written counters, or keeps the base counters and marks the policy dirty; a failed clear marks nothing |
| `StsPolicy.StsManager.RescheduleBegin` | internal/irc/manager.go:1348-1376 | first lock section at close: whether to extend the stored expiry, against which revision, to when |
| `StsPolicy.StsManager.RescheduleFinish` | internal/irc/manager.go:1377-1403 | second lock section at close: records success, a lost compare-and-swap, or a failed write |
| `StsPolicy.StsManager.Upgrade` | internal/irc/manager.go:1137-1167 | an insecure CAP LS with a port makes the session upgrade |
| `StsProtocol.BystanderKept` | internal/irc/sts.go:57-75 | whatever another manager does to the shared record, a manager that does not act keeps its invariant; an expiry-only reschedule by another never displaces its policy |
| `StsProtocol.RunKept` | internal/irc/manager.go:1137-1403 | the invariant of record, managers and failed writes holds over every interleaving |
| `StsProtocol.GuardSurvives` | internal/irc/manager.go:1182-1249 | only the manager's own next apply or a reload that sees a changed policy epoch ends what it applied |
| `StsProtocol.AppliedPolicyIsNeverDowngraded` | internal/irc/manager.go:1137-1403 | after any history, a manager that applied a nonzero duration over TLS dials secure until that expiry, over every interleaving and every failed read or write, unless it applied again or a reload saw a changed policy epoch |
| `StsProtocol.CommittedPolicyProtectsEveryReader` | internal/irc/manager.go:1182-1217 | a committed unexpired policy is enforced by every manager that loads, also one started later |
| `StsProtocol.StoredPolicyProtectsEveryReader` | internal/irc/manager.go:1182-1217 | and so is a policy an earlier process stored, until its expiry or the next policy write |
| `StsProtocol.StoredExpiryNeverShortened` | internal/store/sts.go:444-464 | between two policy writes the stored expiry never falls below what the policy write gave |
| `StsExpiry.ExpiryOnlyMovesLater` | internal/irc/manager.go:1348-1403 | after any history and over any interleaving without a policy write the stored expiry only moves later, however many managers reschedule it |
| `StsExpiry.StepTimely` | internal/irc/manager.go:1348-1403 | every step keeps: a duration known under the stored epoch is the stored one, and an acceptable reschedule under way is not earlier than the stored expiry |
| `Monitor.ReplayAppend` | internal/irc/manager.go:665-706 | the server's set after more commands is the replay of those commands on its set before |
| `Monitor.ListingReplayed` | internal/irc/manager.go:824-835 | a list sent in chunks adds or removes exactly the folds of the list |
| `Monitor.KeptExactly` | internal/irc/manager.go:642-661 | the kept targets are valid, fold-distinct, and stand for exactly the valid folds of the desired list |
| `Monitor.KeptPrefix` | internal/irc/manager.go:642-661 | cutting the desired list keeps a prefix of the targets, so the first-limit choice is stable |
| `Monitor.DiffEqualsRebuild` | internal/irc/manager.go:665-743 | incremental diff and clear-and-rebuild leave the server with the same set, whatever the order of removals |
| `Monitor.MissingFolds` | internal/irc/manager.go:685-694 | the additions stand for exactly the target folds that are not active |
| `Monitor.ReactTightens` | internal/irc/manager.go:735-803 | once recovered, each further rebuild strictly lowers the cap; nothing else moves it |
| `Monitor.RebuildsBoundedByCap` | internal/irc/manager.go:768-803 | after a recovery at most cap further rebuilds, for every sequence of numerics, failed sends and reconciles |
| `Monitor.RecoveryTerminates` | internal/irc/manager.go:768-803 | a whole connection causes at most as many rebuilds as its first recovered cap, and that is at most 1024 |
| `Monitor.MonitorManager.constructor` | internal/irc/manager.go:245-278 | a new manager has nothing active and nothing sent |
| `Monitor.MonitorManager.NewConnection` | internal/irc/manager.go:1504-1514 | a new connection resets the server's list and all limits |
| `Monitor.MonitorManager.SendAll` | internal/irc/manager.go:1072-1111 | all messages are enqueued in order or none is |
| `Monitor.MonitorManager.MonitorTargets` | internal/irc/manager.go:642-661 | the loop yields the first-limit valid fold-distinct entries of the desired list |
| `Monitor.MonitorManager.ChunkTargets` | internal/irc/manager.go:824-835 | chunks of at most ten that concatenate to the list |
| `Monitor.MonitorManager.Removals` | internal/irc/manager.go:665-684 | every active entry that is not a target, each once |
| `Monitor.MonitorManager.Additions` | internal/irc/manager.go:685-694 | every target that is not active, in order |
| `Monitor.MonitorManager.ReconcileDelta` | internal/irc/manager.go:665-706 | on success the active folds are the wanted ones; on failure nothing changed; either way they equal the replay of what was enqueued |
| `Monitor.MonitorManager.CompleteRebuild` | internal/irc/manager.go:735-743 | the rebuild is sent as one unit and records the cap it recovered to |
| `Monitor.MonitorManager.ReconcileMonitored` | internal/irc/manager.go:611-621 | a pending rebuild is completed first, otherwise the difference is sent |
| `Monitor.MonitorManager.CountRejected` | internal/irc/manager.go:768-790 | the limit learned from a 734: as advertised, or what is active minus the distinct rejected entries |
| `Monitor.MonitorManager.RecoverFrom` | internal/irc/manager.go:790-803 | tightens the limit and rebuilds, unless the numeric says nothing new |
| `Monitor.MonitorManager.MonitorRejected` | internal/irc/manager.go:768-803 | a 734 from this connection learns a limit and rebuilds within it; from an older one it does nothing |
| `Casemap.FoldIdempotent` | internal/irc/isupport.go:327-348 | a folded name is its own key |
| `Isupport.MappingChangesAtMostOnce` | internal/irc/isupport.go:78-178 | over every sequence of 005 tokens the casemapping changes at most once |
| `Isupport.DefaultUntilLocked` | internal/irc/isupport.go:78-96 | until an explicit CASEMAPPING the default stays in force |
| `Isupport.ModeClassifier` | internal/irc/isupport.go:304-322 | the byte tables classify every mode letter as the CHANMODES and PREFIX scan does |
| `Isupport.StatusTables` | internal/irc/isupport.go:304-322 | the status table holds the last symbol listed for each letter |
| `Isupport.SymbolTableAgreesIff` | internal/irc/isupport.go:262-322 | the table and the first-match lookup agree on every letter exactly when repeated letters repeat their symbol |
| `Isupport.RepeatedLetterDisagrees` | internal/irc/isupport.go:262-322 | a PREFIX value with a repeated letter on which they disagree |
| `RosterModel.Clamp` | internal/irc/roster.go:46-57 | at most 512 bytes, a prefix of the input cut on a rune boundary; short fields are untouched |
| `RosterLaws.AddPrefixKeepsRank` | internal/irc/roster.go:836-847 | granting a status keeps the prefixes in rank order without repeats and includes it |
| `RosterLaws.RosterStaysBounded` | internal/irc/roster.go:310-368 | one more sequence of messages keeps the limits and the keys |
| `RosterLaws.RosterAlwaysBounded` | internal/irc/roster.go:310-368 | for every sequence of server messages channels and held members stay within their limits and every key is the fold of its name, even as PREFIX, CHANMODES and our own nick change |
| `RosterLaws.SwapNeverIncreases` | internal/irc/roster.go:509-530 | the 366 swap never increases the byte total, although it merges old data into the new snapshot |
| `RosterLaws.MergedBytes` | internal/irc/roster.go:509-530 | a merge holds at most what both snapshots held together |
| `RosterLaws.GrowsOverCeilingIff` | internal/irc/roster.go:418-673 | at or over the byte ceiling no message but MODE and JOIN increases the total, through colliding renames, fan-out updates, topics and NAMES, and a JOIN does exactly when it rewrites both maps upward on balance |
| `RosterLaws.JoinGrowsIff` | internal/irc/roster.go:538-610 | at or over the ceiling a JOIN increases the total exactly when the member is in the live map and in the snapshot, the live entry does not grow and the two rewrites together do |
| `RosterLaws.RejoinCanPassCeiling` | internal/irc/roster.go:538-610 | a JOIN that takes the total from the ceiling to above it |
| `RosterLaws.ModeOvershootBounded` | internal/irc/roster.go:739-830 | a MODE line ends at most one letter granted in both maps above the ceiling |
| `RosterLaws.GrantsRefusedOverCeiling` | internal/irc/roster.go:790-830 | over the ceiling a MODE line without a revocation changes nothing |
| `ModeLines.ModeOpsIsLine` | internal/irc/roster.go:739-830 | every MODE message is a line of status changes whose symbols are one ASCII byte or two bytes above it and whose members are named by folded keys |
| `ModeLines.LineKeepsCeilingIff` | internal/irc/roster.go:739-830 | for every line: from every roster at or over every ceiling the total stays at or below its start at each letter, exactly when no revocation is followed by a grant more than half as wide or by grants of two different statuses; for a line with folded keys also over just the rosters that meet the roster's invariant |
| `ModeLines.LineEndsWithinCeilingIff` | internal/irc/roster.go:739-830 | the same condition decides where the line ends when it names no member's status twice, over all rosters and over those that meet the invariant, and suffices when it does |
| `ModeLines.CeilingHolds` | internal/irc/roster.go:310-368 | over every message: at or over the ceiling only a MODE line with that pattern or a JOIN as above increases the total |
| `ModeRepeats.TakenBackEndsWithinCeiling` | internal/irc/roster.go:739-830 | a line of one-byte statuses that revokes again every grant made behind a revocation ends within the ceiling |
| `ModeRepeats.ShieldedGrantEndsWithinCeiling` | internal/irc/roster.go:739-830 | revoking every such grant is not needed: a family of lines that keep one of two grants and still end within the ceiling from every roster |
| `ModeRepeats.LineEndsAboveIff` | internal/irc/roster.go:739-830 | a line of one-byte statuses, repeated ones included, leaves a given roster above its start exactly when the total is at the ceiling and some grant reaches both maps one byte below it with no letter behind it taking effect; it then ends one byte above |
| `RosterLaws.StatusLetterGrowsIff` | internal/irc/roster.go:790-830 | one status letter grows the total exactly when it grants, the total is below the ceiling, and a map of the channel holds the member without it |
| `RosterLaws.ModeLineCanPassCeiling` | internal/irc/roster.go:739-830 | a MODE line that takes the total from the ceiling to one byte above it |
| `RosterLaws.FanOutReaction` | internal/irc/roster.go:614-673 | QUIT, NICK and nick-level updates keep the limits and, over the ceiling, never increase the total |
| `Roster.Put` | internal/irc/roster.go:136-144 | the running byte count moves by exactly the difference of the entry |
| `Roster.Del` | internal/irc/roster.go:148-153 | the running byte count loses exactly the entry |
| `Roster.Recompute` | internal/irc/roster.go:158-167 | the recount equals topic plus both maps |
| `Roster.MergeNames` | internal/irc/roster.go:509-530 | the loop computes the merged snapshot |
| `Roster.AddListed` | internal/irc/roster.go:472-504 | one NAMES burst under the per-channel, total and byte budgets |
| `Roster.Roster.constructor` | internal/irc/roster.go:178-180 | a new roster is empty |
| `Roster.Roster.TotalBytesNow` | internal/irc/roster.go:450-456 | summing the running counts gives the bytes of the whole roster |
| `Roster.Roster.TotalMembersNow` | internal/irc/roster.go:462-468 | the members held in all maps |
| `Roster.Roster.ApplyEverywhere` | internal/irc/roster.go:614-673 | rename, quit and nick-level updates reach both maps of every channel, with exact accounting |
| `Roster.Roster.SetTopic` | internal/irc/roster.go:418-431 | topic replaced, or refused by the budget |
| `Roster.Roster.MemberLeft` | internal/irc/roster.go:435-445 | our own leaving drops the channel, another's leaves both maps |
| `Roster.Roster.MembersLeft` | internal/irc/roster.go:374-393 | PART and KICK lists, in order |
| `Roster.Roster.NamesReply` | internal/irc/roster.go:472-504 | 353 fills the pending snapshot |
| `Roster.Roster.NamesEnded` | internal/irc/roster.go:509-530 | 366 swaps the merged snapshot in |
| `Roster.Roster.JoinChannel` | internal/irc/roster.go:538-549 | our own JOIN opens a channel within the channel limit |
| `Roster.Roster.MemberJoin` | internal/irc/roster.go:570-610 | a JOIN admits the member where the budgets allow |
| `Roster.Roster.AdmitMember` | internal/irc/roster.go:570-610 | the member enters the live map and an in-flight snapshot |
| `Roster.Roster.ApplyStatusMode` | internal/irc/roster.go:790-830 | one status letter on both maps |
| `Roster.Roster.ApplyModeLetter` | internal/irc/roster.go:774-786 | a letter and the argument it consumes |
| `Roster.Roster.ApplyModeAt` | internal/irc/roster.go:739-769 | a sign or a letter of the mode string |
| `Roster.Roster.ApplyChannelMode` | internal/irc/roster.go:739-769 | the whole mode string, at most 64 letters |
| `Roster.Roster.Handle` | internal/irc/roster.go:310-368 | every message moves the incrementally accounted roster exactly as the reference that recounts from scratch; the running counts stay exact |
| `RosterPage.RootIsLargest` | internal/irc/roster.go:241-253 | the heap's root is its largest key |
| `RosterPage.Push` | internal/irc/roster.go:246-247 | pushing keeps the heap and adds exactly the key |
| `RosterPage.FixRoot` | internal/irc/roster.go:295-297 | fixing a replaced root restores the heap with the same keys |
| `RosterPage.Offer` | internal/irc/roster.go:286-299 | after each key the heap holds exactly the smallest keys seen, up to the limit |
| `RosterPage.SelectKeys` | internal/irc/roster.go:281-300 | the selection equals sorting the keys past the cursor and taking the first `limit`; the count is of all of them |
| `RosterPage.ChannelPage` | internal/irc/roster.go:276-306 | members of exactly those keys in order, truncated exactly when more exist, and no page for an unknown channel |
| `RosterPage.CursorIsLastKey` | internal/hub/session.go:926-937 | the cursor computed from the last nick sent is that member's key |
| `RosterPage.ResumesIff` | internal/irc/roster.go:261-266 | a cursor resumes right behind its key exactly when the key is not empty |
| `RosterPage.WalkVisitsEveryMember` | internal/hub/session.go:926-937 | following the cursor, in responses of any positive size, visits every member exactly once in key order and finishes exactly then, in at most as many responses as members |
| `RosterPage.WalkContinuesIff` | internal/hub/session.go:926-937 | every response of a walk continues the listing exactly when no nick folds to the empty key, no cursor is followed, or the first response carries at least two members |
| `RosterPage.EmptyKeyRepeats` | internal/irc/roster.go:276-306 | with an empty key and one member per response every response repeats the first |
| `Ordering.SortStrings` | internal/irc/roster.go:300-300 | the keys in strict byte order, none lost |
| `Ordering.SmallestIsPrefix` | internal/irc/roster.go:276-306 | an ordered sequence of the smallest elements is a prefix of the ordered listing |
| `Fanout.StepExact` | internal/hub/session.go:66-74 | every atomic step of push, release and disconnect moves each counter by exactly what the outstanding reservations move by |
| `Fanout.StepDiscipline` | internal/hub/session.go:194-242 | every step respects the queue mutex and the Once; no frame enters a queue after its session closed |
| `Fanout.CountersExactAndBounded` | internal/hub/session.go:194-257 | over every interleaving each counter equals its outstanding reservations and lies between zero and its limit |
| `Fanout.NothingLeaks` | internal/hub/session.go:66-74 | with nothing in flight each session's counter is its queue; with every session disconnected the global counter is zero |
| `Fanout.OpenSessionHasNoGap` | internal/hub/session.go:139-242 | a session still open has every returned push in its queue history, which is what the transport took followed by what waits |
| `Fanout.Hub.constructor` | internal/hub/hub.go:215-234 | an empty hub within its limits |
| `Fanout.Hub.NewSession` | internal/hub/session.go:105-118 | registered exactly while below 64 sessions |
| `Fanout.Hub.DisconnectSession` | internal/hub/session.go:225-242 | closed, emptied, and its backlog gone from the global counter; nobody else touched |
| `Fanout.Hub.PushFrame` | internal/hub/session.go:194-223 | refused exactly by the global budget, and then unchanged; otherwise the frame is queued last, or the session is over its own limits or closed |
| `Fanout.Hub.SlowestLocked` | internal/hub/session.go:175-184 | a registered session with the largest backlog, or none if all are empty |
| `Fanout.Hub.PushLocked` | internal/hub/session.go:160-171 | the frame is queued or the session is disconnected; at most one other session pays, and only one with the largest backlog when the global budget refused |
| `Fanout.Hub.Broadcast` | internal/hub/hub.go:1645-1671 | every addressed session has the frame behind exactly what it had, or is disconnected; nobody else gets one |
| `Rotation.StepKeeps` | internal/api/password.go:109-209 | every step of login, rotation, logout, subscription and delivery keeps the invariant |
| `Rotation.LiveSessionsAreCurrent` | internal/api/api.go:699-717 | over every interleaving a live session was verified against a hash at least as new as the credential generation |
| `Rotation.SubscriptionsPostdateRotation` | internal/api/push.go:95-108 | over every interleaving a stored subscription was stored by a session minted no earlier than the last finished rotation |
| `Rotation.StaleSendsAreCancelled` | internal/hub/push.go:219-249 | once the bump after a removal returned, a send from an older slice, running or yet to start, has a cancelled context |
| `Rotation.LiveSendsPostdateRotation` | internal/hub/push.go:707-748 | after a rotation finished, a send that is not cancelled goes only to endpoints stored by sessions minted since |
| `TokenTable.Table.constructor` | internal/api/api.go:274-378 | an empty table of generation zero |
| `TokenTable.Table.DeleteToken` | internal/api/api.go:1077-1113 | the token goes and exactly its sockets and streams are handed out for cancelling |
| `TokenTable.Table.Prune` | internal/api/api.go:816-820 | exactly the expired tokens go |
| `TokenTable.Table.Oldest` | internal/api/api.go:822-827 | a token that expires no later than any other |
| `TokenTable.Table.MakeRoom` | internal/api/api.go:821-829 | evicts the oldest, only as far as capacity demands |
| `TokenTable.Table.IssueToken` | internal/api/api.go:800-838 | refused exactly when the generation moved; otherwise the token is live among at most 128, and only expired or oldest ones were dropped, with no handle lost |
| `TokenTable.Table.TokenValid` | internal/api/api.go:942-955 | live exactly when present and unexpired; an expired one goes with its handles |
| `TokenTable.Table.Reclaim` | internal/api/api.go:816-829 | the room made for a token: the expired go, then the oldest, only as far as capacity demands |
| `TokenTable.Table.Register` | internal/api/api.go:964-1069 | a socket or stream is accepted exactly under a live token, as a handle never given out before |
| `TokenTable.Table.Unregister` | internal/api/api.go:989-1068 | exactly that handle goes |
| `TokenTable.Table.RevokeAll` | internal/api/password.go:201-212 | a new generation, no token left, every handle handed out |
| `Scram.ParseAttrsLoop` | internal/irc/scram.go:223-233 | the attribute loop equals its recursive reading, the last of equal keys winning |
| `Scram.EscapeIsReservedFree` | internal/irc/scram.go:217-219 | an escaped name holds no comma |
| `Scram.UnescapeEscape` | internal/irc/scram.go:217-219 | reading an escaped name as section 5.1 of RFC 5802 says gives the name back, commas and equals signs included |
| `Scram.ReadServerFirst` | internal/irc/scram.go:100-140 | an accepted server-first extends the client nonce and keeps the iteration bounds |
| `Scram.RespondStaysInExchange` | internal/irc/scram.go:77-178 | whatever the server sends, a client that answered holds the state of the transcript so far and counts as verified only with an authenticated transcript |
| `Scram.ErrorNeverVerifies` | internal/irc/scram.go:159-178 | an error leaves the verified mark alone |
| `Scram.HonestServerAccepted` | internal/irc/scram.go:77-178 | a server that proves the password as section 3 of RFC 5802 asks is accepted |
| `Scram.ScramClient.constructor` | internal/irc/scram.go:63-70 | a new client is at the start of the exchange |
| `Scram.ScramClient.ClientFirst` | internal/irc/scram.go:93-98 | the client-first-message and the state it leaves |
| `Scram.ScramClient.ClientFinal` | internal/irc/scram.go:100-157 | refused exactly on an unacceptable server-first; otherwise the proof and the signature to expect are those of RFC 5802 |
| `Scram.ScramClient.Verify` | internal/irc/scram.go:159-178 | verified exactly when the server-final carries the expected signature and no error |
| `Scram.ScramClient.Challenge` | internal/irc/scram.go:77-91 | one step of the exchange on the fields |
| `Sasl.NewMech` | internal/irc/sasl.go:90-126 | a mechanism that has not completed, or none when not offered or not supported |
| `Sasl.ChunkAuthenticate` | internal/irc/sasl.go:146-160 | the loop splits into 400-byte chunks with the end marks |
| `Sasl.ChunksReassembleIff` | internal/irc/handshake.go:501-534 | for every string up to 8192 bytes the chunks cause exactly one decode, at the last line, of exactly that string, if and only if the last chunk is not a lone plus sign |
| `Sasl.Base64Reassembles` | internal/irc/handshake.go:501-534 | so every base64 length round-trips, empty and multiples of 400 included |
| `Handshake.ReactSound` | internal/irc/handshake.go:192-277 | every reaction keeps: a mechanism exists only over TLS with SASL configured, and success is recorded only when it completed |
| `Handshake.OnlyWelcomeRegisters` | internal/irc/handshake.go:282-311 | only 001 registers, over TLS if credentials are configured, after SASL if configured |
| `Handshake.RegisteredIsAuthenticated` | internal/irc/handshake.go:192-334 | for every sequence of server messages registration with SASL succeeds only over TLS after the mechanism completed, and with SCRAM only after the server signed the transcript actually exchanged |
| `Handshake.InsecureRunDisclosesNothing` | internal/irc/handshake.go:148-187 | an insecure connection with credentials sends nothing but CAP LS and PONG, whatever arrives, and never registers |
| `Handshake.PassSentAtMostOnce` | internal/irc/handshake.go:181-187 | the server password goes out at most once |
| `HandshakeMachine.Machine.constructor` | internal/irc/handshake.go:125-137 | the initial state |
| `HandshakeMachine.Machine.EmitPass` | internal/irc/handshake.go:181-187 | PASS once |
| `HandshakeMachine.Machine.Open` | internal/irc/handshake.go:148-176 | the opening burst, or CAP LS alone |
| `HandshakeMachine.Machine.Welcome` | internal/irc/handshake.go:282-311 | 001 |
| `HandshakeMachine.Machine.NickInUse` | internal/irc/handshake.go:321-334 | 433, 436 and 437 with at most three retries |
| `HandshakeMachine.Machine.ParseCapList` | internal/irc/handshake.go:591-601 | the loop adds the advertised names up to the bound |
| `HandshakeMachine.Machine.CapsToRequest` | internal/irc/handshake.go:562-576 | the sorted listing of exactly the wanted and offered capabilities |
| `HandshakeMachine.Machine.ChooseMech` | internal/irc/handshake.go:440-454 | the mechanism, or the note that it is unavailable |
| `HandshakeMachine.Machine.CapLS` | internal/irc/handshake.go:384-433 | STS upgrade, the credential gate, PASS and the request |
| `HandshakeMachine.Machine.CapACK` | internal/irc/handshake.go:456-480 | only requested names are enabled; then SASL, QUIT or CAP END |
| `HandshakeMachine.Machine.CapNAK` | internal/irc/handshake.go:482-499 | one retry with sasl alone |
| `HandshakeMachine.Machine.Authenticate` | internal/irc/handshake.go:501-545 | reassembly, decoding, the mechanism's answer in chunks |
| `HandshakeMachine.Machine.Cap` | internal/irc/handshake.go:368-382 | dispatch of the CAP subcommands |
| `HandshakeMachine.Machine.Handle` | internal/irc/handshake.go:192-277 | every message: new state, messages to send and verdict are those of the reference reaction; 903 is trusted only from a completed mechanism |
| `HandshakeMachine.ReactAlike` | internal/irc/manager.go:1680-1685 | handing over and clearing a recorded STS duration changes no later reaction, and each is handed over once and only over TLS |
| `HandshakeMachine.Register` | internal/irc/manager.go:1667-1701 | the registration loop over every message sequence: everything sent, the verdict and the final state are those of the reference run, so it registers only over TLS and authenticated, discloses nothing on an insecure link, and sends PASS at most once |
| `Multiline.MultilineLines` | internal/hub/session.go:413-419 | the lines of a text without trailing empty ones |
| `Multiline.LinesJoinToText` | internal/hub/session.go:413-419 | joining them gives the text with CRLF made LF and trailing newlines removed |
| `Multiline.BuildMultilineBatch` | internal/irc/multiline.go:225-237 | open, one message per line, close |
| `Multiline.Reconstructor.constructor` | internal/irc/multiline.go:72-74 | no open batch |
| `Multiline.Reconstructor.AddTo` | internal/irc/multiline.go:120-151 | one line added, refused exactly over a ceiling |
| `Multiline.Reconstructor.FeedOne` | internal/irc/multiline.go:81-116 | one incoming message on the open batches |
| `Multiline.ForeignKeeps` | internal/irc/multiline.go:81-116 | a message of another batch leaves this one alone |
| `Multiline.TextSurvivesRoundTrip` | internal/irc/multiline.go:81-165 | a text sent as a batch and received interleaved with any foreign messages yields, within the ceilings, exactly one message, at the close, whose body is the normalized text, unless a foreign message over a ceiling ends the connection; a text of newlines only yields none |
| `RateLimit.TokenBucket.constructor` | internal/irc/ratelimit.go:34-36 | window of burst intervals |
| `RateLimit.TokenBucket.Reserve` | internal/irc/ratelimit.go:41-47 | the watermark and the send time after one more call |
| `RateLimit.SentInOrder` | internal/irc/ratelimit.go:41-62 | messages go out in call order, so those of any period are consecutive |
| `RateLimit.RateBounded` | internal/irc/ratelimit.go:41-47 | any n messages sent over a period T satisfy n * interval <= burst * interval + T |
| `RateLimit.NoBurstNoBound` | internal/irc/ratelimit.go:34-47 | without a burst allowance the bound fails at the first message |
| `SendQueue.StepKeeps` | internal/irc/manager.go:1072-1120 | every step of senders, writers and reconnects keeps: the user lane holds only messages of the current connection |
| `SendQueue.NoMessageCrossesReconnect` | internal/irc/manager.go:1422-1432 | over every interleaving no message accepted under one connection is taken by a later connection's writer |
| `SendQueue.AtMostOneOvertakesJoins` | internal/irc/manager.go:2387-2414 | while a rejoin JOIN waits, its connection's writer has taken at most one user message |
| `SendQueue.OvertakeIff` | internal/irc/manager.go:2387-2414 | when a connection registers, some continuation lets a user message overtake its rejoin JOINs exactly when one of them is still queued, its writer already waits at its last select, and the user lane has or can take a message |
| `SendQueue.AtMostOneTakenLate` | internal/irc/manager.go:2387-2414 | a writer that outlives its connection takes at most one user message after the cancel, and only that one can be of a later connection |
| `SendQueue.OneOvertakeIsPossible` | internal/irc/manager.go:2387-2414 | an interleaving in which one user message does overtake |
| `HistoryPage.Builder.Add` | internal/hub/session.go:1243-1254 | admitted exactly when it fits, with the comma |
| `HistoryPage.Builder.ReverseMessages` | internal/hub/session.go:1263-1265 | the swap loop reverses the page |
| `HistoryPage.Builder.SelectBackward` | internal/hub/session.go:1257-1266 | the longest fitting suffix, in order |
| `HistoryPage.Builder.SelectForward` | internal/hub/session.go:1268-1274 | the longest fitting prefix |
| `HistoryPage.Builder.AroundPivot` | internal/hub/session.go:1289-1299 | the first row at or after the anchor |
| `HistoryPage.PivotIsARowIff` | internal/hub/session.go:1289-1299 | the pivot is out of range exactly when there is no row |
| `HistoryPage.Builder.ExpandAround` | internal/hub/session.go:1303-1322 | fails exactly when there is no row at the pivot; otherwise an interval around it, balanced until an end is reached, ended only by a row that does not fit |
| `HistoryPage.Builder.SelectAround` | internal/hub/session.go:1278-1286 | fails exactly over no rows; otherwise that interval in order |
| `HistoryPage.BoundedHistoryPage` | internal/hub/session.go:1193-1215 | fails exactly for an around request over no rows; otherwise a contiguous stretch next to the anchor whose size is base plus events plus commas within the cap, with hasMore exactly when a fetched row was left out |
| `RenamePolicy.RenamePreservesDrops` | internal/hub/session.go:2162-2188 | after a rename the new name drops what either name dropped, the old name drops nothing, a third network is unchanged |
| `RenamePolicy.RenamePreservesHighlights` | internal/hub/session.go:2145-2154 | highlights of the new name are those of either name; a third network is unchanged |
| `RenamePolicy.RenameRefusedIff` | internal/hub/session.go:2162-2188 | refused exactly when the distinct ignored nicks of both names exceed 512 |
| `RenamePolicy.FoldStaysFlat` | internal/hub/session.go:2123-2141 | folding a rename keeps old and current names disjoint |
| `RenamePolicy.LookupIsFinal` | internal/hub/session.go:1766-1771 | so one lookup is final |
| `RenamePolicy.MapAlwaysFlat` | internal/hub/session.go:2123-2141 | disjointness over every history of renames and cleared entries, saturation included |
| `RenamePolicy.FoldTracksIff` | internal/hub/session.go:2123-2141 | folding a rename keeps one lookup equal to following the renames, for every name, exactly when neither name is an old one (unless the rename undoes or repeats the one recorded) and the map has room |
| `RenamePolicy.ChainTracksIff` | internal/hub/session.go:1766-1771 | over every history: one lookup equals following the renames after each of them exactly when every step is such |
| `RenamePolicy.SaturationForgets` | internal/hub/session.go:2123-2141 | a full map forgets every old name but the one just recorded |
| `RenamePolicy.FreshChainTracksIff` | internal/hub/session.go:2123-2141 | for fresh names one lookup resolves the whole chain exactly when the map and the chain together hold at most 128 renames |
| `RenamePolicy.LongHistoryForgets` | internal/hub/session.go:2123-2141 | 128 renames of one network still resolve, 129 do not |
| `RenamePolicy.StaleWriteMeansTheSame` | internal/hub/session.go:1820-1912 | while one lookup equals following the renames, a write based on old names, stored through the map, decides every message as if it had been rewritten at each rename |
| `RenamePolicy.StaleWritesMeanTheSameIff` | internal/hub/session.go:1820-1912 | and only then: otherwise some write is misread |
| `RenamePolicy.FreshStaleWritesIff` | internal/hub/session.go:1820-1912 | for fresh names: exactly while the map has room for the renames since |
| `RenamePolicy.StaleRulesAreTheSame` | internal/hub/session.go:1614-1635 | for rules both ways store the very same list, for every list, exactly when one lookup equals following the renames |
| `RenamePolicy.CanonRulesDecide` | internal/hub/highlight.go:94-122 | storing rules changes no decision under the resolved names |
| `RenamePolicy.RewriteAllRoutes` | internal/hub/session.go:2162-2188 | decisions follow the names through any chain of rewrites |
| `RenamePolicy.StoredRoutes` | internal/hub/push.go:640-645 | a stored write drops for a name exactly what it said for the names that resolve to it |
| `RenamePolicy.CanonicalMutes` | internal/hub/session.go:1893-1912 | refused exactly on an over-long key; otherwise nonempty keys with their network resolved |
| `RenamePolicy.CanonicalNicks` | internal/hub/session.go:1862-1874 | refused exactly on an over-long nick; otherwise the lowercased nonempty nicks |
| `RenamePolicy.CanonicalIgnores` | internal/hub/session.go:1820-1858 | refused exactly when an entry is unsound or a resolved network exceeds 512 distinct nicks; otherwise each network ignores exactly the nicks of the entries leading to it |
| `RenamePolicy.AppendUnseenLoop` | internal/hub/session.go:1880-1888 | appends what is not there yet, in order |
| `RenamePolicy.SyncedPolicy.constructor` | internal/hub/session.go:1997-2005 | no policy stored |
| `RenamePolicy.SyncedPolicy.RewriteRuleRefs` | internal/hub/session.go:2145-2154 | scopes rewritten in place, and whether any was |
| `RenamePolicy.SyncedPolicy.RewriteFilterRefs` | internal/hub/session.go:2162-2188 | filters rewritten, or left alone when refused |
| `RenamePolicy.SyncedPolicy.FoldRenameMap` | internal/hub/session.go:2123-2141 | the loop, the deletion and the saturation reset |
| `RenamePolicy.SyncedPolicy.RenameNetwork` | internal/hub/session.go:2011-2098 | rules, filters and map change together or not at all |
| `RenamePolicy.SyncedPolicy.SetFilters` | internal/hub/session.go:1916-1961 | stores the canonical form of a write, or nothing |
| `RenamePolicy.SyncedPolicy.SetRules` | internal/hub/session.go:1590-1655 | stores the canonical rules |

## Left out

- ModeLines.LineEndsWithinCeilingIff: is an equivalence on the line alone only for lines that name no member's status twice; for the others `LineKeepsCeilingIff` decides every letter, `LineEndsAboveIff` is exact for each roster, `TakenBackEndsWithinCeiling` gives one sufficient condition on the line and `ShieldedGrantEndsWithinCeiling` shows that it is not necessary.
- RosterLaws.RosterAlwaysBounded: fixes the casemapping for the connection, because rekeying after a late CASEMAPPING is not something the code does.
- Monitor.MonitorManager: fixes the casemapping for the connection, so a CASEMAPPING token that arrives after nicks were recorded is not covered.
- RenamePolicy.FreshChainTracksIff: asks for fresh names, because a later rename can lead back to a forgotten name and hide the loss; `ChainTracksIff` is the equivalence for all histories.
- Roster.Roster.Handle: takes messages after their parameters are extracted; message parsing, WHOX replies and the lazy NAMES request are not part of this model.
- Roster.Roster: channel states are values in a map, so aliasing between a channel's two maps is not captured.
- Fanout.Hub.SlowestLocked: scans counters that stand still; in the interleaved model any registered session may be picked.
- Fanout: a second `Release` of the same frame, a no-op in the code, has no step.
- HandshakeMachine.Machine.NickInUse: takes the fallback nick from a parameter; `fallbackNick` is not part of this model.
- HandshakeMachine.Machine.CapsToRequest: takes the wanted capabilities as a parameter instead of the fixed list.
- Scram: HMAC, PBKDF2, SHA-256, XOR, base64 and the nonce are parameters; nothing is said about their strength.
- StsPolicy: times are in milliseconds; corrupt records, key migration and malformed addresses of the store are not part of this model.
- RenamePolicy: lowercasing and trimming are ASCII; JSON encoding, rule length checks and corrupt stored settings are not part of this model, and text matching is a parameter.
- Rotation: bcrypt, cookies, login backoff and the store's SQL are abstracted to success or failure; the VAPID key replacement at start is not part of this model.
- TokenTable: socket and stream cancel functions are handles in one registry instead of two.
- HistoryPage: the encoded size of an event is given; the store query is not part of this model.
- Multiline: `validateMultiline` and the advertised limits only bound what is sent and would add easy members.
- Sockets, TLS, proxies, HTTP routing, media previews, logging, configuration loading and the SQLite store.
- Reconnect backoff, WHOIS cards, the MOTD queue, CTCP replies, typing relays and search would only add easy members.
