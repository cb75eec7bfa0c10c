# The hub runtime of lightspeed-chat, modelled and verified in Dafny

This project models the part of the chat server that moves events between clients, plugins and the history, together
with four smaller cores around it, and proves what that code keeps over every input and every run.

| file | what it models |
|---|---|
| `HubProtocol.dfy`, `HubInvariant.dfy`, `HubSafety.dfy` | the goroutines around the hub as a labelled transition system: the websocket handler with its two login goroutines, `ReadLoop`, `WriteLoop`, the `SendHistory` goroutines, the unregister goroutine, the hub's `Run` loop, the broadcast goroutines and their senders; any number of clients and broadcasts, an explicit RWMutex, WaitGroup counters and closed flags |
| `HubBatches.dfy`, `HubSends.dfy`, `HubLogins.dfy` | what becomes of each batch, of each message that `ReadLoop` sends on, of each replay of the history, and of each login, over whole runs of that system |
| `PluginDispatch.dfy`, `DispatchTheorems.dfy` | the recursive dispatch of events to plugins and what it publishes |
| `HistoryRing.dfy`, `HistoryLocking.dfy` | the history ring as linked nodes, and its readers and writer under the history lock, one node at a time |
| `ReadLoop.dfy`, `Identities.dfy` | the message loop of a client with user records shared by reference, and whose name an event carries |
| `WriteLoop.dfy` | the grouping of events by name before they are sent |
| `Text.dfy`, `Numbers.dfy`, `TagUpdates.dfy`, `TagTheorems.dfy` | comma lists, white-space fields, 64-bit integer parsing and printing, tag updates |
| `Commands.dfy` | slash commands, which are taken apart once by `ReadLoop` and once more by the base-commands plugin |
| `TranslationCache.dfy`, `TranslatePlugin.dfy` | the translation cache with its index remapping, and the plugin around it |
| `RoomStore.dfy`, `EventPaging.dfy` | the BuntDB room store with its roll-backs, and the paged scan of stored events |
| `Events.dfy`, `Wrappers.dfy`, `Sequences.dfy` | the event record and the helpers that the others share |

In the transition system an action names a goroutine and the statement that it executes next. The transition functions
follow the source one by one: `HandlerNext` (`cmd/lightspeed-chat/main.go:308-357`), `ReadNext` and `ReadBeginSendNext`
(`ws/client.go:87-305`), `WriteNext` (`ws/client.go:312-409`), `HistoryNext` (`ws/client.go:71-80`), `UnregisterNext`
(`ws/hub.go:223-262`), `HubNext` and `HubSpawnNext` (`ws/hub.go:214-324`), `BroadcastNext`, `BroadcastTestNext` and
`SenderNext` (`ws/hub.go:278-302`). A goroutine exists from the statement that starts it but may be scheduled
arbitrarily later. `Run` folds a list of actions, `IsRun` says that each was enabled, and `Reachable` that some run ends in
a state.

Methods with loops and in-place updates are proved against specification functions; what the source promises is then
proved about those functions. Outcomes that the source cannot control are arbitrary inputs, numbered by call where
there are many, so that the contracts say what the code makes of them: the answers of plugins, the failures of
reads and writes, the requests that the translation service rejects, the messages and logins of a client.

## Model

| member | source | states |
|---|---|---|
| HubInvariant.StepKeepsInv | ws/hub.go:214-324 | every step of every goroutine keeps the invariant that ties lock holders, membership, WaitGroup tokens, closed flags and delivered copies together |
| HubInvariant.RunsKeepInv | ws/hub.go:180-324 | every state that any interleaving reaches, with any number of clients and broadcasts, satisfies that invariant |
| HubSafety.NoSendOnClosedChannel | ws/client.go:45-47 | in no reachable state is a goroutine about to send on a client's `Send`, `SendEvents` or `PluginChan` while that channel is closed |
| HubSafety.GuardedSendsAreForMembers | ws/client.go:198-203 | in every reachable state, a send behind a membership test is for a client that is still a member: by ReadLoop, by SendHistory, and by the senders of a broadcast, whose goroutine then holds the read lock |
| HubSafety.NoSecondClose | ws/hub.go:234-257 | in every reachable state, whoever is about to close a channel finds it open, with the WaitGroup at zero and the client no member; `doneChan` is open when ReadLoop is about to close it |
| HubSafety.CounterIsExact | ws/hub.go:288-295 | in every reachable state the WaitGroup counter is the pending registration plus the two running loops plus the broadcast sends in flight, and it is positive whenever somebody is about to call Done |
| HubSafety.NoAddAfterWait | ws/hub.go:234-257 | once the unregister goroutine's Wait has returned, the counter is zero and the client no member in every continuation of the run |
| HubSafety.OneLife | cmd/lightspeed-chat/main.go:311-327 | each milestone of a client (insertion, Unregister, deletion, the three closes and that of `doneChan`) happens at most once, and has happened exactly if the state shows it |
| HubSafety.MembershipIsOneInterval | ws/hub.go:216-232 | a client is in `clients` exactly between its one insertion and its one deletion |
| HubSafety.NeverReturns | ws/hub.go:216-232 | a client that was a member and is one no more is no member at any later time |
| HubSafety.LeavingClosesEverything | ws/hub.go:223-262 | in every reachable state in which the unregister goroutine is done with a client, that client is no member, its three channels and `doneChan` are closed, and its handler and both loops have ended |
| HubSends.PlanIsSent | ws/client.go:198-203 | over every run: between taking and returning the read lock for a message, ReadLoop sends on the channels of its plan, in order, if the client is a member at that time, and on none if it is not |
| HubSends.HistoryIsSent | ws/client.go:71-80 | over every run: under its read lock a SendHistory goroutine sends the history once to a member and not at all to others |
| HubLogins.LoginIsAnnounced | cmd/lightspeed-chat/main.go:329-349 | over every run: once the handler has waited for its goroutines, the login of a user has gone to all clients once and to the plugins once, and that of nobody has gone nowhere |
| HubSafety.BroadcastDeliversOnce | ws/hub.go:264-302 | when a broadcast releases its read lock, and ever after, each client of the snapshot, and nobody else, has an outcome: one copy if it is delivery, no copy otherwise; an event that can be marshalled and has no program has reached every client of the snapshot, only an event with a target filter has a program, only a program rejects, and one that cannot be marshalled has reached nobody; internal events have no broadcast |
| HubBatches.EveryEventIsBroadcast | ws/hub.go:264-303 | over every run: when the hub is idle again after it has received a batch, the broadcasts that it has started since are one for each event of the batch that is not internal, in the order of the batch, and for nothing else |
| HubBatches.BroadcastIsAsStarted | ws/hub.go:269-278 | a broadcast serves the event at the head of the batch for good, with a program exactly if that event has a target filter that compiles |
| HubSafety.NoStrayCopy | ws/hub.go:281-296 | at no time has a client two copies of a broadcast, or one that the loop did not decide to deliver |
| HubSafety.SnapshotIsMembershipAtLock | ws/hub.go:280-281 | the set of clients that a broadcast serves is the membership at its RLock, at every later time |
| PluginDispatch.Hub.HandlePlugins | ws/hub.go:127-168 | terminates for every plugin behaviour and map order; calls exactly the unskipped plugins that some event is for, each once, with exactly the events without a target filter and those that the plugin's filter accepts, and so on for every answer; the number of calls made is that of the call tree, whose results are what the plugins answered, call by call; the same batches go on both channels, in post-order of that tree; the caller's skip set is unchanged |
| PluginDispatch.DispatchIsExact | ws/hub.go:128-144 | what that means for every call of every dispatch: a plugin is called exactly if it is configured, not skipped and some event is for it, and the input consists of the events at the positions that are for it, in order |
| PluginDispatch.PassingIsExact | ws/filter.go:89-99 | an event passes exactly if the plugin has no filter, the event has no target filter, or the filter accepts it |
| PluginDispatch.Hub.CallPlugin | ws/hub.go:145-165 | one more call is made and its result is the plugin's answer; an answer is dispatched with the plugin added to a copy of the skip set, and what that publishes comes before the answer itself; only a plugin that fails publishes nothing |
| PluginDispatch.Hub.PassEvents | ws/hub.go:132-141 | the events a plugin gets are those at the positions without a target filter of their own and those that its filter accepts, all of them without a filter, each once and in order |
| PluginDispatch.External | ws/events.go:16-24 | what is kept is exactly the events that are not internal |
| PluginDispatch.Hub.Compact | ws/events.go:16-28 | the slice holds the events that are not internal in front, each once and in order, and nil behind them |
| PluginDispatch.Hub.EmitEvents | ws/events.go:15-42 | both channels get the same: what the plugins answered to the calls that were made, in post-order, then the kept events in one batch if there are any; the dispatch skips the emitting plugin and calls every other plugin that a kept event is for |
| DispatchTheorems.ChainsAreDistinct | ws/hub.go:150-155 | the plugins on every chain of calls are configured, pairwise distinct and outside the initial skip set |
| DispatchTheorems.EmitterIsNeverCalled | ws/events.go:29-31 | the emitting plugin is on no chain of calls that its own events cause |
| DispatchTheorems.CallsAreBounded | ws/hub.go:127-168 | with n unskipped plugins there are at most n!/(n-1)! + ... + n!/0! calls of HandleEvents |
| DispatchTheorems.ArrangementsAreQuotients | ws/hub.go:127-168 | the summands of that bound are the quotients n!/(n-k)! |
| DispatchTheorems.BoundIsReached | ws/hub.go:127-168 | without plugin filters, every run in which every call is answered with events makes exactly as many calls as the bound allows |
| DispatchTheorems.AnswersAreGiven | ws/hub.go:145-155 | the call tree, read in the order of the calls, holds the non-empty answers of the plugins, in order |
| DispatchTheorems.EveryAnswerIsPublishedOnce | ws/hub.go:145-165 | the published batches are the non-empty answers that the plugins gave to the calls made, each as often as it was given, and nothing else |
| DispatchTheorems.ConsequencesComeFirst | ws/hub.go:155-161 | whatever a plugin's answer leads to is published before the answer |
| HistoryRing.NewRing | ws/hub.go:70 | n fresh nodes, pairwise distinct and linked in a circle |
| HistoryRing.AfterPut | ws/hub.go:306-313 | storing an event and moving the cursors keeps the last N-1 events between the two cursors |
| HistoryRing.Hub.constructor | ws/hub.go:65-101 | a ring of the configured size, or 100, that holds what the persister returned, also if it returned an error with it |
| HistoryRing.Hub.Put | ws/hub.go:308-312 | one more event is in the log and the ring still shows its end |
| HistoryRing.Hub.Store | ws/hub.go:305-314 | all events of a batch are appended in order |
| HistoryRing.Hub.GetHistory | ws/hub.go:330-339 | terminates, never reads an unset node, and returns exactly the last min(k, N-1) of the k events stored so far, oldest first |
| HistoryLocking.RunsKeepInv | ws/hub.go:305-339 | in every interleaving of readers and writer the ring shows the end of the log, and each reader has read a prefix of it |
| HistoryLocking.ReaderGetsWholeBatches | ws/hub.go:330-339 | a reader that leaves its loop has the last N-1 events of the loaded events and the completely stored batches |
| HistoryLocking.HistoryIsWhole | ws/hub.go:330-339 | the same over every run, and no reader ever meets an unset node |
| HistoryLocking.EveryBatchIsStored | ws/hub.go:305-314 | over every run: the batches that the writer has taken the lock for are those completely stored, in order, and the one being stored now |
| ReadLoop.Client.constructor | ws/client.go:54-69 | the language is cut to two characters, or "en" if it is shorter |
| ReadLoop.CreateEvent | types/event.go:49-79 | the event refers to the given user; of that user only the time zone of the last visit and a nil tag map are changed |
| ReadLoop.Client.LogOut | ws/client.go:111-128 | a logout of somebody installs a fresh guest with the language of the client, or nobody where guests are not allowed; any other message leaves the user alone |
| ReadLoop.Client.Authenticate | ws/client.go:148-177 | an accepted token installs a fresh record: the stored one if the store has it, and a new one with that id as nick and the language "en" if there is no store or the store has none and takes the new one; a store that fails either way ends the loop and installs nothing |
| ReadLoop.Client.LogIn | ws/client.go:129-187 | which user, which language and how many history replays a login leaves behind, and when it ends the loop |
| ReadLoop.Client.PublishEvent | ws/client.go:236-243 | the event goes to the history and to all clients, and to the plugins if the client is a member; everything published before still shows what it showed |
| ReadLoop.Client.WhisperEvent | ws/client.go:198-203 | the event goes to this client and the plugins, if the client is a member, and nowhere else |
| ReadLoop.Client.SendPrompt | ws/client.go:189-204 | the request to log in is whispered to the client's own nick |
| ReadLoop.Client.SendCommand | ws/client.go:244-266 | a message with a slash is whispered as a command event limited to its sender |
| ReadLoop.Client.SendCustom | ws/client.go:269-303 | any other message is published under its own name, with a copy of the user |
| ReadLoop.Client.RouteMessage | ws/client.go:189-303 | which of the four ways a message takes, and when it ends the loop |
| ReadLoop.Client.ReadLoop | ws/client.go:87-305 | the loop in place does what the session functions say, and at the end every event published on the way, read through its shared user record, still shows the id and nick that it was sent with |
| ReadLoop.RunIsOver | ws/client.go:87-305 | nothing that arrives after the loop has ended changes anything |
| Identities.IdentityIsTheLatest | ws/client.go:111-178 | the current identity is that of the latest login or logout that took effect, or the one that the client came with; after a login it is the authenticated id if the store returns the record it was asked for |
| Identities.UserAfterMessage | ws/client.go:111-178 | the user after one message, outcome by outcome of the store: the record found, a new one with language "en", or the end of the loop with nothing sent and the user as before; the guest after a logout of somebody; the same user after anything else |
| Identities.UserAfterMessageOfRun | ws/client.go:148-177 | the same for a login with an accepted token at any point of a run |
| Identities.RunsOnIff | ws/client.go:98-304 | the loop goes on after a message exactly if it ran before, the message can be read and is no login that cannot be decoded or whose user cannot be loaded, and nobody is logged in, the message is a command line, or it can be decoded |
| Identities.SessionFollows | ws/client.go:98-187 | while the loop runs, its user, event name and data are what the messages alone determine |
| Identities.PublishedUnderLatestIdentity | ws/client.go:189-303 | each message sends the same to the history and to all clients: exactly one event if the loop gets to it, somebody is logged in, and it can be decoded and is no slash command, and nothing otherwise; that event carries the current, non-empty identity, no plugin name, and exactly the name, filter, language and tags of the message; the plugins get it if the client is a member, and nothing goes to the client alone |
| Identities.RunIsAttributed | ws/client.go:189-303 | over a whole run the two channels get the same sequence, and every event in it is such an event of one of the messages |
| Identities.PrivateMessagesStayPrivate | ws/client.go:189-267 | messages of nobody and slash commands reach neither the history nor other clients; a member and the plugins get the same single event, under the current identity: the request to log in for its own nick, or the command described in its tags and limited to its own id; a client that is no member gets nothing, and nor do the plugins |
| Identities.LanguageFollows | ws/client.go:129-187 | while the loop runs, the client's language is the one that the latest login asked for or, failing that, that of the user it loaded, and the history has been replayed once for each login that took effect or asked for a language |
| Identities.CommandNameIsPublishedIff | ws/client.go:206-303 | a published event is named "command" exactly if the client itself named its message so |
| WriteLoop.Client.Group | ws/client.go:336-352 | under each name, in input order, the texts of the events of that name that pass and can be marshalled, and no name without any |
| WriteLoop.Client.WriteEvents | ws/client.go:328-370 | one message per used name, in some order of the names, without those that cannot be marshalled |
| WriteLoop.TextsAreGroup | ws/client.go:336-352 | the texts under some names are those of the events at exactly the positions that pass, can be marshalled and have one of the names |
| WriteLoop.OneMessagePerName | ws/client.go:353-370 | with marshalling succeeding there is exactly one message per name, called name + "s", with the texts of exactly the events of that name that have no target filter or pass it and can be marshalled, in order; no two messages have the same name |
| WriteLoop.MessagesAreAPartition | ws/client.go:336-370 | for every map order the messages together hold each event that has no target filter or passes it and can be marshalled, once |
| Text.JoinOfSplit | filter/tags.go:48-50 | joining the parts of a text gives the text |
| Text.SplitOfJoin | filter/tags.go:125 | splitting joined texts gives the parts of each of them, in order |
| Text.FieldsOfJoin | ws/client.go:256-262 | the fields of words joined by spaces are the words |
| Text.FieldsOfTrimSpace | plugins/lightspeed-chat-base-commands-plugin/main.go:64-65 | trimming does not change the fields |
| Text.RemainderIsUnique | plugins/lightspeed-chat-base-commands-plugin/main.go:72 | a text has only one trimmed remainder behind its first n fields, so the message of a command is determined by the line |
| Numbers.ParseIntOfFormat | filter/tags.go:99 | every 64-bit integer, the least one included, is read back from its decimal text |
| Numbers.ParseIntIsClamped | filter/tags.go:13-17 | every number in base 2, 8, 10 or 16, with any of the prefixes and signs, is read as itself, or as the nearest 64-bit integer if it does not fit |
| Numbers.UnderscoresSeparateDigits | filter/tags.go:13-17 | an underscore between decimal digits changes nothing, and one behind the last digit makes the text unparsable |
| Numbers.UnparsableIsZero | filter/tags.go:13-17 | a decimal number that is followed by a character that is no digit counts as zero |
| Numbers.NoNumberIsZero | filter/tags.go:13-17 | so do a missing number and one that starts with anything but a digit, a sign or an underscore |
| TagUpdates.ParseInts | filter/tags.go:26-34 | the integers of a comma list, part by part |
| TagUpdates.TagMap.Update | filter/tags.go:72-168 | the new tags and the flag of one update, for all six kinds |
| TagUpdates.TagMap.UpdateStringSlice | filter/tags.go:112-126 | the one part is replaced if there is one at the index; the flag says only that the value could be decoded |
| TagUpdates.TagMap.UpdateIntSlice | filter/tags.go:128-146 | the same for integers, in the array that was parsed |
| TagUpdates.UpdateTags | filter/tags.go:58-171 | the whole list is a fold of single updates over the map, with one flag each; a nil map is left alone and all flags are false |
| TagTheorems.UpdateHasItsOutcome | filter/tags.go:71-169 | the outcome of one update for each kind number: 0 to 2 set the tag to a text, an integer or a float, 3 to 5 replace one part of a comma list if there is one at the index, a value that cannot be computed or decoded fails and changes nothing, and other kinds do nothing |
| TagTheorems.IntsRoundTrip | filter/tags.go:26-34 | a non-empty list of integers is read back from its comma text |
| TagTheorems.IntSliceUpdateIsPointwise | filter/tags.go:137-146 | whatever the tag held before, parsable or not, the integers afterwards are the old ones with the one position replaced |
| TagTheorems.IntSliceUpdateOfTags | filter/tags.go:128-146 | the same for the update of a tag map, and nothing changes if the index is too large |
| TagTheorems.StringSliceUpdateSplices | filter/tags.go:121-126 | the parts of the new value, commas allowed, take the place of the old part, so that the length grows by its commas |
| TagTheorems.FailedUpdatesAreInvisible | filter/tags.go:71-169 | running only the updates whose flag is true gives the same tags, and then every flag is true |
| TagTheorems.UpdatesCompose | filter/tags.go:71-169 | later updates see the effects of earlier ones: a list is its first part followed by its second, in tags and flags |
| TagTheorems.OtherTagsStay | filter/tags.go:71-169 | tags that no update names are as before, and no tag disappears |
| Commands.TokenisationsAgree | plugins/lightspeed-chat-base-commands-plugin/main.go:47-75 | a handler finds something exactly if the line has at least three fields; the argument it takes from the tags is the word it cuts from the line, and the text left is the trimmed remainder of the line behind its second field, with the white space inside it |
| Commands.ToCommandAgrees | plugins/lightspeed-chat-base-commands-plugin/main.go:43-101 | `/to` answers with exactly one chat event for three fields or more and none otherwise; its message is that trimmed remainder, and it is addressed to the nick and the sender, by id or by nick, within the sender's own filter, for every kind of sender |
| Commands.FgCommandAgrees | plugins/lightspeed-chat-base-commands-plugin/main.go:103-151 | the same for `/fg`, with the colour in place of the nick |
| Commands.HandleEvents | plugins/lightspeed-chat-base-commands-plugin/main.go:180-205 | the answer to a list of events is the answers to its events, in order; a line that starts with `/to` or `/fg` gets the answer that the two rows above describe, `/help` gets one chat event with the help text for the sender alone, any other event gets nothing |
| Commands.CommandIsAnswered | plugins/lightspeed-chat-base-commands-plugin/main.go:169-205 | the same for one event |
| TranslationCache.Cache.Add | plugins/lightspeed-chat-google-translate-plugin/main.go:233 | the entry is added and any entries, the new one included, may be evicted |
| TranslationCache.FillIn | plugins/lightspeed-chat-google-translate-plugin/main.go:226-235 | each answer is put at the index of its text: the unescaped text if the detected language differs from the target in its first two characters, nothing otherwise; nothing else is touched, and faithful caches stay faithful |
| TranslationCache.Translation | plugins/lightspeed-chat-google-translate-plugin/main.go:178-238 | a request is made exactly if some text is not cached, and the call fails exactly if the service rejects that request; with a faithful cache a successful call returns at every index, duplicates included, the unescaped answer of the service, or nothing if the service detects the target language; faithfulness is kept under every eviction, and a failure or a full hit leaves the cache alone |
| TranslationCache.TransparentIffFaithful | plugins/lightspeed-chat-google-translate-plugin/main.go:190-192 | looking up agrees with direct translation for every text exactly if the entries of that language are faithful |
| TranslationCache.FaithfulIffTranslations | plugins/lightspeed-chat-google-translate-plugin/main.go:226-235 | a cache is faithful exactly if every entry is what the service's answer comes to: its unescaped text for another language than the target, nothing for the same |
| TranslationCache.DirectIsTranslation | plugins/lightspeed-chat-google-translate-plugin/main.go:226-235 | translating a text directly gives that and nothing else |
| TranslatePlugin.TranslateChat | plugins/lightspeed-chat-google-translate-plugin/main.go:76-100 | at most one request per language, of which only the last can be rejected, exactly after an error; the answer is one translation event per language with a non-empty answer, in order, for all languages or for those in front of the one whose request was rejected; a message cached for every language needs no request |
| TranslatePlugin.HandleEvents | plugins/lightspeed-chat-google-translate-plugin/main.go:57-126 | terminates although it calls itself for the help text; if the service rejects none of the requests made there is no error and the answer is complete whatever the cache holds: for each chat message one event per language that the service does not detect and has a text for, with that text and limited to the clients of that language, and for `/help` the help text with its translations; in any case events are answered one by one up to the first chat event with an error, each with a prefix of its complete answer, and errors inside a help answer are dropped |
| TranslatePlugin.HandledIsComplete | plugins/lightspeed-chat-google-translate-plugin/main.go:57-126 | what that means for a caller: complete without a rejection, a subsequence of the complete answer in any case, and an error only if the last request was rejected |
| TranslatePlugin.AllAnswersAreAnswers | plugins/lightspeed-chat-google-translate-plugin/main.go:57-126 | the complete answer to a list of events, event by event and language by language, in terms of what the service answers |
| RoomStore.BuntDBPersist.StoreRoom | persistence/buntdb.go:252-329 | with the I/O failures as input: fails exactly if the room cannot be encoded, the first update fails, or a database is needed and cannot be named, opened or indexed; a failure leaves the store exactly as it was unless the roll-back fails, and success leaves the room stored with a database |
| RoomStore.BuntDBPersist.DeleteRoom | persistence/buntdb.go:358-388 | with the I/O failures as input: an error exactly if the id is empty, the room is missing or the deletion fails; the whole new store, with the empty value that is put back for a missing room; a failure for a stored room changes nothing |
| RoomStore.BuntDBPersist.StoreUser | persistence/buntdb.go:121-136 | users live in the same store, but storing one changes no room's value and no database |
| RoomStore.FailureIsVisibleIff | persistence/buntdb.go:265-328 | a failed StoreRoom leaves a trace exactly if its first update went through, its roll-back did not, and the stored value was not the same before |
| RoomStore.StoreKeepsDatabasesIff | persistence/buntdb.go:252-329 | StoreRoom keeps "every stored room has a database" unless it can neither create the database of a room without one nor roll back |
| RoomStore.DeleteKeepsDatabasesIff | persistence/buntdb.go:370-386 | DeleteRoom keeps "every stored room has a database" whatever its updates do exactly if, before the call, the id is empty, or the room is stored and no stored room's id is its key, or the room is missing but has a database |
| RoomStore.DeletingNothingStoresSomething | persistence/buntdb.go:370-386 | deleting a missing room fails, but unless its second update fails too the room exists afterwards, which breaks the property above exactly if it has no database; a second deletion succeeds and brings the stored rooms back to what they were |
| RoomStore.StoredAgainAfterDelete | persistence/buntdb.go:278-328 | a room that was deleted and is stored again gets a new database, although an old entry may still be open, and is not stored if that cannot be created |
| RoomStore.NamesakeLosesItsDatabase | persistence/buntdb.go:386 | the failing input: with rooms `a` and `room:a`, deleting `a` leaves `room:a` stored without its database and the database of `a` open |
| RoomStore.RunsKeepDatabases | persistence/buntdb.go:252-388 | over every run whose roll-backs succeed and whose deletions meet that condition when they are made, each stored room has a database, whatever the ids |
| RoomStore.PlainRunsAreOrderly | persistence/buntdb.go:252-388 | runs with colon-free ids that delete stored rooms only are of this kind |
| EventPaging.GetEventHistory | persistence/buntdb.go:495-531 | exactly the entries at the positions from fromIdx on that can be decoded, maxCount positions or all if it is not positive, in order and marked as history; an error if the room has no database |
| EventPaging.PageIsPage | persistence/buntdb.go:510-527 | the same for the pages that the next two rows put together |
| EventPaging.PagesArePrefix | persistence/buntdb.go:510-527 | on an unchanged store the first p pages of any positive size are what the first p times as many entries decode to |
| EventPaging.PagesAreComplete | persistence/buntdb.go:510-527 | enough pages together are what reading without a limit returns |

## Where code and documentation disagree

The model follows the code in each case.

- `README.md:190` calls the translation cache an LRU cache; the code creates an ARC cache
  (`plugins/lightspeed-chat-google-translate-plugin/main.go:138`). The model allows every eviction.
- `DeleteRoom` removes the entry `room:<id>` from `roomDbs`, which is keyed by plain ids (`persistence/buntdb.go:386`),
  and its roll-back writes an empty value for a room that did not exist (`persistence/buntdb.go:379-384`). The admin
  tool passes any id on to it (`cmd/lightspeed-chat-admin/main.go:228-229`), ids with colons included.
- `EvaluatePluginFilterEvent` passes every event without a target filter of its own, whatever the plugin's filter says
  (`ws/filter.go:90-92`).
- The flag of a slice update is true even if the index is out of range and nothing was written (`filter/tags.go:168`).
- A chat message takes no language from the wire (`types/message.go:37`), so chat events have
  none.
- An event named "command" can reach the history: a client may send a message with that name, which `ReadLoop` treats as
  a custom event (`ws/client.go:269-296`).

## Left out

- Liveness and deadlock freedom: a full `Send` channel can block a broadcaster that holds the read lock. Only safety is proved.
- Channel capacities and the blocking of sends: a send is one step that may happen at any later time.
- WaitGroup reuse rules of the Go runtime: the counter is a plain number with a blocking Wait.
- `PluginLoop`, `NoClients`, `SendInfo` and the ping timer: they take the lock only for reading, or use no client channel that is closed.
- The cron closure of `Run`, which captures its loop variable: the skip set of `EmitEvents` is modelled instead.
- The initial identity that the websocket handler computes: `ReadLoop.Client` starts with an arbitrary user.
- Why a filter rejects a client in a broadcast: the outcome is arbitrary, except that a nil program never rejects and that only an event with a target filter has a program. Whether an event can be marshalled is fixed for its broadcast.
- A text frame that holds just `null`: `json.Unmarshal` then makes the message nil and `ws/client.go:111` panics; `ReadLoop.Input` has no such message.
- Filter expressions, mapstructure, JSON, OIDC, `strconv.Quote`, `strings.ToLower` on language codes and float formatting: arbitrary functions or outcomes.
- Ids, hashes, creation and sending times, rooms and owners of events: nothing proved here depends on them.
- The internal-event hook of `EmitEvents`, which is empty.
- The order of preloaded history, which is whatever the persister returns.
- Negative slice indexes of tag updates, which would stop the program: an index is required to be non-negative.
- The translate plugin without a cache or with language codes of fewer than two characters, which would stop it.
- Opening the databases at start-up, the SQL persisters, the file lock, gRPC plumbing, configuration and the admin tool.
- Bytes: texts are sequences of characters, and lengths and slices count characters.
