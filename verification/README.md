# A verified model of the project runtime service

The service keeps projects for many organisations: it runs one container per project, stores its files, archives and
restores them, moves legacy chats into a new log format, and accounts for what each organisation spends. Underneath the
calls to Docker, ZFS, SQLite and the object store there are algorithms and protocols with real invariants. This project
models those in Dafny and proves what they promise. The outside world appears as parameters, as abstract stores, and as
commands that may fail at any time.

`dafny verify dfyconfig.toml` checks everything.

## How it is laid out

Where the service changes things step by step there is a class or a method with its loops, proved against a
specification function; the properties are then proved of that function. Where it runs many threads there is a state
machine whose steps are the sections held under a mutex, and the properties hold in every state of every run.

- Chats: `ChatBlocks` (messages, blocks, log entries), `EntryIds` (unique names), `PiConversion` (block by block),
  `PiMigration` (building the log), `PiMigrationLog` (what every log satisfies), `PiCompaction` (cutting a large log),
  `PiSession` (reading a log), `PiReading` and `PiSpeech` (what its entries show), `ReaderNames` (what the messages read
  are called), `PiSessionCompaction` (reading a compacted log), `RoundTrip`, `ResultContents` (what tool results and
  arguments become), `MigrationLosses` (chats that do not survive), `ContentMerge` and `ClaudeParser` (the legacy events),
  `SnapshotMerge` (what a merged snapshot holds), `ClaudeSpeech` (what an assistant's messages say of the events).
- Usage: `UsageStore` (tables, index, queries), `UsageAgreement` (kept index against rebuilt index), `UsageSpending` (what
  the answers say of the operations behind them), `UsagePages` (pagination), `DailySpend`, `DailyAnalytics` and
  `DailyReport` (the report on one day).
- Storage: `RestoreSwap`, `DatasetClone` and `DirectorySwap` (replacing and cloning project files), `ProjectArchive`
  (cold storage), `ProjectQuota` and `QuotaFiles` (quota ids and their files), `LockOrder`, `ImportPool`.
- Containers: `ContainerManager` (the tables, one locked section at a time) and `ContainerRuns` (all runs).
- `Prelude`, `Places`, `Text` and `NameOrder` hold shared types, lists of places, the string operations the service relies
  on, and sorting by name.

Classes whose commands may fail have a constant `works`: with it set every command goes through, and the contracts say what
then comes out, besides what holds however the commands fail.

## What the proofs show about the code

Most promises hold as made. Some hold only under a condition, which is then stated exactly or with an input that breaks it:

- The content of a tool result survives the migration exactly when it is a string that is neither empty nor over the
  limit; anything else comes back as some text. The whole block survives exactly when, besides, its call was made
  earlier and has a name that is not blank, and it reports no error: the reader forgets error flags, and a result
  without a known call becomes a user message.
- An assistant's message in the legacy events says what its events say, per segment the latest snapshot with text, unless a
  later snapshot without any text has an empty text block at the position of one: that takes its place and the words are
  gone. This is the only way for those to be lost.
- The reader names a message that begins with a tool result after its position. Reading drops a message as a repetition
  exactly when another message begins with an entry of just that name. The same pair, from the cut on, decides whether a
  compacted log reads back as the summary and its exact tail.
- Where no user entry ends in the tail to keep, the compaction of a migrated log may cut inside an assistant's message.
  The reader finds no message of that name, ignores the compaction, and gives the whole chat without the summary. This
  happens, for one, when a long request is followed by an answer that fills sixteen text blocks after a tool result.
- Asking twice in one request for the windows of an organisation without stored limits doubles its default windows; a
  rebuilt index would not. A rebuild also forgets an organisation whose name is no plain directory name, such as
  `_analytics`: the answer on it stays the same exactly when it has no requests and, where windows are asked for, no
  limit rows or, asked for once, just the default ones. As long as index writes go through, these are the only
  differences between the answers of a kept and of a rebuilt index.
- A container can be stopped as idle while a request to it is open, exactly when the manager has lost sight of the
  request: it opened before the container was recorded, or the record was replaced since.
- In the hourly series an event can fall out of the day only when a day before 1970 is looked at while it is under way.
- A page limit of zero reports more rows but gives no cursor to go on from.
- Two running containers with one logical name can leave a stale address entry at start-up, exactly when the earlier
  one has an address that the later one has not.
- Workspaces whose names differ in case or in special characters share a quota project, so that deleting one removes
  the quota entry of the other; and a quota id wraps around after the largest 64-bit number, so that two projects share
  one exactly when an allocation meets a number in use.
- When the temporary dataset of a directory restore cannot be prepared it is left behind, and so is the extraction
  directory when it cannot be handed over to its owner.

## Model

| member | source | states |
|---|---|---|
| `RoundTrip.MigrationRoundTrip` | internal/app/pi_session_migration.go:212-371 | reading back the file that a migration writes, compacted or not, gives the messages one for one, for every chat whose messages show something, whose tool results answer calls made before, and in which no two assistant messages follow each other: roles, times, the name each was written under, and each block as it is carried over (a text over the limit as its head, a notice and its tail; a call with the name shown and sanitized arguments; an image or document as a notice; a result as text and without error flag) |
| `RoundTrip.OwnBlocksComeBack` | internal/app/pi_session_messages.go:216-335 | a message within the size limits comes back with its own blocks if and only if none is empty, media, redacted or of an unknown type, its calls have names that are shown as they are and arguments with nothing to remove, and its results are non-empty strings within the limit that report no error |
| `MigrationLosses.FailureReadsAsSuccess` | internal/app/pi_session_messages.go:216-335 | a failed call comes back as one that succeeded |
| `RoundTrip.MigrationKeepsIds` | internal/app/pi_session_migration.go:235-241 | with trimmed, distinct message names, none of a form the builder derives from another, the names survive the round trip through the file, compacted or not |
| `RoundTrip.PlainIdsAreKept` | internal/app/pi_session_migration.go:235-241 | such a message is written under its own name, whatever was written before it |
| `RoundTrip.ResultReadsBack` | internal/app/pi_session_migration.go:886-954 | the content of a tool result, whatever it is, reads back as itself if and only if it is a string that is not empty and within the limit |
| `RoundTrip.MatchedResultReadsBack` | internal/app/pi_session_messages.go:237-262 | a whole tool-result block with a known call comes back as it was if and only if its call id is not blank, its content reads back and it reports no error |
| `RoundTrip.UnmatchedResultReadsAsUser` | internal/app/pi_session_migration.go:302-330 | a tool result with an unknown call, or without one, and no other, comes back as the text of a user message |
| `RoundTrip.EmptyResultChanges` | internal/app/pi_session_messages.go:425-461 | an empty result comes back as the JSON of its block instead |
| `RoundTrip.SilentMessagesAreSkipped` | internal/app/pi_session_migration.go:244-300 | for every input: entry names are distinct and not empty, each message hangs on the previous one and the first on none, no message is empty, an answer stops for its tools if and only if it calls any, and every tool result names a call in a strictly earlier entry |
| `ResultContents.ListText` | internal/app/pi_session_migration.go:860-900 | a list in a tool result is migrated to exactly its non-empty texts, in order, joined with line breaks and limited in size, and a notice with the exact number of its media blocks; to the notice alone without texts; to its own JSON without either |
| `ResultContents.OtherText` | internal/app/pi_session_migration.go:860-907 | a string in a tool result is limited in size; any other value is migrated to its JSON |
| `ResultContents.ResultReadsAsWritten` | internal/app/pi_session_migration.go:860-900 | any content but the empty string reads back as the text that was written for it |
| `ResultContents.TextsReadBack` | internal/app/pi_session_migration.go:860-900 | a list of non-empty texts within the limit reads back as those texts joined with line breaks |
| `ResultContents.ArgumentsAreCut` | internal/app/pi_session_migration.go:942-990 | what sanitizing puts in the place of media data, media objects, long strings and values nested too deep, and what it leaves |
| `RoundTrip.DesiredNames` | internal/app/pi_session_migration.go:212-356 | the names that entries ask for: that of the message or one made up from role and position, marked for later parts and for results |
| `PiMigrationLog.MigratedLogIsWellFormed` | internal/app/pi_session_migration.go:212-371 | for every input: entry names are distinct and not empty, each message hangs on the previous one and the first on none, no message is empty, and every tool result names a call in a strictly earlier entry |
| `PiMigrationLog.FirstMessageIsNoToolResult` | internal/app/pi_session_migration.go:302-356 | so the first message of a log is never a tool result |
| `PiMigrationLog.SessionLineIsFirst` | internal/app/pi_session_migration.go:212-241 | every log starts with the line of its session, named after the thread, at the time of the first message that has one |
| `PiMigration.Builder.EmitEntry` | internal/app/pi_session_migration.go:781-794 | writing a message claims a new name, hangs it on the last message and appends one line |
| `PiMigration.Builder.FlushAssistant` | internal/app/pi_session_migration.go:282-300 | the pending blocks of an assistant turn become one entry, named after its part, or nothing if there are none |
| `PiMigration.Builder.AddAssistantBlock` | internal/app/pi_session_migration.go:302-350 | a tool result closes the pending part and becomes a result of a known call or else a user entry; other blocks are kept pending and their calls remembered |
| `PiMigration.Builder.AddChatMessage` | internal/app/pi_session_migration.go:244-356 | what one message adds to the log, by role and kind of content |
| `PiMigration.Builder.AddAll` | internal/app/pi_session_migration.go:244-357 | the loop over all messages builds the specified log |
| `EntryIds.UniqueIdIsFresh` | internal/app/pi_session_migration.go:373-392 | each call yields a trimmed, non-empty name not handed out before, and records exactly that name |
| `EntryIds.UniqueIdKeepsName` | internal/app/pi_session_migration.go:373-392 | a free name is given out unchanged; a taken one is still a prefix of what is given out, followed by the repetition mark |
| `EntryIds.UsedIds.Unique` | internal/app/pi_session_migration.go:373-392 | the search loop ends, at the least free number above the last one used |
| `PiConversion.SanitizeKeeps` | internal/app/pi_session_migration.go:956-990 | arguments pass the sanitizer unchanged if and only if there is nothing in them to remove |
| `PiCompaction.FindFirstKept` | internal/app/pi_session_migration.go:488-513 | the two loops find the cut: the first user line of the tail, else its first line that is no tool result, else the last such line before it |
| `PiCompaction.CutIsSafe` | internal/app/pi_session_migration.go:404-513 | the cut is at a message that is no tool result; if any such message ends at or after the target byte at most the tail to keep follows its line, and the first user message there is preferred |
| `PiCompaction.CutIsUnique` | internal/app/pi_session_migration.go:488-513 | the description determines the cut |
| `PiCompaction.CutExists` | internal/app/pi_session_migration.go:404-461 | a well-formed log of three lines or more always has a cut |
| `PiCompaction.MaybeCompact` | internal/app/pi_session_migration.go:404-461 | a log over the threshold with a cut gets one compaction line, any other log is returned as it is |
| `PiCompaction.BuildMigration` | internal/app/pi_session_migration.go:212-371 | building and compacting together |
| `PiCompaction.OversizedLogIsCompacted` | internal/app/pi_session_migration.go:359-461 | an oversized migrated log is always compacted: its lines stay an unchanged prefix and exactly one line with a name of its own is appended; smaller logs are left alone |
| `PiCompaction.CompactionTells` | internal/app/pi_session_migration.go:404-461 | the appended line tells the time of the last message that has one, the size at four bytes a token rounded up, the summary, and is named after the thread, with a repetition mark only if that name is taken |
| `PiSession.ParsePiMessages` | internal/app/pi_session_messages.go:163-335 | the reader's loop over all entries gives the specified messages |
| `PiSession.FlushAssistantGroup` | internal/app/pi_session_messages.go:171-215 | closing the open group appends one assistant message with all its blocks, the latest time and the name of its first segment, and clears it |
| `PiSpeech.MessagesAreTurns` | internal/app/pi_session_messages.go:163-335 | the messages read from any log are its turns one for one: a user's with the name, blocks and time of its entry; an assistant's as its segments in order, named after the first, forked off at the last, at the latest of their times, and holding exactly the texts that the segments say if and only if none is blanked; names are made up where they are missing |
| `PiReading.BlocksAreConserved` | internal/app/pi_session_messages.go:163-335 | reading a log whose entries have names of their own loses, repeats and moves no block: the messages hold, in order, what the entries add |
| `PiReading.VisibleBlocksAreShown` | internal/app/pi_session_messages.go:360-415 | a list is shown block by block, in order, without empty texts and thinking, calls without id or name, and unknown types |
| `PiReading.OtherResultsAreShown` | internal/app/pi_session_messages.go:425-461 | a string in a tool result is shown as it is, null as nothing, any other value as its JSON |
| `PiReading.ResultListIsShown` | internal/app/pi_session_messages.go:425-461 | a list in a tool result is shown as its texts joined with line breaks, as its blocks if others than texts are visible, as its JSON if none are |
| `PiReading.ToolNamesAreListed` | internal/app/pi_session_messages.go:463-492 | which tool names are shown differently, and how |
| `PiSessionCompaction.ReadSessionMessages` | internal/app/pi_session_messages.go:12-55 | reading a session directory: the messages of its files one after the other, without repetitions, cut at the latest compaction |
| `PiSessionCompaction.FindLatestCompaction` | internal/app/pi_session_messages.go:87-114 | the last compaction with a summary and an entry to keep from counts |
| `PiSessionCompaction.DropSeen` | internal/app/pi_session_messages.go:40-53 | the loop over the messages of one more file keeps the first message of each name |
| `PiSessionCompaction.CompactSessionMessages` | internal/app/pi_session_messages.go:116-161 | the summary followed by the messages from the named one on, or all messages if it is not found |
| `PiSessionCompaction.DedupKeepsAll` | internal/app/pi_session_messages.go:44-48 | no message is dropped if and only if no name stands twice |
| `PiSessionCompaction.FirstsAreKept` | internal/app/pi_session_messages.go:40-53 | in general the first message of each name and all without a name are kept, in order |
| `PiSessionCompaction.FilesFollow` | internal/app/pi_session_messages.go:12-55 | the messages of several files follow each other in the order of the files |
| `PiSessionCompaction.LatestIsLast` | internal/app/pi_session_messages.go:87-114 | the compaction that counts in a file is its last one with a summary and an entry to keep from, both trimmed |
| `PiSessionCompaction.LatestFileCounts` | internal/app/pi_session_messages.go:12-55 | of several files the last one with such a compaction counts |
| `PiSessionCompaction.SummaryStandsFirst` | internal/app/pi_session_messages.go:116-161 | the message that stands for what a compaction leaves out |
| `ReaderNames.ReadGivesHeads` | internal/app/pi_session_messages.go:163-335 | the messages read from any part of a log, by name, role and whether a tool result stands first, are the ones its entries start: readable user entries, and readable assistant entries and tool results that follow none, the last named after their position |
| `ReaderNames.StarterSplitsReading` | internal/app/pi_session_messages.go:163-335 | what stands before an entry that starts a message is read as if it were the whole log, and the entry's own message comes next |
| `ReaderNames.RepeatsIffCollides` | internal/app/pi_session_messages.go:251-254 | among entries with distinct names, message names repeat from a given entry on if and only if some entry that names a message bears the position name of a message beginning with a tool result, the later of the two from there on |
| `PiSessionCompaction.ReadNamesAreDistinct` | internal/app/pi_session_messages.go:40-48 | reading a log of distinctly named entries keeps every message if and only if there is no such pair |
| `MigrationLosses.ReaderNamesCollide` | internal/app/pi_session_messages.go:251-254 | a chat of four messages whose migrated log has such a pair and loses a message when it is read |
| `PiSessionCompaction.CompactedReading` | internal/app/pi_session_messages.go:116-161 | builds the index anew from all listed organisations, or leaves everything as it is if a label is repeated |
| `PiSessionCompaction.InnerCutIsIgnored` | internal/app/pi_session_messages.go:116-161 | a compaction that keeps from any other entry, such as a later part of an assistant's message, is ignored by the reader if and only if no message that begins with a tool result bears that entry's name |
| `PiSessionCompaction.CompactedMigrationReadsTail` | internal/app/pi_session_migration.go:404-513 | both equivalences for every migration that is compacted, wherever it is cut; a user entry always names a message |
| `MigrationLosses.InnerCutHappens` | internal/app/pi_session_migration.go:404-513 | for any encoding that writes at least a byte per character: a chat with a long enough request, and an answer that goes on long enough after a tool result, is compacted inside its answer, and reading the file gives both messages back whole, without the summary |
| `MigrationLosses.LongChatIsCut` | internal/app/pi_session_migration.go:488-513 | such a chat is compacted, and the cut is at the last part of its answer |
| `ContentMerge.MergeContentBlocks` | internal/app/chat_jsonl_parser.go:392-459 | both branches of the merge of two snapshots of a message |
| `ContentMerge.MergeKeepsResults` | internal/app/chat_jsonl_parser.go:392-474 | merging in a snapshot without tool results neither loses, repeats nor reorders the tool results already there |
| `ContentMerge.ResultKeysAreOwn` | internal/app/chat_jsonl_parser.go:461-474 | no block of another type can take the slot of a tool result |
| `SnapshotMerge.MergeWithText` | internal/app/chat_jsonl_parser.go:419-458 | a snapshot with text stands as a whole at the end of the merged list; before it stay, in order, exactly the old tool results, thinking and redacted thinking of which the snapshot has none |
| `SnapshotMerge.MergeWithoutText` | internal/app/chat_jsonl_parser.go:399-417 | without text, each old place holds the latest incoming block whose slot it is the last one of, or what it held; incoming blocks of new slots follow at the end, in order |
| `SnapshotMerge.KeysAreSlots` | internal/app/chat_jsonl_parser.go:461-474 | two blocks have one key if and only if they are calls that go by one name, or others of one type at one position (or a made-up type reads like a call) |
| `ContentMerge.AssistantGroup.UpsertSegment` | internal/app/chat_jsonl_parser.go:82-102 | a snapshot is merged into the last segment if that has its name and opens a segment otherwise; the group keeps its first name and latest time |
| `ContentMerge.AssistantGroup.AppendBlocks` | internal/app/chat_jsonl_parser.go:104-126 | blocks are appended to the last segment |
| `ClaudeParser.ParseClaudeMessages` | internal/app/chat_jsonl_parser.go:28-272 | the parser's loop over all events gives the specified messages |
| `ClaudeParser.FlushAssistantGroup` | internal/app/chat_jsonl_parser.go:36-80 | closing the open group appends one assistant message |
| `ClaudeParser.AssistantMessagesMirrorGroups` | internal/app/chat_jsonl_parser.go:128-268 | the assistant messages correspond one for one to groups of events; each bears the latest time of its group and, if no assistant event holds a tool result, exactly the tool results of its group in order |
| `ClaudeParser.ToolResultsAreConserved` | internal/app/chat_jsonl_parser.go:28-272 | over the whole log the tool results of the assistant messages, in order, are those of the tool-result events |
| `ClaudeSpeech.AssistantsSay` | internal/app/chat_jsonl_parser.go:28-272 | each assistant message is its segments in order, named after the first and forked off at the last; its texts are, segment by segment, those of the latest snapshot with text and of the tool-result events after it, if and only if no later snapshot has put an empty text in the place of one |
| `ClaudeSpeech.TextsAreSaid` | internal/app/chat_jsonl_parser.go:28-272 | so they are in every log in which no snapshot without text holds an empty text |
| `ClaudeSpeech.SnapshotBlanks` | internal/app/chat_jsonl_parser.go:399-417 | a snapshot without text leaves the texts of a segment alone if and only if it has no empty text at the position of one, and otherwise takes some away |
| `ClaudeSpeech.AnswerIsBlanked` | internal/app/chat_jsonl_parser.go:399-417 | such a snapshot makes an answer vanish |
| `ClaudeParser.UserMessagesAreKept` | internal/app/chat_jsonl_parser.go:128-247 | the messages that are no assistant's are the user's events one for one, in order, with their content, times, flags, source tools and names; a name that is missing is made up from the message's position or the source tool |
| `ClaudeParser.UserPlacesAreExact` | internal/app/chat_jsonl_parser.go:128-247 | the places at which they stand are those of all messages that are no assistant's, in order |
| `UsageStore.Store.RecordUsage` | internal/state/usage_store.go:465-529 | a record extends the organisation's log and totals and, if the index write goes through, the index |
| `UsageStore.Store.RecordAnalyticsUsage` | internal/state/usage_store.go:971-1020 | the index gets the event, the rollup and, if there are none yet, the default limit rows |
| `UsageStore.Store.SetSpendLimits` | internal/state/usage_store.go:601-640 | sets an organisation's limits and replaces its rows in the index |
| `UsageStore.Store.ReplaceEffectiveLimits` | internal/state/usage_store.go:1022-1052 | replaces the rows of one organisation, or nothing at all if two limits have the same label |
| `UsageStore.Store.RebuildAnalyticsIndex` | internal/state/usage_store.go:1054-1174 | builds the index anew from all listed organisations, or leaves it if a label is repeated |
| `UsageStore.Store.GetOrgUsageAnalytics` | internal/state/usage_store.go:1447-1561 | answers a request from the index, row by row in the order asked, the windows of a row from the shortest to the longest |
| `UsageStore.Store.LoadWindows` | internal/state/usage_store.go:1816-1957 | the windows of each organisation, from the shortest to the longest: one for each stored row, or the default ones once for every mention |
| `UsageStore.Store.ListSpamOrgIds` | internal/state/usage_store.go:1200-1231 | the organisations with limit rows none of which exceeds the spam limit, each once and in alphabetical order |
| `UsageAgreement.RunAgrees` | internal/state/usage_store.go:1447-1561 | at every moment of every run the original is under the target or the rollback name until the restored content is published, mounted and owned; success means the target holds it with the quota asked for; an error return leaves the original datasets if undoing and cleaning up work; if every command goes through the restore succeeds and just the target's dataset is replaced |
| `UsageAgreement.RebuildAgrees` | internal/state/usage_store.go:1816-1957 | the same for content from a directory, quota included; only a failed preparation can leave the temporary dataset |
| `UsageAgreement.SpamAgrees` | internal/state/usage_store.go:1200-1231 | the exchange itself, from moving the old dataset aside to dropping it, with the quota set on the way |
| `UsageAgreement.RunKeepsSynced` | internal/state/usage_store.go:465-1052 | every run of succeeding operations keeps events, totals and limit rows of the index in step with the organisations' tables |
| `UsageAgreement.RebuildSyncs` | internal/state/usage_store.go:1054-1174 | cloning touches no existing dataset at any moment and removes no existing directory; success adds exactly one dataset, with the source's content and the quota asked for, and the snapshot; an error return leaves neither dataset nor snapshot nor directory behind if the clean-up works; if every command goes through it succeeds if and only if both names are not blank and differ, the source exists, and target, directory and snapshot are free |
| `UsageAgreement.RepeatedRequestDiffers` | internal/state/usage_store.go:1901-1954 | the same safety for the directory exchange; only a failed change of owner leaves an empty extraction directory; if every step goes through just the project's directory is replaced |
| `UsageAgreement.UnlistedOrgIsLost` | internal/state/usage_store.go:1176-1198 | the answer on an organisation whose name is not listed survives a rebuild if and only if it has no requests and, where windows are asked for, no limit rows but the default ones |
| `UsageAgreement.RunKeepsTotals` | internal/state/usage_store.go:465-529 | archives from the local or error state only, step by step under the project's lock; done from there means: the record is archived and refers to a new object that is the newest and holds what the directory held, the directory is gone, and at most the retained number of objects is left; if every step goes through it is done exactly where there is a directory |
| `UsageSpending.RunTells` | internal/state/usage_store.go:1447-1957 | the sweep leaves every project alone that is not local; for a local one done means archived in the same full sense, and is reached if every step goes through and there is a directory |
| `UsageSpending.AnswerTells` | internal/state/usage_store.go:1447-1957 | terminate, upload, delete, save and prune keep the invariant at every step, whichever fails or crashes; done means archived from what the directory held |
| `UsageSpending.SpendGrows` | internal/state/usage_store.go:1519-1546 | done means local with the content the project had and the reference to its archive kept; if every step goes through it is done exactly for local and archived projects; an archived project always has its archive, so the branch without one is never taken |
| `UsageSpending.SpentIsLogged` | internal/state/usage_store.go:1519-1546 | changes the state to error if it can and nothing else, and never reports success |
| `UsageSpending.SpentIsTally` | internal/state/usage_store.go:1519-1546 | done leaves exactly the retained number of objects, or all if there are fewer, none of them older than one that is deleted; the very newest is never touched |
| `UsageSpending.RunSpam` | internal/state/usage_store.go:1200-1231 | in such a run the spam organisations are exactly those whose limits, set last, are all a cent or less |
| `UsageAgreement.UnlistedNames` | internal/state/usage_store.go:1176-1198 | which names the listing leaves out |
| `UsagePages.GetPage` | internal/state/usage_store.go:773-851 | a request changes the content only of a project that is local; if every step goes through it is served exactly for local and archived projects |
| `UsagePages.PageCuts` | internal/state/usage_store.go:806-850 | the specified page is cut from the rows asked for; its cursor, printed and read back, is where the rest begins |
| `UsagePages.DescendingIsExact` | internal/state/usage_store.go:789-812 | the rows asked for are exactly those in the date range, each once, newest first |
| `UsagePages.WantedRowsAreExact` | internal/state/usage_store.go:789-812 | archiving and restoring gives back the directory that was there, and both are done if every step goes through |
| `UsagePages.WalkShowsFirstSight` | internal/state/usage_store.go:773-851 | following the cursors ends, and shows exactly the rows that matched at the first page, whatever is recorded meanwhile |
| `UsagePages.UsageLog.ReadAll` | internal/state/usage_store.go:773-851 | the same as a loop over a log that others append to between pages |
| `UsagePages.ZeroLimitStalls` | internal/state/usage_store.go:806-850 | with limit zero a page is empty and has no cursor, yet reports more if any row matches |
| `DailySpend.AddRows` | internal/state/usage_store.go:1563-1726 | adding the rows of a grouped query, in any order, to totals by a normalised name accounts for every picked event once |
| `DailySpend.TallyIsSum` | internal/state/usage_store.go:1563-1726 | what a query tallies is the number of the events it picks and the sum of their costs |
| `DailyReport.AddSummaryRows` | internal/state/usage_store.go:1326-1343 | the rows by organisation add up to a summary with its spam and other parts |
| `DailyReport.AddHourRows` | internal/state/usage_store.go:1626-1677 | the rows by hour and organisation add up to the series, except for hours beyond its end |
| `DailyReport.NormalizeOrgIds` | internal/state/usage_store.go:1754-1769 | the organisations of a request, trimmed and without blanks or repetitions, in the order of their first mention |
| `DailyReport.Collect` | internal/state/usage_store.go:1314-1365 | going through the organisations in chunks loses none and counts none twice |
| `DailyReport.SumOrgs` | internal/state/usage_store.go:1367-1384 | one more request and the time of access, for a recorded container only |
| `DailyReport.GetDailySpendAnalytics` | internal/state/usage_store.go:1233-1445 | one request less, never below zero, and the time of access |
| `DailyAnalytics.ReportAddsUp` | internal/state/usage_store.go:1233-1445 | organisations, models and hours have the day's total; spam and other spend make up the total in every row and summary; top organisations and others make up the total |
| `DailyAnalytics.DaysAreExact` | internal/state/usage_store.go:1254-1310 | the events reported on are those of the 24 hours of the day, up to now if it is under way, and for comparison those of the 24 hours before |
| `DailyAnalytics.ModelRowsAreExact` | internal/state/usage_store.go:1771-1777 | a row of models counts the events whose model bears its name once trimmed, events without a model as unknown |
| `DailyAnalytics.TopAndOthersSum` | internal/state/usage_store.go:1386-1415 | no other organisation spent more than a top one, and together they spent the total |
| `DailyAnalytics.HoursConserve` | internal/state/usage_store.go:1633-1676 | the hour bound drops no event unless a day before 1970 is seen under way in the last second of an hour |
| `DailyAnalytics.LateHourLoses` | internal/state/usage_store.go:1633-1676 | in that case it does drop one |
| `DailyAnalytics.HoursCoverUnlessLate` | internal/state/usage_store.go:1254-1282 | every time of the selected span has its hour in the series if and only if that is not the case |
| `DailyAnalytics.BreakdownSums` | internal/state/usage_store.go:1367-1442 | the rows of a breakdown add up to all picked events |
| `RestoreSwap.Zfs.RestoreZfsBackup` | internal/workspace/zfs.go:219-315 | at every moment of every run the original is under the target or the rollback name until the restored content is published, mounted and owned; an error return leaves the original datasets if undoing and cleaning up work |
| `RestoreSwap.Zfs.ReplaceWithDirectory` | internal/workspace/zfs.go:317-410 | the same for content from a directory; only a failed preparation can leave the temporary dataset |
| `RestoreSwap.Zfs.Swap` | internal/workspace/zfs.go:261-313 | the exchange itself, from moving the old dataset aside to dropping it |
| `RestoreSwap.Zfs.RollbackPublish` | internal/workspace/zfs.go:275-282 | undoing a publication never loses the original, and undoes all if its commands work |
| `DatasetClone.Zfs.Clone` | internal/workspace/zfs.go:81-158 | cloning touches no existing dataset at any moment and removes no existing directory; it only succeeds where the target's directory was absent; an error return leaves neither dataset nor snapshot nor directory behind if the clean-up works |
| `DirectorySwap.Directories.RestoreBackup` | internal/app/backups.go:162-213 | the same safety for the directory exchange; only a failed change of owner leaves an empty extraction directory |
| `DirectorySwap.Directories.Swap` | internal/app/backups.go:193-212 | moving the project aside, publishing the backup, and moving it back if that fails |
| `ProjectArchive.Project.HandleArchive` | internal/app/project_archive.go:26-92 | archives from the local or error state only, step by step under the project's lock; done means archived |
| `ProjectArchive.Project.ArchiveInactive` | internal/app/project_archive.go:275-307 | the sweep leaves every project alone that is not local |
| `ProjectArchive.Project.ArchiveNow` | internal/app/project_archive.go:55-82 | terminate, upload, delete and save keep the invariant at every step, whichever fails or crashes |
| `ProjectArchive.Project.EnsureLocal` | internal/app/project_archive.go:118-149 | in any run, when an idle stop is decided the last use of the container was at least the idle time ago, no flight is under way, and one of the container's requests is still open if and only if the manager lost sight of it: since a request opened without a record, or the record went away under open ones, some have been open all along |
| `ProjectArchive.Project.MarkError` | internal/app/project_archive.go:243-251 | records the error if it can and never reports success |
| `ProjectArchive.Project.PruneArchives` | internal/app/project_archive.go:309-326 | keeps at least the newest archive objects and never touches the very newest |
| `ProjectArchive.PrunedIsNewest` | internal/app/project_archive.go:309-326 | deleting from a place of the sorted listing on keeps just the newest objects, as many as come before it |
| `ProjectArchive.Project.Save` | internal/app/project_storage_state.go:87-103 | the state record is replaced as a whole or not at all |
| `ProjectArchive.Project.constructor` | internal/app/config.go:85 | the retention is at least one, whatever is configured |
| `ProjectArchive.Project.Use` | internal/app/project_archive.go:111-149 | a request changes the content only of a project that is local |
| `ProjectArchive.Run` | internal/app/project_archive.go:26-326 | after any sequence of requests with failures and crashes every state gone through satisfies the invariant |
| `ProjectArchive.GoodIsSafe` | internal/app/project_archive.go:26-326 | the invariant means: the content is in the local directory or in an archive object, and an archived project refers to an object that exists and holds it |
| `ProjectArchive.ArchiveAndBack` | internal/app/project_archive.go:26-149 | archiving and restoring gives back the directory that was there |
| `ContainerManager.Manager.GetContainerBySourceIpCached` | internal/container/manager.go:797-821 | with a sound index the cached lookup finds a record exactly when some container's address has the key, and finds such a record |
| `ContainerManager.Manager.ResolveContainerBySourceIp` | internal/container/manager.go:278-328 | with a sound index and nobody interfering, it finds a container that has a key of the address, and finds none only if no container has one |
| `ContainerManager.MappedFormHasSameKeys` | internal/container/manager.go:835-856 | an address and its mapped IPv6 form are looked up under the same keys |
| `ContainerManager.KeysAreThese` | internal/container/manager.go:835-856 | a new id is at least 10000 if and only if the largest id in use is not the largest 64-bit number, and is then above all others; the first one is 10000 |
| `ContainerManager.Manager.IndexContainerIp` | internal/container/manager.go:823-827 | all keys of an address point to the name |
| `ContainerManager.Manager.UnindexContainerIp` | internal/container/manager.go:829-833 | all keys of an address are dropped |
| `ContainerManager.Manager.RemoveContainerRecord` | internal/container/manager.go:238-244 | drops record, keys and timer |
| `ContainerManager.Manager.InstallRecord` | internal/container/manager.go:599-605 | records a container with its keys and timer |
| `ContainerManager.Manager.RefreshAddress` | internal/container/manager.go:298-309 | a changed address is re-indexed |
| `ContainerManager.Manager.TouchContainer` | internal/container/manager.go:173-184 | the time of access and the timer of a recorded container |
| `ContainerManager.Manager.AddInFlightRequest` | internal/container/manager.go:186-198 | one more request, for a recorded container only |
| `ContainerManager.Manager.RemoveInFlightRequest` | internal/container/manager.go:200-214 | one request less, never below zero |
| `ContainerManager.Manager.ExpireIdleContainer` | internal/container/manager.go:246-276 | stops a container only if nothing is pending or open and it was idle long enough, and restarts the timer otherwise |
| `ContainerManager.Manager.BeginEnsure` | internal/container/manager.go:334-347 | the two files hold the new allocation, or on an error the old one or one of the two in between; it succeeds if every file operation does |
| `ContainerManager.Manager.EndEnsure` | internal/container/manager.go:351-361 | the two files no longer hold the project, or on an error the old entry or only its path; it succeeds if every file operation does |
| `ContainerManager.Manager.DiscoverRunningContainers` | internal/container/manager.go:953-1021 | records what already runs, in the order found |
| `ContainerManager.DiscoveryIsSound` | internal/container/manager.go:953-1021 | discovery leaves a sound index if and only if no address is shadowed by a later container of the same name; distinct names suffice |
| `ContainerManager.ShadowedDiscovery` | internal/container/manager.go:1008-1014 | two containers of one name on different addresses leave a stale entry |
| `ContainerManager.InstalledStaysSound` | internal/container/manager.go:599-605 | recording a container that is not recorded keeps the index sound |
| `ContainerManager.RefreshedStaysSound` | internal/container/manager.go:298-309 | so does a changed address |
| `ContainerManager.RemovedStaysSound` | internal/container/manager.go:238-244 | so does removing a record, even one that shares its address |
| `ContainerManager.LookedStaysSound` | internal/container/manager.go:797-821 | so does a lookup, and it answers as a scan would |
| `ContainerRuns.RunKeepsInv` | internal/container/manager.go:173-610 | single flight, shared results, guarded records, sound index, exact timers, counted requests, and exactly counted ones unless the manager has lost sight of some, hold in every state of every run |
| `ContainerRuns.StepKeepsInv` | internal/container/manager.go:173-610 | each step of each thread keeps them |
| `ContainerRuns.InitialInv` | internal/container/manager.go:112-161 | they hold when the manager starts with distinct names discovered |
| `ContainerRuns.OneFlightPerName` | internal/container/manager.go:330-368 | at most one thread is inside a flight of a name, and it is counted once as pending |
| `ContainerRuns.LeavingClearsPending` | internal/container/manager.go:355-360 | when a flight ends its count is one, so the branch that decrements it is never taken |
| `ContainerRuns.ResultsAreShared` | internal/container/manager.go:335-366 | all who flew or joined a flight return the same result |
| `ContainerRuns.NobodyIsStuck` | internal/container/manager.go:335-342 | a waiting thread can return, or the flight it joined is under way and can go on |
| `ContainerRuns.LookupMatchesScan` | internal/container/manager.go:278-328 | in every reachable state the cached lookup answers as a scan over all containers would |
| `ContainerRuns.IdleKillIsDue` | internal/container/manager.go:186-276 | in any run, when an idle stop is decided no flight is under way, and one of the container's requests is still open if and only if the manager lost sight of it: since a request opened without a record, or the record went away under open ones, some have been open all along |
| `ContainerRuns.LastUseIsRecorded` | internal/container/manager.go:173-214 | in every state of every run a record bears the time of the last step that used or recorded its container |
| `ContainerRuns.EarlyRequestIsCut` | internal/container/manager.go:186-276 | a run in which a request opens before the container is recorded and the container is stopped under it |
| `LockOrder.ProgramsAreInOrder` | internal/workspace/workspace.go:111-258 | every operation nests its locks in one order: project, workspace names in lexicographic order, then the locks of single tables |
| `LockOrder.RunsStayInOrder` | internal/workspace/workspace.go:111-258 | leaving out branches and returning early does not change that |
| `LockOrder.NextKeepsInv` | internal/app/project_storage_state.go:49-54 | every step keeps each thread within the order and each lock with one thread |
| `LockOrder.NoWaitingCycle` | internal/workspace/zfs.go:92-101 | no reachable state has a cycle of threads waiting for each other |
| `LockOrder.NoDeadlock` | internal/workspace/workspace.go:111-258 | as long as some thread is unfinished some thread can go on |
| `ProjectQuota.RunKeepsConsistent` | internal/workspace/workspace.go:299-397 | in every state of a run name-to-id is injective and paths belong to allocated ids if and only if each allocation finds its number free; in any case both maps fit their files |
| `ProjectQuota.EnsureKeepsConsistent` | internal/workspace/workspace.go:299-352 | the workspace's project gets the path; ids stay apart if and only if the project has one already or the next number is free, and then other projects keep their paths |
| `ProjectQuota.NumbersSuffice` | internal/workspace/workspace.go:434-442 | which holds as long as the largest id in use is not the largest 64-bit number |
| `ProjectQuota.DeleteKeepsConsistent` | internal/workspace/workspace.go:354-397 | the project's entry is gone; other projects keep id and path |
| `ProjectQuota.DeleteTouchesSameProject` | internal/workspace/workspace.go:379-389 | another workspace loses its entry if and only if it has the same project name |
| `ProjectQuota.ProjectNamesCollide` | internal/workspace/workspace.go:411-432 | two workspaces that differ in case have the same project name |
| `ProjectQuota.ProjectsAreShared` | internal/workspace/workspace.go:411-432 | two workspaces share a project if and only if their trimmed names in lower case agree place by place, but for the underscore and the characters it stands for |
| `ProjectQuota.ProjectNameSpells` | internal/workspace/workspace.go:411-432 | how a workspace's name goes into that of its project |
| `ProjectQuota.NewIdIsFresh` | internal/workspace/workspace.go:434-442 | a new id is at least 10000 if and only if the largest id in use is not the largest 64-bit number, and is then above all others |
| `ProjectQuota.NextProjectId` | internal/workspace/workspace.go:434-442 | the loop finds the largest id and adds one |
| `ProjectQuota.IdsReadBack` | internal/workspace/workspace.go:444-526 | reading the id file after writing any map of clean names gives the map back |
| `ProjectQuota.PathsReadBack` | internal/workspace/workspace.go:479-540 | the same for the projects file and single-line trimmed paths |
| `ProjectQuota.PrintIntReadsBack` | internal/workspace/workspace.go:444-540 | a 64-bit number printed in decimal is read back as it was |
| `ProjectQuota.ParsedIsClean` | internal/workspace/workspace.go:444-512 | whatever the files hold, what is read from them can be written and read again |
| `ProjectQuota.ReadProjidMap` | internal/workspace/workspace.go:444-477 | reading the id file line by line |
| `ProjectQuota.ReadProjectsMap` | internal/workspace/workspace.go:479-512 | reading the projects file line by line |
| `QuotaFiles.QuotaFiles.WriteProjidMap` | internal/workspace/workspace.go:514-526 | writes the lines sorted by name; what is written reads back |
| `QuotaFiles.QuotaFiles.WriteProjectsMap` | internal/workspace/workspace.go:528-540 | writes the lines sorted by id; what is written reads back |
| `QuotaFiles.QuotaFiles.EnsureProjectQuota` | internal/workspace/workspace.go:299-352 | the two files hold the new allocation, or on an error the old one or one of the two in between |
| `QuotaFiles.QuotaFiles.DeleteProjectQuota` | internal/workspace/workspace.go:354-397 | the two files no longer hold the project, or on an error the old entry or only its path |
| `ImportPool.EverySchedulePasses` | internal/app/project_legacy_import.go:257-321 | no schedule deadlocks or goes on forever: before the return a step is always possible, and the number of steps is bounded |
| `ImportPool.ReturnIsRight` | internal/app/project_legacy_import.go:257-321 | on return the statistics are the sums over the copies that succeeded in the run, no task among them twice; the error is the first one a worker reported, there is one if and only if some copy failed, and without one each task was copied exactly once |
| `ImportPool.StepKeepsInv` | internal/app/project_legacy_import.go:290-317 | every task handed out is with exactly one worker or settled once |

## Left out

- RoundTrip.MigrationRoundTrip: is about chats whose messages show something and whose tool results answer known calls; what becomes of other results is stated by `RoundTrip.UnmatchedResultReadsAsUser`, and assistant messages that follow each other are read as one.
- PiConversion.SanitizeKeeps: text is a sequence of characters, so cutting a long text block in the middle of a UTF-8 character is not modelled.
- PiCompaction.CutIsSafe: the size of a line is an arbitrary function of the entry; that the bytes of the JSON encoding add up to the file is the definition of the size here.
- PiSession.ParsePiMessages: a line is a decoded entry; malformed lines, alternative spellings of field names and the wording taken from provider errors are not modelled (the text of such an error is a field).
- PiSessionCompaction.ReadSessionMessages: the files are given in the order of their names; listing the directory and checking the thread's name are not modelled.
- ClaudeParser.ParseClaudeMessages: the clock is read once per parse instead of once per event without a timestamp.
- UsageStore.Store.RecordUsage: each table write is one transaction that happens or does not; column updated_at_ms is never read back and is not modelled. Amounts are exact numbers, not floating-point ones.
- UsageStore.Store.GetDb: an organisation is its name; two names that lead to one directory, such as `a/../b` and `b`, share a database file in the service and are separate here.
- DailyReport.GetDailySpendAnalytics: the start of the day is given as a time; parsing the date and formatting it are not modelled.
- UsagePages.GetPage: requires a limit that is not negative, since the service cannot allocate a page of negative capacity.
- RestoreSwap.Zfs.RestoreZfsBackup: datasets have flat names, so that destroying one recursively affects no other; a failed receive may leave a partial dataset, other failed commands change nothing.
- DirectorySwap.Directories.RestoreBackup: a directory is its content; ownership and permissions of single files are not modelled.
- ProjectArchive.Project.HandleArchive: the timestamps and error texts of the state record are not modelled; upload times are strictly increasing; deleting the project directory and swapping in a restored one are each all-or-nothing.
- ProjectArchive.Project.Use: the request and the change it makes are one step, although the service releases the project's lock between them.
- LockOrder.NoDeadlock: a read lock counts as an exclusive one, which can only make threads wait more; locks of other components are never held together with these.
- ContainerManager.Manager.ResolveContainerBySourceIp: says what it finds when nobody interferes; its locked sections among those of other threads are the steps Find and Refresh of the runs.
- ContainerRuns.StepKeepsInv: GetContainer is not among the steps; it may record a container that a flight is about to record.
- ContainerRuns.IdleKillIsDue: says what held when the decision was made, not when the container is stopped after the lock is released.
- ProjectQuota.RunKeepsConsistent: operations succeed as a whole; what a failure between the two file writes leaves is stated by `QuotaFiles.QuotaFiles.EnsureProjectQuota` and `QuotaFiles.QuotaFiles.DeleteProjectQuota`. Lines longer than the scanner's buffer are not modelled.
- ImportPool.ReturnIsRight: what copying one file does is a single step with a result.
- HTTP handlers, authentication, proxies, the SQL data proxy, SSH tunnels, and the command lines of Docker, ZFS and S3: input and output.
- Codex parsing, session repair, migration leases and environment parsing: they would add only easier members.
- CheckSpendLimits, GetUsageLog and the usage sums: single queries without state of their own.
- Pruning of backups (as opposed to archives): it orders formatted times as strings.
