# quick-studio Core: a verified model

quick-studio is a local database manager. Its trusted Core decides which SQL runs and how,
holds one database connection per target, keeps credentials in encrypted files that several
processes may want at once, and drives live reports. This project models those protocols in
Dafny and proves what they promise, over every input text or every interleaving.

Check it with `dafny verify dfyconfig.toml`.

## How the model is laid out

| file | models |
|---|---|
| `Text.dfy`, `Schema.dfy` | characters, trimming, joining, decimal digits; the engine-neutral schema |
| `SqlScanner.dfy` | the scanner's loops, each proved equal to a recursive function |
| `SqlAutomaton.dfy` | a reading of SQL one character at a time, and the scanner as its refinement |
| `SqlSpans.dfy` | where spans begin and end, when a backslash escapes, what is blank: each condition written out |
| `SqlTokens.dfy` | text as ordinary characters and spans; words, appended text |
| `SqlModes.dfy` | what the session modes can change, and when the fallback modes are the safe side |
| `SqlFragments.dfy`, `SqlComposer.dfy`, `SqlCreateTable.dfy`, `SqlShapes.dfy` | composed statements and how they scan back |
| `StructuredOps.dfy`, `RawExecutor.dfy` | the two execution paths |
| `KeyCast.dfy` | what the cast of a numeric key can hold |
| `TableRows.dfy` | the page planner |
| `ConnectionManager.dfy`, `ConnectionRuns.dfy` | the manager's variables and code pieces; all interleavings of calls |
| `ConnectionProgress.dfy` | what the manager gets done: answers that land, turns with a cause, no deadlock, one caller alone |
| `ConnectionTargets.dfy` | the pool of managers |
| `StoreLock.dfy`, `StoreLockRuns.dfy` | the lock file and one acquire; all interleavings of processes |
| `EncryptedStore.dfy`, `EncryptedStoreRuns.dfy` | opening, creating and changing a store; all runs with crashes |
| `StoreOpening.dfy` | what an open comes to and writes, outcome by outcome |
| `StoresUnderLock.dfy` | any number of processes with the lock and their stores, as runs of the one store |
| `ProviderKeyStore.dfy` | the provider-key store, from its own copy of that code, beside the credential store |
| `FirstRunSetup.dfy` | the first-run pre-flight and the presence probe |
| `LiveReport.dfy` | the live report's overlapping runs |
| `MysqlMutex.dfy` | the MySQL promise-chain mutex and read-only transaction |
| `SchemaFold.dfy`, `SchemaGroups.dfy` | folding introspection rows into tables; what each table holds, in terms of the rows |

Where the source changes variables step by step, the model is a class or a method with
loops, and its postcondition equates the new state with a function of the old one; the
lemmas are about that function. Where calls overlap, every `await` is a point at which any
other call may run: the pieces of code between two awaits are single steps of a transition
system, and the theorems are about every state that any sequence of steps reaches.

Outside facts are parameters. A database driver can be created, connect, list the schema,
fail and be closed. Keys are symbolic: a key is a keychain entry or a triple of passphrase,
salt and cost, so key derivation is injective, and a sealed text opens under its own key
only. Files, process lists, keychain answers, prompt answers and failures come from
outside, in any combination.

## Readings of the source that needed a decision

- `src/core/driver.ts:118-124` argues that treating backslashes literally can only
  over-count statements. That is not what the code does. In `'\'' ; x` the escape is
  followed by a doubled quote, so the literal reading swallows the semicolon; in
  `'\' 'x ; y` it closes the string early and the next quote opens one that swallows it
  (`SqlModes.LiteralCanUndercount`, `SqlModes.OddRunUndercounts`). The exact condition is
  whether the active reading takes a delimiter as escaped that the literal one does not:
  until it does, both agree on every segment and word; as soon as it does, some
  continuation without a backslash is under-counted (`SqlModes.EscapesDecide`,
  `SqlModes.SafeEverywhere`).
- `src/core/store-lock.ts:32-36` calls reclaim race-safe. Reading the lock (line 317),
  probing its process (line 335) and renaming it away (line 235) are separate steps on a
  path, and so are the read (line 267) and the remove (line 275) of a release. Taken as
  the code has them, a late rename or a late remove can take a live lock away
  (`StoreLockRuns.ALateReclaimTakesAHold`, `StoreLockRuns.ALateReleaseTakesAHold`), and then
  a second process can hold too. So can a process that creates the file empty where hard
  links are refused, as lines 152-163 accept (`StoreLockRuns.AnEmptyLockIsReclaimed`).
  `StoreLockRuns.NamedUnlessTaken` says exactly when a step does that. Mutual exclusion is
  proved for the runs in which each rename finds the lock it judged, a remove after reading
  no valid lock finds none still, and a text goes into the file created for it; a handle
  that holds needs no such assumption for its own release.
- `src/core/first-run-setup.ts:456-474` asks the keychain a second time, after the prompt.
  When a keychain has come back by then, the open succeeds without writing anything and the
  pre-flight reports a passphrase that opens no store (`FirstRunSetup.KeychainComesBack`).
  On that path a store opens under the passphrase exactly when there is still no keychain.
- Calls that await one promise go on in the order in which they awaited it, as in the host
  language. Who begins a refresh awaits it at once (`src/core/connection.ts:307-309`), so it
  clears the flight (line 313) before any call that joined goes on. No other order between
  calls is taken for granted.
- A handle "holds" the lock from creating the file until it is released or its own process
  reclaims the file for a newer handle (a reentrant reopen), which supersedes it.
- `src/shared/contract.ts:1252-1253` still describes a fixed `DECIMAL(65,30)` cast; the code
  (`src/core/executor.ts:504-507`, `908-925`) derives the scale from the literal, and the
  model follows the code.
- `src/core/table-rows.ts:289-296` computes the offset in floating point and then asks for a
  safe integer. A product of integers is safe there exactly when the exact product is at
  most 2^53 - 1, so the model computes exactly.

## Model

| member | source | states |
|---|---|---|
| SqlScanner.ConsumeDelimited | src/core/executor.ts:130-149 | the loop returns just past the closing delimiter, over doubled and escaped ones, or the end of the text |
| SqlScanner.MatchDollarTag | src/core/executor.ts:155-161 | the loop finds the dollar-quote tag opening here, if any |
| SqlScanner.ConsumeSpan | src/core/executor.ts:175-243 | for every engine and mode, the index just past the comment, string, quoted identifier or dollar-quote starting here, or the same index |
| SqlScanner.FirstKeyword | src/core/executor.ts:291-322 | the leading word past blanks and comments, the empty word for other content, nothing for a blank segment |
| SqlScanner.SplitStatements | src/core/executor.ts:256-283 | the loop returns the segments between top-level semicolons that have content, and always ends |
| SqlScanner.TopLevelWords | src/core/executor.ts:332-361 | the loop collects the upper-cased words outside every span, in order |
| SqlAutomaton.ScannerRefinesAutomaton | src/core/executor.ts:130-283 | on every text, engine and mode, the index-jumping splitter cuts exactly where the one-character automaton reads a semicolon outside every span; what the two take from common definitions is pinned by SqlSpans |
| SqlAutomaton.SpanStep | src/core/executor.ts:175-243 | jumping over a span leaves the automaton at the same place as reading it, and the automaton cuts nowhere in it |
| SqlAutomaton.OrdinaryStep | src/core/executor.ts:268-279 | where no span starts, the automaton cuts here exactly if the character is a semicolon |
| SqlAutomaton.CutRestarts | src/core/executor.ts:272-276 | after a cut the rest is read as if the text began there |
| SqlAutomaton.SplitThenJoin | src/core/executor.ts:256-283 | the unfiltered segments joined by semicolons are the input |
| SqlAutomaton.StatementsAreStable | src/core/executor.ts:256-283 | each kept segment, split on its own, is exactly itself |
| SqlAutomaton.TrimmedIsOneStatement | src/core/executor.ts:529-537 | the trimmed statement is still one statement in isolation |
| SqlSpans.SpansOpen | src/core/executor.ts:175-243 | for every engine, a span starts exactly at a line comment, a block comment, a quote, a MySQL backtick or a Postgres dollar tag, each opener written out character by character |
| SqlSpans.LineCommentEnds | src/core/executor.ts:195-205 | a line comment runs to the first newline, which is left, or to the end, and to nowhere else |
| SqlSpans.BlockCommentEnds | src/core/executor.ts:207-211 | a block comment runs to just past the first terminator, without nesting, or to the end |
| SqlSpans.DollarQuoteEnds | src/core/executor.ts:213-220 | a dollar-quote runs to just past the first repetition of its own tag, or to the end |
| SqlSpans.StringEnds | src/core/executor.ts:130-149 | a string or quoted identifier ends exactly where a body of characters, doubled delimiters and escapes is closed by a single delimiter, and at the end when nothing closes it; when a backslash escapes is written out by engine, mode and the two characters before |
| SqlSpans.BackslashDecides | src/core/executor.ts:225-241 | after a backslash and its delimiter a string opened outside every span is still open exactly when, in single quotes, MySQL has no noBackslashEscapes or Postgres has standardConformingStrings off or a lone E before the quote; in double quotes, on MySQL with neither ansiQuotes nor noBackslashEscapes; never in backticks |
| SqlSpans.BackslashCounts | src/core/executor.ts:256-283 | the same text followed by a semicolon and a word has two segments exactly when the string was closed, and which two |
| SqlSpans.BackslashCountsStatements | src/core/executor.ts:256-283 | and two statements exactly then, when the text begins with a word or with the string |
| SqlSpans.DroppedExactly | src/core/executor.ts:282-322 | a segment is dropped exactly when it is nothing but blanks and comments, the last of which may be unclosed |
| SqlSpans.LeadingWord | src/core/executor.ts:291-322 | behind blanks and comments, the keyword is the whole word there in upper case, or empty when another character stands there |
| SqlSpans.WordsAreRead | src/core/executor.ts:340-359 | outside spans every whole word is collected in upper case, and other characters are passed over |
| SqlSpans.KeptSplits | src/core/executor.ts:282 | filtering keeps the segments with content, each of them, in order |
| SqlSpans.TrimmedExactly | src/core/executor.ts:536 | trimming takes the blanks off both ends and nothing else |
| SqlSpans.UpperCases | src/core/executor.ts:317 | upper-casing moves each ASCII small letter to its capital and changes nothing else |
| SqlTokens.TokensAreLossless | src/core/executor.ts:175-243 | taking a text apart into characters and spans loses nothing |
| SqlTokens.SegmentCount | src/core/executor.ts:256-283 | there is one segment more than semicolons outside spans |
| SqlTokens.WordsOfTokens | src/core/executor.ts:332-361 | the collected words are those of the characters outside spans |
| SqlTokens.TokensExtend | src/core/executor.ts:424-432 | text that goes on with a newline after a scan that ended outside every span but a line comment scans as the old part followed by the new |
| SqlModes.ModesIrrelevant | src/core/executor.ts:225-242 | statements and top-level words are the same in all session modes for any text with no backslash directly before a quote |
| SqlModes.EscapeFreeIsModeFree | src/core/driver.ts:118-124 | while the active reading takes no delimiter as escaped that the fallback reads literally, the two give the same segments, statements and words |
| SqlModes.PartingUndercounts | src/core/driver.ts:118-124 | right after the first such delimiter, one more of it, a semicolon and a letter make the fallback count smaller |
| SqlModes.EscapesDecide | src/core/driver.ts:118-124 | the fallback never counts fewer statements however the text goes on without a backslash, exactly when the two readings do not part at its last character |
| SqlModes.SafeEverywhere | src/core/driver.ts:118-124 | for every text, the fallback is the safe side after every prefix exactly when the active reading takes no delimiter in it as escaped |
| SqlModes.LiteralClosesFirst | src/core/executor.ts:130-149 | where one string by itself ends: no later with literal backslashes exactly when no escaped delimiter is met, or the delimiters after the first one are odd in number or run to the end; this does not decide the count |
| SqlModes.LiteralCanUndercount | src/core/driver.ts:118-124 | a text with an even run of quotes that is two statements with active backslashes and one with the fallback modes |
| SqlModes.OddRunUndercounts | src/core/driver.ts:118-124 | another, with an odd run, whose string closes first under the fallback and which is under-counted all the same |
| SqlFragments.QuotingIsReversible | src/core/driver-mysql.ts:562-565 | doubling the quote character can be undone, so distinct identifiers are quoted differently |
| SqlFragments.IdentReads | src/core/driver-postgres.ts:644-647 | a quoted identifier in composed text is read as one span, whatever it holds |
| SqlFragments.ParamReads | src/core/executor.ts:472-474 | a placeholder is read as ordinary characters and opens no span |
| SqlFragments.FragmentReads | src/core/executor.ts:465-507 | composed text is read, wherever it stands, as the words, identifiers and placeholders it was composed of |
| SqlFragments.SpansAreNames | src/core/executor.ts:465-469 | the spans found in composed text are exactly its identifiers, in order |
| SqlFragments.SlotsAreIndexes | src/core/executor.ts:472-474 | the placeholders found are exactly those meant, in order |
| SqlFragments.FragmentScansBack | src/core/executor.ts:465-507 | such text is one statement with exactly those identifiers and placeholders |
| SqlComposer.InsertScansBack | src/core/executor.ts:591-606 | the INSERT is one statement about its table and columns with placeholders 1 to n |
| SqlComposer.UpdateScansBack | src/core/executor.ts:608-636 | the UPDATE is one statement, its columns in order and the key column last, with placeholders 1 to n + 1 |
| SqlComposer.DeleteScansBack | src/core/executor.ts:638-672 | the DELETE is one statement about its table and key column with one placeholder |
| SqlShapes.BlankedMeaning | src/core/executor.ts:465-507 | with every span blanked, composed text is one pattern that does not depend on what its names hold |
| SqlShapes.InsertHasShape | src/core/executor.ts:602-603 | the pattern of the INSERT: verb, columns, VALUES and placeholders |
| SqlShapes.UpdateHasShape | src/core/executor.ts:626-632 | the pattern of the UPDATE, ending in one key comparison, cast on MySQL for an exact-numeric key |
| SqlShapes.DeleteHasShape | src/core/executor.ts:659-660 | the pattern of the DELETE, ending in one key comparison |
| SqlShapes.CreateHasShape | src/core/executor.ts:722-737 | the pattern of the CREATE TABLE: each column with its type and NOT NULL, then the key |
| SqlShapes.SelectHasShape | src/core/table-rows.ts:312-326 | the pattern of the page query: columns, table, ORDER BY when there is one, LIMIT and OFFSET |
| SqlShapes.CountHasShape | src/core/table-rows.ts:326 | the pattern of the total's query, whatever the names hold |
| SqlCreateTable.AddDeclared | src/core/executor.ts:687-709 | the declared key columns in order and each once, or the first that is not defined |
| SqlCreateTable.AddFlagged | src/core/executor.ts:710-712 | flagged columns follow, without repeats |
| SqlCreateTable.ComposeDefs | src/core/executor.ts:720-734 | one definition per column, or the first whose type the engine lacks |
| SqlCreateTable.ExecuteCreateTable | src/core/executor.ts:674-744 | the operation returns the specified refusal or text |
| SqlCreateTable.KeyIsTheUnion | src/core/executor.ts:680-712 | the effective key holds every declared or flagged column once, in the order in which declarations and then flags first name them |
| SqlCreateTable.CreateDecided | src/core/executor.ts:686-734 | the refusals in their order, each with the first offending column: a declared key that is empty or has a blank name, an undefined key column, a UUID column on MySQL; otherwise the text with the effective key |
| SqlCreateTable.CreateAccepts | src/core/executor.ts:695-732 | it composes exactly when the declared key is not empty, has no blank name and is defined, and there is no UUID column on MySQL |
| SqlCreateTable.CreateScansBack | src/core/executor.ts:735-739 | the CREATE TABLE is one statement about the table, its columns and key columns, and binds nothing |
| SqlCreateTable.CreateIsOneStatement | src/core/executor.ts:674-744 | so is whatever the operation composes, with the effective key |
| StructuredOps.TargetIsTheOneAddressed | src/core/executor.ts:747-768 | a table is resolved if and only if it is at the one place in the live schema whose name is the one asked for and whose schema is, where one was given, and its whole primary key is the addressed column |
| StructuredOps.CastIsDecided | src/core/executor.ts:910-925 | the key is cast exactly when the hint is set and the first column of that name has one of the four exact types; then it must spell a number, and the scale is its fraction digits up to thirty |
| StructuredOps.InsertBinds | src/core/executor.ts:591-606 | an INSERT is refused exactly without columns, and binds each column's value in placeholder order |
| StructuredOps.UpdateRuns | src/core/executor.ts:608-625 | an UPDATE runs exactly when it sets a column, one table of the live schema is named and has that single key, and a key to be cast spells a number |
| StructuredOps.UpdateBinds | src/core/executor.ts:626-634 | it names that very table, the columns and the key, casts the key by that rule, and binds the values in order and the key value after them |
| StructuredOps.DeleteBinds | src/core/executor.ts:638-672 | a DELETE runs only when confirmed, on that very table and exactly when there is one, with the key cast by that rule, and previews exactly the text it would run |
| StructuredOps.ValuesStayOutOfText | src/core/executor.ts:591-672 | the text of an INSERT, UPDATE or DELETE is the same whatever values are bound; the key value enters it, and whether there is one, only through its cast |
| StructuredOps.AcceptedSpells | src/core/executor.ts:878-925 | every accepted key literal spells a signed decimal, and the scale is its number of fraction digits |
| StructuredOps.SpelledIsAccepted | src/core/executor.ts:878-925 | every spelling of a signed decimal is accepted with that scale |
| KeyCast.CastIsExact | src/core/executor.ts:878-925 | the composed cast holds exactly the number the key spells if and only if the fraction digits past its scale of at most thirty are all zero and the other digits, leading zeros aside, are at most 65 |
| KeyCast.ThirtyDigitsAreKept | src/core/executor.ts:878-925 | with at most thirty fraction digits it does exactly when there are at most 65 digits in all |
| RawExecutor.ExecuteRaw | src/core/executor.ts:511-574 | the decision: reject, run read-only, ask, or run and invalidate the schema |
| RawExecutor.DecidedByWords | src/core/executor.ts:529-573 | on every text, by its statements and the words of the one statement: nothing, a refusal of several, a read run verbatim exactly with SHOW or one of the five suppressing words and under the literal bound otherwise, everything else asked about with the risk its verb has, or run when confirmed |
| RawExecutor.BackslashIsRefused | src/core/executor.ts:529-535 | a text with a backslash before a string's delimiter, then a semicolon and a word, is refused as several statements exactly when that backslash does not escape |
| RawExecutor.WhatRunsIsOneStatement | src/core/executor.ts:529-553 | whatever runs or is previewed is one statement by itself, with the fetch bound or without |
| RawExecutor.BoundedIsOneStatement | src/core/executor.ts:433-436 | appending the bound to one statement leaves it one statement, whatever it leaves open |
| RawExecutor.PreviewIsWhatRuns | src/core/executor.ts:556-562 | confirming runs exactly the previewed text, whether the original or the preview is sent back |
| RawExecutor.OnlyReadsRunUnasked | src/core/executor.ts:540-561 | a corollary of the decision, beside WhatRunsIsOneStatement: unconfirmed, only a SELECT or SHOW with no top-level INTO runs, read-only, and confirmation changes nothing for it |
| RawExecutor.BoundAddsOneWord | src/core/executor.ts:433-436 | where the scan ends outside every span but a line comment, the bound adds exactly the word LIMIT after the old words |
| RawExecutor.BoundedReadHasOneLimit | src/core/executor.ts:433-451 | what is run as a read is still a read: its words are those of the statement where that has LIMIT, FETCH, UPDATE, SHARE or LOCK or is a SHOW, and otherwise those and one LIMIT |
| RawExecutor.BoundLosesNothing | src/core/executor.ts:386-394 | a corollary beside BoundedIsOneStatement: the first thousand rows are shown and whether there were more, and fetching one row over that changes neither |
| TableRows.PlannedExactly | src/core/table-rows.ts:228-296 | a page is planned exactly for a well-formed request, one matching table and a safe offset; size is 1 to 200 |
| TableRows.PageDecided | src/core/table-rows.ts:228-296 | malformed, not found, ambiguous and out of range each exactly under its condition on the request and the live tables, with the limits 1, 100, 200 and 2^53 - 1; otherwise that table's page |
| TableRows.OrderDecided | src/core/table-rows.ts:305-310 | a keyed table is ordered by its whole key, a stored Postgres table without one by its row locator, and any other by exactly the columns whose type the engine orders, in their order |
| TableRows.PlannedScansBack | src/core/table-rows.ts:312-328 | both texts are one statement each about the one matching table, with no placeholder |
| TableRows.SelectScansBack | src/core/table-rows.ts:312-326 | the page query names the columns, the table and the order columns, in order |
| TableRows.NeverOrdersByTheUnorderable | src/core/table-rows.ts:203-310 | every order column is of the key, the row locator of a stored Postgres table, or of a type the engine can order |
| TableRows.EarlierPage | src/core/table-rows.ts:253-328 | the planner grants every page before one it grants, with the same size, right after the page before it |
| TableRows.PagesTile | src/core/table-rows.ts:253-328 | when the planner grants page k, the pages 1 to k it grants are exactly the ordered rows up to the end of page k, none twice, none left out |
| TableRows.PagesAreAllRows | src/core/table-rows.ts:253-328 | once the pages granted reach the last row they are all the rows |
| ConnectionManager.Manager.EnterConnect | src/core/connection.ts:319-384 | `connect` up to its first await, on the manager's variables |
| ConnectionManager.Manager.EnterLoop | src/core/connection.ts:287-309 | the head of the refresh loop: leave, join the flight, or begin one |
| ConnectionManager.Manager.OpenListed | src/core/connection.ts:242-253 | a finished open sets driver and memo, and clears the flag only without a newer invalidation |
| ConnectionManager.Manager.RunListed | src/core/connection.ts:296-306 | a finished refresh writes nothing when superseded or after shutdown |
| ConnectionManager.Manager.RunnerLeaves | src/core/connection.ts:307-314 | the owner clears its own flight only |
| ConnectionManager.Manager.RereadMemo | src/core/connection.ts:357-361 | the memo read again after a refresh, or the neutral failure when shutdown dropped it |
| ConnectionManager.Manager.OpenerLeaves | src/core/connection.ts:377-383 | a finished opener clears the flight, so a failed open can be retried |
| ConnectionManager.Manager.Latch | src/core/connection.ts:504-505 | shutdown sets the latch before it awaits anything |
| ConnectionManager.Manager.InvalidateSchema | src/core/connection.ts:470-480 | an invalidation sets the flag and bumps the counter, nothing else |
| ConnectionManager.Manager.Release | src/core/connection.ts:536-539 | shutdown takes the driver and drops driver and memo |
| ConnectionRuns.StepKeeps | src/core/connection.ts:225-540 | every step of every call, open, refresh, invalidation or close keeps the invariant |
| ConnectionRuns.NoLostInvalidation | src/core/connection.ts:225-316 | in every reachable state, a memo not marked stale was read after the latest invalidation from the driver held |
| ConnectionRuns.OnlyACurrentAnswerClears | src/core/connection.ts:238-312 | the flag is cleared only by an answer begun after the latest invalidation; a failed or superseded refresh never does |
| ConnectionRuns.SingleFlight | src/core/connection.ts:282-384 | at most one open and one refresh are ever under way |
| ConnectionRuns.OwnersClearTheirOwn | src/core/connection.ts:307-384 | the flight an owner clears is always its own |
| ConnectionRuns.DriversAreConserved | src/core/connection.ts:225-264 | every driver created is closed, held by the manager, or owned by the one open under way, never two of these |
| ConnectionRuns.ClosedForever | src/core/connection.ts:504-540 | from the moment a close completes there is no driver, no memo and no open connection, forever |
| ConnectionRuns.LateCallsAreRefused | src/core/connection.ts:319-324 | a call made after the latch is refused: `connect` answers the neutral failure, never a schema |
| ConnectionRuns.ReadsAreFresh | src/core/connection.ts:282-425 | a safety law, sharpened by ConnectionProgress.ReadsCatchUp and OneTurnIsEnough: a read answers with a schema newer than every invalidation before it, unless its three turns are spent or shutdown began; no call spends more turns, and no read falls through to the defensive path |
| ConnectionRuns.ConnectsAreFresh | src/core/connection.ts:319-362 | a `connect` that found a connection answers, unless its refresh broke, with a schema as fresh as a read's or with the neutral failure; GivingUpHasACause says when its turns can be spent |
| ConnectionRuns.OpenAnswersAreAsOldAsTheOpen | src/core/connection.ts:225-264 | a `connect` that waited for an open answers with a schema no older than the invalidations made before that open began, and, when it began the open itself, before it was called |
| ConnectionRuns.AJoinedOpenCanBeStale | src/core/connection.ts:363-384 | a run in which a `connect` that joins an open answers with a schema older than an invalidation made before it |
| ConnectionProgress.CurrentAnswersLand | src/core/connection.ts:296-306 | in every reachable state, a refresh begun after the latest invalidation that answers before shutdown becomes the memo and clears the flag; any other changes nothing |
| ConnectionProgress.OpensLand | src/core/connection.ts:242-253 | an open that answers is adopted with its schema, and the flag is left set exactly when an invalidation came meanwhile |
| ConnectionProgress.RunsAreCounted | src/core/connection.ts:470-505 | the counter is the number of invalidations of the run, the latch is set exactly by a close, and an invalidation marks what is held as stale |
| ConnectionProgress.GivingUpHasACause | src/core/connection.ts:193-206 | a call stops refreshing over a stale schema only if two invalidations were made since it was called, and every turn after its second is paid for by one more |
| ConnectionProgress.ReadsCatchUp | src/core/connection.ts:282-425 | a read answers with a schema newer than every invalidation before it, unless two more came meanwhile or shutdown began |
| ConnectionProgress.OneTurnIsEnough | src/core/connection.ts:282-316 | a call that awaits a refresh begun after the latest invalidation, with no invalidation, failure or close meanwhile, answers with a schema of the present generation and spends no further turn, whatever else happens |
| ConnectionProgress.AStaleReadRefreshesOnce | src/core/connection.ts:282-425 | so a read that finds its schema stale and no refresh under way answers after one turn |
| ConnectionProgress.ConnectsBegin | src/core/connection.ts:319-378 | where a `connect` stands at its first await, in every reachable state: refused, current, joined to a refresh or an open, the owner of a new one, or without a target |
| ConnectionProgress.ReadsBegin | src/core/connection.ts:392-408 | the same for a read or query |
| ConnectionProgress.ClosesBegin | src/core/connection.ts:504-540 | a close latches, and awaits the open or the refresh under way before it releases |
| ConnectionProgress.ReadersGoOn | src/core/connection.ts:412-456 | a read with a connection enters the refresh loop, and a query goes to that connection |
| ConnectionProgress.AwaitersGoOn | src/core/connection.ts:288-384 | what a call that awaited an open or a refresh is given: the open's outcome, the failure of the refresh as the neutral answer or a throw, or the loop again |
| ConnectionProgress.AnswersGoOut | src/core/connection.ts:355-540 | after its refreshes a call answers with the memo as it is by then, after `ensureDriver` it goes on with the driver as it is by then, and a close that has awaited both leaves neither |
| ConnectionProgress.NothingIsStuck | src/core/connection.ts:225-540 | in every reachable state a call that has not finished can go on, or what it awaits of the database can, or the owner of what it awaits |
| ConnectionProgress.ASoloConnectSucceeds | src/core/connection.ts:225-384 | a `connect` on an idle manager that meets no failure ends connected, with a current schema and nothing under way |
| ConnectionProgress.ASoloReadSucceeds | src/core/connection.ts:392-425 | a read on an idle manager opens it and answers with the schema listed |
| ConnectionProgress.AFailedConnectCanBeRetried | src/core/connection.ts:254-383 | a failed `connect` closes its driver, answers with the failure and leaves the manager's variables as they were |
| ConnectionTargets.Targets.ResolveTarget | src/core/connection-targets.ts:184-221 | one resolve, on the pool's cache and latch |
| ConnectionTargets.Targets.EvictEntry | src/core/connection-targets.ts:176-181 | an evicted manager leaves the cache and is told to close |
| ConnectionTargets.Targets.CloseEvery | src/core/connection-targets.ts:223-229 | the loop tells every cached manager to close and empties the cache |
| ConnectionTargets.ResolvedAsLookedUp | src/core/connection-targets.ts:184-221 | a resolved target was built with the url and schema just looked up and is open; an unavailable store disturbs nothing |
| ConnectionTargets.ResolvesExactly | src/core/connection-targets.ts:184-221 | the answer in every case and what becomes of the pool: an unchanged record uses its manager again and leaves the pool, a changed one is replaced and its old manager told to close, a removed one is evicted, and shutdown or an unavailable store changes nothing |
| ConnectionTargets.OthersUntouched | src/core/connection-targets.ts:176-221 | resolving one connection neither closes nor replaces another's manager |
| ConnectionTargets.ToldUnlessCached | src/core/connection-targets.ts:158-231 | in every run from an empty pool, a manager has been told to close exactly when it is not the one cached for its own connection |
| ConnectionTargets.NothingAfterCloseAll | src/core/connection-targets.ts:223-229 | in every run, after `closeAll` no target is created and none stays open |
| StoreLock.BodyParses | src/core/store-lock.ts:202-223 | what is written into the lock file is what is read back |
| StoreLock.ParsesExactly | src/core/store-lock.ts:202-223 | a text is read as a lock if and only if its first three lines are digits of a positive number, a host and a token, and then as theirs |
| StoreLock.AcquireStoreLock | src/core/store-lock.ts:292-352 | undisturbed, an acquire succeeds unless the file cannot be created, is a lock of another host or of another live process, or cannot be taken away, and then leaves the file as it was |
| StoreLock.Handle.Release | src/core/store-lock.ts:256-281 | run undisturbed, only the first release acts, and only on a file that is no lock of another holder or handle |
| StoreLockRuns.StepKeeps | src/core/store-lock.ts:202-352 | every step of any process, however interleaved, keeps each lock carrying its writer's process id, each reclaim judged rightly when judged, and one call at a time per process |
| StoreLockRuns.NamedUnlessTaken | src/core/store-lock.ts:32-36 | while the file names every live holder, a step keeps that so exactly when it is no rename with another process holding, no release's remove with anybody holding, and no text written into a file that is no longer the lock |
| StoreLockRuns.NamedExactlyWhenNoneTaken | src/core/store-lock.ts:32-36 | over whole runs: the file names every live holder throughout exactly when there is no such step |
| StoreLockRuns.ATakenHoldAdmitsTwo | src/core/store-lock.ts:292-352 | once a step takes a hold, some continuation has two live holders |
| StoreLockRuns.AtMostOneHolder | src/core/store-lock.ts:292-352 | in every run whose renames find what they judged, whose removes after a null read find none still and whose texts go into the file created for them, at most one handle of a live process holds the lock, across crashes, stale, malformed and own-pid reclaims and reused process ids |
| StoreLockRuns.OnlyItsProcessEndsAHold | src/core/store-lock.ts:232-352 | in such a run a live holder keeps holding until its own process releases, reopens or crashes |
| StoreLockRuns.OwnReleaseIsSafe | src/core/store-lock.ts:256-281 | between the read and the remove of a release, the lock it read as its own stays its own, so the remove takes nobody's |
| StoreLockRuns.HolderReadsItsOwn | src/core/store-lock.ts:256-281 | releasing a handle that holds reads its own lock, so it is such a release |
| StoreLockRuns.ReleaseSparesOthers | src/core/store-lock.ts:256-281 | neither step of a release ends a hold through another handle, even of the same process |
| StoreLockRuns.NullReadRelease | src/core/store-lock.ts:256-281 | a release that read no valid lock is safe exactly when nobody holds at its remove |
| StoreLockRuns.AttemptsAreBounded | src/core/store-lock.ts:306-351 | in any run at all, no acquire makes more than three attempts |
| StoreLockRuns.ReclaimsAreCounted | src/core/store-lock.ts:232-247 | a reclaim spends one of three attempts whether or not it takes the file away |
| StoreLockRuns.JudgedExactly | src/core/store-lock.ts:318-346 | what was read is reclaimed exactly when it names nobody, this process or one of this host that is gone; another host's lock never is |
| StoreLockRuns.AnUndisturbedAcquire | src/core/store-lock.ts:292-352 | a process that acquires with nobody in between holds a free lock at once and one that may be taken at its second attempt, and is refused any other, which it leaves alone |
| StoreLockRuns.AnUndisturbedRelease | src/core/store-lock.ts:256-281 | a holder's release with nobody in between leaves no lock |
| StoreLockRuns.ALateReclaimTakesAHold | src/core/store-lock.ts:32-36 | a run in which a late rename takes a fresh live lock away, ending with two live holders |
| StoreLockRuns.ALateReleaseTakesAHold | src/core/store-lock.ts:256-281 | a run in which every rename finds what it judged, a superseded handle's release reads no lock and its remove deletes a live one, ending with two live holders |
| StoreLockRuns.AnEmptyLockIsReclaimed | src/core/store-lock.ts:152-163 | where hard links are refused, a run in which every rename finds what it judged, an empty lock is reclaimed before its text is written, and two live processes hold |
| EncryptedStore.Files.WriteStoreFile | src/core/credential-store.ts:391-426 | the whole record set replaces the file in one step, or nothing changes |
| EncryptedStore.Files.Create | src/core/credential-store.ts:660-717 | creation writes the descriptor, then the sealed empty set, and rolls the descriptor back when that fails |
| EncryptedStore.Files.Open | src/core/credential-store.ts:522-824 | the open's decision and the disk after each of its writes |
| EncryptedStore.Store.constructor | src/core/credential-store.ts:834-842 | the records in the order of a map set one by one |
| EncryptedStore.Store.Commit | src/core/credential-store.ts:864-880 | memory follows only a durable write |
| EncryptedStore.Store.Save | src/core/credential-store.ts:884-888 | a save replaces in place or appends, in memory and in the file, or changes neither |
| EncryptedStore.Store.Delete | src/core/credential-store.ts:897-904 | a delete removes from both or neither, and writes nothing for an absent id |
| EncryptedStore.Store.Close | src/core/credential-store.ts:846-857 | the lock is given back once |
| StoreOpening.FailsExactly | src/core/credential-store.ts:522-824 | each reason an open can fail with, exactly under its condition on the two files, the answers and the failures |
| StoreOpening.OpensExactly | src/core/credential-store.ts:522-824 | an open succeeds in exactly four ways: a file decrypted beside a descriptor or by the keychain's key, a keychain key on an empty directory, loaded or created, and a created passphrase store; and with which key and records |
| StoreOpening.WritesExactly | src/core/credential-store.ts:660-717 | an open writes only when it creates a passphrase store: the descriptor, then the empty sealed set, or the rollback |
| StoreOpening.FromListExactly | src/core/credential-store.ts:834-842 | an open store holds each id once, where the file first names it, with what the file last gives it |
| StoreOpening.OpensUnderTheLock | src/core/credential-store.ts:472-515 | without the lock nothing is opened or written, and the lock is kept exactly by an open store |
| EncryptedStoreRuns.SealedOpens | src/core/credential-store.ts:726-824 | what was sealed opens under its key as the same records in the same order, and under no other key |
| EncryptedStoreRuns.StepKeeps | src/core/credential-store.ts:522-717 | every open, crash, save, delete, close and lost file keeps the one-key invariant |
| EncryptedStoreRuns.OneKeyForever | src/core/credential-store.ts:522-717 | in every run, an encrypted file beside a descriptor is sealed under the key derived at creation, and a passphrase-sealed file never lacks its descriptor |
| EncryptedStoreRuns.DescriptorIsForever | src/core/credential-store.ts:522-717 | a descriptor left by an open is never replaced or re-keyed, even after its encrypted file is lost |
| EncryptedStoreRuns.OnlyTheFirstPassphraseOpens | src/core/credential-store.ts:552-630 | beside a descriptor, an undisturbed open succeeds exactly with the creation passphrase and a file, and never writes |
| EncryptedStoreRuns.MemoryIsTheFile | src/core/credential-store.ts:864-904 | after every save, delete or failed write, memory is what the file decrypts to |
| EncryptedStoreRuns.ReopenReturnsTheRecords | src/core/credential-store.ts:726-907 | reopening with the same secret returns the records and their order |
| EncryptedStoreRuns.SavesLand | src/core/credential-store.ts:884-888 | in every run, a save puts the record in its place or last, in memory and in the sealed file, or changes neither when its write fails |
| EncryptedStoreRuns.DeletesLand | src/core/credential-store.ts:897-904 | a delete takes exactly that record out of both, or changes neither |
| EncryptedStoreRuns.OtherEventsShow | src/core/credential-store.ts:449-907 | the other events written out: an open has in memory what it opened, a close or crash forgets it, and a crash in a change leaves the file before or after it |
| EncryptedStoreRuns.FailedOpenWritesNothing | src/core/credential-store.ts:660-712 | a failed open leaves the disk alone, or the descriptor alone when rollback fails too; no intermediate disk has a file without a descriptor |
| StoresUnderLock.StepRefines | src/core/credential-store.ts:472-515 | any step of any process, of the lock or of a store, is at most one step of the one store the lock's holder has open |
| StoresUnderLock.ManyProcessesAreOneStore | src/core/store-lock.ts:13-18 | every run of any number of processes under the lock is a run of that one store |
| StoresUnderLock.OneKeyForAll | src/core/store-lock.ts:5-18 | so across all of them the encrypted file stays sealed under the one key derived at creation |
| StoresUnderLock.HoldersMemoryIsTheFile | src/core/store-lock.ts:5-18 | and what the holder has in memory is what the file decrypts to: no update is lost |
| StoresUnderLock.OnlyOneStoreMoves | src/core/credential-store.ts:472-515 | a step of one store is that store's own and leaves all others in memory; a step of the lock leaves the disk and every store |
| StoresUnderLock.ASupersededStoreOverwrites | src/core/credential-store.ts:864-888 | a run in which a store whose process has reopened saves, and the holder's memory is no longer the file's |
| ProviderKeyStore.KeyFiles.LoadStoreFromFile | src/core/provider-key-store.ts:497-567 | the provider store's own reading of its file, failure by failure, gives what the credential store's does |
| ProviderKeyStore.KeyFiles.Open | src/core/provider-key-store.ts:371-490 | its own open makes the very decision and the very writes of the credential store's |
| ProviderKeyStore.KeyStore.SaveKey | src/core/provider-key-store.ts:600-605 | a key replaces the one of its provider in place or is appended, in memory and in the file, or neither changes |
| ProviderKeyStore.KeyStore.DeleteKey | src/core/provider-key-store.ts:613-620 | a delete removes from both or neither, and writes nothing for an absent provider |
| ProviderKeyStore.OpenProviderKeyStore | src/core/provider-key-store.ts:343-360 | an ephemeral store and an unresolvable directory touch no file; otherwise the store is what its open decided |
| ProviderKeyStore.OpenBoth | src/core/provider-key-store.ts:343-490 | opened on equal disks with equal answers, the two stores decide alike and leave equal disks; without the writer lock the credential store does nothing, and it keeps the lock exactly when it opens |
| ProviderKeyStore.ChangeBoth | src/core/provider-key-store.ts:574-622 | through any saves, deletes and failed writes, the two stores keep equal records on equal disks and give equal answers |
| FirstRunSetup.World.OpenCredential | src/core/credential-store.ts:449-520 | the credential open under the lock, kept only by an open store |
| FirstRunSetup.World.ExplainOrphans | src/core/first-run-setup.ts:368-390 | what is said of orphaned descriptors: each by name, then the remedy, then whether it takes both |
| FirstRunSetup.World.Verify | src/core/first-run-setup.ts:411-434 | a verifying open writes nothing, leaves no lock, and succeeds only if the file decrypts under the passphrase |
| FirstRunSetup.World.RunUnlockLoop | src/core/first-run-setup.ts:368-446 | it prompts, after naming the orphans, until an answer does not call for another or three times, verifying against the credential store when it has both files and else the other; the last answer decides, with exactly these lines said, and no write |
| FirstRunSetup.World.RunCreatePath | src/core/first-run-setup.ts:456-474 | one prompt, and success exactly when the lock is free and the store opens, by a keychain that is there by now or by creation; a store then opens under the answer exactly when there is still no keychain |
| FirstRunSetup.World.RunFirstRunSetup | src/core/first-run-setup.ts:486-542 | it asks exactly when it may and the store's own open would; then the unlock path beside any descriptor and the create path without one, with what each answers and says; never creates beside a descriptor, leaves no lock and otherwise writes no store file; a store opens under the passphrase it answers with exactly when there was a descriptor or the create step meets no keychain |
| FirstRunSetup.KeychainComesBack | src/core/first-run-setup.ts:456-474 | a run that answers with a passphrase no store opens under, having written nothing |
| LiveReport.Report.RunAll | src/live-report/runtime.ts:404-408 | a run takes the next generation |
| LiveReport.Report.OnPick | src/live-report/runtime.ts:389-392 | a pick is adopted and starts a run |
| LiveReport.Report.AfterFailedList | src/live-report/runtime.ts:408-425 | the failed path: banner, default-only picker and one note per query slot, unless superseded |
| LiveReport.Report.AfterList | src/live-report/runtime.ts:426-436 | the healthy path: banner cleared, pick reconciled, picker rebuilt, blocks started, unless superseded |
| LiveReport.Report.StartBlocks | src/live-report/runtime.ts:441-450 | every slot is cleared and asks for its rows, or shows the no-query note |
| LiveReport.Report.AfterReply | src/live-report/runtime.ts:268-298 | a superseded reply appends nothing |
| LiveReport.StepKeeps | src/live-report/runtime.ts:403-451 | every step of every overlapping run keeps the invariant |
| LiveReport.OneRunPerSlot | src/live-report/runtime.ts:256-298 | a slot holds what at most one run appended since its last clear, once, and all slots agree on run and pick |
| LiveReport.OnlyTheNewestRunShows | src/live-report/runtime.ts:403-451 | a corollary of the steps, beside QuiescenceAgrees: a step of a superseded run leaves slots, picker, banner and pick as they are |
| LiveReport.FailureKeepsThePick | src/live-report/runtime.ts:380-436 | a corollary of the steps, beside QuiescenceAgrees: a pick is replaced only by another pick, or by the default once it is not offered; a failed reload keeps it |
| LiveReport.QuiescenceAgrees | src/live-report/runtime.ts:403-451 | when nothing of the newest run is in flight, every slot shows one thing of that run and of the pick the picker shows |
| LiveReport.StepsShow | src/live-report/runtime.ts:256-451 | in every reachable state, what each event makes of pick, banner, picker, slots and queries: a reply of the newest run shows alone in its own slot, its list or the failure to load it rebuilds the page, and anything older leaves the page |
| LiveReport.SlotsShowWhatHappened | src/live-report/runtime.ts:256-451 | whatever a slot shows in any run is the failure of its run's list, the note of a block without a query, or the very reply to this slot's query of that run and pick |
| MysqlMutex.Driver.Run | src/core/driver-mysql.ts:102-114 | a call is chained onto the tail, whatever becomes of it, and becomes the tail |
| MysqlMutex.Driver.Turn | src/core/driver-mysql.ts:524-548 | a call's turn sends its first command, or rejects without a connection |
| MysqlMutex.Driver.OnAnswer | src/core/driver-mysql.ts:536-558 | a started transaction goes on to its statement and is rolled back whatever that did; one that cannot start is over; TransactionsAreWhole says what that comes to |
| MysqlMutex.FirstInFirstOut | src/core/driver-mysql.ts:102-114 | no call begins before every earlier one has settled |
| MysqlMutex.NothingBlocks | src/core/driver-mysql.ts:105-111 | after any outcome of the earlier calls the next one can go on |
| MysqlMutex.TransactionsAreContiguous | src/core/driver-mysql.ts:536-558 | the log is the calls' commands one call after the other, in the order they were made, and a later call's command means the earlier one has settled |
| MysqlMutex.TransactionsAreWhole | src/core/driver-mysql.ts:524-558 | a settled read-only call whose START was answered well has sent START, statement and ROLLBACK whatever became of the last two, one that sent START alone had it answered badly, one that sent nothing had no connection; and it is fulfilled exactly when its statement was answered well |
| MysqlMutex.TurnsBegin | src/core/driver-mysql.ts:524-548 | a call's turn sends its first command, or rejects without sending when there is no connection |
| MysqlMutex.UnsettledTransactions | src/core/driver-mysql.ts:524-558 | before it settles a call has sent the beginning of that and awaits the answer to its last command |
| MysqlMutex.NothingComesBetween | src/core/driver-mysql.ts:536-558 | after a START that was not answered badly, every command until its ROLLBACK is the same call's |
| SchemaFold.IndexList.PushRow | src/core/driver.ts:377-395 | pushing through the map by name extends the very array the table lists, new or known |
| SchemaFold.ForeignList.PushRow | src/core/driver.ts:397-426 | the same for the column pairs of a constraint |
| SchemaFold.FoldColumns | src/core/driver.ts:331-363 | the column loop makes one table per relation, in first-appearance order, and the map by key reaches the same tables |
| SchemaFold.FoldKeys | src/core/driver.ts:365-375 | the key loop only adds to tables that exist |
| SchemaFold.FoldIndexes | src/core/driver.ts:377-395 | the index loop groups columns by index name within existing tables |
| SchemaFold.FoldForeignKeys | src/core/driver.ts:397-426 | the constraint loop groups aligned columns by constraint name within existing tables |
| SchemaFold.AssembleSchema | src/core/driver.ts:297-429 | the fold over maps and shared arrays is the group-by |
| SchemaGroups.TablesAreRelations | src/core/driver.ts:331-363 | one table for each relation with a column row, in the order in which relations first appear, with the schema, name and kind of that first row |
| SchemaGroups.ColumnsAreRows | src/core/driver.ts:360-375 | a table's columns and primary key are exactly those of its relation's rows, in arrival order |
| SchemaGroups.IndexesAreRows | src/core/driver.ts:377-395 | a table's indexes are one for each name its relation's index rows have, in order of first appearance, each with exactly the columns of its rows in order and the uniqueness of the first |
| SchemaGroups.ForeignKeysAreRows | src/core/driver.ts:397-426 | the same for constraints, with local and referenced columns row by row and the table the first row refers to |
| SchemaFold.ForeignPairsAlign | src/core/driver.ts:405-426 | the local and referenced columns of a foreign key are pairs, one from each of the constraint's own rows, in their order |
| SchemaFold.OnlyColumnsMakeTables | src/core/driver.ts:365-426 | index, key and foreign-key rows never create, remove or move a table |
| SchemaFold.RelationsStayApart | src/core/driver.ts:331-338 | keys joined with NUL are equal only for the same relation |

## Left out

- HTTP serving, tokens, SSE, browser launch, command line and update check: plumbing around the protocols modelled here.
- The Postgres and MySQL clients, their introspection queries, timeouts and error classification: foreign calls; a driver is a catalog that can connect, list, fail and close.
- Placeholders are those outside every span: on MySQL this takes the client, which binds through `conn.query` (`src/core/driver-mysql.ts:187`), to leave a `?` inside backticks alone. That client is not part of this model.
- AES-GCM, scrypt, the keychain and randomness: symbolic keys and sealed texts, and fresh tokens and salts, stand for them.
- Text is a sequence of Unicode scalar values; the source's strings are UTF-16 code units. No character the scanner looks at lies outside the basic plane.
- Upper- and lower-casing covers ASCII letters, which is all that scanned words and catalog type names contain.
- On MySQL `firstKeyword` (`src/core/executor.ts:300`) takes two dashes for a comment where `consumeSpan` (`src/core/executor.ts:195-205`) does not; the model keeps both, and nothing here says that dropped MySQL segments are exactly the comment-only ones.
- RawExecutor.BoundAddsOneWord: says nothing of statements that end inside an unterminated string, dollar-quote or block comment, because there the appended bound becomes part of that span.
- Session-mode parsing (`src/core/driver.ts:139-160`), the request-shape validators of the executor, chart and report parsing, HTML assembly, the workspace store and the live report registry: easy members beside the above.
- `getEngine`, `getSessionModes`, `quoteIdent` and `describe` of the connection manager: they read what a call modelled here has set.
- ConnectionTargets.Targets.CloseEvery: the order in which managers are told to close is not captured.
- StoreLockRuns.AtMostOneHolder: where hard links are refused (`src/core/store-lock.ts:152-163`) the text is written in one step after the empty file; a text cut short is not modelled.
- StoreLock.ParsesExactly: process ids are unbounded here; the source reads a line of more than about three hundred digits as no lock (`src/core/store-lock.ts:214-217`).
- Locks of other hosts are never reclaimed; they enter as files that nobody here wrote.
- StoresUnderLock.ManyProcessesAreOneStore: an open under the lock is one step, as nobody else touches the store's files in a run where holders are unique; stores that outlive their lock may only be changed by a holder, and `ASupersededStoreOverwrites` is what happens otherwise.
- The descriptor's range checks (`src/core/credential-store.ts:295-303`) are one flag, and temporary files and permissions are not modelled: a write is one rename.
- Filesystem changes within one open (`src/core/credential-store.ts:625` to `:745`) are excluded; the source accepts that window.
- EncryptedStoreRuns.OneKeyForever: runs start from an empty directory and nobody but the store writes or removes the descriptor; the encrypted file may be removed at any time.
- FirstRunSetup.World.RunFirstRunSetup: the confirmation prompts inside one new-passphrase prompt count as one.
- Live report blocks that are prose or empty, and what a result looks like: only query slots, the picker, the banner and the pick are modelled.
- `listSchema` on MySQL bypasses the mutex (`src/core/driver-mysql.ts:405`); introspection reads are not part of the log.
- SchemaFold.AssembleSchema: a table's own column and key lists are fields of one object that the result and the map share; the two arrays of a constraint are one object.
