# Verification of the namzu code index, AG-UI bridge and browser protocols

This project models three stateful parts of the repository in Dafny and proves what they promise over whole runs.

* **The incremental code index** (`packages/analysis`). A refresh walks a part of the tree and keeps rows per file; a
  query first compares its scope with the disk and re-reads only what differs. The rows and directory times are finite
  maps over paths, a refresh is a class method with a queue of writes, and each fast way is proved to leave what a simple
  slow one leaves. The syntax walker with its explicit stack, the tolerant scanner, line arithmetic, the store with its
  function ids and substring index, and paging under cursors belong to it.
* **The AG-UI bridge** (`packages/ag-ui`). The event mapper, the interrupt store, the race of resumes and expiries over a
  waiting turn, the turn that several runs read, the history converters, and the folding of approvals.
* **Two protocols of the browser package.** Profile leases between processes, and the chunked line splitter.

Objects that the source updates in place are classes here, and every method is tied to a function of the old state.
What several processes or awaits interleave is a state machine whose steps are what runs without being suspended; its
theorems quantify over every sequence of steps. `a ==> b` results are stated both ways where the source allows it; where
a property fails on some input, a lemma gives one such input and another the exact condition.

| files | what they model |
|---|---|
| `common`, `text`, `machine` | options, ordered tables; stored texts and their two lengths; runs of a state machine |
| `run_protocol`, `mapping`, `mapped_runs`, `completed_inputs`, `event_mapper` | the AG-UI event mapper |
| `source_tree`, `walk_tree`, `index_spec`, `file_index`, `refresh_laws` | walking a tree and refreshing its index |
| `freshen`, `freshen_scope`, `stopped_refresh`, `coverage` | the re-read before a query; which scopes are indexed |
| `syntax_tree`, `syntax_walk`, `lexical_scope`, `callee_names`, `tolerant_scan`, `lines` | from source text to rows |
| `code_store`, `store_laws`, `path_range`, `literal_search`, `literal_pages` | the tables, search and paging |
| `interrupt_store`, `resume_race`, `live_turn`, `turn_driver`, `listener_source` | a waiting turn, who may continue it, and its source |
| `conversation`, `history`, `approvals` | histories in and out; approvals |
| `leases`, `lease_store`, `line_splitter` | profile leases; the bridge's lines |

Verify with `dafny verify dfyconfig.toml`.

## What the proofs found

* The cheap re-read misses a file that could not be indexed before (too large, or no text) and is overwritten in place:
  its directory does not move and it has no row (`Freshen.OverwrittenFileIsMissed`; exact condition in
  `Freshen.MissedIsAnEdit` and `Freshen.CheapEqualsFull`).
* A refresh that the time limit stops after its walk records the directories it walked. A file it did not reach that had a
  row is noticed by the next comparison; one that had none stays out until its directory moves again
  (`StoppedRefresh.NoticedExactlyWithARow`, `StoppedRefresh.StoppedReReadGoesUnnoticed`).
* The query for the root's own rows ends at U+FFFF, and a name can begin above it: the row of such a root file that was
  deleted is not loaded when the root is re-read for its entries only, and stays, while a full refresh removes it
  (`Freshen.DeletedRootFileStays`; exact condition in `Freshen.StaleIsARootFile` and `Freshen.CheapEqualsFull`).
* The comment on `thisOwner` calls it the owner of the lexical `this`. In the heritage, the decorators and the computed
  keys of a class it is the class, whose `this` does not reach there (`LexicalScope.HeritageIsGivenTheClass`; exact
  condition in `LexicalScope.ThisIsLexical`).
* The two hundred and first scope that is indexed leaves no entry (`Coverage.RecordedAnswersUnlessFull`).
* A pair of the substring index can outlive its row; it is harmless (`StoreLaws.PairOutlivesItsRow`, exactly
  when `StoreLaws.PairStays` says; `LiteralSearch.NarrowingChangesNothing`).
* A page reads its generation before its rows. Within one process nothing comes between; a commit by another process there
  can lose a row from the last page (`LiteralPages.CommitBetweenReadsLosesARow`).
* A park that comes while the driver sleeps is announced at once exactly when the run has not mapped its last event;
  otherwise the driver sleeps again and the client is not told (`TurnDriver.ParkWhileAsleep`, `TurnDriver.LatePark`).
* Expiring a part of an announcement's records would let an expiry abort an accepted resume
  (`ResumeRace.ExpiringAPartLosesAnAnswer`).
* Two leases of one session on one profile share a file (`Leases.SharedNameLetsTwoHold`).

## Model

| member | source | states |
|---|---|---|
| RunProtocol.AutomatonDecides | packages/ag-ui/src/events.ts:139-405 | A stream passes the client automaton if and only if every event in it is in place: one RUN_STARTED first, nothing after a terminal event, each part opened and closed at most once, filled only while open, closed when the run ends |
| MappedRuns.EveryRunIsWellFormed | packages/ag-ui/src/events.ts:139-405 | For every sequence of calls on a fresh mapper the emitted stream is a well-formed run, and the mapper says the run is closed exactly when a terminal event is last |
| MappedRuns.CompletedTextIsExact | packages/ag-ui/src/events.ts:180-214 | When a message completes, the client holds exactly the completed text if what was streamed is a prefix of it, and otherwise the run ends as a mismatch |
| CompletedInputs.CompletedInputIsExact | packages/ag-ui/src/events.ts:235-251 | When the input of an open call completes, the client holds what was streamed, marked when it is no JSON, or else the whole input, unless the source cut it off; an input with no JSON ends the run |
| MappedRuns.BlindToForeignAndRepeated | packages/ag-ui/src/events.ts:147-152 | State and stream are those of the subsequence of public, top-level, same-session, same-turn events with repeats of a durable sequence number erased, adopted turn id included |
| MappedRuns.CloseOpenPartsCloses | packages/ag-ui/src/events.ts:534-547 | Afterwards no tool, message or step that was opened is open |
| MappedRuns.ApplyKeeps | packages/ag-ui/src/events.ts:139-405 | Each call keeps the agreement between the tables of the mapper and what the client has received |
| EventMapper.AGUIEventMapper.constructor | packages/ag-ui/src/events.ts:103-117 | A fresh mapper holds the carried calls as closed and nothing else |
| EventMapper.AGUIEventMapper.Start | packages/ag-ui/src/events.ts:140-144 | The run identity is announced once, and the log grows by exactly that event |
| EventMapper.AGUIEventMapper.Map | packages/ag-ui/src/events.ts:147-327 | One native event changes the whole state as the transition function does, and returns exactly the events added to the stream |
| EventMapper.AGUIEventMapper.Fail | packages/ag-ui/src/events.ts:342-350 | Closes what is open, then sends one error, unless the run is closed |
| EventMapper.AGUIEventMapper.Finish | packages/ag-ui/src/events.ts:333-339 | An end of the source without a terminal event is an error, and a pause nobody announced is its own |
| EventMapper.AGUIEventMapper.Interrupt | packages/ag-ui/src/events.ts:356-371 | Ends the run as interrupted with its parts closed; an empty list of interrupts is refused |
| EventMapper.AGUIEventMapper.YieldToClient | packages/ag-ui/src/events.ts:378-392 | Ends the run as complete with its parts closed |
| EventMapper.AGUIEventMapper.AnnounceTool | packages/ag-ui/src/events.ts:399-405 | A call that was not shown is shown with its whole input, and a shown or closed one changes nothing |
| EventMapper.AGUIEventMapper.BelongsToTurn | packages/ag-ui/src/events.ts:407-415 | Depth, session and turn decide, and the first event that belongs names the turn |
| EventMapper.AGUIEventMapper.StartTool | packages/ag-ui/src/events.ts:433-464 | A new call gets a parent message, made up and closed at once when there is none |
| EventMapper.AGUIEventMapper.CompleteToolInput | packages/ag-ui/src/events.ts:466-499 | A call that streamed nothing gets its whole input, and one that cannot be encoded ends the run |
| EventMapper.AGUIEventMapper.CloseOpenParts | packages/ag-ui/src/events.ts:534-547 | Tools, then messages, then steps are closed, in the order they were opened |
| TreeWalk.Collect | packages/analysis/src/collect.ts:273-364 | Files and directories found are exactly those a walk past the known children reaches, unless a limit was met or the caller cancelled, and then only such; the limit of files or directories is reported only when as many were found and there is one more, and that of time only when the clock said so; a known child that is gone is reported as vanished |
| TreeWalk.ListDirectory | packages/analysis/src/collect.ts:282-359 | One directory gives its files, its directories to walk, each once, and the known ones it kept; it stops only when as many files were found as are allowed and there is one more |
| FileIndex.Index.StoredFiles | packages/analysis/src/store.ts:376-419 | The rows loaded: all at or under the scope, or for a shallow refresh the scope, its direct children, those of the root only below U+FFFF, and what is below a vanished directory |
| FileIndex.Index.RunWrite | packages/analysis/src/indexer.ts:280-294 | One queued write changes the rows as its effect says and no other row |
| FileIndex.Index.Flush | packages/analysis/src/indexer.ts:262-279 | Pending writes are applied in order in one transaction, and the generation moves exactly when something was written |
| FileIndex.Index.RecordDirs | packages/analysis/src/indexer.ts:497-512 | The recorded directories of the scope are replaced by those of the walk |
| FileIndex.Index.ReadCandidates | packages/analysis/src/indexer.ts:297-405 | Every candidate reached is decided by size and time, then hash, then parse, however the writes are batched; it stops only when the clock, which goes on from the walk, says so or the caller cancels |
| FileIndex.Index.QueueRemovals | packages/analysis/src/indexer.ts:407-422 | After a finished walk exactly the loaded rows that no candidate stands for go |
| FileIndex.Index.RefreshIndex | packages/analysis/src/indexer.ts:213-466 | Row by row and directory by directory what a refresh leaves, whatever limit or cancellation stops it and wherever batches are cut; whatever it reports to have stopped it was met; a cancellation in the walk leaves everything as it was, and otherwise the generation moves |
| FileIndex.AmpleFinishes | packages/analysis/src/indexer.ts:213-466 | With as many files and directories allowed as the disk has, and no clock or caller that stops it, a refresh gets through |
| RefreshLaws.RefreshIsExact | packages/analysis/src/indexer.ts:297-439 | A finished refresh leaves exactly the rows and directory times the disk calls for under the scope, and everything outside it as it was |
| RefreshLaws.IncrementalEqualsForced | packages/analysis/src/indexer.ts:325-345 | Trusting size and time leaves the same index as reading and parsing everything, deep or shallow |
| RefreshLaws.StoppedRefreshKeepsRows | packages/analysis/src/indexer.ts:298-303 | However a refresh stops, the row of a file that is still indexable is there, new if it was reached and old if not |
| RefreshLaws.RefreshIsIdempotent | packages/analysis/src/indexer.ts:213-466 | A second refresh of an unchanged disk changes nothing |
| RefreshLaws.UnreadNewFileIsHidden | packages/analysis/src/indexer.ts:298-303 | A stop after the walk leaves a file that was not reached and had no row without a row, under a directory that is recorded as current |
| StoppedRefresh.NoticedExactlyWithARow | packages/analysis/src/freshen.ts:98-217 | After a refresh whose walk was over, however early it was stopped, an indexable file that the walk found is right or is noticed by the next comparison if and only if it was reached or had a row |
| StoppedRefresh.CompleteIsClosed | packages/analysis/src/indexer.ts:497-512 | An index that is complete for the scope has its rows and directories in recorded directories, as a shallow refresh needs it there |
| StoppedRefresh.StoppedReReadGoesUnnoticed | packages/analysis/src/freshen.ts:98-217 | A disk on which that leaves a file out: the clock stops the re-read after its walk, and the next comparison finds nothing to do |
| Freshen.DirTargetDone | packages/analysis/src/freshen.ts:182-206 | Re-reading one changed directory shallowly, those above it first, settles what it stands for and keeps the rest |
| Freshen.LoneTargetDone | packages/analysis/src/freshen.ts:182-206 | So does re-reading a changed file that no changed directory covers |
| Freshen.NothingLeft | packages/analysis/src/freshen.ts:116-206 | With every target done the index is complete for the scope if and only if no file was missed, none clashed and no row is stale, and every row is told |
| Freshen.MissedIsAnEdit | packages/analysis/src/freshen.ts:116-140 | A file is missed exactly when its directory did not move, it could not be indexed when the index was built and can be now, and the re-read of the root does not walk it anew |
| Freshen.StaleIsARootFile | packages/analysis/src/store.ts:376-394 | A row is stale exactly when the root is the scope and moved, and the row is of a file directly in it that has a name beginning at or above U+FFFF, was indexable and is not any more |
| Freshen.CheapEqualsFull | packages/analysis/src/freshen.ts:116-206 | The cheap re-read leaves the very index of a full refresh if and only if nothing was missed, nothing clashed and no row is stale |
| Freshen.RoundsStayCurrent | packages/analysis/src/freshen.ts:98-217 | Over any number of rounds of edits and queries the index stays complete, if in every round nothing escapes the comparison and the re-read has no gap |
| Freshen.OverwrittenFileIsMissed | packages/analysis/src/freshen.ts:116-140 | A disk on which a file is missed: binary overwritten in place with text |
| Freshen.DirectoryBecomesExcludedFile | packages/analysis/src/freshen.ts:141-160 | A disk on which a file clashes: a recorded directory that became a file its listing leaves out |
| Freshen.DeletedRootFileStays | packages/analysis/src/store.ts:388-394 | A disk on which a row is stale: a root file with a name above U+FFFF was deleted, and nothing else is amiss |
| FreshenScope.FreshenScope | packages/analysis/src/freshen.ts:98-217 | When no gap is reported the index is complete for the scope if and only if nothing escapes the comparison; each gap is reported exactly when a count or size is exceeded or one of the refreshes was stopped; what is re-read is what was found, exactly when it is little, and the refreshes that were run for it lead from the old index to the new |
| FreshenScope.AmpleLeavesNoGap | packages/analysis/src/freshen.ts:156-217 | With all compared, few changes and an ample budget there is no gap, so that the index is complete exactly when nothing escapes the comparison |
| FreshenScope.Compare | packages/analysis/src/freshen.ts:103-160 | The gap is reported exactly when more is recorded than is compared; as many as the bounds allow are compared, and found is exactly what differs among these, and the scope itself when no row of it was seen |
| FreshenScope.ReRead | packages/analysis/src/freshen.ts:182-206 | Directories first, from the top down, then single files: every target is refreshed unless the caller cancelled, each refresh is one that its limits, clock and caller allow, and a stop is reported exactly when one of them was stopped |
| FreshenScope.AmpleNeverStops | packages/analysis/src/freshen.ts:182-206 | With an ample budget none of the refreshes of a re-read is stopped |
| Coverage.CoveringEntry | packages/analysis/src/indexer.ts:563-573 | The entry found covers the path and is the narrowest that does, and there is none only if none covers it |
| Coverage.RecordingKeepsTheList | packages/analysis/src/indexer.ts:590-609 | The list keeps one entry for a scope and stays within 200 |
| Coverage.NarrowestIsOne | packages/analysis/src/indexer.ts:564-566 | Two equally narrow entries that cover one path are of one scope |
| Coverage.RecordedAnswersUnlessFull | packages/analysis/src/indexer.ts:590-601 | What was recorded last answers for its scope if and only if it is the root or the list is not full of others |
| Coverage.OthersAnswerAsBefore | packages/analysis/src/indexer.ts:590-601 | A path outside the recorded scope is answered for as before |
| SyntaxWalk.PushedIsWalked | packages/analysis/src/walk.ts:732-763 | Children pushed last first are walked in source order before what was below them on the stack |
| SyntaxWalk.PopFrame | packages/analysis/src/walk.ts:485-491 | Popping a frame, visiting it and pushing its children does what the recursive traversal does with it, and the stacked subtrees get smaller |
| SyntaxWalk.RowSink.Fn | packages/analysis/src/walk.ts:103-120 | The next id is handed out and its row added |
| SyntaxWalk.VisitNode | packages/analysis/src/walk.ts:492-560 | The rows of one node and what its children are told |
| SyntaxWalk.Traverse | packages/analysis/src/walk.ts:481-763 | The explicit stack terminates on every tree with the rows of the recursive traversal, whatever is recorded of a node |
| SyntaxWalk.IndexProgram | packages/analysis/src/walk.ts:481-763 | The rows in the sink are those of the recursive traversal, in its order |
| LexicalScope.ProgramRows | packages/analysis/src/walk.ts:481-763 | The rows are those read off the preorder table of the tree by climbing to ancestors, numbered without gaps, parents first, references inside the program |
| LexicalScope.FunctionByPosition | packages/analysis/src/walk.ts:499-530 | A function's id is its place among the functions in preorder, and its parent is the nearest function around it |
| LexicalScope.FunctionIsEnclosing | packages/analysis/src/walk.ts:489-530 | The function a node is told is the nearest one enclosing it |
| LexicalScope.ThisIsLexical | packages/analysis/src/walk.ts:528-536 | Outside what a class evaluates outside itself (heritage, decorators, computed keys) the owner handed down is that of `this` by the scopes of JavaScript; inside, it is taken from another node, and is right if and only if both nodes give the same name |
| LexicalScope.NearestUnlessInHead | packages/analysis/src/walk.ts:524-536 | The nearest class or function that is no arrow is the one `this` belongs to if and only if nothing on the way there is evaluated outside a class |
| LexicalScope.HeritageIsGivenTheClass | packages/analysis/src/walk.ts:528-532 | Of a class with a heritage, the calls on `this` there are given the class although `this` belongs to nobody |
| LexicalScope.CallInHeritage | packages/analysis/src/walk.ts:528-532 | Such a tree: `class A extends this.base() {}` |
| LexicalScope.StringRefers | packages/analysis/src/walk.ts:541-566 | Every literal names a function of the same program or none |
| LexicalScope.CallRefers | packages/analysis/src/walk.ts:567-640 | Every call names a function of the same program or none |
| CalleeNames.TextStandsOnBase | packages/analysis/src/walk.ts:191-235 | The text of a callee is that of the expression its chain starts from, or goes on behind it with an access or a call |
| CalleeNames.ThisIsTheBase | packages/analysis/src/walk.ts:191-235 | A callee counts as one on `this` only when `this` is what its chain starts from |
| Text.Fitting | packages/analysis/src/walk.ts:137-147 | The end kept of a long literal is the longest that fits, without half a code point |
| TolerantScan.ScanTolerantly | packages/analysis/src/scan.ts:60-223 | The rows in the sink are those of the token-by-token function of the text |
| TolerantScan.ScannedRowsLie | packages/analysis/src/scan.ts:60-223 | On every text the rows are well numbered, functions lie in the text at their keyword, and literals lie inside the function they are given to; a literal ends one behind the text exactly when it is a template broken off after an odd number of backslashes |
| TolerantScan.TokenKeeps | packages/analysis/src/scan.ts:79-196 | Every token keeps the open functions equal to the function entries of the open braces, and everything found where it should be |
| TolerantScan.TokenGoesOn | packages/analysis/src/scan.ts:79-196 | The cursor strictly advances at every token |
| TolerantScan.CloseBraceKeeps | packages/analysis/src/scan.ts:156-164 | The function that ends is the last one open, and what was found in it lies before its end |
| TolerantScan.LiteralEndsBehindTheText | packages/analysis/src/scan.ts:105-146 | A text on which a literal ends one behind the text |
| TolerantScan.ReadTemplate | packages/analysis/src/scan.ts:105-146 | The pieces of a template between its interpolations, and where it ends |
| Lines.LineStarts | packages/analysis/src/lines.ts:12-19 | The table lists where the lines begin |
| Lines.TableOfText | packages/analysis/src/lines.ts:12-19 | The table begins with 0, goes up, and holds exactly 0 and the places behind a newline |
| Lines.PositionOf | packages/analysis/src/lines.ts:22-31 | The line found is the last that begins at or before the offset |
| Lines.PositionIsUnique | packages/analysis/src/lines.ts:22-31 | Looking an offset up gives one plus the newlines before it, and the column counted in the text |
| Lines.OffsetReturns | packages/analysis/src/lines.ts:41-59 | The position of an offset leads back to it, for every offset up to the length of the text |
| Lines.PositionReturns | packages/analysis/src/lines.ts:41-59 | A line and column that are accepted come back unchanged |
| Lines.AcceptedExactlyInside | packages/analysis/src/lines.ts:41-59 | A line and column are refused exactly when they are outside the lines of the text |
| CodeStore.Store.RemoveFile | packages/analysis/src/store.ts:444-456 | A file and all its rows in every table go, and of the substring index the pairs whose text SQL counts three or more |
| CodeStore.Store.RemoveByPath | packages/analysis/src/store.ts:458-463 | The file under the path goes, if there is one |
| CodeStore.Store.TouchFile | packages/analysis/src/indexer.ts:348-355 | A kept file gets a new size and time and nothing else changes |
| CodeStore.Store.WriteFile | packages/analysis/src/store.ts:473-561 | A file read the same way is kept; another replaces what its path had, under new function ids |
| CodeStore.Store.InsertFunctions | packages/analysis/src/store.ts:522-536 | Functions are stored under the moved ids with their lines |
| CodeStore.Store.InsertStrings | packages/analysis/src/store.ts:539-550 | Literals get the next row ids, and those of three or more units their pair in the substring index |
| CodeStore.Store.BumpGeneration | packages/analysis/src/store.ts:360-364 | The generation goes up by one |
| CodeStore.NewId | packages/analysis/src/store.ts:510-520 | A new row id is above every id in use |
| StoreLaws.NoIdTwice | packages/analysis/src/store.ts:473-561 | Over any interleaving of committed and rolled back transactions the function ids handed out strictly increase, and every stored function has one of them |
| StoreLaws.HistoryIsSound | packages/analysis/src/store.ts:444-561 | After every history parents are smaller ids of the same file, references stay in their file, and every literal of three or more units is in the substring index |
| StoreLaws.WriteIsSound | packages/analysis/src/store.ts:473-561 | A write keeps all of that |
| StoreLaws.RemovalIsSound | packages/analysis/src/store.ts:444-456 | So does a removal |
| StoreLaws.PairOutlivesItsRow | packages/analysis/src/store.ts:445-452 | Two astral characters leave a pair of the substring index behind their row |
| StoreLaws.PairStays | packages/analysis/src/store.ts:444-453 | The pair of a removed row stays exactly when SQL counts fewer than three in its text |
| PathRange.RangeIsBelow | packages/analysis/src/store.ts:376-410 | From `s/` up to but excluding `s0` are exactly the paths below `s` |
| PathRange.RootRangeIs | packages/analysis/src/store.ts:386-397 | The range of the root holds exactly the paths that begin below U+FFFF |
| LiteralSearch.NarrowingChangesNothing | packages/analysis/src/provider.ts:416-427 | With the substring index or without it the same rows come out in the same order |
| LiteralSearch.ScanIsExact | packages/analysis/src/provider.ts:443-454 | A scan gives each matching row once in the order of the ids |
| LiteralSearch.ScopeIsSubtree | packages/analysis/src/provider.ts:289-306 | The scope asked for is the file named, or else exactly the files below it |
| LiteralSearch.ClampLimit | packages/analysis/src/context.ts:62-65 | A page holds between 1 and 200 items |
| LiteralSearch.DropFiles | packages/analysis/src/context.ts:247-268 | Nothing is left of the files named in any table, everything of other files stays, and the generation goes up by one |
| LiteralSearch.FindLiteral | packages/analysis/src/provider.ts:396-500 | A page is the answer of the tables as they are then and has no row of a link; nothing is dropped and it answers when no matching row is of a link; it gives up only after three pages in a row held one, and then only without a cursor |
| LiteralPages.GenerationTells | packages/analysis/src/indexer.ts:264-286 | Over any history of stamped transactions of writes, removals and updates of a kept file, equal generations mean equal tables |
| LiteralPages.CommitVoidsCursors | packages/analysis/src/context.ts:92-122 | After anything is committed a cursor issued before is refused |
| LiteralPages.PagesAreOneState | packages/analysis/src/provider.ts:437-500 | Pages followed to the end come from one state of the tables |
| LiteralPages.PagesAreOneListing | packages/analysis/src/provider.ts:437-500 | They are that state's matching rows from the first cursor on, each once and in order, and every page but the last makes progress |
| LiteralPages.FollowingListsEverything | packages/analysis/src/provider.ts:437-500 | From the first page to the last every matching row of one generation comes exactly once, in order |
| LiteralPages.CommitBetweenReadsLosesARow | packages/analysis/src/provider.ts:437-454 | Another process that commits between the two reads of the last page makes a row be on no page |
| InterruptStore.InMemoryInterruptStore.Settle | packages/ag-ui/src/interrupts.ts:161-169 | All the records move or none, exactly when all were open |
| InterruptStore.InMemoryInterruptStore.Put | packages/ag-ui/src/interrupts.ts:142-148 | New records are added, or nothing when an id is taken |
| InterruptStore.InMemoryInterruptStore.Reopen | packages/ag-ui/src/interrupts.ts:171-176 | Exactly the listed records that were resolved are open again |
| InterruptStore.InMemoryInterruptStore.Evict | packages/ag-ui/src/interrupts.ts:178-190 | The oldest settled records beyond the bound go |
| InterruptStore.EvictionSparesOpen | packages/ag-ui/src/interrupts.ts:178-190 | An open record is never dropped, and settled ones go only down to the bound |
| InterruptStore.SecondSettleLoses | packages/ag-ui/src/interrupts.ts:161-169 | Once a record is settled no other settling that names it succeeds |
| InterruptStore.ReopenUndoesSettle | packages/ag-ui/src/interrupts.ts:171-176 | Reopening after a resume gives the records back as they were |
| ResumeRace.ResumeAndExpiryNeverBothWin | packages/ag-ui/src/adapter.ts:694-742 | In every interleaving at most one resume is accepted, its turn is not aborted by an expiry, every park is resolved at most once, and an expiry that is through found a resume or ended the turn |
| ResumeRace.AcceptedResumeAnswersEveryPark | packages/ag-ui/src/adapter.ts:721-741 | When the accepted resume gets to its answers and nothing outside ended the turn, every park gets its answer from it |
| ResumeRace.ExpiringAPartLosesAnAnswer | packages/ag-ui/src/adapter.ts:1181-1205 | If only some records of an announcement expire, a resume of the rest is accepted and its turn aborted |
| ResumeRace.StepKeeps | packages/ag-ui/src/adapter.ts:1169-1205 | Every step keeps the records together and the flags in agreement with who settled them |
| LiveTurns.LiveTurn.Pull | packages/ag-ui/src/turn.ts:112-130 | A read begins only when none is under way and none is unread |
| LiveTurns.LiveTurn.Park | packages/ag-ui/src/turn.ts:177-200 | A tool that asks twice, too late or for another turn is let go on; another waits and wakes the reader |
| LiveTurns.LiveTurn.BeginWait | packages/ag-ui/src/turn.ts:262-281 | There is no sleep when something happened since the last wait |
| LiveTurns.LiveTurn.Arrive | packages/ag-ui/src/turn.ts:114-121 | The result is kept to be taken and the reader is woken |
| LiveTurns.LiveTurn.Abort | packages/ag-ui/src/turn.ts:283-286 | No park stays, and a sleeping reader is let go |
| ListenerSource.ListenerIsFaithful | packages/ag-ui/src/turn.ts:343-399 | A consumer is given the emitted values in order without loss, a call of the listener returns exactly when its value is passed, and none waits once the consumer has left |
| ListenerSource.NeverBlockedOnWork | packages/ag-ui/src/turn.ts:351-395 | The generator does not wait while there is a value, nor once a finished producer has woken it |
| ListenerSource.WaitingProducerIsOneAhead | packages/ag-ui/src/turn.ts:335-342 | A producer that waits for its listener is at most one value ahead |
| TurnDriver.TurnLosesNothing | packages/ag-ui/src/turn.ts:112-170 | Across all runs the results handed out are the source from its beginning, each once and in order, with at most one read ahead |
| TurnDriver.NeverAsleepOnWork | packages/ag-ui/src/adapter.ts:815-854 | A driver that sleeps has nothing to take, a read under way, and nothing to announce unless its run has mapped its last event |
| TurnDriver.LatePark | packages/ag-ui/src/adapter.ts:821-828 | A run in which a park stays unannounced while the driver sleeps |
| TurnDriver.ParkWhileAsleep | packages/ag-ui/src/adapter.ts:815-854 | A park that comes while the driver sleeps is announced at once if and only if the run has not mapped its last event, and otherwise the driver is asleep again |
| TurnDriver.Drive.Look | packages/ag-ui/src/adapter.ts:815-854 | At the head of its loop the run announces what waits, takes what was read or begins to wait, as the step of the state machine does |
| TurnDriver.Elsewhere | packages/ag-ui/src/turn.ts:112-286 | What tools, the client and the source do to the turn are the other steps of that machine |
| TurnDriver.StepKeeps | packages/ag-ui/src/adapter.ts:815-854 | Every step keeps the slot, the flag and the place of the driver in agreement |
| Leases.AtMostOneHolder | packages/browser/src/profiles.ts:328-372 | In every interleaving of writes, listings, decisions, releases, crashes and clean-up two attempts never hold a profile exclusively at once |
| Leases.OneReleaseIsLast | packages/browser/src/profiles.ts:362-371 | When all holders release and nobody acquires meanwhile some release reports the last |
| Leases.SharedNameLetsTwoHold | packages/browser/src/profiles.ts:333-371 | Two leases of one session share a file, and releasing one lets another session in beside the other |
| LeaseStore.BrowserLeaseStore.Holders | packages/browser/src/profiles.ts:304-320 | Exactly the leases of running processes are named, and the other files go |
| LeaseStore.BrowserLeaseStore.Acquire | packages/browser/src/profiles.ts:328-361 | An exclusive lease is refused exactly when another holder is alive, and then leaves no file |
| LeaseStore.Lease.Release | packages/browser/src/profiles.ts:362-371 | The file goes the first time, and each time it is said whether nobody is left |
| Conversation.AcceptedExactlyComplete | packages/ag-ui/src/messages.ts:142-223 | The message-by-message check accepts a conversation exactly when every call is answered once, by a result that follows it before anybody else speaks |
| History.ToNamzuMessages | packages/ag-ui/src/messages.ts:142-223 | The result or the first refusal is that of the admission function |
| History.AdmittedExactly | packages/ag-ui/src/messages.ts:142-223 | A history is admitted exactly when its messages can be taken, have non-empty ids of their own and form a complete conversation, and it converts message by message |
| History.FromNamzuMessages | packages/ag-ui/src/messages.ts:249-291 | The messages exported, with their ids |
| History.ExportReturns | packages/ag-ui/src/messages.ts:249-291 | A text history that is exported and sent in again is the same, if and only if the ids of the export are distinct and not empty |
| History.UnrecordedReturns | packages/ag-ui/src/messages.ts:225-255 | A history without ids always comes back |
| Approvals.ApprovalDecision | packages/ag-ui/src/interrupts.ts:670-709 | The decision is the fold of the answers |
| Approvals.EachCallAsAnswered | packages/ag-ui/src/interrupts.ts:670-709 | The one decision runs, edits or refuses every call that was asked about as its own answer says |
| Approvals.UnaskedRuns | packages/ag-ui/src/interrupts.ts:664-668 | A call of the batch that nobody was asked about runs |
| Approvals.RejectsExactlyWhenAllRefused | packages/ag-ui/src/interrupts.ts:692-697 | The batch is refused as a whole exactly when it has calls and each was refused |
| Approvals.ConfirmedExactly | packages/ag-ui/src/interrupts.ts:688-690 | The confirmed escapes are exactly those of calls that were approved and confirmed |
| LineSplitters.PiecesAreTheStream | packages/browser/src/windows-bridge.ts:105-143 | The lines and the tail are the stream cut at its newlines |
| LineSplitters.LineSplitter.Push | packages/browser/src/windows-bridge.ts:111-136 | The lines delivered so far and the tail kept are those of all bytes that came |
| LineSplitters.PushAll | packages/browser/src/windows-bridge.ts:105-143 | However the stream is cut into chunks, its lines come out and its tail is what is buffered |
| LineSplitters.LineSplitter.Buffered | packages/browser/src/windows-bridge.ts:139-142 | The length of the unfinished tail |

## Left out

- EventMapper.AGUIEventMapper.Map: ids the source draws at random are a parameter of each call, JSON parsing and printing are parameters, and a pause is carried without its checkpoint.
- FileIndex.Index.RefreshIndex: the disk does not change during a refresh and every file on it can be read, so links that replace a file meanwhile and unreadable files are not modelled; hashes are taken to be injective and a parse to be a function of path and bytes.
- TreeWalk.Collect: files and directories are sets, so the order they are parsed in is not told; exclusion is a fixed rule on paths, with ignore files and the condition on package.json inside it. So a file without an extension, which is a candidate by its first bytes, and a walk that starts inside an ignored directory and drops the ignore rules above it, after which the re-read of a subdirectory and the walk of the scope can differ, are not modelled.
- StoppedRefresh.NoticedExactlyWithARow: for a shallow refresh, in an index whose rows lie in recorded directories, and of a path neither at nor below a name in the root beginning at or above U+FFFF.
- FreshenScope.Compare: a changed path that is no file counts no bytes towards the limit of 16 MiB.
- FreshenScope.ReRead: changed directories are taken in any order that puts a directory before those below it; the source takes them by name. A cancelled refresh ends the query with an error there, and with the gap here.
- ResumeRace.ResumeAndExpiryNeverBothWin: one announcement up to the next, with store calls that are atomic, do not fail and do not evict; expiries elsewhere settle the records of an announcement together or not at all.
- Leases.AtMostOneHolder: a process id is not used again by another process, and no two attempts are active under one name.
- LiteralPages.PagesAreOneListing: for the last page the two reads must be of one generation, which one process guarantees.
- LiteralSearch.FindLiteral: the scope is looked up anew for each try, and in the tables a page is read from, while the source fixes it once before the first; which files became links does not change during one call, and MATCH is any function that gives at least the rows whose text holds the needle, in either case.
- StoreLaws.NoIdTwice: a transaction under the write lock is one step; row ids grow by SQLite's rule of one above the largest.
- History.ToNamzuMessages: messages have passed the schema; attachments are judged by one flag, not by media type and base64 text.
- TolerantScan.ScanTolerantly: decoding escapes and cutting long literals is a parameter.
- Leases.OneReleaseIsLast: no process crashes between the first release and the last.
- SyntaxWalk.IndexProgram: the rows of imports and exports, and the names they need; array holes are left out of the tree.
- SyntaxWalk.VisitNode: what a node adds to the rows of imports and exports.
- Text.Fitting: texts are code points, so a lone surrogate, which SQLite cannot store, does not occur.
- SQLite, FTS5 and the parser themselves, transactions other than atomic steps, waiting for the write lock, opening and evicting cache files.
- Path safety, symbolic links, hashing, base64 and JSON codecs, wall clocks: limits of time stop a refresh at any point.
- Skip counts, tallies of what a walk left out, notes on crashed files and violations, and the wording of errors, gaps and coverage.
- Paging of function sources and of imports, which re-read files; callers, outlines and previews; the retry around a stale answer.
- Answers to plans, checkpoints, questions and handoffs, the reading of resume payloads, and what a checkpoint resume does.
- The timers of a detached turn, and delivery of UI events.
- The Windows bridge beyond its lines, profile descriptors, page driving, and the packages not named above.
