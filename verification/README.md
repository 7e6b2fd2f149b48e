# Verification of mcp-commands

`mcp-commands` serves the executables of a scripts directory as MCP tools. It reads each
script's frontmatter, publishes a JSON Schema for the declared parameters, runs the script
with the call's arguments as flags, bounds and frames what the script prints, and, with
`--watch`, keeps the registered tools in step with the directory while clients use them.
This project models that behaviour in Dafny and proves what it promises.

`dafny verify dfyconfig.toml` checks everything. The modules, by the file they model:

- `HotReload`, `HotReloadRuns`, `HotReloadLimits` (watch.go, with discover.go and
  registry.go): a state machine of the file system, the watcher's event queue, the debounce
  timer, the scan file by file and the registry, theorems about all its runs, and where its
  promises end. The scripts directory has a generation, a watch belongs to one generation. The
  state remembers each file as the last scan has read it. `WatchLoop` is the event handler as
  a class.
- `HttpShutdown`, `StdioShutdown`, on `Lifecycle` (server.go): the goroutines of `run`, their
  buffered channels and the shared context, one statement per step.
- `Registry`, `RegistryRuns`, `ExecSlots` (registry.go): the per-tool diff as a class over a
  server object, then any number of concurrent callers; the bound on executions.
  `Runs` speaks of the steps a run has taken.
- `Capture`, `CaptureFraming`, on `Utf8`, and `CallLog`, on `GoSlice` (execute.go): bounded
  capture, framing and truncation of tool output on bytes, and a reader of the frame; the log
  records whose attribute slices share an array.
- `WordWrap`, `ToolList`, `LiveListRuns` (list.go, diagnostic.go): the wrapper that compacts
  words into the rune array that it is reading; the tool list; its live form, also over runs
  of the watch loop.
- `Discover`, `Frontmatter`, `FrontmatterPrinting`, `FrontmatterRoundTrip`, `Timeout`, `Schema`,
  `Arguments`, on `Text` and `Order` (discover.go, timeout.go, schema.go, execute.go): from script text to tools,
  schemas and command lines.

`GoSlice` models a Go slice as an array with offset, length and capacity. `hide` statements
only keep definitions folded inside a proof.

## What the proofs assume

The operating system delivers every event of an attached watch in order, and the parent of the
scripts directory survives (README.md:116-133). The directory and those above it keep their
permissions, so that attaching a watch succeeds exactly if there is a directory at the path; the
files in it need not. A tool's link leads to a file in the directory. `Shutdown` returns, and the
listener returns once it has been called. A single call to the server is atomic.

## Where code and documentation disagree

- README.md:126-127 promises that a permanently deleted scripts directory leaves the last
  known tool set. The code keeps that promise when no rescan is under way at the deletion, be
  it still reading or already registering (`MissingDirectoryKeepsTools`). In the middle of a
  scan, the remaining files just fail to resolve (discover.go:56-64), the scan succeeds, and
  what it has read so far replaces the last known set; a set being registered by then replaces
  it too. `KeptIffAllToolsRead` says when the set is kept, `LostTools` reaches a state in
  which it is lost.
- watch.go:51 ignores events about permissions alone, although the executable bits decide what
  is a tool (discover.go:111) and the read bits whether it declares anything
  (discover.go:140-143). `Convergence` holds for every other change of the directory, and for
  these as far as they do no harm; `StaleIffPermissionsMissed` says exactly when they do, at any
  moment of any run. `MissedScript` reaches a state in which an executable script stays
  unregistered, `UnreadScript` one in which an unreadable script keeps its old description.
- The comment at watch.go:112-117 says that reattaching arms the debounce. It never does: the
  event that triggers it has armed the debounce already (`ReplacementIsRelevant`).
- The comment at discover.go:213-214 says that a parameter's description is the first quoted
  span. The code takes all from the first quote to the last (`AnnotationAcceptedIff`).
- README.md:384-388 lets a parameter description be any quoted text. One that contains another
  annotation's keyword turns its line into that annotation, and a line of 64 KiB ends the
  scan (discover.go:189-194); `Printable` in `RoundTrip` is the exact condition.

Two more facts that contradict no promise: the two ways of backing off to a rune boundary agree
on valid UTF-8 (`BackOffsAgree`), not on binary data (`BackOffsDifferOnBinary`); and replacing
with several tools of one name would break the registry's bookkeeping
(`DuplicateNamesBreakReplace`), but discovery never yields such a set (`DiscoveredDistinct`).

## Model

| member | source | states |
|---|---|---|
| HotReloadRuns.Convergence | watch.go:84-189 | in every state of every run after the setup, if the directory exists and discovery would yield something else than is registered, then a rescan is owed (due, timer active, relevant event queued), or the scan under way delivers exactly the present tools, or since each file was read permissions alone have changed such that some file became or ceased to be the first executable of its name, or declares something else |
| HotReloadRuns.StaleIffPermissionsMissed | watch.go:51 | at every moment of every run at which the loop waits and owes no rescan, the registry is stale iff permissions alone have changed since each file was read, during the scan or after it, such that for some file it matters whether it is the first executable of its name or what it declares (one way always, the other unless two links of one tool name to one file were read differently) |
| HotReloadRuns.ChangesAreAlwaysPickedUp | watch.go:130-189 | from every state of every run, once the environment stops, every schedule of the loop goes on and ends at rest; registry and server then equal discovery of the existing directory with the permissions as last read, and its discovery now if a scan was still to begin or no permission had changed since the last one read the files |
| HotReloadRuns.InvSettles | watch.go:130-189 | the same, with the same exception for permissions, from every state that meets the invariant |
| HotReloadRuns.InternalDecreases | watch.go:130-189 | every step of the loop shortens the queue, or advances timer, phase, or scan and diff |
| HotReloadRuns.LoopGoesOn | watch.go:130-189 | the loop is never stuck: outside rest some step of its own is enabled |
| HotReloadRuns.ServerNeverShowsAGap | registry.go:82-139 | in every state of every hot reload run the server shows the registered set, or while a diff is applied lies between old and new set without a gap |
| HotReloadRuns.DebounceHasACause | watch.go:159-165 | an active debounce goes back to the first relevant event received since the last rescan was caused, and the armed deadline is exactly one delay after it, whatever came later |
| HotReloadRuns.RescanHasACause | watch.go:184-187 | every rescan after the guaranteed one goes back to the first relevant event received since the previous rescan |
| HotReloadRuns.QuietMeansServed | watch.go:139-187 | while the debounce is not active, every relevant event received so far has caused a rescan |
| HotReloadRuns.SiblingsNeverCauseARescan | watch.go:31-33 | however many events beside or above the scripts directory a run receives, they never arm the timer and never cause a rescan |
| HotReloadLimits.PermissionChangesAreMissed | watch.go:51 | from rest in step, a change of executable or read permissions leaves the loop at rest with the old registry, which is right iff every file is the first executable of its tool name just if it was before, and then declares what it did |
| HotReloadLimits.PermissionChangeInMidScan | watch.go:51 | if permissions change after a scan has read k entries, it registers the present tools iff each of these k is a first executable as before and declares what it did (one way always, the other unless two links of one tool name to one file were read differently) |
| Discover.PermissionsMatter | discover.go:56-80 | a change of permissions alters discovery iff for some file it alters whether it is the first executable of its name, or what it declares |
| Discover.ReadEntriesMatter | discover.go:50-89 | if permissions change in the middle of a scan, the entries already read decide whether it yields the present tools |
| HotReloadLimits.MissedScript | watch.go:51 | a reachable state at rest in which an executable script is not registered |
| HotReloadLimits.UnreadScript | watch.go:51 | a reachable state at rest in which a registered script can no longer be read and still shows its old description |
| HotReloadLimits.MissingDirectoryKeepsTools | watch.go:211-216 | as long as the directory stays missing, from a moment between scans, tools and server never change |
| HotReloadLimits.DeletedInMidScan | discover.go:50-64 | if the directory disappears during a scan, or while its outcome is registered, and stays missing, what had been read by then is what gets registered |
| HotReloadLimits.KeptIffAllToolsRead | discover.go:50-64 | a deletion during any scan, or while its outcome is registered, leaves the last known tools in place iff they are what had been read; during a scan, if they were those of the undisturbed directory, iff no file that the scan had not reached was a first executable |
| HotReloadLimits.LostTools | discover.go:50-64 | a reachable state with one tool registered and the directory renamed away, and a later one, the directory still missing, with none registered and none on the server |
| HotReloadRuns.RunKeepsInv | watch.go:77-190 | the invariant of the whole system holds in every state of every run |
| HotReload.StepKeepsInv | watch.go:77-190 | every step of the environment and of the loop keeps the invariant: distinct names, server on its way along the diff, timer discipline, watch attached or replacement queued, scan right unless disturbed |
| HotReload.EditKeeps | watch.go:139-165 | an edit at any moment keeps the invariant: it is seen, or a replacement event is queued |
| HotReload.PermissionsInScan | discover.go:50-89 | a change of permissions during a scan leaves what has been read as it was read |
| HotReload.DeleteKeeps | watch.go:166-172 | deleting the directory at any moment, before or after the parent is watched, keeps the invariant |
| HotReload.CreateKeeps | watch.go:166-172 | creating the directory anew at any moment keeps the invariant |
| HotReload.ScanGoesOn | discover.go:50-89 | looking up one more listed file in an undisturbed directory yields what discovery of the longer prefix yields |
| HotReload.EndKeeps | watch.go:217 | ending a scan, with the skip for an equal set, keeps the invariant |
| WatchLoop.Loop.HandleEvent | watch.go:139-174 | the event loop over the watched paths, with passive entries, arms the debounce and reattaches exactly as specified |
| WatchLoop.Loop.Reattach | watch.go:118-128 | attaches to the directory that exists, if any, and arms then |
| WatchLoop.Loop.HandleTick | watch.go:184-187 | the tick makes the debounce quiet |
| WatchLoop.Setup | watch.go:77-97 | setting up fails exactly if the scripts directory, or a parent distinct from it, cannot be watched; otherwise the loop starts attached and with the timer off |
| WatchLoop.Loop.constructor | watch.go:84-110 | once both can be watched, the loop knows the scripts directory and, unless it is the root, its parent as a passive path |
| WatchLoop.ReplacementIsRelevant | watch.go:160-172 | a replacing event is relevant, so reattaching never arms the debounce |
| WatchLoop.RelevantIff | watch.go:49-172 | an event is relevant iff it creates, writes, removes or renames the scripts directory or something directly in it, and replacing iff it creates, removes or renames the directory itself |
| HttpShutdown.OneTruthfulRecord | server.go:133-153 | in every run, never more than one shutdown record; exactly one when main returns past the policy check; its reason is true: signal only after a signal, serve-failure only for an error before Shutdown, watch-error only with a fatal watch error returned |
| HttpShutdown.VerdictIsHonest | server.go:182-223 | a listener error is dropped only in favour of a fatal watch error; success means closed after a signal, with that record; without signal and listener error a fatal watch error is returned |
| HttpShutdown.PolicyDecides | server.go:103-115 | in every run main has returned the policy error iff the policy check has failed, and nothing starts to serve, in the log or in fact, unless it has passed |
| HttpShutdown.EventsAreReal | server.go:133-223 | what the state says has happened is a step of the run: a signal iff one arrived, a listener or watch error only after one; the log has the starting record iff main has got past announcing it, the closing one iff it has returned without error |
| HttpShutdown.NoSendWaits | server.go:118-163 | no send on a buffered channel ever blocks, in any interleaving |
| HttpShutdown.NoDeadlock | server.go:133-223 | unless main has returned or the server just serves, some goroutine can take a step |
| HttpShutdown.RunsAreShort | server.go:103-223 | every interleaving ends after at most 25 steps |
| HttpShutdown.MaximalRunsReturn | server.go:103-223 | once there was a signal, a listener error or a fatal watch error, every schedule that cannot go on has returned |
| HttpShutdown.StepKeepsInv | server.go:103-223 | every step of every goroutine keeps the invariant on goroutines, outcomes, cancellation, queued reason and record |
| HttpShutdown.TakeReasonKeeps | server.go:142-148 | the reason that the shutdown goroutine takes at any moment is true |
| StdioShutdown.AtMostOneRecord | server.go:226-276 | in every run at most one shutdown record, with a true reason; when main has returned, none exactly if the session ended while the context was alive at the check |
| StdioShutdown.VerdictIsHonest | server.go:236-276 | a fatal watch error is returned with its record; otherwise the session's outcome decides, the end of the context being no error |
| StdioShutdown.EventsAreReal | server.go:226-276 | what the state says has happened is a step of the run, the way the session ended and the live context at that check included; the log has the starting record iff main has got past announcing it, the closing one iff it has returned without error |
| StdioShutdown.NoSendWaits | server.go:227-230 | no send blocks |
| StdioShutdown.NoDeadlock | server.go:226-276 | unless main has returned or the session just runs, some goroutine can take a step |
| StdioShutdown.RunsAreShort | server.go:226-276 | every interleaving ends after at most 12 steps |
| StdioShutdown.MaximalRunsReturn | server.go:226-276 | once something happened, every schedule that cannot go on has returned |
| Registry.ToolRegistry.ReplaceLocked | registry.go:89-139 | removes vanished names in one call, adds new and changed tools in order, nothing else, and stores the baseline |
| Registry.ToolRegistry.Replace | registry.go:82-87 | afterwards the server is exactly the registration of the new set, and shows each of its tools as `RegistrationShows` tells |
| Registry.ToolRegistry.ReplaceIfChanged | registry.go:208-216 | leaves the server as a replace would, showing each tool of the new set, and makes no call for an equal set |
| Registry.ToolRegistry.AddChanged | registry.go:115-127 | the add loop makes one call per new or changed tool |
| Registry.ToolRegistry.AddToolLocked | registry.go:153-199 | registers one tool over whatever had its name, with schema, path and the timeout that is its own, else the global one, in handler and description |
| Registry.RegistrationShows | registry.go:153-199 | a tool is registered with its own path and schema, and with its own timeout or else the global one; the description shown is its own, then "(timeout: …)", or that alone, and for whole seconds the text inside parses to the timeout of the handler |
| Registry.RegisteredShows | registry.go:89-139 | the map for a set of tools has exactly their names, each registered as above |
| Registry.ListShowsRegistration | list.go:109-123 | the tool list prints the description that the server holds for the tool |
| Registry.NoGap | registry.go:74-139 | after any number of the calls of a replace the server holds every common name, no name outside both sets, each in its old or new version |
| Registry.DiffReaches | registry.go:89-139 | the calls of a replace turn the old registration into the new one |
| Registry.UntouchedStays | registry.go:116-127 | no call of a replace touches an unchanged tool |
| Registry.EqualSetsDiffEmpty | registry.go:218-247 | for equal sets the diff is empty, so skipping it is sound |
| Registry.AddOpsProgress | registry.go:116-127 | after k tools exactly those are put right |
| Registry.DuplicateNamesBreakReplace | registry.go:89-139 | with a duplicate name, a replace by the very set already registered changes the server |
| RegistryRuns.ClientsSeeNoGap | registry.go:82-139 | for any number of concurrent replacers, at every moment: mutex free means server equals baseline, otherwise no gap |
| RegistryRuns.FreeServerShowsTools | registry.go:82-139 | in every run, whenever the mutex is free, the server shows exactly the tools of the set last handed in, with the timeout, path and description of each |
| RegistryRuns.KeptNameAlwaysListed | registry.go:74-81 | a name in the first set and in every set handed in is listed at every moment |
| RegistryRuns.UnchangedNeverRegisteredAgain | registry.go:116-127 | no step of any replacer touches a tool it does not change |
| RegistryRuns.HolderCanGoOn | registry.go:82-87 | the holder of the mutex can always take its next step |
| RegistryRuns.StepKeepsInv | registry.go:82-139 | every step keeps the invariant |
| ExecSlots.SlotsConserved | registry.go:165-192 | in every interleaving of calls and replaces: slots held are the calls inside executeTool, never above the limit; a refusal happened with exactly limit calls inside; release never blocks |
| ExecSlots.OnlyValidCallsGoOn | registry.go:165-192 | in every run a call asks for a slot, runs, ends completed or is refused at capacity iff its arguments were found well-formed and later valid; it ends malformed iff found malformed, and invalid iff found invalid |
| ExecSlots.BadCallsNeverHoldASlot | registry.go:180-182 | a call whose arguments are malformed or invalid holds no slot at any moment of a run |
| ExecSlots.IdleAdmits | registry.go:165-192 | no slot is lost: with no call inside, a valid call is admitted |
| ExecSlots.OldAndNewShareTheBound | registry.go:165-192 | after any replaces, the calls inside on handlers up to a version and those on newer handlers together hold the slots, within the limit |
| ExecSlots.CallsKeepTheirHandler | registry.go:165-192 | a call stays with the handler version it was dispatched to |
| ExecSlots.RunsOnTheLatestHandler | registry.go:165-198 | a call runs on the handler of the last replace before it was dispatched, whatever is replaced later |
| ExecSlots.Acquired | registry.go:63-70 | trying to acquire never exceeds the limit |
| ExecSlots.StepKeepsInv | registry.go:165-192 | every step keeps the count |
| ExecSlots.ExecSlot.constructor | registry.go:54-59 | a limit of zero or less means the default |
| ExecSlots.ExecSlot.TryAcquire | registry.go:63-70 | takes a slot exactly if one is free |
| ExecSlots.ExecSlot.Release | registry.go:72 | gives one slot back |
| Capture.BoundedWriter.Write | execute.go:115-135 | keeps the first limit bytes of everything written and remembers whether more came; always reports full consumption |
| Capture.CaptureStream | execute.go:111-139 | for any chunking, the bytes are the first limit of the stream, truncated iff the stream is longer |
| Capture.CombineToolOutput | execute.go:141-182 | the text is the framed streams, limited |
| CaptureFraming.FramedLiteral | execute.go:141-165 | the framed text, with its tags and line breaks written out |
| CaptureFraming.LineBreakMakesNoDifference | execute.go:148-150 | a stream without a final line break is framed like the one with it |
| CaptureFraming.StreamsReadBack | execute.go:141-165 | searching the framed text of two streams without tags for each pair of tags gives back each stream under its own label, up to one final line break, and nothing for an empty one |
| CaptureFraming.ShortOutputReadsBack | execute.go:141-170 | the same of the text that clients get, when it is within the cap |
| Capture.LimitOutput | execute.go:167-182 | text beyond the cap is cut at a boundary found in at most three tries and marked |
| Capture.BackOffFloor | execute.go:172-181 | on valid UTF-8 the loop finds the longest prefix within the limit that ends at a rune boundary |
| Capture.CaptureIsTransparent | execute.go:282-324 | capturing each stream up to the cap before framing gives the same text as framing the full streams |
| Capture.MarkerTellsTruncation | execute.go:141-182 | the text ends in the truncation marker exactly if the framed streams exceed the cap, in particular whenever a stream dropped bytes |
| Capture.ToolTextValid | execute.go:141-182 | valid streams give valid text, whatever was cut |
| Capture.ToolOutput | execute.go:282-324 | end to end over any chunking of both streams: text of the full streams, marker if either dropped bytes, bounded length, valid if both are |
| Capture.BoundLogValue | execute.go:208-217 | the log value is the bounded value; the loop terminates within the limit on any bytes |
| Capture.BoundedValueIs | execute.go:208-217 | a value that is too long is cut at the last rune start within the bound and ends in the bytes of the ellipsis |
| Capture.StepBackFloor | execute.go:212-215 | stepping back to a rune start on valid UTF-8 finds the longest rune-aligned prefix |
| Capture.BackOffsAgree | execute.go:172-217 | both loops pick the same cut on valid UTF-8 |
| Capture.BackOffsDifferOnBinary | execute.go:172-217 | they differ on a run of continuation bytes |
| Utf8.ValidIsEncoding | execute.go:174 | a byte string is valid iff it is the RFC 3629 encoding of some text |
| Utf8.DecodeThenEncode | execute.go:174 | decoding valid bytes and encoding gives them back |
| Utf8.EncodeThenDecode | execute.go:174 | every text survives encoding and decoding |
| Utf8.BoundaryIsRuneStart | execute.go:213 | inside valid bytes, a prefix is valid exactly if a rune starts behind it |
| Utf8.BoundaryNearby | execute.go:172-176 | a boundary is at most three bytes back |
| GoSlice.Append | list.go:55-100 | append writes into the shared array if the elements fit its capacity and leaves it alone otherwise |
| WordWrap.Wrap | list.go:55-100 | the wrapper in place on the rune array emits the lines of a pure greedy wrap of the original text |
| WordWrap.Advance | list.go:63-92 | one word: compaction into the array being read never overwrites an unread rune |
| WordWrap.Place | list.go:75-91 | the word joins the current line if it fits, else the line is emitted and a new one begins with the word's own runes |
| WordWrap.Extend | list.go:85-87 | appending blank and word to the line in place stays behind the reading position |
| WordWrap.FindWord | list.go:64-74 | the next word of the unread text |
| WordWrap.GreedyIsWrap | list.go:63-95 | words in order, none lost or split, each line within the budget unless it is one overlong word |
| WordWrap.Optimal | list.go:63-95 | no order-preserving wrap within the budget has fewer lines |
| WordWrap.StaysAhead | list.go:63-95 | if the open line of the greedy wrap is a tail of the open line of another wrap, greedy ends with no more lines |
| WordWrap.OneBehind | list.go:63-95 | whatever is on the two open lines, greedy ends at most one line later |
| WordWrap.StartsFresh | list.go:63-95 | if another wrap begins a new line here, greedy ends at most one line later |
| WordWrap.WrapCorrect | list.go:55-100 | for any text, indent and width, the greedy lines form a correct and shortest wrap |
| WordWrap.LinesKeepWidth | list.go:55-100 | no printed line is longer than the width, indent included, unless it is one word or the indent leaves no room |
| WordWrap.ShortestForWidth | list.go:55-100 | no wrap of the words within the width has fewer lines than are printed |
| WordWrap.LineReadsBack | list.go:55-100 | reading a printed line's words gives the words of that line |
| CallLog.Logger.Log | execute.go:363-382 | the synchronous logger records what the slice holds at the call |
| CallLog.LogFailure | execute.go:300-382 | for any capacity of any new array, the two records have the same common and failure fields and differ in their parameters only: bounded and raw |
| CallLog.FailureRecordSaysCall | execute.go:227-382 | looking up each key of a failed call in its record gives tool, path, command, exit code, sizes, duration and truncation of that call |
| CallLog.FailureRecordSaysFailure | execute.go:300-382 | and each stream under its own key, the reason, the error or timeout exactly where it applies, and the bounded identity of the client |
| CallLog.LogSuccess | execute.go:399-410 | the same for the records of a successful call |
| CallLog.CompletedRecordSays | execute.go:399-410 | the full record of a successful call says the same under the common keys, and has the raw parameters and both streams |
| CallLog.BuildAttrs | execute.go:227-347 | the common attributes with optional, bounded identity fields |
| CallLog.BuildFailureAttrs | execute.go:369-381 | appending onto the shared prefix leaves the prefix as it was |
| CallLog.AppendTwice | execute.go:363-382 | why the logger must be synchronous: after the second slice is built, the first reads as the second exactly if the new elements fit the shared array |
| Timeout.ParseTimeoutDuration | timeout.go:32-77 | accepts exactly the texts with a meaning and returns it; no product or sum wraps; each error only for its cause |
| Timeout.AcceptedIffGrammar | timeout.go:26-31 | a text other than NONE has a meaning iff it is a list of digits-unit tokens with blanks between whose unbounded sum is below 2^63, which it then is |
| Timeout.NoneIff | timeout.go:33-35 | exactly the case variants of NONE, in any white space, mean no timeout by that name |
| Timeout.AddTerm | timeout.go:55-69 | the guards reject exactly the sums that do not fit |
| Timeout.DivisionGuard | timeout.go:62 | the division tests the product |
| Timeout.MatchTimeoutUnit | timeout.go:81-88 | the unit in front and the rest |
| Timeout.TokenizeSound | timeout.go:39-72 | what the scan reads is a written form of the text |
| Timeout.TokenizeWritten | timeout.go:39-72 | any written token list is read back |
| Timeout.PrintParse | timeout.go:119-127 | parsing the text inside the suffix gives any whole-second duration back |
| Timeout.ParsePrintParse | timeout.go:32-127 | every accepted text means whole seconds, and printing and parsing keep it |
| Timeout.DurationSum | timeout.go:119-127 | hours, minutes and seconds add up to the duration |
| Frontmatter.ExtractFrontmatter | discover.go:139-197 | the loop with its flags computes the declarative first-wins meaning of the first 30 lines, warnings included |
| Frontmatter.FirstDescriptionWins | discover.go:159-165 | the first description line decides |
| Frontmatter.FirstTimeoutWins | discover.go:167-179 | the first timeout line decides, even an invalid one |
| Frontmatter.FirstTimeoutWarned | discover.go:167-179 | an invalid timeout is reported iff it is on the first timeout line |
| Frontmatter.InvalidParamsWarned | discover.go:181-186 | a reason for skipping a parameter is reported iff some parameter line is invalid for that reason |
| Frontmatter.AnnotationAcceptedIff | discover.go:212-270 | an annotation declares a parameter iff it is name, type and status as three words without quotes, then the description between the first and the last quote, whatever follows |
| Frontmatter.RefusedFor | discover.go:227-263 | otherwise it is refused for the first of: not three words, a bad name, a bad type, a bad status |
| Frontmatter.UnquotedIff | discover.go:212-224 | it is refused as unquoted iff it has fewer than two quotes |
| Frontmatter.NameIff | schema.go:36 | the argument pattern, character by character |
| FrontmatterRoundTrip.RoundTrip | discover.go:139-197 | writing any expressible metadata as annotations into a script and extracting it, with any whole lines before and any text behind that have no annotations among the scanned lines, gives it back iff the description is trimmed, every description is of one line, no parameter description contains another keyword, and every annotation fits in the buffer of the line scanner |
| FrontmatterRoundTrip.ScriptRoundTrip | discover.go:139-197 | the documented form: the same for a script that names its interpreter on the first line |
| FrontmatterRoundTrip.Clipped | discover.go:189-194 | if the scan ends at an annotation that does not fit, the metadata read is not the one written |
| FrontmatterRoundTrip.DeclaredAreLines | discover.go:149-184 | no script, whatever it contains, declares a description with a line break, or one of the tool that is not trimmed |
| FrontmatterPrinting.LinesRoundTrip | discover.go:152-187 | the same round trip on the lines that the scanner delivers, with any lines without annotations in front |
| Text.ScansLines | discover.go:149-157 | lines that are written out and fit in the buffer are scanned as they are |
| Text.ScansUntil | discover.go:189-194 | of lines that are written out, only those before the first that does not fit are scanned |
| Text.ScansBehind | discover.go:149-157 | what follows whole lines is scanned as if it stood alone, unless the scan ends before |
| Text.ScansCrLf | discover.go:149-157 | a line that ends in a carriage return and a line feed is scanned without either |
| Text.TrimSpaceIs | discover.go:161 | trimming takes white space off both ends, and all of it |
| Text.TrimSpaceBetween | discover.go:161 | white space around a text without any at its ends is trimmed to that text |
| FrontmatterPrinting.AnnotationRead | discover.go:212-270 | a printed parameter annotation parses back, quotes inside the description included |
| FrontmatterPrinting.ParamLineRead | discover.go:181-186 | a printed parameter line declares its parameter iff its description is plain |
| FrontmatterPrinting.KeyInParamLine | discover.go:159-181 | another keyword occurs in a printed parameter line iff it occurs in the description |
| FrontmatterPrinting.TimeoutLineRead | discover.go:167-179 | a printed timeout line gives the timeout back |
| FrontmatterPrinting.DescriptionLineRead | discover.go:159-165 | a printed description line is one |
| Discover.DiscoverTools | discover.go:41-94 | the loop with its map of names yields exactly the tools of the entries: a tool is yielded iff some regular executable file is its name with or without a last extension, no entry before is, and path and metadata are that file's |
| Discover.DiscoveredIff | discover.go:50-89 | the same of the specification: which tools a directory has, from file names and contents alone |
| Discover.NamedByStem | discover.go:71 | the name of a file is the part before its last dot, or all of it if it has none |
| Discover.FirstFileWins | discover.go:73-80 | of several executables with one name the first in listing order is registered |
| Discover.FromEntry | discover.go:50-68 | every tool comes from a regular executable in the directory |
| Discover.DiscoveredDistinct | discover.go:76-80 | discovery yields distinct names |
| Discover.WinnerAdded | discover.go:50-89 | each entry adds its tool iff it is the first executable of its name |
| Discover.SameWinners | discover.go:50-89 | directories with the same first executables yield the same tools |
| Discover.PrefixSuffices | discover.go:50-89 | the tools of the first entries are a prefix of all tools, and all of them iff no later entry is a first executable |
| Schema.NormalizeParams | schema.go:40-52 | the in-place loop yields distinct names in first-occurrence order, each with its last declaration |
| Schema.NormalizedAppend | schema.go:43-50 | one more declaration overwrites in place or goes to the end |
| Schema.NormalizedIdempotent | schema.go:40-52 | normalizing twice is normalizing once |
| Schema.LastDeclarationIsLast | schema.go:43-50 | the declaration of a name behind which there is no other is the one kept |
| Schema.BuildInputSchema | schema.go:64-89 | the published schema is that of the normalized parameters |
| Schema.SchemaAgrees | schema.go:64-89 | a property exists iff the name is declared; its type and its description are those of the last declaration, and it is required iff that declaration is |
| Schema.AcceptedIff | schema.go:64-114 | arguments are accepted iff each is declared and has the type of its last declaration, and all whose last declaration is required are there |
| Schema.DeclaredParamsHaveNames | discover.go:240-244 | every declared parameter has a name of the argument pattern |
| Order.Sort | execute.go:54 | sorting lists a set of keys in ascending order |
| Order.ListUnique | execute.go:54 | there is one ascending list of a set, so the order of the map does not matter |
| Order.LessIff | execute.go:54 | strings are ordered by the first position at which they differ, a prefix first |
| Arguments.ArgumentsToCliArgs | execute.go:40-89 | flags in ascending key order, or the error for a key off the pattern, independent of map order |
| Arguments.CollectKeys | execute.go:45-54 | fails exactly if some key is off the pattern |
| Arguments.FlagsFor | execute.go:57-86 | the flags of one argument, by the type of its value |
| Arguments.FlagsAre | execute.go:57-86 | for each kind of value, the flags written out |
| Arguments.ReadAll | execute.go:57-86 | a reader that knows the types gets each argument back, even from values that look like flags |
| Arguments.AcceptedArgumentsRoundTrip | execute.go:40-89 | arguments that the published schema accepts never fail the key check, and reading the command line gives them back, without boolean false |
| ToolList.ToolListSignature | list.go:40-47 | the signature shows the normalized parameters |
| ToolList.SignatureShowsSchema | list.go:18-47 | each part is a property of the published schema, bracketed iff not required |
| ToolList.SignatureReads | list.go:18-47 | splitting what is inside the parentheses at the commas gives one part per declared name, which shows name, short type and status of its last declaration |
| ToolList.RenderBlock | list.go:109-123 | a block is the signature and the wrapped description with its timeout |
| ToolList.RenderToolList | list.go:109-123 | blocks with one blank line between |
| ToolList.OneRendered | list.go:109-123 | one tool is listed as its signature and the lines of its description |
| ToolList.RenderedGrows | list.go:109-123 | one more tool adds an empty line and its own lines |
| ToolList.EqualToolsRenderEqually | registry.go:218-247 | tool sets that compare equal render to the same text |
| ToolList.LiveList.Rescan | diagnostic.go:169-180 | the screen always shows the last successful scan, and is rewritten only for a changed set |
| ToolList.LiveList.constructor | diagnostic.go:151-168 | the first screen shows the first scan |
| LiveListRuns.LiveListShowsTheDirectory | diagnostic.go:165-185 | over every run of the watch loop, whenever it waits with its last rescan up to date, the screen of a live list fed by its scans shows exactly the tools of the directory |
| LiveListRuns.ScreenIsUpToDate | diagnostic.go:165-185 | whenever the loop waits and owes no rescan, the screen shows the directory unless a change of permissions was missed |
| LiveListRuns.RunFollows | diagnostic.go:165-185 | at every moment of every run the live list has printed the set that is registered, or about to be |

## Left out

- Real processes, pipes, signals and process groups (toolproc_unix.go, toolproc_other.go): a run is its two byte streams and an outcome.
- The MCP SDK, JSON decoding and the JSON Schema library: the server is a map with atomic updates, validation its accept predicate on types and required names (JSON Schema 2020-12 Validation, sections 6.1.1 and 6.5.3; additional properties per Core, section 10.3.2.3).
- http.go (CORS, bearer tokens, body limits), flags.go, main.go, prod.go and loghandler.go: single-branch decisions over libraries and rendering.
- The goroutines of `run` and the hot reload system are state machines on values, one statement or call per step; Go's memory model below that is not modelled. `WatchLoop.Loop` keeps the loop's variables as fields.
- Watcher internals: queue overflow, error-channel entries and the loss of the parent directory.
- Resolving, testing and reading one file are one step of a scan; a file that changes between them counts as changed before or after; its event is queued either way, and a change of permissions just then leaves the scan with a mixture that the model does not show.
- Wall-clock time beyond the debounce deadline; the timer may fire any time after it.
- The warning about a script whose scan a line of 64 KiB has ended. Text is a sequence of Unicode scalar values; invalid UTF-8 in scripts is not modelled.
- The Windows rule for executables is part of `executable` of a directory entry; entries come in the order of the listing.
- strconv.ParseUint, Duration.String, sort and the value formatting of numbers are modelled by their documented results; error texts are error constructors.
- Duplicate-name warnings of discovery and the log records of the watch loop.
- The sentences around the output of a failed call, such as that it timed out (execute.go:384-395).
- Looking up one tool for a diagnostic call (diagnostic.go:63-130): a linear search.
- Changes to the permissions of the scripts directory itself and of those above it.
- HotReloadRuns.Convergence: excludes the changes of permissions that the code misses, exactly those of HotReloadRuns.StaleIffPermissionsMissed.
- HotReloadRuns.StaleIffPermissionsMissed: if two links of one tool name lead to one file and its permissions change between the reading of the one and of the other, only one direction is claimed, because the scan can then be right by accident.
