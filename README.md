# ytd: a verified model of the terminal downloader's state machine

`ytd` is a terminal front end for an external audio downloader. It asks for a
playlist name and a URL and starts the downloader in a background thread. While
the download runs it shows a spinner and the last lines of the downloader's
output. At the end it shows either the `.m4a` files found in `~/Music/<name>` or a
fixed error message.

This project models the core of `src/main.rs` in Dafny:

- the `App` record and `App::new`;
- the body of the main loop: the blocking branch, which reads one key in the
  entry and final states, and the polling branch, which runs one tick while
  downloading;
- `check_download`;
- the worker's protocol for writing to the shared progress state;
- the pure display helpers: the output tail, the spinner frame and the plural
  suffix;
- the `.m4a` filter over the directory listing.

Files, one module each:

- `rust_text.dfy` (`RustText`): the Rust library behaviour the program relies
  on. That is `str::lines` with its line-ending rules, slice `join`, and the
  `rev().take(k) … rev()` chain that keeps the last `k` items.
- `display.dfy` (`Display`): the `u32` spinner counter with `wrapping_add`, the
  ten spinner frames, the five-line output tail and the plural suffix.
- `listing.dfy` (`Listing`): `Path::extension` of a file name and the filter
  that keeps the Unicode-named entries whose extension is exactly `m4a`. The
  result keeps enumeration order. A directory that cannot be read gives an
  empty list.
- `worker.dfy` (`Worker`): the shared state (`output`, `done`, `success`) and
  the worker's writes, as a sequence of atomic steps. A spawn failure appends
  its message with no line feed. Otherwise each line read is appended with its
  line feed under one lock. After that, `success` is stored, then `done`.
  `RunWorker` and `Drain` are the imperative form: the reader loop, proved
  against that step sequence.
- `tui.dfy` (`Tui`): `AppState`, key events, and the class `App`, whose
  methods update its fields in place. There is one pure transition function per
  method: `KeyTransition`, `TickTransition` and `CheckOutcome`. Each method's
  postcondition says its new fields and its result equal that function's value.
  The properties are lemmas about these functions. `Consistent` is the
  invariant that every reachable state keeps.
- `scenarios.dfy` (`Scenarios`): end-to-end runs. Each types a name and a URL
  from a fresh start, starts the download, and lets the tick read the worker's
  final state.

The model takes these as inputs:

- the events the terminal delivers;
- the worker's shared state at the moment the loop reads it (a `Progress`
  value);
- the directory listing (`ReadDir`);
- how the child process behaves (`Launch`): whether it spawned, which lines
  arrived in which order, and how the wait ended.

Passing one `Progress` snapshot is exact because of
`Worker.DonePublishedLast`. The worker stores `done` last, so once the loop sees
`done`, the text and `success` it reads afterwards are already final.

## Program behaviour the model keeps

- `download_output_final` is copied once, by `check_download`, when the worker
  is done. The live tail is drawn from the shared buffer.
- The worker finishes with two stores: `success`, then `done`.
- A spawn failure's message is appended without a trailing line feed.
- A failed `wait()` counts as success, because `unwrap_or_default()` gives the
  default exit status, and that status is the successful one.
- While downloading, Esc exits whatever the event kind, so a key release
  counts too. In the other states only key presses are handled.
- With an empty name, Enter does nothing, so whatever is typed next goes into
  the name field (`Tui.EmptyNameEntry`).

## Model

| member | source | states |
|---|---|---|
| `RustText.Lines` | src/main.rs:338-339 | `str::lines`: no line it returns contains a line feed; only the empty text has no lines |
| `RustText.LastN` | src/main.rs:340-345 | reverse, take `k`, reverse gives `min(k, n)` items, and they are the last items of the input in their original order |
| `RustText.FramedOfLines` | src/main.rs:338-339 | the converse of `LinesOfFramed`: a text without carriage returns that is empty or ends in a line feed is exactly its `lines()`, each followed by a line feed |
| `RustText.Join` | src/main.rs:346 | slice `join`; it has no contract of its own, and `JoinSnoc` states how it grows |
| `RustText.JoinSnoc` | src/main.rs:346 | joining one more part appends the separator and that part, so the parts appear in order with one separator between neighbours |
| `RustText.LinesOfFramed` | src/main.rs:100-105 | writing each plain line followed by `'\n'` and splitting the text with `lines()` gives back exactly those lines |
| `Display.OutputTail` | src/main.rs:338-346 | the tail is the last `min(5, n)` lines of the output in their original order, joined by `'\n'` |
| `Display.TailOfFramedOutput` | src/main.rs:338-346 | on worker output made of plain lines, the tail is the join of the last `min(5, n)` lines the worker wrote |
| `Display.WrappingIncrement` | src/main.rs:193 | the spinner counter goes up by one and wraps from 2^32-1 to 0 |
| `Display.SpinnerIndex` | src/main.rs:348-349 | `spinner_frame % 10` is always a valid index into the ten frames and is congruent to the counter |
| `Display.SpinnerGlyph` | src/main.rs:348-349 | the glyph shown is always one of the ten spinner frames |
| `Display.ProgressText` | src/main.rs:352 | the panel text is the glyph of frame `spinner_frame % 10`, then `" Downloading...\n"`, then the output tail, and nothing else |
| `Display.SpinnerAdvance` | src/main.rs:193 | each tick shows the next frame cyclically; the only exception is the 32-bit wrap, where frame 5 is followed by frame 0 |
| `Display.PluralSuffix` | src/main.rs:374 | the suffix is `""` exactly when the count is 1, and `"s"` otherwise |
| `Listing.Extension` | src/main.rs:162 | `Path::extension` of a file name; no contract of its own, and `AudioExtensionIffSuffix` gives its meaning for `m4a` |
| `Listing.AudioExtensionIffSuffix` | src/main.rs:162 | the extension is `m4a` exactly when the name ends in `.m4a` after a non-empty stem, so `.m4a` alone has no extension |
| `Listing.AudioNames` | src/main.rs:160-165 | the kept names are no more than the entries, and every one has extension `m4a` |
| `Listing.AudioNamesAppend` | src/main.rs:160-165 | the filter distributes over concatenation, so the kept names keep the listing's enumeration order |
| `Listing.AudioNamesMembers` | src/main.rs:160-165 | a name is kept exactly when some entry has no error, has a Unicode name equal to it, and has extension `m4a` |
| `Listing.FilesFound` | src/main.rs:158-166 | an unreadable directory gives no files; otherwise every file found has extension `m4a` |
| `Worker.ExitSucceeded` | src/main.rs:131 | `wait().unwrap_or_default().success()`; no contract of its own, and `WorkerOutcome` states `success` through it |
| `Worker.WorkerSteps` | src/main.rs:91-141 | every write of the worker in order; no contract of its own, and `WorkerOutcome` and `DonePublishedLast` state what replaying them gives |
| `Worker.Final` | src/main.rs:91-141 | the shared state after all the writes; no contract of its own, and `WorkerOutcome` states its three fields |
| `Worker.DrainText` | src/main.rs:100-105 | after the readers' appends the text is the earlier text followed by every line read without error, each ended by `'\n'`, in arrival order |
| `Worker.DrainOutput` | src/main.rs:100-105 | draining appends exactly the lines read without error, each followed by `'\n'`, in arrival order, and changes neither flag |
| `Worker.WorkerOutcome` | src/main.rs:91-141 | the run always ends with `done`; `success` holds exactly when the child spawned and its wait succeeded; the text is `"Failed to spawn: "` plus the reason with no line feed, or the framed lines read |
| `Worker.DonePublishedLast` | src/main.rs:131-141 | `done` is set by the worker's last write only; a reader that sees `done` sees the final text and `success`; before that, every text it sees is a prefix of the final text |
| `Worker.DrainSnapshotsAreWholeLines` | src/main.rs:100-122 | at every point between arrivals the text splits into exactly the plain lines delivered so far, so no line is torn |
| `Worker.Drain` | src/main.rs:97-122 | the reader loop leaves the state of the step sequence: the framed lines read, with both flags false |
| `Worker.RunWorker` | src/main.rs:73-142 | the whole worker thread ends in the final state of its step sequence, with `done` set and `success` equal to the run's outcome |
| `Tui.Pop` | src/main.rs:220 | `String::pop` removes the last character and leaves an empty string unchanged |
| `Tui.KeyTransition` | src/main.rs:209-252 | one event of the blocking branch; no contract of its own, and `KeyExit`, `NonPressIgnored`, `ConfirmName`, `ConfirmUrl`, `EditKeys`, `FinalStatesStay`, `KeyFrame` and `KeyKeepsConsistent` state its cases |
| `Tui.TickTransition` | src/main.rs:192-207 | one tick of the polling branch; no contract of its own, and `EscCancelsDownload`, `TickKeepsConsistent` and `TickObservesWorker` state it |
| `Tui.CheckOutcome` | src/main.rs:145-176 | `check_download` on one reading of the shared state; no contract of its own, and `CheckOutcomeCases` states every outcome |
| `Tui.Session` | src/main.rs:189-255 | the main loop over a run of events until it breaks or the download starts; no contract of its own, and `SessionAppend`, `EntryProtocol`, `EmptyNameEntry` and `SessionKeepsConsistent` state it |
| `Tui.Consistent` | src/main.rs:30-41 | the invariant over the `App` fields that `KeyKeepsConsistent`, `TickKeepsConsistent` and `SessionKeepsConsistent` prove is kept |
| `Tui.KeyExit` | src/main.rs:209-252 | the blocking branch breaks exactly on a pressed Esc in `InputPlaylistName` or `InputUrl`, or a pressed Enter in `Done` or `Error` |
| `Tui.NonPressIgnored` | src/main.rs:209-210 | outside `Downloading`, key releases, repeats and non-key events change nothing and do not exit |
| `Tui.ConfirmName` | src/main.rs:213-216 | Enter with an empty name changes nothing; with a non-empty name only the state changes, to `InputUrl` |
| `Tui.ConfirmUrl` | src/main.rs:226-230 | Enter with an empty url changes nothing; with a non-empty url only the state changes, to `Downloading` |
| `Tui.EditKeys` | src/main.rs:217-234 | a character is appended to, and Backspace pops from, the field of the current entry state; the other field and the state are unchanged |
| `Tui.FinalStatesStay` | src/main.rs:247-251 | in `Done` and `Error` no key changes any field |
| `Tui.KeyFrame` | src/main.rs:211-252 | the name changes only in `InputPlaylistName` and the url only in `InputUrl`; the result fields and the spinner never change; the state moves only on a pressed Enter, one step forward, past a non-empty field |
| `Tui.KeyKeepsConsistent` | src/main.rs:211-252 | the blocking branch keeps the state invariant |
| `Tui.CheckOutcomeCases` | src/main.rs:145-176 | before `done` the check returns false and changes nothing. After `done` it returns true and copies the output. On success it sets `Done` with exactly the `.m4a` files; on failure it sets `Error` with the fixed message. Name, url and spinner are kept |
| `Tui.EscCancelsDownload` | src/main.rs:192-199 | Esc while downloading exits whatever the worker's state; only the spinner has moved |
| `Tui.TickKeepsConsistent` | src/main.rs:192-207 | a downloading tick keeps the state invariant and never moves the state backwards |
| `Tui.TickObservesWorker` | src/main.rs:146-173 | a tick that reads the worker's state after any number of its writes moves only the spinner until the last write. After the last write it copies the final output and reaches `Done` exactly when the run succeeded, otherwise `Error` |
| `Tui.PressAll` | src/main.rs:209-210 | each key code becomes one press event, in order |
| `Tui.TypingName` | src/main.rs:217-220 | typing characters and Backspace into the name field leaves the name equal to the typed text, with deletes applied; nothing else changes and the loop does not exit |
| `Tui.TypingUrl` | src/main.rs:231-234 | typing characters and Backspace into the url field leaves the url equal to the typed text, with deletes applied; nothing else changes |
| `Tui.EntryProtocol` | src/main.rs:212-237 | from a fresh start, typing a name, Enter, a url and Enter, with both texts non-empty, starts the download with exactly those texts |
| `Tui.EmptyNameEntry` | src/main.rs:212-216 | with an empty name the first Enter does nothing, so the url keys go into the name field, and the second Enter moves to `InputUrl` exactly when that text is non-empty |
| `Tui.SessionKeepsConsistent` | src/main.rs:189-255 | over any run of the blocking branch the invariant holds and the state never moves backwards |
| `Tui.SessionAppend` | src/main.rs:189-255 | a run that has not broken the loop can be continued: running two event sequences in turn is running their concatenation |
| `Tui.App.constructor` | src/main.rs:43-55 | a new `App` is in `InputPlaylistName` with empty name, url, error message, output copy and file list, and the spinner at 0 |
| `Tui.App.CheckDownload` | src/main.rs:145-176 | updates the fields in place and returns as `CheckOutcome` does |
| `Tui.App.HandleKey` | src/main.rs:209-254 | handles one blocking-branch event as `KeyTransition` does, pushing to and popping from the fields in place, and keeps the invariant |
| `Tui.App.DownloadTick` | src/main.rs:192-207 | runs one polling-branch tick as `TickTransition` does, and keeps the invariant |
| `Scenarios.CharKeys` | src/main.rs:217-218 | each character of a text becomes the key code that types it |
| `Scenarios.TypedChars` | src/main.rs:217-218 | typing only characters appends them, in order |
| `Scenarios.StartDownload` | src/main.rs:212-237 | typing a non-empty name and url leads to `Downloading` with those texts and nothing else set |
| `Scenarios.ScenarioSuccess` | src/main.rs:145-168 | name `Chill`, exit code 0 and a directory holding `track.m4a` end in `Done` with exactly `["track.m4a"]` |
| `Scenarios.ScenarioExitFailure` | src/main.rs:169-172 | exit code 1 ends in `Error` with the fixed message and no files |
| `Scenarios.ScenarioSpawnFailure` | src/main.rs:134-141 | a spawn failure stores `success = false` and the `"Failed to spawn: "` text, with no wait, and the app ends in `Error` |
| `Scenarios.ScenarioCancel` | src/main.rs:192-199 | Esc during the download exits after any number of the worker's writes, whether or not the worker is done |

## Left out

- Terminal setup and teardown: raw mode and the alternate screen (src/main.rs:180-184, 257-258). This is terminal I/O.
- The layout, styling and drawing in `ui` (src/main.rs:262-424), apart from the tail, spinner and plural helpers. `ProgressText` gives the progress panel's text; widget layout is not modelled. The count in "Download Complete! (N file…)" and the file-list join are not modelled.
- Spawning `yt-dlp` and building its argument list (src/main.rs:73-89). The model starts from what the spawn produced (`Launch`).
- Building `~/Music/<name>` and creating it (`start_download`, src/main.rs:57-66), and `dirs::home_dir` and `read_dir` in `check_download`. These are file-system calls. The listing is an input. When `HandleKey` enters `Downloading` it only changes the state; the worker's run is described separately by `Worker`.
- The two reader threads and their joins (src/main.rs:96-129). How their lines interleave is an input: one arrival order, which covers every interleaving. The model does not represent true concurrency, `Arc<Mutex<_>>` or `AtomicBool` orderings. Each locked append and each flag store is one atomic step.
- Timing: the 50 ms poll timeout (src/main.rs:195) and any latency or liveness bound.
- I/O errors from `event::read`, `event::poll` and `terminal.draw`, which end `main` early through `?`.
- Key modifiers: the program never checks them, so Ctrl+C types a `c` like any other character.
- The `Downloading` arm of the blocking match (src/main.rs:239-246) cannot be reached, because the polling branch always `continue`s. `HandleKey` therefore requires a state other than `Downloading`.
- The spinner counter is a local variable of `main` in the program. The model keeps it as a field of `App`.
- `str::lines` is modelled as in current Rust: a final line without a line feed keeps its trailing `'\r'`.
