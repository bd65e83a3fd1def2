# ClawWin core, modelled in Dafny

ClawWin is a Windows desktop client for the OpenClaw agent gateway: an
Electron main process that installs and supervises a local gateway and an
Ollama model server, scans skills, pairs devices and checks for updates; a
React renderer that talks to the gateway over a WebSocket protocol and
holds the chat sessions, the setup wizard and the settings pages; and a
bundled `windows-control` skill, a set of Python scripts that read and
drive the Windows desktop through UI Automation.

This project models that core in Dafny, one module per source file:

- the main-process services (`electron/*.ts`): skill scanning and its
  requirement checks, CLAUDE.md generation and merging, device identity
  and pairing, update checking and version comparison, setup-wizard
  configuration, the Ollama manager and the gateway manager;
- the gateway protocol client (`src/lib/gateway-protocol.ts`) as a class
  whose request table, connect handshake and event handlers are fields and
  methods;
- the renderer hooks and pages (`useWebSocket`, `useGateway`,
  `useSetup`, `App.tsx`, the settings and setup pages, `i18n`) as
  state-transition functions over their React state;
- the OpenClaw patcher (`scripts/patch-openclaw.js`);
- the desktop scripts (`bundled/openclaw/skills/windows-control/scripts/*.py`)
  over a snapshot of the desktop: windows with titles, states and a
  control tree flattened in tree order (`desktop.dfy`). The clock, the
  file system and the outcome of each UI action are inputs.

Shared helpers: `wrappers.dfy` (Option), `seqs.dfy` (filter, dedup,
occurrence positions), `text.dfy` (case folding, search, joining,
splitting, decimal rendering) and `json.dfy` (a JSON value type).

Every loop of the source that is modelled is a method whose `ensures`
ties its result to a specification function; the properties the source
promises are lemmas about those functions.

## Model

| member | source | states |
|---|---|---|
| Desktop.Center | bundled/openclaw/skills/windows-control/scripts/click_element.py:71 | the floor midpoint of a rectangle on each axis, `2c <= lo + hi <= 2c + 1`, also for negative coordinates |
| Desktop.CenterInside | bundled/openclaw/skills/windows-control/scripts/find_text.py:40-41 | the centre of a well-formed rectangle lies inside it |
| Desktop.StripIsInfix | bundled/openclaw/skills/windows-control/scripts/read_window.py:52-53 | `strip()` keeps one contiguous part of the text and leaves no whitespace at either end |
| Desktop.StripStartSuffix | bundled/openclaw/skills/windows-control/scripts/read_window.py:52-53 | stripping the start keeps a suffix that does not start with whitespace |
| Desktop.StripEndPrefix | bundled/openclaw/skills/windows-control/scripts/read_window.py:52-53 | stripping the end keeps a prefix that does not end with whitespace |
| Desktop.FirstTitleMatch | bundled/openclaw/skills/windows-control/scripts/maximize_window.py:23-24 | the index of the first window whose title contains the argument case-insensitively; none exactly when no title contains it |
| Desktop.SameTitlesSameMatch | bundled/openclaw/skills/windows-control/scripts/maximize_window.py:23-24 | the window chosen depends only on the titles, so changing window states never changes which window a title picks |
| Desktop.FindWindow | bundled/openclaw/skills/windows-control/scripts/read_window.py:31-35 | the scan with `break` finds exactly the first matching window |
| Desktop.WindowsMatching | bundled/openclaw/skills/windows-control/scripts/find_text.py:26 | the comprehension keeps exactly the windows whose titles contain the filter, never more than given |
| Desktop.WindowsMatchingIsFilter | bundled/openclaw/skills/windows-control/scripts/find_text.py:26 | the comprehension is the order-preserving filter of the window list, so no window is added, dropped or moved |
| Desktop.WindowsMatchingFirst | bundled/openclaw/skills/windows-control/scripts/find_text.py:26-31 | the first kept window is the first window whose title matches, and nothing is kept exactly when no title matches |
| Desktop.WindowsMatchingAppend | bundled/openclaw/skills/windows-control/scripts/find_text.py:26 | filtering two lists one after the other keeps the windows of the first list ahead of those of the second |
| Desktop.EmptyFilterKeepsAll | bundled/openclaw/skills/windows-control/scripts/find_text.py:25-28 | the empty filter keeps every window |
| Desktop.SearchWindows | bundled/openclaw/skills/windows-control/scripts/find_text.py:25-28 | an empty filter searches all windows, any other those whose titles contain it |
| Desktop.SearchWindowsIsMatching | bundled/openclaw/skills/windows-control/scripts/find_text.py:25-28 | skipping an empty filter selects the same windows as applying it |
| Desktop.MatchingWindows | bundled/openclaw/skills/windows-control/scripts/find_text.py:26 | the list comprehension computes the filtered windows |
| Desktop.TitleListing | bundled/openclaw/skills/windows-control/scripts/read_window.py:39-42 | the "Available windows" listing holds one `  - title` line for each titled window, the k-th line naming the k-th titled window, in window order |
| Desktop.ListTitles | bundled/openclaw/skills/windows-control/scripts/read_window.py:40-42 | the printing loop produces that listing |
| Desktop.PyInt | bundled/openclaw/skills/windows-control/scripts/scroll.py:15 | Python `int()` on text: a value only for a stripped, non-empty decimal literal |
| Desktop.StripUnspaced | bundled/openclaw/skills/windows-control/scripts/read_window.py:52-53 | text with no whitespace at either end is its own strip |
| Desktop.PyIntRoundTrip | bundled/openclaw/skills/windows-control/scripts/scroll.py:15 | `int(str(n)) == n` for every integer |
| Desktop.PyIntBlank | bundled/openclaw/skills/windows-control/scripts/scroll.py:15 | blank text is no integer (`ValueError`) |
| Desktop.TimeoutArg | bundled/openclaw/skills/windows-control/scripts/wait_for_window.py:19 | the timeout is 30 when no argument is given, else the argument read by `int()`, failing when it is no integer |
| Desktop.ClockGrows | bundled/openclaw/skills/windows-control/scripts/wait_for_window.py:25-31 | with a half-second sleep per poll, at least `k * 500` ms have elapsed at the k-th poll |
| Desktop.PollsBounded | bundled/openclaw/skills/windows-control/scripts/wait_for_window.py:25-31 | a polling loop with timeout T polls fewer than `T / 500 + 1` times |
| Scroll.Scroll | bundled/openclaw/skills/windows-control/scripts/scroll.py:10-26 | exit 0 exactly for "up" or "down" with an integer amount, scrolling `amount * 120` or `-amount * 120` wheel units with the "Scrolled ..." message; usage, `ValueError` and any other direction exit 1 without scrolling |
| Scroll.UpUndoesDown | bundled/openclaw/skills/windows-control/scripts/scroll.py:18-21 | the same amount up and down scrolls opposite distances, a whole number of notches |
| Scroll.OtherDirectionScrollsNothing | bundled/openclaw/skills/windows-control/scripts/scroll.py:22-24 | any direction but the two lower-case names scrolls nothing and exits 1 |
| MaximizeWindow.Maximized | bundled/openclaw/skills/windows-control/scripts/maximize_window.py:23-30 | only the first matching window changes, it ends maximized (and no longer minimized), an already maximized window is left alone, and no title changes |
| MaximizeWindow.MaximizeIdempotent | bundled/openclaw/skills/windows-control/scripts/maximize_window.py:25-29 | a second run finds the window already maximized and changes nothing |
| MaximizeWindow.Run | bundled/openclaw/skills/windows-control/scripts/maximize_window.py:13-33 | usage exits 1; otherwise the desktop becomes the maximized one and the run exits 0 exactly when a title matches; the focus is untouched |
| MinimizeWindow.Minimized | bundled/openclaw/skills/windows-control/scripts/minimize_window.py:23-30 | only the first matching window changes and it ends minimized; an already minimized window is left alone |
| MinimizeWindow.MinimizeIdempotent | bundled/openclaw/skills/windows-control/scripts/minimize_window.py:25-29 | minimizing twice is minimizing once |
| MinimizeWindow.Run | bundled/openclaw/skills/windows-control/scripts/minimize_window.py:13-33 | usage exits 1; otherwise the desktop becomes the minimized one and the run exits 0 exactly when a title matches |
| FocusWindow.Restored | bundled/openclaw/skills/windows-control/scripts/focus_window.py:26-31 | only a minimized first match changes: it is restored keeping its maximized state |
| FocusWindow.RestoreIdempotent | bundled/openclaw/skills/windows-control/scripts/focus_window.py:30-31 | focusing again restores nothing more |
| FocusWindow.Run | bundled/openclaw/skills/windows-control/scripts/focus_window.py:16-39 | usage exits 1 with nothing changed; a matching title restores and focuses the first match with exit 0; no match leaves the focus and exits 1 |
| FindText.FirstHitFrom | bundled/openclaw/skills/windows-control/scripts/find_text.py:38-39 | the first control from a position whose text contains the query case-insensitively; none exactly when no such control follows |
| FindText.FirstTextHit | bundled/openclaw/skills/windows-control/scripts/find_text.py:31-46 | the first hit in window order then tree order, untitled windows skipped; none exactly when no searched window has a hit |
| FindText.FirstTextHitAt | bundled/openclaw/skills/windows-control/scripts/find_text.py:31-46 | a hit with no hit before it is the first hit |
| FindText.EmptyQueryHitsAnyText | bundled/openclaw/skills/windows-control/scripts/find_text.py:38-39 | the empty query hits every control that has text |
| FindText.Search | bundled/openclaw/skills/windows-control/scripts/find_text.py:33-46 | the nested loops, left at the first hit, find the first hit |
| FindText.Run | bundled/openclaw/skills/windows-control/scripts/find_text.py:15-53 | as intended: usage exits 1; exit 0 exactly when the query hits, reporting the centre of the first hit; otherwise "Not found: 'q'" and exit 1 |
| FindText.ControlHits | bundled/openclaw/skills/windows-control/scripts/find_text.py:36-48 | a window yields at most one centre per control |
| FindText.ControlHitsFirst | bundled/openclaw/skills/windows-control/scripts/find_text.py:36-46 | a window's hits are empty exactly when it has no first hit, and the first hit's centre leads them |
| FindText.HitCentresFirst | bundled/openclaw/skills/windows-control/scripts/find_text.py:31-48 | all hits are empty exactly when there is no first hit, and the first hit's centre leads them |
| FindText.WindowHits | bundled/openclaw/skills/windows-control/scripts/find_text.py:36-48 | the inner loop as written reports every hit of the window, in tree order |
| FindText.AllHits | bundled/openclaw/skills/windows-control/scripts/find_text.py:31-48 | the outer loop as written reports every hit of every searched window |
| FindText.RunAsWritten | bundled/openclaw/skills/windows-control/scripts/find_text.py:15-53 | as written: every hit is reported in order, and the run still prints "Not found" and exits 1 |
| FindText.SaveFoundYetNotFound | bundled/openclaw/skills/windows-control/scripts/find_text.py:36-53 | on a Notepad window with a Save button, "save" has a first hit at the button, and the run as written reports its centre and then exits 1 |
| ClickText.ClicksFor | bundled/openclaw/skills/windows-control/scripts/click_text.py:33-57 | at most one click, and one exactly when the query hits; the click is at the centre of the first hit |
| ClickText.Masked | bundled/openclaw/skills/windows-control/scripts/click_text.py:38-52 | the windows as the search sees them: same titles and control counts, a control whose click raises seen without text, every other control unchanged |
| ClickText.CleanClicksUnmasked | bundled/openclaw/skills/windows-control/scripts/click_text.py:38-52 | when no click raises, the search sees the desktop as it is |
| ClickText.RaisingClickMovesOn | bundled/openclaw/skills/windows-control/scripts/click_text.py:38-52 | when the click on the first hit raises, the bare `except` moves on and the next hit is clicked |
| ClickText.ClickFirst | bundled/openclaw/skills/windows-control/scripts/click_text.py:33-57 | the loops with the `found` flag stop at the first hit whose click goes through: `found` exactly when there is one, and the clicks are those at that hit |
| ClickText.Run | bundled/openclaw/skills/windows-control/scripts/click_text.py:17-61 | usage exits 1 without clicking; otherwise the clicks are those at the first hit whose click goes through, and the run exits 0 exactly when there is one |
| WaitForWindow.Run | bundled/openclaw/skills/windows-control/scripts/wait_for_window.py:14-34 | usage and a non-integer timeout exit 1 without scanning; every scan before the last found no match within the timeout; exit 0 exactly when the last scan came before the timeout, and then it matched |
| WaitForWindow.DefaultTimeoutScans | bundled/openclaw/skills/windows-control/scripts/wait_for_window.py:19-31 | with the default 30 s timeout a run scans at most 60 times |
| WaitForText.Scan | bundled/openclaw/skills/windows-control/scripts/wait_for_text.py:29-41 | one scan computes whether any control of a window kept by the filter contains the query |
| WaitForText.Run | bundled/openclaw/skills/windows-control/scripts/wait_for_text.py:16-48 | as intended: usage and a bad timeout exit 1; each earlier scan came in time and missed; exit 0 exactly when the last scan came in time, and then it hit |
| WaitForText.UntitledOnlyWithEmptyFilter | bundled/openclaw/skills/windows-control/scripts/wait_for_text.py:29 | an untitled window is searched only when the filter is empty |
| WaitForText.ScanUntil | bundled/openclaw/skills/windows-control/scripts/wait_for_text.py:28-45 | the loop as written scans until the elapsed time reaches the limit and records every scan's outcome |
| WaitForText.RunAsWritten | bundled/openclaw/skills/windows-control/scripts/wait_for_text.py:16-48 | as written: the run scans until the timeout whatever it finds, and always exits 1 |
| WaitForText.SaveShownAtOnce | bundled/openclaw/skills/windows-control/scripts/wait_for_text.py:28-41 | waiting 30 s for "save" in Notepad while the Save button is shown: the first scan, at time 0, hits |
| WaitForText.HalfSecondsPolls | bundled/openclaw/skills/windows-control/scripts/wait_for_text.py:45 | a clock that advances exactly half a second per poll is a polling clock |
| WaitForText.NotepadShowsSave | bundled/openclaw/skills/windows-control/scripts/wait_for_text.py:29-39 | the filter "notepad" keeps Notepad and "save" hits its Save button |
| ReadWindow.Texts | bundled/openclaw/skills/windows-control/scripts/read_window.py:46-57 | the texts collected are exactly the non-blank stripped texts of the controls, at most one per control |
| ReadWindow.CollectTexts | bundled/openclaw/skills/windows-control/scripts/read_window.py:49-53 | the collecting loop computes those texts in tree order |
| ReadWindow.TextsStripped | bundled/openclaw/skills/windows-control/scripts/read_window.py:52-53 | no reported text has whitespace at either end |
| ReadWindow.Run | bundled/openclaw/skills/windows-control/scripts/read_window.py:17-70 | usage exits 1; no match prints the error and the titled windows and exits 1; a match prints its distinct texts joined by newlines, or "No text found", and exits 0 |
| ReadWindow.UniqueTextsInOrder | bundled/openclaw/skills/windows-control/scripts/read_window.py:59-68 | the printed texts are each text once, all of them, in order of first appearance |
| ClickElement.WindowEntries | bundled/openclaw/skills/windows-control/scripts/click_element.py:43-75 | a window's entries are exactly the controls the test accepts, each with its name, type, window title and centre |
| ClickElement.Entries | bundled/openclaw/skills/windows-control/scripts/click_element.py:43-75 | the entries of all searched windows are exactly the accepted controls of those windows |
| ClickElement.Candidates | bundled/openclaw/skills/windows-control/scripts/click_element.py:51-64 | the candidates are exactly the enabled controls of a clickable type that pass the type filter and whose name matches the element (equal in exact mode, else containing it ignoring case) |
| ClickElement.Target | bundled/openclaw/skills/windows-control/scripts/click_element.py:78-87 | no target exactly when there is no candidate, and the target is always a candidate |
| ClickElement.TargetPrefersExact | bundled/openclaw/skills/windows-control/scripts/click_element.py:82-84 | the first candidate whose name equals the element ignoring case is clicked, ahead of any earlier candidate |
| ClickElement.TargetFallsBack | bundled/openclaw/skills/windows-control/scripts/click_element.py:86-87 | with no candidate named exactly so, the first candidate is clicked |
| ClickElement.ExactModeClicksFirst | bundled/openclaw/skills/windows-control/scripts/click_element.py:59-87 | in exact mode the first candidate is clicked and bears the very name asked for |
| ClickElement.CollectWindow | bundled/openclaw/skills/windows-control/scripts/click_element.py:43-75 | the descendants loop collects exactly one window's entries |
| ClickElement.Collect | bundled/openclaw/skills/windows-control/scripts/click_element.py:40-75 | the windows loop collects exactly all entries |
| ClickElement.FindAndClick | bundled/openclaw/skills/windows-control/scripts/click_element.py:25-92 | a window filter that no title contains fails with "Window 'X' not found"; otherwise the target is the preferred candidate, no candidate fails with "Element 'X' not found", success means a target was clicked without error, and the message names its type, name, window and centre or the click error |
| ClickElement.ListedWindows | bundled/openclaw/skills/windows-control/scripts/click_element.py:97-103 | with a filter the windows whose titles contain it, else the first five windows |
| ClickElement.ListClickable | bundled/openclaw/skills/windows-control/scripts/click_element.py:95-127 | the listing holds exactly the named, enabled, clickable controls of those windows |
| ClickElement.ListedAreClickable | bundled/openclaw/skills/windows-control/scripts/click_element.py:103-117 | without a filter every listed element is a named, enabled, clickable control of one of the first five windows |
| ClickElement.ListedCanBeClicked | bundled/openclaw/skills/windows-control/scripts/click_element.py:25-127 | an element listed under a window filter is found again when clicked by its exact name under the same filter |
| ClickElement.Run | bundled/openclaw/skills/windows-control/scripts/click_element.py:130-172 | `--list` lists and exits 0 with the "Found N" or "No clickable elements found" header; a missing element name exits 1 with its error; otherwise exit 0 exactly when a candidate was clicked without error |
| Screenshot.ShotName | bundled/openclaw/skills/windows-control/scripts/screenshot.py:32-33 | the new file is a `screenshot-` file ending in `.jpg` |
| Screenshot.ShotNameInjective | bundled/openclaw/skills/windows-control/scripts/screenshot.py:32-33 | screenshots taken at distinct milliseconds get distinct names |
| Screenshot.Insert | bundled/openclaw/skills/windows-control/scripts/screenshot.py:23-26 | inserting a name into the sorted list adds exactly that name |
| Screenshot.InsertByMtime | bundled/openclaw/skills/windows-control/scripts/screenshot.py:23-26 | inserting after every name modified no later keeps the list ordered by modification time |
| Screenshot.SortByMtime | bundled/openclaw/skills/windows-control/scripts/screenshot.py:23-26 | `sorted(..., key=getmtime)` is a permutation of the names, ordered oldest first |
| Screenshot.Doomed | bundled/openclaw/skills/windows-control/scripts/screenshot.py:27 | `files[:-20]` is empty for at most 20 files, else the oldest `n - 20` |
| Screenshot.Kept | bundled/openclaw/skills/windows-control/scripts/screenshot.py:21-28 | at most 20 files are kept, and they are what follows the deleted ones |
| Screenshot.DoomedNotNewer | bundled/openclaw/skills/windows-control/scripts/screenshot.py:21-28 | no deleted screenshot is newer than a kept one |
| Screenshot.SortedShots | bundled/openclaw/skills/windows-control/scripts/screenshot.py:23-26 | the sorted list holds exactly the listed `screenshot-` files, each as often as listed, oldest first |
| Screenshot.Cleaned | bundled/openclaw/skills/windows-control/scripts/screenshot.py:21-30 | cleanup removes only screenshots and changes no file it keeps, even when a removal fails part-way; when none fails, every doomed screenshot is gone |
| Screenshot.CleanedKeepsNewest | bundled/openclaw/skills/windows-control/scripts/screenshot.py:21-30 | a cleanup without failure leaves exactly the 20 newest screenshots, or all when there are fewer |
| Screenshot.SortedShotsDistinct | bundled/openclaw/skills/windows-control/scripts/screenshot.py:23-26 | the sorted screenshots name no file twice |
| Screenshot.KeptNotDoomed | bundled/openclaw/skills/windows-control/scripts/screenshot.py:27-28 | in a list without repeats no kept name is also deleted |
| Screenshot.AtMostTwentyOneRemain | bundled/openclaw/skills/windows-control/scripts/screenshot.py:21-37 | after a run whose cleanup did not fail, at most 21 screenshots remain: the 20 kept and the new one |
| Screenshot.PathIn | bundled/openclaw/skills/windows-control/scripts/screenshot.py:34 | the path of a file in the folder ends with its name |
| Screenshot.Folder.Cleanup | bundled/openclaw/skills/windows-control/scripts/screenshot.py:21-30 | the folder becomes the cleaned folder: the doomed screenshots removed in order, up to the first removal that raises |
| Screenshot.Removed | bundled/openclaw/skills/windows-control/scripts/screenshot.py:27-30 | the names removed are the doomed ones before the failing removal, or all of them when none fails |
| Screenshot.Folder.RemoveInOrder | bundled/openclaw/skills/windows-control/scripts/screenshot.py:27-30 | the folder loses exactly the removed names, in order, and nothing else |
| Screenshot.Folder.Capture | bundled/openclaw/skills/windows-control/scripts/screenshot.py:12-48 | a failed capture changes nothing and prints the error with exit 1; a failed save leaves the cleaned folder and exits 1; otherwise the cleaned folder gains the new screenshot and the four lines name its path and the screen size |
| HandleDialog.Dialogs | bundled/openclaw/skills/windows-control/scripts/handle_dialog.py:44-85 | the dialogs are exactly the titled windows that look like dialogs (type, class or a title word), in window order |
| HandleDialog.FindDialogs | bundled/openclaw/skills/windows-control/scripts/handle_dialog.py:44-85 | the scanning loop finds exactly those dialogs |
| HandleDialog.DialogTitles | bundled/openclaw/skills/windows-control/scripts/handle_dialog.py:55-67 | an untitled window is never a dialog, whatever its type; a titled `Pane` always is |
| HandleDialog.BucketOf | bundled/openclaw/skills/windows-control/scripts/handle_dialog.py:119-136 | a control goes to buttons only as a named `Button`, to the message only as named `Text`/`Static`, to the fields exactly as `Edit`/`ComboBox`, to the checkboxes exactly as `CheckBox`, to the list items exactly as a named `ListItem` |
| HandleDialog.Content | bundled/openclaw/skills/windows-control/scripts/handle_dialog.py:88-136 | a read dialog keeps its title, places every classified control in exactly one bucket and never fills `dropdowns` |
| HandleDialog.AddControlKinds | bundled/openclaw/skills/windows-control/scripts/handle_dialog.py:119-136 | adding a control keeps each bucket to its own kind |
| HandleDialog.AddControlPrefix | bundled/openclaw/skills/windows-control/scripts/handle_dialog.py:119-128 | adding a control keeps what the buttons and text fields held |
| HandleDialog.ContentKinds | bundled/openclaw/skills/windows-control/scripts/handle_dialog.py:119-136 | every bucket of a read dialog holds only its own kind |
| HandleDialog.ContentReports | bundled/openclaw/skills/windows-control/scripts/handle_dialog.py:119-128 | every named button and every text field of the dialog is reported |
| HandleDialog.ReadDialog | bundled/openclaw/skills/windows-control/scripts/handle_dialog.py:88-145 | the descendants loop computes the dialog contents |
| HandleDialog.PresentKeys | bundled/openclaw/skills/windows-control/scripts/handle_dialog.py:144-145 | for each of `title`, `message`, `buttons`, `text_fields`, `checkboxes`, `dropdowns` and `list_items`: the cleaned-up dictionary keeps the key exactly when its value is not empty |
| HandleDialog.NoDropdownsReported | bundled/openclaw/skills/windows-control/scripts/handle_dialog.py:96-128 | a read dialog never reports `dropdowns`: combo boxes are taken as text fields first |
| HandleDialog.FirstButton | bundled/openclaw/skills/windows-control/scripts/handle_dialog.py:152-157 | the first `Button` in tree order whose name contains the query ignoring case; none exactly when no button matches |
| HandleDialog.FirstButtonFrom | bundled/openclaw/skills/windows-control/scripts/handle_dialog.py:152-157 | the same search from a given position |
| HandleDialog.ClickButton | bundled/openclaw/skills/windows-control/scripts/handle_dialog.py:148-166 | success exactly when the scan reaches a matching button that is enabled and whose click goes through, and then that button is clicked with "Clicked button: name"; a disabled first decisive match reports "Button 'name' is disabled"; no decisive match reports "Button 'q' not found"; a matching button whose click raises is passed over by the `except` |
| HandleDialog.ClickSucceedsFirst | bundled/openclaw/skills/windows-control/scripts/handle_dialog.py:152-162 | the scan succeeds exactly when its first decisive button (a matching button that is disabled or clicks cleanly) exists and is enabled |
| HandleDialog.FirstDecisive | bundled/openclaw/skills/windows-control/scripts/handle_dialog.py:152-162 | the first matching button that is disabled or whose click goes through; none exactly when every matching button is enabled and raises |
| HandleDialog.CleanClicksFirstButton | bundled/openclaw/skills/windows-control/scripts/handle_dialog.py:152-162 | when no click raises, the decisive button is simply the first matching button |
| HandleDialog.RaisingClickSkipped | bundled/openclaw/skills/windows-control/scripts/handle_dialog.py:157-164 | an enabled matching button whose click raises is skipped: the scan goes on from the next control |
| HandleDialog.DisabledFirstMatchBlocks | bundled/openclaw/skills/windows-control/scripts/handle_dialog.py:157-162 | a disabled first match fails the click even when a later matching button is enabled and clicks cleanly |
| HandleDialog.EnabledFields | bundled/openclaw/skills/windows-control/scripts/handle_dialog.py:173-179 | the fields are exactly the enabled `Edit`/`ComboBox` controls, in tree order |
| HandleDialog.TypeInField | bundled/openclaw/skills/windows-control/scripts/handle_dialog.py:169-194 | typing succeeds exactly when there are fields, the index is one Python's list indexing accepts (negative from the end) and typing does not raise, into that field; no field reports "No text fields found in dialog"; a raising type reports "Failed to type: e" |
| HandleDialog.FirstDismiss | bundled/openclaw/skills/windows-control/scripts/handle_dialog.py:199-202 | the first dismiss name whose button click succeeds; none exactly when every click fails |
| HandleDialog.FirstDismissAt | bundled/openclaw/skills/windows-control/scripts/handle_dialog.py:199-202 | the name that dismisses is the first whose click succeeds after all earlier failed |
| HandleDialog.DismissDialog | bundled/openclaw/skills/windows-control/scripts/handle_dialog.py:197-211 | the loop over the dismiss names computes the dismissal of the specification |
| HandleDialog.Dismissed | bundled/openclaw/skills/windows-control/scripts/handle_dialog.py:197-211 | the first name whose click succeeds dismisses with the first enabled decisive button of that name; with none, Escape dismisses exactly when sending it does not raise, else nothing does |
| HandleDialog.OkComesFirst | bundled/openclaw/skills/windows-control/scripts/handle_dialog.py:41-202 | when an "OK" button can be clicked, a dismissal always uses "OK", the first dismiss name |
| HandleDialog.FilteredTarget | bundled/openclaw/skills/windows-control/scripts/handle_dialog.py:246-257 | with a filter the first dialog whose title contains it, else the first dialog |
| HandleDialog.ActionTarget | bundled/openclaw/skills/windows-control/scripts/handle_dialog.py:297-311 | `click` and `type` fall back to the active window only without filter and dialogs, and find no target exactly when a filter matches no dialog |
| HandleDialog.DismissTarget | bundled/openclaw/skills/windows-control/scripts/handle_dialog.py:348-353 | `dismiss` takes the first matching dialog, or the first dialog when none matches |
| HandleDialog.Dismiss | bundled/openclaw/skills/windows-control/scripts/handle_dialog.py:342-357 | no dialogs exits 0 with nothing dismissed; otherwise the chosen dialog is dismissed as specified, and the run exits 1 exactly when neither a button nor Escape dismissed it |
| HandleDialog.ScanForDialog | bundled/openclaw/skills/windows-control/scripts/handle_dialog.py:365-374 | a scan hits exactly when some dialog's title contains the wanted title case-insensitively, or, with no title, when any dialog is open |
| HandleDialog.Wait | bundled/openclaw/skills/windows-control/scripts/handle_dialog.py:359-379 | each scan before the last came in time and showed no wanted dialog; exit 0 exactly when the last scan came in time, and then it showed one |
| ReadWebpage.FirstBrowser | bundled/openclaw/skills/windows-control/scripts/read_webpage.py:26-43 | the first window whose title names one of the seven browsers; none exactly when no title does |
| ReadWebpage.BrowserWindow | bundled/openclaw/skills/windows-control/scripts/read_webpage.py:32-47 | with a hint the first title containing it, else the first browser title |
| ReadWebpage.FindBrowserWindow | bundled/openclaw/skills/windows-control/scripts/read_webpage.py:32-47 | the scanning loop finds exactly that window |
| ReadWebpage.ShownName | bundled/openclaw/skills/windows-control/scripts/read_webpage.py:66-73 | a name of at most 1000 characters is shown whole; a longer one is cut to its first 1000 followed by "..." |
| ReadWebpage.WebElemOf | bundled/openclaw/skills/windows-control/scripts/read_webpage.py:75-111 | an element has a centre exactly when it is a button or a link, and a url exactly when it is a link whose automation id starts with "http", that id |
| ReadWebpage.Scan | bundled/openclaw/skills/windows-control/scripts/read_webpage.py:68-114 | the scan keeps the window title, reports at most one entry per control, and files buttons, inputs and images only under controls of their own types |
| ReadWebpage.ScanGates | bundled/openclaw/skills/windows-control/scripts/read_webpage.py:93-114 | buttons appear only with `--buttons` or `--full`, links only with `--links` or `--full`, inputs and images only with `--full` |
| ReadWebpage.ScanCategorised | bundled/openclaw/skills/windows-control/scripts/read_webpage.py:68-104 | headings all look like headings, texts never do, none is empty, and links are link-typed with names of at most 1003 characters |
| ReadWebpage.ExtractTextsDistinct | bundled/openclaw/skills/windows-control/scripts/read_webpage.py:122-129 | the reported texts are distinct, every text read is reported, in order of first appearance |
| ReadWebpage.ExtractWebpageContent | bundled/openclaw/skills/windows-control/scripts/read_webpage.py:50-132 | the descendants loop and the `seen` loop compute the extracted page |
| ReadWebpage.PresentKeys | bundled/openclaw/skills/windows-control/scripts/read_webpage.py:131-132 | for each of `title`, `text`, `headings`, `buttons`, `links`, `inputs` and `images`: the cleaned-up dictionary keeps the key exactly when its value is not empty |
| ReadWebpage.NoInputsWithoutFull | bundled/openclaw/skills/windows-control/scripts/read_webpage.py:106-132 | without `--full` the result never lists inputs or images |
| ReadWebpage.Run | bundled/openclaw/skills/windows-control/scripts/read_webpage.py:147-163 | no browser window lists the titled windows and exits 1; otherwise the chosen window's content is extracted |
| ReadUiElements.CategoryOf | bundled/openclaw/skills/windows-control/scripts/read_ui_elements.py:67-88 | a kept control lands in the category of its type, by the first test it passes; only a named control is "other" |
| ReadUiElements.ElemOf | bundled/openclaw/skills/windows-control/scripts/read_ui_elements.py:47-83 | a text field's value is the first 100 characters of its name; no other element has one |
| ReadUiElements.Scan | bundled/openclaw/skills/windows-control/scripts/read_ui_elements.py:37-91 | the categories together hold at most one element per control |
| ReadUiElements.ScanKinds | bundled/openclaw/skills/windows-control/scripts/read_ui_elements.py:67-88 | buttons, links and text fields hold only controls of their own types |
| ReadUiElements.ScanCountsKept | bundled/openclaw/skills/windows-control/scripts/read_ui_elements.py:37-91 | every kept control lands in exactly one category and no skipped control in any |
| ReadUiElements.ScanFieldsTruncated | bundled/openclaw/skills/windows-control/scripts/read_ui_elements.py:82-84 | every text field's value is at most 100 characters, a prefix of its name |
| ReadUiElements.Report | bundled/openclaw/skills/windows-control/scripts/read_ui_elements.py:96-103 | `--buttons-only` returns only the buttons whatever else is asked, `--links-only` only the links, otherwise every non-empty category |
| ReadUiElements.GetUiElements | bundled/openclaw/skills/windows-control/scripts/read_ui_elements.py:20-103 | the descendants loop computes that report |
| ReadUiElements.Run | bundled/openclaw/skills/windows-control/scripts/read_ui_elements.py:115-138 | the first window whose title contains the argument is read with exit 0; with none the titled windows are listed and the run exits 1 |
| SkillsScanner.BodyEnd | electron/skills-scanner.ts:78 | the first place after the opening line where a closing `\r?\n---` begins; none exactly when no such place follows |
| SkillsScanner.Yaml | electron/skills-scanner.ts:78-81 | the frontmatter is the text between an opening `---` line and the first closing delimiter after it; content not opening with `---` has none |
| SkillsScanner.SpaceRunEnd | electron/skills-scanner.ts:85 | where a `\s*` run starting at a position ends: only whitespace before it, none at it |
| SkillsScanner.LineEnd | electron/skills-scanner.ts:85 | where `.+$` must stop under the multiline flag: the first line terminator, or the end |
| SkillsScanner.LastNonTerminator | electron/skills-scanner.ts:85 | the last character of a range that `.` can match, if any |
| SkillsScanner.CaptureAfter | electron/skills-scanner.ts:85-88 | what `\s*(.+)$` captures is non-empty and holds no line terminator |
| SkillsScanner.StripQuotes | electron/skills-scanner.ts:87 | one leading and one trailing quote character are removed, nothing else |
| SkillsScanner.FirstKeyLineValue | electron/skills-scanner.ts:85-100 | the field is the value on the first line that starts with `key:`, trimmed and unquoted, when that line holds one |
| SkillsScanner.FirstKeyLineFrom | electron/skills-scanner.ts:85-100 | the same, for the search from a given position |
| SkillsScanner.FirstZeroDepth | electron/skills-scanner.ts:110-118 | the first point after the opening brace where the brace depth is back to zero; none exactly when the depth never returns to zero |
| SkillsScanner.MatchingBrace | electron/skills-scanner.ts:108-118 | the depth-counting loop stops at exactly that point, which holds a closing brace |
| SkillsScanner.MetadataText | electron/skills-scanner.ts:104-121 | the metadata text starts with `{` and has balanced braces |
| SkillsScanner.FrontmatterOf | electron/skills-scanner.ts:72-130 | content without frontmatter yields no fields; otherwise the name is the `name:` field of the frontmatter |
| SkillsScanner.ParseFrontmatter | electron/skills-scanner.ts:72-130 | `parseFrontmatter`, with the brace walk done by the source's loop, computes that frontmatter |
| SkillsScanner.FindRow | electron/skills-scanner.ts:144-258 | a fallback row exists exactly when the table has one for the name, and it is that row |
| SkillsScanner.BaseSkill | electron/skills-scanner.ts:222-230 | a new skill carries the frontmatter's name and the scanned source, and starts disabled, ready and needing no key |
| SkillsScanner.ApplyMeta | electron/skills-scanner.ts:232-255 | the openclaw metadata sets emoji, os, primary env, the key requirement and the binaries, `anyBins` winning over `bins`, and changes nothing else |
| SkillsScanner.ApplyFallback | electron/skills-scanner.ts:257-277 | the fallback row fills only what the metadata left unset, and its envs or `needsConfig` make the skill need a key |
| SkillsScanner.SkillOf | electron/skills-scanner.ts:211-279 | a SKILL.md yields a skill exactly when its frontmatter has a name; the skill is named so and starts disabled and ready |
| SkillsScanner.SkillsInShape | electron/skills-scanner.ts:199-286 | every scanned skill is named, comes from the scanned directory, starts disabled and ready, at most one per entry |
| SkillsScanner.ScanDirectory | electron/skills-scanner.ts:199-286 | the directory loop yields the skills of the entries in order |
| SkillsScanner.MissingBins | electron/skills-scanner.ts:349 | the missing binaries are exactly those the probe does not find, never more than listed |
| SkillsScanner.MissingBinsIsFilter | electron/skills-scanner.ts:349 | the missing binaries are the order-preserving filter of the list by absence |
| SkillsScanner.Resolve | electron/skills-scanner.ts:316-370 | a skill is enabled exactly when ready; it is disabled exactly when the user disabled it, blocked exactly when not disabled and its platform is not listed, missing exactly when neither and a binary or the key is missing, each with its reason; the entry's API key is copied |
| SkillsScanner.ResolveEach | electron/skills-scanner.ts:316-370 | every skill is resolved against its own configuration entry |
| SkillsScanner.ScanOrder | electron/skills-scanner.ts:291-372 | the result lists bundled skills, then local, then workspace ones; every one is named and enabled exactly when ready |
| SkillsScanner.ConcatSource | electron/skills-scanner.ts:313 | the position of a skill in the concatenation decides its source |
| SkillsScanner.Scanner.BinExists | electron/skills-scanner.ts:40-51 | a cached answer is returned unchanged; otherwise the probe's answer is returned and cached |
| SkillsScanner.Scanner.AnyBinExists | electron/skills-scanner.ts:340 | `some(binExists)` answers whether any binary is present, and the cache keeps agreeing with the probe |
| SkillsScanner.Scanner.MissingBinsOf | electron/skills-scanner.ts:349 | `filter(!binExists)` returns the missing binaries, and the cache keeps agreeing with the probe |
| SkillsScanner.Scanner.ResolveAll | electron/skills-scanner.ts:316-370 | the status loop resolves every skill as specified |
| SkillsScanner.Scanner.ScanSkills | electron/skills-scanner.ts:291-373 | `scanSkills` scans bundled, local and (when configured) workspace directories and resolves every skill |
| SkillsScanner.SetUnlessArray | electron/skills-scanner.ts:396-402 | a property set on an object is there afterwards with every other field kept; set on an array it is dropped when the file is written, so the array is unchanged |
| SkillsScanner.SaveSkillsConfig | electron/skills-scanner.ts:386-407 | succeeds exactly when the configuration is an array, or an object whose truthy `skills` and `meta` are objects or arrays; an array configuration is written back unchanged; otherwise `skills.entries` is replaced and `meta.lastTouchedAt` set (a `skills` or `meta` array is kept as it was), every other key at each level kept; `null` or a truthy primitive part fails |
| SkillsScanner.SaveSkillsConfigIdempotent | electron/skills-scanner.ts:386-407 | saving the same entries at the same time again leaves the written file unchanged |
| ClaudeMd.MergeAsWritten | electron/claude-md-generator.ts:253-266 | as written: without both markers the section is put before the text; with both, the text before the first start marker, the section and the text after the first end marker, wherever that lies |
| ClaudeMd.MergeAsWrittenDuplicates | electron/claude-md-generator.ts:253-266 | for markers where the end marker is the shorter, a text holding the end marker before the start marker gains another copy of the section on every merge |
| ClaudeMd.EndFirstStartAfter | electron/claude-md-generator.ts:254-255 | in such a text the end marker is found first and the start marker right after it |
| ClaudeMd.MergeAsWrittenNotIdempotent | electron/claude-md-generator.ts:253-266 | with the generator's own markers, merging a second time lengthens the file by the section |
| ClaudeMd.Merge | electron/claude-md-generator.ts:253-266 | corrected: the text from the first start marker through the first end marker after it is replaced by the section; without such a pair the section goes before the text |
| ClaudeMd.PairFound | electron/claude-md-generator.ts:254-257 | the corrected lookups find a pair exactly when the text has one |
| ClaudeMd.MergeAgreesWhenOrdered | electron/claude-md-generator.ts:253-262 | when the first end marker follows the first start marker, the corrected merge and the merge as written agree |
| ClaudeMd.MergeAgain | electron/claude-md-generator.ts:253-262 | merging a section into a text that already holds it after a marker-free prefix changes nothing |
| ClaudeMd.OpenAtSection | electron/claude-md-generator.ts:254 | the first start marker of such a text is where the section begins |
| ClaudeMd.CloseAtSectionEnd | electron/claude-md-generator.ts:255 | after the section's start marker, the first end marker is the one that ends the section |
| ClaudeMd.MergeIdempotent | electron/claude-md-generator.ts:253-266 | merging the same generated section twice gives the text of merging it once |
| ClaudeMd.ClaudeMdContent | electron/claude-md-generator.ts:283-289 | with the corrected merge: an existing file is merged with the section; a new file holds the section and a newline |
| ClaudeMd.GenerateClaudeMd | electron/claude-md-generator.ts:270-296 | with the corrected merge: nothing is written exactly when the workspace is missing; otherwise the merged or new content |
| ClaudeMd.WorkspacePath | electron/claude-md-generator.ts:163-175 | a configured string workspace with a leading `~` replaced by the home directory; otherwise `openclaw` in the home directory |
| ClaudeMd.RegenerateStable | electron/claude-md-generator.ts:270-296 | with the corrected merge, regenerating with the same section leaves the file as it is, whether the first run created it or merged into it |
| ClaudeMd.MergeAgreesWithoutStart | electron/claude-md-generator.ts:253-266 | on text without a start marker the corrected merge and the merge as written give the same file |
| ClaudeMd.ContentAsWrittenWhenOrdered | electron/claude-md-generator.ts:253-289 | whenever the file has no start marker, or its first end marker follows the start marker, the generated content is what the code as written produces |
| ClaudeMd.ToolRows | electron/claude-md-generator.ts:233-235 | one table row per tool found, in order |
| ClaudeMd.SectionLayout | electron/claude-md-generator.ts:210-248 | the section is 15 header lines opened by the start marker, the tool table only when a tool was found, the skills list only when a skill is ready, and the end marker |
| ClaudeMd.ReadySkillsMembers | electron/claude-md-generator.ts:195 | the ready skills are exactly the skills whose status is ready |
| ClaudeMd.Keys | electron/claude-md-generator.ts:198-203 | the `seen` set holds exactly the lower-cased names visited |
| ClaudeMd.Listed | electron/claude-md-generator.ts:197-204 | no more skills are listed than given, and the first skill is always listed |
| ClaudeMd.ListedFromInput | electron/claude-md-generator.ts:199-204 | every listed skill comes from the input |
| ClaudeMd.ListedDistinct | electron/claude-md-generator.ts:197-204 | no two listed skills share a lower-cased name |
| ClaudeMd.ListedKeepsFirst | electron/claude-md-generator.ts:197-204 | the first skill carrying each lower-cased name is listed |
| ClaudeMd.SkillLines | electron/claude-md-generator.ts:205 | one `- **name**` line per listed name, in order |
| ClaudeMd.ReadySkillLines | electron/claude-md-generator.ts:192-206 | the skills loop lists the ready skills in order, each unless one with the same lower-cased name came before |
| ClaudeMd.ToolTableRows | electron/claude-md-generator.ts:233-235 | the row loop produces one row per tool |
| ClaudeMd.BuildAutoSection | electron/claude-md-generator.ts:179-249 | the section is the layout's lines joined by newlines; it starts with the start marker and ends with the end marker |
| ClaudeMd.WindowsBuildThreshold | electron/claude-md-generator.ts:139-141 | a Windows release `a.b.build` is named Windows 11 exactly when the build is at least 22000 |
| ClaudeMd.OsPrettyName | electron/claude-md-generator.ts:133-159 | Windows: the Windows name, then the release after ") "; macOS: "macOS " and the `sw_vers` version when read, then the architecture in brackets; elsewhere the pretty name, or "Linux", then the architecture in brackets |
| ClaudeMd.FirstLine | electron/claude-md-generator.ts:63 | the first line is a prefix without a newline |
| ClaudeMd.RunEnd | electron/claude-md-generator.ts:64 | the end of a run of digits (and dots): all inside belong to the run, the character after does not |
| ClaudeMd.FindVersion | electron/claude-md-generator.ts:64-65 | the first match of the version pattern: it starts at the first position where the pattern can match and extends over every following digit and dot |
| ClaudeMd.VersionShape | electron/claude-md-generator.ts:64-65 | a found version is digits and dots only, starts with a digit and holds a dot |
| ClaudeMd.MatchShape | electron/claude-md-generator.ts:64 | the text matched at a position where the pattern matches has that shape |
| ClaudeMd.Probe | electron/claude-md-generator.ts:46-73 | a tool restricted to other platforms, or one the locator does not find, is absent; otherwise present |
| ClaudeMd.ToolDetector.DetectTool | electron/claude-md-generator.ts:40-74 | a cached entry answers without running anything; otherwise the tool is probed and its result cached |
| ClaudeMd.ToolDetector.DetectAll | electron/claude-md-generator.ts:185-189 | the detection loop returns the tools found, in table order, and keeps the cache consistent with the probes |
| PairingManager.IsExpired | electron/pairing-manager.ts:24-28 | an unparsable creation time counts as expired; otherwise a request is expired exactly when more than an hour old |
| PairingManager.Live | electron/pairing-manager.ts:43-45 | the live requests are exactly the unexpired ones, as the order-preserving filter of the requests |
| PairingManager.ChannelOf | electron/pairing-manager.ts:40 | the channel is the file name without the `-pairing.json` suffix |
| PairingManager.PairingFiles | electron/pairing-manager.ts:35 | the pairing files are exactly the entries ending in `-pairing.json`, in listing order |
| PairingManager.GroupsSound | electron/pairing-manager.ts:39-52 | every listed group is non-empty, holds only live requests, and comes from a pairing file |
| PairingManager.GroupsComplete | electron/pairing-manager.ts:39-52 | every readable pairing file with a live request is listed with exactly its live requests |
| PairingManager.ListAllChannelPairings | electron/pairing-manager.ts:31-55 | the loop produces one group per pairing file with live requests, in listing order; no directory gives none |
| PairingManager.MatchIndex | electron/pairing-manager.ts:73-75 | `findIndex`: the first live request whose code matches ignoring case, or -1 when none does |
| PairingManager.RemoveAt | electron/pairing-manager.ts:81 | `splice(i, 1)` removes exactly the element at `i` and keeps the others in order |
| PairingManager.ApproveFailsCleanly | electron/pairing-manager.ts:58-76 | approval fails exactly for a missing file, a blank code or no live matching request, and then nothing is written |
| PairingManager.ApproveRemovesFirstMatch | electron/pairing-manager.ts:73-103 | a successful approval removes exactly the first live matching request, keeps the others in order, returns its trimmed id and leaves other channels alone |
| PairingManager.ApproveAllowList | electron/pairing-manager.ts:86-101 | the allow list gains the returned id when non-empty and nothing else, stays free of duplicates, and is rewritten only when the id was new |
| PairingManager.Approve | electron/pairing-manager.ts:58-107 | an approved non-empty id ends up in the channel's allow list, and the allow lists of other channels are untouched |
| PairingManager.OauthDir.ApprovePairingCode | electron/pairing-manager.ts:58-107 | the pairing and allow files become those of the approval, and the approved id is returned |
| DeviceIdentity.PublicKeyRaw | electron/device-identity.ts:39-50 | a DER that is the 12-byte Ed25519 SPKI prefix followed by 32 bytes yields those 32 bytes; any other DER is returned whole |
| DeviceIdentity.RawOfWrapped | electron/device-identity.ts:26-50 | stripping the prefix undoes the SPKI wrapping of any 32-byte key |
| DeviceIdentity.LoadedOrNew | electron/device-identity.ts:63-115 | a stored identity at version 1 with an id, both keys and a public key that parses is kept; otherwise (no file, another version, a missing field, an unparsable key) the generated key pair is used; the id is always the fingerprint of the public key |
| DeviceIdentity.StoredIdIgnored | electron/device-identity.ts:79-86 | a loaded identity's id comes from its key, whatever id the file recorded |
| DeviceIdentity.WrittenIdentityReloads | electron/device-identity.ts:93-114 | writing a fresh identity whose public key parses and loading it back gives the same identity |
| DeviceIdentity.IdentityStore.LoadOrCreateDeviceIdentity | electron/device-identity.ts:61-115 | the cached identity is returned unchanged; otherwise the loaded or new identity; a loadable file is left alone, any other is replaced by the new identity with version 1 and its creation time; either way the result is cached |
| DeviceIdentity.IdentityStore.SignDeviceAuth | electron/device-identity.ts:166-196 | the result carries the identity's id, the nonce, the signing time, the signature of the payload built from them and the raw public key |
| DeviceIdentity.PayloadFields | electron/device-identity.ts:130-142 | the payload has 9 fields with a nonce (version "v2"), else 8 (version "v1") |
| DeviceIdentity.Payload | electron/device-identity.ts:120-144 | the payload starts with its version |
| DeviceIdentity.PayloadSplits | electron/device-identity.ts:130-143 | when no field contains `\|`, splitting the payload on `\|` recovers the fields, the signing time seventh and the nonce last for v2 |
| UpdateChecker.StripV | electron/update-checker.ts:46-168 | `replace(/^v/, '')` removes one leading `v` and nothing else |
| UpdateChecker.NumberOfDigits | electron/update-checker.ts:46 | `Number` of a plain digit string is its decimal value |
| UpdateChecker.IsNewer | electron/update-checker.ts:45-54 | the loop over the first three components, stopping at the first difference, computes whether the remote version is newer |
| UpdateChecker.NotNewerThanItself | electron/update-checker.ts:45-54 | no version is newer than itself |
| UpdateChecker.NewerAsymmetric | electron/update-checker.ts:45-54 | two versions are never each newer than the other |
| UpdateChecker.OnlyThreeComponentsCount | electron/update-checker.ts:49 | versions agreeing on their first three components compare alike against any version |
| UpdateChecker.PrefixAndPaddingIgnored | electron/update-checker.ts:46-51 | a leading `v` and a missing trailing component change nothing: `a.b` and `va.b.0` are not newer than each other |
| UpdateChecker.CustomMirror | electron/update-checker.ts:57-64 | a mirror exactly when the configuration has a non-blank string `updateMirrorUrl`, and then it is trimmed |
| UpdateChecker.WithSlash | electron/update-checker.ts:72 | a mirror prefix always ends in `/`, adding one only when missing |
| UpdateChecker.BuildMirrorUrls | electron/update-checker.ts:67-84 | the list built is the mirror list of the direct URL and the configured custom mirror |
| UpdateChecker.MirrorUrlsLayout | electron/update-checker.ts:67-84 | the custom mirror first, the three built-in mirrors for GitHub URLs, the direct URL always last; every URL ends with the direct URL |
| UpdateChecker.PushEach | electron/update-checker.ts:77-79 | the list grows by each built-in mirror with the URL appended, in order |
| UpdateChecker.FirstInstaller | electron/update-checker.ts:159-161 | the first asset whose name ends in `.exe`, or -1 when none does |
| UpdateChecker.Basename | electron/update-checker.ts:164 | `path.basename` is a separator-free suffix of the path that follows its last separator |
| UpdateChecker.BasenameKeepsExe | electron/update-checker.ts:164-165 | a name ending in `.exe` keeps that ending under `basename` |
| UpdateChecker.ChosenAsset | electron/update-checker.ts:159-162 | the chosen asset is the first `.exe` asset, and it has a download URL |
| UpdateChecker.SelectUpdate | electron/update-checker.ts:155-172 | an update exactly when the tag is non-empty and newer and the first `.exe` asset has a download URL; it carries the tag without `v`, that URL, and a separator-free `.exe` file name |
| UpdateChecker.PlanDownload | electron/update-checker.ts:190-224 | a `Range` header exactly when a partial file exists; failure exactly when the first race fails and there is nothing to retry; resuming exactly on a 206; the total is the kept bytes plus the announced length |
| UpdateChecker.TrackProgress | electron/update-checker.ts:225-261 | one report per chunk, counting from the kept bytes by each chunk's length, never decreasing |
| UpdateChecker.ResumedTotal | electron/update-checker.ts:219-224 | when the server honours the range, the total is the kept bytes plus the announced rest |
| SetupWizard.IsFirstRun | electron/setup-wizard.ts:24-39 | a missing or unparsable configuration is a first run; otherwise a first run exactly when `wizard.lastRunAt` is not truthy |
| SetupWizard.ResolveWorkspace | electron/setup-wizard.ts:172-179 | no usable workspace gives `openclaw` in the home directory; otherwise a leading `~` becomes the home directory before `path.resolve` |
| SetupWizard.Assemble | electron/setup-wizard.ts:202-293 | every section lands under its own key of `openclaw.json`, `channels` only when given |
| SetupWizard.OpenclawConfig | electron/setup-wizard.ts:202-293 | the configuration is an object with hooks and skills sections, and a channels section exactly when there are channels |
| SetupWizard.SectionsPlaced | electron/setup-wizard.ts:202-293 | the wizard, defaults, gateway, provider and skills sections are where the gateway reads them; `channels` is written exactly when non-empty |
| SetupWizard.GatewayDefaults | electron/setup-wizard.ts:195-241 | a zero or missing gateway port falls back to 39527; the auth token is the one given or generated |
| SetupWizard.ProviderDefaults | electron/setup-wizard.ts:198-268 | the API format defaults to `openai-completions`, a base URL is written only when given, and reasoning, context window and token limit default to false, 200000 and 8192 |
| SetupWizard.PrimaryModelAliased | electron/setup-wizard.ts:199-227 | the primary model is `provider/modelId`, aliased to the model's name, in the resolved workspace |
| SetupWizard.SkillEntriesOnlyWhenNonEmpty | electron/setup-wizard.ts:269-278 | `skills.entries` is written exactly when the wizard chose skill settings |
| SetupWizard.WrittenConfigIsNotFirstRun | electron/setup-wizard.ts:24-212 | once the wizard has written its configuration, the next start is not a first run |
| SetupWizard.WizardStamped | electron/setup-wizard.ts:207-208 | the wizard section records its run time exactly when one is given |
| SetupWizard.OpenclawHome.WriteSetupConfig | electron/setup-wizard.ts:189-337 | the result is ok exactly when no filesystem operation the run performs raises, and otherwise carries the error; what ran before the failing operation stays on disk: a failing `openclaw.json` write leaves everything as it was, later failures leave the assembled configuration (given or generated token) in place, both auth-profile files hold the API key only when one is given and their writes came before the failure, and the seed files are written only up to the failing one |
| SetupWizard.OpenclawHome.SeedWorkspace | electron/setup-wizard.ts:318-329 | the loop raises exactly when the failing seed is one it has to write; up to that seed (all of them otherwise) every seed file exists afterwards, a new one with its seed content, an existing file is never overwritten, and nothing else is created |
| SetupWizard.SeedStep | electron/setup-wizard.ts:323-329 | with distinct seed names, seed `i`'s file is present exactly when it was there before the loop, and writing it only where absent extends the seeded prefix by one |
| SetupWizard.StripTrailingSlashes | electron/setup-wizard.ts:354-380 | `replace(/\/+$/, '')` removes exactly the trailing slashes |
| SetupWizard.Take | electron/setup-wizard.ts:376 | `substring(0, n)` keeps a prefix of at most `n` characters, the whole text when it is short enough |
| SetupWizard.ValidateApiKey | electron/setup-wizard.ts:343-410 | valid exactly for a 2xx or 429 answer; 401 and 403 have their own messages, any other status shows at most 200 characters of the body, and a thrown abort or timeout reads as a timeout |
| OllamaManager.LineVerdict | electron/ollama-manager.ts:483-497 | a line settles the pull only when it is non-blank and parses: as ready on `status: "success"`, as failed on a truthy `error`; blank, unparsable and progress lines settle nothing |
| OllamaManager.TerminatedThenTail | electron/ollama-manager.ts:479-481 | the complete lines, each given back its newline, followed by the popped tail reproduce the buffer that was split |
| OllamaManager.ChunkAccounted | electron/ollama-manager.ts:477-481 | after a chunk is appended and split, the lines taken plus the new tail account for every character received, none lost or repeated |
| OllamaManager.CompleteLines | electron/ollama-manager.ts:477-481 | the lines taken from a chunk and its new tail contain no line break |
| OllamaManager.PullStream.ChunkTaken | electron/ollama-manager.ts:477-497 | taking the complete lines of buffer and chunk accounts for every character received, keeps the lines already processed and finds the same first verdict as scanning the new lines |
| OllamaManager.SettlesAt | electron/ollama-manager.ts:482-497 | the first settling line after unsettling ones gives the verdict of the whole stream of lines |
| OllamaManager.NotSettledThrough | electron/ollama-manager.ts:483 | a blank or non-settling line leaves an unsettled prefix unsettled |
| OllamaManager.PullStream.OnData | electron/ollama-manager.ts:464-510 | with a failed status the chunk only grows the error body; once settled nothing changes; otherwise every character received is either in a processed line or in the tail, the tail holds no newline, processed lines only grow, and the settled verdict is that of the first settling line |
| OllamaManager.PullStream.SettleOnFirst | electron/ollama-manager.ts:482-509 | taking lines in order settles on the first settling line and touches nothing else |
| OllamaManager.PullStream.OnEnd | electron/ollama-manager.ts:465-536 | a failed status rejects with the body, or `HTTP <status>` for an empty body; an unsettled stream settles on its tail's verdict, and is ready otherwise; a settled one keeps its verdict |
| OllamaManager.PullStream.OnError | electron/ollama-manager.ts:538-553 | a request or response error settles the pull as broken unless it is already settled |
| OllamaManager.EndedStreamVerdict | electron/ollama-manager.ts:476-536 | a stream that ends normally is ready unless a line, the tail included, carried an error before any success line, and failed exactly in that case |
| OllamaManager.DownloadFirstWorking | electron/ollama-manager.ts:331-346 | the mirrors are tried in order and trying stops at the first success; the install fails only when every mirror failed, with the last mirror's error after the fixed prefix |
| OllamaManager.RenameWithRetry | electron/ollama-manager.ts:832-856 | at most `retries` renames, every retried failure was EPERM; a rename that succeeds ends it; a non-EPERM error or a failed last attempt falls back to copy-then-delete, whose error is the result |
| OllamaManager.Fallback | electron/ollama-manager.ts:848-855 | the fallback never reports a rename and keeps the number of attempts made |
| OllamaManager.DisplayName | electron/ollama-manager.ts:580-581 | the name of the first catalogue entry with the model's id, and the id itself when no entry has it |
| OllamaManager.Child | electron/ollama-manager.ts:585-587 | a missing or falsy key takes the default object, an object child keeps its fields, and a truthy non-object child is the case in which the source cannot set a property |
| OllamaManager.ApplyModelSets | electron/ollama-manager.ts:570-627 | on an object configuration `applyModel` replaces exactly the `agents`, `models`, `auth`, `meta` and `hooks` sections and keeps every other top-level key unchanged; an array configuration is written back as it was |
| OllamaManager.AgentsSetPrimary | electron/ollama-manager.ts:584-592 | the primary model becomes `ollama/<id>` and that key is aliased to the display name |
| OllamaManager.ProviderListsModel | electron/ollama-manager.ts:594-608 | `models.providers.ollama` describes just the chosen model, with reasoning exactly when its id contains `r1`, a 32768-token context and 8192 output tokens |
| OllamaManager.HooksDisableSessionMemory | electron/ollama-manager.ts:621-625 | the `session-memory` hook is disabled and every other internal hook entry is kept |
| OllamaManager.ApplyModelIdempotent | electron/ollama-manager.ts:570-627 | applying the same model twice at the same moment writes what applying it once did |
| OllamaManager.AuthProfilesWith | electron/ollama-manager.ts:630-642 | a missing or unparsable file starts from an empty profile set; a parsed array is written back as it was, since `JSON.stringify` drops the property set on it; the source fails exactly for a parsed file that is neither an object nor an array; otherwise the result is an object whose `profiles` holds `ollama:default` or is a kept array |
| OllamaManager.ApplyToConfig | electron/ollama-manager.ts:570-627 | `applyModel` goes on exactly when the configuration is an array, which is written back unchanged, or an object whose sections can be set, which stays an object and keeps every key it does not touch |
| OllamaManager.OllamaHome.ApplyModel | electron/ollama-manager.ts:570-649 | an unparsable configuration, or one the source cannot set properties on, writes nothing; otherwise `openclaw.json` is the applied configuration (an array comes back unchanged), then the auth profiles get the Ollama profile and the agent copy is identical to them; the call succeeds exactly when the auth file can be written too |
| OllamaManager.GpuOf | electron/ollama-manager.ts:680-689 | a CSV line names a GPU only with at least three fields, a trimmed name other than blank or the `Name` header, and a positive RAM parsed from the second field |
| OllamaManager.FirstGpu | electron/ollama-manager.ts:678-690 | no GPU exactly when no line describes one; otherwise the GPU of the first line that does |
| OllamaManager.BlankLineNoGpu | electron/ollama-manager.ts:678 | blank lines, which the source filters out, never name a GPU |
| OllamaManager.DetectGpu | electron/ollama-manager.ts:678-690 | the loop's result is the GPU of the first line that names one |
| OllamaManager.GpuDetection | electron/ollama-manager.ts:678-690 | no GPU exactly when no line names one; otherwise the first such line's GPU, with a usable name and positive RAM |
| GatewayManager.FindEntryScript | electron/gateway-manager.ts:278-293 | the first of `dist/entry.js`, `dist/index.js` and `openclaw.mjs` that exists, an earlier one always preferred; the missing-entry error exactly when none exists |
| GatewayManager.FailureReason | electron/gateway-manager.ts:326-343 | a status other than 200 is reported as "HTTP " and the status; a request error by its message |
| GatewayManager.WarnsAt | electron/gateway-manager.ts:351 | the first two failures and every fifth are logged as warnings (1, 2, 5, 10, 15), the others (3, 4, 6-9, 11) are not |
| GatewayManager.GatewaySupervisor.StartHealthCheck | electron/gateway-manager.ts:295-307 | starting the health check resets the consecutive-failure count and changes nothing else |
| GatewayManager.GatewaySupervisor.Start | electron/gateway-manager.ts:42-71 | a ready or starting gateway is left alone; otherwise a gateway already on the port is adopted as external and ready, a found entry script is spawned and the state is `starting`, and a missing one makes the state `error`; the health check starts from zero in the first two cases |
| GatewayManager.GatewaySupervisor.Stop | electron/gateway-manager.ts:73-125 | stopping always stops the health check; an external gateway is only forgotten; without a process, or when the kill throws, the state is `stopped`; otherwise the process is asked to exit and the stop waits for it |
| GatewayManager.GatewaySupervisor.OnProcessExit | electron/gateway-manager.ts:107-114 | the process is gone afterwards; an unexpected exit while not stopping is an error; an exit the stop waited for completes it as `stopped`, or, when a restart is pending, goes on with `start`: adopted as an external ready gateway, spawned and `starting`, or an error when no entry script exists |
| GatewayManager.GatewaySupervisor.OnProcessError | electron/gateway-manager.ts:271-275 | a process error event puts the gateway in `error` and forgets the process, changing nothing else |
| GatewayManager.GatewaySupervisor.Restart | electron/gateway-manager.ts:127-132 | a restart stops the gateway and then starts it again: while an owned process must still exit the state is `restarting` and the start waits for the exit; otherwise the start runs at once, ending adopted and ready, spawned and `starting`, or in error without an entry script |
| GatewayManager.GatewaySupervisor.OnHealthCheckFailed | electron/gateway-manager.ts:347-364 | one more consecutive failure, warned exactly for the first two and every fifth; from the fifth, while not stopping, an external gateway becomes `error` and an owned one is restarted, with the outcomes of Restart |
| GatewayManager.GatewaySupervisor.PerformHealthCheck | electron/gateway-manager.ts:319-364 | nothing happens while stopping; a 200 clears the failure count and makes the gateway ready; any other status or a request error is one failure with its reason, and a timeout is two: `超时` from the `timeout` handler, then "socket hang up" from the `error` event of the request it destroyed; with no reset between them both are warned as OnHealthCheckFailed warns and counted, an external gateway is in error once the count reaches five, and an owned one restarts at the failure that reaches five, with the restart's outcomes stated also when the first of a timeout's two failures already restarts it |
| GatewayManager.FiveFailuresEndExternal | electron/gateway-manager.ts:326-358 | an external gateway survives four HTTP 503 answers in a row and is in error after the fifth |
| GatewayManager.ThirdTimeoutEndsExternal | electron/gateway-manager.ts:337-358 | each timeout counts twice, so after two timeouts in a row an external gateway is still ready with four failures counted, and the third timeout puts it in error |
| GatewayManager.FiveFailuresRestartOwned | electron/gateway-manager.ts:127-132 | an owned gateway whose fifth check in a row answers HTTP 503 is `restarting`, and once its process exits it is spawned again and `starting` |
| GatewayManager.ThirdTimeoutRestartsOwned | electron/gateway-manager.ts:337-364 | an owned gateway is still `starting` after two timeouts in a row and `restarting` after the third, whose hang-up report finds the stop under way and only counts (six failures) |
| GatewayProtocol.Grow | src/lib/gateway-protocol.ts:179 | one backoff step never exceeds 15 s and never shrinks a delay within the range |
| GatewayProtocol.Backoff | src/lib/gateway-protocol.ts:73-179 | the delay before the first reconnect is 800 ms, and every delay lies between 800 ms and 15 s |
| GatewayProtocol.BackoffBounded | src/lib/gateway-protocol.ts:73-179 | reconnect delays after any number of failures start at 800 ms, never shrink and never exceed 15 s |
| GatewayProtocol.BackoffReachesCap | src/lib/gateway-protocol.ts:73-179 | five growth steps stay below the 15 s cap and six reach it |
| GatewayProtocol.DrainedFrames | src/lib/gateway-protocol.ts:197-201 | draining sends one request frame per queued request, in queue order, each under the next generated id |
| GatewayProtocol.DrainStep | src/lib/gateway-protocol.ts:199-200 | draining one more request appends its frame and registers its caller under its id |
| GatewayProtocol.RegisteredHolds | src/lib/gateway-protocol.ts:199-344 | a drained request's caller is pending under its id unless a later drained request drew the same id |
| GatewayProtocol.RegisteredKeeps | src/lib/gateway-protocol.ts:199-344 | pending entries under ids no drained request drew are kept unchanged |
| GatewayProtocol.RejectTickets | src/lib/gateway-protocol.ts:183-195 | every given caller is rejected with the message and every other settlement is kept |
| GatewayProtocol.RejectQueue | src/lib/gateway-protocol.ts:190-195 | flushing the queue settles every queued request and keeps every earlier outcome |
| GatewayProtocol.RejectQueueSettles | src/lib/gateway-protocol.ts:190-195 | rejecting the queue settles exactly the queued callers as rejected, leaving every other settlement as it was |
| GatewayProtocol.Flush | src/lib/gateway-protocol.ts:183-195 | every pending and queued caller is rejected with the message, both are emptied, no other settlement changes and nothing is sent |
| GatewayProtocol.Settlement | src/lib/gateway-protocol.ts:320-324 | a response resolves its caller with the payload exactly when `ok`, and rejects it with the error message, or `request failed` without one |
| GatewayProtocol.CloseMessage | src/lib/gateway-protocol.ts:148 | the close error reads `closed (<code>): <reason>` |
| GatewayProtocol.ClientIdentity | src/lib/gateway-protocol.ts:218-248 | the client id defaults to `cli`, the version to `1.0.0`, and the mode is always `cli` |
| GatewayProtocol.DeviceAuth | src/lib/gateway-protocol.ts:224-238 | a device signature is sent exactly when there is a signer and a non-empty token and signing succeeded |
| GatewayProtocol.AuthBlock | src/lib/gateway-protocol.ts:252 | the auth block is present exactly when the token is non-empty |
| GatewayProtocol.ConnectObject | src/lib/gateway-protocol.ts:240-255 | the parameters name protocol 3 as both minimum and maximum and carry the client, auth and device as given, an absent one left out |
| GatewayProtocol.ConnectParams | src/lib/gateway-protocol.ts:218-255 | `connect` asks for protocol 3 only with the client identity, carries auth exactly when there is a non-empty token, and the device signature exactly when one was produced |
| GatewayProtocol.GatewayClient.ScheduleReconnect | src/lib/gateway-protocol.ts:176-181 | unless closed, the reconnect waits the current backoff and the backoff grows; a closed client changes nothing |
| GatewayProtocol.GatewayClient.DoConnect | src/lib/gateway-protocol.ts:123-158 | unless closed, the handshake restarts on a new connecting socket, or a reconnect is scheduled when the socket cannot be constructed |
| GatewayProtocol.GatewayClient.Start | src/lib/gateway-protocol.ts:100-103 | the client is reopened and connecting, or waiting to reconnect |
| GatewayProtocol.GatewayClient.OnOpen | src/lib/gateway-protocol.ts:135-174 | an opened socket clears the nonce and the connect-sent flag and arms the 750 ms fallback |
| GatewayProtocol.GatewayClient.Send | src/lib/gateway-protocol.ts:338-347 | without an open socket the caller is rejected with `not connected`; otherwise exactly one pending entry is registered under a fresh id and its frame is sent |
| GatewayProtocol.GatewayClient.Dispatch | src/lib/gateway-protocol.ts:328-348 | a non-`connect` request on an open socket before the handshake is queued; otherwise it is sent, or rejected without a socket |
| GatewayProtocol.GatewayClient.Request | src/lib/gateway-protocol.ts:328-348 | each call gets a new caller, which is queued, rejected or sent as `Dispatch` states, with nothing else changed |
| GatewayProtocol.GatewayClient.SendConnect | src/lib/gateway-protocol.ts:204-269 | `connect` is requested at most once per opening, with the parameters `ConnectParams` describes, and the fallback timer is disarmed; on a socket that is not open the request is rejected `not connected`, the handshake is marked failed and the socket is closed |
| GatewayProtocol.GatewayClient.DrainQueue | src/lib/gateway-protocol.ts:197-202 | the queue is emptied; on an open socket its requests are sent in order and registered, otherwise each is rejected with `not connected` |
| GatewayProtocol.GatewayClient.SendAll | src/lib/gateway-protocol.ts:199-201 | the loop sends the queued requests' frames in order under fresh ids and registers each |
| GatewayProtocol.GatewayClient.RejectAll | src/lib/gateway-protocol.ts:199-340 | with no open socket the loop rejects each queued request with `not connected` and changes nothing else |
| GatewayProtocol.GatewayClient.OnHello | src/lib/gateway-protocol.ts:258-264 | a successful handshake resets the backoff to 800 ms, marks the client connected and drains the queue in order onto an open socket; on a socket that is not open every queued request is rejected "not connected" |
| GatewayProtocol.GatewayClient.OnHandshakeFailed | src/lib/gateway-protocol.ts:265-269 | a failed handshake leaves the client unconnected and closes its socket |
| GatewayProtocol.GatewayClient.HandleMessage | src/lib/gateway-protocol.ts:272-326 | unparsable and unknown frames change nothing; a challenge records a non-empty nonce and, unless connect was already sent, sends one connect frame leaving the queue alone (on a socket that is not open, rejects it, marks the handshake failed and closes the socket); other events are delivered in order; a response settles and removes only its pending entry and unknown ids change nothing; the connect response, when ok, completes the handshake, resets the backoff and drains the queue (rejecting it on a closed socket), and otherwise fails the handshake and closes the socket |
| GatewayProtocol.GatewayClient.OnClose | src/lib/gateway-protocol.ts:145-153 | a close drops the socket, rejects every pending and queued caller with the close message and schedules a reconnect |
| GatewayProtocol.GatewayClient.Stop | src/lib/gateway-protocol.ts:105-121 | stopping closes the client for good, clears both timers, drops the socket and rejects every pending and queued caller with `client stopped` |
| ChatStream.StringBlocksConcatenate | src/hooks/useWebSocket.ts:32-41 | an array of string blocks yields exactly those strings joined in order with no separator |
| ChatStream.BlocksText | src/hooks/useWebSocket.ts:34-40 | one block gives its own text, and blocks that each render as nothing give the empty text |
| ChatStream.ExtractText | src/hooks/useWebSocket.ts:27-44 | a non-object message or one without `content` has no text, and a string `content` is the text as it is |
| ChatStream.BlankBlockIgnored | src/hooks/useWebSocket.ts:34-40 | a block that renders as nothing (a number, `null`, an object without `text`) leaves the joined text unchanged wherever it sits |
| ChatStream.RunId | src/hooks/useWebSocket.ts:96 | a non-empty string `runId` names the run; otherwise the run gets a generated id |
| ChatStream.ErrorText | src/hooks/useWebSocket.ts:135 | an error message is never empty: a falsy `errorMessage` is replaced by the fallback text |
| ChatStream.ChatStream.HandleEvent | src/hooks/useWebSocket.ts:86-160 | only `chat` events with an object payload act; a non-empty delta replaces the run's buffer and streams it; `final` delivers the message's text or else the buffered text; `error` delivers the error text; `aborted` delivers the buffer or the interrupted marker; those three drop the buffer; buffers never hold empty text |
| ChatStream.ChatStream.SendMessage | src/hooks/useWebSocket.ts:162-188 | nothing is requested without a connected client; otherwise `chat.send` is requested with a fresh idempotency key, and a failed request delivers one error message under that key |
| ChatStream.ChatSendParams | src/hooks/useWebSocket.ts:171-176 | `chat.send` carries the session, the message text, `deliver: false` and the idempotency key |
| ChatStream.DeltaThenEmptyFinal | src/hooks/useWebSocket.ts:101-133 | a delta followed by a `final` without text delivers the streamed text twice, streaming then done, and leaves no buffer behind |
| GatewayHook.AppendLog | src/hooks/useGateway.ts:42-44 | the new line comes last after at most the 200 newest earlier lines, in order; shorter lists only grow |
| GatewayHook.Replay | src/hooks/useGateway.ts:42-44 | after any run of log lines the list holds the newest 201 (all when fewer) and ends with the last line |
| GatewayHook.ReplayKeepsNewest | src/hooks/useGateway.ts:42-44 | after any run of log events the list holds exactly the newest 201 lines in arrival order, or all of them when fewer arrived |
| GatewayHook.OnStateChanged | src/hooks/useGateway.ts:32-39 | the state follows the event; only `ready` takes the token and port afresh; the logs are untouched |
| GatewayHook.StateFollowsEvents | src/hooks/useGateway.ts:32-39 | after a run of state events the view shows the last state, with the token and port fetched at the last `ready`, or the old ones when none came |
| GatewayHook.OnLog | src/hooks/useGateway.ts:42-44 | a log event changes only the log list, which becomes the previous list with the new line appended and its oldest lines beyond 201 dropped |
| GatewayHook.OnLogsKeepNewest | src/hooks/useGateway.ts:42-44 | from an empty list, log events leave exactly the newest 201 lines in arrival order and touch nothing else |
| GatewayHook.Mount | src/hooks/useGateway.ts:20-30 | after mounting, the view shows the reported state, the fetched token and the port answer that arrived last |
| GatewayHook.Start | src/hooks/useGateway.ts:52-61 | `start` shows the freshly fetched token and port, and asks the gateway to start only after both fetches |
| AppSessions.FindMessage | src/App.tsx:105 | the index of the first message with the id, and -1 exactly when no message has it |
| AppSessions.Upsert | src/App.tsx:102-117 | a streamed message replaces the first message with its id in place, keeping every other message and the length, or is appended when none has that id |
| AppSessions.UpsertLastWins | src/App.tsx:102-117 | a later chunk of a run overwrites the earlier one, and ids stay distinct when they were |
| AppSessions.OnStream | src/App.tsx:91-120 | a message arriving with no active session is dropped; otherwise only the active session changes: its title and creation time stay, its messages become the upsert of the message (replacing one with the same id, else appended), and its update time is now; the list keeps its order |
| AppSessions.OnTimeout | src/App.tsx:40-62 | when the timer fires, the session active at arming gets the timeout error message appended and every other session is unchanged; with none active nothing happens |
| AppSessions.AutoCreatedSendMissesTimeout | src/App.tsx:40-62 | as written: a send that creates its session arms the timer with the stale (empty) active session, so the timeout adds no error message to that session |
| AppSessions.TimeoutReachesSentSession | src/App.tsx:40-201 | with the timer given the session the send went to, the timeout appends the assistant timeout error after the user's message in that session |
| AppSessions.TitlePrefix | src/App.tsx:186 | the title is the first 30 characters of the message, the whole message when it is shorter |
| AppSessions.NewTitle | src/App.tsx:154 | a session created by sending is titled by its first message's first 30 characters, or the untitled title for an empty message; never empty |
| AppSessions.HandleSend | src/App.tsx:148-201 | with no active session a new session holding just the user message is put first and made active and used as the session key; otherwise the message is appended to the active session, which takes its title from it only when it was empty |
| AppSessions.CreateSession | src/App.tsx:126-136 | a new empty untitled session goes first and becomes active; the others follow unchanged |
| AppSessions.Without | src/App.tsx:140 | the sessions with other ids, all of them kept, and no session with the id |
| AppSessions.WithoutIsFilter | src/App.tsx:140 | deleting is `filter` itself: exactly the sessions with other ids, in their original order |
| AppSessions.FirstOther | src/App.tsx:142 | the id of the first session not being deleted, none when no other session remains |
| AppSessions.DeleteSession | src/App.tsx:138-146 | every session with the id is removed; deleting the active one activates the first remaining session when there was more than one, and none otherwise |
| AppSessions.UpdatesKeepActiveValid | src/App.tsx:40-146 | every update keeps the active id naming a session in the list, or none |
| AppSessions.CreateThenDelete | src/App.tsx:126-146 | creating a session and deleting it straight away restores the list, with its first session active |
| AppSessions.SendThenReply | src/App.tsx:91-201 | sending into an empty view and then streaming a reply leaves one active session holding the user message then the reply |
| AppSessions.StepIndex | src/App.tsx:19-247 | the step's position in the setup bar, -1 exactly when the bar does not list it |
| AppSessions.ProgressMarks | src/App.tsx:247-262 | the dots before the current step are done, the current one is active and the later ones unmarked; a step the bar does not list marks nothing |
| SetupHook.ToHex | src/hooks/useSetup.ts:142 | `toString(16)` gives at least one character, each a lowercase hex digit |
| SetupHook.PadStart | src/hooks/useSetup.ts:142 | `padStart` keeps the text as the end of the result and fills up to the width with the pad character, never shortening |
| SetupHook.PaddedHexDigits | src/hooks/useSetup.ts:142 | a number below 256, written in hex and padded to two places, is its high digit then its low digit |
| SetupHook.ByteHex | src/hooks/useSetup.ts:142 | every byte is written as exactly its two hex digits, high then low |
| SetupHook.Token | src/hooks/useSetup.ts:139-144 | the token has two characters per random byte |
| SetupHook.TokenRoundTrip | src/hooks/useSetup.ts:136-144 | the token for 24 bytes is 48 lowercase hex characters and decodes back to exactly those bytes |
| SetupHook.Decode | src/hooks/useSetup.ts:139-144 | reading a hex token back gives one byte per two characters |
| SetupHook.InitialConfig | src/hooks/useSetup.ts:174-177 | the hook starts with only the default port 39527 and a token that decodes to its random bytes |
| SetupHook.WithDefaultWorkspace | src/hooks/useSetup.ts:189 | a set workspace is kept, an unset or null one takes the default, and nothing else changes |
| SetupHook.Merge | src/hooks/useSetup.ts:198-200 | an update's keys take its values, every other key keeps its old value, and no key is lost |
| SetupHook.MergeLaterWins | src/hooks/useSetup.ts:198-200 | the same update twice equals it once, and a later update covering an earlier one's keys overrides it |
| SetupHook.MissingFrom | src/hooks/useSetup.ts:208-213 | the labels listed are those of the unset or falsy fields, in field order, one per such field |
| SetupHook.MissingAt | src/hooks/useSetup.ts:208-213 | the positions of exactly the unset or falsy fields, increasing |
| SetupHook.MissingFromMembers | src/hooks/useSetup.ts:208-213 | with distinct labels, a field's label is listed exactly when the field is unset or falsy |
| SetupHook.Missing | src/hooks/useSetup.ts:208-213 | each required field's label is listed exactly when that field is unset or falsy, so nothing is missing exactly when provider, model id, model name and API key are all filled |
| SetupHook.MissingInOrder | src/hooks/useSetup.ts:208-213 | the missing labels follow the order provider, model id, model name, API key |
| SetupHook.NothingFilledListsAll | src/hooks/useSetup.ts:209-213 | with nothing filled in, all four labels are listed in the fixed order |
| SetupHook.IncompleteMessage | src/hooks/useSetup.ts:214 | the message starts with the incomplete-configuration prefix |
| SetupHook.ProviderModelKey | src/hooks/useSetup.ts:218 | the model key is `provider/modelId` |
| SetupHook.SavePayload | src/hooks/useSetup.ts:221-240 | the payload carries exactly the set setup fields, unchanged, plus the model key and the saving time |
| SetupHook.SetupState.Load | src/hooks/useSetup.ts:183-196 | loading always ends; a failed first-run query means not a first run with the configuration untouched; otherwise the answer is kept and the workspace defaults to the main process's default, or the fallback path when that query failed |
| SetupHook.SetupState.SetStep | src/hooks/useSetup.ts:173-274 | the wizard shows the step it was given |
| SetupHook.SetupState.UpdateConfig | src/hooks/useSetup.ts:198-200 | the configuration becomes the merge of the old one with the update |
| SetupHook.SetupState.ClearError | src/hooks/useSetup.ts:261-263 | the save error is cleared |
| SetupHook.SetupState.SaveConfig | src/hooks/useSetup.ts:202-255 | an incomplete configuration is not sent and the error lists what is missing; otherwise the payload is sent and the answer is the main process's `ok`, a failure showing its error or the fallback text, and a thrown error the prefixed message; saving always ends |
| SetupHook.SaveWithoutKey | src/hooks/useSetup.ts:208-215 | a wizard with provider and model chosen but no API key cannot save, and the error names exactly the API key |
| I18n.NoPathThroughLeaf | src/lib/i18n.ts:33-39 | a key that reaches a message cannot be extended: one more segment meets a non-object and the key is returned as it is |
| I18n.Member | src/lib/i18n.ts:33-35 | an object is indexed by key, an array by its decimal index or by "length" |
| I18n.Resolve | src/lib/i18n.ts:29-43 | with no segments left, the value itself when it is a string and nothing otherwise; with segments left, a string is found only inside an object or array |
| I18n.ApplyParams | src/lib/i18n.ts:45-50 | no parameters leave the text as it is; one parameter replaces every `{name}` with its value |
| I18n.Translate | src/lib/i18n.ts:29-53 | a key that does not resolve to a string comes back as itself; without parameters the text it resolves to |
| I18n.SectionDoesNotResolve | src/lib/i18n.ts:41-43 | a key that stops at a section rather than a message does not resolve |
| I18n.Placeholder | src/lib/i18n.ts:47 | a parameter's placeholder is its name in braces |
| I18n.ApplyParamsInOrder | src/lib/i18n.ts:45-50 | parameters are filled one after another in entry order, and a message without their placeholders is unchanged |
| I18n.KeyFollowsSegments | src/lib/i18n.ts:29-53 | a dotted key translates by following its segments; a key that does not reach a message comes back as it is, and a reached message is filled when parameters are given |
| I18n.Translator.SetLocale | src/lib/i18n.ts:19-23 | the locale switches exactly when indexing the table with it gives a truthy value: a truthy table of its own, or a name inherited from `Object.prototype` (`constructor`, `__proto__`, `toString`, ...) that the table does not hold; otherwise it is kept |
| I18n.Translator.GetLocale | src/lib/i18n.ts:25-27 | the current locale: one with a translation table, or an inherited name that `setLocale` accepted |
| I18n.Translator.T | src/lib/i18n.ts:29-53 | the loop's result is the translation of the key in the current locale's table; under an inherited name, whose value holds no strings, the key itself |
| I18n.UnknownLocaleIgnored | src/lib/i18n.ts:13-23 | with only `zh-CN` in the table, asking for another locale keeps `zh-CN`, unless it is an inherited name, which is taken |
| I18n.InheritedLocaleKeepsKeys | src/lib/i18n.ts:13-53 | `setLocale('constructor')` is accepted, `getLocale` then returns `constructor`, and `t` returns every key as it is |
| I18n.FillOnly | src/lib/i18n.ts:45-50 | a message that is just a placeholder becomes the parameter's value |
| I18n.GreetingFilled | src/lib/i18n.ts:29-53 | a message reached through its section has its placeholder filled |
| CronManager.EmptyForm | src/components/Settings/CronManager.tsx:31-41 | a new form is a cron schedule in `Asia/Shanghai`, woken in the main session, enabled, with every text field empty |
| CronManager.JobToForm | src/components/Settings/CronManager.tsx:43-53 | editing shows the job's fields, the default zone and wake mode when unset, and its text, else its message, else nothing |
| CronManager.FormToJobData | src/components/Settings/CronManager.tsx:55-70 | the zone is saved exactly for cron schedules, the message becomes a text payload, and the other fields are saved as entered |
| CronManager.FormRoundTrip | src/components/Settings/CronManager.tsx:43-70 | editing a saved job shows the form it was saved from, except that a non-cron job comes back with the default zone |
| CronManager.SaveForm | src/components/Settings/CronManager.tsx:89-92 | a form is saved exactly when neither its name nor its schedule is blank after trimming |
| CronManager.EmptyFormNotSaved | src/components/Settings/CronManager.tsx:31-92 | a new form cannot be saved until a name and a schedule are filled in |
| CronManager.ClickDelete | src/components/Settings/CronManager.tsx:218-225 | a click on a disarmed card arms the confirmation; a click on an armed card deletes the job and disarms it |
| CronManager.TwoClicksDelete | src/components/Settings/CronManager.tsx:216-225 | two clicks from a disarmed card delete the job exactly once and leave the card disarmed |
| CronManager.OnAdd | src/components/Settings/CronManager.tsx:302-305 | adding opens the form with no job being edited |
| CronManager.OnEdit | src/components/Settings/CronManager.tsx:307-310 | editing opens the form on the chosen job |
| CronManager.InitialForm | src/components/Settings/CronManager.tsx:81-83 | the form starts from the edited job's fields, or empty for a new job |
| CronManager.SaveRequestFor | src/components/Settings/CronManager.tsx:312-318 | saving updates the edited job, or adds a new one when none is edited |
| CronManager.AfterSave | src/components/Settings/CronManager.tsx:319-322 | the form closes and forgets the edited job only when the gateway accepted the save; a failure changes nothing |
| CronManager.RetryAfterFailure | src/components/Settings/CronManager.tsx:302-323 | a failed save of a new job keeps the form open and still adds on retry; a successful retry closes it |
| SkillSettings.Keep | src/components/Settings/SkillSettings.tsx:39-47 | `filter` keeps exactly the skills the predicate accepts, never more than it was given |
| SkillSettings.Matches | src/components/Settings/SkillSettings.tsx:39-43 | the empty search matches every skill; otherwise a skill matches exactly when its name or description contains the search ignoring case |
| SkillSettings.KeepAppend | src/components/Settings/SkillSettings.tsx:39-47 | filtering distributes over concatenation, so the kept skills stay in their order |
| SkillSettings.Filtered | src/components/Settings/SkillSettings.tsx:39-43 | an empty search shows every skill; otherwise exactly the skills whose name or description contains the search, ignoring case |
| SkillSettings.KeepAll | src/components/Settings/SkillSettings.tsx:39-40 | a filter that accepts everything keeps the whole list |
| SkillSettings.Group | src/components/Settings/SkillSettings.tsx:46-47 | one source's group holds its shown skills in order, and is dropped when it would be empty |
| SkillSettings.Grouped | src/components/Settings/SkillSettings.tsx:15-47 | the groups come bundled, then local, then workspace, none empty, each holding exactly its source's shown skills in order |
| SkillSettings.GroupedShowsEverySource | src/components/Settings/SkillSettings.tsx:45-47 | a source has a group exactly when one of its skills is shown |
| SkillSettings.GroupsPartition | src/components/Settings/SkillSettings.tsx:45-47 | the group sizes add up to the number of shown skills, so each shown skill is in exactly one group |
| SkillSettings.Toggle | src/components/Settings/SkillSettings.tsx:49-54 | the skills with the name flip their switch and nothing else about them; every other skill is unchanged |
| SkillSettings.ToggleTwice | src/components/Settings/SkillSettings.tsx:49-54 | toggling a skill twice restores the list |
| SkillSettings.SetApiKey | src/components/Settings/SkillSettings.tsx:56-61 | the skills with the name take the typed key and nothing else changes |
| SkillSettings.ApiKeyLaterWins | src/components/Settings/SkillSettings.tsx:56-61 | of two keys typed for a skill the later is kept |
| SkillSettings.EntryFor | src/components/Settings/SkillSettings.tsx:69-70 | a skill's saved entry has its switch, and its key exactly when the key is non-empty |
| SkillSettings.ConfigOf | src/components/Settings/SkillSettings.tsx:67-71 | the last skill's name maps to its entry in the configuration sent |
| SkillSettings.ConfigOfEntries | src/components/Settings/SkillSettings.tsx:67-71 | the saved configuration has one entry per skill name, and with distinct names each skill's entry is its own |
| SkillSettings.BuildConfig | src/components/Settings/SkillSettings.tsx:67-71 | the loop builds the configuration `ConfigOf` describes |
| SkillSettings.SaveStatus | src/components/Settings/SkillSettings.tsx:72-82 | the gateway restart is requested exactly when the save was answered `ok`; the page closes, with the success line, exactly when that restart also resolves; a refused save shows its error or `保存失败`; a save that throws, or a restart that rejects, leaves `保存技能配置时出错` |
| SkillSettings.StatusLabel | src/components/Settings/SkillSettings.tsx:98-106 | a missing skill shows its reason or `缺失`; any other status shows one of the three fixed labels |
| ChannelSettings.Existing | src/components/Settings/ChannelSettings.tsx:56 | the channel's saved fields, or none when it has no entry |
| ChannelSettings.IsEnabled | src/components/Settings/ChannelSettings.tsx:42 | a channel is on exactly when it has a configuration, and a channel that is off has no existing fields |
| ChannelSettings.CardClick | src/components/Settings/ChannelSettings.tsx:44-64 | an unavailable channel ignores the click; an enabled one is switched off; a channel with fields opens its dialog on its saved fields; one without fields is switched on with no settings; the status line clears |
| ChannelSettings.SwitchOffOnlyThatChannel | src/components/Settings/ChannelSettings.tsx:47-53 | switching a channel off removes only its own entry |
| ChannelSettings.DialogOpensEmpty | src/components/Settings/ChannelSettings.tsx:54-57 | a card click only opens the dialog for a channel without an entry, so the dialog opens empty |
| ChannelSettings.DialogSave | src/components/Settings/ChannelSettings.tsx:66-71 | confirming makes the dialog's fields the edited channel's entry and closes the dialog; without an edited channel nothing happens |
| ChannelSettings.DialogCancel | src/components/Settings/ChannelSettings.tsx:73-76 | cancelling closes the dialog and leaves every entry untouched |
| ChannelSettings.SetDialogField | src/components/Settings/ChannelSettings.tsx:17-18 | typing changes only the dialog's field |
| ChannelSettings.EditClick | src/components/Settings/ChannelSettings.tsx:173-177 | the edit button opens the dialog on the channel's saved fields and changes no entry |
| ChannelSettings.EditConfirmKeeps | src/components/Settings/ChannelSettings.tsx:66-177 | editing an enabled channel and confirming without typing keeps every entry |
| ChannelSettings.EditOneField | src/components/Settings/ChannelSettings.tsx:66-177 | editing one saved field replaces that field alone, keeps the channel on and leaves other channels as they were |
| ChannelSettings.OpenFillConfirm | src/components/Settings/ChannelSettings.tsx:44-71 | opening a channel's dialog, filling it and confirming switches it on with exactly the typed fields |
| ChannelSettings.OpenCancel | src/components/Settings/ChannelSettings.tsx:44-76 | opening a channel's dialog and cancelling leaves it off and every entry as it was |
| ChannelSettings.ClickTwiceRestores | src/components/Settings/ChannelSettings.tsx:44-64 | clicking a channel without fields twice switches it on and then off, restoring the map |
| ChannelSettings.SaveStatus | src/components/Settings/ChannelSettings.tsx:78-94 | the save is reported to the owner exactly when it was answered `ok`; a refused save shows its error or `保存失败` |
| SkillsSetup.GetEntry | src/components/Setup/SkillsSetup.tsx:27 | the skill's configuration entry, or the empty entry when it has none |
| SkillsSetup.IsEnabled | src/components/Setup/SkillsSetup.tsx:29-33 | an explicit choice decides; without one (or a null one) the skill's own default does |
| SkillsSetup.IsPlatformBlocked | src/components/Setup/SkillsSetup.tsx:35-36 | blocked and missing skills are blocked, ready and disabled ones are not |
| SkillsSetup.Toggle | src/components/Setup/SkillsSetup.tsx:38-49 | a blocked or missing skill cannot be toggled; otherwise only its entry changes, recording the opposite of its effective switch and keeping its other settings |
| SkillsSetup.ToggleFlips | src/components/Setup/SkillsSetup.tsx:29-49 | a toggle turns the skill's effective switch over and leaves every other skill's switch alone |
| SkillsSetup.ToggleTwice | src/components/Setup/SkillsSetup.tsx:29-49 | two toggles bring the switch back, now recorded explicitly in the entry |
| SkillsSetup.ApiKeyChange | src/components/Setup/SkillsSetup.tsx:51-60 | the typed key goes into the skill's entry, an empty one removing it; nothing else in any entry changes |
| SkillsSetup.ApiKeyKeepsSwitch | src/components/Setup/SkillsSetup.tsx:29-60 | typing a key never switches the skill on or off |
| SkillsSetup.ClearedKeyIsAbsent | src/components/Setup/SkillsSetup.tsx:56 | clearing the field after typing leaves the entry without a key |
| SkillsSetup.CardClick | src/components/Setup/SkillsSetup.tsx:62-71 | a card click on an available skill that needs a key expands its key field, or collapses it when it was the expanded one; other clicks change nothing |
| SkillsSetup.ClickShowsThenHides | src/components/Setup/SkillsSetup.tsx:62-88 | the first click shows the key field and the second hides it |
| SkillsSetup.NoKeyNoField | src/components/Setup/SkillsSetup.tsx:65-88 | a skill that needs no key never shows the field |
| LocalModelSettings.LatestCountsAsInstalled | src/components/Settings/LocalModelSettings.tsx:364-366 | a model listed with the `:latest` tag counts as installed |
| LocalModelSettings.IsModelInstalled | src/components/Settings/LocalModelSettings.tsx:364-366 | installed exactly when the model id, or the id with `:latest`, is in the installed list |
| LocalModelSettings.IsActiveModel | src/components/Settings/LocalModelSettings.tsx:368-372 | the model named by `ollama/` and its id is active, and only an `ollama/` model can be |
| LocalModelSettings.MemoryOk | src/components/Settings/LocalModelSettings.tsx:507 | an unknown machine runs every model; a machine with less memory than the model needs does not |
| LocalModelSettings.IsDownloading | src/components/Settings/LocalModelSettings.tsx:374 | downloading only with a download state, and never in the available, ready or error states |
| LocalModelSettings.StripLatest | src/components/Settings/LocalModelSettings.tsx:370 | one trailing `:latest` is removed, and an id without it is unchanged |
| LocalModelSettings.ActiveWithOrWithoutTag | src/components/Settings/LocalModelSettings.tsx:368-372 | a model is in use whether the configuration names it with or without the `:latest` tag |
| LocalModelSettings.Runnable | src/components/Settings/LocalModelSettings.tsx:503-525 | the recommended models shown without the low-memory warning are exactly those whose need the machine's total memory reaches, all of them when the hardware is unknown |
| LocalModelSettings.UnknownMachineRunsAll | src/components/Settings/LocalModelSettings.tsx:507 | with unknown hardware no card warns about memory |
| LocalModelSettings.EightGiBMachine | src/components/Settings/LocalModelSettings.tsx:9-507 | an 8 GiB machine has memory for exactly the first three recommended models |
| LocalModelSettings.BeyondThirdNeedsMore | src/components/Settings/LocalModelSettings.tsx:41-175 | every recommended model after the third needs more than 8 GiB |
| LocalModelSettings.NoneRunnable | src/components/Settings/LocalModelSettings.tsx:507 | when every model needs more than the machine has, every card warns |
| LocalModelSettings.OnProgress | src/components/Settings/LocalModelSettings.tsx:202-216 | the install's `ready` clears the installing flag and refreshes the status, other install events change nothing; a model event becomes the download state, and its `ready` refreshes the installed list |
| LocalModelSettings.InstallEventsKeepDownloadState | src/components/Settings/LocalModelSettings.tsx:203-208 | install events never change the model download state or refresh the model list |
| LocalModelSettings.LastModelEventWins | src/components/Settings/LocalModelSettings.tsx:202-216 | the download state is the last model event's, whatever install events follow it |
| LocalModelSettings.Action | src/components/Settings/LocalModelSettings.tsx:504-551 | an installed model offers "use" unless it is in use; the model being downloaded shows the label; otherwise the download button, enabled exactly when no download runs and Ollama is running |
| LocalModelSettings.OneDownloadAtATime | src/components/Settings/LocalModelSettings.tsx:374-547 | while a download runs no card offers an enabled download button |
| PairingSettings.TimeAgo | src/components/Settings/PairingSettings.tsx:8-13 | under a minute, a future time included, reads "just now"; under an hour, whole minutes; otherwise whole hours, rounded down |
| PairingSettings.TimeAgoCounts | src/components/Settings/PairingSettings.tsx:10-12 | minute labels run from 1 to 59 and hour labels from 1 up, each the whole number of hours elapsed |
| PairingSettings.TotalRequests | src/components/Settings/PairingSettings.tsx:71 | no groups means no requests |
| PairingSettings.TotalRequestsAppend | src/components/Settings/PairingSettings.tsx:71 | the count over two runs of groups is the sum of their counts |
| PairingSettings.TotalRequestsZero | src/components/Settings/PairingSettings.tsx:71-146 | the empty-list message shows exactly when no group holds a request |
| PairingSettings.TypeCode | src/components/Settings/PairingSettings.tsx:117 | the code field turns each lower-case ASCII letter into the upper-case letter at the same place in the alphabet, keeps every other character and the length, and so holds no lower-case letter |
| PairingSettings.ChannelAfterLoad | src/components/Settings/PairingSettings.tsx:32-34 | after loading, the first channel is chosen only when none was |
| PairingSettings.ApprovingKey | src/components/Settings/PairingSettings.tsx:47 | the approval in progress is keyed `channel:code` |
| PairingSettings.ApprovingKeyChannel | src/components/Settings/PairingSettings.tsx:47-163 | a channel name without `:` is read back from the key up to its first colon, so two channels never share a key prefix |
| PairingSettings.ManualApprove | src/components/Settings/PairingSettings.tsx:65-69 | nothing happens when the trimmed code is blank or no channel is chosen; otherwise the trimmed code is approved for the channel and the field is cleared |
| PairingSettings.BlankCodeNotSent | src/components/Settings/PairingSettings.tsx:66 | a code of only spaces is never sent |
| PairingSettings.EnabledButtonSends | src/components/Settings/PairingSettings.tsx:122-123 | an enabled approve button always sends an approval |
| PairingSettings.ApproveStatus | src/components/Settings/PairingSettings.tsx:52-60 | the status is a success exactly when the approval found a request, naming its id |
| SetupComplete.MaskApiKey | src/components/Setup/SetupComplete.tsx:18-21 | a key of at most four characters shows as four stars; a longer key keeps its length, shows its last four characters and stars everywhere else |
| SetupComplete.MaskRevealsOnlyTail | src/components/Setup/SetupComplete.tsx:18-21 | two long keys mask alike exactly when they have the same length and the same last four characters |
| SetupComplete.ShortKeysIndistinguishable | src/components/Setup/SetupComplete.tsx:19 | every key of at most four characters masks alike, hiding its length |
| GatewaySetup.PortChange | src/components/Setup/GatewaySetup.tsx:30-43 | text that parses to no number sets port 0 with the invalid-number error; a number is taken as the port, and the error is cleared exactly when it lies in 1024..65535 |
| GatewaySetup.Next | src/components/Setup/GatewaySetup.tsx:45-51 | the wizard goes on exactly when the port lies in 1024..65535, with that port; otherwise the range error shows |
| GatewaySetup.TypedPortAccepted | src/components/Setup/GatewaySetup.tsx:30-51 | typing the digits of a port in range sets exactly that port with no error, and the next step receives it |
| GatewaySetup.EnabledNextSucceeds | src/components/Setup/GatewaySetup.tsx:30-51 | whenever the port field shows no error, the next button goes on with the typed port |
| WorkspaceSetup.Next | src/components/Setup/WorkspaceSetup.tsx:17-34 | a blank path gives the empty-path error, a path neither rooted, nor on a drive, nor under `~/` gives the relative-path error, and otherwise the wizard goes on with the trimmed path |
| WorkspaceSetup.IsAbsolute | src/components/Setup/WorkspaceSetup.tsx:24-27 | a path starting with `/` or `~/` is absolute; an absolute path starts with `/`, `~` or a drive letter; one starting with `.` or `\` is not |
| WorkspaceSetup.AcceptedPathStable | src/components/Setup/WorkspaceSetup.tsx:17-34 | the path handed on is accepted again unchanged |
| WorkspaceSetup.DrivePathAccepted | src/components/Setup/WorkspaceSetup.tsx:24-27 | a drive path such as `C:\Users\User\openclaw` without surrounding space goes on unchanged |
| WorkspaceSetup.BareNameRefused | src/components/Setup/WorkspaceSetup.tsx:24-30 | a bare name such as `openclaw` is refused as relative |
| PatchOpenclaw.AddTokenScript | scripts/patch-openclaw.js:85-104 | text that already mentions the token script is left as it is |
| PatchOpenclaw.InjectControlUiConfig | scripts/patch-openclaw.js:30-127 | text mentioning the gateway token is unchanged and uncounted; the patch counts exactly when the token is absent and one of the two declaration layouts is present, and an uncounted patch changes nothing |
| PatchOpenclaw.InjectPrefersSingleLine | scripts/patch-openclaw.js:54-60 | when both layouts could apply, the tab-indented one is rewritten, and the declaration then names the token |
| PatchOpenclaw.LocalStorageKey | scripts/patch-openclaw.js:134-142 | without the old key the text is unchanged and uncounted; with it every occurrence becomes the right key, counted once |
| PatchOpenclaw.RightKeyCannotReformWrong | scripts/patch-openclaw.js:135-137 | the right key, wherever it is placed, cannot help spell the old key |
| PatchOpenclaw.LocalStorageKeyIdempotent | scripts/patch-openclaw.js:134-142 | no old key survives the patch, so a second run changes and counts nothing |
| PatchOpenclaw.ScopeClearing | scripts/patch-openclaw.js:150-192 | the first scope-clearing layout found is rewritten once and counted; with neither found the text is unchanged and uncounted |
| PatchOpenclaw.ScopeClearingLeavesPatched | scripts/patch-openclaw.js:167-179 | text holding neither layout, whether already guarded or not, is left alone |
| PatchOpenclaw.ScopeClearingAddsGuard | scripts/patch-openclaw.js:154-173 | the tab-indented block is rewritten into the form carrying the bypass guard |
| PatchOpenclaw.PatchText | scripts/patch-openclaw.js:247-249 | the three patches together count at most three, and an uncounted pass changes nothing |
| PatchOpenclaw.FullyPatchedUnchanged | scripts/patch-openclaw.js:247-253 | text already carrying the token, free of the old key and of both scope layouts passes all three patches unchanged and uncounted |
| PatchOpenclaw.GatewayCliFiles | scripts/patch-openclaw.js:201-208 | exactly the `gateway-cli-*.js` names of the listing, as paths under `dist` |
| PatchOpenclaw.FilesToPatch | scripts/patch-openclaw.js:197-223 | every gateway file of `dist` is listed, the control page when present, and the message handler last when present; nothing when all are missing |
| PatchOpenclaw.FindFilesToPatch | scripts/patch-openclaw.js:197-223 | the files found are those of the file-list specification: gateway files in listing order, then the control page, then the message handler, each only when present |
| PatchOpenclaw.ControlUiAfterGatewayFiles | scripts/patch-openclaw.js:210-214 | an existing control page file is listed right after every gateway file |
| PatchOpenclaw.WrittenOnlyWhenChanged | scripts/patch-openclaw.js:251-253 | files whose text the patches would not change are never written |
| PatchOpenclaw.MissingDirsChangeNothing | scripts/patch-openclaw.js:228-232 | directories that are all missing leave every file as it was |
| PatchOpenclaw.Patcher.PatchFile | scripts/patch-openclaw.js:242-253 | the file's text is patched three times over and written back only when it changed, with the patches counted |
| PatchOpenclaw.Patcher.PatchAll | scripts/patch-openclaw.js:242-254 | the directory's files are patched in order |
| PatchOpenclaw.Patcher.Run | scripts/patch-openclaw.js:225-258 | every present directory's files are found and patched in turn; a missing directory is skipped |

## Left out

- Network and HTTP: `downloadFile`, `httpGet` and `httpRequest` in `electron/ollama-manager.ts`, `httpGet`/`fetchText` in `electron/update-checker.ts`, the `fetch` of `validateApiKey` and the gateway health request are not modelled; their outcomes (status codes, bodies, chunks, redirects) are inputs.
- The concurrent mirror race of `electron/update-checker.ts` (`raceForText`, `raceForResponse`) is not modelled: its point is concurrency. The model fixes the candidate URLs and their order (`MirrorUrls`), and the winning response of a race, or none when every mirror failed, is an input of `PlanDownload`.
- Update downloads: `cancelDownload`/`installUpdate`, the module-level `cancelled`/`activeReq` state and the rounded `percent` (floating point) are not modelled; the byte accounting is.
- Timers and real time: the 750 ms connect timer, the reconnect `setTimeout`, the 30 s waiting timer of `App.tsx`, the 500/5000 ms health-check delays and interval, the shutdown force-kill timer and the sleeps of the Python polling loops are not modelled as time; the clock is an integer-millisecond input and each timer firing is a method call.
- GatewayProtocol.GatewayClient.SendConnect: the `await` of the device signer is not a separate step. An event that arrives while the signer runs (a close, a second challenge) is taken to happen before or after the whole call, and the socket the call sees stands for the socket after the `await`.
- GatewayProtocol.Backoff: the 1.7 growth factor is exact real arithmetic, not IEEE doubles; only the 15 s cap and growth are stated.
- Floating point displays: `formatBytes`, `formatSpeed`, `toFixed` texts, `Math.round` percentages (Ollama pull and update download) and the Python scripts' elapsed-time prints are not modelled.
- Cryptography and randomness: Ed25519 key generation and signing, SHA-256 fingerprints, `crypto.randomBytes`/`getRandomValues` and `Math.random` request ids are inputs; only the hex encoding, the raw-key extraction and the payload layout are modelled.
- `JSON.parse` and `JSON.stringify` are not modelled: parsed JSON is a value of the `Json` datatype (or a parse failure), and the order in which keys are written out is not captured; this is why `getEnabledChannels` in `electron/pairing-manager.ts` is left out.
- Regular expressions: the general regex fallbacks of `scripts/patch-openclaw.js` (lines 67-77, 106-122, 181-189) are not modelled; only its literal-pattern paths and the literal key replacement are. In `src/lib/i18n.ts` a parameter name holding regex metacharacters and `$` patterns in a replacement value are not modelled.
- Process, filesystem and IPC plumbing: process spawning and killing in the Ollama and gateway managers, port probing and `isRealGateway`, `readGatewayToken`, stdout/stderr logging, and the IPC sends of the main window are not modelled; their results are inputs.
- Ollama manager operations that are only I/O are not modelled: installer extraction and verification, `getStatus`, the wait of `start`, `stop`, `listLocalModels`, `deleteModel`, `cancelDownload` and the constructor's read of the models directory. The model catalogue keeps only each model's id and name.
- `detectShell` in `electron/claude-md-generator.ts` is not modelled: it only reads environment variables.
- React effects: the `useWebSocket` effect lifecycle, listener registration and the console logging of `src/lib/gateway-protocol.ts` are not modelled; `navigator` platform and locale are inputs.
- Renderer handlers that only call IPC or the cron hook (`useCron` fetch/toggle/remove/run, skill loading and folder opening, local-model install/start/stop/delete/apply and directory change) are not modelled beyond the state they set.
- `PairingSettings.TimeAgo` takes the elapsed milliseconds as input: ISO date parsing is not modelled.
- PairingSettings.TypeCode: the code field's `maxLength` of 8 (src/components/Settings/PairingSettings.tsx:116) is enforced by the browser while typing and is not modelled; the typed text is taken as given.
- Python strings: `lower()` and `isupper()` are modelled on ASCII letters only; Unicode case mapping is not. `isspace()` (`Desktop.IsPySpace`) covers the full set of Unicode whitespace characters Python recognises.
- Text.Lower and Text.Upper: JavaScript `toLowerCase`/`toUpperCase` are modelled on ASCII letters only, so non-ASCII names compare as written in `SkillSettings.Matches`, `PairingSettings.TypeCode`, `PairingManager.MatchIndex` and `ClaudeMd.Keys`.
- `Desktop.PyInt` models Python `int()` on optional sign, digits and surrounding space; underscores in numerals and other Unicode digits are not modelled.
- Python scripts: argument-parsing errors, JSON formatting and truncation of printed output, the list-mode headers, the `--delay` sleep of `click_element.py`, the whole-run dispatch of `handle_dialog.py` and its printouts are not modelled. A control whose attributes cannot be read (the scripts' per-control `except: continue`) is not modelled: every control reads. Whether a click, typing into a field or sending Escape raises is an input (`clickOk`, `typeOk`, `escapeOk`); in `click_text.py` and `handle_dialog.py` a control whose click raises is passed over, as the `except` does.
- Screenshot.PathIn joins the folder and name with a backslash only, as on Windows.
- Screenshot.SortByMtime: proved sorted and a permutation of its input; its stability (files with equal times keep listing order) is not proved.
- Screenshot.Folder.Capture: a failed save writes no file, and the exception's message is not modelled.
- ReadWebpage.ExtractWebpageContent: the `error` key written when the scan itself raises is not modelled.
- ChatStream.RunId and ChatStream.ErrorText: only a string `runId` or `errorMessage` is taken; the source takes any truthy value (a number, say), which the model replaces by the generated id or the default text.
- OllamaManager.Child: a truthy section that is not an object (an array, say) makes the model give up (`None`); the source sets properties on the array, which `JSON.stringify` then drops, and goes on writing the other sections.
- OllamaManager.AuthProfilesWith: an array `profiles` is kept as it is, which is what `JSON.stringify` writes after the source sets a property on the array; the profile added in memory is not modelled.
- AppSessions.TitlePrefix: the 30-character title prefix counts characters, where JavaScript `slice` counts UTF-16 code units, so a title cut inside a surrogate pair is not modelled.
- GatewayHook.Mount: the three start-up requests are answered in a fixed order (status, then token, then port); other interleavings of the answers are not modelled.
- I18n: a key segment inside a translation table that names an inherited object property (`constructor`, `toString`) resolves through the prototype in the source; the model looks up own keys only.
- UpdateChecker.NumberOf: only optionally signed decimal integers are numbers; other forms `Number` accepts (`0x1f`, `1e3`, `Infinity`, fractions) are treated as NaN.
- GatewayManager.GatewaySupervisor.OnProcessError: an `error` event that arrives together with an `exit` event is not ordered against it; each is a separate call.
- ClaudeMd.GenerateClaudeMd and ClaudeMd.ClaudeMdContent use the corrected merge, not the merge as written (`ClaudeMd.MergeAsWritten`); the two agree on every file without a start marker or whose first end marker follows the start marker (`ClaudeMd.ContentAsWrittenWhenOrdered`), and differ only on the input of the first finding below.
- Desktop.TypeName: a control whose reported type is `OtherType` with the name of a listed type (say `OtherType("Button")`) is assumed not to occur; the scripts compare type names, the model compares types.

## Findings

| source | as written | input that shows it | evidently intended | confidence | as-written member | corrected member |
|---|---|---|---|---|---|---|
| electron/claude-md-generator.ts:253-266 | the end marker is searched from the start of the text, so an end marker standing before the start marker is accepted; the text between them is kept twice | existing text `<!-- CLAWWIN-AUTO-END -->` followed by `<!-- CLAWWIN-AUTO-START -->`: merging gives end marker, section, start marker; merging that again inserts the section a second time, so regenerating never settles | search for the end marker after the start marker, so regenerating is idempotent; ClaudeMd.ClaudeMdContent, ClaudeMd.GenerateClaudeMd and ClaudeMd.RegenerateStable are stated on this corrected merge | not executed | ClaudeMd.MergeAsWrittenNotIdempotent | ClaudeMd.MergeIdempotent |
| bundled/openclaw/skills/windows-control/scripts/find_text.py:34-53 | `sys.exit(0)` after a hit raises `SystemExit`, which the bare `except:` around it swallows, so the scan goes on, reports every hit, then prints "Not found" and exits with 1 | Notepad open with a Save button, query `save` | stop at the first hit and exit with 0 | not executed | FindText.SaveFoundYetNotFound | FindText.Run |
| bundled/openclaw/skills/windows-control/scripts/wait_for_text.py:28-48 | the same swallowed `sys.exit(0)`: a text found is reported on every poll until the timeout, which then prints "Timeout" and exits with 1 | `wait_for_text.py save notepad` with Save shown from the start | exit with 0 on the first poll that finds the text | not executed | WaitForText.SaveShownAtOnce | WaitForText.Run |
| src/App.tsx:40-62, 148-201 | `handleSend` arms the 30 s timer with the `activeSessionId` of its closure; when the send itself creates the session that value is still null, so the timeout finds no session and adds no error | no active session, send "hi": the new session keeps only the user message when the timer fires | arm the timer with the session the message was sent to, so the timeout error reaches it | not executed | AppSessions.AutoCreatedSendMissesTimeout | AppSessions.TimeoutReachesSentSession |
