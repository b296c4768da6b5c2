# Code playground page: a Dafny model

The page `app/page.tsx` is a React component, `Home`. It shows a code editor and an output console side by side. On a viewport 768 pixels wide or narrower, the two are stacked instead. A draggable divider sets the split. A marker decoration sits at the end of the buffer's last line. A function `runCode` would execute the buffer and show what it logs, but nothing in the file calls it: the markup (app/page.tsx:173-224) has no run control, and `handleEditorDidMount` (app/page.tsx:56-75) registers no editor command. The model covers `runCode` as written, as the operation a trigger would reach.

This project models the logic of that component in Dafny:

- `last_line_marker.dfy` (module `LastLineMarker`): where the marker goes. This needs JavaScript's `trim()` and its UTF-16 `length`.
- `divider.dfy` (module `Divider`): how the pointer position becomes a split ratio. Only candidates strictly inside 20–80 are committed.
- `sandbox.dfy` (module `Sandbox`): what `runCode` leaves in the console for a program. The program is abstracted as the sequence of `console.log` calls and exceptions it produces.
- `layout.dfy` (module `Layout`): the mobile breakpoint, the two pane sizes and the console placeholder.
- `playground.dfy` (module `Playground`): class `Home`, one method per event handler. Its fields are the component's refs and state, plus the parts of its collaborators that the handlers change: the editor's buffer and decorations, the browser's animation-frame queue, and `console.log`.

`Home.Valid()` holds after every handler. It states four things:

- The ratio is 50 or strictly between 20 and 80.
- Every queued frame callback is the one `animationFrameRef` names, so at most one is pending.
- The editor shows exactly the decorations whose identifiers the component holds, and there is at most one.
- Decoration identifiers are fresh.

Three behaviours of the code are easy to miss; the model follows the code:

- When the program throws, the console shows only `Error: <message>`. Lines logged before the exception are discarded, because app/page.tsx:169 replaces the whole log.
- Drag frames and marker updates share one pending-frame slot (app/page.tsx:16, 63-66, 124-126, 132-136). So a mouse move cancels a pending marker update, a mouse-up that ends a drag cancels one too, and an edit cancels a pending drag frame. `Playground.DragDropsPendingMarkerUpdate` shows the marker recompute dropped this way.
- `console.log` is restored only when the program completes (see Findings).

## Model

| member | source | states |
|---|---|---|
| LastLineMarker.TrimStart | app/page.tsx:88 | The first half of `trim()`: what is left is no longer than the line and does not start with white space. |
| LastLineMarker.TrimEnd | app/page.tsx:88 | The second half of `trim()`: what is left is no longer than its input, starts with the same character, and does not end with white space. |
| LastLineMarker.Trim | app/page.tsx:88 | `trim()` leaves a string no longer than the line that neither starts nor ends with white space. |
| LastLineMarker.LastLine | app/page.tsx:86 | The text of the last line is the line that completes the buffer: the buffer is the lines before it followed by it. With no lines it is "". |
| LastLineMarker.TrimStartDropsLeadingRun | app/page.tsx:88 | Removing leading white space keeps a suffix of the line, and everything before that suffix is white space. |
| LastLineMarker.TrimEndDropsTrailingRun | app/page.tsx:88 | Removing trailing white space keeps a prefix of the line, and everything after that prefix is white space. |
| LastLineMarker.TrimKeepsMiddle | app/page.tsx:88 | `trim()` returns the piece of the line between a blank prefix and a blank suffix. |
| LastLineMarker.TrimStartEmptyIffBlank | app/page.tsx:88 | Removing leading white space leaves nothing exactly when every character is white space. Otherwise what remains starts with a visible character. |
| LastLineMarker.TrimEndEmptyIffBlank | app/page.tsx:88 | Removing trailing white space leaves nothing exactly when every character is white space. |
| LastLineMarker.TrimEmptyIffBlank | app/page.tsx:88 | `line.trim() === ""` holds exactly when every character of the line is JavaScript white space or a line terminator. |
| LastLineMarker.Utf16Length | app/page.tsx:87 | A line's JavaScript length is between its number of code points and twice that. |
| LastLineMarker.Utf16LengthAppend | app/page.tsx:87 | The JavaScript length of a concatenation is the sum of the lengths, so with the per-character count (2 beyond U+FFFF, else 1) it fixes the length of every line. |
| LastLineMarker.Utf16LengthOfBmp | app/page.tsx:87 | A line with no character beyond U+FFFF has one code unit per character. |
| LastLineMarker.MarkerAnchor | app/page.tsx:84-92 | The marker is on line `lines.length`. Its column is 1 exactly when the last line is blank (or absent); otherwise it is the last line's UTF-16 length plus one. |
| LastLineMarker.MarkerAfterAbc | app/page.tsx:84-92 | A last line "abc" (line 2) puts the marker at (2, 4). |
| LastLineMarker.MarkerOnBlankLastLine | app/page.tsx:84-92 | A last line of spaces and a tab puts the marker at column 1 of that line. |
| Divider.PointerRatio | app/page.tsx:139-141 | The candidate ratio r places the pointer at r percent of the container's extent past its origin. |
| Divider.NextRatio | app/page.tsx:143-144 | The ratio becomes the pointer's percentage when the pointer lies strictly between 20% and 80% of the extent. Otherwise it keeps its value. A ratio that is 50 or inside (20, 80) stays so. |
| Divider.BandInPixels | app/page.tsx:139-143 | The candidate is strictly inside (20, 80) exactly when `20·extent < 100·(coord − origin) < 80·extent`. |
| Divider.DragResult | app/page.tsx:137-144 | A drag frame reads the vertical axis on mobile and the horizontal one otherwise. Without a container it leaves the ratio alone. It keeps the ratio admissible. |
| Divider.DragCommits | app/page.tsx:143-147 | A drag frame commits a ratio, and asks for a layout, only with a container and only when the pointer lies strictly between 20% and 80% of the extent on the axis the orientation picks, stated in pixels. |
| Divider.BoundsAreExclusive | app/page.tsx:143 | A pointer exactly at 20% or 80% of the extent leaves the ratio unchanged. |
| Sandbox.JoinArgs | app/page.tsx:162 | `args.join(" ")` starts with the first argument, is a single argument unchanged, is "" for none, and is as long as all arguments plus one space between each two. |
| Sandbox.JoinArgsAppend | app/page.tsx:162 | Joining two non-empty runs of arguments gives the first join, one space, then the second join: every argument is kept, in order, separated by single spaces. |
| Sandbox.Execute | app/page.tsx:161-166 | Running the program under the interceptor captures its logs in order, each as its joined arguments. A completed run captured one line per event; a failed run stops at the first exception, whose message it carries, with one line per log before it. |
| Sandbox.LogsAfterRun | app/page.tsx:161-169 | After `runCode`, a program that only logs leaves one line per call, in order. A program that throws leaves only `Error: ` followed by the message of its first exception. |
| Sandbox.CompletedRun | app/page.tsx:158-167 | A program that only logs completes, and the console holds one line per `console.log` call, in order. Each line is that call's arguments joined by single spaces. |
| Sandbox.FailedRun | app/page.tsx:161-169 | When the program's first exception comes after k logs, the run fails with that exception's message, having captured those k lines. The console then holds exactly `["Error: " + message]`. |
| Sandbox.CompletesIffNoThrow | app/page.tsx:166-169 | A run completes exactly when the program throws nothing. |
| Sandbox.FirstThrow | app/page.tsx:166-168 | A program that throws has a first exception, and everything before it is a log call. |
| Sandbox.RunExamples | app/page.tsx:152-171 | Logging "a" then "b" shows `["a", "b"]`. Throwing "boom" shows `["Error: boom"]`. Logging "x" then throwing "y" shows `["Error: y"]`. Logging "sum", "3" shows `["sum 3"]`. |
| Layout.IsMobile | app/page.tsx:27 | A viewport is mobile exactly when it is 768 pixels wide or narrower; 768 itself is mobile. |
| Layout.PaneSizes | app/page.tsx:175-214 | The editor's style (line 175) and the console's (line 214): Along the split axis, the editor pane gets the ratio and the two panes sum to 100%. Across it, both panes take 100%. |
| Layout.StackedIffNarrow | app/page.tsx:27 | With the pane styles of lines 175 and 214: For any ratio the divider can hold, both panes take the full width exactly when the viewport is at most 768 pixels wide. Each pane keeps more than 20% of the split axis. |
| Layout.ConsoleContents | app/page.tsx:215-221 | The placeholder is shown exactly when the log is empty. Otherwise the log's lines are shown, in order. |
| Playground.AtMostOnePending | app/page.tsx:63-66 | Callbacks queued through a single slot number at most one. |
| Playground.Home.AtMostOneFrame | app/page.tsx:63-66 | With lines 124-126 and 132-136 as well: In every reachable state, at most one frame callback of the component is pending. |
| Playground.Home.constructor | app/page.tsx:13-21 | The first render has ratio 50, no drag, an empty frame slot, no editor, no decorations, an empty log and the desktop layout. |
| Playground.Home.SetMobile | app/page.tsx:25-29 | The mobile flag becomes `innerWidth <= 768`. |
| Playground.Home.WindowResized | app/page.tsx:60-61 | Together with the listener of lines 30-32: A resize recomputes the mobile flag. It asks the editor for a layout only once the editor is mounted. The ratio is untouched. |
| Playground.Home.EditorDidMount | app/page.tsx:56-75 | After mounting, the editor is kept and the buffer is its initial content. With a text model, the editor shows exactly one decoration: the marker for that content. |
| Playground.Home.AddLastLineMarker | app/page.tsx:78-106 | With an editor and a model, the previous decorations are swapped for a single new one at the marker position of the current buffer, so exactly one exists. Otherwise nothing changes. |
| Playground.Home.CancelPendingFrame | app/page.tsx:124-126 | The same step appears at lines 63-65 and 132-134. Cancelling the slot leaves no callback of the component pending. |
| Playground.Home.ScheduleFrame | app/page.tsx:132-136 | The same step appears at lines 63-66. Scheduling cancels the pending callback and queues the new one under a fresh handle, which the slot now holds. Only the latest request remains. |
| Playground.Home.Edit | app/page.tsx:62-69 | An edit updates the buffer. Once the editor is mounted, the only pending callback afterwards is a marker update. |
| Playground.Home.StartResizing | app/page.tsx:109-116 | Mouse-down on the divider sets the drag flag. |
| Playground.Home.StopResizing | app/page.tsx:118-127 | A mouse-up that ends a drag clears the drag flag and leaves no callback pending, whether drag or marker. Outside a drag the listener is not registered (lines 114 and 122), so a mouse-up changes nothing. |
| Playground.Home.MouseMove | app/page.tsx:129-136 | Outside a drag, a move changes nothing. During one, the only pending callback afterwards is a divider update for this pointer position. |
| Playground.Home.DoubleClick | app/page.tsx:212 | A double-click sets the ratio to exactly 50, whatever the prior value or drag state. |
| Playground.Home.AnimationFrame | app/page.tsx:136-149 | With the marker callback of lines 66-68: The browser runs the pending callback and empties the queue. A marker update re-places the single marker from the buffer as it is now. A divider update commits the pointer's ratio only inside (20, 80), and asks the editor for a layout only then. With nothing pending, nothing changes. |
| Playground.Home.RunCode | app/page.tsx:152-171 | Without an editor, nothing happens. Otherwise the console holds exactly what `Sandbox.LogsAfterRun` gives for the program, whatever it held before. `console.log` is restored if the program completes; if it throws, the interceptor holding the lines captured so far stays installed. |
| Playground.Home.RunCodeRestoring | app/page.tsx:152-171 | The same console contents as `runCode`, but `console.log` is left as it was before the run on every path. |
| Playground.Home.ConsoleLog | app/page.tsx:161-164 | A `console.log` call made while an interceptor is installed is appended to that interceptor's array, and the console then shows that array. Otherwise the console pane is untouched. |
| Playground.EditBurstThenFrame | app/page.tsx:62-69 | After mounting, two edits within one frame produce one marker update, and it reflects the second buffer. |
| Playground.DragDropsPendingMarkerUpdate | app/page.tsx:132-136 | An edit followed by a drag move in the same frame drops the edit's marker recompute: the only decoration is still the one placed for the initial buffer (wherever the editor has moved it), while the divider moves to 30%. |
| Playground.StrayLogAfterFailedRun | app/page.tsx:166-169 | After a program throws "boom", the console shows `["Error: boom"]`. A later `console.log("late")` replaces that with `["late"]`. |
| Playground.StrayLogAfterRestoringRun | app/page.tsx:152-171 | With restoration on both paths, the error line survives a later `console.log`. |

## Findings

| source | as written | input that shows it | evidently intended | confidence | as-written member | corrected member |
|---|---|---|---|---|---|---|
| app/page.tsx:159-170 | `console.log` is put back only after normal completion (line 167). The `catch` at lines 168-169 leaves the interceptor installed. Playground.Home.RunCode models this. | Once a control calls `runCode`: a program that throws "boom", then any `console.log("late")` on the page: the console shows `["late"]` instead of `["Error: boom"]` | the original `console.log` is restored on every exit path, as the saved `originalConsoleLog` suggests | high; not executed; latent, because nothing in app/page.tsx calls `runCode` | Playground.StrayLogAfterFailedRun | Playground.Home.RunCodeRestoring |

## Left out

- Playground.DragDropsPendingMarkerUpdate / Home.Edit: the editor moves a decoration's range with the text edited around it (and stretches a zero-width range at its edge by its default stickiness). The model keeps each decoration at the anchor the last recompute placed, so after a dropped recompute it names that anchor, not where the editor has moved the decoration.
- The editor widget, its `next/dynamic` loading and the asynchronous import of `monaco-editor`. The editor is modelled through the parts the handlers touch: its lines, its decorations, whether it has a text model, and a count of layout requests.
- What `new Function(code)()` runs (app/page.tsx:166). A program is given as its sequence of `Log`/`Throw` events. Log arguments are already strings, and a thrown value's `message` is a string; a thrown non-`Error` value whose `message` is `undefined` (`throw 42`) is not modelled. Neither is `throw null` or `throw undefined`: there, reading `error.message` at line 169 itself throws a `TypeError`, which escapes `runCode`, leaving the console with the lines captured so far and the interceptor installed. The program text read by `editor.getValue()` is not modelled.
- Event-listener registration and removal. The mouse listeners are the `isResizing` flag; the editor's change and resize listeners exist once `editorMounted` is set. `e.preventDefault()` and the unmount cleanup of the first effect are left out.
- Frame timing: `AnimationFrame` is the browser running the queue at its next frame, in whatever order the caller chooses.
- Container geometry: `getBoundingClientRect` and `offsetWidth`/`offsetHeight` are inputs, one box per frame.
- IEEE floating point: the ratio is a `real`, and the arithmetic is exact.
- Home.AnimationFrame: requires a container of positive width and height, so the division by zero (Infinity or NaN) of an empty container is not modelled.
- Home.EditorDidMount: requires the editor not to be mounted yet. The editor wrapper calls `onMount` once, so a second mount registering a second change listener is not modelled.
- The `typeof window` guards (app/page.tsx:26, 34, 39, 57, 79, 112, 120, 130). Each sits in an effect, a callback or an event handler, and those run only in the browser, where `window` exists; server pre-rendering runs none of them.
- The drag handler's stale view of `isMobile`. `startResizing` is memoised with no dependencies (app/page.tsx:116), so it keeps the first render's `handleMouseMove`. `MouseMove` instead takes the orientation as a parameter.
- The resize-listener cleanup returned by `handleEditorDidMount` (app/page.tsx:71-73), which is never invoked.
- React's batching of `setLogs`: only the final value of `logs` after each handler is modelled, not intermediate renders.
- The console styling effect (app/page.tsx:46-53), the editor options (app/page.tsx:183-208) and the markup apart from the pane sizes and the console contents.
- Lone UTF-16 surrogates. A line is a sequence of Unicode scalar values, so a JavaScript string holding an unpaired surrogate, which counts 1 in `.length`, cannot be expressed.
- The editor's validation of a range on line 0. `getLinesContent()` never returns an empty list, so that case does not arise; the model keeps the code's arithmetic (line 0, column 1) for it.
