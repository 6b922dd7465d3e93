# Ball-robot drill controller, modelled in Dafny

This project models the core of a browser application that drives a
table-tennis ball robot over Bluetooth Low Energy. Users keep *drills*:
sequences of *steps*, where each step lists one or more *variants* (shots).
A shot has six parameters: top and bottom wheel speed, launch height,
drop, oscillation frequency and repeat count. The model covers:

- **Bluetooth link** (`ble.dfy`, `codec.dfy`):
  - the connection state and the four-step authentication chain (challenge, MD5 answer, three acknowledgements);
  - the write queue;
  - the byte layout of a shot record and of the framed packet of a batch;
  - recognition of the robot's "done" marker in notifications.
- **Runner** (`runner.dfy`):
  - start-up countdown;
  - reps mode and time mode;
  - the Fisher–Yates shuffle of a random drill;
  - the random choice of one variant per step;
  - statistics;
  - pause, resume and stop, with the timers they set and clear;
  - the `m:ss` clock text.
- **Application state** (`store.dfy`, `csv.dfy`, `drills.dfy`):
  - the drill store;
  - normalisation of bare shots into one-variant steps;
  - resetting the statistics;
  - CSV import and export of the three custom banks A, B and C, 20 drills each.
- **Editor** (`editor.dfy`):
  - the working copy of one level of one drill;
  - typed input;
  - cloning and deleting shots;
  - the clamped save;
  - the test-ball button.
- **Drill management** (`ui.dfy`):
  - creating a custom drill;
  - moving a drill to another bank by drag and drop;
  - reordering a bank or a built-in list;
  - the display name of a drill key.

`optional.dfy`, `bytes.dfy` and `text.dfy` define the helpers the rest of
the model uses. They cover:

- an `Option` type;
- little-endian integer fields with JavaScript's `ToUint16`/`ToUint32` wrap-around;
- the JavaScript string built-ins the core relies on: `trim`, `parseInt`, `parseFloat`, `split`, `join`, `includes`, `padStart`, hex rendering and `replace(/\s+/g, '_')`.

Module state becomes classes:

| Class | Source state |
|---|---|
| `Ble.Link` | `bleState` |
| `State.Store` | `currentDrills`, `userCustomDrills`, `drillOrder`, `selectedLevel`, `runMode`, `appStats` |
| `Runner.Runner` | the runner's flags, counters and timers |
| `Editor.Editor` | the editor's working copy |

Side effects outside the program are modelled as follows:

- Writes to the robot are appended to `Link.outbox`.
- Timers are a map from handles to pending timer kinds.
- Clocks (`Date.now()`), user answers (`prompt`, `confirm`, the random checkbox), the random stream (`Math.random`), MD5 and float32 encoding are parameters.

## Model

| member | source | states |
|---|---|---|
| Bytes.Clamp | js/bluetooth.js:114 | The clamped value lies in the range, is the value itself when inside, and is the nearer bound when outside. |
| Bytes.U16 | js/runner.js:218 | `setUint16` stores the value modulo 2^16; a value already in range is kept. |
| Bytes.U32 | js/bluetooth.js:119-124 | `setUint32` stores the value modulo 2^32; a value already in range is kept. |
| Bytes.LE16RoundTrip | js/runner.js:218-219 | A 16-bit little-endian field reads back as the wrapped value. |
| Bytes.LE32RoundTrip | js/bluetooth.js:119-124 | A 32-bit little-endian field reads back as the wrapped value. |
| Text.TrimStart | js/state.js:119 | Removes exactly the leading white space: what is removed is all white space, and what remains is a suffix starting with a non-space. |
| Text.TrimEnd | js/state.js:119 | Removes exactly the trailing white space: what is removed is all white space, and what remains is a prefix. |
| Text.TrimIsInfix | js/state.js:123 | The trimmed text occurs in the original with only white space before and after it. |
| Text.TrimEmptyIffBlank | js/state.js:119 | A line trims to nothing exactly when every character is white space; such lines are the ones the import skips. |
| Text.Trim | js/state.js:119 | The trimmed text is no longer than the original, and starts and ends with a non-space when it is not empty. |
| Text.ParseIntNaN | js/state.js:130-131 | `parseInt` is NaN unless the text holds a decimal digit. It is negative only when the text holds a minus sign. |
| Text.MagnitudeStart | js/state.js:130-131 | The digits `parseInt` reads after the sign start with a decimal digit (`0` for a `0x` prefix). They are negative only after a minus sign. |
| Text.ParseFloatNaN | js/state.js:121 | `parseFloat` is NaN unless the text holds a decimal digit. It is negative only when the text holds a minus sign. |
| Text.UnsignedDecimalDigit | js/state.js:121 | An unsigned decimal literal holds a digit, and its value is not negative. |
| Text.Mantissa | js/state.js:121 | The mantissa lies between the value of the integer digits and that value plus one. |
| Text.Fraction | js/state.js:121 | The digits after the point make a value in [0, 1). |
| Text.Scale | js/state.js:121 | Scaling by a power of ten keeps the sign of a non-negative mantissa. |
| Text.DigitRun | js/state.js:130 | The run of digits `parseInt` consumes is maximal: all digits, followed by a non-digit or the end. |
| Text.NatToString | js/state.js:185 | A printed number is a non-empty string of decimal digits, with no leading zero unless it is 0. |
| Text.NatToStringValue | js/state.js:185 | The printed digits denote the number. |
| Text.IntToStringRoundTrip | js/state.js:185 | Printing an integer and reading it back with `parseInt` gives the integer back. |
| Text.ParseMinusDigits | js/state.js:130 | `parseInt` of a minus sign followed by digits is the negated value of the digits. |
| Text.PadStart2 | js/runner.js:212 | `padStart(2, '0')` keeps the text as its tail and pads to at least two characters. |
| Text.Split | js/state.js:120 | `split` on a character gives one more piece than there are separators, and no piece holds the separator. |
| Text.JoinSplit | js/state.js:185 | Joining the pieces of a split gives the original text back. |
| Text.SplitJoin | js/state.js:120 | Splitting a join of separator-free pieces gives the pieces back. |
| Text.SplitLines | js/state.js:99 | `split(/\r?\n/)` gives one line per line feed, plus one. The content of each line is `SplitLinesPieces`. |
| Text.SplitLinesPieces | js/state.js:99 | No line holds a line feed. The last line is the text after the last line feed, unchanged. Each earlier line is the text between two line feeds, with one carriage return removed exactly when that text ends in one. |
| Text.WithReturns | js/state.js:99 | Every line but the last gains one carriage return; the last is kept. |
| Text.SplitLinesJoin | js/state.js:99 | Lines joined with LF split back into the same lines, when no line holds a line feed and none but the last ends in a carriage return. |
| Text.SplitLinesJoinReturns | js/state.js:99 | Lines joined with CRLF split back into the same lines, when no line holds a line feed. |
| Text.UnderscoreSpaces | js/state.js:134 | `replace(/\s+/g, '_')` leaves no white space and never lengthens the text. What each character and each run becomes is `UnderscoreKeeps` and `UnderscoreLeadingRun`. |
| Text.UnderscoreKeeps | js/state.js:134 | A character that is not white space is kept, in front of the replaced rest. |
| Text.UnderscoreLeadingRun | js/state.js:134 | A leading maximal run of white space becomes one `_`, in front of the replaced rest. With `UnderscoreKeeps` this fixes the replacement of every text. |
| Text.TrimStartRun | js/state.js:134 | Dropping the leading white space before a non-space leaves the text from that character on. |
| Text.UnderscoreSpacesNoSpace | js/ui.js:37 | Text without white space is left unchanged. |
| Text.Includes | js/bluetooth.js:106 | `includes` holds exactly when the needle occurs at some position. |
| Text.HexOf | js/bluetooth.js:73 | Each octet becomes two lower-case hex digits, high nibble first. |
| Text.HexRoundTrip | js/bluetooth.js:73 | The hex rendering loses nothing: it decodes back to the same octets. |
| Codec.HeightToDevice | js/bluetooth.js:115 | The height maps from [-50, 100] onto [-20, 30] linearly; out-of-range input is clamped first. |
| Codec.DropToDevice | js/bluetooth.js:116 | The drop maps from [-10, 10] onto [-22, 22] linearly; out-of-range input is clamped first. |
| Codec.FreqToDevice | js/bluetooth.js:117 | The frequency maps from [0, 100] onto [0.5, 1.5] linearly; out-of-range input is clamped first. |
| Codec.RemapsMonotone | js/bluetooth.js:115-117 | All three remaps preserve order. |
| Codec.PackBall | js/bluetooth.js:112-126 | The record is 24 octets. Field by field: both speeds read back clamped to [400, 7500]; the three floats hold the remapped values; reps reads back wrapped to 32 bits. |
| Codec.FlattenAt | js/runner.js:221-222 | In the laid-out records, record i sits at octets 24i to 24i+23. |
| Codec.FrameLayout | js/runner.js:215-224 | A frame of N records: length 7+24N; command 0x81; payload length 4+24N, wrapped to 16 bits; sub-type 1; sequence id 1; a zero octet; record i at 7+24i. |
| Codec.CopyRecord | js/runner.js:222 | `u.set(ba, off)` writes the record at the offset and keeps the octets before it. |
| Codec.WriteHeader | js/runner.js:218-219 | The first seven octets of the buffer become the header. |
| Codec.BuildPacket | js/runner.js:215-224 | The buffer built in place equals the frame of the records. |
| Ble.DecodeText | js/bluetooth.js:77-78 | The decoded text has one character per octet, and the character's code is the octet's value. This is `TextDecoder` for ASCII input only. |
| Ble.HashInput | js/bluetooth.js:79-84 | The hashed string is the serial (characters 6 to 17), then one salt character per serial character, then the code from offset 18 on. |
| Ble.BuildHashInput | js/bluetooth.js:79-84 | The character loop builds exactly that string. |
| Ble.HandshakeResponse | js/bluetooth.js:86-88 | The response is `08 20 00` followed by the digest's ASCII octets; the fourth header octet is overwritten. |
| Ble.HandshakeStep | js/bluetooth.js:76-103 | Each notification either leaves the chain state alone and sends nothing, or moves it one step forward and sends a packet. The link becomes ready exactly at `auth_3`. |
| Ble.HandshakeForwardOnly | js/bluetooth.js:76-103 | Each notification either leaves the chain state alone and sends nothing, or moves it exactly one step forward and sends a packet. The link becomes ready exactly at `auth_3`. `ready` and `disconnected` never change. |
| Ble.ChallengeAnswer | js/bluetooth.js:76-91 | A challenge of 18 characters or fewer is ignored. A longer one is answered with the 35-octet digest response, and the state moves to `auth_1`. |
| Ble.FourNotificationsToReady | js/bluetooth.js:76-103 | From `handshake`, four notifications lead to `ready`. On the way the link sends the digest response, `01 00 00`, `02 00 00` and `80 01 00 00`, in that order. |
| Ble.IsDone | js/bluetooth.js:106 | The notification counts as done exactly when the marker text occurs somewhere in its hex rendering. |
| Ble.DoneBytesHex | js/bluetooth.js:106 | The done marker's hex text is the hex rendering of its seven octets. |
| Ble.DoneBytesDetected | js/bluetooth.js:106-108 | A notification holding the marker's seven octets anywhere is taken as a finished batch. |
| Ble.HexOfAppend | js/bluetooth.js:73 | The hex rendering of two byte strings joined is the two renderings joined. |
| Ble.MisalignedMarkerAccepted | js/bluetooth.js:106 | Because the search runs on hex text, a notification holding the marker only half an octet out of step is also taken as done, although neither aligned 7-octet window equals the marker. |
| Ble.Link.constructor | js/bluetooth.js:6-11 | A new link is disconnected, has no device and no write characteristic, and has written nothing. |
| Ble.Link.SendPacket | js/bluetooth.js:64-69 | Without a write characteristic the packet is rejected and nothing is written. Otherwise it is queued behind every earlier write. |
| Ble.Link.ConnectDevice | js/bluetooth.js:23-41 | The device is recorded. Only when a write characteristic is bound does the chain enter `handshake` and send `07 00 00 00`. |
| Ble.Link.OnDisconnect | js/bluetooth.js:53-57 | Every field goes back to disconnected, and the write log is kept. |
| Ble.Link.OnNotify | js/bluetooth.js:71-109 | The chain moves one step. `isConnected` becomes true when the chain reaches ready. The step's packet is written when a write characteristic exists. The result says whether the done marker was seen. |
| Ble.DisconnectThenSend | js/bluetooth.js:53-69 | After a disconnect, a send is rejected and writes nothing. |
| Drills.LetterInjective | js/ui.js:36 | Different banks have different letters. |
| Drills.NormalizeStep | js/state.js:43-46 | A bare shot becomes a one-variant step, and a variant list is kept. |
| Drills.NormalizeLevel | js/state.js:43-46 | Step i of the level becomes `NormalizeStep` of step i: each bare shot becomes a one-variant step. |
| Drills.NormalizeDrill | js/state.js:40-48 | Each of levels 1 to 3 becomes `NormalizeLevel` of itself. Every other level, the key set, every level length and the random flag are kept. |
| Drills.NormalizeLevelFixes | js/state.js:43-46 | A level without bare shots is unchanged. |
| Drills.NormalizeDrillIdempotent | js/state.js:36-50 | Normalising twice is normalising once. |
| Drills.NormalizeAll | js/state.js:38-49 | Every drill except the `random` key becomes `NormalizeDrill` of itself, and the `random` drill is kept. The key set and the random flags are kept. |
| Drills.AsSteps | js/editor.js:53 | Variant lists stored as steps are normalised and read back as the same lists. |
| Drills.IndexOfKey | js/ui.js:72 | `findIndex` returns the first position holding the key, or -1 when no entry holds it. |
| Csv.CategoryOfSpec | js/state.js:110-116 | A Set field names a bank exactly when it trims to that bank's letter in either case. |
| Csv.Separator | js/state.js:120 | The line is split on `;` exactly when it contains one; otherwise it is split on `,`. |
| Csv.ParseParams | js/state.js:129-132 | Accepted parameters are the `parseInt`/`parseFloat` values of fields 3 to 8. |
| Csv.ParseParamsNone | js/state.js:129-132 | The parameters read exactly when all six fields read as numbers. |
| Csv.ParseRow | js/state.js:118-134 | An accepted row comes from a non-blank line, and is the row of its fields. |
| Csv.MakeRow | js/state.js:121-132 | A row is made exactly when the Ball number, the bank and the parameters all read. It holds the trimmed Set code, those values and the cut name. |
| Csv.RowName | js/state.js:125 | The name is the trimmed field cut to at most 32 characters; a trimmed field of 32 or fewer is kept whole. |
| Csv.RowOfRejects | js/state.js:121-132 | The fields make a row exactly when there are nine or more, the Set field names a bank, the Ball field reads as a number, and the six parameters read. |
| Csv.IgnoredLines | js/state.js:119-132 | Lines that are skipped: blank lines, lines with fewer than nine fields, lines whose Ball field is not a number, lines whose Set field is not A, B or C, and lines whose shot parameters do not all read. A line that none of these rejects is read. |
| Csv.AcceptedLine | js/state.js:121-127 | An accepted row holds the Ball number, the trimmed Set code, its bank, the parameters, and the trimmed name cut to 32 characters. |
| Csv.KeyShape | js/state.js:123-134 | The key is `cust_`, the one-letter Set code as written, `_`, then the name with no white space. |
| Csv.AddRowGroup | js/state.js:136-147 | An accepted line appends its shot to the group of its own key and Ball number, and to no other group. |
| Csv.CollectGroups | js/state.js:118-148 | Each collected group holds exactly the shots of the lines with that key and Ball number, in file order. |
| Csv.CollectNonEmpty | js/state.js:136-147 | No collected group is empty. |
| Csv.CollectBanks | js/state.js:136-142 | After reading, each bank holds at most 20 entries and no key twice. Every entry names a collected drill. |
| Csv.MinOf | js/state.js:154 | The least of a non-empty set of Ball numbers is in the set. |
| Csv.SortedRealsSpec | js/state.js:154 | The sorted Ball numbers are exactly the group's numbers, each once, strictly ascending. |
| Csv.LevelOf | js/state.js:153-156 | An imported level has one step per Ball number, in ascending order. Each step holds that number's group. |
| Csv.Override | js/state.js:151-157 | Imported drills replace or add to the kept ones, and other drills are kept. |
| Csv.ImportInto | js/state.js:104-159 | After the import, drills listed in the old banks are gone unless re-imported. Every collected key maps to its imported drill, other drills are kept, and the banks are the collected ones. |
| Csv.ImportIntoUnique | js/state.js:104-159 | That contract determines the resulting drill map completely. |
| Csv.ImportedSteps | js/state.js:141-156 | An imported drill has levels 1, 2 and 3, all equal, and no random flag. Level 1 has one step per Ball number in ascending order, holding the shots of the matching lines. |
| Csv.GroupIsMatching | js/state.js:144-147 | A collected group holds the shots of its matching lines, and at least one. |
| Csv.VariantRowsStep | js/state.js:184-187 | Each variant appends one `;`-joined row and a line feed. |
| Csv.RowLineFields | js/state.js:185 | Splitting an exported row gives back its nine fields. |
| Csv.RowLineNotBlank | js/state.js:185 | An exported row is never skipped as blank. |
| Csv.BallNumberReads | js/state.js:183-185 | A printed Ball number reads back as itself. |
| Csv.RowFieldsParams | js/state.js:129-132 | The six printed parameters read back as the shot. |
| Csv.VariantRows | js/state.js:184-187 | Each variant row ends with a line feed, and a step with no variant writes nothing. |
| Csv.BlankRows | js/state.js:182-187 | A bare step writes its blank rows, each ending with a line feed. |
| Csv.StepRows | js/state.js:182-187 | A step's rows each end with a line feed. |
| Csv.LevelRows | js/state.js:182-188 | A level's rows each end with a line feed. |
| Csv.EntryRows | js/state.js:179-189 | An entry's rows each end with a line feed. |
| Csv.BankRows | js/state.js:178-190 | A bank's rows each end with a line feed. |
| Csv.CategoriesRows | js/state.js:175-190 | The bank rows end with a line feed, and no listed bank writes nothing. |
| Csv.ExportText | js/state.js:171-192 | The exported text starts with the header and ends with a line feed. Without banks it is the header alone. |
| Csv.ExportRowRoundTrip | js/state.js:118-185 | An exported row, imported again, gives back its bank, Ball number, name and shot. This needs a name without `;` and a drop text that reads back as the drop. |
| State.NormalizeLevels | js/state.js:40-48 | The level loop normalises one drill as `NormalizeDrill` states. |
| State.NormalizeEvery | js/state.js:38-49 | The key loop normalises the map as `NormalizeAll` states. |
| State.Store.constructor | js/state.js:4-8 | The store starts with the loaded drills and banks, level 1, reps mode and zero statistics. |
| State.Store.NormalizeDrills | js/state.js:36-50 | Only the drills change, and they become `NormalizeAll` of the old ones. |
| State.Store.ResetStats | js/state.js:84-92 | When confirmed, both counters become 0. Otherwise nothing changes. |
| State.Store.ImportCustomDrills | js/state.js:96-169 | The drills and banks become the import result, nothing else changes, and the import reports success. |
| State.Store.ExportCustomDrills | js/state.js:171-192 | The text is the header, then the rows of banks A, B and C in order. |
| State.RemoveBankDrills | js/state.js:104-108 | The clearing loop removes exactly the drills listed in some bank. |
| State.CollectLines | js/state.js:118-148 | The line loop builds the same groups and banks as the fold `Collect`. |
| State.AddLine | js/state.js:136-147 | One accepted line updates the entries and groups as `AddRow` states. |
| State.Finalize | js/state.js:151-157 | Every collected key gets its imported drill, and every other kept drill stays. |
| State.BuildDrill | js/state.js:152-156 | The level loop builds the imported drill. |
| State.AppendBank | js/state.js:177-190 | The bank loop appends exactly that bank's rows. |
| State.AppendEntry | js/state.js:179-189 | An entry's rows are level 1 of its drill, step by step, with 1-based Ball numbers. |
| State.AppendLevel | js/state.js:182-188 | The step loop appends the rows of every step of the level in order, step s with Ball number s + 1. |
| State.AppendVariants | js/state.js:184-187 | One row per variant, in order. |
| Runner.Pick | js/runner.js:127-135 | `Math.floor(Math.random() * m)` is an index below m. |
| Runner.Swap | js/runner.js:128 | The swap exchanges two cells and keeps the others. |
| Runner.ShuffleFromPermutes | js/runner.js:126-129 | The shuffle loop permutes the steps. |
| Runner.ShuffledPermutes | js/runner.js:123-130 | A random drill's sequence is a permutation of its steps. |
| Runner.SwapCells | js/runner.js:128 | The in-place swap of two array cells. |
| Runner.Shuffle | js/runner.js:125-129 | The in-place shuffle loop matches the shuffle specification and uses one random draw per swap. |
| Runner.Chosen | js/runner.js:134-139 | One ball per step, each one of that step's variants. |
| Runner.FirstUnplayable | js/runner.js:134-138 | The first step without variants, where packing throws. Every earlier step is playable. |
| Runner.PermutationPlayable | js/runner.js:123-139 | A permutation of the steps is playable exactly when the steps are. |
| Runner.IterationBatch | js/runner.js:109-139 | An iteration sends a batch exactly when every step has a variant. The batch has one ball per step, drawn from the steps in some permuted order. Without the random flag it follows the stored order. |
| Runner.IterationSends | js/runner.js:122-139 | Playable steps always give one ball per step. |
| Runner.Records | js/runner.js:138 | One packed 24-octet record per chosen ball. |
| Runner.Emit | js/runner.js:141-149 | A batch adds its size to the ball count and one to the drill count. A throw changes nothing. |
| Runner.EmitSends | js/runner.js:141-149 | With a write characteristic, a batch appends one frame: command 0x81, 7+24N octets. |
| Runner.TargetOf | js/runner.js:100 | `parseInt(...) \|\| 1`: NaN and 0 become 1, and every other value is kept. |
| Runner.Batches | js/runner.js:100-156 | A reps run sends the target number of batches, and at least one. |
| Runner.Cancel | js/runner.js:184 | Clearing a handle removes that timer only; `null` clears nothing. |
| Runner.CancelAll | js/runner.js:200-202 | The three clears of `stopRun` remove exactly those timers. |
| Runner.CancelAllIdempotent | js/runner.js:197-209 | Clearing again changes nothing. |
| Runner.Decrement | js/runner.js:94 | `remainingTime--` subtracts one; NaN stays NaN. |
| Runner.Order | js/runner.js:122-130 | The sequence is the stored steps, or a shuffled copy when the drill is random. |
| Runner.ChooseAndPack | js/runner.js:133-139 | One draw per step, with the chosen variant packed, until a step without variants throws. |
| Runner.ThrownAt | js/runner.js:134-139 | A throw at step i comes after i+1 draws. |
| Runner.Prepare | js/runner.js:121-139 | Sequence building, choice and packing together give the iteration outcome and its records. |
| Runner.SelectedSteps | js/runner.js:30 | The steps exist exactly when the drill and the selected level exist. |
| Runner.Runner.constructor | js/runner.js:6-18 | The runner starts not running, not paused, with zero counters and no timers. |
| Runner.Runner.Schedule | js/runner.js:56-63 | `setTimeout`/`setInterval` return a fresh handle and add one pending timer. |
| Runner.Runner.StartDrillSequence | js/runner.js:29-66 | A missing drill or level changes nothing. Otherwise the steps and random flag are taken, and a countdown interval starts at 4. |
| Runner.Runner.RunIteration | js/runner.js:109-150 | When running and not paused, the reps counter advances and the batch is sent with its statistics. Otherwise nothing changes. |
| Runner.Runner.Transmit | js/runner.js:141-149 | The statistics and the outbound log change as `Emit` states. |
| Runner.Runner.BeginDrillExecution | js/runner.js:68-107 | The run is running and not paused, and then one iteration has run. Time mode takes the parsed time, NaN included, and starts a clock interval under a fresh handle. Reps mode sets the target to the parsed reps, or to 1 when they are NaN or 0, and counts from zero, so the first iteration leaves the count at 1. |
| Runner.Runner.HandleDone | js/runner.js:153-167 | The marker is ignored unless running. A reps run at its target stops. Otherwise, unless paused, the rest timer is set. |
| Runner.Runner.Notify | js/bluetooth.js:71-109 | One handshake step runs as `HandshakeStep` states. Then the completion marker calls `handleDone`: a reps run at its target stops, another run sets its rest timer unless paused, and without the marker or a run nothing else changes. |
| Runner.Runner.TogglePause | js/runner.js:169-195 | Resuming unpauses and runs an iteration. Pausing clears the rest timer and sends the stop command. |
| Runner.Runner.StopRun | js/runner.js:197-209 | Not running, not paused, the three timers cleared and the stop command sent. |
| Runner.Runner.FireRest | js/runner.js:163-165 | The rest timer is consumed. It runs an iteration only if the run is still going and not paused. |
| Runner.Runner.TickCountdown | js/runner.js:56-65 | The count goes down. At zero the interval is cleared and the go timeout is set. |
| Runner.Runner.FireGo | js/runner.js:63 | The go timeout is consumed and the run begins. |
| Runner.Runner.TickClock | js/runner.js:92-98 | Unless paused, the time goes down by one, and at zero or below the run stops. |
| Runner.UninterruptedRepsRun | js/runner.js:68-167 | A reps run of playable steps on a connected link sends exactly `Batches(target)` frames of one record per step, then the stop command, and ends stopped. |
| Runner.NextRound | js/runner.js:153-165 | One marker and rest round: either the next batch or the stop. |
| Runner.StartReps | js/runner.js:99-106 | Starting a reps run sends the first batch and sets the count to 1. |
| Runner.IteratedSends | js/runner.js:133-149 | An iteration over playable steps appends exactly one frame of one record per step. |
| Runner.AnswerDone | js/runner.js:153-166 | The marker during a reps run either stops it at the target or sets the rest timer. |
| Runner.RestEnds | js/runner.js:163-165 | The rest timer firing during a run sends one batch. |
| Runner.RepeatedStop | js/runner.js:197-209 | A second `stopRun` leaves the same state; only the stop command is sent again. |
| Runner.JsRem | js/runner.js:212 | JavaScript's `%` takes the sign of the dividend. |
| Runner.PaddedSecondsValue | js/runner.js:212 | Seconds print as two digits that read back as the value. |
| Runner.FormatTime | js/runner.js:211-213 | NaN prints as `NaN:NaN`. A non-negative time prints as minutes, a colon, then exactly two characters of seconds. |
| Runner.FormatTimeReadsBack | js/runner.js:211-213 | The clock text splits at its one colon into the minutes and two-digit seconds, which read back as `s / 60` and `s % 60`. |
| Runner.FormatTimeParts | js/runner.js:211-213 | The colon is the only one in the text. |
| Editor.ClampBall | js/editor.js:44-49 | The clamped shot is inside the editor's ranges, and a shot inside them is kept. |
| Editor.ClampBallNearest | js/editor.js:44-49 | Each of the six fields moves to its lower bound when below, to its upper bound when above, and is kept when inside. Clamping is idempotent. |
| Editor.ClampLists | js/editor.js:42-51 | Every shot of the copy is clamped and the shape is kept. |
| Editor.ClampListsInRange | js/editor.js:42-51 | After clamping all shots are in range, and an in-range copy is unchanged. |
| Editor.WorkingRoundTrip | js/editor.js:21-53 | The deep copy of a normalised level, stored back, is the same level. |
| Editor.Opened | js/editor.js:20-24 | A missing drill or level opens as one default shot. |
| Editor.SavedDrill | js/editor.js:40-53 | The saved drill has the old levels plus the selected one. Every other level is kept. The selected level is normalised and as long as the copy. The flag comes from the checkbox when there is one. |
| Editor.SavedDrillLevels | js/editor.js:40-53 | Saving replaces exactly the selected level with normalised, in-range steps of the copy's length. Without a checkbox the random flag is kept. |
| Editor.OpenSaveRoundTrip | js/editor.js:14-60 | Opening an in-range level and saving it with the same flag gives back the same drill. |
| Editor.TypedReadsBack | js/editor.js:130-137 | The same as `EnteredReadsBack`, stated in terms of the parsed values. |
| Editor.EnteredReadsBack | js/editor.js:130-137 | An input is ignored exactly when `parseFloat` fails, or when the field is an integer field and `parseInt` fails. Otherwise the field reads back as the parsed value (float for the drop, integer elsewhere), and the other five are kept. |
| Editor.Edited | js/editor.js:127-138 | An input keeps the copy's shape and every shot but the addressed one. |
| Editor.EditedOnlyCell | js/editor.js:127-138 | An input changes only the addressed shot and keeps the copy's shape. |
| Editor.Cloned | js/editor.js:140-143 | A one-shot step holding a copy of the shot is inserted right after its step. |
| Editor.ClonedCount | js/editor.js:140-145 | A clone adds exactly one shot. |
| Editor.Deleted | js/editor.js:147-160 | The shot's step loses one shot, or is removed when that was its only shot. The steps before it are kept. |
| Editor.DeletedKeepsOne | js/editor.js:147-160 | A delete that is not refused removes exactly one shot, never empties the copy, and removes the step when it empties. |
| Editor.DeleteUndoesClone | js/editor.js:140-160 | Deleting the shot a clone inserted restores the copy. |
| Editor.TestRecord | js/editor.js:169-170 | The test record is the shot packed with frequency 50 and one repeat. |
| Editor.WrittenTestPacket | js/editor.js:173 | `new Uint8Array([record])` is one octet. It is the record's octet when the record has exactly one, and 0 (NaN converted) otherwise. |
| Editor.TestPacketLosesRecord | js/editor.js:173 | The written packet is neither the record nor a framed packet. |
| Editor.OneShotFrame | js/runner.js:215-224 | A one-record frame is 31 octets: command 0x81, payload length 28, then the record. |
| Editor.IntendedTestPacketFields | js/editor.js:169-173 | The corrected test packet frames the shot: 31 octets, command 0x81, length 28, clamped speed, one repeat. |
| Editor.Editor.constructor | js/editor.js:9-10 | No key and no working copy. |
| Editor.Editor.OpenEditor | js/editor.js:14-28 | The key is recorded first. A missing drill throws when the page has the checkbox. Otherwise the copy is `Opened`. |
| Editor.Editor.CloseEditor | js/editor.js:30-34 | The key and the copy are cleared. |
| Editor.Editor.ClampWorking | js/editor.js:42-51 | The nested loops clamp the copy as `ClampLists` states. |
| Editor.Editor.SaveDrillChanges | js/editor.js:36-60 | Skipped without a key or a copy. It throws when the drill is gone, leaving the copy clamped only when there is no checkbox. Otherwise it stores `SavedDrill` under the key and closes. |
| Editor.Editor.HandleEditorInput | js/editor.js:127-138 | Without a copy nothing happens. Otherwise the copy becomes `Edited`. |
| Editor.Editor.HandleCloneBall | js/editor.js:140-145 | The copy becomes `Cloned`. |
| Editor.Editor.HandleDeleteBall | js/editor.js:147-160 | Refused exactly for the last shot of a one-step copy. Otherwise the copy becomes `Deleted`. |
| Editor.Editor.HandleTestBall | js/editor.js:162-179 | When not connected nothing is sent. When connected, the packet as written is sent if the link has a write characteristic. |
| Ui.BankPrefix | js/ui.js:36-37 | `cust_<letter>_` is seven characters. |
| Ui.NewKey | js/ui.js:36-37 | A new key is longer than its bank's prefix and starts with it. |
| Ui.NewKeyShape | js/ui.js:36-37 | A new key starts with its bank's prefix, names that bank, and holds no white space. |
| Ui.Admit | js/ui.js:17-35 | The bank is full exactly when it holds 20 or more drills. Otherwise a dismissed or empty answer cancels. A name that is too long or has a character outside the set is refused for that reason. |
| Ui.AdmitSpec | js/ui.js:17-37 | A drill is created exactly when the bank has fewer than 20 entries and the name has 1 to 25 characters, all from the allowed set. The key is then `NewKey`. |
| Ui.HandleCreateNewDrill | js/ui.js:17-54 | A refusal changes nothing. A creation appends the entry, stores the new drill, and opens the editor on it. |
| Ui.NewDrillOpens | js/ui.js:41-53 | The editor opens a new drill on its one shot at level 1 and on no step at levels 2 and 3. |
| Ui.Rekey | js/ui.js:87-88 | A key with the custom prefix gets the target bank's prefix and keeps the rest; any other key is kept. The length is kept. |
| Ui.RekeyNamesTarget | js/ui.js:87-88 | A key with the custom prefix, in either case, is rewritten to name the target bank, and the rest of the key is kept. Other keys are kept. |
| Ui.DroppedKey | js/ui.js:87-92 | The new key starts with the rewritten key. It is the rewritten key itself when no drill holds that key. |
| Ui.DroppedKeyFresh | js/ui.js:87-92 | A moved drill never lands on its own key. |
| Ui.Located | js/ui.js:71-78 | The last bank holding the key and its position, or none when no bank holds it. |
| Ui.FindSource | js/ui.js:71-78 | The bank loop finds `Located`. |
| Ui.RemoveAt | js/ui.js:101 | `splice(i, 1)` removes one position and shifts the rest. |
| Ui.MovedBanksCount | js/ui.js:96-101 | A move keeps the total of custom entries, and the target gains the entry under its new key with its name kept. |
| Ui.MoveEntry | js/ui.js:94-102 | The drill is copied to the new key, the entry is moved, and the old key is deleted. |
| Ui.HandleTabDrop | js/ui.js:62-111 | An empty key, an unknown key, the same bank, a full target or missing data changes nothing. Otherwise the drill moves under `DroppedKey`. |
| Ui.DropMoves | js/ui.js:87-102 | After a move the drill is under its new key only, other drills are kept, and the entry count is kept. |
| Ui.Rebuilt | js/ui.js:317-320 | The rebuilt list has no more entries than keys, and every entry comes from the old list. |
| Ui.RebuiltFollowsKeys | js/ui.js:317-320 | When every key has an entry, the rebuilt list follows the new key order. |
| Ui.RebuildList | js/ui.js:316-320 | The loop builds `Rebuilt`. |
| Ui.RebuiltPermutes | js/ui.js:314-321 | A full reordering of a list with distinct keys is a permutation of it. |
| Ui.HandleReorder | js/ui.js:304-325 | A built-in list takes the new keys when the lengths match. A custom bank is rebuilt when the lengths match. Otherwise nothing changes. |
| Ui.FormatDrillName | js/ui.js:385-388 | Custom keys are shown as they are, and the length is always kept. |
| Ui.FormatDrillNameSpec | js/ui.js:387 | No dash is left, and the spaces are exactly the old dashes and spaces. Word starts are upper case, and every other character is kept. |
| Ui.FormatDrillNameIdempotent | js/ui.js:385-388 | Formatting a display name again changes nothing. |
| Ui.FormatDrillNameExample | js/ui.js:385-388 | `push(b)-loop(f)` shows as `Push(B) Loop(F)`. |

## Left out

- Editor.Editor.HandleEditorInput: when `parseFloat` succeeds but `parseInt` gives NaN (input such as `.5`), the source stores NaN in the cell. The model leaves the cell unchanged, because shots hold numbers.
- Editor.Editor.OpenEditor: a bare step is read as a one-variant list, and the checkbox's displayed value is not modelled.
- Ui.HandleCreateNewDrill: the four extra values after the six shot parameters in the new drill's shot are dropped. Two drills created in the same millisecond with the same name are not modelled as colliding.
- Ui.HandleReorder: a built-in category with no `drillOrder` entry, or a custom category with no list, is modelled as an error outcome that changes nothing. The source throws.
- Float32 encoding (`setFloat32`) and MD5 are parameters of the model, because their bit-level arithmetic is not the subject.
- Timers are pending entries in a map, fired by explicit methods, because the browser's event loop is not modelled. The 800 ms go delay and the rest pause duration are therefore not modelled.
- `localStorage` persistence, the DOM, toasts, logs, the progress ring and rendering are left out, because they do not affect the modelled state.
- Runner.Runner.BeginDrillExecution: the time and reps inputs are taken already parsed (`Text.ParseInt` models `parseInt` itself), because reading the DOM is not modelled.
- `Date.now()`, `prompt` and `confirm` answers, the random checkbox and `Math.random` are parameters.
- js/utils.js is not part of this model; `clamp` is taken as min/max.
- js/cloud.js, js/main.js and the session summary in js/state.js are outside the core.
- `parseFloat` of `Infinity` and NaN values stored in shot fields are not modelled: shot parameters are numbers.
- Text.SplitLines: its own contract gives only the number of lines. The content of each line is stated by the lemma Text.SplitLinesPieces, so that callers that only count lines do not carry it.
- Text.UnderscoreSpaces: its own contract gives only "no white space, never longer". The lemmas Text.UnderscoreKeeps and Text.UnderscoreLeadingRun state that other characters are kept in order and that each maximal run of white space becomes one `_`.
- Csv.ParseRow: a line whose Set and Ball fields read but whose shot parameters do not (for example `A;1;Foo;x;3000;0;0;50;1`) is dropped. The source keeps it, with NaN in the unreadable parameters, because it never checks them. The model has no NaN shot values, so it cannot keep that line.
- Ble.DecodeText: octets are read as single characters, which is `TextDecoder` (UTF-8) for ASCII only. For octets 0x80 and above the decoder produces different characters, and the serial, salt and hash input would differ.
- Csv.ExportText: the `fmt` parameter stands for JavaScript's `Number.prototype.toString` on the drop. Csv.ExportRowRoundTrip requires that `parseFloat` reads that text back as the drop, which the model does not prove for every real.
- Ball numbers and drops are exact reals, not IEEE-754 doubles. `parseFloat` rounding is not modelled, and neither is grouping by Ball numbers that only round to the same double.
- The asynchronous write queue is modelled as an ordered outbox; write errors reported by the device are not modelled.
- The device scan and GATT service discovery of `connectDevice` are a parameter: whether a write characteristic was found.

## Findings

| source | as written | input that shows it | evidently intended | confidence | as-written member | corrected member |
|---|---|---|---|---|---|---|
| js/editor.js:173 | `sendPacket([ballData])` wraps the 24-octet record in an array, so `new Uint8Array` converts the record to NaN, and the robot receives the single octet 0 | any test-ball press while connected, for example with the default shot | the shot framed as a one-shot packet, as the runner sends shots | not executed | Editor.TestPacketLosesRecord | Editor.IntendedTestPacketFields |
