# vdb settings persistence, modelled in Dafny

vdb is a visual debugger. It keeps its window, camera and per-block ("frame")
settings in a small INI-like file. `settings_t::LoadOrDefault` resets every setting to
its default and then walks the file's contents with one cursor. Each iteration of its
`while (**c)` loop tries an else-if chain of `key=` literals, in this order:

1. the fifteen global keys, even inside a frame section;
2. the `[frame]` header, which appends a defaulted, named frame to a fixed array of
   1024 entries;
3. inside a frame only, the thirteen frame keys.

A key that matches hands the cursor to a primitive parser (`ParseInt`, `ParseFloat`,
`ParseBool`, ...). That parser writes the setting through an out pointer. When nothing
matches, the cursor moves on one character, but only outside a frame.
`settings_t::Save` writes the file back. It writes a `[vdb]` line and
one `key=value` line per global setting. Then, for each frame, it writes a blank line,
the header and the keys that frame's camera type uses.

The model has these parts:

- `Text`, `Numbers`, `Camera`, `Model`: the buffer (a string; reading past its end gives
  NUL) and integer and float literals. Also the camera enumerations with their names,
  the settings records and the defaults.
- `Scan`: each primitive parser as a function of the buffer and a cursor index. It
  returns whether it succeeded, the cursor it leaves and the value of its out parameter.
  `Parser`: the same parsers as the C code runs them, as methods with loops, each
  proved equal to its `Scan` function.
- `Loader`: one iteration of the loop (`Dispatch`, `Step`) and the loop itself (`Run`),
  as functions. `Run` ends in `Finished(document)`, `Hangs(at)` (an iteration that makes
  no progress repeats forever) or `Overruns` (the cursor passes the terminator).
  A flag `corrected` selects between the loop as written and the loop with the two
  defects under "Findings" fixed.
- `Saver`: the text `Save` writes, as a function of the settings. The float conversion
  `"%g"` is a parameter `g`.
- `RoundTrip`, `KeyTables`, `Reload`, `Trace`, `SaveLoad`: the proof that loading the
  text `Save` writes gives back the settings. It also states in closed form
  (`Persisted`) what comes back: floats as `"%g"` printed them, the font size and DPI
  scale clamped, and out-of-range enumeration values as the value whose name was
  printed. A frame gets back only the fields its camera type writes; the rest,
  including the turntable, come back at their defaults.
- `Settings`: the record itself, as a class. It has the global fields, a fixed
  `array` of 1024 frames and `numFrames`, plus the methods `LoadOrDefault` and `Save`.
  `LoadOrDefault` fills the object in place, one loop iteration at a time, and is
  proved to produce the outcome `Loader.Load` describes. `Save` builds the text frame
  by frame and is proved to produce `Saver.SaveText`.

Where the program's documentation and its code disagree, the model follows the code:

- The documentation says the loader skips unrecognised bytes one at a time and never
  aborts. In the code the skip happens only outside a frame. Inside a frame, an
  unrecognised line makes no progress (see "Findings").
- The documentation says a primitive parser leaves the cursor unmoved when it fails.
  In the code, every parser consumes the leading blanks even when it fails.
- The documentation says `parse-key` fails unmoved when the `=` is missing. In the
  code it has already stepped over the literal and the blanks after it.
- `ParseInt2`, `ParseMat4` and `ParseVec4` keep the components they read before
  failing.

## Model

| member | source | states |
|---|---|---|
| Camera.CameraTypeToStr | src/settings.h:28-35 | a valid camera type prints as its own name in the table; every other value prints as "disabled" |
| Camera.CameraUpToStr | src/settings.h:37-46 | a valid up axis prints as its own name; every other value prints as "z_up" |
| Model.Identity | src/settings.h:143 | the trackball's default rotation: sixteen entries, one on the diagonal and zero elsewhere |
| Model.DefaultFrameSettings | src/settings.h:140-158 | the defaulted frame keeps the name it is given |
| Model.DefaultDocument | src/settings.h:330-347 | the defaults start with no frames and the build's default font size |
| Numbers.ClampInt | src/settings.h:175-179 | the result is never above hi, and not below lo when lo <= hi; values in range are unchanged; values above give hi, values below give lo |
| Numbers.NatDigitsValue | src/settings.h:444-447 | the digits "%d" prints for a natural number denote that number |
| Numbers.LexIntFormatted | src/settings.h:185 | sscanf "%d" reads back exactly the integer "%d" printed, and stops where its text ends |
| Numbers.LexFloatFormatted | src/settings.h:212 | an integer printed by "%d" is a float literal whose sign and digits are the integer's |
| Numbers.TruncateFormatInt | src/settings.h:214 | (int) of the float read from the text of an integer gives that integer |
| Scan.Blank | src/settings.h:169-173 | ParseBlank stops after the maximal run of space, LF, CR and tab, and never fails |
| Scan.BlankTwice | src/settings.h:252-254 | skipping blanks a second time does not move the cursor |
| Scan.Literal | src/settings.h:233-248 | ParseString never moves the cursor back or past the terminator, on success or failure; Parser.ParseString, proved equal to it, states when it succeeds and where it stops |
| Scan.Key | src/settings.h:250-258 | ParseKey never moves the cursor back or past the terminator; Scan.KeyIff states exactly when it succeeds and where it stops |
| Scan.Int | src/settings.h:181-193 | ParseInt never moves the cursor back or past the terminator (the rest: Scan.IntOutcome, Scan.IntRoundTrip) |
| Scan.IntOutcome | src/settings.h:181-193 | a value read with lo < hi lies within lo..hi; on failure the cursor is left after the blanks and the out parameter keeps its old value |
| Scan.Float | src/settings.h:195-205 | ParseFloat never moves the cursor back or past the terminator (the rest: Scan.FloatOutcome, Scan.FloatRoundTrip) |
| Scan.FloatOutcome | src/settings.h:195-205 | on failure the cursor is left after the blanks and the out parameter keeps its old value |
| Scan.FloatToInt | src/settings.h:207-220 | ParseFloatToInt never moves the cursor back or past the terminator (the rest: Scan.FloatToIntOutcome, Scan.FloatToIntReads) |
| Scan.FloatToIntOutcome | src/settings.h:207-220 | a value read is never above hi, and not below lo when lo <= hi (the clamp is unconditional); on failure the cursor is left after the blanks and the old value kept |
| Scan.Comma | src/settings.h:222-231 | ParseComma never moves the cursor back or past the terminator |
| Scan.Bool | src/settings.h:260-270 | ParseBool never moves the cursor back or past the terminator (the rest: Scan.BoolOutcome and the three Bool lemmas) |
| Scan.BoolOutcome | src/settings.h:260-270 | a success consumes at least one character after the blanks; a failure leaves the cursor after the blanks and the old value |
| Scan.CameraType | src/settings.h:272-280 | ParseCameraType never moves the cursor back or past the terminator (the rest: Scan.CameraTypeOutcome, Scan.CameraTypeRoundTrip) |
| Scan.CameraTypeOutcome | src/settings.h:272-280 | a success stores a valid camera type; a failure leaves the cursor after the blanks and the old value |
| Scan.CameraUp | src/settings.h:282-292 | ParseCameraUp never moves the cursor back or past the terminator (the rest: Scan.CameraUpOutcome, Scan.CameraUpRoundTrip) |
| Scan.CameraUpOutcome | src/settings.h:282-292 | a success stores a valid up axis; a failure leaves the cursor after the blanks and the old value |
| Scan.Int2 | src/settings.h:294-301 | ParseInt2 never moves the cursor back or past the terminator (the rest: Scan.Int2KeepsY and the Int2 lemmas) |
| Scan.Int2KeepsY | src/settings.h:294-301 | whenever ParseInt2 fails, y keeps its old value |
| Scan.Mat4 | src/settings.h:303-312 | the matrix keeps its sixteen entries and the cursor stays within the buffer, whether or not the loop completes |
| Scan.Vec4 | src/settings.h:314-325 | ParseVec4 never moves the cursor back or past the terminator (the rest: Scan.Vec4Reads, Scan.Vec4KeepsFirst) |
| Scan.FirstLiteral | src/settings.h:265-268 | an else-if chain of ParseString calls picks the first name that matches; none before it matches |
| Scan.KeyIff | src/settings.h:250-258 | ParseKey succeeds exactly when blanks, the literal, blanks and '=' follow in that order, and it then stops just past the '=' |
| Scan.KeyMatches | src/settings.h:250-258 | a key followed by '=' after blanks is matched, and the cursor ends one past the '=' |
| Scan.KeyMisses | src/settings.h:250-258 | a key whose literal does not follow the blanks fails, leaving the cursor after the blanks |
| Scan.IntRoundTrip | src/settings.h:181-193 | ParseInt reads back the integer "%d" printed, clamped only when the bounds differ |
| Scan.FloatRoundTrip | src/settings.h:195-205 | ParseFloat reads a float literal whole and stores the value it denotes |
| Scan.FloatToIntReads | src/settings.h:207-220 | ParseFloatToInt truncates the float it reads and always clamps it |
| Scan.FloatToIntRoundTrip | src/settings.h:207-220 | ParseFloatToInt on the text of an integer gives that integer, clamped |
| Scan.BoolDigit | src/settings.h:263-264 | '0' and '1' give false and true and consume exactly one character, so "10" gives true and leaves the '0' |
| Scan.BoolWord | src/settings.h:265-268 | "False", "True", "false" and "true" give their value and consume the word |
| Scan.BoolRejects | src/settings.h:260-270 | any other text fails, leaves the cursor after the blanks and keeps the old value |
| Scan.FirstLiteralSelects | src/settings.h:275-290 | when the names before k all differ from name k at some position, finding name k selects entry k |
| Scan.CameraTypeRoundTrip | src/settings.h:272-280 | ParseCameraType on the name CameraTypeToStr printed gives the type back (disabled for an invalid one) and consumes exactly the name |
| Scan.CameraUpRoundTrip | src/settings.h:282-292 | ParseCameraUp on the name CameraUpToStr printed gives the axis back (z_up for an invalid one) and consumes exactly the name |
| Scan.Int2RoundTrip | src/settings.h:294-301 | ParseInt2 reads back "%d,%d" as the pair printed |
| Scan.Int2Reads | src/settings.h:294-301 | ParseInt2 succeeds with both values when integer, comma and integer read in turn |
| Scan.Int2KeepsFirst | src/settings.h:294-301 | ParseInt2 is not atomic: when the comma is missing, x is already overwritten and y is untouched (the failed-second-integer case: Scan.Int2KeepsFirstOnSecond) |
| Scan.Int2KeepsFirstOnSecond | src/settings.h:294-301 | ParseInt2 is not atomic: when the comma reads but the second integer fails, x is already overwritten, y is untouched, and the cursor is where the second integer stopped |
| Scan.MatrixReadsList | src/settings.h:306-310 | the loop of ParseMat4 reads a comma-separated list of float literals element by element |
| Scan.Mat4RoundTrip | src/settings.h:303-312 | ParseMat4 on sixteen comma-separated float literals stores the sixteen values they denote |
| Scan.Vec4Reads | src/settings.h:314-325 | ParseVec4 on four comma-separated float literals succeeds, stores their four values as x, y, z and w, and stops just after the last |
| Scan.Vec4KeepsFirst | src/settings.h:314-325 | ParseVec4 is not atomic: when no comma follows x, x is stored and y, z and w are untouched |
| Parser.ParseBlank | src/settings.h:169-173 | the while loop stops after the maximal run of blanks |
| Parser.ParseString | src/settings.h:233-248 | succeeds exactly when the text after the blanks starts with the match, ending just past it; a mismatch leaves the cursor after the blanks |
| Parser.ParseKey | src/settings.h:250-258 | succeeds exactly when literal, blanks and '=' follow the blanks; once the literal is found, the cursor is past it and its blanks whether or not '=' follows |
| Parser.ParseInt | src/settings.h:181-193 | the cursor, success and value Scan.Int gives, whose round trip Scan.IntRoundTrip states |
| Parser.ParseFloat | src/settings.h:195-205 | the cursor, success and value Scan.Float gives (round trip: Scan.FloatRoundTrip) |
| Parser.ParseFloatToInt | src/settings.h:207-220 | the cursor, success and value Scan.FloatToInt gives (truncated and clamped: Scan.FloatToIntReads) |
| Parser.ParseComma | src/settings.h:222-231 | the cursor and success Scan.Comma gives |
| Parser.ParseBool | src/settings.h:260-270 | the cursor, success and value Scan.Bool gives (Scan.BoolDigit, Scan.BoolWord, Scan.BoolRejects) |
| Parser.ParseCameraType | src/settings.h:272-280 | the cursor, success and value Scan.CameraType gives (round trip: Scan.CameraTypeRoundTrip) |
| Parser.ParseCameraUp | src/settings.h:282-292 | the cursor, success and value Scan.CameraUp gives (round trip: Scan.CameraUpRoundTrip) |
| Parser.ParseInt2 | src/settings.h:294-301 | the cursor, success and pair Scan.Int2 gives (Scan.Int2RoundTrip, Scan.Int2KeepsFirst, Scan.Int2KeepsFirstOnSecond) |
| Parser.ParseMat4 | src/settings.h:303-312 | the for loop leaves what Scan.Mat4 gives (Scan.Mat4RoundTrip) |
| Parser.ParseVec4 | src/settings.h:314-325 | the cursor, success and vector Scan.Vec4 gives (Scan.Vec4KeepsFirst) |
| Loader.ParseValue | src/settings.h:369-418 | the value parser a branch calls never moves the cursor back or past the terminator, and leaves a value of the shape its key's setting has (its bounds: Loader.ParseValueWithin) |
| Loader.ApplyGlobal | src/settings.h:369-383 | a global key's branch leaves the frames untouched and the cursor within the buffer |
| Loader.ApplyFrame | src/settings.h:406-418 | a frame key's branch keeps that frame's name and leaves the cursor within the buffer |
| Loader.FirstKey | src/settings.h:369-383 | the else-if chain of ParseKey calls yields an index within the table, and a match moves the cursor on |
| Loader.FirstKeyMisses | src/settings.h:369-383 | when no key of the chain follows the blanks, the chain fails with the cursor after the blanks |
| Loader.FirstKeySelects | src/settings.h:369-383 | when key j matches and no earlier key follows the blanks, the chain takes branch j with ParseKey's cursor |
| Loader.Dispatch | src/settings.h:366-419 | a branch that runs moves the cursor on and keeps the frame count within 1024, with an open frame existing |
| Loader.HeaderChain | src/settings.h:384-403 | the header and frame part of the chain keeps the frame count within its bound |
| Loader.FrameChain | src/settings.h:404-419 | a frame key that matches moves the cursor on and keeps the frames consistent |
| Loader.NameEnd | src/settings.h:394-397 | the name loop stops at the first NUL, LF or CR, none of which the name holds |
| Loader.Skip | src/settings.h:420 | as written, the cursor moves one character on exactly when no frame is open; the corrected skip moves on exactly when the cursor is not at the terminator, and never past it |
| Loader.HeaderAppends | src/settings.h:384-403 | below capacity, a header appends one frame and opens it; the frames before are kept; the new one is the default frame named by the untrimmed rest of the line up to CR, LF or NUL |
| Loader.StepAtCapacity | src/settings.h:386-391 | at 1024 frames with none open, an iteration adds no frame and leaves none open |
| Loader.RunAtCapacity | src/settings.h:386-391 | from 1024 frames with none open, a load that finishes has exactly those frames: later headers add nothing and their frame keys are not applied |
| Loader.HeaderAtCapacity | src/settings.h:384-391 | at 1024 frames, with or without an open frame, a "[frame]" header adds no frame, sets `frame` to NULL and leaves the cursor just past the header's '=' |
| Loader.StepAtCapacityOpen | src/settings.h:386-419 | at 1024 frames, open or not, an iteration keeps the frame count and every frame but the last |
| Loader.RunFull | src/settings.h:366-421 | from 1024 frames, open or not, a load that finishes has exactly 1024 frames, the first 1023 as they were: a 1025th section adds nothing |
| Loader.RunAfterHeaderAtCapacity | src/settings.h:384-391 | after a header at capacity, a load that finishes keeps all 1024 frames as they were, so the frame keys of the dropped section are not applied |
| Loader.Step | src/settings.h:366-420 | an iteration keeps the state consistent and moves the cursor by at most one past the terminator; one that does not move changes nothing; the corrected iteration always moves and never past the terminator |
| Loader.Run | src/settings.h:366-421 | a finished load has at most 1024 frames; the corrected loop always finishes |
| Loader.RunOnce | src/settings.h:366-421 | one turn of the loop: at NUL the document, else an iteration and the loop from where it left the cursor |
| Loader.Initial | src/settings.h:345-364 | the loop starts with the defaults, no frames and no frame open |
| Loader.Load | src/settings.h:328-421 | a file that cannot be read, and an empty file, give exactly the defaults; the corrected loader always finishes |
| Loader.DefaultsBounded | src/settings.h:330-347 | the defaults satisfy the bounds the clamps guarantee |
| Loader.ParseValueWithin | src/settings.h:369-418 | each value parser leaves its setting unchanged or within its clamp bounds or enumeration |
| Loader.ApplyGlobalBounded | src/settings.h:380-381 | a global key keeps the font size at its default or within 6..96, and the DPI scale within 100..200 |
| Loader.ApplyFrameBounded | src/settings.h:406-418 | a frame key keeps the camera type and up axis valid and the render scales within 0..3 |
| Loader.StepBounded | src/settings.h:366-420 | an iteration preserves those bounds |
| Loader.RunBounded | src/settings.h:366-421 | the loop preserves those bounds |
| Loader.LoadBounded | src/settings.h:328-421 | after any load that finishes, the font size is the default or within 6..96, the DPI scale within 100..200, and every frame's camera type, up axis and render scales are valid |
| Loader.KeysAvoidHash | src/settings.h:369-419 | no key of the chain matches a line starting with '#' |
| Loader.DispatchAtEnd | src/settings.h:366-420 | when only blanks are left, no branch runs and the cursor ends at the terminator |
| Loader.StepMisses | src/settings.h:404-420 | text that no key matches runs no branch; the cursor goes as the one-character skip says |
| Loader.StepOnHash | src/settings.h:404-420 | a '#' line runs no branch |
| Loader.BlankTail | src/settings.h:420 | outside a frame, trailing blanks make the loop as written step past the terminator; the corrected loop finishes with the document |
| Loader.BlankTailInFrame | src/settings.h:404-419 | inside a frame, trailing blanks end the load with the document |
| Loader.BlankFileLoad | src/settings.h:349-421 | a file of blanks gives the defaults, except that the loop as written overruns a non-empty one |
| Loader.CommentInFrame | src/settings.h:404-419 | inside a frame, the loop as written hangs at a '#'; the corrected loop steps over it |
| Loader.CommentOutsideFrame | src/settings.h:420 | outside a frame, a '#' is stepped over |
| KeyTables.GlobalKeyClashes | src/settings.h:369-383 | no global key is matched by the text of a later global key, so the first match is the intended key |
| KeyTables.HeaderClashes | src/settings.h:384 | no global key matches the header's text |
| KeyTables.FrameKeyClashes | src/settings.h:406-418 | no global key, header or earlier frame key matches the text of a frame key |
| KeyTables.VdbMatchesNoKey | src/settings.h:432 | no key matches any tail of the "[vdb]" line |
| Saver.FormatBool | src/settings.h:435-436 | "%d" of a flag is the single digit 1 or 0 |
| Saver.GlobalLines | src/settings.h:433-447 | one line per global key, in the order of the key table, each "key=value" |
| Saver.FieldKeys | src/settings.h:452-467 | Save never writes the turntable keys |
| Saver.FieldKeysAre | src/settings.h:452-467 | the keys written per camera type: disabled writes only the render scales; planar adds the camera type, grid, up axis and cube; other types add the depth range too |
| Saver.FieldKeysChoice | src/settings.h:452-467 | the render scales are always written last; the camera type is written exactly when the camera is enabled; the depth range exactly when the camera is neither disabled nor planar |
| Saver.FieldLines | src/settings.h:454-467 | one line per key written |
| Saver.SaveText | src/settings.h:432-468 | the text Save writes: "[vdb]", then each global line and each frame's lines, each followed by a line feed; it has no contract of its own, and Saver.SaveTextLeading, Saver.SaveTextShape and SaveLoad.SaveThenLoad state its properties |
| Saver.SaveTextLeading | src/settings.h:432-468 | the file is "[vdb]", each line preceded by a line feed, and a final line feed |
| Saver.SaveTextShape | src/settings.h:432-468 | the file starts with the "[vdb]" line and ends in a line feed |
| RoundTrip.PersistedFrame | src/settings.h:448-468 | the frame read back keeps its name and respects the loader's bounds (valid camera type and up axis, render scales within their limits); a valid camera type comes back as itself |
| RoundTrip.Persisted | src/settings.h:424-468 | the settings read back have the font size in 6..96, the DPI scale in 100..200 and as many frames as were saved |
| RoundTrip.PersistedFrames | src/settings.h:448-468 | the frames come back in number and order, each as PersistedFrame says |
| RoundTrip.PersistedGlobal | src/settings.h:433-447 | each global setting of the reloaded document is what the loader reads back from that key's printed value |
| RoundTrip.PersistedField | src/settings.h:452-467 | each written frame field of the reloaded frame is what the loader reads back from that key's printed value |
| RoundTrip.PersistedKeeps | src/settings.h:424-468 | window, the three flags, step delay, in-range font size and DPI scale, frame count and order, names, and valid camera types and render scales all come back; so do the grid, cube and valid up axis of an enabled camera; a disabled camera's up axis, grid and cube, and every turntable and trackball, come back at their defaults |
| RoundTrip.ValueRoundTrip | src/settings.h:369-418 | every value parser reads back, whole, what Save prints for a value of its kind |
| RoundTrip.GlobalValueRead | src/settings.h:369-383 | the branch of a global key reads its value line and stores the persisted setting |
| RoundTrip.FieldValueRead | src/settings.h:406-418 | the branch of a written frame key reads its value and stores the persisted field |
| Reload.DispatchGlobal | src/settings.h:369-383 | a matched global key runs its own branch wherever it appears, even inside a frame |
| Reload.HeaderDispatch | src/settings.h:384-403 | a header line below capacity opens a new frame, with the cursor at the end of its name |
| Reload.NameRead | src/settings.h:394-401 | the name loop stops exactly at the end of a name that holds no CR or LF |
| Reload.FrameKeyApplies | src/settings.h:404-419 | a matched frame key sets its field of the last frame opened |
| Reload.RunMatched | src/settings.h:366-421 | after an iteration that runs a branch, the loop goes on in the new state from the new cursor |
| Trace.WalkRun | src/settings.h:366-421 | a sequence of iterations that each run a branch does not change where the loop ends |
| Trace.GlobalsWalk | src/settings.h:433-447 | the global lines of Save's text are read one iteration per line, each setting taken from the saved document |
| Trace.FrameWalk | src/settings.h:448-468 | one frame's lines are read as one header and one iteration per field line, giving the persisted frame |
| Trace.FramesWalk | src/settings.h:448-468 | all frames' lines are read in order, appending each persisted frame |
| SaveLoad.VdbSkipped | src/settings.h:420 | the "[vdb]" line is stepped over one character at a time |
| SaveLoad.LoadSaved | src/settings.h:366-421 | the loop over text laid out as Save lays it out ends with the persisted settings |
| SaveLoad.SaveThenLoad | src/settings.h:424-470 | loading what Save wrote gives the persisted settings, when frame names hold no line ends; the loader as written overruns when there are no frames |
| Settings.ZeroFrame | src/settings.h:137 | a frame slot of the zero-initialised static record: empty name, camera disabled, render scales zero |
| Settings.StepChangesOneFrame | src/settings.h:366-420 | an iteration appends one frame, changes only the last one, or changes none |
| Settings.Settings.constructor | src/settings.h:137 | the static record starts zeroed: globals, window, camera settings and every frame slot, with no frames in use |
| Settings.Settings.Doc | src/settings.h:120-135 | the record as a value holds exactly the numFrames frames in use |
| Settings.Settings.SetGlobals | src/settings.h:369-383 | writes the global fields of a document into the record |
| Settings.Settings.SetFrames | src/settings.h:393-418 | writes the appended or changed last frame into its array slot; the frames in use are then the new ones |
| Settings.Settings.Commit | src/settings.h:369-419 | after an iteration's changes are written back, the record equals the iteration's new document |
| Settings.Settings.LoadOrDefault | src/settings.h:328-421 | sets the defaults, then runs the loop in place; the outcome is the one Loader.Load describes, and a load that finishes leaves that document in the record |
| Settings.Settings.Save | src/settings.h:424-470 | the text written for the record is Saver.SaveText of its document, whose reload SaveLoad.SaveThenLoad describes |

## Left out

- File I/O: `fopen`, `fseek`, `ftell`, `fread` and `malloc` in LoadOrDefault, and `fopen`,
  `fprintf` and `fclose` in Save. A file that cannot be opened or read is `None`; its
  contents are a string. Save returns the text it would write.
- Float conversion: `sscanf("%f")` and `printf("%g")` are C library float conversions.
  A float is identified by the decimal literal it was read from. `"%g"` is a parameter
  `g`, of which the round trip assumes only that it prints a literal `"%f"` reads whole.
  Binary rounding, infinities, NaN and hexadecimal floats are not modelled.
- Numbers.Truncate: `(int)f` is exact decimal truncation of the literal. Single-precision
  rounding and overflow of the conversion are not modelled.
- Parser.ParseInt: integers are unbounded. The undefined behaviour of `"%d"` overflow
  is not modelled, and integer tokens are `[+-]?digits`.
- A dangling exponent ("1e", "1e+") makes the float conversion fail, as the C standard
  says. The model does not follow any C library that reads such text in part.
- Model.DefaultFrameSettings: its contract states only that the name is kept. The
  default field values are the constants of its body, cited from the code.
- Mat4ToStr and Vec4ToStr: static-buffer `"%f"` formatting that Save does not use.
  IsAlphaNumeric: not used. The trackball state is defaulted but never read or written.
- The turntable angles and radius are read by the loader but never written by Save.
  They come back at their defaults, as RoundTrip.PersistedKeeps states.
- The message written to stderr at capacity, and Save's failure message, are not
  modelled.
- GetFrameSettings: vdb.cpp is not part of this model.
- VDB_DEFAULT_FONT_SIZE is defined outside this file. It is the parameter
  `defaultFontSize`.
- Settings.Settings.Commit writes back the whole changed frame, where the C code writes
  one field of it through the `frame` pointer. The frame's name is a string value,
  not a heap copy.
- Loader.Run: the infinite loop of the code is the outcome `Hangs(at)`, and the
  read past the buffer is `Overruns`. The model stops at the first such iteration.
- src/image.h, src/_matrix.cpp and src/vdb_draw.cpp: OpenGL, ImGui and floating-point
  matrix code outside the settings core.

## Findings

| source | as written | input that shows it | evidently intended | confidence | as-written member | corrected member |
|---|---|---|---|---|---|---|
| src/settings.h:420 | outside a frame, when no key matches, the cursor moves one character on even when the failed keys' blank skipping has already brought it to the terminator; the next test of `**c` reads past the buffer | any file whose last line ends in a line feed outside a frame, such as "[vdb]\nfont_size=12\n"; Save writes exactly such a file when there are no frames | stop at the terminator | not executed | Loader.BlankTail | SaveLoad.SaveThenLoad |
| src/settings.h:404-419 | inside a frame, text that no frame key matches leaves the cursor where the blanks ended, and the next iteration repeats itself forever | "[frame]=a\n#x\n" (a comment line); likewise an unknown key or "camera_type=bogus" inside a frame | step one character on, as outside a frame | not executed | Loader.CommentInFrame | Loader.Run |
