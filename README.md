# RhythmGame core in Dafny

This project models the core of RhythmGame, a grid-based rhythm game written in C# for Unity.

A chart is a list of notes. Each note has a time stamp, a grid cell and a kind:
- **Tap**: hit it with a tap while the cursor is in its cell.
- **Drag**: reached by keeping the cursor in its cell.
- **Block**: must be avoided.

The model covers:
- the two judgment engines (`NoteJudge` by grid cell, `TouchInput` by radius);
- the grade classifier and score accumulator (`JudgeCenter`);
- the note and bar-line spawners (`GameManager`, `BarlineManager`);
- the session flags (`GameState`);
- the osu!-style chart reader (`Util.GetChart`) and the small `Util` helpers;
- the chart editor's note list, BPM event, playback flags and text export (`ChartEditor`);
- the editor grid (`EditorGridVisualizer`);
- a note object's display lifecycle (`Chart.cs`);
- the best-score bookkeeping (`ShowScore`).

In the game, times are integer milliseconds. In the chart editor, note times, event times and the editor clock are reals, as its float fields are. Accuracy, BPM, positions and grid sizes are reals.

Unity objects, audio, tweens and sensors become parameters or an effect log:
- `Queue.Effect` records what an engine hands to `JudgeCenter`, the note objects and the shake effects, in call order.
- A deferred Drag Perfect is a record carrying its delay.

## Files

| file | module | models |
|---|---|---|
| wrappers.dfy | Wrappers | `Option`, `Result` |
| values.dfy | Values | constants of Values.cs; `Mathf.Abs/Clamp/FloorToInt`, the `(int)` cast, C#'s integer `/` |
| text.dfy | Text | `String.Split`/`Join`, `StartsWith`, `int.Parse`, `float.Parse` on decimal text, `int.ToString` |
| chart.dfy | Chart | `NoteType`, note data, the `Note`/`Tap`/`Drag`/`Block` lifecycle |
| judge_center.dfy | JudgeCenter | `Judge`, `UpdateStat`, combo/score/counters/accuracy |
| queue.dfy | Queue | admission walk, miss prefix, back-to-front removal, shared by both engines and the spawners |
| note_judge.dfy | NoteJudge | the grid-cell judgment engine |
| touch_input.dfy | TouchInput | the radius-based judgment engine |
| game_state.dfy | GameState | the session flags and clock |
| game_manager.dfy | GameManager | pre-roll clock, note spawner, play flags |
| barline_manager.dfy | BarlineManager | bar-line spawner |
| util.dfy | Util | `Sign`, `PivotMiddle`, `BinomialCoefficient`, `GetChart` |
| show_score.dfy | ShowScore | `GetRating`, `GetPlayResult`, `UpdateResult` |
| editor_grid.dfy | EditorGrid | the editor grid and its note display table |
| chart_editor.dfy | ChartEditor | the chart editor |

Behaviour of the code that the model keeps as written:
- **Hit-object type bits.** The chart reader takes the type from field 3 (Util.cs:86). Bit 0 makes a Tap (Util.cs:89-99). Otherwise bit 1 makes a Slide (Util.cs:100-161). Any other value makes a default `Note` without an ordinal (Util.cs:162-165).
- **Bad input.** A number that `int.Parse` or `float.Parse` rejects, or a missing field, throws out of `GetChart` (Util.cs:45, 58, 69-77, 86-94). The whole read ends; no line is skipped.
- **Inherited timing points.** A point whose field 6 is not 1 is kept (Util.cs:74-78). It takes the previous point's beat interval and slide speed −100/field 1. If it is the first point, `timingPoints[^1]` throws.
- **Note positions.** A note's position is `PivotMiddle` of the raw (x, y) (Util.cs:93, 104), not a grid cell.
- **No offset in the clock.** The game clock is the pre-roll time or the audio position alone (GameManager.cs:51, 88).
- **Bar lines.** `BarlineManager` walks the list of bar-line times it is given (BarlineManager.cs:11-31).
- **An empty chart.** When the chart is empty, `notes[^1]` in `IsGameFinished` throws once the audio plays (GameManager.cs:98-102). A chart that fails to load is empty.

## Model

| member | source | states |
|---|---|---|
| Values.Truncate | Assets/Script/Game/GameManager.cs:51 | the `(int)` cast truncates toward zero: the magnitude never grows and stays within 1 of the value |
| Values.FloorToInt | Assets/Script/ChartEditor/EditorGridVisualizer.cs:178-179 | the largest integer not above the value |
| Values.Clamp | Assets/Script/ChartEditor/EditorGridVisualizer.cs:181-184 | the result lies in [lo, hi]: the value itself when it lies there, lo below it, hi above it |
| Values.ClampReal | Assets/Script/ChartEditor/ChartEditor.cs:523 | the same for floats |
| Values.TruncDiv | Assets/Script/Util.cs:209 | C#'s integer division: the magnitude is the floor quotient of the magnitudes, the sign is positive iff the operands' signs agree, and it equals floor division on non-negative operands |
| Text.Split | Assets/Script/Util.cs:26 | at least one piece, and no piece contains the separator |
| Text.JoinSplit | Assets/Script/Util.cs:26 | joining the pieces of a split gives back the text |
| Text.SplitJoin | Assets/Script/ChartEditor/ChartEditor.cs:657 | splitting a join of separator-free pieces gives back the pieces |
| Text.ParseShowInt | Assets/Script/ChartEditor/ChartEditor.cs:678 | the decimal text of an integer parses back to it exactly when it is in the range of `int`; otherwise `int.Parse` fails |
| Text.ParseInt | Assets/Script/Util.cs:69 | a parsed value is in the range of `int` and the trimmed text is not empty |
| Text.ParseIntIgnoresWhite | Assets/Script/Util.cs:86 | white space before or after the number does not change what `int.Parse` reads |
| Text.ParseReal | Assets/Script/Util.cs:58 | a parsed float comes from non-empty trimmed text |
| Text.ParseRealIgnoresWhite | Assets/Script/Util.cs:71 | white space before or after the number does not change what `float.Parse` reads |
| Text.TrimEndShape | Assets/Script/Util.cs:86 | trimming the end keeps a prefix, drops only white space, and leaves no white space at the end |
| Text.TrimStartShape | Assets/Script/Util.cs:86 | trimming the start keeps a suffix, drops only white space, and leaves no white space at the start |
| Text.ParseRealOfInt | Assets/Script/Util.cs:58 | integer text parses as a float to the same value |
| Chart.Note.Plain | Assets/Script/Game/Chart.cs:5-20 | a base-class note: every field at its default, no object held, empty lifecycle |
| Chart.Note.Tap | Assets/Script/Game/Chart.cs:33-36 | `new Tap()` has kind Tap and holds no object |
| Chart.Note.Drag | Assets/Script/Game/Chart.cs:130-134 | `new Drag()` has kind Drag |
| Chart.Note.Block | Assets/Script/Game/Chart.cs:138-142 | `new Block()` has kind Block |
| Chart.Note.Initialize | Assets/Script/Game/Chart.cs:38-126 | a Tap takes one object from the pool, clears the fading flag and is layered at −nthNote; a Drag or Block gets no object from the pool and throws; a base note is unchanged; the note's data never changes |
| Chart.Note.FadeOut | Assets/Script/Game/Chart.cs:47-54 | acts only while an object is held and the note is not fading, setting the fading flag and nothing else; a fading note is unchanged |
| Chart.Note.PopOut | Assets/Script/Game/Chart.cs:56-66 | with a held object only scrolling stops; without one nothing changes |
| Chart.Note.Release | Assets/Script/Game/Chart.cs:68-77 | returns the held object exactly once, changing nothing else; afterwards no object is held |
| Chart.ReleaseTwice | Assets/Script/Game/Chart.cs:68-77 | two Release calls return one object |
| Chart.FadeOutTwice | Assets/Script/Game/Chart.cs:47-54 | a second FadeOut changes nothing |
| JudgeCenter.Judge | Assets/Script/Game/JudgeCenter.cs:40-55 | Perfect iff abs(d) <= 60, Good iff 60 < abs(d) <= 90, Bad iff abs(d) > 90; never Miss |
| JudgeCenter.JudgeSymmetric | Assets/Script/Game/JudgeCenter.cs:42 | early and late by the same amount get the same grade |
| JudgeCenter.JudgeMonotone | Assets/Script/Game/JudgeCenter.cs:43-54 | a larger time difference never gets a better grade |
| JudgeCenter.ScoreBounded | Assets/Script/Game/JudgeCenter.cs:81-84 | 0 <= score <= referenceScore after any history |
| JudgeCenter.ComboIsTrailingRun | Assets/Script/Game/JudgeCenter.cs:62-77 | combo is the length of the trailing run of Perfect/Good, and the grade before that run breaks it |
| JudgeCenter.CountersPartition | Assets/Script/Game/JudgeCenter.cs:61-79 | the four counters add up to the number of judgments, and the score is 5/3/1/0 points per grade |
| JudgeCenter.Accuracy | Assets/Script/Game/JudgeCenter.cs:84 | accuracy lies in [0, 100] |
| JudgeCenter.PerfectThenMissIsHalf | Assets/Script/Game/JudgeCenter.cs:59-84 | a Perfect and a Miss give 50% |
| JudgeCenter.JudgeCenter.Start | Assets/Script/Game/JudgeCenter.cs:21-38 | every counter and the history start empty |
| JudgeCenter.JudgeCenter.UpdateStat | Assets/Script/Game/JudgeCenter.cs:57-88 | score +5/+3/+1/+0, combo +1 on Perfect/Good and reset otherwise, reference +5, exactly one counter +1, accuracy recomputed |
| Queue.Range | Assets/Script/Game/NoteJudge.cs:69-79 | the consecutive indices lo..hi−1 |
| Queue.AdmitStop | Assets/Script/Game/NoteJudge.cs:69-79 | the pointer after admission: never below the start, never past the list, every index it passes is due |
| Queue.AdmitStopIsFirstBlocked | Assets/Script/Game/NoteJudge.cs:69-79 | the walk stops at the first note not yet due |
| Queue.Admit | Assets/Script/Game/NoteJudge.cs:64-80 | the admission loop appends exactly the indices start..stop−1 and stops where AdmitStop says |
| Queue.MissCount | Assets/Script/Game/NoteJudge.cs:96-110 | the length of the maximal queue prefix whose notes are more than 120 ms late |
| Queue.MissCountUnique | Assets/Script/Game/NoteJudge.cs:100-104 | any count with all earlier entries late and its own entry not late is the miss count |
| Queue.SweepMisses | Assets/Script/Game/NoteJudge.cs:96-110 | the sweep loop counts the miss prefix and produces one Miss per note |
| Queue.RemoveBackToFront | Assets/Script/Game/NoteJudge.cs:146-150 | back-to-front `RemoveAt` over ascending positions removes exactly those positions, keeping the rest in order |
| Queue.FilteredKeepsOrder | Assets/Script/Game/NoteJudge.cs:146-150 | removal keeps the queue strictly increasing and below the pointer |
| Queue.FilteredSelectedPartition | Assets/Script/Game/NoteJudge.cs:146-150 | kept and removed entries together are the whole queue |
| Queue.LeavePrefix | Assets/Script/Game/NoteJudge.cs:108 | dropping the miss prefix keeps the queue invariant and logs each index once |
| Queue.LeaveMarked | Assets/Script/Game/NoteJudge.cs:146-150 | removing marked entries keeps the queue invariant and logs each index once |
| NoteJudge.ActiveOutcome | Assets/Script/Game/NoteJudge.cs:112-151 | one iteration of the active pass: the FadeOut once due, then the Block or Drag rule; a Tap note is never resolved |
| NoteJudge.ActiveOutcomeResolves | Assets/Script/Game/NoteJudge.cs:193-229 | a removed note gets exactly one judgment, immediate or deferred; a kept one none |
| NoteJudge.ActiveOutcomeGrades | Assets/Script/Game/NoteJudge.cs:193-229 | a Block waits until past, then Miss with shake in the cursor cell, else Perfect; a Drag resolves in its cell when not Bad, always Perfect, deferred by the remaining time when early |
| NoteJudge.ActivePass | Assets/Script/Game/NoteJudge.cs:119-144 | the positions the pass removes are ascending and inside the queue |
| NoteJudge.ActivePassMarks | Assets/Script/Game/NoteJudge.cs:119-144 | a position is removed exactly when its own note's outcome says so; never a Tap note |
| NoteJudge.ActivePassResolutions | Assets/Script/Game/NoteJudge.cs:119-144 | the number of judgments delivered equals the number of removed notes |
| NoteJudge.TapPassOf | Assets/Script/Game/NoteJudge.cs:153-181 | at most tapCount notes are resolved: the eligible notes seen, capped by the taps |
| NoteJudge.TapPassTakesEarliest | Assets/Script/Game/NoteJudge.cs:158-175 | a position is resolved iff its note is a Tap in the cursor cell and fewer than tapCount such notes come before it |
| NoteJudge.TapPassJudgments | Assets/Script/Game/NoteJudge.cs:183-191 | each resolved Tap gets Judge of its own time difference |
| NoteJudge.TapPassStalls | Assets/Script/Game/NoteJudge.cs:158 | once the taps run out, nothing more is resolved |
| NoteJudge.ScanActive | Assets/Script/Game/NoteJudge.cs:119-144 | the loop computes the active pass |
| NoteJudge.ScanTaps | Assets/Script/Game/NoteJudge.cs:158-175 | the loop computes the tap pass |
| NoteJudge.NoteJudge.constructor | Assets/Script/Game/NoteJudge.cs:23-35 | empty queue, pointer 0 |
| NoteJudge.NoteJudge.IsJudging | Assets/Script/Game/NoteJudge.cs:242-245 | true iff the queue is not empty |
| NoteJudge.NoteJudge.UpdateJudgmentQueue | Assets/Script/Game/NoteJudge.cs:64-80 | appends pointer..AdmitStop−1 and advances the pointer there |
| NoteJudge.NoteJudge.ProcessMissedNotes | Assets/Script/Game/NoteJudge.cs:96-110 | removes the miss prefix, one Miss each |
| NoteJudge.NoteJudge.ProcessActiveNotes | Assets/Script/Game/NoteJudge.cs:112-151 | removes exactly the positions the active pass marks and logs its effects |
| NoteJudge.NoteJudge.ProcessTapInput | Assets/Script/Game/NoteJudge.cs:153-181 | removes exactly the positions the tap pass marks |
| NoteJudge.NoteJudge.HandleInput | Assets/Script/Game/NoteJudge.cs:56-62 | nothing when tapCount <= 0 or the queue is empty, else the tap pass |
| NoteJudge.NoteJudge.JudgeNotes | Assets/Script/Game/NoteJudge.cs:82-94 | the miss sweep, then the active pass on what is left |
| NoteJudge.NoteJudge.Update | Assets/Script/Game/NoteJudge.cs:43-54 | nothing unless playing; else admit, then judge |
| TouchInput.TouchOutcome | Assets/Script/Game/TouchInput.cs:112-140 | one iteration of the pass, given the taps left |
| TouchInput.TouchOutcomeGrades | Assets/Script/Game/TouchInput.cs:151-197 | a Block fades and resolves once past, Miss with shake in the block radius, else Perfect; a Tap inside the judge radius with a tap left is graded by Judge; a Drag inside the radius and not Bad is Perfect, deferred when early |
| TouchInput.TouchPassOf | Assets/Script/Game/TouchInput.cs:108-149 | the taps used are the hittable Tap notes seen, capped by the frame's taps |
| TouchInput.TouchPassMarks | Assets/Script/Game/TouchInput.cs:112-140 | which positions the pass resolves, per kind, taps in queue order |
| TouchInput.TouchPassResolutions | Assets/Script/Game/TouchInput.cs:112-140 | judgments delivered equal notes removed |
| TouchInput.ScanTouch | Assets/Script/Game/TouchInput.cs:112-140 | the loop computes the pass, decrementing the tap counter |
| TouchInput.CountBegan | Assets/Script/Game/TouchInput.cs:210-219 | the touches that began, at most their number |
| TouchInput.FrameTaps | Assets/Script/Game/TouchInput.cs:42-50 | the taps of one frame: touches that began, or one for Z or X |
| TouchInput.TouchInput.constructor | Assets/Script/Game/TouchInput.cs:27-38 | empty queue, pointer 0, no taps |
| TouchInput.TouchInput.InitializeInputData | Assets/Script/Game/TouchInput.cs:229-232 | the tap counter restarts at 0 |
| TouchInput.TouchInput.ProcessTouch | Assets/Script/Game/TouchInput.cs:210-219 | one tap per touch that began |
| TouchInput.TouchInput.ProcessMouse | Assets/Script/Game/TouchInput.cs:221-227 | one tap when Z or X was pressed |
| TouchInput.TouchInput.ReadInput | Assets/Script/Game/TouchInput.cs:42-50 | the counter holds exactly this frame's taps |
| TouchInput.TouchInput.UpdateJudgmentQueue | Assets/Script/Game/TouchInput.cs:61-78 | appends pointer..AdmitStop−1 |
| TouchInput.TouchInput.ProcessMissedNotes | Assets/Script/Game/TouchInput.cs:92-106 | removes the miss prefix, one Miss each |
| TouchInput.TouchInput.ProcessActiveNotes | Assets/Script/Game/TouchInput.cs:108-149 | removes exactly the marked positions, back to front |
| TouchInput.TouchInput.JudgeNotes | Assets/Script/Game/TouchInput.cs:80-90 | the miss sweep, then the pass on what is left |
| TouchInput.TouchInput.Update | Assets/Script/Game/TouchInput.cs:40-59 | the taps restart from this frame's input; while playing, admit then judge |
| GameState.StepConsistent | Assets/Script/Game/GameState.cs:8-42 | every transition keeps "paused implies not playing" |
| GameState.RunConsistent | Assets/Script/Game/GameState.cs:3-42 | any sequence of transitions from the default state keeps it |
| GameState.ClockOnlyFromStartGame | Assets/Script/Game/GameState.cs:8-42 | only StartGame writes the clock, which then reads −1500 |
| GameState.StepWrites | Assets/Script/Game/GameState.cs:15-42 | EndGame changes IsPlaying only; StartAudio/EndAudio change the audio flag only |
| GameState.GameState.constructor | Assets/Script/Game/GameState.cs:1-6 | every property at its default |
| GameState.GameState.StartGame | Assets/Script/Game/GameState.cs:8-13 | playing, not paused, clock −1500 |
| GameState.GameState.StartAudio | Assets/Script/Game/GameState.cs:15-18 | audio on, nothing else |
| GameState.GameState.Pause | Assets/Script/Game/GameState.cs:20-25 | (false, false, paused) |
| GameState.GameState.Resume | Assets/Script/Game/GameState.cs:27-32 | (true, true, not paused) |
| GameState.GameState.EndGame | Assets/Script/Game/GameState.cs:34-37 | not playing, nothing else |
| GameState.GameState.EndAudio | Assets/Script/Game/GameState.cs:39-42 | audio off, nothing else |
| GameManager.PreRollTime | Assets/Script/Game/GameManager.cs:51 | the pre-roll clock is elapsed ms, truncated, minus 1500 |
| GameManager.AudioTime | Assets/Script/Game/GameManager.cs:88 | the clock is the audio position in ms, truncated |
| GameManager.GameManager.constructor | Assets/Script/Game/GameManager.cs:25-34 | the loaded notes, nothing spawned, not playing |
| GameManager.GameManager.GameStart | Assets/Script/Game/GameManager.cs:44-48 | clock −1500 and playing |
| GameManager.GameManager.PreRollFrame | Assets/Script/Game/GameManager.cs:49-55 | within the pre-roll the clock follows elapsed time, after it the audio starts |
| GameManager.GameManager.SpawnNotes | Assets/Script/Game/GameManager.cs:104-117 | spawns the next notes in index order while due, stops at the first not due, never twice |
| GameManager.GameManager.EndGame | Assets/Script/Game/GameManager.cs:119-121 | stops play and leaves audio running |
| GameManager.GameManager.FinishEndGame | Assets/Script/Game/GameManager.cs:135-138 | audio stopped |
| GameManager.GameManager.Pause | Assets/Script/Game/GameManager.cs:141-149 | both play flags cleared |
| GameManager.GameManager.Resume | Assets/Script/Game/GameManager.cs:158-166 | both play flags set |
| GameManager.GameManager.IsGameFinished | Assets/Script/Game/GameManager.cs:98-102 | none (the throw of `notes[^1]`) iff the chart is empty; else finished iff the clock reached the last note and the queue is empty |
| GameManager.GameManager.Update | Assets/Script/Game/GameManager.cs:80-102 | nothing unless playing; spawn; while the audio plays the clock follows it, an empty chart throws, and the game ends iff finished |
| BarlineManager.BarlineManager.constructor | Assets/Script/Game/BarlineManager.cs:6-9 | not initialised, nothing spawned |
| BarlineManager.BarlineManager.Init | Assets/Script/Game/BarlineManager.cs:11-17 | a null list becomes empty, index 0, initialised |
| BarlineManager.BarlineManager.Update | Assets/Script/Game/BarlineManager.cs:19-31 | nothing unless initialised and playing; else bar lines spawn in order while due, stopping at the first not due |
| Util.Sign | Assets/Script/Util.cs:14-17 | 1 iff positive, −1 iff negative, 0 iff zero |
| Util.SignTimesAbs | Assets/Script/Util.cs:14-17 | sign times magnitude is the value |
| Util.PivotMiddle | Assets/Script/Util.cs:173-176 | shifts to the centre of the 512×384 holder and flips y |
| Util.PivotRoundTrip | Assets/Script/Util.cs:173-176 | the conversion is invertible, keeps x order and reverses y order |
| Util.BinomAbsorption | Assets/Script/Util.cs:206-210 | k·C(n,k) = n·C(n−1,k−1), which makes each division of the loop exact |
| Util.BinomialCoefficient | Assets/Script/Util.cs:198-213 | C(n,k) for 0 <= k <= n, 0 for 0 <= n < k, 1 for negative k |
| Util.GetChart | Assets/Script/Util.cs:19-171 | the loop reads the split lines as the line-by-line reader Run does |
| Util.RunFailureSticks | Assets/Script/Util.cs:19-171 | a failure ends the whole read: no per-line recovery |
| Util.StepSections | Assets/Script/Util.cs:32-52 | empty lines are skipped, section headers switch the mode, other `[` lines reset it, ordinary lines outside the sections change nothing |
| Util.RunContiguous | Assets/Script/Util.cs:56-67 | each timing point ends where the next starts and the last never ends |
| Util.TimingLineEffect | Assets/Script/Util.cs:55-80 | the new point starts at field 0 and never ends, and closes the previous point there; uninherited points take the beat interval of field 1 and slide speed 1; inherited ones keep the previous interval and need a previous point; bad or missing fields fail |
| Util.HitLineEffect | Assets/Script/Util.cs:84-167 | one note appended: a Tap for bit 0, else a Slide for bit 1, each at `PivotMiddle` of fields 0 and 1 with the time of field 2 and the next ordinal, else a default Note; a missing field or a bad type fails, and a Tap or Slide line succeeds iff fields 0–2 parse |
| Util.HitLineIgnoresWhite | Assets/Script/Util.cs:84-94 | white space after a field, such as the '\r' of a CRLF line end, does not change what a hit-object line reads |
| Util.StepNotes | Assets/Script/Util.cs:82-168 | only a [HitObjects] line adds a note, at the end |
| Util.RunNumbered | Assets/Script/Util.cs:82-168 | Tap and Slide notes are numbered 1, 2, 3, ... in file order |
| ShowScore.GetRating | Assets/Script/Score/ShowScore.cs:37-52 | the rating ladder: P iff exactly 100, D iff at most 60 |
| ShowScore.RatingMonotone | Assets/Script/Score/ShowScore.cs:39-51 | up to 100 a higher accuracy never gets a worse rating |
| ShowScore.RatingAboveHundred | Assets/Script/Score/ShowScore.cs:39-40 | above 100 the ladder gives SSS, below P |
| ShowScore.GetPlayResult | Assets/Script/Score/ShowScore.cs:91-98 | the accuracy with its rating |
| ShowScore.RecordedKeepsBest | Assets/Script/Score/ShowScore.cs:59-74 | the record becomes the better of old and new, replaced only by a strictly better play; other songs and difficulties are untouched |
| ShowScore.RecordedIdempotent | Assets/Script/Score/ShowScore.cs:59-74 | recording the same play twice is recording it once; no record loses accuracy |
| ShowScore.PlayerData.constructor | Assets/Script/Game/PlayData.cs:12-22 | no results |
| ShowScore.PlayerData.UpdateResult | Assets/Script/Score/ShowScore.cs:59-74 | the results become Recorded of the old ones and this play |
| EditorGrid.ScreenToGridPosition | Assets/Script/ChartEditor/EditorGridVisualizer.cs:168-185 | always a valid cell |
| EditorGrid.CentreMapsBack | Assets/Script/ChartEditor/EditorGridVisualizer.cs:61-64 | the conversion maps every cell centre back to its cell |
| EditorGrid.ConversionMonotone | Assets/Script/ChartEditor/EditorGridVisualizer.cs:178-179 | columns grow rightward, rows downward |
| EditorGrid.CreateGrid | Assets/Script/ChartEditor/EditorGridVisualizer.cs:32-80 | one cell per position, at its centre, not highlighted |
| EditorGrid.EditorGridVisualizer.constructor | Assets/Script/ChartEditor/EditorGridVisualizer.cs:27-30 | the grid laid out, no notes shown |
| EditorGrid.EditorGridVisualizer.SetHighlight | Assets/Script/ChartEditor/EditorGridVisualizer.cs:82-96 | only a valid cell changes colour |
| EditorGrid.EditorGridVisualizer.HighlightCell | Assets/Script/ChartEditor/EditorGridVisualizer.cs:82-88 | a valid cell is highlighted; an invalid one changes nothing |
| EditorGrid.EditorGridVisualizer.ResetCellHighlight | Assets/Script/ChartEditor/EditorGridVisualizer.cs:90-96 | a valid cell is reset; an invalid one changes nothing |
| EditorGrid.EditorGridVisualizer.ResetAllHighlights | Assets/Script/ChartEditor/EditorGridVisualizer.cs:98-107 | every cell back to normal |
| EditorGrid.EditorGridVisualizer.RemoveNote | Assets/Script/ChartEditor/EditorGridVisualizer.cs:143-151 | only that cell's note goes |
| EditorGrid.EditorGridVisualizer.DisplayNote | Assets/Script/ChartEditor/EditorGridVisualizer.cs:109-141 | an invalid cell changes nothing; else the cell shows the new note, replacing the old one (none without a prefab) |
| EditorGrid.EditorGridVisualizer.ClearAllNotes | Assets/Script/ChartEditor/EditorGridVisualizer.cs:153-161 | no notes shown |
| ChartEditor.FirstIndex | Assets/Script/ChartEditor/ChartEditor.cs:317-325 | the first index satisfying the test, or none when no element does |
| ChartEditor.Find | Assets/Script/ChartEditor/ChartEditor.cs:545 | the search loop finds the first match |
| ChartEditor.FindNoteAt | Assets/Script/ChartEditor/ChartEditor.cs:313-326 | the first note within 50 ms in the cell, or none when no note qualifies |
| ChartEditor.CreateNote | Assets/Script/ChartEditor/ChartEditor.cs:328-344 | a note of the kind, cell and time, numbered after the existing ones |
| ChartEditor.RenumberedKeeps | Assets/Script/ChartEditor/ChartEditor.cs:353-356 | renumbering numbers 1..n and changes nothing else |
| ChartEditor.NumberedPosition | Assets/Script/ChartEditor/ChartEditor.cs:361-364 | in a numbered list a note sits where its ordinal says |
| ChartEditor.Renumber | Assets/Script/ChartEditor/ChartEditor.cs:353-356 | the loop renumbers |
| ChartEditor.InsertionPoint | Assets/Script/ChartEditor/ChartEditor.cs:348-350 | every earlier note is not later, every later note is later |
| ChartEditor.InsertKeepsSorted | Assets/Script/ChartEditor/ChartEditor.cs:348-350 | inserting there keeps the list sorted |
| ChartEditor.InsertAddsNote | Assets/Script/ChartEditor/ChartEditor.cs:348 | inserting adds exactly that note |
| ChartEditor.RemoveKeepsSorted | Assets/Script/ChartEditor/ChartEditor.cs:364 | removing keeps the list sorted |
| ChartEditor.WithBpmSingle | Assets/Script/ChartEditor/ChartEditor.cs:536-560 | never a second initial BPM event, one after the first call, it carries 60000/bpm, the last call wins |
| ChartEditor.ToggleProperties | Assets/Script/ChartEditor/ChartEditor.cs:386-428 | never playing and paused; two toggles with a clip return to the start; without a clip a stopped editor stays |
| ChartEditor.TypeCode | Assets/Script/ChartEditor/ChartEditor.cs:670-676 | codes 1, 2, 4 |
| ChartEditor.TypeCodeDistinct | Assets/Script/ChartEditor/ChartEditor.cs:670-676 | different kinds get different codes |
| ChartEditor.ConvertChartToText | Assets/Script/ChartEditor/ChartEditor.cs:639-682 | header, a line per BPM event, two lines, a line per note, each ended by the platform's line end |
| ChartEditor.UnlinesSplit | Assets/Script/ChartEditor/ChartEditor.cs:639-682 | splitting exported text at '\n' gives back the lines, each followed by what the line end has before its '\n', then an empty piece |
| ChartEditor.HeaderBlankLine | Assets/Script/ChartEditor/ChartEditor.cs:644-647 | the blank line after the header reads back as empty with "\n" line ends and as "\r" with "\r\n" |
| ChartEditor.ChartLinesCount | Assets/Script/ChartEditor/ChartEditor.cs:639-682 | 7 + number of BPM events + number of notes lines |
| ChartEditor.ExportedEventFields | Assets/Script/ChartEditor/ChartEditor.cs:651-657 | a BPM line has 8 fields, with its time, beat length and uninherited 1 |
| ChartEditor.ExportedNoteFields | Assets/Script/ChartEditor/ChartEditor.cs:670-678 | a note line has 5 fields: 0 in field 3, the type code in field 4 |
| ChartEditor.ExportedNoteReadsAsPlain | Assets/Script/ChartEditor/ChartEditor.cs:678 | GetChart reads an exported note as a default Note, since it takes the type from field 3 |
| ChartEditor.ChartEditor.constructor | Assets/Script/ChartEditor/ChartEditor.cs:34-41 | Awake then Start: empty chart with one 500 ms BPM event, 120 BPM, time 0 |
| ChartEditor.ChartEditor.AddNote | Assets/Script/ChartEditor/ChartEditor.cs:346-357 | sorted and numbered 1..n afterwards, with exactly the new note added |
| ChartEditor.ChartEditor.RemoveNote | Assets/Script/ChartEditor/ChartEditor.cs:359-372 | an absent note changes nothing; otherwise it leaves and the rest is renumbered |
| ChartEditor.ChartEditor.ToggleNoteAtPosition | Assets/Script/ChartEditor/ChartEditor.cs:291-311 | the first matching note is removed, or a note of the selected kind is added at the current time |
| ChartEditor.ChartEditor.HandleLeftClick | Assets/Script/ChartEditor/ChartEditor.cs:263-267 | a click outside the grid does nothing; inside, the first matching note leaves or a note of the selected kind at the current time joins; the selected kind, playback flags and offset are unchanged |
| ChartEditor.ChartEditor.SelectNoteType | Assets/Script/ChartEditor/ChartEditor.cs:374-384 | the selected kind, nothing else |
| ChartEditor.ChartEditor.UpdateBPMInChart | Assets/Script/ChartEditor/ChartEditor.cs:536-560 | a null list becomes a list; the events become WithBpm of the old ones |
| ChartEditor.ChartEditor.OnBPMChanged | Assets/Script/ChartEditor/ChartEditor.cs:519-526 | parsed BPM clamped to 60..300 and written to the event, nothing else changed; unparsable text ignored |
| ChartEditor.ChartEditor.OnOffsetChanged | Assets/Script/ChartEditor/ChartEditor.cs:528-534 | parsed text becomes the offset, nothing else changed; unparsable text ignored |
| ChartEditor.ChartEditor.TogglePlayback | Assets/Script/ChartEditor/ChartEditor.cs:386-428 | the flags follow Toggle |
| ChartEditor.ChartEditor.CreateNewChart | Assets/Script/ChartEditor/ChartEditor.cs:562-586 | flags cleared, empty notes, one 500 ms BPM event, time 0, 120 BPM, offset 0 |

## Left out

- Rendering, tweens, audio playback, scenes, UI: objects, colours, prefabs and sprites are not modelled. A note object's game object is a flag plus pool counters, and an editor cell's highlight is a flag.
- Floats: the game's times are integer milliseconds. The editor's times, accuracy, BPM, positions and grid sizes are exact reals, not IEEE floats.
- The Slide branch of GetChart (Util.cs:100-161) is modelled only as "a Slide note with the next ordinal and its position". The model reads only fields 0–3 of a Slide line. It never reads field 5, field 7 or the x:y pairs, so a short or malformed Slide line reads without error where the source throws. Its curve shape, segments, length and duration depend on Slide, SlideShape and PreProcessSegments, which are not part of this model.
- NotePool is not part of this model. Its `Get` gives an object only for Tap and Slide notes and null otherwise (NotePool.cs:64-72); Chart.Note.Initialize models that as a throw for Drag and Block notes.
- The Bezier, Linear and Circle curve functions of Util.cs and HoldCurve.cs are not modelled (curve geometry).
- `NoteType.Slide` is not declared in Chart.cs. GetChart's Slide note is its own constructor `Util.SlideNote`.
- `Values.TapJudgeRadius`, `CellCenterLocal`, `LocalToCellIndex`, `CellSize`, `gridColumns` and `gridRows` are not part of this model: cell lookups, distance tests, grid sizes and cell sizes are inputs.
- Util.BinomialCoefficient: does not model 32-bit overflow of the product.
- Text.ParseReal: reads only white space around an optional sign, digits and an optional fraction. Exponents, thousands and culture-specific separators, and the ".5" and "5." forms, which `float.Parse` also accepts, are not modelled; nor is rounding to a 32-bit float.
- Text.ParseInt: trailing NUL characters, which `int.Parse` also skips, are not modelled.
- ChartEditor.ConvertChartToText: the float-to-text formatting of C# is a parameter, and so is `Environment.NewLine`. The field lemmas assume the formatting writes no comma.
- ChartEditor.ChartEvent: the event's data is kept as the number its text holds. The ChartEvent class itself is not part of this model.
- ChartEditor.ChartEditor.AddNote: `List.Sort` is not stable. The contract says only that the list is sorted and holds the old notes plus the new one; which of several notes with the same time comes first is left open.
- ChartEditor.ChartEditor.RemoveNote: the `Release()` of the removed note object is not modelled; editor notes are values.
- ChartEditor.ChartEditor.AddNote: requires the list invariant (sorted, numbered) that every editor operation keeps. A list loaded by ImportChart is not modelled.
- ChartEditor's timeline dragging, UpdatePlayback, the 16th-beat snap, preview, input-system callbacks, ImportChart and ExportChart are not modelled. ImportChart reads a text file and passes it to `GetChart`; ExportChart writes the text of `ConvertChartToText` to a file. Both are file I/O around modelled operations. ShowScore.SaveResult, which writes the player data as JSON, is not modelled either.
- The export is not a round trip with GetChart: the type code is written to field 4 and read from field 3 (`ChartEditor.ExportedNoteReadsAsPlain` states what happens instead).
- GameManager.EndGame's two-second volume fade is not modelled; it is split into its first step and its end.
- The clock text of a play result's timestamp is an input.
- CRLF line endings are handled as in the source: GetChart splits at '\n' only. A '\r' left at the end of a field is skipped by `int.Parse` and `float.Parse`. A line holding only "\r" is not empty, so it is read like any other line.
