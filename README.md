# Emotion-learning platform: core model in Dafny

This project models the logic of an emotion-learning platform for autistic
children. The platform has three parts:

- A set of browser games (emotion mirror, guided breathing, identify-the-emotion, tic-tac-toe, a maths quiz and a colour-matching puzzle).
- The small libraries those games share (emotion labels, time formatting, provider readings, session logging and storage).
- The Python trackers behind the camera features:
  - an attention tracker (eye aspect ratio, blinks, iris position, calibration, "looking at screen");
  - a Flask emotion service that keeps a shared state and a rolling history;
  - a cascade-plus-classifier emotion overlay;
  - a rule-based landmark classifier.

It also covers the account server's signup and login.

Each source module becomes one Dafny module.

- Pure helpers become functions with named results and lemmas.
- Closures and objects whose variables change (`createMirrorGame`, `createStopSignal`, `TrackerThread`, `EmotionEyeTracker`, React component state) become classes. Their methods `modify` the fields and state the whole new state.
- Loops that the source runs (`shuffle`, the move search, the winner scan, the mesh-link scan, the face-pairing loop) become methods with loop invariants. They are proved against specification functions.

Things outside the program are inputs of the model:

- clocks (`Date.now()`, `time.time()`, `time.strftime`);
- `Math.random()` draws, given as reals in [0, 1);
- camera frames;
- what MediaPipe, DeepFace, TensorFlow and the Haar cascade return;
- the contents of `localStorage` and the user table.

Modules and files:

| module | file | models |
|---|---|---|
| `Wrappers` | `wrappers.dfy` | `Option` |
| `JsValues` | `js_values.dfy` | JS numbers, `Math.floor(Math.random() * n)` and the truncating `%` |
| `Emotions` | `emotions.dfy` | `web/lib/emotions.js` |
| `Dom` | `dom.dfy` | `fmtMs` of `web/lib/dom.js` |
| `Providers` | `providers.dfy` | `web/providers/base.js` |
| `GameBase` | `stop_signal.dfy` | `web/games/base.js` |
| `SessionStore` | `session_store.dfy` | `web/lib/session_store.js` |
| `SessionLog` | `session_log.dfy` | `web/lib/log.js` |
| `MirrorGame` | `mirror_game.dfy` | `web/games/mirror.js` |
| `CalmGame` | `calm_game.dfy` | `web/games/calm.js` |
| `IdentifyGame` | `identify_game.dfy` | `web/games/identify.js` |
| `TicTacToe` | `tic_tac_toe.dfy` | `src/app/games/tic-tac-toe/page.tsx` |
| `MathGame` | `math_game.dfy` | `src/app/games/math-game/page.tsx` |
| `ColorMatch` | `color_match.dfy` | `src/app/page2/page.tsx` |
| `UserServer` | `user_server.dfy` | `server/index.js` with `server/models/User.js` |
| `FaceCrop` | `face_crop.dfy` | the padded, clamped face crop shared by the Python trackers |
| `GazeTracker` | `gaze_tracker.dfy` | `Vihar/face_detection/integrated_tracker.py` |
| `EmotionServer` | `emotion_server.dfy` | `emotion-server/server.py` |
| `LegacyEmotion` | `legacy_emotion.dfy` | `Vihar/face_detection/face_detection.py` |
| `LandmarkClassifier` | `landmark_classifier.dfy` | `Vihar/face_detection.py` |

## Model

| member | source | states |
|---|---|---|
| `Emotions.EmotionsAreDistinct` | web/lib/emotions.js:1-10 | The label list has eight entries and no label occurs twice. |
| `Emotions.IsEmotion` | web/lib/emotions.js:12-14 | True exactly when the value is a string equal to one of the eight labels. Numbers, `null` and other strings are rejected. |
| `Emotions.Clamp01` | web/lib/emotions.js:16-20 | The result always lies in [0, 1]. NaN and infinities give 0. A finite value inside [0, 1] is returned unchanged. Values below the range give 0 and values above it give 1. |
| `Emotions.Clamp01Idempotent` | web/lib/emotions.js:16-20 | Clamping an already clamped value does not change it. |
| `Emotions.UpperChar` | web/lib/emotions.js:24 | Upper-casing as it acts on the ASCII letters of the labels: a lower-case ASCII letter becomes its capital, and every other ASCII character is unchanged. |
| `Emotions.PrettyEmotion` | web/lib/emotions.js:22-25 | A missing or empty label gives the placeholder string. Any other label keeps its tail, and its first character goes through `UpperChar`; for an ASCII first letter, such as every label in `EMOTIONS`, the length is kept. |
| `Emotions.PickRandom` | web/lib/emotions.js:27-29 | A value is produced exactly when the array is non-empty, and that value is one of the array's elements. |
| `JsValues.RandomIndex` | web/lib/emotions.js:28 | `Math.floor(r * n)` for a draw `r` in [0, 1) is a valid index below `n`, namely the floor of `r * n`. |
| `JsValues.JsRem` | web/games/calm.js:114 | JS `%` on a positive divisor is `a - b * q` with the quotient rounded toward zero: for non-negative dividends the mathematical remainder, for negative ones `a - b * -((-a) / b)`. Its sign is the dividend's and its magnitude is below the divisor. |
| `Dom.NatToDecimal` | web/lib/dom.js:26 | `String(n)` for a natural number is a non-empty string of decimal digits. It is one digit long exactly when `n < 10`. |
| `Dom.DecimalRoundTrip` | web/lib/dom.js:26 | Reading the decimal string of `n` back gives `n`. |
| `Dom.PadStart2` | web/lib/dom.js:26 | `padStart(2, "0")` on a one- or two-digit string gives two characters ending in the original string, with a leading `0` when one was added. |
| `Dom.TotalSeconds` | web/lib/dom.js:23 | The whole number of seconds in `ms`: the floor of `ms / 1000` for non-negative input, and 0 for negative input. |
| `Dom.Split60` | web/lib/dom.js:24-25 | `Math.floor(s / 60)` and `s % 60`: minutes × 60 + seconds is `s`, with seconds below 60. |
| `Dom.Clock` | web/lib/dom.js:24-26 | The `m:ss` text has at least four characters, and the third from the end is the colon, so exactly two characters of seconds follow it. |
| `Dom.ClockReadsBack` | web/lib/dom.js:24-26 | The `m:ss` text of `s` seconds reads back as minutes and two-digit seconds below 60 that together make `s`. |
| `Dom.FmtMs` | web/lib/dom.js:22-27 | The text always has the shape `…:dd`, a colon followed by two characters. |
| `Dom.NegativeShowsZero` | web/lib/dom.js:22-27 | A negative duration is shown as `0:00`. |
| `Dom.FmtMsReadsBack` | web/lib/dom.js:22-27 | Minutes and seconds are digit strings, the seconds are below 60, and minutes × 60 + seconds equals the whole seconds in `ms`. |
| `Providers.NormalizeReading` | web/providers/base.js:18-27 | The provider id is always stamped. The label is kept exactly when it is a string. The confidence is kept exactly when it is a finite number. Everything else becomes `null`. |
| `Providers.NormalizeFixesReadings` | web/providers/base.js:18-27 | A reading that is already normal passes through unchanged. |
| `Providers.NormalizeIdempotent` | web/providers/base.js:18-27 | Normalising twice gives the same reading as normalising once. |
| `GameBase.StopSignal.constructor` | web/games/base.js:14-15 | A new stop signal is not stopped. |
| `GameBase.StopSignal.Stop` | web/games/base.js:17-19 | After `stop()` the signal reads stopped. |
| `GameBase.StopSignal.Stopped` | web/games/base.js:20-22 | The getter reports the current flag. |
| `GameBase.StopIsSticky` | web/games/base.js:14-24 | Once stopped, the signal stays stopped across further `stop()` calls and reads. |
| `SessionStore.Loaded` | web/lib/session_store.js:11-20 | A missing entry or a stored value that is not an array loads as the empty list. A stored array loads as itself. |
| `SessionStore.Pushed` | web/lib/session_store.js:4-9 | The new session is first, followed by the newest of the old list. The list holds at most 20 entries, and is one longer than before until that cap is reached. |
| `SessionStore.Store.LoadSessions` | web/lib/session_store.js:11-20 | Loading returns what the stored entry decodes to. |
| `SessionStore.Store.SaveSession` | web/lib/session_store.js:4-9 | The stored entry becomes the loaded list with the session pushed in front and trimmed to 20. |
| `SessionStore.Store.ClearSessions` | web/lib/session_store.js:22-24 | The stored entry is removed. |
| `SessionLog.CreatedAt` | web/lib/log.js:18 | The export's creation time is the first event's time, or the current time when there are no events. |
| `SessionLog.SessionLogger.constructor` | web/lib/log.js:1-3 | A logger starts with its session id and no events. |
| `SessionLog.SessionLogger.Log` | web/lib/log.js:5-13 | The event stamped with the current time is appended to the log and returned. |
| `SessionLog.SessionLogger.ExportJson` | web/lib/log.js:15-21 | The export carries the session id, all events in order, and the creation time described above. |
| `SessionLog.CreatedAtIsStable` | web/lib/log.js:15-21 | Once a log has events, its creation time no longer depends on the clock or on later events. |
| `MirrorGame.WithoutDisgust` | web/games/mirror.js:50 | The filter keeps exactly the labels other than `disgust` and never lengthens the list. |
| `MirrorGame.FriendlyTargets` | web/games/mirror.js:50 | The mirror game's targets are the seven labels other than `disgust`, in order. |
| `MirrorGame.FriendlyPick` | web/games/mirror.js:50 | Every draw picks some target, and that target is a known label other than `disgust`. |
| `MirrorGame.StableFor` | web/games/mirror.js:92 | With no hold start, or a falsy zero start, the hold time is 0. Otherwise start plus hold time is now, and it is never negative once the clock has reached the start. |
| `MirrorGame.Progress` | web/games/mirror.js:92-93 | The progress bar never exceeds 1, is not negative for a hold that has not started in the future, and is full exactly when the match has been held for 1200 ms. |
| `MirrorGame.Mirror.constructor` | web/games/mirror.js:14-20 | A new game is unmounted, idle, without a target and with zero counters. |
| `MirrorGame.Mirror.Mount` | web/games/mirror.js:22-25 | Mounting records the root and changes nothing else. |
| `MirrorGame.Mirror.NextTarget` | web/games/mirror.js:49-54 | A new target is drawn from the friendly labels. The hold timer is cleared and the attempt count rises by one. |
| `MirrorGame.Mirror.Start` | web/games/mirror.js:27-38 | Unmounted, start does nothing. Otherwise it activates the game, resets streak and successes, counts the first attempt, notes the start time, draws a target and starts ticking. |
| `MirrorGame.Mirror.Stop` | web/games/mirror.js:40-47 | The game becomes inactive and stops ticking, and its counters are kept. |
| `MirrorGame.Mirror.OnTick` | web/games/mirror.js:56-83 | Inactive, a tick changes nothing. A reading that does not match the target clears the hold. A matching reading starts or continues the hold. After 1200 ms of holding it counts a success, extends the streak and draws the next target. |
| `CalmGame.PhaseLabel` | web/games/calm.js:197-202 | The three phases map to `Ready`, `Breathing` and `Check-in`. Anything else shows a dash. |
| `CalmGame.Inhale` | web/games/calm.js:113-115 | A non-negative elapsed time is in the inhale half of an 8 s cycle exactly when its remainder is below 4 s. A negative elapsed time counts as inhaling. |
| `CalmGame.InhalePeriodic` | web/games/calm.js:113-115 | The breathing cue repeats every 8 s and flips every 4 s. |
| `CalmGame.Remaining` | web/games/calm.js:112 | The countdown is never negative and never exceeds 30 s. It is zero exactly when 30 s have passed, and otherwise adds up with the elapsed time to 30 s. |
| `CalmGame.Calm.constructor` | web/games/calm.js:11-17 | A new game is unmounted, idle and not ticking. |
| `CalmGame.Calm.Mount` | web/games/calm.js:19-22 | Mounting records the root and changes nothing else. |
| `CalmGame.Calm.Start` | web/games/calm.js:24-30 | A mounted game becomes active in the idle phase. The timer is left as it was. |
| `CalmGame.Calm.Stop` | web/games/calm.js:32-39 | The game becomes inactive and its timer is cleared. |
| `CalmGame.Calm.BeginBreathing` | web/games/calm.js:41-57 | When active, breathing starts now with a fresh ticker. Otherwise nothing changes. |
| `CalmGame.Calm.Tick` | web/games/calm.js:47-55 | Once 30 s have passed the phase becomes check-in, and before that it is unchanged. |
| `CalmGame.Calm.Done` | web/games/calm.js:156-163 | From check-in, `Done` returns to idle and clears the ticker. |
| `IdentifyGame.EmotionEmoji` | web/games/identify.js:167-187 | Exactly the seven non-neutral labels get their own face. `neutral` and every unknown label get the neutral face. |
| `IdentifyGame.Shuffle` | web/games/identify.js:232-238 | The Fisher-Yates shuffle leaves the array a permutation of what it was. |
| `IdentifyGame.PermutationKeepsDistinct` | web/games/identify.js:43 | A permutation of a list without repeats has no repeats. |
| `IdentifyGame.PickOptions` | web/games/identify.js:43-44 | From a repeat-free list that contains the target, the options are four distinct members of the list, and the target is among them. |
| `IdentifyGame.TrialOptions` | web/games/identify.js:43-44 | For the emotion labels: four distinct labels, one of them the target. |
| `IdentifyGame.Identify.constructor` | web/games/identify.js:9-16 | A new game is unmounted and inactive, with no trials and no target. |
| `IdentifyGame.Identify.Mount` | web/games/identify.js:18-21 | Mounting records the root and changes nothing else. |
| `IdentifyGame.Identify.NextTrial` | web/games/identify.js:37-44 | Unmounted or inactive, it does nothing. Otherwise it counts a trial, draws the target, notes the start time and offers four distinct labels that include the target. |
| `IdentifyGame.Identify.Start` | web/games/identify.js:23-30 | A mounted game becomes active with zeroed counters and its first trial under way. |
| `IdentifyGame.Identify.Stop` | web/games/identify.js:32-35 | The game becomes inactive and its counts are kept. |
| `IdentifyGame.Identify.OnPick` | web/games/identify.js:115-137 | The first pick of an active trial is scored: correct exactly when it equals the target, and then `correct` rises by one. Further picks are ignored because the options are disabled. |
| `TicTacToe.FirstFilled` | src/app/games/tic-tac-toe/page.tsx:33-37 | Finds the first of the eight lines, from a given one on, whose three cells hold the same mark. None means no such line. |
| `TicTacToe.WinnerCharacterised` | src/app/games/tic-tac-toe/page.tsx:26-44 | A winner exists exactly when some line is filled by one mark, and the winner is that line's mark. A tie means no line and a full board. No result means no line and a free cell. |
| `TicTacToe.CheckWinner` | src/app/games/tic-tac-toe/page.tsx:26-44 | The scan over the lines returns the outcome defined above. |
| `TicTacToe.EmptyAmong` | src/app/games/tic-tac-toe/page.tsx:74 | The filter keeps exactly the listed cells that are free. |
| `TicTacToe.NoEmptyCellMeansFull` | src/app/games/tic-tac-toe/page.tsx:80 | No free cell is left exactly when the board is full. |
| `TicTacToe.FirstWin` | src/app/games/tic-tac-toe/page.tsx:48-56 | The cell found is at or after the start and is a free cell where the mark would win. No earlier cell from the start on wins. |
| `TicTacToe.FirstWinningCell` | src/app/games/tic-tac-toe/page.tsx:48-56 | The scan returns `FirstWin` from cell 0: the lowest free cell where the mark would win, or none when there is no such cell. |
| `TicTacToe.FindBestMove` | src/app/games/tic-tac-toe/page.tsx:46-82 | The two scans, the centre test and the two random picks return exactly `BestMoveOf` of the board and the draws. |
| `TicTacToe.BestMoveOf` | src/app/games/tic-tac-toe/page.tsx:46-82 | The move is always a free cell. There is none exactly when the board is full. |
| `TicTacToe.BestMoveOfIsBest` | src/app/games/tic-tac-toe/page.tsx:46-82 | The move keeps every priority in turn. It is the lowest cell where O wins; otherwise the lowest cell that blocks X; otherwise the free centre; otherwise the free corner the first draw picks; otherwise the free cell the second draw picks. |
| `TicTacToe.BestMoveIsUnique` | src/app/games/tic-tac-toe/page.tsx:46-82 | For a given board and draws, the priorities admit at most one move. |
| `TicTacToe.BestMoveCharacterised` | src/app/games/tic-tac-toe/page.tsx:46-82 | A move meets the priorities exactly when it is the move `findBestMove` makes. |
| `TicTacToe.Scored` | src/app/games/tic-tac-toe/page.tsx:84-97 | A finished game adds one to the player's, the computer's or the ties' count, according to the result. |
| `TicTacToe.Game.constructor` | src/app/games/tic-tac-toe/page.tsx:11-23 | Empty board, player's turn, no winner, and the saved scores. |
| `TicTacToe.Game.UpdateScores` | src/app/games/tic-tac-toe/page.tsx:84-97 | The scores advance by the result, and the rest of the game is unchanged. |
| `TicTacToe.Game.HandleClick` | src/app/games/tic-tac-toe/page.tsx:121-144 | A click on a taken cell, after a win, or out of turn changes nothing. Otherwise X is placed. A finished game is scored. An unfinished one hands the move to the computer with the board it will answer. |
| `TicTacToe.Game.RunComputerTurn` | src/app/games/tic-tac-toe/page.tsx:99-119 | On a full board the turn passes back unchanged. Otherwise O takes the cell `findBestMove` picks on the pending board with the given draws. A finished game is scored; otherwise it is the player's turn. |
| `TicTacToe.Game.ResetGame` | src/app/games/tic-tac-toe/page.tsx:146-155 | The board empties, the player moves first, and the scores are kept. |
| `MathGame.Operand` | src/app/games/math-game/page.tsx:40-41 | `Math.floor(r * span) + low` lies in `[low, low + span)`. |
| `MathGame.Apply` | src/app/games/math-game/page.tsx:53-63 | A sum minus either operand gives back the other operand. A difference plus the subtrahend gives back the minuend. A product is zero exactly when one factor is zero. |
| `MathGame.GenerateQuestion` | src/app/games/math-game/page.tsx:35-73 | The answer is the operation applied to the two numbers, and there is never a division. Level 1 uses 1–20 with + or −. Level 2 uses 10–59 with + or −. Higher levels use 1–20 with +, − or ×. |
| `MathGame.Submitted` | src/app/games/math-game/page.tsx:75-98 | A correct answer adds 10 points. Level 1 or 2 goes up by one exactly on a correct answer with a streak of at least five. The streak grows on a correct answer and resets on a wrong answer or a level-up. |
| `MathGame.RunKeepsLevelInRange` | src/app/games/math-game/page.tsx:81-84 | Over any run of answers the level stays between 1 and 3 and never drops, and the score never drops. |
| `MathGame.LevelUpOnSixthCorrect` | src/app/games/math-game/page.tsx:80-84 | Five correct answers keep level 1, and the sixth reaches level 2. |
| `MathGame.Game.constructor` | src/app/games/math-game/page.tsx:10-24 | The first question is at level 1. Score and level are the saved ones, with 0 and 1 as defaults. There are 30 s on the clock. |
| `MathGame.Game.HandleSubmit` | src/app/games/math-game/page.tsx:75-99 | Score, level and streak advance as `Submitted` says for whether the parsed answer equals the expected one. The feedback is correct, or wrong with the expected answer. |
| `MathGame.Game.Tick` | src/app/games/math-game/page.tsx:26-33 | With time left the clock counts down by one second. At zero the feedback becomes time-up. |
| `MathGame.Game.NewQuestion` | src/app/games/math-game/page.tsx:87-90 | A new question is generated for the given level, feedback is cleared and the clock restarts at 30 s. |
| `MathGame.Game.ResetGame` | src/app/games/math-game/page.tsx:109-117 | Score, level and streak reset, the clock restarts, and the question uses the level the page had when reset was clicked. |
| `ColorMatch.EachColourTwice` | src/app/page2/page.tsx:11-14 | The puzzle holds eight cards, each of the four colours exactly twice. |
| `ColorMatch.Puzzle.constructor` | src/app/page2/page.tsx:8-15 | The puzzle starts with nothing selected and nothing matched. |
| `ColorMatch.Puzzle.HandleColorClick` | src/app/page2/page.tsx:17-29 | A matched card ignores clicks. Otherwise a first click selects the card. A second click clears the selection, and records both cards as matched when they are different cards of the same colour. |
| `ColorMatch.Puzzle.AllMatchedMeansEveryCard` | src/app/page2/page.tsx:65 | The "all matched" banner shows exactly when every card has been matched. |
| `UserServer.FindByEmail` | server/index.js:27 | The lookup finds a stored user with that email exactly when one exists. |
| `UserServer.FindByName` | server/index.js:28 | The lookup finds a stored user with that account name exactly when one exists. |
| `UserServer.FoundUserIsTheOne` | server/index.js:48-55 | With unique emails, the user found is the one stored under that email. |
| `UserServer.Server.Signup` | server/index.js:21-42 | A taken email gives 400 first, then a taken name gives 400. A user missing a required field is refused with 500. Otherwise the user is stored and 201 returned. |
| `UserServer.Server.Login` | server/index.js:44-60 | An unknown email gives 400 "not found" and a wrong password gives 400. Otherwise it answers 200 with the account name, which happens exactly when a stored user has that email and password. |
| `FaceCrop.Pad` | emotion-server/server.py:82 | `int(size × percent / 100)` for a non-negative size is its floor. |
| `FaceCrop.PaddedRect` | emotion-server/server.py:83-84 | The padded box is clamped inside the frame. Each bound is either the frame edge or the padded box edge, and never lies outside the padded box. |
| `FaceCrop.HeightPaddedCrop` | emotion-server/server.py:82-85 | The crop is clamped to the frame and lies within the box padded by the given percentage of its height. The server passes 15 %; the older classifiers of `Vihar/face_detection/face_detection.py` (lines 99-102) pass 10 %. |
| `FaceCrop.SliceBound` | emotion-server/server.py:85 | Python's slice-bound normalisation stays within the axis and keeps in-range bounds. |
| `FaceCrop.SliceLength` | emotion-server/server.py:85-86 | A slice is never longer than its axis and has length `stop − start` for in-range bounds. |
| `FaceCrop.CropCoversBox` | emotion-server/server.py:82-87 | A box inside the frame gives a non-empty crop that contains the box. |
| `FaceCrop.CropOutsideFrameIsEmpty` | emotion-server/server.py:82-87 | A box starting below the frame gives an empty crop. |
| `FaceCrop.BoxAboveFrameStillCrops` | emotion-server/server.py:82-87 | A box wholly above the frame still cuts out 390 rows, because a negative slice stop counts from the end. |
| `GazeTracker.EyePixels` | Vihar/face_detection/integrated_tracker.py:63-67 | Each of the eye's landmarks is scaled to pixels, in order. |
| `GazeTracker.EyeAspectRatio` | Vihar/face_detection/integrated_tracker.py:62-77 | The ratio is never negative. It is 0 when the eye corners coincide, and otherwise the two lid distances over twice the corner distance. |
| `GazeTracker.ClosedEyeHasZeroRatio` | Vihar/face_detection/integrated_tracker.py:69-77 | An eye whose lids meet has ratio 0. |
| `GazeTracker.ClosedEyesAreNotOpen` | Vihar/face_detection/integrated_tracker.py:249-252 | With both eyes' lids meeting, the eyes are reported closed. |
| `GazeTracker.EyesOpen` | Vihar/face_detection/integrated_tracker.py:251-252 | Eyes count as open when both ratios are above 0.2, and as closed when both are at or below it. Open means at least one ratio is above 0.2. |
| `GazeTracker.IrisRatio` | Vihar/face_detection/integrated_tracker.py:136-164 | Coinciding eye corners give the centre value 0.5. |
| `GazeTracker.IrisOnAxis` | Vihar/face_detection/integrated_tracker.py:155-164 | An iris at fraction `t` along the corner-to-corner axis gives ratio `t`. |
| `GazeTracker.IrisAtCorners` | Vihar/face_detection/integrated_tracker.py:139-164 | The iris at the inner corner gives 0 and at the outer corner gives 1. |
| `GazeTracker.Target` | Vihar/face_detection/integrated_tracker.py:282-285 | Uncalibrated, the gaze target is straight ahead with centred irises. Calibrated, it is the stored baseline. |
| `GazeTracker.Looking` | Vihar/face_detection/integrated_tracker.py:287-298 | Looking needs open eyes and a head within 35 degrees of pitch and 45 degrees of yaw of the target. Open eyes exactly at the target always count as looking. |
| `GazeTracker.UncalibratedLooking` | Vihar/face_detection/integrated_tracker.py:282-298 | Uncalibrated, the user is looking exactly when pitch is within ±35, yaw within ±45, both iris ratios within (0.1, 0.9), and the eyes are open. |
| `GazeTracker.CalibratingFrameLooksIffEyesOpen` | Vihar/face_detection/integrated_tracker.py:272-298 | On the frame that calibrates, the user counts as looking exactly when the eyes are open. |
| `GazeTracker.BlinkStep` | Vihar/face_detection/integrated_tracker.py:254-256 | A blink is counted exactly when the eyes are closed and more than 0.3 s have passed since the last one. A counted blink moves the last-blink time to now, and otherwise nothing changes. |
| `GazeTracker.BlinksNeverDecrease` | Vihar/face_detection/integrated_tracker.py:254-256 | Over any frames the count and the last-blink time never go back. A new blink always lies more than 0.3 s after the previous one. |
| `GazeTracker.MinOf` | Vihar/face_detection/integrated_tracker.py:306-308 | `min` of a non-empty list is one of its elements and below all of them. |
| `GazeTracker.MaxOf` | Vihar/face_detection/integrated_tracker.py:306-308 | `max` of a non-empty list is one of its elements and above all of them. |
| `GazeTracker.FaceBox` | Vihar/face_detection/integrated_tracker.py:306-308 | The box spans every landmark, and its edges touch landmarks. |
| `GazeTracker.EmotionCrop` | Vihar/face_detection/integrated_tracker.py:103-112 | The emotion crop lies inside the frame. Its rows stay within 10 % of the box height above and below the box, and its columns within 10 % of the box width on either side. |
| `GazeTracker.DetectEmotionDeepface` | Vihar/face_detection/integrated_tracker.py:79-91 | A classifier answer replaces the emotion. A failure keeps the current one. |
| `GazeTracker.Measure` | Vihar/face_detection/integrated_tracker.py:249-269 | Both eye aspect ratios of a face are non-negative. |
| `GazeTracker.EmotionEyeTracker.constructor` | Vihar/face_detection/integrated_tracker.py:42-60 | No blinks, no calibration (centred baseline), neutral emotion, no emotion task. |
| `GazeTracker.EmotionEyeTracker.RequestCalibration` | Vihar/face_detection/integrated_tracker.py:386 | Pressing `c` requests calibration and changes nothing else. |
| `GazeTracker.EmotionEyeTracker.UpdateEmotionAsync` | Vihar/face_detection/integrated_tracker.py:93-125 | A task for this frame and box is dispatched exactly when no task is running and 0.5 s have passed since the last emotion. Dispatch alone does not raise the running flag. |
| `GazeTracker.EmotionEyeTracker.EmotionTaskBegins` | Vihar/face_detection/integrated_tracker.py:100-101 | The task raises the running flag when it starts. |
| `GazeTracker.EmotionEyeTracker.EmotionTaskFinishes` | Vihar/face_detection/integrated_tracker.py:102-121 | A non-empty crop updates the emotion from the classifier, falling back to the current emotion, and stamps the time. An empty crop changes neither. The flag always drops. |
| `GazeTracker.EmotionEyeTracker.ProcessFrame` | Vihar/face_detection/integrated_tracker.py:216-316 | Without a face: nothing detected and the emotion reset to neutral. With a face: everything `ProcessFace` states. |
| `GazeTracker.EmotionEyeTracker.CountBlink` | Vihar/face_detection/integrated_tracker.py:254-256 | The blink state advances by one `BlinkStep`, and nothing else changes. |
| `GazeTracker.EmotionEyeTracker.CheckCalibration` | Vihar/face_detection/integrated_tracker.py:272-278 | A pending request stores this frame's pose and ratios as the baseline and is consumed. Otherwise the baseline is kept. |
| `GazeTracker.EmotionEyeTracker.ProcessFace` | Vihar/face_detection/integrated_tracker.py:231-309 | For a face frame: eyes open, blink step, calibration, looking against the resulting baseline, and dispatch of the face box, all as above. |
| `EmotionServer.Appended` | emotion-server/server.py:66-69 | The new entry is last. A history of at most 20 stays at most 20, growing until full and then dropping its oldest entry. |
| `EmotionServer.Newest` | emotion-server/server.py:198 | `[-n:]` is the last `min(n, len)` entries. |
| `EmotionServer.Area` | emotion-server/server.py:151 | The area of a box with non-negative sides is non-negative. It is zero exactly when the width or the height is zero. |
| `EmotionServer.RecordedKeepsNewest` | emotion-server/server.py:66-69 | Recording entries one by one leaves exactly the newest 20 of all entries. |
| `EmotionServer.LargestIndex` | emotion-server/server.py:151 | The chosen face has the largest area, and it is the first face with that area. |
| `EmotionServer.SharedState.constructor` | emotion-server/server.py:28-37 | The shared state starts not running, neutral at confidence 0, with no face, no times, empty history and no error. |
| `EmotionServer.GetEmotion` | emotion-server/server.py:186-200 | The response mirrors the state. Eyes-open and looking are the face flag, the blink count is 0, and the history is the newest 10 entries. |
| `EmotionServer.TrackerThread.constructor` | emotion-server/server.py:42-48 | A new tracker is not stopped, neutral, and has no emotion task. |
| `EmotionServer.TrackerThread.Stop` | emotion-server/server.py:168-169 | Stopping sets the stop event only. |
| `EmotionServer.TrackerThread.TriggerEmotion` | emotion-server/server.py:75-91 | While a task runs, or within 1 s of the last call, nothing happens. Otherwise the time is stamped, and a task is dispatched exactly when the padded crop is non-empty. |
| `EmotionServer.TrackerThread.RunDeepface` | emotion-server/server.py:51-73 | A result sets the tracker's and the shared emotion and the confidence, and records a history entry. A failure changes none of them. The running flag always drops. |
| `EmotionServer.TrackerThread.FrameStep` | emotion-server/server.py:147-160 | Face flag and update time are set. With no face the emotion becomes neutral. With faces the largest is sent to `TriggerEmotion`. |
| `EmotionServer.TrackerThread.BeginRun` | emotion-server/server.py:110-135 | Lite mode and a ready camera mark the session running, with `lite_mode` or no error. A cascade or camera failure records its error and ends the run without marking it running. |
| `EmotionServer.TrackerThread.LiteFrame` | emotion-server/server.py:101-106 | Each lite frame shows the next canned emotion with a face present. |
| `EmotionServer.TrackerThread.EndRun` | emotion-server/server.py:163-166 | The run's end marks the state not running. |
| `EmotionServer.Server.constructor` | emotion-server/server.py:172 | The server starts on the given shared state with no tracker, as the module-level `_tracker` is `None`. |
| `EmotionServer.Server.Start` | emotion-server/server.py:203-212 | A running state answers "already running". Otherwise a fresh tracker is created and started. |
| `EmotionServer.Server.Stop` | emotion-server/server.py:215-223 | Any tracker is told to stop and dropped. The state is marked not running. Every other field of the state is kept, as are the old tracker's emotion, time stamp and running flag. |
| `LegacyEmotion.ArgMax` | Vihar/face_detection/face_detection.py:73 | `np.argmax` gives an index holding the largest score, and it is the first such index. |
| `LegacyEmotion.CustomLabel` | Vihar/face_detection/face_detection.py:72-74 | A label is produced exactly when there is a non-empty prediction row whose top class has a name. The label is one of the class names. |
| `LegacyEmotion.CustomLabelIsTopClass` | Vihar/face_detection/face_detection.py:72-74 | The label produced is the name of a class with the highest score. |
| `LegacyEmotion.EmotionCache.constructor` | Vihar/face_detection/face_detection.py:10-13 | The globals start neutral at time 0, with no model and no class names. |
| `LegacyEmotion.EmotionCache.LoadCustomModel` | Vihar/face_detection/face_detection.py:15-42 | If the model fails to load, nothing changes and the call fails. If it loads, the model is set. A missing config gives the six default classes. A readable config gives its classes. An unreadable config fails, leaving the names. |
| `LegacyEmotion.EmotionCache.Settle` | Vihar/face_detection/face_detection.py:113-121 | A new label is cached with the time. A failure keeps the cached label. The label returned is the cached one. |
| `LegacyEmotion.EmotionCache.DetectEmotion` | Vihar/face_detection/face_detection.py:85-121 | The cached label is replaced only when 0.5 s have passed, the crop is non-empty and DeepFace answers. Otherwise the cache is returned unchanged. |
| `LegacyEmotion.EmotionCache.DetectEmotionCustom` | Vihar/face_detection/face_detection.py:44-83 | The same rule, with the label coming from the custom model's top class. |
| `LegacyEmotion.FaceStep` | Vihar/face_detection/face_detection.py:179-182 | One face against the cache: the cache changes only to a classification at `now`, made at least 0.5 s after the last one, and never within 0.5 s. |
| `LegacyEmotion.UsesCustom` | Vihar/face_detection/face_detection.py:179 | The custom model is used only when it is loaded and only when asked for, and it is always used when both hold. |
| `LegacyEmotion.FrameLabels` | Vihar/face_detection/face_detection.py:176-182 | One label per face, in order: the chosen classifier's rule applied face after face to the cache. |
| `LegacyEmotion.FrameLabelsShowOneClassification` | Vihar/face_detection/face_detection.py:176-182 | Within 0.5 s of the last check every face shows the cached label and the cache is kept. Otherwise at most one face is classified and every later face shows its label. |
| `LegacyEmotion.EmotionCache.ProcessFrame` | Vihar/face_detection/face_detection.py:176-182 | The labels and the new cache are `FrameLabels` of the old cache. The custom model's row decides exactly when `use_custom` holds and the model is loaded, and DeepFace's label decides otherwise. Hence also everything `FrameLabelsShowOneClassification` states. |
| `LegacyEmotion.Near` | Vihar/face_detection/face_detection.py:155-158 | Nearness is symmetric, and every point is near itself. Near points differ by less than 15 px on each axis. |
| `LegacyEmotion.Neighbours` | Vihar/face_detection/face_detection.py:150-162 | At most the allowed number of neighbours are taken. |
| `LegacyEmotion.NeighboursAreNear` | Vihar/face_detection/face_detection.py:150-162 | Every neighbour taken is another point closer than 15 in Manhattan distance, and they come in scan order. |
| `LegacyEmotion.RowLinks` | Vihar/face_detection/face_detection.py:147-162 | Odd points draw no lines. An even point draws at most three lines, all starting at itself. |
| `LegacyEmotion.MeshFollowsRule` | Vihar/face_detection/face_detection.py:147-162 | Every line of the mesh joins an even point to a different point closer than 15. |
| `LegacyEmotion.LinksFrom` | Vihar/face_detection/face_detection.py:148-162 | The inner loop with its `break` draws exactly the lines `RowLinks` specifies. |
| `LegacyEmotion.MeshLinks` | Vihar/face_detection/face_detection.py:147-162 | The whole loop draws the specified mesh, and every line follows the nearness rule. |
| `LandmarkClassifier.FeaturesOf` | Vihar/face_detection.py:84-115 | The mouth is wide when its corners are more than 45 px apart, and open when the lips are more than 8 px apart. The eyebrows are close when less than 90 px apart. Both corners must lie more than 8 px above the lip midpoint for raised corners, and more than 5 px below it for lowered corners. The eyebrows are high when their mean height lies more than 3 px above the forehead point, and low when it lies more than 20 px below it. |
| `LandmarkClassifier.Decide` | Vihar/face_detection.py:117-127 | The decision is always one of the five labels. |
| `LandmarkClassifier.DetectEmotion` | Vihar/face_detection.py:59-127 | No face, or an incomplete mesh, gives `emotion 0`. The result is always one of the five labels. |
| `LandmarkClassifier.CornersExclusive` | Vihar/face_detection.py:103-111 | Mouth corners are never both raised and lowered. |
| `LandmarkClassifier.EyebrowsExclusive` | Vihar/face_detection.py:107-114 | Eyebrows are never both high and low. |
| `LandmarkClassifier.Priority` | Vihar/face_detection.py:117-127 | Surprise wins whenever its two features hold. Each other label occurs exactly when its features hold and no earlier rule fires. Neutral occurs exactly when none fires. |
| `LandmarkClassifier.SmileOnAFace` | Vihar/face_detection.py:103-127 | On a real mesh a smile needs only its own features and no surprise, because sad corners cannot coexist with raised ones. |
| `LandmarkClassifier.EveryLabelOccurs` | Vihar/face_detection.py:117-127 | Each of the five labels is produced by some mesh. |
| `LandmarkClassifier.PairFaces` | Vihar/face_detection.py:157-173 | The i-th box is paired with the i-th landmark set, as many as both lists allow, each with its classified emotion. Nothing is paired when either list is empty. |

## Left out

- Rendering, DOM construction (`el`, `clear`), CSS, canvas and OpenCV drawing (`draw_debug`, `draw_ui`, `draw_landmarks`, rectangles, `putText`) and printing: they only display state.
- The `ctx.log` calls inside the games: they only record events.
- Camera capture, frame flipping and colour conversion: camera frames are inputs.
- MediaPipe face-mesh and face-detection calls (`get_landmarks`, `detect_faces`), the Haar cascade and `solvePnP` head pose (`calculate_head_pose`): they are foreign code. Their results are parameters: landmarks, boxes, pitch and yaw.
- DeepFace and TensorFlow: they are foreign code. Their answers are parameters.
- `save_screenshot` and the image resizing before prediction: file output and image processing.
- Threads, locks and `time.sleep`. The model runs each step as one sequential call, so the race between `/start` and the tracker setting `running` is not modelled: two quick `/start` requests could both create trackers.
- The `/status` endpoint: it only reports `running` and whether the full model imported.
- The lite loop's `sleep`/stop-event loop: only one iteration is modelled, as `LiteFrame`.
- The camera-read failure branch of the tracker loop: it only sleeps.
- Exceptions inside the emotion tasks: only the classifier failing is modelled, as a missing answer.
- `JSON.stringify`/`JSON.parse` of stored sessions: the stored value is already decoded.
- `structuredClone`: it is the identity on the payloads logged.
- The random session id: it is a constructor parameter.
- `localStorage` in tic-tac-toe and the maths game: the saved values are constructor parameters and the writes are not modelled. The maths game stores the level from before a level-up.
- Speech, AI hub and the other UI pages: they are outside these modules.
- Mongo errors other than a missing required field: the user table is a sequence.
- `emotionVisual`'s image fallback: it is display only.
- Floating point: all arithmetic is over the reals.
- `Emotions.UpperChar`: only ASCII letters are upper-cased. JavaScript's full Unicode case mapping (`é` to `É`, `ß` to the two characters `SS`) is not modelled; the labels the games pass are the ASCII `EMOTIONS`.
- `Emotions.PrettyEmotion`: for a non-ASCII first letter the source's result can differ, and can be longer, because of that case mapping. `slice(0, 1)` also cuts by UTF-16 code unit, which splits a character outside the Basic Multilingual Plane; model strings are sequences of whole characters.
- `SessionLog.SessionLogger.ExportJson`: the source's export holds the live `events` array, so an export taken before a later `log` call also shows that call's event. The model returns a snapshot of the events, so this aliasing is not captured.
- `Emotions.PrettyEmotion`: the placeholder is the three characters `â€”` as they appear in the source file, a mis-encoded em dash.
- `Dom.FmtMs`: it assumes `ms` is an integer number of milliseconds.
- `Emotions.Clamp01`: it takes an already converted number. `Number(x)` of arbitrary values is not modelled.
- `MirrorGame.Mirror.Start`: a second `start()` in the source leaves the first interval running beside the new one. The model has one `ticking` flag.
- `CalmGame.Calm.Start`: it keeps whatever ticker was running, as the source does.
- `IdentifyGame.Shuffle`: it proves the permutation only, not that every order is equally likely.
- `IdentifyGame.Identify.OnPick`: the `nextTrial()` that a pick schedules 850 ms later is not modelled as a pending timer. In the source, a stop followed by a restart within those 850 ms lets the old timer replace the new session's first trial.
- `TicTacToe.FindBestMove`: on a full board the source indexes an empty array and gets `undefined`. The model returns none, which `runComputerTurn` treats the same way. The two `Math.random()` results are parameters.
- `MathGame.Game.ResetGame`: it uses the level of the render in which reset was clicked, as the closure in the source does.
- `MathGame.Game.NewQuestion`: it likewise takes the level as an argument.
- `GazeTracker.IrisRatio`: the model also returns 0.5 when `v · v` is zero. Over the reals that happens only when the corners coincide, which is the source's own guard, but this equivalence is not proved. `IrisOnAxis` and `IrisAtCorners` therefore assume `v · v ≠ 0`.
- `GazeTracker.EmotionEyeTracker.CountBlink`: the source reads `time.time()` twice. The model uses one `now`.
- `GazeTracker.EmotionEyeTracker.EmotionTaskFinishes`: likewise one `now`.
- `GazeTracker.EmotionEyeTracker.ProcessFace`: the landmark pixel coordinates `int(lm.x * w)` arrive already truncated, as the observation's integer lists.
- `EmotionServer.TrackerThread.TriggerEmotion`: the two clock readings are one `now`.
- `EmotionServer.TrackerThread.RunDeepface`: `round(conf, 2)` is not modelled. The confidence is stored as given.
- `EmotionServer.Server.constructor`: the tracker that server.py:232-233 creates and starts at launch, before any `/start`, is not modelled. The model starts with no tracker, so its first `/stop` finds none to stop.
- `LegacyEmotion.EmotionCache.DetectEmotion`: the two clock readings are one `now`.
- `LegacyEmotion.EmotionCache.ProcessFrame`: all faces of a frame share one `now`.
- `FaceCrop.Pad`: `int(h * 0.1)` is modelled as exact floor division of a non-negative height. The binary rounding of `0.1` and `0.15` is not modelled.
- `LandmarkClassifier.FeaturesOf`: the depth coordinate and the unused nose, eye and chin landmarks are dropped, because no rule reads them.
