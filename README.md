# Studiva study companion — verified model of its page logic

Studiva is a single-page study companion built with React. The browser holds all of its state.
Its logic is small, self-contained code inside the page components:

- the focus timer's state machine (`Timer.tsx`);
- the vision board's grid moves, item additions and deletions (`VisionBoard.tsx`);
- the notes store with pinning, tags and search (`Notes.tsx`);
- the in-memory account store (`utils/auth.ts`);
- the sign-up form's validators and password-strength meter (`Signup.tsx`);
- the calendar's date keys, day cells, events, moods and streak dots (`Calendar.tsx`);
- the settings page's initials, notification switches and profile defaults (`Settings.tsx`).

This Dafny project models each piece in the form the code takes, and proves what the code promises.

- **Pure expressions** are modelled as datatypes, functions and lemmas. These are the `map`/`filter` expressions, the validators, the key formats and the defaults.
- **State changed step by step** is modelled as a class whose fields are the component's state variables.
  There is one per page: `FocusTimer.Timer`, `VisionBoard.BoardPage`, `Notes.NotesPage`, `Auth.UserStore`, `Signup.SignupForm` and `Calendar.CalendarPage`.
  Each method states its whole new state as a function of the old state. The lemmas about those functions carry the properties.
- **Loops and in-place updates stay imperative.**
  `VisionBoard.MoveItems` copies the items into an array and swaps two cells in place.
  `Signup.PasswordStrength` raises a counter.
  `Calendar.RenderCalendarDays` fills the month grid in two loops.

JavaScript semantics are spelled out where they matter:

- `%` is truncated (`JsMath.JsRem`);
- `||` falls back on falsy values such as `""`, `0` and `null`;
- `split` turns `""` into `[""]`;
- `findIndex` returns -1 when nothing is found;
- `padStart(2, '0')` pads to two digits;
- white space, trimming and case are ASCII (`Text`).

Browser inputs are parameters: clock readings, today's date, fresh ids, and the answers to `prompt` and `confirm`.

Modules: `Wrappers` (Option, Result), `Text`, `Seqs` (a filter and its laws), `JsMath`, `UserRecord` (`types/User.ts`), `FocusTimer`, `VisionBoard`, `Notes`, `Auth`, `Signup`, `Calendar`, `Settings`.

Notes on the code's behaviour, which the model follows:

- Pausing keeps the last displayed value; nothing recomputes it.
- The session dots fill up (`i < session`) and never wrap every four.
- A phase that completes leaves 00:00 on the display. See "Findings".
- The start/pause button toggles. Pressing it while running pauses; it is never a no-op.

## Model

| member | source | states |
|---|---|---|
| FocusTimer.TickDisplay | project/src/pages/Timer.tsx:57-59 | for a positive distance, minutes ≥ 0, 0 ≤ seconds < 60 and minutes·60 + seconds is the distance in whole seconds |
| FocusTimer.FormatTime | project/src/pages/Timer.tsx:93-95 | for m < 100 and s < 60, a 5-character string: two digits of m, ':' at index 2, two digits of s |
| FocusTimer.SessionDots | project/src/pages/Timer.tsx:178-187 | four dots; dot i is lit exactly when i < session |
| FocusTimer.InitialInv | project/src/pages/Timer.tsx:16-23 | the initial state (25:00, paused, Focus, session 1) satisfies the invariant: running exactly when a deadline is set, seconds below 60, preset length |
| FocusTimer.OperationsKeepInv | project/src/pages/Timer.tsx:34-91 | start/pause, tick, reset and preset each preserve the invariant |
| FocusTimer.StartSetsDeadline | project/src/pages/Timer.tsx:35-38 | starting from pause sets the deadline to now + minutes·60000 + seconds·1000 and leaves the display |
| FocusTimer.PauseFreezesDisplay | project/src/pages/Timer.tsx:62-65 | pausing clears the deadline and keeps minutes and seconds as last displayed |
| FocusTimer.TickShowsRemaining | project/src/pages/Timer.tsx:41-60 | a tick before the deadline displays the whole seconds left and keeps running |
| FocusTimer.TicksSelfCorrect | project/src/pages/Timer.tsx:39-41 | two ticks leave the same state as the last one alone: the display depends on the clock only |
| FocusTimer.TicksCountDown | project/src/pages/Timer.tsx:41-59 | with a fixed deadline and a non-decreasing clock the display never increases |
| FocusTimer.FirstTickCountsDown | project/src/pages/Timer.tsx:36-41 | the first tick after a start never shows more than was displayed |
| FocusTimer.FocusCompletion | project/src/pages/Timer.tsx:42-56 | completing Focus: stopped, no deadline, Break, session + 1, total 5, display 00:00 |
| FocusTimer.BreakCompletion | project/src/pages/Timer.tsx:50-56 | completing Break: stopped, no deadline, Focus, total 25, same session, display 00:00 |
| FocusTimer.RestartCompletesAtOnce | project/src/pages/Timer.tsx:36-56 | after a completion, start then any later tick completes the next phase at once |
| FocusTimer.ResetLoadsPhaseLength | project/src/pages/Timer.tsx:78-83 | reset: paused, no deadline, display = total·60, phase, session and total kept |
| FocusTimer.PresetOverrides | project/src/pages/Timer.tsx:85-91 | setPreset(d) is reset with total d |
| FocusTimer.ProgressBounds | project/src/pages/Timer.tsx:32 | whenever 0 ≤ display ≤ total·60, the progress is within [0, 100]: 0 at the full length, 100 at 00:00 |
| FocusTimer.InitialBounded | project/src/pages/Timer.tsx:16-23 | the mounted state shows no more than its phase length and has no deadline |
| FocusTimer.OperationsKeepBounded | project/src/pages/Timer.tsx:34-91 | with a clock that does not run backwards, start/pause, tick, reset and preset keep the display within the phase length and the deadline within one phase length of the clock |
| FocusTimer.ReachedProgressBounds | project/src/pages/Timer.tsx:32 | in every such reachable state the progress is within [0, 100] |
| FocusTimer.IntendedRestartRunsFullPhase | project/src/pages/Timer.tsx:45-56 | with the intended completion the display holds the new phase length and a restart runs that long |
| FocusTimer.Timer.constructor | project/src/pages/Timer.tsx:16-23 | the fields start as the initial state and the invariant holds |
| FocusTimer.Timer.Toggle | project/src/pages/Timer.tsx:34-76 | the new state is `Toggled` (start or pause) of the old one, and the invariant holds |
| FocusTimer.Timer.Tick | project/src/pages/Timer.tsx:39-61 | the new state is `Ticked` of the old one at `now`, and the invariant holds |
| FocusTimer.Timer.Reset | project/src/pages/Timer.tsx:78-83 | the new state is the reset of the old one |
| FocusTimer.Timer.SetPreset | project/src/pages/Timer.tsx:85-91 | the new state is the preset of the old one with the chosen length |
| VisionBoard.FindBoard | project/src/pages/VisionBoard.tsx:75 | the first board with that id, or none exactly when no board has it |
| VisionBoard.ItemIndex | project/src/pages/VisionBoard.tsx:127 | the first index with that id, or -1 exactly when none has it |
| VisionBoard.MoveItems | project/src/pages/VisionBoard.tsx:127-140 | copying into an array and swapping in place yields the specified moved items and reports whether the move was valid |
| VisionBoard.MovesStayOnGrid | project/src/pages/VisionBoard.tsx:129-137 | an existing target is one row up or down in the same column, or one cell left or right in the same row |
| VisionBoard.RowEdgesBlock | project/src/pages/VisionBoard.tsx:135-136 | left is blocked exactly in column 0, right exactly in column 3 |
| VisionBoard.OutOfRangeMoveUnchanged | project/src/pages/VisionBoard.tsx:139 | a target below 0 or past the end leaves the items unchanged |
| VisionBoard.ValidMoveSwaps | project/src/pages/VisionBoard.tsx:128-140 | a valid move exchanges exactly the item and its target; every other position, the length and the multiset stay |
| VisionBoard.LeftThenRightRestores | project/src/pages/VisionBoard.tsx:132-140 | a valid left move followed by a right move of the same item restores the order |
| VisionBoard.UpThenDownRestores | project/src/pages/VisionBoard.tsx:132-140 | a valid up move followed by a down move of the same item restores the order |
| VisionBoard.UpdateBoardItemsEffect | project/src/pages/VisionBoard.tsx:68-76 | only boards with the selected id get the new items; the selection is re-read and holds the new items |
| VisionBoard.NoSelectionNoChange | project/src/pages/VisionBoard.tsx:68-76 | with nothing selected, replacing or moving items changes nothing |
| VisionBoard.AddTextItemEffect | project/src/pages/VisionBoard.tsx:78-88 | a cancelled, empty or blank goal adds nothing; otherwise the trimmed goal is appended in bg-pink-200 |
| VisionBoard.AddQuoteEffect | project/src/pages/VisionBoard.tsx:90-100 | a cancelled or empty quote adds nothing; otherwise the untrimmed quote is appended in bg-green-200 |
| VisionBoard.BlankGoalRefusedBlankQuoteKept | project/src/pages/VisionBoard.tsx:80-92 | the two guards differ: " " is refused as a goal and appended as a quote |
| VisionBoard.DeleteBoardEffect | project/src/pages/VisionBoard.tsx:186-193 | exactly the boards with that id go; the selection falls back to the first remaining board only if it was deleted |
| VisionBoard.DeleteSelectedBoardEffect | project/src/pages/VisionBoard.tsx:234-241 | the selected board goes and the first remaining board, or none, is selected |
| VisionBoard.DeleteItemEffect | project/src/pages/VisionBoard.tsx:263-274 | only the selected board changes, keeping exactly its items with another id |
| VisionBoard.InitialSelectionChoice | project/src/pages/VisionBoard.tsx:60-61 | the first selection is one of the user's boards if they have one, and none only without boards |
| VisionBoard.AbsentIdPassesSourceGuard | project/src/pages/VisionBoard.tsx:127-139 | with four or more items an absent id moved down gets index -1 and target 3 and passes the written guard |
| VisionBoard.AbsentIdMoveUnchanged | project/src/pages/VisionBoard.tsx:127-139 | with an id that no item has, no direction is a valid move and the items stay unchanged |
| VisionBoard.BoardPage.constructor | project/src/pages/VisionBoard.tsx:26-61 | the page opens on the given boards with the initial selection |
| VisionBoard.BoardPage.Select | project/src/pages/VisionBoard.tsx:175 | the clicked board becomes the selection |
| VisionBoard.BoardPage.SetState | project/src/pages/VisionBoard.tsx:74-75 | boards and selection are replaced together |
| VisionBoard.BoardPage.MoveItem | project/src/pages/VisionBoard.tsx:124-142 | the new page state is the specified move |
| VisionBoard.BoardPage.AddTextItem | project/src/pages/VisionBoard.tsx:78-88 | the new page state is the specified goal addition |
| VisionBoard.BoardPage.AddQuote | project/src/pages/VisionBoard.tsx:90-100 | the new page state is the specified quote addition |
| VisionBoard.BoardPage.DeleteBoard | project/src/pages/VisionBoard.tsx:186-193 | the new page state is the specified sidebar deletion |
| VisionBoard.BoardPage.DeleteSelectedBoard | project/src/pages/VisionBoard.tsx:234-241 | the new page state is the specified canvas deletion |
| VisionBoard.BoardPage.DeleteItem | project/src/pages/VisionBoard.tsx:263-274 | the new page state is the specified item deletion |
| Notes.MaxId | project/src/pages/Notes.tsx:122 | an upper bound of all ids that some note has |
| Notes.NextId | project/src/pages/Notes.tsx:122 | above every id in the list, and 1 for an empty list |
| Notes.ParsedTagsClean | project/src/pages/Notes.tsx:118 | no parsed tag is empty, contains ',', or has white space at either end |
| Notes.ParsedTagsComplete | project/src/pages/Notes.tsx:118 | every comma-separated piece that is not blank is kept, trimmed |
| Notes.TogglePinEffect | project/src/pages/Notes.tsx:73-77 | the pin flips on notes with that id only, and no other field changes |
| Notes.TogglePinTwice | project/src/pages/Notes.tsx:73-77 | toggling twice restores the list |
| Notes.DeleteRemovesExactly | project/src/pages/Notes.tsx:80 | a note remains exactly when it was listed and has another id |
| Notes.DeleteKeepsOrder | project/src/pages/Notes.tsx:80 | deletion distributes over concatenation, so the rest keep their order |
| Notes.CreatedNoteFresh | project/src/pages/Notes.tsx:121-130 | a new note's id is not in the list and it starts unpinned |
| Notes.UpdateKeepsOtherFields | project/src/pages/Notes.tsx:134-141 | only notes with the selected id change, only in title, content, tags and emoji |
| Notes.ListingExact | project/src/pages/Notes.tsx:62-68 | a note is listed exactly when it is the user's and matches the lower-cased term in title, content or a tag |
| Notes.EmptySearchKeepsAll | project/src/pages/Notes.tsx:64-68 | an empty term lists every note of the user |
| Notes.PinnedRegularPartition | project/src/pages/Notes.tsx:70-71 | pinned and other notes together hold each listed note once, split by the pin |
| Notes.NotesPage.constructor | project/src/pages/Notes.tsx:10-55 | the page opens on the given list with nothing selected and not creating |
| Notes.NotesPage.TogglePin | project/src/pages/Notes.tsx:73-77 | the list becomes the toggled list, and the selection stays |
| Notes.NotesPage.DeleteNote | project/src/pages/Notes.tsx:79-85 | the note goes; if it was selected the selection clears and creation ends |
| Notes.NotesPage.StartCreating | project/src/pages/Notes.tsx:175-178 | creation starts with nothing selected |
| Notes.NotesPage.Select | project/src/pages/Notes.tsx:199-201 | the clicked note is selected and creation ends |
| Notes.NotesPage.Cancel | project/src/pages/Notes.tsx:144-147 | nothing selected and not creating |
| Notes.SaveEffect | project/src/pages/Notes.tsx:117-142 | while creating, one note is put in front with a fresh id, unpinned, the user's id, today's date and the parsed tags, and it becomes the selection; otherwise the selected note is updated; with neither, nothing changes |
| Notes.NotesPage.HandleSave | project/src/pages/Notes.tsx:117-142 | the list, the selection and the creating flag become the specified save of the old ones |
| Seqs.FindIndex | project/src/utils/auth.ts:109 | the first index whose element satisfies the predicate, or -1 exactly when none does; the e-mail lookups of auth.ts:46 and :87 and the id lookup use it |
| Seqs.FindIndexAppend | project/src/utils/auth.ts:73-87 | appending keeps every earlier answer and finds the new element last |
| Auth.SignUpDuplicateRejected | project/src/utils/auth.ts:46-50 | a taken e-mail fails with "User already exists with this email" and changes nothing |
| Auth.SignUpFreshAppends | project/src/utils/auth.ts:53-79 | a fresh e-mail appends one user with that e-mail and name, goal 4, streak 0, time 0, default notifications, and stores the password |
| Auth.IndexOfEmailAppend | project/src/utils/auth.ts:73-87 | appending a user keeps the earlier e-mail lookups and finds the new one at the end |
| Auth.SignUpKeepsUnique | project/src/utils/auth.ts:46-73 | one sign-up keeps e-mails unique |
| Auth.SignUpsKeepUnique | project/src/utils/auth.ts:46-73 | any sequence of sign-ups keeps e-mails unique |
| Auth.SignInUnknownEmail | project/src/utils/auth.ts:87-91 | an unknown e-mail fails with "User not found" |
| Auth.SignInWrongPassword | project/src/utils/auth.ts:94-98 | a differing or absent stored password fails with "Invalid password" |
| Auth.SignInOk | project/src/utils/auth.ts:85-101 | a success returns a stored user with that e-mail whose stored password matched |
| Auth.DemoUserCannotSignIn | project/src/utils/auth.ts:5-98 | the seeded demo account has no stored password, so it never signs in |
| Auth.SignUpThenSignIn | project/src/utils/auth.ts:73-101 | after a successful sign-up, signing in with the same e-mail and password returns the new user |
| Auth.UpdateUserReplacesFirst | project/src/utils/auth.ts:108-114 | the first user with that id is replaced, length and others kept; no match changes nothing |
| Auth.UpdateUserKeepsUnique | project/src/utils/auth.ts:108-114 | an update that keeps the replaced user's e-mail keeps e-mails unique |
| Auth.UserStore.constructor | project/src/utils/auth.ts:5-25 | the store starts with the demo user and no passwords |
| Auth.UserStore.SignUp | project/src/utils/auth.ts:43-83 | the new store and the answer are the specified sign-up step, and unique e-mails stay unique |
| Auth.UserStore.SignIn | project/src/utils/auth.ts:85-102 | the answer is the specified sign-in result on the current store |
| Auth.UserStore.GetAllUsers | project/src/utils/auth.ts:104-106 | the current user list |
| Auth.UserStore.UpdateUser | project/src/utils/auth.ts:108-114 | the list becomes the specified update and the passwords stay |
| Signup.Strength | project/src/pages/Signup.tsx:82-89 | the score is in 0..4; it is 4 exactly when all four criteria hold and 0 exactly when none does |
| Signup.PasswordStrength | project/src/pages/Signup.tsx:82-89 | the counter equals the number of criteria met: length ≥ 6, A-Z, 0-9, another character |
| Signup.Step1Valid | project/src/pages/Signup.tsx:29-43 | step one passes exactly when name and e-mail are not blank and the e-mail matches the pattern |
| Signup.Step1Order | project/src/pages/Signup.tsx:29-43 | the first failing check chooses the message: name, then e-mail, then format |
| Signup.EmailPatternNotBlank | project/src/pages/Signup.tsx:34-38 | a matching e-mail is never blank |
| Signup.EmailPatternUnanchored | project/src/pages/Signup.tsx:38 | the pattern is unanchored: text around a match never spoils it |
| Signup.EmailPatternSamples | project/src/pages/Signup.tsx:38 | "a@b.c" and "my name x@y.io" match; "a@b" and "a@.c" do not |
| Signup.Step2Valid | project/src/pages/Signup.tsx:45-55 | step two passes exactly when the password has 6 characters and equals the confirmation; the length message comes first |
| Signup.StrengthMonotone | project/src/pages/Signup.tsx:84-87 | appending characters never lowers the score |
| Signup.StrengthSamples | project/src/pages/Signup.tsx:82-89 | "" scores 0, "abcdef" 1, "Abc12!" 4 |
| Signup.LabelsMatchColours | project/src/pages/Signup.tsx:91-121 | 0-1 Weak/red, 2 Fair/yellow, 3 Good/blue, 4 Strong/green, any other number ""/gray, both directions |
| Signup.PasswordAlwaysLabelled | project/src/pages/Signup.tsx:82-121 | a password's score always gets one of the four labels |
| Signup.SignupForm.constructor | project/src/pages/Signup.tsx:12-22 | empty fields, no error, step 1 |
| Signup.SignupForm.HandleInputChange | project/src/pages/Signup.tsx:24-27 | only the named field changes |
| Signup.SignupForm.HandleNext | project/src/pages/Signup.tsx:57-62 | the error clears and step 2 follows exactly when step one passes; otherwise the message is shown |
| Signup.SignupForm.HandleSubmit | project/src/pages/Signup.tsx:64-80 | a failing step two shows its message and does not touch the store; otherwise the store's sign-up decides the user or the message |
| Calendar.FillMonth | project/src/pages/Calendar.tsx:62-113 | firstDay blank cells, then the cell of day d at position firstDay + d - 1 |
| Calendar.RenderCalendarDays | project/src/pages/Calendar.tsx:62-113 | firstDay blank cells, then one cell per day holding that day's events, truncation and highlights |
| Calendar.DateKeyShape | project/src/pages/Calendar.tsx:58 | the key is the year's digits, '-', two month digits, '-', two day digits |
| Calendar.DateKeyInjective | project/src/pages/Calendar.tsx:58 | different valid dates have different keys |
| Calendar.DateKeySample | project/src/pages/Calendar.tsx:58 | 5 January 2024 (month 0) gives "2024-01-05" |
| Calendar.EventsForDateExact | project/src/pages/Calendar.tsx:57-60 | a day's events are exactly the user's events with that key, in their order |
| Calendar.CellTruncation | project/src/pages/Calendar.tsx:94-106 | a cell shows the first at most two events, and "+N more" exactly when N = count - 2 > 0 |
| Calendar.AddEventRejected | project/src/pages/Calendar.tsx:302-305 | a blank title or no selected date adds nothing |
| Calendar.AddEventAppends | project/src/pages/Calendar.tsx:306-314 | one custom event is appended with id length + 1 and the selected date's key |
| Calendar.SeedIdsSequential | project/src/pages/Calendar.tsx:13-19 | the seeded ids are 1..5 in list order |
| Calendar.IdsStaySequential | project/src/pages/Calendar.tsx:306-314 | every add keeps events[i].id == i + 1 |
| Calendar.AddPressedEffect | project/src/pages/Calendar.tsx:301-317 | the Add button adds exactly the specified event, keeps ids sequential, clears the title and closes the modal on success, and changes nothing otherwise |
| Calendar.NewEventIdFresh | project/src/pages/Calendar.tsx:307 | with sequential ids the new id is not taken |
| Calendar.MoodOnlyForSelectedDate | project/src/pages/Calendar.tsx:209-215 | the selected date gets the emoji, other dates keep theirs, no date changes nothing |
| Calendar.StreakDotsLit | project/src/pages/Calendar.tsx:256-262 | dot i is lit exactly when i < streak % 7; a negative streak lights none |
| Calendar.StreakDotsCount | project/src/pages/Calendar.tsx:256-262 | the number of lit dots is the streak modulo 7 |
| Calendar.UpcomingPrefix | project/src/pages/Calendar.tsx:237 | the first at most four of the user's events |
| Calendar.CalendarPage.constructor | project/src/pages/Calendar.tsx:10-24 | the whole state: the seeded events, no moods, no date, empty title, default mood, modal closed; ids sequential |
| Calendar.CalendarPage.SelectDay | project/src/pages/Calendar.tsx:86 | the clicked day of the shown month is selected and every other field stays |
| Calendar.CalendarPage.OpenAddEvent | project/src/pages/Calendar.tsx:189-195 | the modal opens exactly when a date is selected, and every other field stays |
| Calendar.CalendarPage.TypeTitle | project/src/pages/Calendar.tsx:281 | the title field takes the typed text and every other field stays |
| Calendar.CalendarPage.PickEventMood | project/src/pages/Calendar.tsx:290 | the mood field takes the chosen emoji and every other field stays |
| Calendar.CalendarPage.AddEvent | project/src/pages/Calendar.tsx:301-317 | the events, the title and the modal flag become the specified Add press of the old ones, every other field stays, and ids stay sequential |
| Calendar.CalendarPage.CancelAddEvent | project/src/pages/Calendar.tsx:323 | the modal closes and every other field stays |
| Calendar.TodayMoodAfter | project/src/pages/Calendar.tsx:216-218 | today's mood becomes the emoji exactly when the selected date has today's key, and is kept otherwise |
| Calendar.CalendarPage.ChooseMood | project/src/pages/Calendar.tsx:209-218 | moods get the selected date's emoji, today's mood follows `TodayMoodAfter`, and every other field stays |
| Settings.WordStarts | project/src/pages/Settings.tsx:69-71 | the word starts are non-space characters of the name |
| Settings.HeadsOfSplit | project/src/pages/Settings.tsx:70 | first characters of the space-separated pieces are exactly the word starts |
| Settings.InitialsAreWordStarts | project/src/pages/Settings.tsx:69-71 | the initials are the upper-cased word starts: no spaces, no lower case, never longer than the name |
| Settings.InitialsSample | project/src/pages/Settings.tsx:69-71 | " x  y" gives "XY": empty pieces between spaces add nothing |
| Settings.InitialsOfEmpty | project/src/pages/Settings.tsx:69-71 | an empty name gives no initials |
| Settings.ToggleFlipsOnlyKey | project/src/pages/Settings.tsx:172 | a click flips its own switch and no other |
| Settings.ToggleTwice | project/src/pages/Settings.tsx:172 | two clicks restore the settings |
| Settings.InitialNotificationsChoice | project/src/pages/Settings.tsx:14-21 | the user's notifications, or all but weekly reports on when there is no user |
| Settings.ProfileFallbacks | project/src/pages/Settings.tsx:23-28 | each profile field falls back exactly when the user's value is falsy; goal 0 shows as 4 |
| UserRecord.EffectiveUserId | project/src/pages/Notes.tsx:62 | the user's id, or "1" when there is no user or the id is empty |
| Text.Trim | project/src/pages/Notes.tsx:118 | never longer than the input, and neither end of the result is white space |
| Text.TrimSplit | project/src/pages/Notes.tsx:118 | the input is white space, then the result, then white space |
| Text.TrimKeepsChars | project/src/pages/Notes.tsx:118 | every character of the result occurs in the input |
| Text.TrimEmptyIffAllSpace | project/src/pages/Signup.tsx:30 | a string trims to "" exactly when it is all white space |
| Text.Split | project/src/pages/Notes.tsx:118 | at least one piece, none containing the separator |
| Text.JoinSplit | project/src/pages/Notes.tsx:118 | joining the pieces with the separator gives back the string |
| Text.ContainsIffOccurs | project/src/pages/Notes.tsx:65-67 | `includes` holds exactly when the term occurs at some position |
| Text.PadTwoDigits | project/src/pages/Timer.tsx:94 | below 100, two digits (tens, units); from 10 on, the plain decimal; only digits |
| Text.NatToStringDigits | project/src/pages/Calendar.tsx:58 | only digits; one below 10, two from 10 to 99 |
| Text.ParseNatToString | project/src/pages/Calendar.tsx:58 | the decimal text of a number reads back as that number |
| JsMath.JsRem | project/src/pages/VisionBoard.tsx:135-136 | the truncated remainder: below b in size, Dafny's % for non-negative operands, not positive for negative ones |
| Seqs.FilterPartition | project/src/pages/Notes.tsx:70-71 | filtering by a predicate and by its negation splits the list's multiset and length |
| Seqs.FilterFilter | project/src/pages/Calendar.tsx:57-60 | two filters in a row equal one filter by both predicates |

## Left out

- Loading and saving through localStorage and sessionStorage, and the JSON parse fallbacks, are I/O. Each store is an in-memory value. `Notes.NotesPage` and `VisionBoard.BoardPage` start from a list the caller gives; `Auth.UserStore` starts from the seeded demo user. The seeded notes and boards are not part of this model.
- `Date.now()` and `new Date()` are parameters: the timer's clock, today's date and the creation dates, the vision-board item ids, and the new account's id and join date.
- `setInterval`, `clearInterval` and React's effects and batching are not modelled. One tick is one call of `Timer.Tick`, and the state updates of a handler happen in source order. The `intervalRef` guard on the pause branch is always true after a start, so it is not a field.
- JavaScript `Date` month arithmetic (`getDaysInMonth`, `getFirstDayOfMonth`, `navigateMonth`) is taken as input to `Calendar.RenderCalendarDays`.
- FocusTimer.Progress: the page computes it in floating point and draws an SVG dash offset with `Math.PI`. The model states it over reals and leaves out the drawing.
- The random daily affirmation (`Math.random`) is not modelled.
- A `prompt` answer is an `Option<string>` parameter, and a `confirm` answer is a `bool` parameter. `alert` is a no-op.
- The image upload through FileReader (`addImage`) is not modelled: it only appends an item once the browser has read a file. The Blob export and the placeholder privacy and delete-account buttons of Settings are not modelled either.
- `toLowerCase`, `toUpperCase`, `trim` and the regular expressions' `\S` are restricted to ASCII.
- Signup.ValidateStep2: the 6-character minimum counts Unicode code points, where the page's `length` counts UTF-16 code units; a password of characters outside the Basic Multilingual Plane is shorter here than there.
- Signup.Strength: the length point counts code points, not UTF-16 code units, for the same reason.
- Signup.PasswordStrength: the same code-point count as `Signup.Strength`.
- Settings.Initials: a word's first character is a whole code point; for a word that starts outside the Basic Multilingual Plane the page's `n[0]` takes a lone surrogate instead.
- Auth.Store: the stored passwords are a map from e-mail to password. The page keeps a plain object, so a key such as `__proto__` would not be stored as an ordinary entry there; the e-mail pattern of the sign-up form keeps such keys out.
- The Notes editor-field effect is not modelled. It copies the selected note into the editor inputs, so `HandleSave` takes the editor values directly.
- The profile input bindings of Settings (`parseInt` of the goal slider) are not modelled, and neither is Settings' theme picker.
- The sign-up form's `isLoading` flag and password-visibility toggles are display state and are not modelled.
- `isCreatingBoard` is not modelled: it is set, but no board-creation code uses it.
- Auth.UserStore.GetAllUsers returns the list by value. In the source, callers receive the module's own array and could alias it.
- The web page routing, navigation bar, hero animation, dashboard and about page (App.tsx, Navigation.tsx, Hero.tsx, Dashboard.tsx, About.tsx, FloatingElements.tsx) and the login page's glue are not part of this model. The navigation bar's copy of `getInitials` is the same expression as `Settings.Initials`.
- VisionBoard.MoveItems: for an id that is not on the board, the model leaves the items alone (`VisionBoard.AbsentIdMoveUnchanged`). The source would write outside the list; see "Findings".

## Findings

| source | as written | input that shows it | evidently intended | confidence | as-written member | corrected member |
|---|---|---|---|---|---|---|
| project/src/pages/Timer.tsx:48-56 | on completion `setMinutes(0)` runs after `setMinutes(5)` / `setMinutes(25)`, so the display reads 00:00 while the total holds the new length; the next start then completes that phase on its first tick | any completion, for example a Focus phase ticked at its deadline, then start and one tick | the new phase should show its full length (05:00 or 25:00) and run that long after a restart | not executed; high, the write order is plain | FocusTimer.RestartCompletesAtOnce | FocusTimer.IntendedRestartRunsFullPhase |
| project/src/pages/VisionBoard.tsx:127-140 | the guard checks only the target cell, so a move down of an id not on a board with at least four items gets index -1 and target 3 and swaps with position -1 | four items and an id none of them has, direction down | a missing item should make the move a no-op | not executed; low, the buttons only pass ids present on the board | VisionBoard.AbsentIdPassesSourceGuard | VisionBoard.AbsentIdMoveUnchanged |
