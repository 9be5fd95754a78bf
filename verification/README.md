# Keyboard control of the trashcan-and-humans scene

The browser scene in `main.js` holds five models: a trashcan and four humans
placed around a table. One model at a time is *active*. The active index is -1
for the trashcan and 0–3 for Human 1–4. Key events drive the active model:

- W and S set its linear velocity to +0.02 or −0.02.
- A and D set its turn rate to +0.03 or −0.03.
- Releasing any of these four keys sets that quantity back to 0.
- Digits 1–4 select a human and 5 selects the trashcan. Selecting first stops
  the model that was active.
- T steps through the models in the order trashcan, Human 1, …, Human 4,
  trashcan.
- X flips the "show axes" flag.

A small GUI panel shows the active model's label and the four held-key flags.

This project models that control state and its handlers. It has three modules:

- `Keys` (`keys.dfy`): a key value (`e.key`, a string) becomes a logical
  `Key`. The digit test comes first and the case-folded `switch` second, as in
  the keydown handler. The handlers use the intended digit test, which accepts
  only the one-character keys 1–5. The test as written (a string comparison
  and `parseInt`) is modelled beside it, and `DigitSelectionDeparts` proves that
  the two differ exactly on keys of two or more characters that start with
  1–4 (see Findings).
- `ControlState` (`control_state.dfy`): the whole control state is one
  `State` value. Each handler is a function on it. The invariant `Valid` says
  four things: the index is in [-1, 3], there are four human entries, the label
  matches the index, and every velocity and turn rate is one of the constants
  the handlers write. The lemmas relate several calls.
- `Controls` (`controls.dfy`): class `Controller` holds the module-level
  variables of `main.js` as fields. The two 4-element `humanVelocities` /
  `humanDirections` arrays are `const` fields of type `array<real>`. Each method
  updates the fields in place and is proved to produce exactly
  `ControlState.<handler>(old(Snapshot()))`.

Cycling with T does not stop the model it leaves, and the model keeps this
behaviour of the code. The model that was left keeps its velocity and turn rate
while inactive. W/A/S/D events on other models do not change it
(`CycleLeavesPreviousMoving`, `InactiveMotionPersists`,
`Controls.CycleWhileDriving`). It stops only in one of two ways:

- it becomes active again (by T or by its digit) and its keys are released;
- it is active again when a digit key is pressed, because `setActiveModel`
  zeroes whichever model was active, even when the digit selects that same
  model.

## Model

| member | source | states |
|---|---|---|
| Keys.ToLowerSingle | main.js:50 | after case folding, a key equals the one-letter case label exactly when it is that letter in lower or upper case |
| Keys.ToLower | main.js:50 | case folding keeps the length and lower-cases each character on its own |
| Keys.DigitIndex | main.js:44-46 | digit 5 maps to the trashcan (-1) and digits 1–4 to indices 0–3, whose label digit is the pressed digit |
| Keys.Classify | main.js:43-50 | a key value is a digit key exactly when it is one of the one-character keys 1–5, and then it is that digit (the intended digit test; see Findings) |
| Keys.DigitSelectionAsWritten | main.js:43-46 | as written, a model is selected exactly for keys that start with 1–4 (any length) and for the key "5", and the selected index is at least -1 |
| Keys.DigitSelectionDeparts | main.js:43-46 | the written digit test and the intended one differ exactly on keys of two or more characters that start with 1–4; the handler model treats every key of two or more characters as no key it reacts to |
| Keys.DigitLedKey | main.js:43-46 | as written, the key value "1a" selects Human 1, while the handler model ignores it |
| Keys.ClassifyDigit | main.js:43-44 | a key value classifies as digit n exactly when it is the one character n |
| Keys.ClassifyLetter | main.js:50-88 | W, A, S, D, T and X are recognised in either case, and only as a single character (so "Tab" is not T) |
| Keys.DigitSelection | main.js:43-46 | a digit key selects an index in [-1, 3], and a selection happens exactly for the one-character keys 1–5 |
| Keys.DigitGuardAsWrittenIff | main.js:43 | the string-comparison guard passes exactly for keys that start with 1–4 (any length) and for the key "5" |
| Keys.DigitSelectionAgrees | main.js:43-46 | on one-character keys, the guard and `parseInt` as written select the same index as the intended digit test |
| Keys.MultiCharacterDigitKey | main.js:43-46 | as written, the key value "12" passes the guard and selects index 11, which the intended test rejects |
| ControlState.Init | main.js:15-32 | at load, the trashcan is active and labelled "Trashcan", nothing moves, no key is held, axes are shown, and no inactive model moves |
| ControlState.SetActiveModel | main.js:129-150 | the previously active model's velocity and turn rate become 0, no other model's motion changes, the index becomes `index` with its label, key flags and showAxes are unchanged, and the invariant holds |
| ControlState.NextIndex | main.js:155-161 | the next index stays in [-1, 3] and is the successor modulo five models, counted from the trashcan |
| ControlState.CycleActiveModel | main.js:152-171 | the index advances one place around the five models, the label follows it, and no velocity, turn rate, key flag or showAxes changes |
| ControlState.ToggleAxes | main.js:173-174 | showAxes flips and nothing else changes |
| ControlState.DriveActive | main.js:53-57 | only the active model's velocity is replaced; its turn rate and every other model's motion stay |
| ControlState.TurnActive | main.js:69-73 | only the active model's turn rate is replaced; its velocity and every other model's motion stay |
| ControlState.KeyDown | main.js:41-90 | a digit selects a model without touching key flags; W/S set the active velocity to ±0.02 and A/D its turn rate to ±0.03, whatever the value was before, and change only that flag and that entry; T cycles; X toggles; other keys change nothing; the invariant is kept |
| ControlState.KeyUp | main.js:92-127 | releasing W or S zeroes the active velocity, and A or D its turn rate, whatever else is held; the matching flag clears; no other model changes; other keys change nothing |
| ControlState.LabelDeterminesIndex | main.js:143-147 | the label is "Trashcan" exactly for index -1, and different indices get different labels ("Human i+1") |
| ControlState.KeyDownIdempotent | main.js:50-82 | a repeated keydown of W, A, S or D leaves the state as the first one did |
| ControlState.LaterKeyWins | main.js:51-82 | of two linear (or two turning) keydowns, the later one's constant replaces the earlier; nothing is summed |
| ControlState.ReleaseDoesNotRestore | main.js:94-109 | with S and W pressed, releasing W stops the model although S is still held |
| ControlState.KeyUpIdempotent | main.js:92-127 | releasing a key twice is the same as releasing it once |
| ControlState.Cycle | main.js:152-171 | any number of T presses keeps the invariant and changes no motion, key flag or showAxes |
| ControlState.Advance | main.js:155-161 | the index reached after n steps of the wrap-around increment stays in [-1, 3] |
| ControlState.CycleIndex | main.js:152-171 | after n presses of T the active index is the one reached after n increments |
| ControlState.AdvanceAroundFive | main.js:155-161 | n increments advance the index n places modulo five, counted from the trashcan |
| ControlState.CycleFiveIsIdentity | main.js:152-171 | five presses of T, or any multiple of five, restore the entire state |
| ControlState.ToggleTwice | main.js:173-174 | toggling the axes twice restores the state |
| ControlState.QuiescenceKept | main.js:129-137 | if no inactive model moves, every key event except T keeps it that way |
| ControlState.CycleLeavesPreviousMoving | main.js:152-171 | driving the trashcan forward and pressing T makes Human 1 active while the trashcan keeps velocity 0.02 |
| ControlState.InactiveMotionPersists | main.js:50-126 | W/A/S/D keydown and keyup never change an inactive model's motion |
| ControlState.DigitIdempotentWhenQuiescent | main.js:129-140 | if no inactive model moves, pressing the same digit twice has the effect of pressing it once |
| Controls.Controller.constructor | main.js:14-32 | the fields start at the load-time state `Init()`, with two fresh arrays |
| Controls.Controller.SetActiveVelocity | main.js:53-57 | the write goes to `trashcanVelocity` for index -1 and to `humanVelocities[index]` otherwise, and it is `DriveActive` of the old state |
| Controls.Controller.SetActiveDirection | main.js:69-73 | the write goes to `trashcanDirection` for index -1 and to `humanDirections[index]` otherwise, and it is `TurnActive` of the old state |
| Controls.Controller.SetActiveModel | main.js:129-150 | in-place update equal to `ControlState.SetActiveModel` of the old state; the invariant is kept |
| Controls.Controller.CycleActiveModel | main.js:152-171 | in-place update equal to `ControlState.CycleActiveModel` of the old state; the arrays are not written |
| Controls.Controller.ToggleAxes | main.js:173-174 | in-place update equal to `ControlState.ToggleAxes` of the old state |
| Controls.Controller.KeyDown | main.js:41-90 | in-place update equal to `ControlState.KeyDown` of the old state and the classified key (digit keys by the intended one-character test); array writes stay in bounds |
| Controls.Controller.KeyUp | main.js:92-127 | in-place update equal to `ControlState.KeyUp` of the old state and the classified key; array writes stay in bounds |

## Left out

- Per-frame pose integration in `animate` (main.js:466-491) is not modelled. It
  adds the turn rate to the rotation and moves by `sin`/`cos` times the
  velocity, in floating point, on Three.js objects. It also skips models that
  failed to load.
- `init`, model loading, table centring, floor, axes, GUI, instruction panel
  and window resizing (main.js:182-464) are not modelled. They are asynchronous
  I/O and calls into the rendering and GUI libraries.
- The visibility loop over `axisElements` in `toggleAxesVisibility`
  (main.js:177-179) and the GUI's `onChange` for the axes are not modelled. They
  only copy `showAxes` into Three.js objects.
- `console.log` output, and the timing of key events relative to the
  asynchronous `init`, are not modelled.
- Velocities and turn rates are exact `real` constants, not IEEE doubles. The
  handlers only store constants, so no rounding is involved.
- Keys.ToLower and Keys.Classify fold case for ASCII A–Z only. The full
  Unicode mapping of `toLowerCase` is not modelled. This changes no
  classification: under Unicode's lower-case mapping no non-ASCII character
  lower-cases to w, a, s, d, t or x. The only non-ASCII characters that
  lower-case to ASCII letters are U+0130 (to "i" plus a combining dot) and
  U+212A (to "k"). So the switches at main.js:50 and main.js:93 match the same
  keys as Keys.Classify.
- Keys.StringLessEq compares Unicode code points. JavaScript compares UTF-16
  code units. The two orders differ only among characters above U+FFFF and
  U+E000–U+FFFF, which does not affect a comparison with "1" or "5".
- Keys.Classify: the digit test accepts only the one-character keys 1–5. The
  source's string-comparison guard also accepts longer keys that start with
  1–4, such as "1a" (Human 1) or "12" (index 11). The model treats those keys
  as `Other`. `DigitSelectionDeparts` states exactly which keys differ.
- Keys.ClassifyDigit states the intended one-character digit test, not the
  written guard, for the reason given for Keys.Classify.
- Controls.Controller.KeyDown classifies keys with Keys.Classify. So a key of
  two or more characters that starts with 1–4 changes nothing here, while the
  source selects a model for it.
- The lil-gui panel (main.js:408, 417, 426-429) shows an editable text field
  for `controlsObj.activeModel` and checkboxes for `showAxes` and
  `keysPressed.*`, so a user can also write these fields through the GUI. Those
  writes are not modelled. The label clause of `Valid` is therefore an
  invariant of the key handlers only.
- ControlState.SetActiveModel and Controls.Controller.SetActiveModel require
  `index` to be in [-1, 3]. The source does not check the index. Its only
  caller, the digit branch of the keydown handler, passes an index in that
  range once the digit test accepts only the keys 1–5 (see Findings).

## Findings

| source | as written | input that shows it | evidently intended | confidence | as-written member | corrected member |
|---|---|---|---|---|---|---|
| main.js:43-46 | `e.key >= '1' && e.key <= '5'` compares strings lexicographically, then `parseInt(e.key) - 1` is the index | a key value "12" (any multi-character value starting with 1–4) passes and selects index 11, outside [-1, 3]; later W/A/S/D writes then go to `humanVelocities[11]` | only the single keys 1–5 select a model (the on-screen help lists "1-4" and "5") | low: not executed; browsers normally report the digit keys as single characters | Keys.MultiCharacterDigitKey | Keys.DigitSelection |
