# Orca input events and learn mode, in Dafny

This project models the input-event layer of the Orca screen reader and its learn mode. The two source files are `src/orca/input_event.py` and `src/orca/learn_mode_presenter.py`. It proves properties of that model.

The keyboard event is built in the source's fixed sequence of steps, from a raw key notification and the session's history:
1. Its modifiers and text are normalised.
2. It is checked for being a duplicate of either history slot.
3. It takes its script, window and focus, either from the managers or from the press it releases.
4. It is given exactly one key-type tag by a fixed precedence.
5. It gets a click count from a double-click candidate.
6. The held Orca modifier and the sticky modifiers are folded into its modifiers.

`_process` then updates the history and applies a decision table. A consumed press is queued for the deferred `_consume`. Braille events look their handler up in three layers. Mouse-button events parse their type, correct bogus coordinates and count clicks. Learn mode is a presenter whose flag `start` and `quit` toggle. While active, it routes keys to quit, help, the shortcut list or the presentation of the key's command.

Modules, one per file:
- `Wrappers`: `Option`.
- `Modifiers`: masks as sets of bit positions, normalisation, the Orca-modifier test, and the sticky/Orca folding as one pure step.
- `KeyClassifier`: text normalisation, the key-type tags, first-match classification, the cached `is*Key` queries, `isPrintableKey`, `getLockingState` and `shouldEcho`.
- `ClickCounting`: keyboard and mouse click counts.
- `Handlers`: `InputEventHandler` and the user-binding lookups for keys and braille commands.
- `LearnMode`: `LearnModePresenter` with an effect trace, plus the shortcut grouping and counting.
- `InputEvents`: the `Session` state, and the `KeyboardEvent`, `BrailleEvent` and `MouseButtonEvent` classes.

What the model takes as inputs, where the source instead calls out to something:
- The process-wide state (`orca_state.lastInputEvent`, `lastNonModifierKeyEvent`, `capturingKeys`) and the class-level keyboard state (`orcaModifierPressed`, `orcaStickyModifiers`, `duplicateCount`, `stickyKeys`) are fields of one `Session` object.
- Calls into the focus, script and Orca-modifier managers become values: the active script, active window and focus object, and the set of Orca-modifier key names.
- `Gdk.keyval_name`, the clock, the pointer position and the character classes (`isalpha`, `isnumeric`, `isprintable`, `isspace`) are also values.
- `GLib.timeout_add` appends to `Session.pending`, and `Session.RunNextTask` runs the oldest pending `_consume`.
- Speech, braille, keyboard grabs, help pages, the command-list dialog and handler calls are appended to traces of abstract effects: `Session.trace` and `LearnModePresenter.effects`.
- A Python exception that escapes a method is the result `Raised`. Examples are dereferencing a missing script or a missing handler.

Points where the code does something easy to miss, which the model follows:
- On the second press of a double press, the sticky-modifier copy takes the *whole* modifier mask of the first press (input_event.py:324), not only its Orca bit.
- `MouseButtonEvent.setClickCount` compares against the last input event, whatever its kind. It starts from the event's *own* count, which is 0 for a new event, so a fresh event always counts 1. Repeated calls on one event cycle 1, 2, 1; `MouseClickCount` and the lemmas about it state exactly that.
- `process` and `BrailleEvent._process` dereference the script before any check, so without an active script they raise (input_event.py:793 and 933-951). For the same reason, the `'No active script'` branch of `_process` cannot be reached through `process`.

Constants taken from outside these files (keybindings.py and cmdnames.py are not part of this model):
- `ORCA_MODIFIER_MASK = 1 << 8`.
- The default modifier mask of the learn-mode binding is assumed to be Shift, Control, Alt and Orca (bits 0, 2, 3, 8). keybindings.py may define it with more bits (such as META2 and META3); only `DefaultModifierMask` would change.
- The text of the learn-mode handler's description.

The Gdk punctuation and accented-letter lists are written as their X11 keysym values. These are the characters' Latin-1 code points, and Unicode for `EuroSign`.

## Model

| member | source | states |
|---|---|---|
| Modifiers.NormaliseModifiers | src/orca/input_event.py:245-247 | The event keeps exactly the raw bits inside Gdk's modifier mask plus NumLock. NumLock and the Orca bit survive exactly when they were raised. |
| Modifiers.IsOrcaModifier | src/orca/input_event.py:579-585 | A key is the Orca modifier when its name is one of the Orca-modifier names. Keypad 0 with Shift is taken as KP_Insert. |
| Modifiers.IsOrcaModified | src/orca/input_event.py:587-593 | Orca-modified exactly when the key is not itself the Orca modifier and the Orca bit is set. |
| Modifiers.CarriedSticky | src/orca/input_event.py:318-324 | With sticky keys, a non-Orca key whose candidate carried the Orca bit takes the candidate's whole mask as the accumulator. In every other case the accumulator is unchanged. |
| Modifiers.OrcaPressedAfter | src/orca/input_event.py:330-333 | The held-Orca flag changes only for a non-duplicate Orca-modifier key, and it then becomes that event's pressed state. |
| Modifiers.ModifierStep | src/orca/input_event.py:318-367 | The held-Orca flag after an event is the one OrcaPressedAfter gives. |
| Modifiers.ModifierStepKeepsOwnBits | src/orca/input_event.py:353-355 | The final modifiers contain the event's own modifiers, and the Orca bit whenever the Orca modifier is held. |
| Modifiers.ModifierStepWithoutStickyKeys | src/orca/input_event.py:353-367 | Without sticky keys only the Orca bit is added and the accumulator is left alone. |
| Modifiers.ModifierStepWithStickyKeys | src/orca/input_event.py:357-367 | With sticky keys the final modifiers are exactly the event's own, plus the Orca bit while it is held, plus the carried accumulator. A modifier key stores its final modifiers in the accumulator; any other key clears it. |
| Modifiers.StickyModifierSequence | src/orca/input_event.py:318-367 | Press and release Shift, then a letter: the letter carries Shift and clears the accumulator, so the next letter carries only its own bits. |
| KeyClassifier.KeysymChar | src/orca/input_event.py:275 | `chr` of a listed keysym is the character with that code point. |
| KeyClassifier.NormaliseText | src/orca/input_event.py:250-275 | Empty or " " text becomes the keyval name. Whenever that chosen text is longer than one character and the keysym is listed, the result is that keysym's character. Otherwise the text is kept; the result is empty only if both text and name are. |
| KeyClassifier.NamedPunctuationBecomesCharacter | src/orca/input_event.py:271-275 | Text "comma" with keysym comma becomes ",". |
| KeyClassifier.NamedAccentedLetterBecomesCharacter | src/orca/input_event.py:265-275 | Empty text with the name "eacute" becomes "é". |
| KeyClassifier.FirstMatch | src/orca/input_event.py:326-349 | Reference first-match: the result is Unknown or one of the categories tried. |
| KeyClassifier.FirstMatchIsFirst | src/orca/input_event.py:326-349 | First-match gives Unknown exactly when no category matches. Otherwise it gives a matching category with no earlier category matching. |
| KeyClassifier.FirstMatchStopsAt | src/orca/input_event.py:326-349 | If category k matches, the result is category k or an earlier one. |
| KeyClassifier.Classify | src/orca/input_event.py:326-349 | Classification never yields the printable tag. |
| KeyClassifier.ClassifyIsFirstMatch | src/orca/input_event.py:326-349 | The tag is Unknown exactly when nothing matches. Otherwise it is the first of navigation, action, modifier, function, diacritical, locking, alphabetic, numeric, punctuation, space whose test matches. |
| KeyClassifier.DigitIsNotPunctuation | src/orca/input_event.py:341-346 | A one-character numeric key is never tagged as punctuation. |
| KeyClassifier.CachedIsExact | src/orca/input_event.py:542-546 | Once a tag is cached, isLockingKey's substring test holds exactly for the locking tag, like every other query's equality test. |
| KeyClassifier.CachedQueriesAreStable | src/orca/input_event.py:494-636 | With a cached tag each `is*Key` query is "is it this tag", independent of the text and the Orca state. |
| KeyClassifier.ClassifiedEventAnswersOneQuery | src/orca/input_event.py:494-636 | After classification exactly one `is*Key` query holds: the one for the assigned tag. |
| KeyClassifier.LockingState | src/orca/input_event.py:649-666 | Known only for Caps/Shift/Num_Lock locking keys. Caps_Lock is locked when the SHIFTLOCK bit is clear, Shift_Lock when SHIFT is clear, Num_Lock when NUMLOCK is clear. |
| KeyClassifier.Matches | src/orca/input_event.py:494-636 | The uncached category tests: the unknown and printable tags never match. An alphabetic, numeric or punctuation key is one character, and punctuation is never a letter, digit or space. An Orca-modifier key always passes the modifier test. |
| KeyClassifier.IsKey | src/orca/input_event.py:494-636 | Each `is*Key` query: with a cached tag it holds exactly for that tag; before, it is the category test. |
| KeyClassifier.IsPrintableKey | src/orca/input_event.py:600-609 | Space and punctuation keys are printable. A printable key is a space name or a single character. |
| KeyClassifier.ShouldEcho | src/orca/input_event.py:730-765 | Only a press, or any event in a terminal, echoes. Apart from locking keys, nothing echoes with key echo off. Unknown and printable-tagged keys never echo. |
| KeyClassifier.EchoNeedsPressOrTerminal | src/orca/input_event.py:733-734 | A release outside a terminal never echoes. |
| KeyClassifier.LockingKeyEcho | src/orca/input_event.py:736-739 | A locking key echoes per presentLockingKeys, or, when that is unset, exactly when not only displayed text is spoken. |
| KeyClassifier.KeyEchoOffSilencesOtherKeys | src/orca/input_event.py:741-742 | With key echo off no non-locking key echoes. |
| KeyClassifier.BinaryCategoryEcho | src/orca/input_event.py:744-755 | Navigation, action, modifier and function keys echo per their flag. Diacritical keys echo per their tri-state flag. |
| KeyClassifier.CharacterCategoryEcho | src/orca/input_event.py:756-765 | Alphabetic, numeric, punctuation and space keys echo when their own flag or echo-by-character is set. Unknown keys never echo. |
| KeyClassifier.EchoByCharacterIsMonotone | src/orca/input_event.py:730-765 | Turning echo-by-character on never silences a key that echoed. |
| ClickCounting.KeyClickCount | src/orca/input_event.py:380-406 | 1 without a candidate. A duplicate or release repeats the candidate's count. Any other count than 1 is the candidate's count, or one more for a press when that stays at most 3. A press after a candidate at 3 or more starts again at 1. The count stays within 1..3 when the candidate's does. |
| ClickCounting.KeyClickCountIncrements | src/orca/input_event.py:395-403 | A press after a candidate below 3 whose focus did not change counts one more. |
| ClickCounting.FocusChangeResetsCount | src/orca/input_event.py:395-401 | A press after a candidate below 3 whose focus changed during consumption counts 1. |
| ClickCounting.PressRunCycles | src/orca/input_event.py:380-406 | Repeated quick presses of one key, each consumed before its release and with unchanged focus, count 1, 2, 3, 1, 2, 3, … |
| ClickCounting.MouseClickCount | src/orca/input_event.py:1003-1020 | A release keeps its count. A press counts 1 or 2. It reaches 2 only after a mouse event with the same button, less than the timeout earlier. |
| ClickCounting.FreshMouseEventCountsOne | src/orca/input_event.py:1003-1020 | A new mouse press (own count 0) counts 1 whatever came before. |
| ClickCounting.MouseCountCeiling | src/orca/input_event.py:1003-1020 | Calling setClickCount repeatedly on one qualifying press gives 1, 2, then back to 1. |
| Handlers.InputEventHandler.constructor | src/orca/input_event.py:1025-1047 | A handler holds its function, description, learn-mode flag and enabled flag as given. |
| Handlers.InputEventHandler.SetEnabled | src/orca/input_event.py:1067-1070 | After set_enabled the handler reports the new enabled state. |
| Handlers.InputEventHandler.IsEnabled | src/orca/input_event.py:1060-1065 | Reports the enabled flag. SetEnabled's contract is stated through it. |
| Handlers.InputEventHandler.Equals | src/orca/input_event.py:1049-1055 | A handler equals itself and never None. |
| Handlers.HandlerEqualityIsByFunction | src/orca/input_event.py:1049-1055 | Handlers are equal exactly when their functions are. This is reflexive, symmetric and transitive, and nothing equals None. |
| Handlers.UserKeyHandler | src/orca/input_event.py:696-713 | A user handler comes from the script module's bindings when they exist, and otherwise from "default". |
| Handlers.UserKeyHandlerShadowsDefault | src/orca/input_event.py:696-713 | The "default" bindings answer only when the script module has none. A script module whose bindings lack the key gives no user handler. |
| Handlers.UserBrailleTable | src/orca/input_event.py:902-907 | The user braille table is the script's own when present, else "default", else none. |
| Handlers.BrailleHandler | src/orca/input_event.py:898-918 | A braille handler comes from the user table when it has the command, else from the script table. There is none exactly when neither table has the command. |
| Handlers.BrailleLookupLayers | src/orca/input_event.py:898-918 | The script-named user table shadows "default", and both shadow the script's own bindings. |
| LearnMode.TotalBindingsZero | src/orca/learn_mode_presenter.py:220-282 | The shortcut count is zero exactly when every group is empty. |
| LearnMode.TotalBindingsCountsEachList | src/orca/learn_mode_presenter.py:220-282 | No group is larger than the total count. |
| LearnMode.GeneralLists | src/orca/learn_mode_presenter.py:220-280 | There are twelve general groups. |
| LearnMode.CollectGeneralGroups | src/orca/learn_mode_presenter.py:220-282 | The F2 listing adds the twelve general groups in order, each with its bindings, and `items` is the sum of their lengths. |
| LearnMode.AppListing | src/orca/learn_mode_presenter.py:284-289 | The application group (app plus toolkit bindings, under the app's name) is added exactly when non-empty. The title counts its bindings. |
| LearnMode.GeneralTitleCountsRows | src/orca/learn_mode_presenter.py:282 | The general title's count is zero exactly when all groups are empty, and bounds each group. |
| LearnMode.HelpUri | src/orca/learn_mode_presenter.py:305-307 | The help URI is "help:orca", followed by "/" and the page when one is given. |
| LearnMode.EchoEffects | src/orca/learn_mode_presenter.py:175-178 | The key is always spoken first. Phonetic spelling is requested exactly for a printable key with click count 2 and no handler. |
| LearnMode.Dispatch | src/orca/learn_mode_presenter.py:180-193 | Escape quits whatever the modifiers; F1 without modifiers is help; F2/F3 without modifiers list shortcuts; anything else presents the command. |
| LearnMode.LearnModePresenter.constructor | src/orca/learn_mode_presenter.py:56-60 | A new presenter is inactive, has no bindings, and has exactly the enter-learn-mode handler. |
| LearnMode.LearnModePresenter.GetHandlers | src/orca/learn_mode_presenter.py:79-87 | A refresh rebuilds the handler table with a fresh start handler; otherwise the table is returned unchanged. |
| LearnMode.LearnModePresenter.GetBindings | src/orca/learn_mode_presenter.py:67-77 | The bindings are rebuilt exactly when refresh is set or they are empty; otherwise the same object is returned. |
| LearnMode.LearnModePresenter.Start | src/orca/learn_mode_presenter.py:117-140 | start always returns True and leaves learn mode active. It greets and grabs the keyboard only when learn mode was inactive, so it is idempotent. |
| LearnMode.LearnModePresenter.Quit | src/orca/learn_mode_presenter.py:142-163 | quit always returns True and leaves learn mode inactive. It says goodbye and ungrabs only when learn mode was active. |
| LearnMode.LearnModePresenter.ShowHelp | src/orca/learn_mode_presenter.py:301-309 | Help quits learn mode, then opens the help URI. |
| LearnMode.LearnModePresenter.PresentCommandOf | src/orca/learn_mode_presenter.py:195-209 | The description is presented only for a handler that is learn-mode enabled with a non-empty description. It returns True, or raises when that presentation finds no script. |
| LearnMode.LearnModePresenter.ListOrcaShortcuts | src/orca/learn_mode_presenter.py:211-299 | With F2 or no event, all twelve groups are shown, titled with their total, after quitting. Otherwise the app group is shown after quitting if non-empty; if empty, only the title is presented and learn mode stays active. |
| LearnMode.LearnModePresenter.HandleEvent | src/orca/learn_mode_presenter.py:165-193 | Inactive, or given a non-key event: returns False and does nothing. Otherwise the key is echoed and dispatched to quit, help, list or present, returning True. Only the F2 listing can replace the bindings. Learn mode stays active after presenting a command, and after F3 when the app listing is empty; not after any other key. F2 quits and then shows the twelve general groups, titled with their total, refreshing empty bindings. F3 with an empty app listing presents only its title; otherwise it quits and then shows the app listing. |
| InputEvents.Session.constructor | src/orca/input_event.py:93-99 | At start nothing is held, no sticky modifiers are recorded, the duplicate counter is 0 and the history is empty. |
| InputEvents.Session.RunNextTask | src/orca/input_event.py:851-881 | The main loop runs the oldest pending `_consume` once and drops it. A completed consume records the focus it left. The history slots, modifier state, duplicate counter and capture flag are unchanged. |
| InputEvents.Decide | src/orca/input_event.py:817-849 | Consumed exactly when not a duplicate, a script exists, keys are not being captured, and the key is the Orca modifier or there is a consumer or an active handler. "Will be consumed" is only for such presses. "Unaddressed case" is exactly a present but inactive handler with nothing else. Each check, in the source's order, gives its own reason: duplicate, no active script, capturing keys, Orca modifier, no consumer or handler, then will be consumed (press) or release for a consumed handler. |
| InputEvents.DecideDefersOnlyPresses | src/orca/input_event.py:841-847 | A non-Orca consumed event is deferred exactly when it is a press, and is the release of a consumed key exactly when it is not. |
| InputEvents.DoubleClickCandidate | src/orca/input_event.py:369-378 | A candidate has the same text and is at most the timeout older. It is the last input event for a modifier, else the last non-modifier key event. There is no candidate only when that event is missing or does not qualify. |
| InputEvents.KeyboardEvent.constructor | src/orca/input_event.py:227-367 | Ties every field and the session's new counter and modifier state to the pure steps: normalisation, duplicate test against both slots, context from the managers or from the press being released, classification, click count, Orca/sticky folding. The history is untouched. |
| InputEvents.KeyboardEvent.SetClickCount | src/orca/input_event.py:380-406 | The count is KeyClickCount of the candidate the history offers. |
| InputEvents.KeyboardEvent.RecordInHistory | src/orca/input_event.py:820-826 | An Orca modifier pressed twice toggles, and a Caps_Lock/Shift_Lock one is retagged locking. The event becomes the last input event, and the last non-modifier key event unless it is still a modifier. |
| InputEvents.KeyboardEvent.Present | src/orca/input_event.py:721-728 | A press interrupts the presentation. The script presents the event unless learn mode is active. |
| InputEvents.KeyboardEvent.ProcessEvent | src/orca/input_event.py:814-849 | A duplicate leaves history and traces alone. Otherwise the event becomes the last input event (and the last non-modifier one unless still a modifier), a twice-pressed Caps_Lock/Shift_Lock Orca modifier is retagged locking, and the trace gains the Orca toggle and then, with a script, the interrupt and the presentation. The result is Decide's answer on the state it tests. Exactly a "Will be consumed" press is queued for `_consume`. |
| InputEvents.KeyboardEvent.SelectHandler | src/orca/input_event.py:793-800 | The chosen handler is installed and an active learn mode becomes the consumer. Nothing the history step or the presentation reads changes. |
| InputEvents.KeyboardEvent.Process | src/orca/input_event.py:767-812 | The handler is the user's, else the script's. Active learn mode becomes the consumer. The result is `_process`'s decision, stored with its reason, and the history, retagging and trace are those of ProcessEvent. Without a script it raises and changes neither the history nor the trace. |
| InputEvents.KeyboardEvent.Consume | src/orca/input_event.py:851-881 | The consumer handles the event, or else an active handler is called. It raises exactly when the consumer finds no script or there is neither consumer nor handler. Otherwise it records the focus and returns False. An inactive learn-mode consumer, or one with no script, does nothing. An active one speaks the key first and stays active exactly for a command presentation, or for F3 with an empty app listing. The session's history slots, modifier state, duplicate counter and capture flag, the event's decision and the presenter's handlers are unchanged. |
| InputEvents.IsReleaseForLast | src/orca/input_event.py:464-475 | Holds exactly for a release when the last non-modifier key event is a press with the same keysym, hardware code and modifiers. The constructor's context clause is stated through it. |
| InputEvents.KeyboardEvent.Equals | src/orca/input_event.py:408-415 | An event equals itself. Equality holds only with a keyboard event of the same direction. |
| InputEvents.KeyEventEqualityIsByKeyAndTime | src/orca/input_event.py:408-415 | Two keyboard events are equal, which is what makes a new event a duplicate, exactly when they share direction, hardware code and timestamp, whether or not they are the same object. |
| InputEvents.KeyboardEvent.IsReleaseFor | src/orca/input_event.py:477-492 | Holds only for a release of another, pressed event. Such a release also passes the last-non-modifier release test against that press. |
| InputEvents.KeyboardEvent.HandlerActive | src/orca/input_event.py:843 | A handler counts as active only when it is present, enabled and has a function. |
| InputEvents.KeyEventEqualityIsSymmetric | src/orca/input_event.py:408-415 | Keyboard-event equality is reflexive and symmetric, and never holds for another kind of event. |
| InputEvents.ReleasePairsArePressThenRelease | src/orca/input_event.py:477-492 | isReleaseFor pairs only a release with a press, so it never holds both ways, and never for None. |
| InputEvents.NonModifierSlotKeepsModifiersOut | src/orca/input_event.py:823-826 | A modifier never enters the non-modifier slot; a key retagged as locking does. |
| InputEvents.BrailleEvent.constructor | src/orca/input_event.py:885-893 | A braille event holds its command and the active script. |
| InputEvents.BrailleEvent.Process | src/orca/input_event.py:933-951 | The event always becomes the last input event. With no handler it is consumed exactly when learn mode is active. With one, its function (if any) is called and it is consumed. Without a script it raises. |
| InputEvents.SliceToLast | src/orca/input_event.py:969 | Python's `s[start:-1]`: empty when the string is too short, else the slice without its last character. |
| InputEvents.MouseTypeRoundTrip | src/orca/input_event.py:968-969 | "mouse:button:" + b + "p"/"r" gives back the button b and the press/release direction. |
| InputEvents.ValidatedPosition | src/orca/input_event.py:988-1001 | With a pointer the position ends within 25 of it. A position already within 25 is kept; any other is replaced by the pointer's. Without a pointer nothing changes. |
| InputEvents.BogusCoordinatesAreCorrected | src/orca/input_event.py:988-1001 | (100, 100) with the pointer at (100, 140) becomes (100, 140); (100, 120) is kept. |
| InputEvents.MouseButtonEvent.constructor | src/orca/input_event.py:962-986 | Direction and button come from the type, and a press's position is validated. With a script, an unusable window is replaced by the one found active, and the application is the window's. |
| InputEvents.MouseButtonEvent.ValidateCoordinates | src/orca/input_event.py:988-1001 | The position becomes ValidatedPosition of the old one. |
| InputEvents.MouseButtonEvent.SetClickCount | src/orca/input_event.py:1003-1020 | The count is MouseClickCount against the session's last input event. |

## Left out

- `_getXkbStickyKeysState` runs `xkbset`: sticky keys is a boolean given to `Session`.
- The managers' lookups (`get_active_window`, `can_be_active_window`, `find_active_window`, `set_active_window`, `get_locus_of_focus`, `getActiveScript`, `AXObject.get_application`) are input values. The window set as active by the constructor is not recorded.
- `orca_modifier_manager.toggle_modifier` is only recorded in the trace. Its effect on the Orca-modifier names is not modelled.
- `KeyBindings.getInputHandler` and `getBoundBindings` (keybindings.py) are not part of this model. Their answers are inputs: the per-module user handler, the script's handler, and the binding lists of a `ScriptView`.
- `GLib.timeout_add` is a queue. Timing and the main loop's interleaving with new events are not modelled.
- Handler functions and `presentKeyboardEvent` are recorded as calls. What they do, and the value `_present` returns, are not modelled.
- `time.time()` readings are integer inputs. Floating-point time is not modelled.
- `math.sqrt(dx² + dy²) < 25` is the exact integer test `dx² + dy² < 625`. Floating-point rounding is not modelled.
- `str.isalpha`, `isnumeric`, `isprintable`, `isspace`, `chr` and `Gdk.keyval_name`: the character classes and the keyval name are inputs. `chr` is the code-point conversion.
- `Gdk.keyval_name` returning None is not modelled: the name is always a string. In the source a None name would make the string tests of the constructor raise.
- Python integer masks are sets of bit positions. Only the bits named here take part.
- Debug logging, `__str__`, `asSingleLineString`, `_shouldObscure`, `getKeyName`, `getLockingStateString`, `isCharacterEchoable`, `isHandledBy`, `isKeyPadKeyWithNumlockOn` and `getObject` are left out. They produce messages or query accessibility objects (the keypad flag itself is a field).
- `AXUtilities.is_terminal` in `shouldEcho` is an input.
- `CommandListGUI`, `Gtk.show_uri` and `Atspi.Device.grab_keyboard`/`ungrab_keyboard` are abstract effects. The dialog and its response handling are not modelled.
- The learn-mode messages and labels (`messages`, `guilabels`, `cmdnames`) are abstract message values, not text.
- The script's `speakKeyEvent`, `phoneticSpellCurrentItem` and `presentMessage` are abstract effects.
- label_inference.py and the gedit script are not part of this model. They consist of accessibility queries and application callbacks.
- Modifiers.ModifierStep: its own contract states only the held-Orca flag. The final mask and the accumulator are stated exactly, for both settings of sticky keys, by ModifierStepWithoutStickyKeys and ModifierStepWithStickyKeys.
- KeyboardEvent.Present: requires a script. The source dereferences it unconditionally, and it is only called after the script check.
- Session.RunNextTask: its contract states the queue, the recorded focus and the unchanged history and keyboard state only. What the consumer does is stated by `KeyboardEvent.Consume` (the echo first, and the learn-mode flag afterwards), and in full by `LearnModePresenter.HandleEvent`.
- KeyboardEvent.Consume: states the learn-mode consumer's echo and resulting flag, not the effects each command adds after the echo; those are in `LearnModePresenter.HandleEvent`.
- BrailleEvent.constructor: the source stores the BrlTTY event as a dictionary and reads its `"command"` entry (input_event.py:892, 901). The model takes the command itself as the argument.
- LearnModePresenter.ListOrcaShortcuts: the source takes the learn-mode group from `script.getLearnModePresenter()` (learn_mode_presenter.py:227). The model assumes that this is the presenter doing the listing, and uses its own bindings.
