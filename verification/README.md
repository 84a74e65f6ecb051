# UltimateR4 output-rule engine

This project models the data-driven controller mode `UltimateR4` of the
HayBox controller firmware and proves properties of it in Dafny. Each frame
the mode maps a snapshot of 20 logical buttons to an output report. It walks
an ordered list of rules. Each rule lists the 1-based numbers of the buttons
it requires and the output fields it assigns. A rule fires when all of its
buttons are held. It then assigns every field it lists, converted to the
field's type. Later rules overwrite earlier ones, so for each field the last
firing rule that names it wins.

The modules follow `src/modes/UltimateR4.cpp`:

- `Inputs` (`Inputs.dfy`): the `InputState` snapshot, the table of 20
  default button indices, `isPressed` (`IsPressed`) and the 1-based
  `pressed` macro (`Pressed`).
- `Outputs` (`Outputs.dfy`): the 23 output fields, the keys a rule uses for
  them (the key chain of `assignValue`, as `KeyToField`), and the mutable
  `OutputState` the mode writes through.
- `Rules` (`Rules.dfy`): parsed rules, the value conversion, and the
  evaluation of a rule list as a pure fold (`Apply`). `LastMatch` is an
  independent reference definition of "the last firing rule naming the
  field". The main theorem, `LastMatchWins`, ties the two together.
- `DefaultProfile` (`DefaultProfile.dfy`): the built-in profile's 29 rules,
  in document order, split into seven groups. It also states what the
  profile produces for each left-stick axis, the right stick's X axis,
  start, home, select and the four D-pad fields.
- `UltimateR4Mode` (`UltimateR4.dfy`): the SOCD pairs the constructor
  installs and the class `UltimateR4`. Its methods `AssignValue` and
  `UpdateAnalogOutputs` are imperative. They write into the caller's
  `OutputState` and are proved equal to the fold.

`UpdateAnalogOutputs` keeps the source's nested loops. The early exit from
the button loop (a `goto` to the end of the rule loop) becomes a `break`
with a `matched` flag. Its postcondition says the new output is
`Apply(inputMap, inputs, old output)`. Through `LastMatchWins`, this means
every field holds the value of the last firing rule that names it, or its
old value when no firing rule names it.

The analog fields of `OutputState` are taken to be 8-bit unsigned
(`uint8_t`); `include/core/state.hpp` is not part of this model. An integer
stored into an analog field is kept modulo 256. A boolean stored into one
becomes 1 or 0. A digital field accepts only a JSON boolean: the JSON
library rejects a number there with a type error. So `AssignValue` requires
that a digital key carries a boolean, and the default profile is proved to
meet this (`InputMapWellKinded`).

Behaviours of the code worth noting:

- Holding both modifiers does not recentre the C-stick. The D-pad rules
  only set the D-pad fields, so C-right with both modifiers still gives
  `rightStickX = 228` (`RightStickXOnDefaultProfile`).
- Modifier X with left and the L trigger gives `leftStickX = 75`, as it
  does without L. No rule mentions shield tilt (`LeftStickXOnDefaultProfile`).
- The output is not reset to neutral inside this core. With no button held,
  `UpdateAnalogOutputs` leaves the output exactly as it found it
  (`NoneHeldOnDefaultProfile`). Any reset belongs to the caller.
- Rules are not validated when loaded. A rule naming button 0, or a number
  from 21 up to the largest `int`, is kept and can never fire
  (`OutOfRangeNumberNeverFires`).

## Model

| member | source | states |
|---|---|---|
| Inputs.IsPressed | src/modes/UltimateR4.cpp:96-140 | an index reports pressed only if it is one of the 20 default indices 0 .. 19 |
| Inputs.ButtonAt | src/modes/UltimateR4.cpp:63-82 | each in-range index is the default index of exactly the field returned |
| Inputs.DefaultIndex | src/modes/UltimateR4.cpp:63-82 | every field's default index lies in 0 .. 19 |
| Inputs.IsPressedReadsBoundField | src/modes/UltimateR4.cpp:96-140 | at the constant bound to a field, the switch reads exactly that field |
| Inputs.IsPressedMatchesTable | src/modes/UltimateR4.cpp:96-140 | at every index, the switch reads the field the table binds there, or false out of range |
| Inputs.DefaultIndexInjective | src/modes/UltimateR4.cpp:63-82 | no two fields share a default index |
| Inputs.SinglePressReportsOnlyItsIndex | src/modes/UltimateR4.cpp:96-140 | with one button held, exactly its own index reports pressed |
| Inputs.NothingPressedWhenNoneHeld | src/modes/UltimateR4.cpp:96-140 | with nothing held, no index reports pressed |
| Inputs.Pressed | src/modes/UltimateR4.cpp:58 | a rule number reports pressed only if it is in 1 .. 20 |
| Inputs.PressedIsOneBased | src/modes/UltimateR4.cpp:58 | number `index + 1` tests the field at `index`; 0 and numbers above 20 never test as pressed |
| Outputs.KeyToField | src/modes/UltimateR4.cpp:142-189 | a recognised key is the rule key of the field it selects, including the renames zl, zr, l and r |
| Outputs.KeyToFieldRoundTrip | src/modes/UltimateR4.cpp:142-189 | every one of the 23 fields is reached by its own key |
| Outputs.DistinctKeysDistinctFields | src/modes/UltimateR4.cpp:142-189 | two different recognised keys write two different fields |
| Outputs.Get | src/modes/UltimateR4.cpp:143-188 | (definition) the content of one named field of the report |
| Outputs.Set | src/modes/UltimateR4.cpp:143-188 | (definition) the report with one named field replaced and every other field copied |
| Outputs.GetSetSame | src/modes/UltimateR4.cpp:143-188 | after a field is written, it holds the written content |
| Outputs.GetSetOther | src/modes/UltimateR4.cpp:143-188 | writing one field leaves every other field unchanged |
| Outputs.OutputState.Write | src/modes/UltimateR4.cpp:143-188 | the new report is the old one with the one field replaced |
| Rules.ToLevel | src/modes/UltimateR4.cpp:177-188 | an integer stored into an analog field is congruent to it modulo 256 and equal when in 0 .. 255; a boolean becomes 1 or 0 |
| Rules.Stored | src/modes/UltimateR4.cpp:143-188 | a digital field stores the boolean, an analog field the converted level |
| Rules.Fires | src/modes/UltimateR4.cpp:196-202 | (definition) a rule fires when every button number it lists reports pressed; the empty list fires |
| Rules.Assign | src/modes/UltimateR4.cpp:142-189 | (definition) a recognised key replaces its field with the converted value; an unknown key returns the report unchanged |
| Rules.AssignAll | src/modes/UltimateR4.cpp:207-209 | (definition) the members of one output object assigned one after another, in order |
| Rules.ApplyRule | src/modes/UltimateR4.cpp:196-212 | (definition) a firing rule assigns all its members; a rule that does not fire returns the report unchanged |
| Rules.Apply | src/modes/UltimateR4.cpp:192-214 | (definition) the rules applied one after another in list order, starting from the given report |
| Rules.LastWrite | src/modes/UltimateR4.cpp:207-209 | the last member of an output object naming a field carries a value of the field's kind |
| Rules.LastMatch | src/modes/UltimateR4.cpp:193-213 | the last firing rule naming a field carries a value of the field's kind |
| Rules.AssignChangesOnlyNamedField | src/modes/UltimateR4.cpp:142-189 | one assignment changes exactly the field its key names; an unknown key changes nothing |
| Rules.AssignAllLastWriteWins | src/modes/UltimateR4.cpp:206-209 | within one output object, each field ends with the last member naming it |
| Rules.LastMatchWins | src/modes/UltimateR4.cpp:192-214 | after evaluation, each field holds the last firing rule's value for it, or its old value if no firing rule names it |
| Rules.LastMatchIsLastWriter | src/modes/UltimateR4.cpp:193-213 | a firing rule naming a field, with no later firing rule naming it, supplies the last match |
| Rules.NoWriterNoMatch | src/modes/UltimateR4.cpp:193-213 | if no rule both fires and names a field, that field has no match |
| Rules.LaterRuleOverrides | src/modes/UltimateR4.cpp:193-213 | a firing rule at the end of the list decides every field it names, whatever came before |
| Rules.ApplyConcat | src/modes/UltimateR4.cpp:193-213 | evaluating two lists one after the other equals evaluating their concatenation |
| Rules.LastMatchConcat | src/modes/UltimateR4.cpp:193-213 | the last match in a concatenation comes from the second part if it has one, otherwise from the first |
| Rules.NonFiringRuleIsInert | src/modes/UltimateR4.cpp:196-212 | a rule that does not fire has no effect wherever it stands |
| Rules.FiresIffAllBoundButtonsHeld | src/modes/UltimateR4.cpp:196-202 | a rule fires iff each of its numbers is in 1 .. 20 and its field is held; an empty list fires |
| Rules.OutOfRangeNumberNeverFires | src/modes/UltimateR4.cpp:196-201 | a rule naming a number below 1 or above 20 (within `int` range) never fires |
| Rules.NoneHeldLeavesOutputs | src/modes/UltimateR4.cpp:192-214 | with nothing held, a list whose rules each need a button leaves the output unchanged |
| DefaultProfile.InputMap | src/modes/UltimateR4.cpp:14-47 | (data) the 29 rules of the default profile, in document order |
| DefaultProfile.InputMapWellKinded | src/modes/UltimateR4.cpp:14-48 | every value in the default profile has the kind its field needs |
| DefaultProfile.GroupsNeedAButton | src/modes/UltimateR4.cpp:15-47 | every rule of the default profile requires at least one button |
| DefaultProfile.TriggerAndStickRulesSilent | src/modes/UltimateR4.cpp:15-18 | the first four rules name only l, leftStickX and leftStickY |
| DefaultProfile.ButtonRulesSilent | src/modes/UltimateR4.cpp:19-25 | the button rules name only start, r, y, zl, b, x and zr |
| DefaultProfile.UpAndCStickRulesSilent | src/modes/UltimateR4.cpp:26-31 | these rules name only leftStickY, rightStickX, rightStickY and a |
| DefaultProfile.ModXRulesSilent | src/modes/UltimateR4.cpp:33-35 | the modifier X rules name only the left stick's axes |
| DefaultProfile.ModYRulesSilent | src/modes/UltimateR4.cpp:37-39 | the modifier Y rules name only the left stick's axes |
| DefaultProfile.DpadLayerSilent | src/modes/UltimateR4.cpp:41-44 | the D-pad layer names only the four D-pad fields |
| DefaultProfile.ShortcutsSilent | src/modes/UltimateR4.cpp:46-47 | the shortcuts name only home, select and start |
| DefaultProfile.TriggerAndStickRulesLeftStickX | src/modes/UltimateR4.cpp:16-18 | right gives 228, else left gives 28, else no match |
| DefaultProfile.TriggerAndStickRulesLeftStickY | src/modes/UltimateR4.cpp:17 | down gives 28, else no match |
| DefaultProfile.ButtonRulesStart | src/modes/UltimateR4.cpp:19 | start gives start = true, else no match |
| DefaultProfile.UpAndCStickRulesLeftStickY | src/modes/UltimateR4.cpp:26 | up gives 228, else no match |
| DefaultProfile.UpAndCStickRulesRightStickX | src/modes/UltimateR4.cpp:27-31 | C-right gives 228, else C-left gives 28, else no match |
| DefaultProfile.ModXRulesLeftStickX | src/modes/UltimateR4.cpp:33-34 | modifier X with right gives 181, else with left 75 |
| DefaultProfile.ModXRulesLeftStickY | src/modes/UltimateR4.cpp:35 | modifier X with down gives 63 |
| DefaultProfile.ModYRulesLeftStickX | src/modes/UltimateR4.cpp:37-38 | modifier Y with right gives 156, else with left 75 |
| DefaultProfile.ModYRulesLeftStickY | src/modes/UltimateR4.cpp:39 | modifier Y with down gives 63 |
| DefaultProfile.DpadLayerDpadLeft | src/modes/UltimateR4.cpp:41 | both modifiers with C-left set dpadLeft |
| DefaultProfile.DpadLayerDpadUp | src/modes/UltimateR4.cpp:42 | both modifiers with C-up set dpadUp |
| DefaultProfile.DpadLayerDpadDown | src/modes/UltimateR4.cpp:43 | both modifiers with C-down set dpadDown |
| DefaultProfile.DpadLayerDpadRight | src/modes/UltimateR4.cpp:44 | both modifiers with C-right set dpadRight |
| DefaultProfile.ShortcutsHome | src/modes/UltimateR4.cpp:46 | both modifiers with start set home |
| DefaultProfile.ShortcutsSelect | src/modes/UltimateR4.cpp:47 | modifier X with start sets select |
| DefaultProfile.ShortcutsStart | src/modes/UltimateR4.cpp:46-47 | modifier X with start releases start |
| DefaultProfile.InputMapLastMatch | src/modes/UltimateR4.cpp:14-48 | a field's last match in the profile comes from the last group that names it for these inputs |
| DefaultProfile.LeftStickXMatch | src/modes/UltimateR4.cpp:16-38 | the last match for leftStickX, as a priority ladder over modifiers and directions |
| DefaultProfile.LeftStickXOnDefaultProfile | src/modes/UltimateR4.cpp:16-38 | leftStickX is 156 or 75 with modifier Y, 181 or 75 with modifier X, 228 or 28 otherwise (right beating left), else unchanged |
| DefaultProfile.LeftStickYMatch | src/modes/UltimateR4.cpp:17-39 | the last match for leftStickY |
| DefaultProfile.LeftStickYOnDefaultProfile | src/modes/UltimateR4.cpp:17-39 | leftStickY is 63 for down with a modifier, else 228 for up, else 28 for down, else unchanged |
| DefaultProfile.RightStickXMatch | src/modes/UltimateR4.cpp:27-47 | the last match for rightStickX |
| DefaultProfile.RightStickXOnDefaultProfile | src/modes/UltimateR4.cpp:27-47 | rightStickX is 228 for C-right, else 28 for C-left, else unchanged, modifiers or not |
| DefaultProfile.StartOnDefaultProfile | src/modes/UltimateR4.cpp:19-47 | start is released when modifier X is held with start, passed through otherwise |
| DefaultProfile.HomeAndSelectOnDefaultProfile | src/modes/UltimateR4.cpp:46-47 | home is set by both modifiers with start, select by modifier X with start |
| DefaultProfile.DpadLeftOnDefaultProfile | src/modes/UltimateR4.cpp:41 | dpadLeft is set exactly by both modifiers with C-left |
| DefaultProfile.DpadUpOnDefaultProfile | src/modes/UltimateR4.cpp:42 | dpadUp is set exactly by both modifiers with C-up |
| DefaultProfile.DpadDownOnDefaultProfile | src/modes/UltimateR4.cpp:43 | dpadDown is set exactly by both modifiers with C-down |
| DefaultProfile.DpadRightOnDefaultProfile | src/modes/UltimateR4.cpp:44 | dpadRight is set exactly by both modifiers with C-right |
| DefaultProfile.ModifierOverrides | src/modes/UltimateR4.cpp:33-47 | left or right with a modifier gives 75, 181 or 156; down with a modifier gives 63; both modifiers with start give home, select and no start |
| DefaultProfile.NoneHeldOnDefaultProfile | src/modes/UltimateR4.cpp:15-47 | with no button held the default profile leaves the output unchanged |
| UltimateR4Mode.ModeSocdPairs | src/modes/UltimateR4.cpp:86-91 | four pairs, each carrying the supplied policy |
| UltimateR4Mode.ModeSocdPairsDisjoint | src/modes/UltimateR4.cpp:87-90 | no button is in two pairs or paired with itself |
| UltimateR4Mode.ModeSocdPairsCoverDirections | src/modes/UltimateR4.cpp:87-90 | the paired buttons are exactly the four left-stick and four C-stick directions |
| UltimateR4Mode.UltimateR4.constructor | src/modes/UltimateR4.cpp:84-92 | a fresh array of 4 pairs (left/right, down/up, C-left/C-right, C-down/C-up) with the given policy; the rule list is the default profile |
| UltimateR4Mode.UltimateR4.UpdateDigitalOutputs | src/modes/UltimateR4.cpp:94 | the output is left unchanged |
| UltimateR4Mode.UltimateR4.AssignValue | src/modes/UltimateR4.cpp:142-190 | the output becomes the old output with the one field the key names replaced by the converted value; an unknown key changes nothing |
| UltimateR4Mode.UltimateR4.UpdateAnalogOutputs | src/modes/UltimateR4.cpp:192-214 | the output becomes the rule list folded over the old output, rule by rule in list order |

## Left out

- JSON parsing and the profile document's metadata (`name`, `authors`, `source`, `profileVersion`): the rule list is given already parsed, as `DefaultProfile.InputMap`.
- The `verticalSocd` and `horizontalSocd` entries of the profile document: nothing in `UltimateR4.cpp` reads them.
- The key iteration order of an output object: the model takes the members in document order. The JSON library iterates object keys in sorted order, which is the same for every rule of the default profile. The two-member rules name distinct fields, so the order does not change the result.
- The global `inputMap` is held as the mode's constant field `inputMap`, which the constructor sets to the default profile's rule list.
- Button numbers are taken to fit in `int`: the narrowing at `src/modes/UltimateR4.cpp:197` of a larger JSON integer, a boolean or a float to `int` is not modelled. In the source, such a number can wrap into 1 .. 20 and fire.
- Floating-point JSON numbers: the default profile has none, and `Value` holds only booleans and integers.
- UltimateR4Mode.UltimateR4.AssignValue: a number assigned to a digital field throws a type error in the source. The model excludes this case by its precondition instead of modelling the exception.
- UltimateR4Mode.UltimateR4.AssignValue: the key comparison chain is modelled as the lookup `Outputs.KeyToField` followed by one write, not as 23 separate branches.
- Outputs.OutputState.Write: `OutputState` holds its 23 fields as one record value. A write replaces the record with a copy that differs in one field. It does not store one member in place. Nothing else reads the record between the two, so the outcome is the same.
- The SOCD resolution itself: `core/socd.hpp` is not part of this model. `SocdPair` is plain data, and `SocdType` names only the second-input-priority policy.
- The `_buttons` remap table and the two-argument constructor taking a raw profile document: `include/modes/UltimateR4.hpp` declares them, but `UltimateR4.cpp` has no implementation of them.
- The `ANALOG_STICK_MIN`, `ANALOG_STICK_NEUTRAL` and `ANALOG_STICK_MAX` macros: they are defined but never used, so nothing is clamped.
- `ControllerMode::UpdateOutputs` (its source is not among the files modelled), the output reset `CommunicationBackend::ResetOutputs` (`include/core/CommunicationBackend.hpp:39`), the board configuration in `config/b0xx_r4/config.cpp` and the rest of `CommunicationBackend`: these are outside the mode and are not part of this model.
- Fields of the default profile other than the left stick, the right stick's X axis, start, home, select and the D-pad: the general lemmas (`LastMatchWins`, the per-group `...Silent` lemmas) cover them. No closed-form lemma is stated for each of them.
