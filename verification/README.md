# Fields and variables of a block editor, modelled in Dafny

This project models the value-and-lifecycle core of three parts of a block-based
visual editor (scratch-blocks):

- the **colour field** (`core/field_colour.js`): its committed colour, the rule
  for when a value change is reported as a change event and when the host block
  is recoloured, its once-only installation on a block, the collapsed text that
  shortens `#rrggbb` to `#rgb`, its JSON factory, and the colour picker's
  accept path (pick, hide the picker, validate, commit);
- the **label field** (`core/field_label.js`): a text that is never editable and
  never serialized, whose text element is built by `init` (at most once until
  `dispose`) and dropped by `dispose` (after which `init` builds it again);
- the **variable model** (`core/variable_model.js`): construction with defaults,
  an id fixed at construction, the one create event construction reports, and
  ordering by name.

Modules:

- `Js` (`js.dfy`): an `Option` for missing JavaScript values and JavaScript's
  `||` on optional strings and booleans.
- `Events` (`events.dfy`): the event datatype and `EventBus`, an explicit object
  holding the global enable switch, the ambient group tag and the append-only
  log. `Fire` appends an event only while the bus is enabled.
- `ColourField` (`field_colour.dfy`): `ShortText` with its reference inverse
  `Expand`; the validator verdicts; the host `Block`, which records the last
  colours it was given; and the `FieldColour` class.
- `LabelField` (`field_label.dfy`): the `FieldLabel` class, with the SVG text
  element reduced to its classes and its hidden flag.
- `Variables` (`variable_model.dfy`): the ordinal name comparison, its
  lexicographic reference definition, and the `VariableModel` class.

Assumptions about code that is not part of this model:

- The shortening pattern has no `u` flag, so it works on UTF-16 code units. A
  character outside the Basic Multilingual Plane is two code units in
  JavaScript, so the pattern never matches a colour that contains one; the
  model's `IsDoubledForm` and `IsShortForm` exclude such characters.
- `Blockly.Events.fire`, `isEnabled` and `setGroup` are modelled by `EventBus`.
  Each event records the bus's group tag when it is made.
- `scratchBlocksUtils.compareStrings` is not part of this model. `compareByName`
  is modelled with an ordinal comparison, character by character on Unicode
  scalar values. That comparison gives -1, 0 or 1, and 0 exactly for equal names.
- `callValidator` (field.js) is not part of this model. The field's validation
  follows the doc comment at `core/field_colour.js:36-40`: `undefined` keeps the
  candidate, `null` aborts, anything else replaces the candidate.
- `Blockly.WidgetDiv.hide()` (line 210) runs the dispose callback registered at
  line 190, `widgetDispose_`. Its only core effect is `setGroup(false)`, so the
  picker's change handler clears the group before it commits.
- `Blockly.utils.genUid` is a parameter, `generatedId`: the id the generator
  returns. It is used only when no non-empty id is given.
- `replaceMessageReferences` is a parameter of the label's `FromJson`: an
  arbitrary function from strings to strings.
- The base field's `init` (field.js) is not part of this model. The colour
  field's `Init` binds the host block it is given and marks the field as
  initialized (`fieldGroup_`).

## Model

| member | source | states |
|---|---|---|
| `ColourField.ShortText` | core/field_colour.js:131-139 | the collapsed text is the colour unchanged when it does not match `^#(.)\1(.)\2(.)\3$` (on UTF-16 code units), and otherwise a `#rgb` shorthand that expands back to the colour; its length is 4 or the colour's length |
| `ColourField.FieldColour.GetText` | core/field_colour.js:131-139 | when the value matches the pattern, the field's text is the `#rgb` shorthand that expands back to the value; otherwise it is the value unchanged; its length is 4 or the value's |
| `ColourField.ShortTextIdempotent` | core/field_colour.js:134-138 | shortening an already shortened text changes nothing |
| `ColourField.ExpandRoundTrip` | core/field_colour.js:131-139 | every `#rgb` whose channels the regex `.` accepts is recovered from its long form `#rrggbb` |
| `ColourField.ShortTextChangesIff` | core/field_colour.js:134-137 | the text differs from the colour exactly when the colour is the long form of some shorthand |
| `ColourField.ShortTextExamples` | core/field_colour.js:131-139 | `#ffcc00` is shown as `#fc0`; `#1a2b3c` is shown unchanged; a colour whose doubled channel lies outside the Basic Multilingual Plane is shown unchanged |
| `ColourField.Validated` | core/field_colour.js:36-40 | a candidate is rejected exactly when a validator exists and returns null; an override replaces the candidate; with no validator or an undefined result the candidate stands |
| `ColourField.PickedColour` | core/field_colour.js:209 | a missing or empty selection becomes `#000000`; otherwise the selection; never empty |
| `ColourField.PickerOutcome` | core/field_colour.js:209-217 | the handler aborts exactly when the field has a host, has a validator and the validator returns null; without a host the picked colour is committed; an override is committed in place of the pick; otherwise the pick is committed |
| `ColourField.NoValidatorCommitsPick` | core/field_colour.js:36-40 | with no validator, or a validator returning undefined, the handler commits exactly the picked colour |
| `ColourField.ChangeEvents` | core/field_colour.js:114-118 | a value change reports at most one event; it reports one exactly when there is a host, the bus is enabled and the colour differs; that event names the host, `'field'`, the field name, the old and the new colour |
| `ColourField.ReapplyReportsNothing` | core/field_colour.js:85 | re-applying the current colour reports no event |
| `ColourField.FieldColour.constructor` | core/field_colour.js:44-47 | a new field holds the given colour and validator, has no host and is not initialized |
| `ColourField.FieldColour.GetValue` | core/field_colour.js:105-107 | returns the committed colour and changes nothing |
| `ColourField.Block.SetColour` | core/field_colour.js:123 | the host records the three colours it is given, in order |
| `ColourField.FieldColour.FromJson` | core/field_colour.js:57-59 | the built field's value is the descriptor's `colour` |
| `ColourField.FieldColour.SetValue` | core/field_colour.js:113-125 | afterwards `GetValue()` is the new colour, whatever the host or bus state; the log grows by exactly the change events above and is otherwise unchanged; a host is given the colour on all three channels, even when the colour is unchanged; nothing else changes |
| `ColourField.FieldColour.Init` | core/field_colour.js:79-86 | on an initialized field nothing changes; otherwise the field becomes initialized, is bound to the block, keeps its colour, colours the block with it on all three channels and appends no event |
| `ColourField.FieldColour.OnPickerChange` | core/field_colour.js:208-218 | the group is cleared; on abort colour, log and host are unchanged; otherwise the outcome is committed with exactly the effects of `SetValue` |
| `ColourField.FieldColour.WidgetDispose` | core/field_colour.js:241-246 | closing the picker clears the event group |
| `Events.EventBus.SetGroup` | core/field_colour.js:245 | the ambient group becomes the given tag; `""` stands for `false`, no group |
| `Events.EventBus.Fire` | core/variable_model.js:94 | an event is appended to the log while the bus is enabled, and dropped while it is disabled |
| `LabelField.NewTextElement` | core/field_label.js:84-97 | the built element's classes are exactly `blocklyText` followed by the configured class when that class is truthy, and only `blocklyText` otherwise; it is hidden exactly when the field is not visible |
| `LabelField.FieldLabel.constructor` | core/field_label.js:40-73 | the label keeps its text and the given class unchanged, has no text element, and its `EDITABLE` and `SERIALIZABLE` flags are false |
| `LabelField.FieldLabel.FromJson` | core/field_label.js:55-58 | the text is the descriptor's `text` after message references are replaced; the class is the descriptor's `class`, or absent, passed through unchanged |
| `LabelField.FieldLabel.Init` | core/field_label.js:78-97 | with an element already present nothing changes; otherwise the element is built as `NewTextElement` describes |
| `LabelField.FieldLabel.Dispose` | core/field_label.js:110-113 | the element is absent afterwards, whatever the state before; so a second dispose changes nothing and a later `Init` builds it again |
| `LabelField.LifecycleScenario` | core/field_label.js:78-113 | init, init, dispose, dispose, init leaves the label with a freshly built element: a second init changes nothing and dispose is not terminal |
| `Variables.CompareStrings` | core/variable_model.js:104-114 | the comparison returns -1, 0 or 1, and 0 exactly when the names are equal |
| `Variables.CompareStringsIsLexicographic` | core/variable_model.js:104-114 | the comparison is -1 exactly when the first name is a proper prefix of the second or smaller at the first differing position |
| `Variables.CompareStringsAntisymmetric` | core/variable_model.js:104-114 | swapping the names negates the result |
| `Variables.CompareStringsTransitive` | core/variable_model.js:104-114 | "sorts before" is transitive |
| `Variables.VariableModel.constructor` | core/variable_model.js:48-102 | the name is kept as given; the type is the given type or `''`; the id (`GetId`) is the given id when it is non-empty, else the generated one, and it is a constant; local and cloud are true only when given as true; exactly one create event carrying the variable's id, name, type and flags is reported, and the log keeps it while the bus is enabled |
| `Variables.VariableModel.GetId` | core/variable_model.js:100-102 | returns the id, a constant fixed at construction |
| `Variables.VariableModel.CompareByName` | core/variable_model.js:112-114 | returns -1, 0 or 1; 0 exactly when the names are equal; swapping the variables negates it; -1 exactly when the first name sorts before the second |

## Left out

- Colour picker creation, rendering, sizing and positioning, and the palette and column settings (`core/field_colour.js:141-235`, `setColours`, `setColumns`, `getSize`), and the `addArgType('colour')` call of the constructor (`core/field_colour.js:46`), which only tags the field for styling: presentation.
- `ColourField.FieldColour.OnPickerChange`: validators are modelled as side-effect-free functions of the candidate. In the source a validator is user code run with the field as `this`; it could change the field or its block before returning null, and the abort case's "nothing changes" holds only for validators that do not.
- `LabelField.NewTextElement`: `classes` lists the classes added, in order; a configured class equal to `blocklyText` appears twice, where the DOM class list would hold it once.
- The listener removal in `widgetDispose_` (`core/field_colour.js:242-244`): foreign event plumbing.
- The colour field's `dispose` (`core/field_colour.js:96-99`): it hides the widget and calls the base field's `dispose`, which field.js holds and which is not part of this model.
- The label's SVG attributes, its attachment to the block's SVG root, its tooltip binding, `render_`, `getSvgRoot` and `setTooltip` (`core/field_label.js:84-127`): DOM work. The element is reduced to its classes and its hidden flag.
- The field's `name` is given by the input that owns the field, which is not part of this model; the constructor leaves it empty and callers may assign it.
- `ColourField.FieldColour.FromJson`: requires the `colour` key. Without it the source builds a field whose value is `undefined`, which a `string` value cannot express.
- `LabelField.FieldLabel.FromJson`: requires the `text` key, for the same reason.
- `Variables.VariableModel.CompareByName`: states the ordinal order, not the locale-aware order of the real `compareStrings`, which is not part of this model.
- Events are not tagged with a workspace id, and the create event records the variable's id and fields rather than a reference to the object.
- `Field.register` (the type registry) and uniqueness of variable names within a type: both live in files that are not part of this model.
- `core/msg.js` (a one-entry message lookup before Closure's own) and `core/blocks.js` (an empty object): localization plumbing and no logic.
