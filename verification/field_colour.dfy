/** The colour field: its value, its collapsed text, its binding to a host block,
    the change events it reports and the colour picker's accept path. */
module ColourField {
  import opened Js
  import opened Events

  // ---------------------------------------------------------------------------
  // Collapsed text: '#rrggbb' with doubled channels becomes '#rgb'.
  // ---------------------------------------------------------------------------

  /** Characters a JavaScript `.` does not match (no `s` flag). */
  predicate IsLineTerminator(c: char) {
    c == '\n' || c == '\r' || c == '\U{2028}' || c == '\U{2029}'
  }

  /** Characters JavaScript stores as one UTF-16 code unit.  The pattern has no `u`
      flag, so its `.` and its length count code units: a character outside the Basic
      Multilingual Plane is two units and can never be one `(.)`. */
  predicate IsOneCodeUnit(c: char) {
    c < '\U{10000}'
  }

  /** What one `(.)` of the pattern accepts. */
  predicate MatchesDot(c: char) {
    IsOneCodeUnit(c) && !IsLineTerminator(c)
  }

  /** `colour` matches /^#(.)\1(.)\2(.)\3$/: seven code units, a '#', then three
      channels each written as one code unit twice. */
  predicate IsDoubledForm(colour: string) {
    && |colour| == 7
    && colour[0] == '#'
    && MatchesDot(colour[1]) && colour[2] == colour[1]
    && MatchesDot(colour[3]) && colour[4] == colour[3]
    && MatchesDot(colour[5]) && colour[6] == colour[5]
  }

  /** A three-channel shorthand '#rgb' whose channels the pattern's `.` accepts. */
  predicate IsShortForm(t: string) {
    && |t| == 4
    && t[0] == '#'
    && MatchesDot(t[1]) && MatchesDot(t[2]) && MatchesDot(t[3])
  }

  /** The text shown for a colour: the shorthand when the pattern matches, else the
      colour.  The text is either the colour itself or a shorthand that expands back
      to it; so its length is 4 or the colour's length. */
  function ShortText(colour: string): (r: string)
    ensures !IsDoubledForm(colour) ==> r == colour
    ensures IsDoubledForm(colour) ==> IsShortForm(r) && Expand(r) == colour
    ensures |r| == 4 || r == colour
  {
    if IsDoubledForm(colour) then ['#', colour[1], colour[3], colour[5]] else colour
  }

  /** Reference inverse of the shortening: '#rgb' written out as '#rrggbb'. */
  function Expand(t: string): (r: string)
    requires |t| == 4
    ensures |r| == 7 && r[0] == '#'
    ensures r[1] == r[2] == t[1] && r[3] == r[4] == t[2] && r[5] == r[6] == t[3]
  {
    ['#', t[1], t[1], t[2], t[2], t[3], t[3]]
  }

  /** Shortening an already shortened text changes nothing. */
  lemma ShortTextIdempotent(colour: string)
    ensures ShortText(ShortText(colour)) == ShortText(colour)
  {
  }

  /** Every shorthand is recovered from its long form. */
  lemma ExpandRoundTrip(t: string)
    requires IsShortForm(t)
    ensures IsDoubledForm(Expand(t))
    ensures ShortText(Expand(t)) == t
  {
  }

  /** The text differs from the colour exactly when the colour is the long form
      of some shorthand. */
  lemma ShortTextChangesIff(colour: string)
    ensures ShortText(colour) != colour <==> exists t :: IsShortForm(t) && Expand(t) == colour
  {
    if ShortText(colour) != colour {
      var t := ShortText(colour);
      assert IsShortForm(t) && Expand(t) == colour;
    }
    if exists t :: IsShortForm(t) && Expand(t) == colour {
      var t :| IsShortForm(t) && Expand(t) == colour;
      ExpandRoundTrip(t);
      assert |ShortText(colour)| == 4 != |colour|;
    }
  }

  /** Examples: doubled channels are shortened, others are not, and a channel outside
      the Basic Multilingual Plane (two code units in JavaScript) is never matched. */
  lemma ShortTextExamples()
    ensures ShortText("#ffcc00") == "#fc0"
    ensures ShortText("#1a2b3c") == "#1a2b3c"
    ensures ShortText("#\U{1F600}\U{1F600}aabb") == "#\U{1F600}\U{1F600}aabb"
  {
  }

  // ---------------------------------------------------------------------------
  // Validation on the picker's accept path.
  // ---------------------------------------------------------------------------

  /** What a validator returns for a candidate colour: `undefined` keeps the
      candidate, `null` aborts the change, anything else replaces the candidate. */
  datatype Verdict = Undefined | Null | Override(colour: string)

  type Validator = string -> Verdict

  /** The colour the picker reports when it has no selection (or an empty one). */
  const NO_SELECTION_COLOUR := "#000000"

  /** `getSelectedColor() || '#000000'`. */
  function PickedColour(selected: Option<string>): (c: string)
    ensures c != ""
    ensures Truthy(selected) ==> c == selected.value
    ensures !Truthy(selected) ==> c == NO_SELECTION_COLOUR
  {
    StringOr(selected, NO_SELECTION_COLOUR)
  }

  /** The field's validation of a candidate: `None` when it is rejected, else the
      colour to commit. */
  function Validated(validator: Option<Validator>, candidate: string): (r: Option<string>)
    ensures r.None? <==> validator.Some? && validator.value(candidate) == Null
    ensures r.Some? && validator.Some? && validator.value(candidate).Override? ==>
              r.value == validator.value(candidate).colour
    ensures r.Some? && (validator.None? || validator.value(candidate) == Undefined) ==>
              r.value == candidate
  {
    match validator
    case None => Some(candidate)
    case Some(v) =>
      match v(candidate)
      case Undefined => Some(candidate)
      case Null => None
      case Override(c) => Some(c)
  }

  /** What the picker's change handler passes to `setValue` (`None`: it does not call
      it).  The validator runs only when the field has a host block. */
  function PickerOutcome(bound: bool, validator: Option<Validator>, selected: Option<string>): (r: Option<string>)
    ensures r.None? <==> bound && validator.Some? && validator.value(PickedColour(selected)) == Null
    ensures !bound ==> r == Some(PickedColour(selected))
    ensures r.Some? && bound && validator.Some? && validator.value(PickedColour(selected)).Override? ==>
              r.value == validator.value(PickedColour(selected)).colour
    ensures r.Some? && !(bound && validator.Some? && validator.value(PickedColour(selected)).Override?) ==>
              r.value == PickedColour(selected)
  {
    var candidate := PickedColour(selected);
    if bound then Validated(validator, candidate) else Some(candidate)
  }

  /** With no validator, or one that keeps every candidate, the handler commits
      exactly the picked colour. */
  lemma NoValidatorCommitsPick(bound: bool, validator: Option<Validator>, selected: Option<string>)
    requires validator.None? || validator.value(PickedColour(selected)) == Undefined
    ensures PickerOutcome(bound, validator, selected) == Some(PickedColour(selected))
  {
  }

  // ---------------------------------------------------------------------------
  // The change events a value change reports.
  // ---------------------------------------------------------------------------

  /** The events `setValue` appends: one change event naming the host, the field, the
      old and the new colour, when the field has a host, the bus is enabled and the
      value differs; none otherwise. */
  function ChangeEvents(host: Option<string>, enabled: bool, name: string,
                        oldColour: string, newColour: string, group: string): (es: seq<Event>)
    ensures |es| <= 1
    ensures |es| == 1 <==> host.Some? && enabled && oldColour != newColour
    ensures forall e | e in es ::
      e.BlockChange? && e.blockId == host.value && e.element == "field" && e.name == name &&
      e.oldValue == oldColour && e.newValue == newColour && e.group == group
  {
    if host.Some? && enabled && oldColour != newColour
    then [BlockChange(host.value, "field", name, oldColour, newColour, group)]
    else []
  }

  /** Re-applying the current value never reports a change. */
  lemma ReapplyReportsNothing(host: Option<string>, enabled: bool, name: string, colour: string, group: string)
    ensures ChangeEvents(host, enabled, name, colour, colour, group) == []
  {
  }

  // ---------------------------------------------------------------------------
  // The host block and the field.
  // ---------------------------------------------------------------------------

  /** The host block, as far as the field uses it: its id and the colours it was
      last given through `setColour`. */
  class Block {
    const id: string
    var colours: Option<(string, string, string)>

    constructor (id: string)
      ensures this.id == id && colours == None
    {
      this.id := id;
      colours := None;
    }

    method SetColour(primary: string, secondary: string, tertiary: string)
      modifies this
      ensures colours == Some((primary, secondary, tertiary))
    {
      colours := Some((primary, secondary, tertiary));
    }
  }

  class FieldColour {
    /** The committed colour (`colour_`). */
    var colour: string
    var validator: Option<Validator>
    /** The name the owning input gives the field; empty until it does. */
    var name: string
    /** The host block (`sourceBlock_`), null until the field is installed. */
    var sourceBlock: Block?
    /** Whether the field's group element exists (`fieldGroup_`). */
    var initialized: bool

    constructor (colour: string, validator: Option<Validator>)
      ensures this.colour == colour && this.validator == validator
      ensures name == "" && sourceBlock == null && !initialized
    {
      this.colour := colour;
      this.validator := validator;
      name := "";
      sourceBlock := null;
      initialized := false;
    }

    /** Builds a field from a JSON descriptor; its value is the descriptor's 'colour'. */
    static method FromJson(options: map<string, string>) returns (f: FieldColour)
      requires "colour" in options
      ensures fresh(f)
      ensures f.GetValue() == options["colour"] && f.validator == None
      ensures f.sourceBlock == null && !f.initialized
    {
      f := new FieldColour(options["colour"], None);
    }

    /** The committed colour; reading it changes nothing. */
    function GetValue(): (c: string)
      reads this
      ensures c == colour
    {
      colour
    }

    /** The text shown when the block is collapsed: the value, or a shorthand that
        expands back to it. */
    function GetText(): (r: string)
      reads this
      ensures IsDoubledForm(GetValue()) ==> IsShortForm(r) && Expand(r) == GetValue()
      ensures !IsDoubledForm(GetValue()) ==> r == GetValue()
      ensures |r| == 4 || r == GetValue()
    {
      ShortText(colour)
    }

    /** The host's id, `None` while the field has no host. */
    function HostId(): Option<string>
      reads this
    {
      if sourceBlock == null then None else Some(sourceBlock.id)
    }

    /** Commits `c`; reports the change first when bound, enabled and different, and
        afterwards gives the host `c` as all three of its colours. */
    method SetValue(bus: EventBus, c: string)
      modifies this`colour, bus`log, sourceBlock
      ensures GetValue() == c
      ensures bus.log == old(bus.log) + ChangeEvents(HostId(), bus.enabled, name, old(colour), c, bus.group)
      ensures sourceBlock != null ==> sourceBlock.colours == Some((c, c, c))
    {
      if sourceBlock != null && bus.IsEnabled() && colour != c {
        bus.Fire(BlockChange(sourceBlock.id, "field", name, colour, c, bus.group));
      }
      colour := c;
      if sourceBlock != null {
        sourceBlock.SetColour(c, c, c);
      }
    }

    /** Installs the field on `block`.  A second call does nothing; the first binds the
        host and re-applies the current value, which colours the host and reports no
        event because the value does not change. */
    method Init(bus: EventBus, block: Block)
      modifies this, bus`log, block
      ensures old(initialized) ==> unchanged(this, bus, block)
      ensures !old(initialized) ==>
        && initialized && sourceBlock == block
        && colour == old(colour) && validator == old(validator) && name == old(name)
        && block.colours == Some((colour, colour, colour))
        && bus.log == old(bus.log)
    {
      if initialized {
        return;
      }
      initialized := true;
      sourceBlock := block;
      SetValue(bus, GetValue());
    }

    /** The picker's change handler: takes the selection (black when none), hides the
        picker (whose dispose callback closes the event group), runs the validator when
        the field has a host, and commits the result unless it is null. */
    method OnPickerChange(bus: EventBus, selected: Option<string>)
      modifies this`colour, bus`log, bus`group, sourceBlock
      ensures bus.group == ""
      ensures var next := PickerOutcome(sourceBlock != null, validator, selected);
        && (next.None? ==>
              && colour == old(colour) && bus.log == old(bus.log)
              && (sourceBlock != null ==> sourceBlock.colours == old(sourceBlock.colours)))
        && (next.Some? ==>
              && colour == next.value
              && bus.log == old(bus.log) + ChangeEvents(HostId(), bus.enabled, name, old(colour), next.value, "")
              && (sourceBlock != null ==> sourceBlock.colours == Some((next.value, next.value, next.value))))
    {
      var picked := PickedColour(selected);
      WidgetDispose(bus);
      var result := Some(picked);
      if sourceBlock != null {
        result := Validated(validator, picked);
      }
      if result.Some? {
        SetValue(bus, result.value);
      }
    }

    /** Closing the picker closes the current event group. */
    static method WidgetDispose(bus: EventBus)
      modifies bus`group
      ensures bus.group == ""
    {
      bus.SetGroup("");
    }
  }
}
