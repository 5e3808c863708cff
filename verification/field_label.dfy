/** The label field: a non-editable, non-serialized text whose only state besides its
    text is whether its text element currently exists. */
module LabelField {
  import opened Js

  /** The class every label's text element carries. */
  const TEXT_CLASS := "blocklyText"

  /** The label's text element, reduced to what the field decides about it: its CSS
      classes and whether it is hidden. */
  datatype TextElement = TextElement(classes: seq<string>, hidden: bool)

  /** The element a first `init` builds: the base class, the configured class when
      it is truthy, hidden when the field is not visible. */
  function NewTextElement(cssClass: Option<string>, visible: bool): (e: TextElement)
    ensures |e.classes| >= 1 && e.classes[0] == TEXT_CLASS
    ensures Truthy(cssClass) <==> |e.classes| == 2
    ensures Truthy(cssClass) ==> e.classes == [TEXT_CLASS, cssClass.value]
    ensures !Truthy(cssClass) ==> e.classes == [TEXT_CLASS]
    ensures e.hidden <==> !visible
  {
    TextElement([TEXT_CLASS] + (if Truthy(cssClass) then [cssClass.value] else []), !visible)
  }

  class FieldLabel {
    /** A label offers no editor. */
    const EDITABLE: bool := false
    /** A label is not saved with its block. */
    const SERIALIZABLE: bool := false

    var text: string
    /** The optional CSS class (`class_`), kept as given. */
    var cssClass: Option<string>
    var visible: bool
    /** `textElement_`: `None` before `init` and after `dispose`. */
    var textElement: Option<TextElement>

    constructor (text: string, cssClass: Option<string>)
      ensures this.text == text && this.cssClass == cssClass
      ensures visible && textElement == None
      ensures !EDITABLE && !SERIALIZABLE
    {
      this.text := text;
      this.cssClass := cssClass;
      visible := true;
      textElement := None;
    }

    /** Builds a label from a JSON descriptor: the text after message references are
        replaced, and the descriptor's 'class' passed through unchanged. */
    static method FromJson(options: map<string, string>, replaceMessageReferences: string -> string)
      returns (f: FieldLabel)
      requires "text" in options
      ensures fresh(f)
      ensures f.text == replaceMessageReferences(options["text"])
      ensures f.cssClass == Lookup(options, "class")
      ensures f.visible && f.textElement == None
    {
      f := new FieldLabel(replaceMessageReferences(options["text"]), Lookup(options, "class"));
    }

    /** Builds the text element unless it already exists. */
    method Init()
      modifies this`textElement
      ensures old(textElement).Some? ==> textElement == old(textElement)
      ensures old(textElement).None? ==> textElement == Some(NewTextElement(cssClass, visible))
    {
      if textElement.Some? {
        return;
      }
      textElement := Some(NewTextElement(cssClass, visible));
    }

    /** Drops the text element, whatever the state before. */
    method Dispose()
      modifies this`textElement
      ensures textElement == None
    {
      textElement := None;
    }
  }

  /** A label goes through init, dispose and init again: a second init changes
      nothing, dispose is idempotent and not terminal. */
  method LifecycleScenario(l: FieldLabel)
    modifies l
    ensures l.textElement == Some(NewTextElement(l.cssClass, l.visible))
  {
    l.Init();
    var first := l.textElement;
    assert first.Some?;
    l.Init();
    assert l.textElement == first;
    l.Dispose();
    l.Dispose();
    assert l.textElement == None;
    l.Init();
    assert l.textElement == Some(NewTextElement(l.cssClass, l.visible));
  }
}
