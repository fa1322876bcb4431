/** The display target of `typeWriter`: an element whose text is revealed,
    followed by an optional cursor span (script.js lines 17-37, 59-65). */
module Display {
  import opened Js

  /** The class every cursor span carries (script.js line 23). */
  const TypingCursorClass: string := "typing-cursor"
  /** The class added when a kept cursor starts blinking (script.js line 63). */
  const CursorBlinkClass: string := "cursor-blink"

  /** A `<span>` used as the cursor marker. */
  class Cursor {
    var glyph: JsString            // its textContent
    var classes: set<string>       // its classList

    /** `document.createElement('span')`: empty and unstyled. */
    constructor ()
      ensures glyph == [] && classes == {}
    {
      glyph := [];
      classes := {};
    }

    /** `classList.add(name)`. */
    method AddClass(name: string)
      modifies this
      ensures classes == old(classes) + {name} && glyph == old(glyph)
    {
      classes := classes + {name};
    }
  }

  /** What a cursor looks like, as a value. */
  datatype CursorLook = CursorLook(glyph: JsString, classes: set<string>)

  /** What an element shows, as a value: its text and, when a cursor is
      attached, that cursor as the last child. */
  datatype Shown = Shown(content: JsString, cursor: Option<CursorLook>)

  /** The DOM `textContent` getter: the text of every child in order, so an
      attached cursor contributes its glyph at the end. */
  function TextContent(shown: Shown): JsString {
    match shown.cursor
    case None => shown.content
    case Some(look) => shown.content + look.glyph
  }

  /** The element being typed into. Its children are a text run followed by
      at most one cursor span. */
  class Element {
    var content: JsString
    var cursor: Cursor?

    function View(): Shown
      reads this, cursor
    {
      Shown(content, if cursor == null then None else Some(CursorLook(cursor.glyph, cursor.classes)))
    }

    /** The DOM `textContent` setter: every child, the cursor included, is
        replaced by the new text. */
    method SetTextContent(s: JsString)
      modifies this
      ensures content == s && cursor == null
    {
      content := s;
      cursor := null;
    }

    /** `appendChild(c)` on an element with no cursor attached: `c` becomes
        the last child. */
    method AppendChild(c: Cursor)
      requires cursor == null
      modifies this
      ensures content == old(content) && cursor == c
    {
      cursor := c;
    }

    /** `c.remove()`: detaches `c` if it is this element's cursor, else does
        nothing. */
    method RemoveChild(c: Cursor)
      modifies this
      ensures content == old(content)
      ensures cursor == if old(cursor) == c then null else old(cursor)
    {
      if cursor == c {
        cursor := null;
      }
    }
  }

  /** What `textContent += [c]` leaves in an element showing `shown`. */
  function AppendText(shown: Shown, c: CodeUnit): Shown {
    Shown(TextContent(shown) + [c], None)
  }

  /** Appending with no cursor attached extends the text by exactly `c`. */
  lemma AppendTextDetached(shown: Shown, c: CodeUnit)
    requires shown.cursor.None?
    ensures AppendText(shown, c) == Shown(shown.content + [c], None)
  {
  }

  /** Appending while a cursor is attached would bake its glyph into the
      text and drop the cursor span, which is why the cursor is detached
      first. */
  lemma AppendTextOverCursor(shown: Shown, c: CodeUnit)
    requires shown.cursor.Some? && shown.cursor.value.glyph == [Bar]
    ensures AppendText(shown, c).content == shown.content + [Bar, c]
    ensures AppendText(shown, c).content != shown.content + [c]
    ensures AppendText(shown, c).cursor.None?
  {
  }
}
