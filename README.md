# Typewriter animation model

A Dafny model of `typeWriter(element, text, options)` from a portfolio
page's `script.js`. It reveals `text` in `element` one UTF-16 code unit per
tick and can show a trailing cursor (a bar glyph) while it does. After each code unit it
waits a delay: fast after a space, slow after an ASCII capital, one and a half
times slow after `.`, `,` or `!`, and base otherwise. Random jitter in [-12, 13) ms
is added, and the result is clamped to at least 15 ms. At the end it removes
the cursor or makes it blink, then resolves its promise.

The model has five modules:

- `Js` holds the values of the JavaScript runtime: code units, strings as code-unit
  sequences, and optional object properties.
- `Options` holds the options object and the defaults taken by destructuring.
- `Pacing` holds the delay rule, as pure functions over exact reals.
- `Display` holds the element and the cursor span. The element is a text run
  followed by at most one cursor span. The model keeps the DOM's
  `textContent` behaviour: the getter includes the cursor's glyph, and the
  setter replaces every child. This is why the code has to detach the cursor
  before `textContent += …`.
- `TypeWriter` holds the run, a class whose fields are the variables the
  closure captures. `Run.Type` is one call of the inner `type` function.
  `TypeWriter` is the whole animation: its loop stands for the recursion
  through `setTimeout`. Each `Math.random()` result is a parameter in [0, 1).

`Frame(text, config, i, done)` is the specification of what the element
shows. Every run state is proved to match it (`Run.Valid`).

For "Hi." the pause after `H` is slow and the pause after `i` is base. The
1.5× slow pause follows `.`, before the completing call
(`TypeWriter.HiExample`).

## Model

| member | source | states |
|---|---|---|
| Options.ResolveDefaults | script.js:5-11 | Without options, the speeds are 60, 30 and 100 ms. The cursor is shown and kept at the end. |
| Options.ResolveField | script.js:5-11 | Each option the caller gives is used as given. Each absent one takes its own default, independently of the others. |
| Options.Destructure | script.js:2-11 | Destructuring the options argument throws a TypeError exactly when it is `null`. An omitted argument gets all defaults, and an object gets its own values with defaults for the absent ones. |
| Pacing.SpeedAfter | script.js:42-51 | Each class of the just-revealed code unit gets its own speed: space gets fast, `A`-`Z` gets slow, `.`/`,`/`!` get slow × 1.5, and anything else gets base. The classes are disjoint, so the order of the tests does not matter. |
| Pacing.Jitter | script.js:54 | `Math.random() * 25 - 12` lies in [-12, 13) for every sample in [0, 1). |
| Pacing.JitterCovers | script.js:54 | Every value in [-12, 13) is the jitter of some sample, so the jitter's range is exactly [-12, 13). |
| Pacing.Delay | script.js:42-56 | The timeout is at least 15 ms and at least speed plus jitter. It equals one of the two, so it is their maximum. |
| Pacing.NeverClampsFrom27 | script.js:42-56 | For any options whose three speeds are each at least 27 ms, the 15 ms clamp never changes a delay: it is speed plus jitter. This covers the defaults and the page's base speeds of 80, 50 and 40. |
| Pacing.DefaultsNeverClamp | script.js:6-8 | With the default speeds, whatever the cursor options, every delay is speed plus jitter, in [18, 163) ms. |
| Pacing.DefaultSpeedByCharacter | script.js:42-51 | With the default speeds, the pause is 150 ms exactly after `.`, `,` and `!`. It is 100 ms exactly after `A`-`Z`, 30 ms exactly after a space, and 60 ms after every other code unit. |
| Display.Cursor.constructor | script.js:22 | A newly created span has no text and no classes. |
| Display.Cursor.AddClass | script.js:63 | Adding `cursor-blink` adds that one class and keeps the glyph. |
| Display.Element.SetTextContent | script.js:17 | Setting `textContent` leaves exactly the new text and detaches the cursor. |
| Display.Element.AppendChild | script.js:25 | Appending the cursor makes it the last child and leaves the text unchanged. |
| Display.Element.RemoveChild | script.js:31 | `cursor.remove()` detaches this element's cursor and leaves the text unchanged. |
| Display.AppendTextDetached | script.js:34 | `textContent += c` with no cursor attached extends the text by exactly `c`. |
| Display.AppendTextOverCursor | script.js:31-37 | Appending with the cursor still attached would put the bar glyph into the text and drop the span. This is why the code removes the cursor first and re-appends it after. |
| TypeWriter.Run.Start | script.js:13-26 | After setup the element shows empty text and the index is 0. With showCursor it holds exactly one new `typing-cursor` span whose text is the bar glyph. Without it, no cursor is shown. |
| TypeWriter.Run.Type | script.js:28-68 | Before the end, a call appends exactly `text[i]`, increments `i` by one, and returns the timeout `Delay` for the unit just revealed. The cursor stays the last child. At `i == text.length` it resolves, and the cursor is removed or set blinking as the options say. |
| TypeWriter.TypeWriter | script.js:2-72 | A missing element completes at once with no run and no timeouts. With an element, `null` options throw before the element is touched. Otherwise the run keeps the given element, text and destructured options. It ends resolved with `i == text.length`, showing the completion frame. It schedules exactly `text.length` timeouts, the k-th being `Delay` after `text[k]`, each at least 15 ms. |
| TypeWriter.RevealedIsPrefix | script.js:29-39 | After `i` reveals the text is `text[..i]`, of length `i`. It is a prefix of `text` and of every later frame. |
| TypeWriter.CursorTrailsText | script.js:31-37 | With showCursor and before completion, `textContent` is the revealed text followed by one bar glyph. The cursor is the last child and never part of the text. |
| TypeWriter.NoCursorWithoutShowCursor | script.js:20-21 | Without showCursor no cursor is ever shown, and `textContent` is just the revealed text. |
| TypeWriter.CompletionByOptions | script.js:57-66 | At completion the text is all of `text`. With showCursor and removeCursorOnComplete the cursor is gone. With showCursor alone it stays, carrying `cursor-blink`. Without showCursor there is none. |
| TypeWriter.RunDuration | script.js:54-56 | The scheduled timeouts total at least 15 ms per code unit. With the default speeds, whatever the cursor options, they total between 18 and 163 ms per code unit. |
| TypeWriter.HiExample | script.js:42-56 | For "Hi." with the defaults, the delays are slow + jitter after `H`, base + jitter after `i` and 1.5 × slow + jitter after `.`. The final frame is "Hi." with a blinking cursor. |

## Left out

- `initTypingAnimations` chains three runs with fixed texts and 500/300 ms pauses. It is sequencing glue with no logic of its own, as are the `DOMContentLoaded` hook, the scroll-reveal `IntersectionObserver` and smooth anchor scrolling. None of them is modelled.
- Timing and the event loop are not modelled. `setTimeout` and promise resolution become a loop that makes one `Run.Type` call per timeout. Elapsed time appears only as the sum of the scheduled timeouts, taken as exact reals.
- `setTimeout` cuts each delay to whole milliseconds and wraps at 2^31 ms; neither is modelled. Real time is bounded below only by the sum of the cut delays, and it has no upper bound, because a busy event loop or a throttled tab can fire a timer arbitrarily late. The 15 ms and 18 ms per-unit lower bounds still hold for the cut delays as long as no delay wraps.
- `Math.random()` is a parameter: one sample in [0, 1) per revealed code unit. `Run.Type` asks for a sample on the completing call too, where it is unused.
- JavaScript numbers are exact reals. IEEE rounding of `slowSpeed * 1.5` and of the jitter is not modelled, and neither are NaN or non-number speeds. Options take only booleans, not other truthy values, and the options argument is `undefined`, `null` or an object, never another primitive. `text` is always a string; a `null` or `undefined` text, which throws at `text.length` after the element has been cleared, is not modelled.
- The DOM is abstracted to a text run plus at most one trailing cursor span. `Display.Element.AppendChild` therefore requires that no cursor is attached; the code only appends after clearing or detaching. Other children, CSS and a cursor moved between elements are not modelled. Two runs sharing one element are not modelled either.
