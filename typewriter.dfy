/** `typeWriter(element, text, options)` (script.js lines 2-72): reveals
    `text` into `element` one code unit per tick, with an optional trailing
    cursor, and completes once every code unit is shown. */
module TypeWriter {
  import opened Js
  import opened Options
  import opened Pacing
  import opened Display

  /** What one call of the inner `type` function does: schedule the next call
      after `delay` ms, or resolve the promise. */
  datatype Tick = Scheduled(delay: real) | Completed

  /** The cursor a run shows: the bar glyph, blinking once the run is done. */
  function CursorAt(done: bool): CursorLook {
    CursorLook([Bar], if done then {TypingCursorClass, CursorBlinkClass} else {TypingCursorClass})
  }

  /** What the element shows after `i` reveals, before (`done` false) or
      after (`done` true) the completion step. */
  function Frame(text: JsString, config: Config, i: nat, done: bool): Shown
    requires i <= |text|
  {
    Shown(text[..i],
      if !config.showCursor || (done && config.removeCursorOnComplete) then None
      else Some(CursorAt(done)))
  }

  /** The state of one animation: the variables the closure of `type` captures. */
  class Run {
    const element: Element
    const text: JsString
    const config: Config
    const cursor: Cursor?      // the cursor span, created only with showCursor
    var i: nat                 // how many code units are revealed
    var resolved: bool         // whether the promise has been resolved

    ghost predicate Valid()
      reads this, element, cursor
    {
      && i <= |text|
      && (cursor != null <==> config.showCursor)
      && (element.cursor == null || element.cursor == cursor)
      && element.View() == Frame(text, config, i, resolved)
      && (resolved ==> i == |text|)
    }

    /** Lines 13-26: clear the element and, with showCursor, append a new
        cursor span holding `|`. */
    constructor Start(element: Element, text: JsString, config: Config)
      modifies element
      ensures this.element == element && this.text == text && this.config == config
      ensures i == 0 && !resolved && Valid()
      ensures cursor != null ==> fresh(cursor)
    {
      this.element := element;
      this.text := text;
      this.config := config;
      i := 0;
      resolved := false;
      element.SetTextContent([]);
      var c: Cursor? := null;
      if config.showCursor {
        c := new Cursor();
        c.classes := {TypingCursorClass};
        c.glyph := [Bar];
        element.AppendChild(c);
      }
      cursor := c;
    }

    /** Lines 28-68, one call of `type`, where `random` is the value
        `Math.random()` returns in that call. Before the end it reveals
        `text[i]` and schedules the next call; at the end it removes the
        cursor or makes it blink and resolves. */
    method Type(random: real) returns (next: Tick)
      requires Valid() && !resolved
      requires 0.0 <= random < 1.0
      modifies this, element, cursor
      ensures Valid()
      ensures old(i) < |text| ==>
                i == old(i) + 1 && !resolved && next == Scheduled(Delay(config, text, i, random))
      ensures old(i) < |text| ==> element.content == old(element.content) + [text[old(i)]]
      ensures old(i) == |text| ==> i == old(i) && resolved && next == Completed
    {
      if i < |text| {
        if cursor != null {
          element.RemoveChild(cursor);
        }
        element.SetTextContent(AppendText(element.View(), text[i]).content);
        if cursor != null {
          element.AppendChild(cursor);
        }
        i := i + 1;
        next := Scheduled(Delay(config, text, i, random));
      } else {
        if cursor != null {
          if config.removeCursorOnComplete {
            element.RemoveChild(cursor);
          } else {
            cursor.AddClass(CursorBlinkClass);
            assert cursor.classes == {TypingCursorClass, CursorBlinkClass};
          }
        }
        resolved := true;
        next := Completed;
      }
    }
  }

  /** The whole animation. `random[k]` is the `Math.random()` sample drawn
      after revealing `text[k]`; the recursion through `setTimeout` is the
      loop, and `delays` are the timeouts it schedules, in order. A missing
      element completes at once with no effect; otherwise `null` options
      throw (`threw`) before anything is changed. */
  method TypeWriter(element: Element?, text: JsString, options: OptionsArgument, random: seq<real>)
    returns (threw: bool, run: Run?, delays: seq<real>)
    requires |random| >= |text|
    requires forall k :: 0 <= k < |random| ==> 0.0 <= random[k] < 1.0
    modifies element
    ensures threw <==> element != null && options.Null?
    ensures run == null <==> element == null || threw
    ensures run == null ==> delays == []
    ensures threw ==> element != null && unchanged(element)
    ensures run != null ==> element != null && run.element == element && run.text == text
    ensures run != null ==> Destructure(options) == Some(run.config) && run.Valid()
    ensures run != null ==> run.resolved && run.i == |text|
    ensures run != null ==> element.View() == Frame(text, run.config, |text|, true)
    ensures run != null ==> |delays| == |text|
    ensures run != null ==> forall k :: 0 <= k < |text| ==>
              delays[k] == Delay(run.config, text, k + 1, random[k]) && delays[k] >= MinDelay
  {
    if element == null {
      return false, null, [];
    }
    if options.Null? {
      return true, null, [];
    }
    threw := false;
    var config := Destructure(options).value;
    run := new Run.Start(element, text, config);
    delays := [];
    var tick := run.Type(if |text| > 0 then random[0] else 0.0);
    while tick.Scheduled?
      invariant run.element == element && run.text == text && run.config == config
      invariant run.Valid()
      invariant tick.Scheduled? ==> !run.resolved && 1 <= run.i <= |text|
      invariant tick.Scheduled? ==> tick == Scheduled(Delay(config, text, run.i, random[run.i - 1]))
      invariant tick.Scheduled? ==> |delays| == run.i - 1
      invariant tick.Completed? ==> run.resolved && |delays| == |text|
      invariant forall k :: 0 <= k < |delays| ==> delays[k] == Delay(config, text, k + 1, random[k])
      invariant run.cursor != null ==> fresh(run.cursor)
      decreases |text| - run.i, tick.Scheduled?
    {
      delays := delays + [tick.delay];
      tick := run.Type(if run.i < |text| then random[run.i] else 0.0);
    }
  }

  /** The revealed text only grows: after `i` reveals it is the first `i`
      code units of `text`, and it is a prefix of every later frame. */
  lemma RevealedIsPrefix(text: JsString, config: Config, i: nat, j: nat, done: bool)
    requires i <= j <= |text|
    ensures |Frame(text, config, i, false).content| == i
    ensures Frame(text, config, i, false).content <= Frame(text, config, j, done).content
    ensures Frame(text, config, i, false).content <= text
  {
  }

  /** With showCursor, until completion the cursor is the last child: the
      element's textContent is the revealed text followed by one bar. */
  lemma CursorTrailsText(text: JsString, config: Config, i: nat)
    requires i <= |text| && config.showCursor
    ensures TextContent(Frame(text, config, i, false)) == text[..i] + [Bar]
    ensures Frame(text, config, i, false).cursor == Some(CursorLook([Bar], {TypingCursorClass}))
  {
  }

  /** Without showCursor no cursor is ever shown. */
  lemma NoCursorWithoutShowCursor(text: JsString, config: Config, i: nat, done: bool)
    requires i <= |text| && !config.showCursor
    ensures Frame(text, config, i, done).cursor.None?
    ensures TextContent(Frame(text, config, i, done)) == text[..i]
  {
  }

  /** What completion leaves, for each combination of the two cursor options:
      the whole text, and a cursor that is gone or blinking. */
  lemma CompletionByOptions(text: JsString, config: Config)
    ensures Frame(text, config, |text|, true).content == text
    ensures config.showCursor && config.removeCursorOnComplete ==>
              Frame(text, config, |text|, true).cursor.None?
    ensures config.showCursor && !config.removeCursorOnComplete ==>
              Frame(text, config, |text|, true).cursor
                == Some(CursorLook([Bar], {TypingCursorClass, CursorBlinkClass}))
    ensures !config.showCursor ==> Frame(text, config, |text|, true).cursor.None?
  {
  }

  /** The timeouts a run over `text` schedules total at least 15 ms per code
      unit, and with the default speeds between 18 ms and 163 ms per code
      unit. */
  lemma RunDuration(config: Config, text: JsString, random: seq<real>, delays: seq<real>)
    requires |random| >= |text| && |delays| == |text|
    requires forall k :: 0 <= k < |random| ==> 0.0 <= random[k] < 1.0
    requires forall k :: 0 <= k < |text| ==> delays[k] == Delay(config, text, k + 1, random[k])
    ensures Total(delays) >= MinDelay * |text| as real
    ensures HasDefaultSpeeds(config) ==>
              18.0 * |text| as real <= Total(delays)
              && (text != [] ==> Total(delays) < 163.0 * |text| as real)
  {
    TotalAtLeast(delays, MinDelay);
    if HasDefaultSpeeds(config) {
      forall k | 0 <= k < |text|
        ensures 18.0 <= delays[k] < 163.0
      {
        DefaultsNeverClamp(config, text, k + 1, random[k]);
      }
      TotalAtLeast(delays, 18.0);
      if text != [] {
        TotalBelow(delays, 163.0);
      }
    }
  }

  /** `typeWriter(el, "Hi.")` with the defaults: after "H" it waits the slow
      speed, after "i" the base speed, after "." the slow speed times 1.5,
      each plus jitter; three timeouts, then completion. */
  lemma HiExample(random: seq<real>)
    requires |random| == 3
    requires forall k :: 0 <= k < 3 ==> 0.0 <= random[k] < 1.0
    ensures var hi: JsString := [0x48, 0x69, Period];
            && Delay(Resolve(NoOptions), hi, 1, random[0]) == 100.0 + Jitter(random[0])
            && Delay(Resolve(NoOptions), hi, 2, random[1]) == 60.0 + Jitter(random[1])
            && Delay(Resolve(NoOptions), hi, 3, random[2]) == 150.0 + Jitter(random[2])
            && Frame(hi, Resolve(NoOptions), 1, false).content == [0x48]
            && Frame(hi, Resolve(NoOptions), 3, true) == Shown(hi, Some(CursorAt(true)))
  {
  }
}
