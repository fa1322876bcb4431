/** The delay `typeWriter` waits after revealing a character (script.js lines 42-56). */
module Pacing {
  import opened Js
  import opened Options

  /** The floor of `Math.max(currentSpeed, 15)`. */
  const MinDelay: real := 15.0

  /** What the regular expression `/[A-Z]/` matches in a one-unit string. */
  predicate IsAsciiUpper(c: CodeUnit) {
    UpperA <= c <= UpperZ
  }

  /** The punctuation after which the pause is half as long again as the slow one. */
  predicate IsPausePunctuation(c: CodeUnit) {
    c == Period || c == Comma || c == Bang
  }

  /** The speed chosen after `i` has been incremented, so the character just
      revealed is `text[i - 1]`. The four classes are disjoint, so each
      character gets the speed of its own class whatever the order of tests. */
  function SpeedAfter(config: Config, text: JsString, i: nat): (speed: real)
    requires 1 <= i <= |text|
    ensures text[i - 1] == Space ==> speed == config.fastSpeed
    ensures IsAsciiUpper(text[i - 1]) ==> speed == config.slowSpeed
    ensures IsPausePunctuation(text[i - 1]) ==> speed == config.slowSpeed * 1.5
    ensures !(text[i - 1] == Space || IsAsciiUpper(text[i - 1]) || IsPausePunctuation(text[i - 1]))
      ==> speed == config.baseSpeed
  {
    var c := text[i - 1];
    if c == Space then config.fastSpeed
    else if i > 0 && IsAsciiUpper(c) then config.slowSpeed
    else if IsPausePunctuation(c) then config.slowSpeed * 1.5
    else config.baseSpeed
  }

  /** `Math.random() * 25 - 12`, for a sample `random` of `Math.random()`. */
  function Jitter(random: real): (jitter: real)
    requires 0.0 <= random < 1.0
    ensures -12.0 <= jitter < 13.0
  {
    random * 25.0 - 12.0
  }

  /** Every jitter in [-12, 13) is drawn by some sample of `Math.random()`:
      together with the bound on `Jitter`, its range is exactly [-12, 13). */
  lemma JitterCovers(jitter: real)
    requires -12.0 <= jitter < 13.0
    ensures exists random :: 0.0 <= random < 1.0 && Jitter(random) == jitter
  {
    var random := (jitter + 12.0) / 25.0;
    assert 0.0 <= random < 1.0 && Jitter(random) == jitter;
  }

  /** The timeout passed to `setTimeout`: the speed plus jitter, but never
      less than 15 ms. */
  function Delay(config: Config, text: JsString, i: nat, random: real): (delay: real)
    requires 1 <= i <= |text|
    requires 0.0 <= random < 1.0
    ensures delay >= MinDelay
    ensures delay >= SpeedAfter(config, text, i) + Jitter(random)
    ensures delay == MinDelay || delay == SpeedAfter(config, text, i) + Jitter(random)
  {
    var currentSpeed := SpeedAfter(config, text, i) + Jitter(random);
    if currentSpeed > MinDelay then currentSpeed else MinDelay
  }

  /** The three speeds are the defaults 60/30/100, whatever the cursor options. */
  predicate HasDefaultSpeeds(config: Config) {
    config.baseSpeed == DefaultBaseSpeed
    && config.fastSpeed == DefaultFastSpeed
    && config.slowSpeed == DefaultSlowSpeed
  }

  /** When every speed is at least 27 ms (the defaults, and the 80/50/40 base
      speeds the page passes), speed plus jitter is never below 15 ms, so the
      clamp never changes the delay. */
  lemma NeverClampsFrom27(config: Config, text: JsString, i: nat, random: real)
    requires 1 <= i <= |text|
    requires 0.0 <= random < 1.0
    requires config.baseSpeed >= 27.0 && config.fastSpeed >= 27.0 && config.slowSpeed >= 27.0
    ensures Delay(config, text, i, random) == SpeedAfter(config, text, i) + Jitter(random)
  {
  }

  /** With the default speeds every delay is the class speed plus jitter,
      between 18 ms (space) and under 163 ms (punctuation). */
  lemma DefaultsNeverClamp(config: Config, text: JsString, i: nat, random: real)
    requires 1 <= i <= |text|
    requires 0.0 <= random < 1.0
    requires HasDefaultSpeeds(config)
    ensures Delay(config, text, i, random) == SpeedAfter(config, text, i) + Jitter(random)
    ensures 18.0 <= Delay(config, text, i, random) < 163.0
  {
    NeverClampsFrom27(config, text, i, random);
  }

  /** With the default speeds the speed after a character pins its class:
      150 ms exactly after `.`, `,` and `!`, 100 ms exactly after `A`-`Z`,
      30 ms exactly after a space, and 60 ms after everything else. */
  lemma DefaultSpeedByCharacter(config: Config, c: CodeUnit)
    requires HasDefaultSpeeds(config)
    ensures SpeedAfter(config, [c], 1) == 150.0 <==> c == 0x2E || c == 0x2C || c == 0x21
    ensures SpeedAfter(config, [c], 1) == 100.0 <==> 0x41 <= c <= 0x5A
    ensures SpeedAfter(config, [c], 1) == 30.0 <==> c == 0x20
    ensures SpeedAfter(config, [c], 1) == 60.0 <==>
              !(c == 0x2E || c == 0x2C || c == 0x21 || 0x41 <= c <= 0x5A || c == 0x20)
  {
  }

  /** The sum of a sequence of timeouts, in ms. */
  function Total(delays: seq<real>): real {
    if delays == [] then 0.0 else Total(delays[..|delays| - 1]) + delays[|delays| - 1]
  }

  /** Timeouts that are each at least `bound` ms sum to at least `bound` ms apiece. */
  lemma {:induction false} TotalAtLeast(delays: seq<real>, bound: real)
    requires forall k :: 0 <= k < |delays| ==> delays[k] >= bound
    ensures Total(delays) >= bound * |delays| as real
  {
    if delays != [] {
      var front := delays[..|delays| - 1];
      assert forall k :: 0 <= k < |front| ==> front[k] == delays[k];
      TotalAtLeast(front, bound);
    }
  }

  /** Timeouts that are each under `bound` ms sum to under `bound` ms apiece. */
  lemma {:induction false} TotalBelow(delays: seq<real>, bound: real)
    requires delays != []
    requires forall k :: 0 <= k < |delays| ==> delays[k] < bound
    ensures Total(delays) < bound * |delays| as real
  {
    var front := delays[..|delays| - 1];
    if front != [] {
      assert forall k :: 0 <= k < |front| ==> front[k] == delays[k];
      TotalBelow(front, bound);
    }
  }
}
