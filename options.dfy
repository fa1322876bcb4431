/** The options object of `typeWriter` and its defaults (script.js lines 2-11). */
module Options {
  import opened Js

  /** The options object as the caller writes it; an absent property is None. */
  datatype TypeWriterOptions = TypeWriterOptions(
    baseSpeed: Option<real>,
    fastSpeed: Option<real>,
    slowSpeed: Option<real>,
    showCursor: Option<bool>,
    removeCursorOnComplete: Option<bool>)

  /** `options = {}`: what a call without options passes. */
  const NoOptions := TypeWriterOptions(None, None, None, None, None)

  /** The options after destructuring with defaults; speeds are milliseconds. */
  datatype Config = Config(
    baseSpeed: real,
    fastSpeed: real,
    slowSpeed: real,
    showCursor: bool,
    removeCursorOnComplete: bool)

  const DefaultBaseSpeed: real := 60.0
  const DefaultFastSpeed: real := 30.0
  const DefaultSlowSpeed: real := 100.0
  const DefaultShowCursor: bool := true
  const DefaultRemoveCursorOnComplete: bool := false

  /** Destructuring `const { baseSpeed = 60, ... } = options`: a default
      replaces a property only when the property is absent. */
  function Resolve(options: TypeWriterOptions): Config {
    Config(
      options.baseSpeed.GetOr(DefaultBaseSpeed),
      options.fastSpeed.GetOr(DefaultFastSpeed),
      options.slowSpeed.GetOr(DefaultSlowSpeed),
      options.showCursor.GetOr(DefaultShowCursor),
      options.removeCursorOnComplete.GetOr(DefaultRemoveCursorOnComplete))
  }

  /** The third argument as the caller passes it: omitted (`undefined`),
      `null`, or an object. */
  datatype OptionsArgument = Undefined | Null | Given(options: TypeWriterOptions)

  /** The parameter default `options = {}` and the destructuring that follows
      it: `undefined` becomes `{}`, while `null` keeps its value and has no
      properties to read, so destructuring it throws a TypeError (None). */
  function Destructure(arg: OptionsArgument): (config: Option<Config>)
    ensures config.None? <==> arg.Null?
    ensures arg.Undefined? ==> config == Some(Resolve(NoOptions))
    ensures arg.Given? ==> config == Some(Resolve(arg.options))
  {
    match arg
    case Undefined => Some(Resolve(NoOptions))
    case Null => None
    case Given(options) => Some(Resolve(options))
  }

  /** A call without options runs at 60/30/100 ms with a cursor that stays. */
  lemma ResolveDefaults()
    ensures Resolve(NoOptions) == Config(60.0, 30.0, 100.0, true, false)
  {
  }

  /** Every property the caller gives is used as given, every absent one
      takes its default, independently of the others. */
  lemma ResolveField(options: TypeWriterOptions)
    ensures options.baseSpeed.Some? ==> Resolve(options).baseSpeed == options.baseSpeed.value
    ensures options.baseSpeed.None? ==> Resolve(options).baseSpeed == 60.0
    ensures options.fastSpeed.Some? ==> Resolve(options).fastSpeed == options.fastSpeed.value
    ensures options.fastSpeed.None? ==> Resolve(options).fastSpeed == 30.0
    ensures options.slowSpeed.Some? ==> Resolve(options).slowSpeed == options.slowSpeed.value
    ensures options.slowSpeed.None? ==> Resolve(options).slowSpeed == 100.0
    ensures options.showCursor.Some? ==> Resolve(options).showCursor == options.showCursor.value
    ensures options.showCursor.None? ==> Resolve(options).showCursor
    ensures options.removeCursorOnComplete.Some? ==>
              Resolve(options).removeCursorOnComplete == options.removeCursorOnComplete.value
    ensures options.removeCursorOnComplete.None? ==> !Resolve(options).removeCursorOnComplete
  {
  }
}
