/**
 * The options of one `$.suiAlert(options)` call and how they are resolved.
 *
 * The plugin combines three layers with jQuery's shallow `$.extend`: the built-in
 * `pluginOptions`, then the page-wide `$.suiAlert.defaults`, then the options of the
 * call. `$.extend` copies every property whose value is not `undefined`, so a later
 * layer wins wherever it supplies a field.
 */
module AlertOptions {
  import opened Wrappers

  /** The value of the `callback` option: `null`, a function, or any other value. */
  datatype CallbackValue = NullCallback | Function(fn: nat) | NotAFunction

  /** The value of the `callbackData` option: `null` or a payload. */
  datatype CallbackData = NullData | Payload(payload: string)

  /** Fully resolved options: every field has a value. */
  datatype Options = Options(
    title: string,
    message: string,
    alertType: string,
    position: string,
    sticky: bool,
    progressBar: bool,
    autoHideDelay: nat,
    theme: string,
    callback: CallbackValue,
    callbackData: CallbackData)

  /** One layer of options as a caller supplies it: any field may be absent. */
  datatype Layer = Layer(
    title: Option<string>,
    message: Option<string>,
    alertType: Option<string>,
    position: Option<string>,
    sticky: Option<bool>,
    progressBar: Option<bool>,
    autoHideDelay: Option<nat>,
    theme: Option<string>,
    callback: Option<CallbackValue>,
    callbackData: Option<CallbackData>)

  /** A layer that supplies nothing (an empty object, or `defaults` never set). */
  const NoOverrides: Layer :=
    Layer(None, None, None, None, None, None, None, None, None, None)

  /** The built-in `pluginOptions`. */
  function BuiltIn(): Options
  {
    Options("Alert", "Your attention is required", "info", "top-center",
            false, true, 5000, "immersive", NullCallback, NullData)
  }

  /** A field after one `$.extend` step: the layer's value when it has one. */
  function Over<T>(layer: Option<T>, base: T): T
  {
    match layer
    case Some(v) => v
    case None => base
  }

  /** `$.extend(base, layer)`: copies each field the layer supplies onto `base`. */
  function Extend(base: Options, l: Layer): (r: Options)
    ensures l == NoOverrides ==> r == base
    ensures l.title.Some? ==> r.title == l.title.value
    ensures l.title.None? ==> r.title == base.title
    ensures l.message.Some? ==> r.message == l.message.value
    ensures l.message.None? ==> r.message == base.message
    ensures l.alertType.Some? ==> r.alertType == l.alertType.value
    ensures l.alertType.None? ==> r.alertType == base.alertType
    ensures l.position.Some? ==> r.position == l.position.value
    ensures l.position.None? ==> r.position == base.position
    ensures l.sticky.Some? ==> r.sticky == l.sticky.value
    ensures l.sticky.None? ==> r.sticky == base.sticky
    ensures l.progressBar.Some? ==> r.progressBar == l.progressBar.value
    ensures l.progressBar.None? ==> r.progressBar == base.progressBar
    ensures l.autoHideDelay.Some? ==> r.autoHideDelay == l.autoHideDelay.value
    ensures l.autoHideDelay.None? ==> r.autoHideDelay == base.autoHideDelay
    ensures l.theme.Some? ==> r.theme == l.theme.value
    ensures l.theme.None? ==> r.theme == base.theme
    ensures l.callback.Some? ==> r.callback == l.callback.value
    ensures l.callback.None? ==> r.callback == base.callback
    ensures l.callbackData.Some? ==> r.callbackData == l.callbackData.value
    ensures l.callbackData.None? ==> r.callbackData == base.callbackData
  {
    Options(
      Over(l.title, base.title),
      Over(l.message, base.message),
      Over(l.alertType, base.alertType),
      Over(l.position, base.position),
      Over(l.sticky, base.sticky),
      Over(l.progressBar, base.progressBar),
      Over(l.autoHideDelay, base.autoHideDelay),
      Over(l.theme, base.theme),
      Over(l.callback, base.callback),
      Over(l.callbackData, base.callbackData))
  }

  /** Three-layer precedence for one field: the call, else the defaults, else the built-in. */
  predicate Precedence<T(==)>(r: T, call: Option<T>, defaults: Option<T>, builtIn: T)
  {
    if call.Some? then r == call.value
    else if defaults.Some? then r == defaults.value
    else r == builtIn
  }

  /** `$.extend({}, pluginOptions, $.suiAlert.defaults, options)`. */
  function Resolve(defaults: Layer, call: Layer): (r: Options)
    ensures Precedence(r.title, call.title, defaults.title, BuiltIn().title)
    ensures Precedence(r.message, call.message, defaults.message, BuiltIn().message)
    ensures Precedence(r.alertType, call.alertType, defaults.alertType, BuiltIn().alertType)
    ensures Precedence(r.position, call.position, defaults.position, BuiltIn().position)
    ensures Precedence(r.sticky, call.sticky, defaults.sticky, BuiltIn().sticky)
    ensures Precedence(r.progressBar, call.progressBar, defaults.progressBar, BuiltIn().progressBar)
    ensures Precedence(r.autoHideDelay, call.autoHideDelay, defaults.autoHideDelay, BuiltIn().autoHideDelay)
    ensures Precedence(r.theme, call.theme, defaults.theme, BuiltIn().theme)
    ensures Precedence(r.callback, call.callback, defaults.callback, BuiltIn().callback)
    ensures Precedence(r.callbackData, call.callbackData, defaults.callbackData, BuiltIn().callbackData)
  {
    Extend(Extend(BuiltIn(), defaults), call)
  }

  /** Two layers stacked into one, the second winning where both supply a field. */
  function Stack(first: Layer, second: Layer): Layer
  {
    Layer(
      if second.title.Some? then second.title else first.title,
      if second.message.Some? then second.message else first.message,
      if second.alertType.Some? then second.alertType else first.alertType,
      if second.position.Some? then second.position else first.position,
      if second.sticky.Some? then second.sticky else first.sticky,
      if second.progressBar.Some? then second.progressBar else first.progressBar,
      if second.autoHideDelay.Some? then second.autoHideDelay else first.autoHideDelay,
      if second.theme.Some? then second.theme else first.theme,
      if second.callback.Some? then second.callback else first.callback,
      if second.callbackData.Some? then second.callbackData else first.callbackData)
  }

  /** Extending by two layers in turn is extending once by their stack. */
  lemma ExtendStack(base: Options, first: Layer, second: Layer)
    ensures Extend(Extend(base, first), second) == Extend(base, Stack(first, second))
  {
  }

  /** Extending twice by the same layer changes nothing the second time. */
  lemma ExtendIdempotent(base: Options, l: Layer)
    ensures Extend(Extend(base, l), l) == Extend(base, l)
  {
  }

  /** With neither page defaults nor call options, every field keeps its built-in value. */
  lemma ResolveWithoutOverrides()
    ensures Resolve(NoOverrides, NoOverrides) == BuiltIn()
  {
  }

  /** A field the call supplies wins over the page defaults, whatever they hold. */
  lemma CallWinsOverDefaults(d1: Layer, d2: Layer, call: Layer)
    ensures call.title.Some? ==> Resolve(d1, call).title == Resolve(d2, call).title == call.title.value
    ensures call.message.Some? ==> Resolve(d1, call).message == Resolve(d2, call).message == call.message.value
    ensures call.alertType.Some? ==> Resolve(d1, call).alertType == Resolve(d2, call).alertType == call.alertType.value
    ensures call.position.Some? ==> Resolve(d1, call).position == Resolve(d2, call).position == call.position.value
    ensures call.sticky.Some? ==> Resolve(d1, call).sticky == Resolve(d2, call).sticky == call.sticky.value
    ensures call.progressBar.Some? ==> Resolve(d1, call).progressBar == Resolve(d2, call).progressBar == call.progressBar.value
    ensures call.autoHideDelay.Some? ==> Resolve(d1, call).autoHideDelay == Resolve(d2, call).autoHideDelay == call.autoHideDelay.value
    ensures call.theme.Some? ==> Resolve(d1, call).theme == Resolve(d2, call).theme == call.theme.value
    ensures call.callback.Some? ==> Resolve(d1, call).callback == Resolve(d2, call).callback == call.callback.value
    ensures call.callbackData.Some? ==> Resolve(d1, call).callbackData == Resolve(d2, call).callbackData == call.callbackData.value
  {
  }

  /** A call that supplies every field is resolved the same under any page defaults. */
  lemma FullCallIgnoresDefaults(d1: Layer, d2: Layer, call: Layer)
    requires call.title.Some?
    requires call.message.Some?
    requires call.alertType.Some?
    requires call.position.Some?
    requires call.sticky.Some?
    requires call.progressBar.Some?
    requires call.autoHideDelay.Some?
    requires call.theme.Some?
    requires call.callback.Some?
    requires call.callbackData.Some?
    ensures Resolve(d1, call) == Resolve(d2, call)
  {
  }

  /** The page defaults and the call act as one layer, stacked, over the built-ins:
      `$.extend` applied source by source. */
  lemma ResolveAsOneLayer(defaults: Layer, call: Layer)
    ensures Resolve(defaults, call) == Extend(BuiltIn(), Stack(defaults, call))
  {
    ExtendStack(BuiltIn(), defaults, call);
  }

  /** Repeating the page defaults in the call changes nothing. */
  lemma CallRepeatingDefaults(defaults: Layer)
    ensures Resolve(defaults, defaults) == Resolve(defaults, NoOverrides)
  {
    ExtendIdempotent(BuiltIn(), defaults);
  }

  /** One invocation of the completion callback: which function, with which argument. */
  datatype Call = Call(fn: nat, arg: Option<string>)

  /**
   * The callback invocations a `$.suiAlert` call makes: one when `callback` is a
   * function, none otherwise; it passes `callbackData` exactly when that is not `null`.
   */
  function CallbackCalls(o: Options): (calls: seq<Call>)
    ensures |calls| == (if o.callback.Function? then 1 else 0)
    ensures forall c | c in calls :: o.callback == Function(c.fn)
    ensures forall c | c in calls :: c.arg.Some? <==> o.callbackData != NullData
    ensures forall c | c in calls && c.arg.Some? :: o.callbackData == Payload(c.arg.value)
  {
    match o.callback
    case Function(fn) =>
      if o.callbackData != NullData then [Call(fn, Some(o.callbackData.payload))]
      else [Call(fn, None)]
    case _ => []
  }
}
