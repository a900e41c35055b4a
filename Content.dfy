/**
 * The content script: one style rule ties the page's brightness filter to a CSS
 * variable, and every value it receives is written into that variable. The
 * browser re-runs the script on every injection into the same page, so the
 * page state outlives a single run.
 */
module Content {
  import opened JsValues
  import opened Protocol

  /**
   * The brightness `applyBrightness(value)` writes: `Math.max(0, Math.min(2, Number(value) || 0))`.
   * Numbers in range pass unchanged; 0, NaN and whatever `Number` turns into NaN give 0.
   */
  function RenderedBrightness(value: JsVal): (r: real)
    ensures 0.0 <= r <= 2.0
    ensures ToNumber(value).Finite? && 0.0 <= ToNumber(value).x <= 2.0 ==> r == ToNumber(value).x
    ensures ToNumber(value).Finite? && ToNumber(value).x > 2.0 ==> r == 2.0
    ensures ToNumber(value).Finite? && ToNumber(value).x < 0.0 ==> r == 0.0
    ensures ToNumber(value).NaN? ==> r == 0.0
    ensures ToNumber(value).PosInfinity? ==> r == 2.0
    ensures ToNumber(value).NegInfinity? ==> r == 0.0
  {
    Clamp(OrElse(ToNumber(value), Finite(0.0)), 0.0, 2.0).x
  }

  /** What the startup callback applies: `Number(res.value)` for an ok reply, 1 otherwise. */
  function StartupValue(res: Response): (v: JsVal)
    ensures res.OkValue? ==> v == Number(Finite(res.value))
    ensures res.Ok? ==> ToNumber(v).NaN?
    ensures !res.OkValue? && !res.Ok? ==> v == Number(Finite(1.0))
  {
    match res
    case OkValue(x) => Number(Finite(x))
    case Ok => Number(ToNumber(Undefined))
    case _ => Number(Finite(1.0))
  }

  /** The startup brightness: the background's value, or 1 when the request failed. */
  lemma StartupBrightness(res: Response)
    ensures res.OkValue? && 0.0 <= res.value <= 2.0 ==> RenderedBrightness(StartupValue(res)) == res.value
    ensures res.Err? || res.NoResponse? ==> RenderedBrightness(StartupValue(res)) == 1.0
    ensures res.Ok? ==> RenderedBrightness(StartupValue(res)) == 0.0
  {
  }

  /** The parts of the page the script touches. */
  class Page {
    var styleElements: nat       // elements with id `browser-dimmer-style`
    var brightness: Option<real> // `--browser-dimmer-brightness` on the root element; None while unset

    ghost predicate Valid()
      reads this
    {
      styleElements <= 1 &&
      (brightness.Some? ==> 0.0 <= brightness.value <= 2.0)
    }

    /** A page the script has not run in yet. */
    constructor ()
      ensures Valid()
      ensures styleElements == 0 && brightness == None
    {
      styleElements := 0;
      brightness := None;
    }

    /** `ensureStyleInjected()`: adds the style element only when none exists, so any number of calls leaves exactly one. */
    method EnsureStyleInjected()
      requires Valid()
      modifies this`styleElements
      ensures Valid()
      ensures styleElements == 1
    {
      if styleElements > 0 {
        return;
      }
      styleElements := styleElements + 1;
    }

    /** `applyBrightness(value)`: the variable afterwards depends on `value` alone, so applying twice is applying once. */
    method ApplyBrightness(value: JsVal)
      requires Valid()
      modifies this`brightness
      ensures Valid()
      ensures brightness == Some(RenderedBrightness(value))
    {
      var v := Clamp(OrElse(ToNumber(value), Finite(0.0)), 0.0, 2.0);
      brightness := Some(v.x);
    }

    /** `init` with the background's reply to `content_request_brightness`. */
    method Startup(res: Response)
      requires Valid()
      modifies this
      ensures Valid()
      ensures styleElements == 1
      ensures brightness == Some(RenderedBrightness(StartupValue(res)))
    {
      EnsureStyleInjected();
      var value := if res.OkValue? then Number(Finite(res.value))
                   else if res.Ok? then Number(ToNumber(Undefined))
                   else Number(Finite(1.0));
      ApplyBrightness(value);
    }

    /** The `runtime.onMessage` listener: only an object whose `type` is `applyBrightness` changes the page. */
    method OnMessage(message: TabMessage)
      requires Valid()
      modifies this
      ensures Valid()
      ensures styleElements == old(styleElements)
      ensures message.ApplyBrightness? ==> brightness == Some(RenderedBrightness(message.value))
      ensures !message.ApplyBrightness? ==> brightness == old(brightness)
    {
      match message
      case NotAnObject =>
      case ApplyBrightness(value) =>
        ApplyBrightness(value);
      case OtherType =>
    }
  }
}
