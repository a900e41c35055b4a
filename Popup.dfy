/**
 * The popup: a slider and a reset button bound to the active tab's brightness.
 * It talks to the background only through `runtime.sendMessage`; the answers it
 * gets are inputs here, and every message it sends is kept in a log.
 */
module Popup {
  import opened JsValues
  import opened Protocol

  /** What `sendMessage` resolves with: the response if it is ok, `{ok: false, value: 1}` otherwise. */
  datatype Reply = Reply(ok: bool, value: JsVal)

  const ONE := Number(Finite(1.0))

  /** The normalisation in `sendMessage`; a missing response is `NoResponse`. */
  function ReplyOf(res: Response): (r: Reply)
    ensures r.ok <==> res.OkValue? || res.Ok?
    ensures !r.ok ==> r == Reply(false, ONE)
    ensures res.OkValue? ==> r == Reply(true, Number(Finite(res.value)))
    ensures res.Ok? ==> r == Reply(true, Undefined)
  {
    match res
    case OkValue(v) => Reply(true, Number(Finite(v)))
    case Ok => Reply(true, Undefined)
    case _ => Reply(false, ONE)
  }

  /** `normalize(n)`: 0, NaN and whatever `Number` turns into NaN become 1; everything else is clamped to [0, 2]. */
  function Normalize(n: JsVal): (r: real)
    ensures 0.0 <= r <= 2.0
    ensures ToNumber(n) == Finite(0.0) || ToNumber(n).NaN? ==> r == 1.0
    ensures ToNumber(n).Finite? && ToNumber(n).x != 0.0 ==>
              Finite(r) == Clamp(ToNumber(n), 0.0, 2.0)
    ensures ToNumber(n).PosInfinity? ==> r == 2.0
    ensures ToNumber(n).NegInfinity? ==> r == 0.0
  {
    Clamp(OrElse(ToNumber(n), Finite(1.0)), 0.0, 2.0).x
  }

  /** The percent `setUI(val)` shows: `Math.round(clamp(val, 0, 2) * 100)`. */
  function DisplayPercent(val: real): (p: int)
    ensures 0 <= p <= 200
    ensures 0.0 <= val <= 2.0 ==> val * 100.0 - 0.5 < p as real <= val * 100.0 + 0.5
  {
    Round(Clamp(Finite(val), 0.0, 2.0).x * 100.0)
  }

  /** The label text for a percent, `${percent}%`. */
  function Label(percent: int): (s: string)
    ensures |s| >= 2 && s[|s| - 1] == '%'
  {
    IntToString(percent) + "%"
  }

  /** The value a slider position sends: `clamp(percent / 100, 0, 2)`. */
  function SliderValue(percent: int): (v: real)
    ensures 0.0 <= v <= 2.0
    ensures 0 <= percent <= 200 ==> v * 100.0 == percent as real
    ensures percent < 0 ==> v == 0.0
    ensures percent > 200 ==> v == 2.0
  {
    Clamp(Finite(percent as real / 100.0), 0.0, 2.0).x
  }

  /** An integer percent shown after being divided by 100 is shown unchanged. */
  lemma DisplayPercentOfSlider(p: int)
    requires 0 <= p <= 200
    ensures DisplayPercent(SliderValue(p)) == p
  {
  }

  lemma FullBrightnessDisplay()
    ensures DisplayPercent(1.0) == 100
    ensures Label(100) == "100%"
  {
  }

  /**
   * A stored brightness of 0 is displayed as 100%, because `Number(n) || 1` treats
   * 0 as missing: a re-opened popup never shows 0%, even when the page is fully dark.
   */
  lemma ZeroDisplaysAsFull()
    ensures DisplayPercent(Normalize(Coalesce(ReplyOf(OkValue(0.0)).value, ONE))) == 100
  {
  }

  /**
   * Which listeners `init` got to attach: none yet, none because there is no
   * active tab, none because injection failed, or the slider and reset handlers of `tabId`.
   */
  datatype Phase = Loading | NoTab | Disabled | Active(tabId: int)

  const RESTRICTED_HINT := "This page is restricted by Chrome; extensions cannot modify it."

  /** A `setBrightness` request the popup may send for tab t: a finite value in [0, 2]. */
  predicate IsSliderWrite(m: Message, t: int)
  {
    m.SetBrightness? && m.tabId == t &&
    m.value.Number? && m.value.n.Finite? && 0.0 <= m.value.n.x <= 2.0
  }

  class PopupPage {
    var phase: Phase
    var slider: int            // slider.value, a percent
    var sliderDisabled: bool
    var resetDisabled: bool
    var valueText: string      // the label: the value element's text
    var hint: Option<string>   // the hint element's text, None when the element is absent
    var sent: seq<Message>     // everything sent with runtime.sendMessage, oldest first

    /**
     * Nothing is sent without an active tab; after a failed injection the
     * controls are disabled and nothing but `ensureInjected` was sent; when active,
     * `ensureInjected` and `getBrightness` come first and every later message is
     * a slider write for the same tab.
     */
    ghost predicate Valid()
      reads this
    {
      (phase.Loading? || phase.NoTab? ==> sent == []) &&
      (phase.Disabled? ==> |sent| == 1 && sent[0].EnsureInjected? && sliderDisabled && resetDisabled) &&
      (phase.Active? ==>
        |sent| >= 2 && sent[0] == EnsureInjected(phase.tabId) && sent[1] == GetBrightness(phase.tabId) &&
        forall i :: 2 <= i < |sent| ==> IsSliderWrite(sent[i], phase.tabId))
    }

    /** The page as loaded from its markup, before `init` runs. */
    constructor (slider0: int, valueText0: string, hint0: Option<string>)
      ensures Valid()
      ensures phase == Loading && sent == []
      ensures slider == slider0 && valueText == valueText0 && hint == hint0
      ensures !sliderDisabled && !resetDisabled
    {
      phase := Loading;
      slider := slider0;
      sliderDisabled := false;
      resetDisabled := false;
      valueText := valueText0;
      hint := hint0;
      sent := [];
    }

    /** `setUI(val)`: the slider and the label show the same rounded percent. */
    method SetUI(val: real)
      modifies this`slider, this`valueText
      ensures slider == DisplayPercent(val) && valueText == Label(slider)
      ensures 0 <= slider <= 200
    {
      var percent := Round(Clamp(Finite(val), 0.0, 2.0).x * 100.0);
      slider := percent;
      valueText := Label(percent);
    }

    /**
     * `init`: with the active tab (if any) and the answers the background gives to
     * `ensureInjected` and `getBrightness`.
     */
    method Init(activeTab: Option<int>, injected: Response, current: Response)
      requires Valid() && phase.Loading?
      modifies this
      ensures Valid()
      ensures activeTab.None? ==>
                phase == NoTab && sent == [] &&
                slider == old(slider) && valueText == old(valueText) && hint == old(hint) &&
                sliderDisabled == old(sliderDisabled) && resetDisabled == old(resetDisabled)
      ensures activeTab.Some? && !ReplyOf(injected).ok ==>
                phase == Disabled && sent == [EnsureInjected(activeTab.value)] &&
                sliderDisabled && resetDisabled &&
                hint == (if old(hint).Some? then Some(RESTRICTED_HINT) else None) &&
                slider == old(slider) && valueText == old(valueText)
      ensures activeTab.Some? && ReplyOf(injected).ok ==>
                phase == Active(activeTab.value) &&
                sent == [EnsureInjected(activeTab.value), GetBrightness(activeTab.value)] &&
                slider == DisplayPercent(Normalize(Coalesce(ReplyOf(current).value, ONE))) &&
                valueText == Label(slider) &&
                hint == old(hint) &&
                sliderDisabled == old(sliderDisabled) && resetDisabled == old(resetDisabled)
    {
      if activeTab.None? {
        phase := NoTab;
        return;
      }
      var t := activeTab.value;
      sent := sent + [EnsureInjected(t)];
      var injectedReply := ReplyOf(injected);
      if !injectedReply.ok {
        sliderDisabled := true;
        resetDisabled := true;
        if hint.Some? {
          hint := Some(RESTRICTED_HINT);
        }
        phase := Disabled;
        return;
      }
      sent := sent + [GetBrightness(t)];
      var currentReply := ReplyOf(current);
      var brightness := Normalize(Coalesce(currentReply.value, ONE));
      SetUI(brightness);
      phase := Active(t);
    }

    /** The slider's `input` handler, for the slider's new position `percent`. */
    method Input(percent: int)
      requires Valid()
      modifies this
      ensures Valid()
      ensures phase == old(phase) && hint == old(hint)
      ensures sliderDisabled == old(sliderDisabled) && resetDisabled == old(resetDisabled)
      ensures old(phase).Active? ==>
                slider == percent && valueText == Label(percent) &&
                sent == old(sent) + [SetBrightness(phase.tabId, Number(Finite(SliderValue(percent))))]
      ensures !old(phase).Active? ==> slider == old(slider) && valueText == old(valueText) && sent == old(sent)
    {
      if !phase.Active? {
        return;
      }
      slider := percent;
      valueText := Label(percent);
      var val := SliderValue(percent);
      sent := sent + [SetBrightness(phase.tabId, Number(Finite(val)))];
    }

    /** The reset button's `click` handler: send 1, then show 100%. */
    method Reset()
      requires Valid()
      modifies this
      ensures Valid()
      ensures phase == old(phase) && hint == old(hint)
      ensures sliderDisabled == old(sliderDisabled) && resetDisabled == old(resetDisabled)
      ensures old(phase).Active? ==>
                slider == 100 && valueText == "100%" &&
                sent == old(sent) + [SetBrightness(phase.tabId, ONE)]
      ensures !old(phase).Active? ==> slider == old(slider) && valueText == old(valueText) && sent == old(sent)
    {
      if !phase.Active? {
        return;
      }
      var val := 1.0;
      sent := sent + [SetBrightness(phase.tabId, Number(Finite(val)))];
      SetUI(val);
      FullBrightnessDisplay();
    }
  }
}
