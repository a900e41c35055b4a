/**
 * How the three surfaces agree, and where they do not: the value the
 * background stores, the value it pushes to the page, and what the popup
 * shows the next time it opens.
 */
module EndToEnd {
  import opened JsValues
  import opened Protocol
  import opened Background
  import opened Popup
  import opened Content

  /** For any value that is not NaN after `Number`, the pushed value renders as exactly what the table reads back. */
  lemma PushAgreesWithTable(area: map<string, JsVal>, t: int, value: JsVal)
    requires !ToNumber(value).NaN?
    ensures RenderedBrightness(Number(StoredNumber(value))) ==
            BrightnessOf(area[Key(t) := Number(StoredNumber(value))], t)
  {
  }

  /**
   * A value that `Number` turns into NaN is stored and pushed as NaN: the
   * background then reads 1 for the tab while the page renders 0.
   */
  lemma NaNWriteDiverges(area: map<string, JsVal>, t: int, value: JsVal)
    requires ToNumber(value).NaN?
    ensures BrightnessOf(area[Key(t) := Number(StoredNumber(value))], t) == 1.0
    ensures RenderedBrightness(Number(StoredNumber(value))) == 0.0
  {
  }

  /**
   * A slider position p written by the popup is what the page renders and what
   * a re-opened popup shows, except p = 0: the page goes dark but the popup shows 100%.
   */
  lemma SliderRoundTrip(area: map<string, JsVal>, t: int, p: int)
    requires 0 <= p <= 200
    ensures var written := Number(Finite(SliderValue(p)));
      var after := area[Key(t) := Number(StoredNumber(written))];
      var shown := DisplayPercent(Normalize(Coalesce(ReplyOf(OkValue(BrightnessOf(after, t))).value, ONE)));
      RenderedBrightness(Number(StoredNumber(written))) == SliderValue(p) &&
      BrightnessOf(after, t) == SliderValue(p) &&
      shown == (if p == 0 then 100 else p)
  {
  }

  /**
   * Opening the popup on tab t: `ensureInjected`, then, only when that succeeded,
   * `getBrightness`, both answered by the background. The popup shows the tab's stored brightness,
   * or is disabled when injection fails; the table is only read.
   */
  method OpenPopup(store: BrightnessStore, t: int, injection: Injection) returns (popup: PopupPage)
    requires store.Valid()
    modifies store
    ensures fresh(popup) && popup.Valid()
    ensures store.Valid() && store.area == old(store.area) && store.pushes == old(store.pushes)
    ensures injection.Injected? ==>
              popup.phase == Active(t) &&
              popup.slider == DisplayPercent(Normalize(Number(Finite(BrightnessOf(store.area, t)))))
    ensures injection.InjectionFailed? ==>
              popup.phase == Disabled && popup.sliderDisabled && popup.resetDisabled
  {
    popup := new PopupPage(100, "100%", Some(""));
    var injected := Dispatch(store, EnsureInjected(t), None, injection);
    var current := NoResponse;
    if ReplyOf(injected).ok {
      // `getBrightness` is sent only after a successful injection.
      current := Dispatch(store, GetBrightness(t), None, injection);
    }
    popup.Init(Some(t), injected, current);
  }

  /**
   * A popup write carried through: the background stores it and pushes it to
   * the tab's page, which renders the pushed number.
   */
  method WriteThrough(store: BrightnessStore, page: Page, m: Message)
    requires store.Valid() && page.Valid() && m.SetBrightness?
    modifies store, page
    ensures store.Valid() && page.Valid()
    ensures store.area == old(store.area)[Key(m.tabId) := Number(StoredNumber(m.value))]
    ensures page.brightness == Some(RenderedBrightness(Number(StoredNumber(m.value))))
    ensures page.styleElements == old(page.styleElements)
  {
    var ack := Dispatch(store, m, None, Injected);
    page.OnMessage(store.pushes[|store.pushes| - 1].message);
  }

  /**
   * One tab's life: the popup opens on an injectable page with no stored value,
   * the slider moves to 40, reset is clicked, the tab is closed, and a new tab
   * that gets the same id is opened.
   */
  method TabLifecycle(t: int) returns (shownAtOpen: int, renderedAt40: real, shownAfterReset: int,
                                       renderedAfterReset: real, reopened: int)
    ensures shownAtOpen == 100
    ensures renderedAt40 == 0.4
    ensures shownAfterReset == 100 && renderedAfterReset == 1.0
    ensures reopened == 100
  {
    var store := new BrightnessStore();
    var page := new Page();
    var popup := OpenPopup(store, t, Injected);
    shownAtOpen := popup.slider;

    popup.Input(40);
    WriteThrough(store, page, popup.sent[|popup.sent| - 1]);
    renderedAt40 := page.brightness.value;

    popup.Reset();
    WriteThrough(store, page, popup.sent[|popup.sent| - 1]);
    shownAfterReset := popup.slider;
    renderedAfterReset := page.brightness.value;

    store.RemoveTab(t);
    var popupAgain := OpenPopup(store, t, Injected);
    reopened := popupAgain.slider;
  }

  /**
   * Closing a tab that is still dimmed: the slider moves to 40, the tab is closed
   * without a reset, and a new tab that gets the same id opens at 100% again.
   */
  method CloseWhileDimmed(t: int) returns (renderedAt40: real, reopened: int)
    ensures renderedAt40 == 0.4
    ensures reopened == 100
  {
    var store := new BrightnessStore();
    var page := new Page();
    var popup := OpenPopup(store, t, Injected);

    popup.Input(40);
    WriteThrough(store, page, popup.sent[|popup.sent| - 1]);
    renderedAt40 := page.brightness.value;

    store.RemoveTab(t);
    var popupAgain := OpenPopup(store, t, Injected);
    reopened := popupAgain.slider;
  }
}
