# Browser Dimmer, modelled in Dafny

Browser Dimmer is a browser extension that dims or brightens each tab on its
own. It has three parts:

- The background service worker keeps a table in session storage. The table maps
  the key `b:<tabId>` to that tab's brightness. The worker answers the popup and
  the content script, pushes every new value to the tab, and drops a tab's entry
  when the tab closes.
- The popup shows a slider and a reset button for the active tab.
- The content script ties a CSS `brightness()` filter on the page to the
  variable `--browser-dimmer-brightness` and writes every value it receives
  into that variable.

This project models that bookkeeping:

- `JsValues` holds the JavaScript value semantics the code depends on: NaN and
  the infinities, `Number(...)`, `Math.min`/`Math.max`/`Math.round`, `||`, `??`,
  and how integers print.
- `Protocol` holds the message shapes.
- `Background` holds the storage table as a class with a `map` field, the
  dispatcher (a pure routing choice plus the step that carries it out), and the
  URL classifier.
- `Popup` holds the popup as a class with its controls, its phase and a log of
  the messages it sent.
- `Content` holds the page as a class: the count of style elements and the
  brightness variable.
- `EndToEnd` relates the three parts.

The model keeps the code's inconsistent handling of bad input:

- The background's read side turns a missing, non-number, NaN or infinite entry
  into 1.
- The background's write side stores NaN, because `Math.max`/`Math.min` pass it
  through.
- The content script renders 0 and NaN as 0.
- The popup shows 0 and NaN as 100%.

Things the code does that a reader might not expect:

- The code keeps no per-tab "restricted" table. Whether a page is restricted is
  computed again from the tab's URL each time the icon is drawn.
- A value that `Number()` turns into NaN is stored as NaN, not 0. It then reads
  back as 1 and renders as 0. Values that `Number()` turns into numbers, such as
  `null` (0), `true` (1) or numeric strings, are clamped and stored like numbers.
- `getBrightness` with a tab id that does not convert to a number does not fail.
  It reads the key `b:NaN`. The model's tab ids are integers, so this case does
  not arise in it.

The storage table is keyed by strings, as in the code. `Background.KeyInjective`
proves that two tabs never share a key. The "other tabs are unchanged" facts
follow from that lemma.

## Model

| member | source | states |
|---|---|---|
| `JsValues.Clamp` | popup.js:46 | `Math.max(lo, Math.min(hi, n))`: NaN stays NaN. Any other number, infinities included, lands in [lo, hi]. A number already in range is returned unchanged. Below-range values go to lo and above-range values go to hi. |
| `JsValues.ToNumber` | background.js:23 | `Number(v)`: a number is returned as it is, `undefined` gives NaN and `null` gives 0. Any other value gives the coercion it carries. |
| `JsValues.Min` | background.js:23 | `Math.min(a, b)`: NaN exactly when either argument is NaN. Otherwise it is one of the two arguments and no larger than either. |
| `JsValues.Max` | background.js:23 | `Math.max(a, b)`: NaN exactly when either argument is NaN. Otherwise it is one of the two arguments and no smaller than either. |
| `JsValues.OrElse` | content.js:33 | `n || fallback` on a number: 0 and NaN give the fallback. Every other number is returned unchanged. |
| `JsValues.Coalesce` | popup.js:23 | `v ?? fallback`: `undefined` and `null` give the fallback. Every other value is returned unchanged. |
| `JsValues.Round` | popup.js:40 | `Math.round(x)`: the integer k with x - 1/2 < k <= x + 1/2, so halves round up. |
| `JsValues.IntToString` | background.js:9 | `${i}` for an integer: a non-empty string that starts with `-` exactly when i < 0. All other characters are decimal digits. |
| `JsValues.IntToStringInjective` | background.js:8-10 | Two integers print to the same decimal text exactly when they are equal. |
| `JsValues.NatToStringInjective` | background.js:8-10 | Decimal printing of naturals is injective. Proved by induction on the digits. |
| `Background.Key` | background.js:8-10 | The storage key of a tab starts with `b:`. |
| `Background.KeyInjective` | background.js:8-10 | `b:<t>` and `b:<u>` are the same key exactly when t = u. |
| `Background.BrightnessOf` | background.js:12-19 | The brightness read for a tab is always in [0, 2]. It is 1 when the entry is absent, not a number, NaN or infinite. Otherwise it is the entry clamped to [0, 2]. |
| `Background.StoredNumber` | background.js:23 | The number a write stores is NaN exactly when `Number(value)` is NaN. Otherwise it is a finite number in [0, 2]. An in-range value is stored unchanged. |
| `Background.WriteThenRead` | background.js:12-24 | Write then read gives clamp(x) for a finite x, 2 for +Infinity and 0 for -Infinity. A value that `Number` makes NaN reads back as 1, not 0. |
| `Background.WriteKeepsOtherTabs` | background.js:21-24 | Writing tab t's entry leaves every other tab's brightness unchanged. |
| `Background.EvictResets` | background.js:35-42 | After tab t's entry is removed, t reads 1 and every other tab reads as before. Removing an absent key leaves the table as it was. |
| `Background.ReadOfStoredBrightness` | background.js:17-23 | On an entry written by `setBrightness`, the read returns exactly the stored number. A stored NaN reads as 1. |
| `Background.BrightnessStore.constructor` | background.js:3-6 | The session table starts empty, with no pushes sent. |
| `Background.BrightnessStore.GetBrightness` | background.js:12-19 | Returns `BrightnessOf` for the tab, a value in [0, 2]. It changes nothing. On a table that holds only what `setBrightness` writes, it returns the stored number itself, or 1 when NaN is stored. |
| `Background.BrightnessStore.SetBrightness` | background.js:21-32 | Only key `b:<tabId>` is written, with the clamped number. Exactly one `applyBrightness` push goes to the same tab with the same number. Delivery failure does not undo the write. Every entry keeps the shape "number in [0, 2] or NaN". |
| `Background.BrightnessStore.RemoveTab` | background.js:35-42 | The table afterwards is the old table without key `b:<tabId>`. No push is sent. |
| `Background.Route` | background.js:45-115 | Unknown messages, and only those, are ignored. Only `setBrightness` leads to a write. `getBrightness` replies with the payload tab's value. `ensureInjected` replies with the value exactly when injection succeeded and otherwise with the injection's error. `content_request_brightness` uses the sender's tab id and fails with `No tab id in sender` exactly when there is none. |
| `Background.Dispatch` | background.js:45-115 | The responses are `{ok:true, value}` with the current brightness, `{ok:true}` after a write, `{ok:false, error}`, or no response for unknown messages. Every message except `setBrightness` leaves the table and the push log unchanged. In particular a failed injection writes nothing. |
| `Background.IsRestrictedUrl` | background.js:121-132 | True exactly for a parsed URL whose protocol is `chrome:`, `chrome-extension:` or `chrome-devtools:`, or whose hostname is `chrome.google.com` or `chromewebstore.google.com`. False for an empty or unparseable URL. |
| `Popup.ReplyOf` | popup.js:57-63 | An ok response passes through with its value. A missing or non-ok response becomes `{ok:false, value:1}`. |
| `Popup.Normalize` | popup.js:47 | 0, NaN and whatever `Number` makes NaN give 1. Other values are clamped to [0, 2]. The result is always in [0, 2]. |
| `Popup.DisplayPercent` | popup.js:40 | The percent shown is an integer in [0, 200]. For a value in [0, 2] it lies within one half of value·100. |
| `Popup.Label` | popup.js:42 | The label text ends in `%`. |
| `Popup.SliderValue` | popup.js:29 | A slider position p in [0, 200] sends p/100. Positions outside that range send 0 or 2. |
| `Popup.DisplayPercentOfSlider` | popup.js:26-43 | A slider position p in [0, 200], sent as p/100 and shown again, is shown as p. |
| `Popup.FullBrightnessDisplay` | popup.js:33-37 | Brightness 1 is shown as slider 100 with label `100%`. |
| `Popup.ZeroDisplaysAsFull` | popup.js:47 | A stored brightness of 0, received as `{ok:true, value:0}`, is shown as 100%. |
| `Popup.PopupPage.constructor` | popup.js:2-5 | The popup starts before `init`, with nothing sent and its controls enabled. |
| `Popup.PopupPage.SetUI` | popup.js:39-43 | The slider and the label show the same integer, `DisplayPercent(val)`, which lies in [0, 200]. |
| `Popup.PopupPage.Init` | popup.js:7-24 | With no active tab, nothing is sent and nothing changes. If `ensureInjected` is not ok, only that message was sent, both controls are disabled and the hint (if present) shows the restriction text. Otherwise `ensureInjected` and `getBrightness` are sent and the slider shows the normalised value. The invariant holds afterwards: no `setBrightness` is ever sent outside the active phase, and every write targets the popup's tab with a value in [0, 2]. |
| `Popup.PopupPage.Input` | popup.js:26-31 | When active: the label becomes `percent%` and exactly one `setBrightness` is sent, for the popup's tab, with `clamp(percent/100, 0, 2)`. When not active, nothing happens. |
| `Popup.PopupPage.Reset` | popup.js:33-37 | When active: `setBrightness` with value 1 is sent, then the popup shows 100%. When not active, nothing happens. |
| `Content.RenderedBrightness` | content.js:32-35 | The rendered brightness is always in [0, 2]. In-range values pass unchanged. Values above 2 give 2 and values below 0 give 0. NaN, and anything `Number` makes NaN, give 0. |
| `Content.StartupValue` | content.js:8-14 | An ok reply's value is applied. A reply without a value applies NaN. A failed or missing reply applies 1. |
| `Content.StartupBrightness` | content.js:8-14 | At startup the page renders the background's value. It renders 1 when the request failed and 0 when the reply had no value. |
| `Content.Page.constructor` | content.js:20-21 | A page the script has not run in has no style element and no brightness variable. |
| `Content.Page.EnsureStyleInjected` | content.js:20-30 | After any number of calls there is exactly one style element. |
| `Content.Page.ApplyBrightness` | content.js:32-35 | The variable becomes `RenderedBrightness(value)`. It does not depend on the previous state, so applying a value twice is the same as applying it once. |
| `Content.Page.Startup` | content.js:4-18 | After startup there is one style element and the brightness from the background's reply. |
| `Content.Page.OnMessage` | content.js:37-42 | Only an `applyBrightness` object changes the page. Non-objects and other types leave it as it was. |
| `EndToEnd.PushAgreesWithTable` | background.js:21-27 | For every value that does not become NaN, the page renders the pushed number. That is exactly what the background reads back for the tab. |
| `EndToEnd.NaNWriteDiverges` | background.js:17-27 | A value that becomes NaN splits the two sides: the background reads 1 while the page renders 0. |
| `EndToEnd.SliderRoundTrip` | popup.js:22-31 | A slider position p is rendered as p/100 and read back as p/100. A re-opened popup shows it as p, except that p = 0 is shown as 100%. |
| `EndToEnd.OpenPopup` | popup.js:7-24 | Opening the popup only reads the table. `getBrightness` is asked only after a successful injection. The popup shows the tab's stored brightness, or disables the controls when injection fails. |
| `EndToEnd.WriteThrough` | background.js:21-32 | A popup write is stored, and the page renders the pushed value. |
| `EndToEnd.TabLifecycle` | popup.js:7-37 | This is one tab's lifecycle. A fresh tab opens at 100%. Moving the slider to 40 renders 0.4. Reset shows 100% and renders 1. After the tab closes, a new tab with the same id opens at 100% again. |
| `EndToEnd.CloseWhileDimmed` | background.js:35-42 | A tab dimmed to 40% and then closed without a reset reopens at 100% under the same id. Only the eviction of its entry makes this hold. |

## Left out

- Browser APIs are not modelled: storage areas, `scripting.executeScript`, `tabs.query`/`get`/`sendMessage`, `runtime.sendMessage` and `action.setIcon`. The storage area is a `map` field. The active tab, the injection outcome and the background's replies are parameters. Pushes are recorded in a log.
- The `chrome.storage.session || chrome.storage.local` choice (background.js:6) is not modelled. Both areas behave alike here.
- Exceptions thrown by storage reads and writes are not modelled. Such an exception would send `{ok:false, error}` from `getBrightness`, `setBrightness` or `content_request_brightness`. Only the injection failure of `ensureInjected` is modelled.
- How the host serialises a stored NaN is not modelled. Whether it keeps NaN or turns it into `null`, the read side returns 1.
- async/await and interleaving are not modelled. Each handler runs as one atomic step.
- The failure path's `updateIconForTab` call (background.js:61) is not modelled. A successful `ensureInjected` never calls it, so the dispatcher has no icon effect on either path.
- Icon code is not modelled: `updateIconForTab`, `getBacklightSvg`, `rasterizeIconFromSvg`, and the `onInstalled`/`onActivated`/`onUpdated` listeners (background.js:134-217). This is canvas, pixel and `fetch` work. `isRestrictedUrl` is modelled on its own.
- URL parsing (`new URL`) is not modelled. `IsRestrictedUrl` takes a URL that is already parsed, unparseable or empty.
- IEEE-754 detail is not modelled. Numbers are exact reals plus NaN and the infinities. There is no -0 and no rounding of `percent / 100`.
- Tab ids in messages are integers. A `tabId` payload that `Number` turns into NaN or a fraction is not modelled.
- The slider's position is an integer percent. The markup that bounds it, popup.html, is not part of this model.
- DOM details are not modelled: element creation, the `document.head` fallback, and the CSS text. The page keeps only the count of style elements and the variable's value.
- Re-injecting content.js registers one more message listener each time. The model delivers each push once. Because `ApplyBrightness` is idempotent, extra deliveries would change nothing.
- JsValues.IntToString: states only the sign and that the rest are digits. Which digits is not stated; its meaning for callers is `JsValues.IntToStringInjective`.
- Popup.Label: states only that the label ends in `%`. The label is the integer's decimal text followed by `%`, and `IntToString` gives that text.
- Background.Key: states only that the key starts with `b:`. Its meaning for callers is `Background.KeyInjective`.
- scripts/generate-icons.mjs is not part of this model. It is a build-time image tool.
