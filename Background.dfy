/**
 * The background service worker: the per-tab brightness table kept in the
 * session storage area, the message dispatcher, and the URL classifier that
 * decides whether a page is one the browser forbids extensions to touch.
 */
module Background {
  import opened JsValues
  import opened Protocol

  /** The storage key of a tab's brightness, `b:<tabId>`. */
  function Key(tabId: int): (k: string)
    ensures |k| >= 3 && k[..2] == "b:"
  {
    "b:" + IntToString(tabId)
  }

  /** Different tabs never share a storage key. */
  lemma KeyInjective(t: int, u: int)
    ensures Key(t) == Key(u) <==> t == u
  {
    if Key(t) == Key(u) {
      assert Key(t)[2..] == IntToString(t);
      assert Key(u)[2..] == IntToString(u);
      IntToStringInjective(t, u);
    }
  }

  /**
   * What `getBrightness(tabId)` reads out of the storage area: 1 when the entry
   * is missing, not of type number, NaN or infinite; otherwise the entry clamped to [0, 2].
   */
  function BrightnessOf(area: map<string, JsVal>, tabId: int): (r: real)
    ensures 0.0 <= r <= 2.0
    ensures Key(tabId) !in area ==> r == 1.0
    ensures Key(tabId) in area && !(area[Key(tabId)].Number? && area[Key(tabId)].n.Finite?) ==> r == 1.0
    ensures Key(tabId) in area && area[Key(tabId)].Number? && area[Key(tabId)].n.Finite? ==>
              Finite(r) == Clamp(area[Key(tabId)].n, 0.0, 2.0)
  {
    var key := Key(tabId);
    if key in area && area[key].Number? && area[key].n.Finite? then
      Clamp(area[key].n, 0.0, 2.0).x
    else
      1.0
  }

  /** The number `setBrightness` stores for `value`: `Math.max(0, Math.min(2, Number(value)))`. */
  function StoredNumber(value: JsVal): (v: Num)
    ensures v.NaN? <==> ToNumber(value).NaN?
    ensures !v.NaN? ==> v.Finite? && 0.0 <= v.x <= 2.0
    ensures ToNumber(value).Finite? && 0.0 <= ToNumber(value).x <= 2.0 ==> v == ToNumber(value)
  {
    Clamp(ToNumber(value), 0.0, 2.0)
  }

  /** The shape of every value `setBrightness` can write: a number in [0, 2], or NaN. */
  predicate IsStoredBrightness(v: JsVal)
  {
    v == Number(NaN) || (v.Number? && v.n.Finite? && 0.0 <= v.n.x <= 2.0)
  }

  /** Writing tab t's entry leaves every other tab's brightness as it was. */
  lemma WriteKeepsOtherTabs(area: map<string, JsVal>, t: int, v: JsVal, u: int)
    requires t != u
    ensures BrightnessOf(area[Key(t) := v], u) == BrightnessOf(area, u)
  {
    KeyInjective(t, u);
  }

  /** Removing tab t's entry resets t to 1 and leaves every other tab's brightness as it was. */
  lemma EvictResets(area: map<string, JsVal>, t: int, u: int)
    ensures BrightnessOf(area - {Key(t)}, t) == 1.0
    ensures t != u ==> BrightnessOf(area - {Key(t)}, u) == BrightnessOf(area, u)
    ensures Key(t) !in area ==> area - {Key(t)} == area
  {
    KeyInjective(t, u);
  }

  /**
   * A write followed by a read gives back the clamped number; a value that
   * `Number` turns into NaN is stored as NaN and so reads back as 1, not 0.
   */
  lemma WriteThenRead(area: map<string, JsVal>, t: int, value: JsVal)
    ensures var r := BrightnessOf(area[Key(t) := Number(StoredNumber(value))], t);
      match ToNumber(value)
      case Finite(x) => r == (if x < 0.0 then 0.0 else if x > 2.0 then 2.0 else x)
      case NaN => r == 1.0
      case PosInfinity => r == 2.0
      case NegInfinity => r == 0.0
  {
  }

  /** On the table's own writes the read side's clamp changes nothing: only NaN reads differently from what was stored. */
  lemma ReadOfStoredBrightness(area: map<string, JsVal>, t: int)
    requires Key(t) in area && IsStoredBrightness(area[Key(t)])
    ensures area[Key(t)] == Number(NaN) ==> BrightnessOf(area, t) == 1.0
    ensures area[Key(t)] != Number(NaN) ==> area[Key(t)] == Number(Finite(BrightnessOf(area, t)))
  {
  }

  /**
   * The per-tab brightness table in the session storage area, together with the
   * log of `applyBrightness` pushes sent to tabs (whether or not any page received them).
   */
  class BrightnessStore {
    var area: map<string, JsVal>
    var pushes: seq<Push>

    /** Every entry has the shape `setBrightness` writes. */
    ghost predicate Valid()
      reads this
    {
      forall k :: k in area ==> IsStoredBrightness(area[k])
    }

    constructor ()
      ensures Valid()
      ensures area == map[] && pushes == []
    {
      area := map[];
      pushes := [];
    }

    /** `getBrightness(tabId)`. */
    method GetBrightness(tabId: int) returns (r: real)
      ensures r == BrightnessOf(area, tabId)
      ensures 0.0 <= r <= 2.0
      ensures Valid() && Key(tabId) in area && area[Key(tabId)] != Number(NaN) ==>
                area[Key(tabId)] == Number(Finite(r))
      ensures Valid() && Key(tabId) in area && area[Key(tabId)] == Number(NaN) ==> r == 1.0
    {
      var key := Key(tabId);
      var val := if key in area then area[key] else Undefined;
      if !val.Number? || !val.n.Finite? {
        return 1.0;
      }
      r := Clamp(val.n, 0.0, 2.0).x;
    }

    /**
     * `setBrightness(tabId, value)`: stores the clamped number under the tab's key
     * and pushes the same number to that tab; a failed delivery is swallowed, so
     * the write stands whatever happens to the push.
     */
    method SetBrightness(tabId: int, value: JsVal)
      requires Valid()
      modifies this
      ensures Valid()
      ensures area == old(area)[Key(tabId) := Number(StoredNumber(value))]
      ensures pushes == old(pushes) + [Push(tabId, ApplyBrightness(Number(StoredNumber(value))))]
    {
      var key := Key(tabId);
      var v := Clamp(ToNumber(value), 0.0, 2.0);
      area := area[key := Number(v)];
      pushes := pushes + [Push(tabId, ApplyBrightness(Number(v)))];
    }

    /** The `tabs.onRemoved` listener: drops the closed tab's entry; an absent key is a no-op. */
    method RemoveTab(tabId: int)
      requires Valid()
      modifies this
      ensures Valid()
      ensures area == old(area) - {Key(tabId)}
      ensures pushes == old(pushes)
    {
      area := area - {Key(tabId)};
    }
  }

  /** What `scripting.executeScript` did: installed content.js, or threw with this message. */
  datatype Injection = Injected | InjectionFailed(error: string)

  /** What the dispatcher decides to do with one message. */
  datatype Action =
    | ReplyBrightness(tabId: int)
    | StoreAndAck(tabId: int, value: JsVal)
    | ReplyError(error: string)
    | Ignore

  const NO_SENDER_TAB := "No tab id in sender"

  /**
   * The choice made by the `runtime.onMessage` listener. `senderTab` is
   * `sender.tab.id` when it is a number.
   */
  function Route(msg: Message, senderTab: Option<int>, injection: Injection): (a: Action)
    ensures a.Ignore? <==> msg.Unknown?
    ensures a.StoreAndAck? <==> msg.SetBrightness?
    ensures a.StoreAndAck? ==> a.tabId == msg.tabId && a.value == msg.value
    ensures msg.GetBrightness? ==> a == ReplyBrightness(msg.tabId)
    ensures msg.EnsureInjected? ==> (a.ReplyBrightness? <==> injection.Injected?)
    ensures msg.EnsureInjected? && a.ReplyBrightness? ==> a.tabId == msg.tabId
    ensures msg.ContentRequestBrightness? ==> (a.ReplyBrightness? <==> senderTab.Some?)
    ensures msg.ContentRequestBrightness? && a.ReplyBrightness? ==> a.tabId == senderTab.value
    ensures a.ReplyError? ==>
              a.error == (if msg.EnsureInjected? then injection.error else NO_SENDER_TAB)
  {
    match msg
    case EnsureInjected(t) =>
      if injection.Injected? then ReplyBrightness(t) else ReplyError(injection.error)
    case GetBrightness(t) => ReplyBrightness(t)
    case SetBrightness(t, v) => StoreAndAck(t, v)
    case ContentRequestBrightness =>
      if senderTab.Some? then ReplyBrightness(senderTab.value) else ReplyError(NO_SENDER_TAB)
    case Unknown => Ignore
  }

  /**
   * The `runtime.onMessage` listener run as one step. Only `setBrightness` writes
   * to the table or pushes to a tab; a failed injection writes nothing.
   */
  method Dispatch(store: BrightnessStore, msg: Message, senderTab: Option<int>, injection: Injection)
    returns (resp: Response)
    requires store.Valid()
    modifies store
    ensures store.Valid()
    ensures msg.SetBrightness? ==>
              resp == Ok &&
              store.area == old(store.area)[Key(msg.tabId) := Number(StoredNumber(msg.value))] &&
              store.pushes == old(store.pushes) + [Push(msg.tabId, ApplyBrightness(Number(StoredNumber(msg.value))))]
    ensures !msg.SetBrightness? ==> store.area == old(store.area) && store.pushes == old(store.pushes)
    ensures msg.GetBrightness? ==> resp == OkValue(BrightnessOf(store.area, msg.tabId))
    ensures msg.EnsureInjected? ==>
              resp == (if injection.Injected? then OkValue(BrightnessOf(store.area, msg.tabId))
                       else Err(injection.error))
    ensures msg.ContentRequestBrightness? ==>
              resp == (if senderTab.Some? then OkValue(BrightnessOf(store.area, senderTab.value))
                       else Err(NO_SENDER_TAB))
    ensures resp.NoResponse? <==> msg.Unknown?
  {
    var action := Route(msg, senderTab, injection);
    match action
    case ReplyBrightness(t) =>
      var value := store.GetBrightness(t);
      resp := OkValue(value);
    case StoreAndAck(t, v) =>
      store.SetBrightness(t, v);
      resp := Ok;
    case ReplyError(e) =>
      resp := Err(e);
    case Ignore =>
      resp := NoResponse;
  }

  /** A tab's URL as `new URL(url)` sees it: falsy, rejected by the parser, or parsed. */
  datatype Url = NoUrl | Unparseable | Parsed(protocol: string, hostname: string)

  const RESTRICTED_PROTOCOLS: seq<string> := ["chrome:", "chrome-extension:", "chrome-devtools:"]
  const RESTRICTED_HOSTS: set<string> := {"chrome.google.com", "chromewebstore.google.com"}

  /** `isRestrictedUrl(url)`: pages of the browser itself and of its web store. */
  function IsRestrictedUrl(url: Url): (r: bool)
    ensures r <==>
      url.Parsed? &&
      (url.protocol == "chrome:" || url.protocol == "chrome-extension:" || url.protocol == "chrome-devtools:" ||
       url.hostname == "chrome.google.com" || url.hostname == "chromewebstore.google.com")
  {
    match url
    case NoUrl => false
    case Unparseable => false
    case Parsed(protocol, hostname) =>
      protocol in RESTRICTED_PROTOCOLS || hostname in RESTRICTED_HOSTS
  }
}
