/**
 * The messages exchanged between the popup, the background service worker and
 * the content script, as closed variants instead of objects tagged by a `type` string.
 */
module Protocol {
  import opened JsValues

  /**
   * A request delivered to the background's `runtime.onMessage` listener.
   * `Unknown` stands for a missing message, a missing `type` or any other `type`.
   * The tab ids are the result of `Number(message.tabId)`, taken to be integers.
   */
  datatype Message =
    | EnsureInjected(tabId: int)
    | GetBrightness(tabId: int)
    | SetBrightness(tabId: int, value: JsVal)
    | ContentRequestBrightness
    | Unknown

  /**
   * What the background answers through `sendResponse`: `{ok: true, value}`,
   * `{ok: true}`, `{ok: false, error}`, or nothing at all (the listener returned false).
   */
  datatype Response =
    | OkValue(value: real)
    | Ok
    | Err(error: string)
    | NoResponse

  /** A message pushed to a tab with `tabs.sendMessage`, as the content script receives it. */
  datatype TabMessage =
    | NotAnObject
    | ApplyBrightness(value: JsVal)
    | OtherType

  /** One `tabs.sendMessage` call: the target tab and the payload. */
  datatype Push = Push(tabId: int, message: TabMessage)
}
