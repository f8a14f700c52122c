/**
 * The component's outward effects, recorded in order instead of performed:
 * script injection into the web view, a web-view reload, handing a URL to
 * the platform's URL opener, starting the iOS transcript download, and
 * calling a function the host application supplied.
 */
module Effects {

  /**
   * A function supplied by the host application, identified by a number.
   * `NoOp` is the default end-of-conversation callback, `() => {}`.
   */
  datatype Handler = NoOp | Host(id: nat)

  /**
   * The `data` field of an inbound message. For a `MESSAGE_EVENT`,
   * `eventName` is `data.event_name`, the key the named callback is looked
   * up under; other messages do not read it. `payload` is the rest of the
   * object, carried along unread.
   */
  datatype MessageData = MessageData(eventName: string, payload: string)

  datatype Effect =
    | Inject(script: string)                 // webview.injectJavaScript(script)
    | Reload                                 // webview.reload()
    | OpenUrl(url: string)                   // Linking.openURL(url)
    | DownloadTranscript(url: string)        // downloadTranscriptiOS(url)
    | Invoke(handler: Handler, data: MessageData)  // an event or end-of-conversation callback
    | RequestAuth(handler: Handler)          // the auth callback, given the token continuation
}
