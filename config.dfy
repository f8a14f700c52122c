/**
 * The component's configuration (its React props) and the rule that decides
 * when a configuration change restarts the embedded widget.
 */
module Config {
  import opened Wrappers
  import opened Effects

  /** The text `JSON.stringify` produces for an object; `"null"` for null. */
  type JsonText = string

  datatype Props = Props(
    handle: string,
    cluster: string,
    styles: string,
    language: string,
    greetings: string,
    metaFields: JsonText,
    sensitiveMetaFields: JsonText,
    thirdPartyCookiesEnabled: bool,
    zdChatterAuthCallback: Option<Handler>,
    /** Only the keys whose callback is not null or undefined. */
    eventCallbacks: Option<map<string, Handler>>,
    endConversationCallback: Handler)

  /** The props a host that sets none of them gets. */
  const DefaultProps: Props :=
    Props("", "", "", "", "", "null", "null", false, None, None, NoOp)

  /**
   * The part of the props that identifies the widget: the cookie flag and
   * the callbacks are replaced by their defaults.
   */
  function Tracked(p: Props): Props
  {
    p.(thirdPartyCookiesEnabled := DefaultProps.thirdPartyCookiesEnabled,
       zdChatterAuthCallback := DefaultProps.zdChatterAuthCallback,
       eventCallbacks := DefaultProps.eventCallbacks,
       endConversationCallback := DefaultProps.endConversationCallback)
  }

  /**
   * The widget's identity changed: one of the tracked string fields differs,
   * or one of the two meta-field objects serialises differently. Exactly the
   * props other than the cookie flag and the callbacks are compared.
   */
  predicate IdentityChanged(current: Props, next: Props): (r: bool)
    ensures r <==> Tracked(current) != Tracked(next)
  {
    || current.handle != next.handle
    || current.cluster != next.cluster
    || current.styles != next.styles
    || current.language != next.language
    || current.greetings != next.greetings
    || current.metaFields != next.metaFields
    || current.sensitiveMetaFields != next.sensitiveMetaFields
  }

  /**
   * Only the widget's identity fields count: flipping the cookie flag or
   * replacing any callback never restarts the widget.
   */
  lemma CookieAndCallbacksAreNotIdentity(
    p: Props, cookies: bool, auth: Option<Handler>,
    events: Option<map<string, Handler>>, end: Handler)
    ensures !IdentityChanged(p, p.(thirdPartyCookiesEnabled := cookies,
                                  zdChatterAuthCallback := auth,
                                  eventCallbacks := events,
                                  endConversationCallback := end))
  {
  }
}
