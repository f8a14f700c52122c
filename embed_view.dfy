/**
 * The embed host view: a web view showing the chat widget, with a
 * two-state readiness gate. Commands issued before the widget reports it
 * is ready wait in a set of pending actions; the ready message sends them
 * all, in the order they were first issued, and empties the set.
 * Effects on the web view, the URL opener and the host's callbacks are
 * appended to `effects` instead of performed.
 */
module EmbedView {
  import opened Wrappers
  import opened OrderedSet
  import opened Effects
  import opened Config
  import opened Commands
  import Navigation

  /** The inbound message tags. */
  const MessageScriptLoaded: string := "MESSAGE_SCRIPT_LOADED"
  const MessageAdaReady: string := "MESSAGE_ADA_READY"
  const MessageChatterAuth: string := "MESSAGE_CHATTER_AUTH"
  const MessageEvent: string := "MESSAGE_EVENT"
  const EndConversationEvent: string := "END_CONVERSATION_EVENT"

  /** A message from the widget, already parsed from its JSON text. */
  datatype Message = Message(name: string, data: MessageData)

  /** The injections that send `actions`, one each, in order. */
  function InjectAll(actions: seq<string>): (r: seq<Effect>)
    ensures |r| == |actions|
    ensures forall k :: 0 <= k < |actions| ==> r[k] == Inject(actions[k])
  {
    if actions == [] then [] else [Inject(actions[0])] + InjectAll(actions[1..])
  }

  /** An action is injected as often as it occurs among the actions sent. */
  lemma {:induction false} InjectAllCount(actions: seq<string>, a: string)
    ensures multiset(InjectAll(actions))[Inject(a)] == multiset(actions)[a]
  {
    if actions != [] {
      var rest := actions[1..];
      assert actions == [actions[0]] + rest;
      InjectAllCount(rest, a);
    }
  }

  /** Sending a set of pending actions injects each of its actions exactly once, and nothing else. */
  lemma InjectAllOnce(actions: seq<string>, e: Effect)
    requires NoDuplicates(actions)
    ensures multiset(InjectAll(actions))[e] == if e.Inject? && e.script in actions then 1 else 0
  {
    if e.Inject? {
      InjectAllCount(actions, e.script);
      CountWithoutDuplicates(actions, e.script);
    } else {
      assert e !in InjectAll(actions);
    }
  }

  /**
   * Commands issued one after another while the widget is not ready, then
   * the ready message: each distinct command is injected exactly once, and
   * nothing else is injected.
   */
  lemma QueuedCommandsSentOnce(commands: seq<string>, e: Effect)
    ensures multiset(InjectAll(AddAll([], commands)))[e]
         == if e.Inject? && e.script in commands then 1 else 0
    ensures InjectAll(AddAll([], commands)) == InjectAll(FirstOccurrences(commands, []))
  {
    var none: seq<string> := [];
    var queued := AddAll(none, commands);
    assert queued == none + FirstOccurrences(commands, none);
    assert queued == FirstOccurrences(commands, none);
    InjectAllOnce(queued, e);
  }

  /**
   * The callbacks a `MESSAGE_EVENT` reaches: none without a callback map;
   * otherwise the callback registered under the event's name, then the
   * wildcard `"*"` callback, each that exists, each given the event's data.
   */
  function EventCallbackEffects(callbacks: Option<map<string, Handler>>, data: MessageData): (r: seq<Effect>)
    ensures callbacks.None? ==> r == []
    ensures forall e :: e in r ==> e.Invoke? && e.data == data
    ensures callbacks.Some? ==>
      |r| == (if data.eventName in callbacks.value then 1 else 0)
           + (if "*" in callbacks.value then 1 else 0)
    ensures callbacks.Some? && data.eventName in callbacks.value ==>
      r[0] == Invoke(callbacks.value[data.eventName], data)
    ensures callbacks.Some? && "*" in callbacks.value ==>
      r[|r| - 1] == Invoke(callbacks.value["*"], data)
  {
    match callbacks
    case None => []
    case Some(m) =>
      (if data.eventName in m then [Invoke(m[data.eventName], data)] else [])
      + (if "*" in m then [Invoke(m["*"], data)] else [])
  }

  /** With both a named and a wildcard callback, both fire: the named one first. */
  lemma NamedAndWildcardBothFire(m: map<string, Handler>, data: MessageData)
    requires data.eventName in m && "*" in m
    ensures EventCallbackEffects(Some(m), data)
         == [Invoke(m[data.eventName], data), Invoke(m["*"], data)]
  {
  }

  /** With only a wildcard callback, only the wildcard fires. */
  lemma OnlyWildcardFires(m: map<string, Handler>, data: MessageData)
    requires data.eventName !in m && "*" in m
    ensures EventCallbackEffects(Some(m), data) == [Invoke(m["*"], data)]
  {
  }

  /**
   * An event whose name is itself `"*"` reaches the wildcard callback twice,
   * once as the named callback and once as the wildcard.
   */
  lemma WildcardNamedEventFiresTwice(m: map<string, Handler>, payload: string)
    requires "*" in m
    ensures EventCallbackEffects(Some(m), MessageData("*", payload))
         == [Invoke(m["*"], MessageData("*", payload)), Invoke(m["*"], MessageData("*", payload))]
  {
  }

  /**
   * With the default props no event callback and no auth callback is
   * called, and the initialisation script passes empty strings and nulls.
   */
  lemma DefaultPropsBehaviour(data: MessageData)
    ensures EventCallbackEffects(DefaultProps.eventCallbacks, data) == []
    ensures DefaultProps.zdChatterAuthCallback == None
    ensures InitializeEmbedScript(DefaultProps)
         == "initializeEmbed(\"\", \"\", \"\", \"\", \"\", null, null)"
  {
  }

  class AdaEmbedView {
    var props: Props
    /** `this.state.isAdaReady`. */
    var isAdaReady: bool
    /** `this.actions`: the pending commands, in insertion order. */
    var actions: seq<string>
    /** Everything the component has done to the outside, oldest first. */
    var effects: seq<Effect>

    /** The pending set is a set, and it is only ever filled while the widget is not ready. */
    ghost predicate Valid()
      reads this
    {
      NoDuplicates(actions) && (isAdaReady ==> actions == [])
    }

    /**
     * `action` went through the readiness gate: sent at once if the widget was
     * ready, otherwise added to the pending set and not sent.
     */
    ghost predicate Gated(action: string, wasReady: bool, actions0: seq<string>, effects0: seq<Effect>)
      reads this
    {
      if wasReady then effects == effects0 + [Inject(action)] && actions == actions0
      else effects == effects0 && actions == Add(actions0, action)
    }

    constructor (props: Props)
      ensures Valid()
      ensures this.props == props && !isAdaReady && actions == [] && effects == []
    {
      this.props := props;
      isAdaReady := false;
      actions := [];
      effects := [];
    }

    /** `#executeAction`. */
    method ExecuteAction(action: string)
      requires NoDuplicates(actions)
      modifies this`actions, this`effects
      ensures NoDuplicates(actions)
      ensures Gated(action, isAdaReady, old(actions), old(effects))
    {
      if isAdaReady {
        effects := effects + [Inject(action)];
      } else {
        actions := Add(actions, action);
      }
    }

    method DeleteHistory()
      requires Valid()
      modifies this`actions, this`effects
      ensures Valid()
      ensures Gated(DeleteHistoryCommand(), isAdaReady, old(actions), old(effects))
    {
      ExecuteAction(DeleteHistoryCommand());
    }

    method Reset(obj: JsonText)
      requires Valid()
      modifies this`actions, this`effects
      ensures Valid()
      ensures Gated(ResetCommand(obj), isAdaReady, old(actions), old(effects))
    {
      ExecuteAction(ResetCommand(obj));
    }

    method SetMetaFields(obj: JsonText)
      requires Valid()
      modifies this`actions, this`effects
      ensures Valid()
      ensures Gated(SetMetaFieldsCommand(obj), isAdaReady, old(actions), old(effects))
    {
      ExecuteAction(SetMetaFieldsCommand(obj));
    }

    method SetSensitiveMetaFields(obj: JsonText)
      requires Valid()
      modifies this`actions, this`effects
      ensures Valid()
      ensures Gated(SetSensitiveMetaFieldsCommand(obj), isAdaReady, old(actions), old(effects))
    {
      ExecuteAction(SetSensitiveMetaFieldsCommand(obj));
    }

    /**
     * `shouldComponentUpdate`: a change of the widget's identity marks it not
     * ready and reloads the web view once; the answer, whether to re-render,
     * depends only on the cookie flag.
     */
    method ShouldComponentUpdate(next: Props) returns (rerender: bool)
      requires Valid()
      modifies this`isAdaReady, this`effects
      ensures Valid()
      ensures rerender <==> props.thirdPartyCookiesEnabled != next.thirdPartyCookiesEnabled
      ensures IdentityChanged(props, next) ==> !isAdaReady && effects == old(effects) + [Reload]
      ensures !IdentityChanged(props, next) ==> isAdaReady == old(isAdaReady) && effects == old(effects)
    {
      if IdentityChanged(props, next) {
        isAdaReady := false;
        effects := effects + [Reload];
      }
      rerender := props.thirdPartyCookiesEnabled != next.thirdPartyCookiesEnabled;
    }

    /**
     * A props update as React performs it: `shouldComponentUpdate` is asked
     * with the new props, and the new props replace the old whatever it answers.
     */
    method ReceiveProps(next: Props) returns (rerender: bool)
      requires Valid()
      modifies this
      ensures Valid() && props == next && actions == old(actions)
      ensures rerender <==> old(props).thirdPartyCookiesEnabled != next.thirdPartyCookiesEnabled
      ensures IdentityChanged(old(props), next) ==> !isAdaReady && effects == old(effects) + [Reload]
      ensures !IdentityChanged(old(props), next) ==> isAdaReady == old(isAdaReady) && effects == old(effects)
    {
      rerender := ShouldComponentUpdate(next);
      props := next;
    }

    /** `handleEvent`: the five-way dispatch on the message's tag. */
    method HandleEvent(msg: Message)
      requires Valid()
      modifies this`isAdaReady, this`actions, this`effects
      ensures Valid() && props == old(props)
      ensures msg.name == MessageAdaReady ==>
        isAdaReady && actions == [] && effects == old(effects) + InjectAll(old(actions))
      ensures msg.name != MessageAdaReady ==>
        isAdaReady == old(isAdaReady) && actions == old(actions)
      ensures msg.name == MessageScriptLoaded ==>
        effects == old(effects) + [Inject(InitializeEmbedScript(props))]
      ensures msg.name == MessageChatterAuth ==>
        effects == old(effects) + match props.zdChatterAuthCallback
                                  case None => []
                                  case Some(h) => [RequestAuth(h)]
      ensures msg.name == MessageEvent ==>
        effects == old(effects) + EventCallbackEffects(props.eventCallbacks, msg.data)
      ensures msg.name == EndConversationEvent ==>
        effects == old(effects) + [Invoke(props.endConversationCallback, msg.data)]
      ensures msg.name !in {MessageScriptLoaded, MessageAdaReady, MessageChatterAuth,
                            MessageEvent, EndConversationEvent} ==>
        effects == old(effects)
    {
      if msg.name == MessageScriptLoaded {
        effects := effects + [Inject(InitializeEmbedScript(props))];
      } else if msg.name == MessageAdaReady {
        isAdaReady := true;
        var i := 0;
        while i < |actions|
          invariant 0 <= i <= |actions|
          invariant isAdaReady && actions == old(actions) && NoDuplicates(actions)
          invariant effects == old(effects) + InjectAll(actions[..i])
        {
          ExecuteAction(actions[i]);
          assert InjectAll(actions[..i + 1]) == InjectAll(actions[..i]) + [Inject(actions[i])];
          i := i + 1;
        }
        assert actions[..i] == actions;
        actions := [];
      } else if msg.name == MessageChatterAuth {
        if props.zdChatterAuthCallback.Some? {
          effects := effects + [RequestAuth(props.zdChatterAuthCallback.value)];
        }
      } else if msg.name == MessageEvent {
        effects := effects + EventCallbackEffects(props.eventCallbacks, msg.data);
      } else if msg.name == EndConversationEvent {
        effects := effects + [Invoke(props.endConversationCallback, msg.data)];
      }
    }

    /**
     * The continuation handed to the auth callback: it sends the token to the
     * widget straight away, without waiting for readiness.
     */
    method ContinueAuth(token: string)
      modifies this`effects
      ensures effects == old(effects) + [Inject(SendAuthTokenScript(token))]
    {
      effects := effects + [Inject(SendAuthTokenScript(token))];
    }

    /** The navigation callback of the web view, with its effects recorded. */
    method OnShouldStartLoadWithRequest(url: string, os: Navigation.Platform) returns (navigate: bool)
      modifies this`effects
      ensures navigate == Navigation.OnShouldStartLoadWithRequest(url, os).navigate
      ensures effects == old(effects) + Navigation.OnShouldStartLoadWithRequest(url, os).effects
    {
      var d := Navigation.OnShouldStartLoadWithRequest(url, os);
      effects := effects + d.effects;
      navigate := d.navigate;
    }
  }
}
