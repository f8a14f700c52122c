# AdaEmbedView: readiness gate, message router and navigation policy

A Dafny model of `AdaEmbedView`, the React Native component that embeds the
Ada chat widget in a web view. The model covers:

- the readiness gate: the `isAdaReady` flag and the `actions` set of pending
  command strings. A command issued while the widget is not ready waits in the
  set (duplicates coalesce); the `MESSAGE_ADA_READY` message marks the widget
  ready, sends every pending command once in first-insertion order and empties
  the set (class `EmbedView.AdaEmbedView`, invariant `Valid`: the set has no
  duplicates and is empty whenever the widget is ready);
- `shouldComponentUpdate`: a change of handle, cluster, styles, language,
  greetings or of the serialised meta fields marks the widget not ready and
  reloads the web view once; the re-render answer depends only on the
  third-party-cookie flag;
- `handleEvent`, the dispatch over the five inbound message tags, including the
  named and wildcard (`"*"`) event callbacks;
- `shouldOpenInline` and the navigation callback (iOS transcript download,
  external opener, inline load);
- the command and script strings the component injects, each proved equal to a
  reference call shape `name(arg, ...)` (`Commands.Call`).

Effects on the outside world (script injection, reload, opening a URL,
starting the transcript download, calling a host callback) are appended to the
`effects` log of the view rather than performed. Host callbacks are
identified by `Effects.Handler` values. Inbound messages arrive already parsed
as `EmbedView.Message`. Objects handed to `JSON.stringify` are represented by
the JSON text it yields (`Config.JsonText`): every use of such an object in
the component goes through `JSON.stringify`. `Platform.OS` is a parameter.

Two points of the code the model keeps:

- The pending set is a JavaScript `Set`, iterated in first-insertion order,
  and the model keeps that order (`OrderedSet.AddAll`,
  `EmbedView.QueuedCommandsSentOnce`).
- The iOS transcript rule (index.js:108) is checked before the allow-list
  (index.js:111), so an allow-listed URL containing `transcript/txt` is
  downloaded on iOS (`Navigation.TranscriptBeforeAllowList`).

## Model

| member | source | states |
|---|---|---|
| `Text.Includes` | index.js:63 | `s.includes(sub)` holds exactly when `sub` occurs at some index of `s` |
| `Text.SomeIncluded` | index.js:62-63 | `patterns.some(p => url.includes(p))` holds exactly when some pattern occurs in `url` |
| `Navigation.ShouldOpenInline` | index.js:61-64 | true exactly when the URL contains `embed.html`, `ada-instance-id`, `embed2`, `ada.support/embed/` or `ada-dev2.support/embed/` |
| `Navigation.OnShouldStartLoadWithRequest` | index.js:107-118 | the web view loads the URL itself iff it is allow-listed and not an iOS transcript download; every refused URL yields exactly one effect: the transcript download on iOS, otherwise the external opener |
| `Navigation.IsIOSTranscript` | index.js:108 | the transcript guard holds exactly when the platform is iOS and `transcript/txt` occurs at some index of the URL |
| `Navigation.DownloadOnlyOnIOS` | index.js:108-110 | the transcript download is only ever triggered on iOS |
| `Navigation.EmbedPageLoadsInline` | index.js:111-116 | a URL containing `embed.html` loads inline with no effect on every platform, unless it is an iOS transcript download |
| `Navigation.TranscriptBeforeAllowList` | index.js:108-116 | a URL made of any prefix, `ada.support/embed/` and `transcript/txt` is allow-listed, yet on iOS it is downloaded and refused, while on Android it loads inline |
| `Navigation.ForeignUrlOpensExternally` | index.js:111-115 | a URL matching none of the allow-list goes to the external opener and is refused |
| `OrderedSet.Add` | index.js:197 | `Set.add`: the members become old members plus the new one, existing order is kept, re-adding changes nothing, no duplicates arise |
| `OrderedSet.FirstOccurrencesMembers` | index.js:197 | the values a run of `Set.add` calls adds are exactly the added values not already in the set |
| `OrderedSet.AddAll` | index.js:18 | a run of `Set.add` calls yields the old members followed by each new value at the place of its first occurrence among the added values (positions whose value was neither in the set nor added earlier); members are the old ones plus the added ones, without duplicates |
| `OrderedSet.RepeatKeepsFirstPlace` | index.js:197 | adding `a`, `b`, `a` to an empty set gives `[a, b]`: a re-added value keeps its first place |
| `OrderedSet.AddIdempotent` | index.js:197 | adding the same command twice in a row equals adding it once |
| `OrderedSet.CountWithoutDuplicates` | index.js:18 | a value occurs at most once in the pending set |
| `Config.IdentityChanged` | index.js:123-129 | the identity changed exactly when the props differ once the cookie flag and the callbacks are set to their defaults |
| `Config.CookieAndCallbacksAreNotIdentity` | index.js:122-134 | changing only the cookie flag or callbacks is not an identity change, so it never reloads |
| `Commands.DeleteHistoryCommand` | index.js:177-179 | the command is the call `deleteHistory()` |
| `Commands.ResetCommand` | index.js:181-183 | the command is the call `reset(json)` |
| `Commands.SetMetaFieldsCommand` | index.js:185-187 | the command is the call `setMetaFields(json)` |
| `Commands.SetSensitiveMetaFieldsCommand` | index.js:189-191 | the command is the call `setSensitiveMetaFields(json)` |
| `Commands.SendAuthTokenScript` | index.js:153 | the script is the call `sendAuthToken("token")` |
| `Commands.InitializeEmbedScript` | index.js:201-203 | the script is the call `initializeEmbed` on quoted handle, cluster, greetings, styles, language, then the two meta-field JSON texts, in that order |
| `Commands.CommandKindsDistinct` | index.js:177-191 | commands of different kinds never coincide, so the pending set never merges them |
| `Commands.CommandArgumentsDetermined` | index.js:181-191 | two commands of one kind are equal only if their JSON arguments are |
| `EmbedView.InjectAll` | index.js:145-147 | the drain injects the pending actions one each, position by position |
| `EmbedView.InjectAllCount` | index.js:145-147 | each action is injected as often as it is pending |
| `EmbedView.InjectAllOnce` | index.js:143-148 | draining a duplicate-free pending set injects each pending action exactly once and nothing else |
| `EmbedView.QueuedCommandsSentOnce` | index.js:143-148 | commands issued while not ready, then the ready message: each distinct command injected exactly once, nothing else injected, in the order of first issue |
| `EmbedView.EventCallbackEffects` | index.js:157-168 | no callback without a map; else the named callback (if any) then the wildcard (if any), each with the event's data |
| `EmbedView.NamedAndWildcardBothFire` | index.js:159-166 | with both a named and a wildcard callback, both fire, named first (twice the wildcard when the name is `"*"`) |
| `EmbedView.OnlyWildcardFires` | index.js:159-166 | with only a wildcard callback, only it fires |
| `EmbedView.WildcardNamedEventFiresTwice` | index.js:159-166 | an event named `"*"` reaches the wildcard callback twice |
| `EmbedView.DefaultPropsBehaviour` | index.js:37-52 | with the default props no event or auth callback is called, and the initialisation script is `initializeEmbed("", "", "", "", "", null, null)` |
| `EmbedView.AdaEmbedView.constructor` | index.js:54-59 | a new view is not ready, with no pending actions and no effects |
| `EmbedView.AdaEmbedView.ExecuteAction` | index.js:193-199 | when ready the action is injected and the set is unchanged; otherwise nothing is injected and the set becomes the set plus the action |
| `EmbedView.AdaEmbedView.DeleteHistory` | index.js:177-179 | `deleteHistory()` goes through the readiness gate |
| `EmbedView.AdaEmbedView.Reset` | index.js:181-183 | `reset(json)` goes through the readiness gate |
| `EmbedView.AdaEmbedView.SetMetaFields` | index.js:185-187 | `setMetaFields(json)` goes through the readiness gate |
| `EmbedView.AdaEmbedView.SetSensitiveMetaFields` | index.js:189-191 | `setSensitiveMetaFields(json)` goes through the readiness gate |
| `EmbedView.AdaEmbedView.ShouldComponentUpdate` | index.js:122-135 | an identity change makes the view not ready and logs exactly one reload, otherwise readiness and effects are unchanged; the answer is true iff the cookie flag differs |
| `EmbedView.AdaEmbedView.ReceiveProps` | index.js:122-135 | the same, followed by the new props replacing the old |
| `EmbedView.AdaEmbedView.HandleEvent` | index.js:137-175 | the five-way dispatch: script-loaded injects the initialisation script; ready sets readiness, injects every pending action in order and empties the set; auth invokes the auth callback if set; event fires the event callbacks; end-conversation calls its callback; any other tag changes nothing |
| `EmbedView.AdaEmbedView.ContinueAuth` | index.js:152-154 | the auth continuation injects `sendAuthToken("token")` at once, not gated by readiness |
| `EmbedView.AdaEmbedView.OnShouldStartLoadWithRequest` | index.js:107-118 | answers the navigation policy's decision and logs its effect |

## Left out

- Rendering the web view and its props (index.js:96-106), and the choice of the bundled page per platform: UI plumbing with nothing to state.
- `downloadTranscriptiOS` (index.js:65-94): the network fetch, its three unused decodings and its logging; the model records only that the download was started for a URL.
- `JSON.stringify` and `JSON.parse`: foreign library calls; objects are represented by their JSON text and inbound messages arrive parsed. A message whose text does not parse (an exception in the source) is not modelled.
- Failures of `Linking.openURL`, which the source swallows, and of `injectJavaScript` or `reload` when the web view reference is not yet set: the effects are only recorded.
- The quoted string arguments of `initializeEmbed` and `sendAuthToken` are not escaped in the source; the model builds the same unescaped text and states nothing about how the widget parses it.
- `EmbedView.AdaEmbedView.HandleEvent`: host callbacks are modelled as returning normally without calling back into the view. In the source a callback that throws stops the rest of `handleEvent` (a throwing named callback at index.js:162 prevents the wildcard at index.js:165), and a callback that synchronously calls `reset` or another command method changes the pending set during the dispatch, which the contract's "the pending set is unchanged" does not cover.
- `EmbedView.AdaEmbedView.HandleEvent`: an inbound message always has a name and a `data` object. A message that parses to `null` throws at index.js:139, and a `MESSAGE_EVENT` whose `data` is null or undefined throws at index.js:159 when event callbacks are set; neither exception is modelled.
- `EmbedView.EventCallbackEffects`: callbacks always return, and the event's `data` is always an object; the throwing cases above are not modelled. The callback map holds only the keys whose value is not null or undefined, and property lookups that JavaScript would resolve through the object's prototype (such as `constructor`) are not modelled.
- React's lifecycle, prop types and default props, beyond the default no-op end-of-conversation callback (`Effects.NoOp`) and `Config.DefaultProps`.
- android/src/main/java/support/ada/embed/AdaPackage.java: React Native registration returning empty lists, no logic.
