# AR launch negotiation of `public/app.js`, modelled in Dafny

The page shows a 3D model in a `<model-viewer>` embed and has one "view in AR"
button. `public/app.js` works out which AR path the browser can take and what
the page tells the visitor. It does this in four pieces:

- **Platform classifier.** Four flags come from the User-Agent string: iOS,
  Android, an iOS browser shell that is not Safari (Chrome, Firefox, Edge,
  Opera), and iOS Safari.
- **Support-state synchroniser.** `syncSupportState` and `handleARStatus`
  combine the platform with the embed's `canActivateAR` flag. They enable
  the button and choose the single status line under it (the "fallback" text).
- **Launch helpers.**
  - `launchIOSQuickLookFallback` clicks a hidden `rel="ar"` anchor that
    points at the USDZ model.
  - `launchAndroidSceneViewerIntent` checks that the GLB model URL is
    `https://` and then clicks an `intent://` anchor for Google Scene Viewer.
- **Click handler.** It routes a click to Quick Look, then Scene Viewer,
  then the embed's native `activateAR()`, or else refuses.

The model files:

- `detector.dfy`: the classifier. Each regular expression is a
  case-insensitive substring test.
- `messages.dfy`: the status strings.
- `support.dfy`: the synchroniser's decision as a function of the platform
  and the three-valued capability.
- `launch.dfy`: three things as values:
  - what each launch helper does before its click, called its plan;
  - the intent URL and a parser that reads it back;
  - the click handler's routing.
- `page.dfy`: a `Page` class. It holds the state the script changes: the
  fallback text, the button's `disabled` flag, the children of
  `document.body`, the alerts shown, and a log of launch attempts. It has one
  method per modelled function of the script.
- `base.dfy`: `Option` and string helpers.

Some browser calls are parameters of the model, as follows:

- The embed's `canActivateAR` is a `JsValue`: a boolean, or another value
  with its truthiness. The synchroniser treats every non-boolean as
  "unknown". The click handler uses the raw truthiness.
- `new URL(x, location.href)` is the `resolve` function of the page. Its
  result may be missing.
- `encodeURIComponent` is the `encode` function.
- Whether `anchor.click()` or `activateAR()` throws is a boolean argument of
  the method that calls it.
- Absent elements are constant flags of the page. An attribute or a URL that
  is `null` or `""` counts as missing, because the script tests it with `!`.

## Model

| member | source | states |
|---|---|---|
| Detector.Classify | public/app.js:5-9 | The flags always satisfy `Valid()`: Safari implies iOS and not Chrome-like, and Chrome-like implies iOS. iOS holds exactly for an iPad/iPhone/iPod token, Android exactly for an `Android` token, and Chrome-like exactly for an iOS UA with a `CriOS`/`FxiOS`/`EdgiOS`/`OPiOS` shell token. Safari holds exactly for an iPad/iPhone/iPod UA with a `Safari` token and no shell token. "iOS but not Safari" holds exactly for an iOS UA with a shell token or without a `Safari` token. |
| Detector.ContainsCIAtSomeOffset | public/app.js:6-9 | The left-to-right scan used for each `/token/i.test(ua)` succeeds if and only if some offset of the UA starts with the token, ignoring ASCII case. |
| Detector.ContainsCIIgnoresCase | public/app.js:6-9 | Case-folding the UA before a token test does not change the answer. |
| Detector.ClassifyIgnoresCase | public/app.js:5-9 | Case-folding the UA does not change any of the four flags. |
| Support.Normalize | public/app.js:52-54 | A non-boolean `canActivateAR` is read as unknown (`null`). Only the boolean `true` reads as `Yes`. |
| Support.SyncMessage | public/app.js:58-93 | The message is empty if and only if the capability is `true`, on every platform. An iOS non-Safari browser without `true` gets the "Quick Look in a separate window" message. "Checking" appears exactly when the capability is unknown on Safari or on a platform that is neither iOS nor Android. The generic refusal appears exactly when the capability is `false` on such a platform. The iOS and Android messages of lines 87-90 are never produced. |
| Support.SyncFollowsTable | public/app.js:58-93 | For every valid platform, the first-match chain gives the same message as a table written cell by cell over 4 platform classes × 3 capability values. |
| Support.SyncOutcomes | public/app.js:58-93 | The message is always one of six strings: empty, separate window, checking, Quick Look preparation failed, Scene Viewer requirements, generic refusal. |
| Launch.QuickLookAnchor | public/app.js:139-153 | The anchor has `rel="ar"` and `href` equal to the resolved URL. It has exactly one image child, and that image is 1×1. |
| Launch.QuickLookPlan | public/app.js:127-153 | The Quick Look path gives up without an alert when `ios-src` is missing ("model not found") or does not resolve ("URL could not be resolved"). Otherwise it clicks the Quick Look anchor for the resolved URL. |
| Launch.SceneViewerHref | public/app.js:187 | The intent starts with `intent://arvr.google.com/scene-viewer/1.0?file=`, then the encoded model URL, then `&mode=ar_only`. It ends with `package=com.google.ar.core;S.browser_fallback_url=`, the encoded page URL and `;end;`. |
| Launch.SceneViewerHrefRoundTrip | public/app.js:187 | If the encoded model URL has no `&`, parsing the intent gives back exactly the encoded model URL and the encoded page URL. |
| Launch.ParseBetweenRoundTrip | public/app.js:187 | The general form of the round trip, for any head, middle (starting with `&`) and tail around the two parameters. |
| Launch.SceneViewerPlan | public/app.js:169-191 | An intent anchor is built if and only if `src` is present, resolves, and its URL starts with `https://`. A missing `src` gives up with "model not found", an unresolvable one with "URL could not be resolved", neither with an alert. An alert goes with a failure exactly when it is the HTTPS failure, and its message is the HTTPS-required one. |
| Launch.Dispatch | public/app.js:204-236 | Without the embed, nothing happens. Quick Look is taken exactly for iOS outside Safari, before any Android test; Scene Viewer exactly for Android outside that case. Safari never takes the Quick Look route. Quick Look implies iOS, and Scene Viewer implies Android. Android off iOS always takes Scene Viewer. Native activation and the generic refusal happen exactly off Android and off the iOS shells, decided by the truthiness of `canActivateAR`. |
| Launch.UnsupportedMessageMeansUnsupportedClick | public/app.js:224-235 | When the synchronised message is the generic refusal, a click is refused too. |
| Launch.ReadyMeansSomeLaunch | public/app.js:204-236 | When the synchronised message is empty, a click never ends in the generic refusal. |
| Launch.SafariWithoutCapabilityIsRefused | public/app.js:207-235 | For iOS Safari off Android with `canActivateAR === false`, the message is "Quick Look preparation failed" and a click is refused with an alert. No `rel="ar"` anchor is clicked. |
| Launch.AndroidIgnoresCapability | public/app.js:216-222 | On Android (off iOS) the message is empty or the Scene Viewer requirements. A click always goes to Scene Viewer, even when `canActivateAR` is `true`. |
| Page.Page.constructor | public/app.js:1-9 | The platform is `Classify(userAgent)` and is valid. No alerts or launches have happened yet. |
| Page.Page.SetFallback | public/app.js:11-14 | The fallback text becomes the message. When the line is absent, it is unchanged. Nothing else changes. |
| Page.Page.ClearFallback | public/app.js:16 | The fallback text becomes empty, if the line exists. |
| Page.Page.SyncSupportState | public/app.js:49-94 | With both the embed and the button present, the button ends enabled in every case. The text becomes `SyncMessage` of the platform and the normalised capability when the fallback line exists. Without the embed or the button, nothing changes. |
| Page.Page.SyncIsIdempotent | public/app.js:49-94 | Synchronising twice leaves the same text and button flag as synchronising once; with the embed, the button and the line present, the text is `SyncMessage` and the button is enabled, whatever the previous state. |
| Page.Page.HandleARStatus | public/app.js:96-108 | `failed` sets the AR-failure message and leaves the button alone. `not-presenting` leaves exactly the state `SyncSupportState` would. Any other status, or a missing detail, changes nothing. |
| Page.Page.BeginInitialize | public/app.js:111-113 | With the embed and the button present, the line shows the "preparing" message (when it exists); otherwise nothing changes. |
| Page.Page.Initialize | public/app.js:110-122 | The "preparing" message is replaced at once by the synchronised state, and the button follows `SyncSupportState`. |
| Page.Page.LaunchIOSQuickLookFallback | public/app.js:126-166 | The effect follows `QuickLookPlan`. On a failure the text is set and no anchor is clicked. Otherwise exactly one Quick Look anchor click is logged, and the logged body at the click is the old body with that anchor appended. The result is true exactly when the plan goes ahead and the click does not throw. The anchor is removed afterwards, so the body ends as it began. |
| Page.Page.LaunchAndroidSceneViewerIntent | public/app.js:168-202 | The effect follows `SceneViewerPlan`. None of the three failures clicks an anchor. Only the HTTPS failure adds an alert, exactly one. Otherwise exactly one intent-anchor click is logged, and the logged body at the click is the old body with that anchor appended. The result is true exactly when the click does not throw. The anchor is removed afterwards, so the body ends as it began. |
| Page.Page.Click | public/app.js:204-236 | The route is `Dispatch`'s. A failed Quick Look sets the failure message and adds one alert. A failed Scene Viewer launch sets its failure message and adds no alert of its own. Native activation logs one `activateAR()` call and shows the retry message if it throws. A refusal shows the generic message and alerts it. A launched anchor is clicked while it is appended to the body, and the body ends unchanged. |

## Left out

- `scripts/build.js`: a file copy for deployment, with nothing to state beyond filesystem calls.
- `ensureModelViewerDefined` (lines 18-26) and the listener wiring of `initialize` (lines 118-121) are not modelled. They wait asynchronously for the custom element and subscribe to its events. `Initialize` keeps only the "preparing" message and the first synchronisation. Each later event is a call of `SyncSupportState` or `HandleARStatus`.
- `ensureManualRevealLoaded` (lines 28-38): a guarded call into the third-party embed that changes no state of this page.
- `buildAbsoluteUrl` (lines 40-47): URL parsing is the page's `resolve` function, so whether a string resolves, and to what, is left open.
- `encodeURIComponent` is the page's `encode` function. `Launch.SceneViewerHrefRoundTrip` assumes only that it never outputs `&`.
- `Page.Page.Click`: `activateThrows` models only a synchronous throw of `activateAR()`. A promise that `activateAR()` returns and later rejects is not caught by the handler, and it is not modelled.
- `Page.Page.Click` returns the route it took. The script returns nothing; the route is there so a caller can refer to it. The handler is registered only when the button exists, and the model does not repeat that condition.
- Anchor styles, the image's data URL, `console` logging and how an alert looks are left out. Alerts are a log of their messages.
- `canActivateAR` is changed by the embed, not by this script, so no method of the model changes it.
- Regular expressions are case-insensitive substring tests with ASCII folding. For the ASCII tokens used here this gives the same answers as the `i` flag.

## Notes

- This file makes no secure-context check and never disables the button. It uses no brand hints, no `window.chrome` probe, no `GSA` token and no Android-Chrome flag, and it contains no WebXR session driver.
- On Android the click always takes Scene Viewer, even with `canActivateAR === true` (`Launch.AndroidIgnoresCapability`).
- iOS Safari off Android with `canActivateAR === false` is refused with an alert; no Quick Look anchor is clicked (`Launch.SafariWithoutCapabilityIsRefused`).
