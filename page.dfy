/**
 * The page state public/app.js drives: the fallback line, the AR button's
 * `disabled` flag, the children of `document.body`, the alerts shown and the
 * launches the browser saw. Each method models one function of the script.
 */
module Page {
  import opened Base
  import opened Detector
  import opened Messages
  import opened Support
  import opened Launch

  class Page {
    /** `navigator.userAgent || ''` and its classification, fixed at load (lines 5-9). */
    const userAgent: string
    const platform: Platform

    /** Whether `#mv`, `#arLaunch` and `.fallback` exist in the document (lines 1-3). */
    const hasViewer: bool
    const hasButton: bool
    const hasFallbackLine: bool

    /** The embed's `src` and `ios-src` attributes. */
    const src: Option<string>
    const iosSrc: Option<string>

    /** `window.location.href`, URL resolution against it, and `encodeURIComponent`. */
    const pageUrl: string
    const resolve: string -> Option<string>
    const encode: string -> string

    /** The embed's `canActivateAR` property, which the embed updates as it loads. */
    var canActivateAR: JsValue

    var fallbackText: string
    var buttonDisabled: bool
    var body: seq<Node>
    var alerts: seq<string>
    var launches: seq<Attempt>

    constructor (userAgent: string, hasViewer: bool, hasButton: bool, hasFallbackLine: bool,
                 src: Option<string>, iosSrc: Option<string>, pageUrl: string,
                 resolve: string -> Option<string>, encode: string -> string,
                 canActivateAR: JsValue, fallbackText: string, buttonDisabled: bool, body: seq<Node>)
      ensures this.userAgent == userAgent && platform == Classify(userAgent) && platform.Valid()
      ensures this.hasViewer == hasViewer && this.hasButton == hasButton && this.hasFallbackLine == hasFallbackLine
      ensures this.src == src && this.iosSrc == iosSrc && this.pageUrl == pageUrl
      ensures this.resolve == resolve && this.encode == encode && this.canActivateAR == canActivateAR
      ensures this.fallbackText == fallbackText && this.buttonDisabled == buttonDisabled && this.body == body
      ensures alerts == [] && launches == []
    {
      this.userAgent := userAgent;
      platform := Classify(userAgent);
      this.hasViewer := hasViewer;
      this.hasButton := hasButton;
      this.hasFallbackLine := hasFallbackLine;
      this.src := src;
      this.iosSrc := iosSrc;
      this.pageUrl := pageUrl;
      this.resolve := resolve;
      this.encode := encode;
      this.canActivateAR := canActivateAR;
      this.fallbackText := fallbackText;
      this.buttonDisabled := buttonDisabled;
      this.body := body;
      alerts := [];
      launches := [];
    }

    /** The fallback line's text after `setFallback(message)`: unchanged when there is no line. */
    function Shown(message: string, previous: string): string
    {
      if hasFallbackLine then message else previous
    }

    /** The fallback text `syncSupportState` leaves, given the text before it. */
    function SyncedText(previous: string): string
      reads this
    {
      if hasViewer && hasButton then Shown(SyncMessage(platform, Normalize(canActivateAR)), previous)
      else previous
    }

    /** The button's `disabled` flag `syncSupportState` leaves, given the flag before it. */
    function SyncedDisabled(previous: bool): bool
    {
      if hasViewer && hasButton then false else previous
    }

    /** Synchronising twice leaves the same text and flag as synchronising once. */
    lemma SyncIsIdempotent(text: string, disabled: bool)
      ensures SyncedText(SyncedText(text)) == SyncedText(text)
      ensures SyncedDisabled(SyncedDisabled(disabled)) == SyncedDisabled(disabled)
      ensures hasViewer && hasButton && hasFallbackLine ==>
        SyncedText(text) == SyncMessage(platform, Normalize(canActivateAR)) && !SyncedDisabled(disabled)
    {
    }

    /** `setFallback` (lines 11-14). */
    method SetFallback(message: string)
      modifies this`fallbackText
      ensures fallbackText == Shown(message, old(fallbackText))
    {
      if !hasFallbackLine {
        return;
      }
      fallbackText := message;
    }

    /** `clearFallback` (line 16). */
    method ClearFallback()
      modifies this`fallbackText
      ensures fallbackText == Shown("", old(fallbackText))
    {
      SetFallback("");
    }

    /**
     * `syncSupportState` (lines 49-94): with both the embed and the button
     * present, the button ends enabled whatever the platform and capability,
     * and the fallback line shows the message of the decision table (empty
     * exactly when `canActivateAR === true`); otherwise nothing changes.
     * Running it a second time changes nothing (`SyncIsIdempotent`).
     */
    method SyncSupportState()
      modifies this`fallbackText, this`buttonDisabled
      ensures hasViewer && hasButton ==> !buttonDisabled
      ensures buttonDisabled == SyncedDisabled(old(buttonDisabled))
      ensures fallbackText == SyncedText(old(fallbackText))
    {
      if !hasViewer || !hasButton {
        return;
      }
      var canActivate := Normalize(canActivateAR);
      buttonDisabled := false;
      if canActivate == Yes {
        ClearFallback();
        return;
      }
      SetFallback(SyncMessage(platform, canActivate));
    }

    /**
     * `handleARStatus` (lines 96-108), `status` being `event.detail.status`
     * (None when the event has no detail): `failed` shows the AR-failure
     * message, `not-presenting` synchronises, anything else changes nothing.
     */
    method HandleARStatus(status: Option<string>)
      modifies this`fallbackText, this`buttonDisabled
      ensures status == Some("failed") ==>
        fallbackText == Shown(ARFailed, old(fallbackText)) && buttonDisabled == old(buttonDisabled)
      ensures status == Some("not-presenting") ==>
        fallbackText == SyncedText(old(fallbackText)) && buttonDisabled == SyncedDisabled(old(buttonDisabled))
      ensures status != Some("failed") && status != Some("not-presenting") ==>
        fallbackText == old(fallbackText) && buttonDisabled == old(buttonDisabled)
    {
      if status == Some("failed") {
        SetFallback(ARFailed);
      }
      if status == Some("not-presenting") {
        SyncSupportState();
      }
    }

    /**
     * The synchronous start of `initialize` (lines 111-113): with the embed
     * and the button present, the line shows the "preparing" message while
     * the page waits for the embed; otherwise nothing changes.
     */
    method BeginInitialize()
      modifies this`fallbackText
      ensures hasViewer && hasButton ==> fallbackText == Shown(Preparing, old(fallbackText))
      ensures !(hasViewer && hasButton) ==> fallbackText == old(fallbackText)
    {
      if !hasViewer || !hasButton {
        return;
      }
      SetFallback(Preparing);
    }

    /**
     * `initialize` (lines 110-122) without its waits and listener wiring: the
     * "preparing" message, then the synchronised state once the embed is ready.
     */
    method Initialize()
      modifies this`fallbackText, this`buttonDisabled
      ensures buttonDisabled == SyncedDisabled(old(buttonDisabled))
      ensures fallbackText == SyncedText(old(fallbackText))
    {
      BeginInitialize();
      if !hasViewer || !hasButton {
        return;
      }
      SyncSupportState();
    }

    /** `modelViewer?.getAttribute(name)`: nothing when the embed is absent. */
    function Attribute(value: Option<string>): Option<string>
    {
      if hasViewer then value else None
    }

    /**
     * `launchIOSQuickLookFallback` (lines 126-166), `clickThrows` standing for
     * whether `anchor.click()` throws. On a missing or unresolvable `ios-src`
     * it sets the matching message and adds no anchor; otherwise it clicks a
     * `rel="ar"` anchor with one 1x1 image whose href is the resolved URL, and
     * succeeds exactly when the click does not throw. Either way the body ends
     * as it began.
     */
    method LaunchIOSQuickLookFallback(clickThrows: bool) returns (launched: bool)
      modifies this`fallbackText, this`body, this`launches
      ensures body == old(body)
      ensures var plan := QuickLookPlan(Attribute(iosSrc), resolve);
        launched == (plan.Go? && !clickThrows) &&
        (plan.Go? ==> launches == old(launches) + [Clicked(plan.anchor, old(body) + [plan.anchor])] &&
                      fallbackText == old(fallbackText)) &&
        (plan.Abort? ==> launches == old(launches) && fallbackText == Shown(plan.message, old(fallbackText)))
    {
      var iosSrcValue := Attribute(iosSrc);
      if !Present(iosSrcValue) {
        SetFallback(QuickLookModelMissing);
        return false;
      }
      var absolute := resolve(iosSrcValue.value);
      if !Present(absolute) {
        SetFallback(QuickLookUrlUnresolved);
        return false;
      }
      var anchor := NewAnchor;
      anchor := anchor.(rel := Some("ar"));
      anchor := anchor.(href := absolute.value);
      anchor := anchor.(images := anchor.images + [Img(1, 1, "")]);
      assert anchor == QuickLookAnchor(absolute.value);
      body := body + [anchor];
      launches := launches + [Clicked(anchor, body)];
      launched := !clickThrows;
      // finally: the anchor, the body's last child, is removed whether or not the click threw
      body := body[..|body| - 1];
    }

    /**
     * `launchAndroidSceneViewerIntent` (lines 168-202). A missing `src`, an
     * unresolvable URL and a resolved URL that does not start with `https://`
     * each set their message and add no anchor; only the last also alerts.
     * Otherwise it clicks an anchor whose href is the Scene Viewer intent and
     * succeeds exactly when the click does not throw. Either way the body
     * ends as it began.
     */
    method LaunchAndroidSceneViewerIntent(clickThrows: bool) returns (launched: bool)
      modifies this`fallbackText, this`body, this`launches, this`alerts
      ensures body == old(body)
      ensures var plan := SceneViewerPlan(Attribute(src), resolve, encode, pageUrl);
        launched == (plan.Go? && !clickThrows) &&
        (plan.Go? ==> launches == old(launches) + [Clicked(plan.anchor, old(body) + [plan.anchor])] &&
                      fallbackText == old(fallbackText) && alerts == old(alerts)) &&
        (plan.Abort? ==> launches == old(launches) && fallbackText == Shown(plan.message, old(fallbackText)) &&
                         alerts == old(alerts) + (if plan.alert then [plan.message] else []))
    {
      var srcValue := Attribute(src);
      if !Present(srcValue) {
        SetFallback(SceneViewerModelMissing);
        return false;
      }
      var absolute := resolve(srcValue.value);
      if !Present(absolute) {
        SetFallback(SceneViewerUrlUnresolved);
        return false;
      }
      if !StartsWith(absolute.value, "https://") {
        SetFallback(HttpsRequired);
        alerts := alerts + [HttpsRequired];
        return false;
      }
      var sceneViewerHref := SceneViewerHref(encode(absolute.value), encode(pageUrl));
      var anchor := NewAnchor;
      anchor := anchor.(href := sceneViewerHref);
      body := body + [anchor];
      launches := launches + [Clicked(anchor, body)];
      launched := !clickThrows;
      // finally: the anchor is removed whether or not the click threw
      body := body[..|body| - 1];
    }

    /**
     * The AR button's click handler (lines 204-236); `activateThrows` stands
     * for whether `activateAR()` throws. The route it takes is `Dispatch`'s;
     * the body ends as it began.
     */
    method Click(clickThrows: bool, activateThrows: bool) returns (route: Route)
      modifies this`fallbackText, this`body, this`launches, this`alerts
      ensures route == Dispatch(platform, hasViewer, canActivateAR)
      ensures body == old(body)
      ensures route == NoViewer ==>
        fallbackText == old(fallbackText) && launches == old(launches) && alerts == old(alerts)
      ensures route == QuickLook ==>
        var plan := QuickLookPlan(Attribute(iosSrc), resolve);
        launches == old(launches) + (if plan.Go? then [Clicked(plan.anchor, old(body) + [plan.anchor])] else []) &&
        if plan.Go? && !clickThrows then fallbackText == old(fallbackText) && alerts == old(alerts)
        else fallbackText == Shown(QuickLookFailed, old(fallbackText)) && alerts == old(alerts) + [QuickLookFailed]
      ensures route == SceneViewer ==>
        var plan := SceneViewerPlan(Attribute(src), resolve, encode, pageUrl);
        launches == old(launches) + (if plan.Go? then [Clicked(plan.anchor, old(body) + [plan.anchor])] else []) &&
        alerts == old(alerts) + (if plan.Abort? && plan.alert then [HttpsRequired] else []) &&
        fallbackText == if plan.Go? && !clickThrows then old(fallbackText) else Shown(SceneViewerFailed, old(fallbackText))
      ensures route == NativeAR ==>
        launches == old(launches) + [Activated] && alerts == old(alerts) &&
        fallbackText == if activateThrows then Shown(ActivateRetry, old(fallbackText)) else old(fallbackText)
      ensures route == Unsupported ==>
        launches == old(launches) && alerts == old(alerts) + [ARUnsupported] &&
        fallbackText == Shown(ARUnsupported, old(fallbackText))
    {
      if !hasViewer {
        return NoViewer;
      }
      if platform.isiOS && !platform.isSafari {
        var launched := LaunchIOSQuickLookFallback(clickThrows);
        if !launched {
          SetFallback(QuickLookFailed);
          alerts := alerts + [QuickLookFailed];
        }
        return QuickLook;
      }
      if platform.isAndroid {
        var launched := LaunchAndroidSceneViewerIntent(clickThrows);
        if !launched {
          SetFallback(SceneViewerFailed);
        }
        return SceneViewer;
      }
      if Truthy(canActivateAR) {
        launches := launches + [Activated];
        if activateThrows {
          SetFallback(ActivateRetry);
        }
        return NativeAR;
      }
      SetFallback(ARUnsupported);
      alerts := alerts + [ARUnsupported];
      return Unsupported;
    }
  }
}
