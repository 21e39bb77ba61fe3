/**
 * What the two launch helpers build and the click handler's routing, as
 * values: the Quick Look anchor (public/app.js, lines 126-166), the Scene
 * Viewer intent (lines 168-202) and the dispatch order (lines 204-236).
 */
module Launch {
  import opened Base
  import opened Detector
  import opened Messages
  import opened Support

  /** The 1x1 placeholder image a Quick Look anchor carries (the data URL is not modelled). */
  datatype Img = Img(width: nat, height: nat, alt: string)

  /** A child of `document.body`: a temporary anchor, or whatever the page already holds. */
  datatype Node = Anchor(rel: Option<string>, href: string, images: seq<Img>) | PageNode(id: nat)

  /**
   * One launch attempt the browser saw: an anchor click, with the children of
   * `document.body` at the moment of the click, or a call of `activateAR()`.
   */
  datatype Attempt = Clicked(anchor: Node, bodyAtClick: seq<Node>) | Activated

  /** What a launch helper does before clicking: give up with a message (and maybe an alert), or click an anchor. */
  datatype Plan = Abort(message: string, alert: bool) | Go(anchor: Node)

  /** An empty anchor as `document.createElement('a')` makes it. */
  const NewAnchor := Anchor(None, "", [])

  /** The Quick Look anchor for a resolved USDZ URL (lines 139-153). */
  function QuickLookAnchor(url: string): (a: Node)
    ensures a.Anchor? && a.rel == Some("ar") && a.href == url
    ensures |a.images| == 1 && a.images[0].width == 1 && a.images[0].height == 1
  {
    NewAnchor.(rel := Some("ar"), href := url, images := [Img(1, 1, "")])
  }

  /**
   * `launchIOSQuickLookFallback` up to the click: it gives up, with no alert,
   * when `ios-src` is missing or does not resolve, and otherwise clicks the
   * Quick Look anchor for the resolved URL.
   */
  function QuickLookPlan(iosSrc: Option<string>, resolve: string -> Option<string>): (r: Plan)
    ensures r.Go? <==> Present(iosSrc) && Present(resolve(iosSrc.value))
    ensures r.Go? ==> r.anchor == QuickLookAnchor(resolve(iosSrc.value).value)
    ensures !Present(iosSrc) ==> r == Abort(QuickLookModelMissing, false)
    ensures Present(iosSrc) && !Present(resolve(iosSrc.value)) ==> r == Abort(QuickLookUrlUnresolved, false)
  {
    if !Present(iosSrc) then Abort(QuickLookModelMissing, false)
    else
      var absolute := resolve(iosSrc.value);
      if !Present(absolute) then Abort(QuickLookUrlUnresolved, false)
      else Go(QuickLookAnchor(absolute.value))
  }

  /** The pieces of the intent URL around the two encoded URLs. */
  const IntentHead := "intent://arvr.google.com/scene-viewer/1.0?file="
  const ModeParam := "&mode=ar_only"
  const IntentScheme := "#Intent;scheme=https;"
  const FallbackKey := "package=com.google.ar.core;S.browser_fallback_url="
  const IntentMiddle := ModeParam + IntentScheme + FallbackKey
  const IntentTail := ";end;"

  /** The Scene Viewer intent URL for an encoded model URL and an encoded page URL (line 187). */
  function SceneViewerHref(file: string, fallback: string): (h: string)
    ensures StartsWith(h, IntentHead + file + ModeParam)
    ensures EndsWith(h, FallbackKey + fallback + IntentTail)
  {
    var head := IntentHead + file + ModeParam;
    var tail := FallbackKey + fallback + IntentTail;
    var h := IntentHead + file + IntentMiddle + fallback + IntentTail;
    assert h == head + IntentScheme + tail;
    assert h[..|head|] == head;
    assert h[|h| - |tail|..] == tail;
    h
  }

  /** The parameters a Scene Viewer intent carries. */
  datatype IntentParams = IntentParams(file: string, fallback: string)

  /**
   * Reads an intent URL back: the `file` parameter runs up to the first `&`,
   * the fallback URL sits between `S.browser_fallback_url=` and `;end;`.
   */
  function ParseIntent(h: string): Option<IntentParams>
  {
    ParseBetween(h, IntentHead, IntentMiddle, IntentTail)
  }

  /** Splits `head + file + middle + fallback + tail`, taking `file` up to the first `&`. */
  function ParseBetween(h: string, head: string, middle: string, tail: string): Option<IntentParams>
  {
    if !StartsWith(h, head) then None
    else
      var rest := h[|head|..];
      var k := IndexOf(rest, '&');
      var after := rest[k..];
      if StartsWith(after, middle) && |middle| + |tail| <= |after| && EndsWith(after, tail)
      then Some(IntentParams(rest[..k], after[|middle|..|after| - |tail|]))
      else None
  }

  lemma ParseBetweenRoundTrip(head: string, file: string, middle: string, fallback: string, tail: string)
    requires '&' !in file
    requires |middle| > 0 && middle[0] == '&'
    ensures ParseBetween(head + file + middle + fallback + tail, head, middle, tail) == Some(IntentParams(file, fallback))
  {
    var h := head + file + middle + fallback + tail;
    assert h == head + (file + middle + fallback + tail);
    assert h[..|head|] == head;
    var rest := h[|head|..];
    assert rest == file + (middle + fallback + tail);
    IndexOfAfterPrefix(file, middle + fallback + tail, '&');
    var after := rest[|file|..];
    assert after == middle + fallback + tail;
    assert after[..|middle|] == middle;
    assert after[|after| - |tail|..] == tail;
    assert rest[..|file|] == file;
    assert after[|middle|..|after| - |tail|] == fallback;
  }

  /**
   * The intent carries the model URL and the page URL intact, provided the
   * encoded model URL holds no `&` (`encodeURIComponent` escapes every `&`).
   */
  lemma SceneViewerHrefRoundTrip(file: string, fallback: string)
    requires '&' !in file
    ensures ParseIntent(SceneViewerHref(file, fallback)) == Some(IntentParams(file, fallback))
  {
    ParseBetweenRoundTrip(IntentHead, file, IntentMiddle, fallback, IntentTail);
  }

  /**
   * `launchAndroidSceneViewerIntent` up to the click. It gives up when `src`
   * is missing, when it does not resolve, and when the resolved URL does not
   * start with `https://` (the only case with an alert); only then is the
   * intent built, from the encoded model URL and the encoded page URL.
   */
  function SceneViewerPlan(src: Option<string>, resolve: string -> Option<string>,
                           encode: string -> string, pageUrl: string): (r: Plan)
    ensures r.Go? <==> Present(src) && Present(resolve(src.value)) && StartsWith(resolve(src.value).value, "https://")
    ensures r.Go? ==> r.anchor == NewAnchor.(href := SceneViewerHref(encode(resolve(src.value).value), encode(pageUrl)))
    ensures !Present(src) ==> r == Abort(SceneViewerModelMissing, false)
    ensures Present(src) && !Present(resolve(src.value)) ==> r == Abort(SceneViewerUrlUnresolved, false)
    ensures r.Abort? ==> (r.alert <==> r.message == HttpsRequired)
    ensures r.Abort? && r.alert <==> Present(src) && Present(resolve(src.value)) && !StartsWith(resolve(src.value).value, "https://")
  {
    if !Present(src) then Abort(SceneViewerModelMissing, false)
    else
      var absolute := resolve(src.value);
      if !Present(absolute) then Abort(SceneViewerUrlUnresolved, false)
      else if !StartsWith(absolute.value, "https://") then Abort(HttpsRequired, true)
      else Go(NewAnchor.(href := SceneViewerHref(encode(absolute.value), encode(pageUrl))))
  }

  /** Where a click on the AR button goes. */
  datatype Route = NoViewer | QuickLook | SceneViewer | NativeAR | Unsupported

  /**
   * The click handler's routing (lines 205-236), first match wins: iOS
   * outside Safari, then Android, then a truthy `canActivateAR`, then the
   * generic refusal. Safari never takes the Quick Look anchor path, Android
   * takes Scene Viewer whatever the capability says, and native activation
   * is reached only off Android and off the iOS shells.
   */
  function Dispatch(p: Platform, hasViewer: bool, canActivateAR: JsValue): (r: Route)
    ensures r == NoViewer <==> !hasViewer
    ensures r == QuickLook <==> hasViewer && p.isiOS && !p.isSafari
    ensures r == SceneViewer <==> hasViewer && p.isAndroid && !(p.isiOS && !p.isSafari)
    ensures p.isSafari ==> r != QuickLook
    ensures r == QuickLook ==> p.isiOS
    ensures r == SceneViewer ==> p.isAndroid
    ensures hasViewer && p.isAndroid && !p.isiOS ==> r == SceneViewer
    ensures r == NativeAR <==> hasViewer && Truthy(canActivateAR) && !p.isAndroid && (!p.isiOS || p.isSafari)
    ensures r == Unsupported <==> hasViewer && !Truthy(canActivateAR) && !p.isAndroid && (!p.isiOS || p.isSafari)
  {
    if !hasViewer then NoViewer
    else if p.isiOS && !p.isSafari then QuickLook
    else if p.isAndroid then SceneViewer
    else if Truthy(canActivateAR) then NativeAR
    else Unsupported
  }

  /**
   * When the synchronised message is the generic refusal, a click refuses
   * too (and alerts the same words).
   */
  lemma UnsupportedMessageMeansUnsupportedClick(p: Platform, v: JsValue)
    requires SyncMessage(p, Normalize(v)) == ARUnsupported
    ensures Dispatch(p, true, v) == Unsupported
  {
  }

  /** When the synchronised message is empty, a click never ends in the generic refusal. */
  lemma ReadyMeansSomeLaunch(p: Platform, v: JsValue)
    requires SyncMessage(p, Normalize(v)) == ""
    ensures Dispatch(p, true, v) != Unsupported
  {
  }

  /**
   * iOS Safari with `canActivateAR === false` is told that Quick Look
   * preparation failed, and its click ends in the generic refusal, not in an
   * anchor with `rel="ar"`.
   */
  lemma SafariWithoutCapabilityIsRefused(p: Platform)
    requires p.Valid() && p.isSafari && !p.isAndroid
    ensures SyncMessage(p, No) == QuickLookPrepFailed
    ensures Dispatch(p, true, Bool(false)) == Unsupported
  {
  }

  /** On Android (off iOS) a capable browser still launches Scene Viewer, never `activateAR()`. */
  lemma AndroidIgnoresCapability(p: Platform, v: JsValue)
    requires p.Valid() && p.isAndroid && !p.isiOS
    ensures SyncMessage(p, Normalize(v)) == (if v == Bool(true) then "" else SceneViewerRequirements)
    ensures Dispatch(p, true, v) == SceneViewer
  {
  }
}
