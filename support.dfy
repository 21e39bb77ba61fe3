/**
 * The decision inside `syncSupportState` (public/app.js, lines 49-94): from
 * the platform and the embed's capability flag, the single fallback message.
 */
module Support {
  import opened Detector
  import opened Messages

  /**
   * The raw value of the embed's `canActivateAR` property: a boolean, or some
   * other JavaScript value (usually `undefined`) with its truthiness.
   */
  datatype JsValue = Bool(b: bool) | NonBoolean(truthy: bool)

  /** `if (value)`: JavaScript truthiness. */
  predicate Truthy(v: JsValue)
  {
    match v
    case Bool(b) => b
    case NonBoolean(t) => t
  }

  /** The capability as `syncSupportState` sees it: `true`, `false` or `null`. */
  datatype TriState = Yes | No | Unknown

  /** `typeof canActivateAR === 'boolean' ? canActivateAR : null` (lines 52-54). */
  function Normalize(v: JsValue): (c: TriState)
    ensures c == Unknown <==> v.NonBoolean?
    ensures c == Yes <==> v == Bool(true)
  {
    match v
    case Bool(b) => if b then Yes else No
    case NonBoolean(_) => Unknown
  }

  /**
   * The fallback message `syncSupportState` leaves behind (lines 58-93),
   * branch for branch, including the two branches at lines 87-90 that no
   * input reaches: every iOS input has returned at line 65 or 74 and every
   * Android input at line 79.
   */
  function SyncMessage(p: Platform, c: TriState): (m: string)
    ensures m == "" <==> c == Yes
    ensures m != IOSQuickLookDisabled && m != SceneViewerUnsupported
    ensures c != Yes && p.isiOS && !p.isSafari ==> m == QuickLookSeparateWindow
    ensures m == Checking <==> c == Unknown && (p.isSafari || (!p.isiOS && !p.isAndroid))
    ensures m == ARUnsupported <==> c == No && !p.isSafari && !p.isiOS && !p.isAndroid
  {
    if c == Yes then ""
    else if p.isiOS && !p.isSafari then QuickLookSeparateWindow
    else if p.isSafari then (if c == Unknown then Checking else QuickLookPrepFailed)
    else if p.isAndroid then SceneViewerRequirements
    else if c == Unknown then Checking
    else if p.isiOS then IOSQuickLookDisabled
    else if p.isAndroid then SceneViewerUnsupported
    else assert c == No && !p.isSafari && !p.isiOS && !p.isAndroid; ARUnsupported
  }

  /** The four platform classes a valid classification falls into, in the order the code tests them. */
  datatype PlatformClass = IOSNonSafari | IOSSafari | AndroidDevice | OtherPlatform

  function ClassOf(p: Platform): (k: PlatformClass)
    requires p.Valid()
    ensures k == IOSSafari <==> p.isSafari
    ensures k == IOSNonSafari <==> p.isiOS && !p.isSafari
    ensures k == AndroidDevice <==> p.isAndroid && !p.isiOS
  {
    if p.isiOS then (if p.isSafari then IOSSafari else IOSNonSafari)
    else if p.isAndroid then AndroidDevice
    else OtherPlatform
  }

  /** The decision table written out cell by cell: class by capability. */
  function Table(k: PlatformClass, c: TriState): string
  {
    match (k, c)
    case (_, Yes) => ""
    case (IOSNonSafari, No) => QuickLookSeparateWindow
    case (IOSNonSafari, Unknown) => QuickLookSeparateWindow
    case (IOSSafari, No) => QuickLookPrepFailed
    case (IOSSafari, Unknown) => Checking
    case (AndroidDevice, No) => SceneViewerRequirements
    case (AndroidDevice, Unknown) => SceneViewerRequirements
    case (OtherPlatform, No) => ARUnsupported
    case (OtherPlatform, Unknown) => Checking
  }

  /** For every classified platform the first-match chain agrees with the table. */
  lemma SyncFollowsTable(p: Platform, c: TriState)
    requires p.Valid()
    ensures SyncMessage(p, c) == Table(ClassOf(p), c)
  {
  }

  /** Every message the chain can produce is one of six; the table uses them all. */
  lemma SyncOutcomes(p: Platform, c: TriState)
    ensures SyncMessage(p, c) in {"", QuickLookSeparateWindow, Checking, QuickLookPrepFailed, SceneViewerRequirements, ARUnsupported}
  {
  }
}
