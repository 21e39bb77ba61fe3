/** The status strings public/app.js writes into the fallback line or shows in an alert. */
module Messages {

  /** Shown by `initialize` before the first synchronisation (line 113). */
  const Preparing := "ARの起動準備中です…"

  /** iOS outside Safari: Quick Look opens in a separate window (line 64). */
  const QuickLookSeparateWindow := "iOS版Chrome等ではQuick Lookを別ウィンドウで開きます。起動しない場合はSafariをご利用ください。"

  /** Capability still unknown (lines 70 and 83). */
  const Checking := "ARの対応状況を確認しています…"

  /** Safari with `canActivateAR === false` (line 72). */
  const QuickLookPrepFailed := "Quick Lookの準備に失敗しました。HTTPS証明書が信頼済みか確認してください。"

  /** Android without native activation (line 78). */
  const SceneViewerRequirements := "Scene Viewerは公開HTTPSのGLBとARCore対応端末が必要です。証明書と公開URLを確認してください。"

  /** iOS without Quick Look (line 88); unreachable. */
  const IOSQuickLookDisabled := "この端末はQuick Lookが利用できない設定です。iOS Safariで再度お試しください。"

  /** Android without Scene Viewer (line 90); unreachable. */
  const SceneViewerUnsupported := "この端末はScene Viewerに対応していません。ARCore対応端末か最新版Chromeをご利用ください。"

  /** Generic "this device/browser does not support AR" (lines 92, 234 and 235). */
  const ARUnsupported := "この端末・ブラウザはARに対応していません。"

  /** An `ar-status` event reported `failed` (line 99). */
  const ARFailed := "ARの起動に失敗しました。別のブラウザや端末をお試しください。"

  /** No `ios-src` attribute (line 129). */
  const QuickLookModelMissing := "Quick Look用のモデルが見つかりません。"

  /** The `ios-src` URL did not resolve (line 135). */
  const QuickLookUrlUnresolved := "Quick Look用URLを解決できませんでした。"

  /** No `src` attribute (line 171). */
  const SceneViewerModelMissing := "Scene Viewer用のモデルが見つかりません。"

  /** The `src` URL did not resolve (line 177). */
  const SceneViewerUrlUnresolved := "Scene Viewer用URLを解決できませんでした。"

  /** The resolved model URL is not `https://` (lines 182 and 183). */
  const HttpsRequired := "Scene ViewerはHTTPSで公開されたURLが必要です。"

  /** The Quick Look launch failed (lines 210 and 211). */
  const QuickLookFailed := "Quick Lookが開けませんでした。Safariで再度お試しください。"

  /** The Scene Viewer launch failed (line 219). */
  const SceneViewerFailed := "Scene Viewerが起動できませんでした。公開HTTPS環境に配置されているか確認してください。"

  /** `activateAR()` threw (line 229). */
  const ActivateRetry := "ARの起動に失敗しました。もう一度お試しください。"
}
