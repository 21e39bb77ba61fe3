/**
 * The platform classifier: four flags computed once from the User-Agent
 * string by case-insensitive token tests (public/app.js, lines 5-9).
 */
module Detector {

  /**
   * ASCII case folding. A regular expression with the `i` flag (and no `u`
   * flag) never folds a non-ASCII character onto an ASCII one, and every
   * token tested here is ASCII letters, so this folding decides every match.
   */
  function Fold(c: char): (d: char)
    ensures 'A' <= c <= 'Z' ==> 'a' <= d <= 'z' && d as int - c as int == 32
    ensures !('A' <= c <= 'Z') ==> d == c
  {
    if 'A' <= c <= 'Z' then (c as int + 32) as char else c
  }

  /** The whole string, case-folded character by character. */
  function FoldAll(s: string): (r: string)
    ensures |r| == |s|
    ensures forall i :: 0 <= i < |s| ==> r[i] == Fold(s[i])
  {
    seq(|s|, i requires 0 <= i < |s| => Fold(s[i]))
  }

  /** `t` stands at the very front of `s`, ignoring ASCII case. */
  predicate StartsCI(s: string, t: string)
  {
    |t| <= |s| && forall j :: 0 <= j < |t| ==> Fold(s[j]) == Fold(t[j])
  }

  /** `t` occurs somewhere in `s`, ignoring ASCII case: what `/t/i.test(s)` answers. */
  function ContainsCI(s: string, t: string): bool
    decreases |s|
  {
    StartsCI(s, t) || (|s| > 0 && ContainsCI(s[1..], t))
  }

  /** The scan finds `t` exactly when some offset of `s` begins with it. */
  lemma {:induction false} ContainsCIAtSomeOffset(s: string, t: string)
    ensures ContainsCI(s, t) <==> exists i :: 0 <= i <= |s| && StartsCI(s[i..], t)
  {
    if s == [] {
      if ContainsCI(s, t) {
        assert s[0..] == s;
      }
      if exists i :: 0 <= i <= |s| && StartsCI(s[i..], t) {
        var i :| 0 <= i <= |s| && StartsCI(s[i..], t);
        assert i == 0 && s[i..] == s;
      }
    } else {
      ContainsCIAtSomeOffset(s[1..], t);
      if ContainsCI(s, t) {
        if StartsCI(s, t) {
          assert s[0..] == s;
        } else {
          var j :| 0 <= j <= |s[1..]| && StartsCI(s[1..][j..], t);
          assert s[1..][j..] == s[j + 1..];
        }
      }
      if exists i :: 0 <= i <= |s| && StartsCI(s[i..], t) {
        var i :| 0 <= i <= |s| && StartsCI(s[i..], t);
        if i == 0 {
          assert s[i..] == s;
        } else {
          assert s[1..][i - 1..] == s[i..];
        }
      }
    }
  }

  /** Folding the User-Agent first changes no token test: the `i` flag at work. */
  lemma {:induction false} ContainsCIIgnoresCase(s: string, t: string)
    ensures ContainsCI(FoldAll(s), t) == ContainsCI(s, t)
    decreases |s|
  {
    var f := FoldAll(s);
    assert StartsCI(f, t) == StartsCI(s, t) by {
      forall j | 0 <= j < |t| && j < |s|
        ensures Fold(f[j]) == Fold(s[j])
      {
      }
    }
    if s != [] {
      assert f[1..] == FoldAll(s[1..]);
      ContainsCIIgnoresCase(s[1..], t);
    }
  }

  /** The four flags of public/app.js, lines 6-9. */
  datatype Platform = Platform(isiOS: bool, isAndroid: bool, isIOSChromeLike: bool, isSafari: bool)
  {
    /** The relations the classifier guarantees between the flags. */
    predicate Valid()
    {
      (isSafari ==> isiOS && !isIOSChromeLike) && (isIOSChromeLike ==> isiOS)
    }
  }

  /** `/iP(ad|hone|od)/i`: an iPad, iPhone or iPod device token. */
  predicate HasIOSDeviceToken(ua: string)
  {
    ContainsCI(ua, "iPad") || ContainsCI(ua, "iPhone") || ContainsCI(ua, "iPod")
  }

  /** `/(CriOS|FxiOS|EdgiOS|OPiOS)/i`: the token of a non-Safari browser shell on iOS. */
  predicate HasIOSShellToken(ua: string)
  {
    ContainsCI(ua, "CriOS") || ContainsCI(ua, "FxiOS") || ContainsCI(ua, "EdgiOS") || ContainsCI(ua, "OPiOS")
  }

  /**
   * Classifies a User-Agent string (a missing one is read as ""). Safari and
   * Chrome-like exclude each other and both imply iOS; an iOS device counts
   * as Safari exactly when it has a `Safari` token and no shell token.
   */
  function Classify(ua: string): (p: Platform)
    ensures p.Valid()
    ensures p.isiOS <==> HasIOSDeviceToken(ua)
    ensures p.isAndroid <==> ContainsCI(ua, "Android")
    ensures p.isIOSChromeLike <==> HasIOSDeviceToken(ua) && HasIOSShellToken(ua)
    ensures p.isSafari <==> HasIOSDeviceToken(ua) && !HasIOSShellToken(ua) && ContainsCI(ua, "Safari")
    ensures p.isiOS && !p.isSafari <==> HasIOSDeviceToken(ua) && (HasIOSShellToken(ua) || !ContainsCI(ua, "Safari"))
  {
    var isiOS := HasIOSDeviceToken(ua);
    var isAndroid := ContainsCI(ua, "Android");
    var isIOSChromeLike := isiOS && HasIOSShellToken(ua);
    var isSafari := isiOS && !isIOSChromeLike && ContainsCI(ua, "Safari");
    Platform(isiOS, isAndroid, isIOSChromeLike, isSafari)
  }

  /** Upper- or lower-casing the ASCII letters of the User-Agent yields the same platform. */
  lemma ClassifyIgnoresCase(ua: string)
    ensures Classify(FoldAll(ua)) == Classify(ua)
  {
    var tokens := ["iPad", "iPhone", "iPod", "Android", "CriOS", "FxiOS", "EdgiOS", "OPiOS", "Safari"];
    forall t | t in tokens
      ensures ContainsCI(FoldAll(ua), t) == ContainsCI(ua, t)
    {
      ContainsCIIgnoresCase(ua, t);
    }
  }
}
