/** Audio file names: both detail screens rewrite the number before a trailing `.mp3`
    to at least three digits, and downloads are named `hino_NNN.mp3` the same way. */
module AudioFiles {
  import opened Common

  predicate EndsWithMp3(url: string)
  {
    |url| >= 4 && url[|url| - 4..] == ".mp3"
  }

  /** Where the run of digits that ends at `end` begins. */
  function RunStart(s: string, end: nat): (k: nat)
    requires end <= |s|
    ensures k <= end && AllDigits(s[k..end])
    ensures k == 0 || !IsDigit(s[k - 1])
    decreases end
  {
    if end == 0 || !IsDigit(s[end - 1]) then end
    else
      var k := RunStart(s, end - 1);
      assert s[k..end] == s[k..end - 1] + [s[end - 1]];
      k
  }

  lemma {:induction false} RunStartIs(s: string, k: nat, end: nat)
    requires k <= end <= |s|
    requires AllDigits(s[k..end]) && (k == 0 || !IsDigit(s[k - 1]))
    ensures RunStart(s, end) == k
    decreases end
  {
    if end > k {
      assert s[end - 1] in s[k..end];
      assert s[k..end - 1] == s[k..end][..end - 1 - k];
      RunStartIs(s, k, end - 1);
    }
  }

  /** `/(\d+)\.mp3$/` matches: one digit or more right before a final `.mp3`. */
  predicate HasNumberedMp3(url: string)
  {
    EndsWithMp3(url) && |url| >= 5 && IsDigit(url[|url| - 5])
  }

  /** Where the leftmost match of the pattern begins: the whole digit run before `.mp3`. */
  function MatchStart(url: string): nat
    requires EndsWithMp3(url)
  {
    RunStart(url, |url| - 4)
  }

  /** `n.toString().padStart(3, '0')` */
  function ThreeDigits(n: int): string
  {
    PadStart(IntToString(n), 3, '0')
  }

  /** `d` writes `v` in decimal with at least three digits and no more leading zeros
      than that needs. */
  predicate PaddedRun(d: string, v: nat)
  {
    AllDigits(d) && |d| >= 3 && (|d| > 3 ==> d[0] != '0') && DigitsValue(d) == v
  }

  lemma ThreeDigitsOfNat(n: nat)
    ensures PaddedRun(ThreeDigits(n), n)
  {
    ZeroPadValue(NatToString(n), 3);
    NatToStringValue(n);
  }

  /** `corrigirAudioUrl`: the digit run before a final `.mp3` becomes its value, written
      with at least three digits; any other text comes back unchanged. The number is the
      `parseInt` of the run, which for a run of digits is its value (`ParseIntOfDigits`). */
  function CorrigirAudioUrl(url: string): (r: string)
    ensures !HasNumberedMp3(url) ==> r == url
    ensures HasNumberedMp3(url) ==>
      |r| >= MatchStart(url) + 4 && r[..MatchStart(url)] == url[..MatchStart(url)] && EndsWithMp3(r)
      && PaddedRun(r[MatchStart(url)..|r| - 4], DigitsValue(url[MatchStart(url)..|url| - 4]))
  {
    if !HasNumberedMp3(url) then url
    else
      var k := MatchStart(url);
      var n := DigitsValue(url[k..|url| - 4]);
      ThreeDigitsOfNat(n);
      var r := url[..k] + ThreeDigits(n) + ".mp3";
      assert r[..k] == url[..k] && r[k..|r| - 4] == ThreeDigits(n) && r[|r| - 4..] == ".mp3";
      r
  }

  /** The number the pattern captures, read with `parseInt`, is the run's value. */
  lemma CapturedNumber(url: string)
    requires HasNumberedMp3(url)
    ensures ParseInt(url[MatchStart(url)..|url| - 4]) == Some(DigitsValue(url[MatchStart(url)..|url| - 4]))
  {
    var d := url[MatchStart(url)..|url| - 4];
    assert url[|url| - 5] == d[|d| - 1];
    ParseIntOfDigits(d);
  }

  lemma {:induction false} CorrectedFormParts(pre: string, d: string)
    requires d != [] && AllDigits(d)
    requires pre == [] || !IsDigit(pre[|pre| - 1])
    ensures var u := pre + d + ".mp3";
      HasNumberedMp3(u) && MatchStart(u) == |pre| && u[..|pre|] == pre && u[|pre|..|u| - 4] == d
  {
    var u := pre + d + ".mp3";
    assert u[|u| - 4..] == ".mp3";
    assert u[|pre|..|u| - 4] == d;
    assert u[|u| - 5] == d[|d| - 1] && d[|d| - 1] in d;
    assert |pre| == 0 || u[|pre| - 1] == pre[|pre| - 1];
    RunStartIs(u, |pre|, |u| - 4);
    assert u[..|pre|] == pre;
  }

  /** A name already in the corrected form is left as it is. */
  lemma CorrectedFormIsFixed(pre: string, n: nat)
    requires pre == [] || !IsDigit(pre[|pre| - 1])
    ensures CorrigirAudioUrl(pre + ThreeDigits(n) + ".mp3") == pre + ThreeDigits(n) + ".mp3"
  {
    ThreeDigitsOfNat(n);
    CorrectedFormParts(pre, ThreeDigits(n));
  }

  /** Correcting twice is correcting once. */
  lemma CorrigirIdempotent(url: string)
    ensures CorrigirAudioUrl(CorrigirAudioUrl(url)) == CorrigirAudioUrl(url)
  {
    if HasNumberedMp3(url) {
      var k := MatchStart(url);
      var n := DigitsValue(url[k..|url| - 4]);
      assert k == 0 || url[..k][k - 1] == url[k - 1];
      CorrectedFormIsFixed(url[..k], n);
    }
  }

  /** The name a downloaded or shared audio file gets. */
  function DownloadFilename(numero: int): (r: string)
    ensures |r| >= 12 && r[..5] == "hino_" && EndsWithMp3(r)
  {
    "hino_" + ThreeDigits(numero) + ".mp3"
  }

  /** The download name of a hymn is already in corrected form, and it carries the
      hymn's number. */
  lemma DownloadFilenameIsCorrected(numero: nat)
    ensures CorrigirAudioUrl(DownloadFilename(numero)) == DownloadFilename(numero)
    ensures var r := DownloadFilename(numero); DigitsValue(r[5..|r| - 4]) == numero
  {
    ThreeDigitsOfNat(numero);
    CorrectedFormIsFixed("hino_", numero);
    var r := DownloadFilename(numero);
    assert r[5..|r| - 4] == ThreeDigits(numero);
  }
}
