/**
 * The referral card (components/ReferralCard.tsx): the URL its QR code and
 * copy button carry, the labels it shows, the file name of its download, and
 * the `downloading` flag around the image export.
 */
module Referral {
  import opened Wrappers
  import opened JsStrings
  import opened JsNumbers
  import opened Scan

  /** `${baseUrl}/claim/${code}`: the link the card's QR code and copy button carry. */
  function ShareUrl(baseUrl: string, code: string): string {
    baseUrl + ClaimMarker + code
  }

  /**
   * No "/claim/" of the share URL starts inside the base, provided the base
   * neither contains "/claim/" nor ends in "/claim" (where an occurrence
   * could start inside the base and run into the separator).
   */
  lemma {:induction false} NoMarkerStartsInBase(baseUrl: string, code: string, j: nat)
    requires !Includes(baseUrl, ClaimMarker) && !EndsWith(baseUrl, "/claim")
    requires j < |baseUrl|
    ensures !OccursAt(ShareUrl(baseUrl, code), ClaimMarker, j)
  {
    var s := ShareUrl(baseUrl, code);
    var n := |baseUrl|;
    if j + 7 <= n {
      assert s[j..j + 7] == baseUrl[j..j + 7];
      assert !OccursAt(baseUrl, ClaimMarker, j);
    } else if n - j < 6 {
      if j + 7 <= |s| {
        assert s[j..j + 7][n - j] == s[n] == '/';
        assert ClaimMarker[n - j] != '/';
      }
    } else {
      assert s[j..j + 6] == baseUrl[n - 6..];
      assert ClaimMarker[..6] == "/claim";
    }
  }

  /** In `baseUrl + "/claim/" + code` the first "/claim/" is the one put there, for a base as above. */
  lemma {:induction false} FirstMarkerIsTheSeparator(baseUrl: string, code: string)
    requires !Includes(baseUrl, ClaimMarker) && !EndsWith(baseUrl, "/claim")
    ensures IndexOf(ShareUrl(baseUrl, code), ClaimMarker) == Some(|baseUrl|)
  {
    var s := ShareUrl(baseUrl, code);
    var n := |baseUrl|;
    assert OccursAt(s, ClaimMarker, n) by {
      assert s[n..n + 7] == ClaimMarker;
    }
    forall j: nat | j < n
      ensures !OccursAt(s, ClaimMarker, j)
    {
      NoMarkerStartsInBase(baseUrl, code, j);
    }
  }

  /**
   * Scanning a card gives back its code: the scan parser applied to the
   * share URL returns the code, for a clean code and a base that cannot
   * produce an earlier "/claim/".
   */
  lemma ShareUrlScansBack(baseUrl: string, code: string)
    requires code != "" && !Includes(code, ClaimMarker)
    requires code[|code| - 1] != '/' && !IsWhitespace(code[0]) && !IsWhitespace(code[|code| - 1])
    requires !Includes(baseUrl, ClaimMarker) && !EndsWith(baseUrl, "/claim")
    ensures ExtractToken(ShareUrl(baseUrl, code)) == code
  {
    var s := ShareUrl(baseUrl, code);
    FirstMarkerIsTheSeparator(baseUrl, code);
    assert s[|baseUrl| + |ClaimMarker|..] == code;
    SecondPiece(s, ClaimMarker);
    assert TokenPiece(s) == code;
    CleanKeepsCleanToken(code);
  }

  /**
   * A base ending in "/claim" breaks the round trip: the scan reads the
   * separator's "/claim/" as starting inside the base and returns "claim/"
   * in front of the code.
   */
  lemma BaseEndingInClaimBreaksRoundTrip(base: string, code: string)
    requires !Includes(base, ClaimMarker) && !EndsWith(base, "/claim")
    requires code != "" && code[|code| - 1] != '/' && !IsWhitespace(code[|code| - 1])
    requires !Includes("claim/" + code, ClaimMarker)
    ensures ExtractToken(ShareUrl(base + "/claim", code)) == "claim/" + code
    ensures ExtractToken(ShareUrl(base + "/claim", code)) != code
  {
    assert ShareUrl(base + "/claim", code) == ShareUrl(base, "claim/" + code);
    ShareUrlScansBack(base, "claim/" + code);
  }

  /** `PASS-IT-CARD-${index + 1}.png`. */
  function DownloadFilename(index: nat): string {
    "PASS-IT-CARD-" + DecimalText(index + 1) + ".png"
  }

  /** Different cards download under different file names. */
  lemma FilenamesDistinct(i: nat, j: nat)
    requires DownloadFilename(i) == DownloadFilename(j)
    ensures i == j
  {
    var a, b := DecimalText(i + 1), DecimalText(j + 1);
    var prefix := "PASS-IT-CARD-";
    assert |a| == |b| by {
      assert |DownloadFilename(i)| == |prefix| + |a| + 4;
      assert |DownloadFilename(j)| == |prefix| + |b| + 4;
    }
    assert a == DownloadFilename(i)[|prefix|..|prefix| + |a|];
    assert b == DownloadFilename(j)[|prefix|..|prefix| + |b|];
    DecimalTextInjective(i + 1, j + 1);
  }

  /** The card's node label, `NODE #${index + 1}`. */
  function NodeLabel(index: nat): string {
    "NODE #" + DecimalText(index + 1)
  }

  /** The node label and the download file name carry the same number. */
  lemma NodeLabelMatchesFilename(index: nat)
    ensures NodeLabel(index)[6..] == DownloadFilename(index)[13..|DownloadFilename(index)| - 4]
    ensures DigitsValue(NodeLabel(index)[6..]) == index + 1
  {
    DecimalTextRoundTrip(index + 1);
    assert NodeLabel(index)[6..] == DecimalText(index + 1);
  }

  /** `ID: ${code.substring(0, 8)}...${code.substring(code.length - 4)}`. */
  function IdLabel(code: string): (r: string)
    ensures |code| >= 8 ==> r == code[..8] + "..." + code[|code| - 4..]
    ensures 4 <= |code| < 8 ==> r == code + "..." + code[|code| - 4..]
    ensures |code| < 4 ==> r == code + "..." + code
  {
    Abbreviate(code, 8, 4)
  }

  const CopiedAlert := "Link copiado"
  const ExportFailedAlert := "No se pudo generar la imagen. Revisa la consola para más detalles."

  /** One rendered card and what it has done. */
  class ReferralCard {
    const code: string
    const index: nat
    const baseUrl: string
    /** The image export has started and not finished; the button is disabled meanwhile. */
    var downloading: bool
    /** Files saved by the download link, in order. */
    var saved: seq<string>
    var alerts: seq<string>
    var clipboard: Option<string>

    constructor (code: string, index: nat, baseUrl: string)
      ensures !downloading && saved == [] && alerts == [] && clipboard == None
      ensures this.code == code && this.index == index && this.baseUrl == baseUrl
    {
      this.code, this.index, this.baseUrl := code, index, baseUrl;
      downloading := false;
      saved, alerts, clipboard := [], [], None;
    }

    /** The value the QR code encodes. */
    function QrValue(): string {
      ShareUrl(baseUrl, code)
    }

    /** The copy button: the clipboard gets the share URL, then an alert. */
    method CopyLink()
      modifies this
      ensures clipboard == Some(QrValue()) && alerts == old(alerts) + [CopiedAlert]
      ensures downloading == old(downloading) && saved == old(saved)
    {
      clipboard := Some(ShareUrl(baseUrl, code));
      alerts := alerts + [CopiedAlert];
    }

    /**
     * `downloadImage` up to its first `await`: nothing without a card
     * element; otherwise `downloading` is set and the export starts. The
     * button is disabled while downloading.
     */
    method DownloadImage(hasCardElement: bool)
      requires !downloading
      modifies this
      ensures downloading == hasCardElement
      ensures saved == old(saved) && alerts == old(alerts) && clipboard == old(clipboard)
    {
      if !hasCardElement {
        return;
      }
      downloading := true;
    }

    /**
     * The export finishes: on success the PNG is saved under the card's
     * file name, on failure an alert is shown; either way `downloading` is
     * reset.
     */
    method FinishExport(succeeded: bool)
      requires downloading
      modifies this
      ensures !downloading
      ensures succeeded ==> saved == old(saved) + [DownloadFilename(index)] && alerts == old(alerts)
      ensures !succeeded ==> saved == old(saved) && alerts == old(alerts) + [ExportFailedAlert]
      ensures clipboard == old(clipboard)
    {
      if succeeded {
        saved := saved + [DownloadFilename(index)];
      } else {
        alerts := alerts + [ExportFailedAlert];
      }
      downloading := false;
    }
  }

  /** Scanning a card's QR code gives back the card's code, under the conditions of `ShareUrlScansBack`. */
  lemma QrScansBack(c: ReferralCard)
    requires c.code != "" && !Includes(c.code, ClaimMarker)
    requires c.code[|c.code| - 1] != '/' && !IsWhitespace(c.code[0]) && !IsWhitespace(c.code[|c.code| - 1])
    requires !Includes(c.baseUrl, ClaimMarker) && !EndsWith(c.baseUrl, "/claim")
    ensures ExtractToken(c.QrValue()) == c.code
  {
    ShareUrlScansBack(c.baseUrl, c.code);
  }
}
