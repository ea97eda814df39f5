/**
 * The scan page's handler (app/scan/page.tsx): it takes the first code the
 * camera reports, extracts the redemption token from it, and navigates to
 * that token's claim page once, guarded by the `scanned` latch.
 */
module Scan {
  import opened Wrappers
  import opened JsStrings

  const ClaimMarker := "/claim/"
  const ShortMarker := "/c/"

  /** One code the scanner reports. */
  datatype DetectedCode = DetectedCode(rawValue: string)

  /**
   * The token part of a scanned value: the piece after the first "/claim/"
   * (up to a further "/claim/"), else the piece after the first "/c/", else
   * the whole value.
   */
  function TokenPiece(raw: string): (piece: string)
    ensures Includes(raw, ClaimMarker) ==>
      var rest := raw[IndexOf(raw, ClaimMarker).value + |ClaimMarker|..];
      piece == (if Includes(rest, ClaimMarker) then rest[..IndexOf(rest, ClaimMarker).value] else rest)
    ensures !Includes(raw, ClaimMarker) && Includes(raw, ShortMarker) ==>
      var rest := raw[IndexOf(raw, ShortMarker).value + |ShortMarker|..];
      piece == (if Includes(rest, ShortMarker) then rest[..IndexOf(rest, ShortMarker).value] else rest)
    ensures !Includes(raw, ClaimMarker) && !Includes(raw, ShortMarker) ==> piece == raw
  {
    if Includes(raw, ClaimMarker) then
      SecondPiece(raw, ClaimMarker);
      Split(raw, ClaimMarker)[1]
    else if Includes(raw, ShortMarker) then
      SecondPiece(raw, ShortMarker);
      Split(raw, ShortMarker)[1]
    else raw
  }

  /** `token.replace(/\/$/, '')`: drop one trailing slash, if there is one. */
  function DropTrailingSlash(t: string): (r: string)
    ensures EndsWith(t, "/") ==> r + "/" == t
    ensures !EndsWith(t, "/") ==> r == t
  {
    if |t| > 0 && t[|t| - 1] == '/' then t[..|t| - 1] else t
  }

  /** The cleaning step: drop one trailing slash, then trim. */
  function Clean(t: string): (r: string)
    ensures r == "" || (!IsWhitespace(r[0]) && !IsWhitespace(r[|r| - 1]))
  {
    TrimEdges(DropTrailingSlash(t));
    Trim(DropTrailingSlash(t))
  }

  /** The token a scanned value yields; empty means "nothing to claim". */
  function ExtractToken(raw: string): string {
    Clean(TokenPiece(raw))
  }

  /** A token that is already clean passes the cleaning step unchanged. */
  lemma CleanKeepsCleanToken(t: string)
    requires t == "" || (!IsWhitespace(t[0]) && !IsWhitespace(t[|t| - 1]) && t[|t| - 1] != '/')
    ensures Clean(t) == t
  {
    TrimNoop(t);
  }

  /** Only one trailing slash goes: a doubled one leaves a slash at the end. */
  lemma CleanDropsOneSlash(x: string)
    ensures Clean(x + "//") == Trim(x + "/")
    ensures EndsWith(Clean(x + "//"), "/")
  {
    var s := x + "/";
    assert (x + "//")[..|x| + 1] == s;
    assert !IsWhitespace(s[|s| - 1]);
    assert !AllWhitespace(s[..|s|]);
    var t := TrimStart(s);
    TrimStartSpec(s);
    assert |t| > 0;
    assert t[|t| - 1] == s[|s| - 1];
  }

  /** The slash is dropped before trimming, so a slash followed by whitespace stays. */
  lemma SlashBeforeWhitespaceStays(x: string, ws: string)
    requires |ws| > 0 && AllWhitespace(ws)
    requires x == "" || !IsWhitespace(x[0])
    ensures Clean(x + "/" + ws) == x + "/"
  {
    var t := x + "/" + ws;
    assert DropTrailingSlash(t) == t;
    var u := x + "/";
    assert TrimStart(t) == t by {
      assert t[0] == (if x == "" then '/' else x[0]);
    }
    TrimEndDropsWhitespace(u, ws);
    TrimNoop(u);
  }

  lemma {:induction false} TrimEndDropsWhitespace(u: string, ws: string)
    requires AllWhitespace(ws)
    requires u == "" || !IsWhitespace(u[|u| - 1])
    ensures TrimEnd(u + ws) == u
    decreases |ws|
  {
    if ws != [] {
      var init := ws[..|ws| - 1];
      assert (u + ws)[..|u + ws| - 1] == u + init;
      TrimEndDropsWhitespace(u, init);
    } else {
      assert u + ws == u;
    }
  }

  /** The scan page's state: the latch and the navigations made. */
  class ScanPage {
    var scanned: bool
    /** The routes pushed to the router, in order. */
    var navigations: seq<string>

    constructor ()
      ensures !scanned && navigations == []
    {
      scanned := false;
      navigations := [];
    }

    /**
     * `handleScan(detectedCodes)`: ignored once latched or when nothing was
     * detected; otherwise the first code's token, when non-empty, latches
     * the page and is navigated to.
     */
    method HandleScan(detectedCodes: Option<seq<DetectedCode>>)
      modifies this
      ensures old(scanned) || detectedCodes.None? || detectedCodes.value == [] ==>
        scanned == old(scanned) && navigations == old(navigations)
      ensures !old(scanned) && detectedCodes.Some? && detectedCodes.value != [] ==>
        var token := ExtractToken(detectedCodes.value[0].rawValue);
        && (token == "" ==> !scanned && navigations == old(navigations))
        && (token != "" ==> scanned && navigations == old(navigations) + ["/claim/" + token])
    {
      if scanned {
        return;
      }
      if detectedCodes.Some? && |detectedCodes.value| > 0 {
        var rawValue := detectedCodes.value[0].rawValue;
        var token := rawValue;
        if Includes(rawValue, ClaimMarker) {
          var parts := Split(rawValue, ClaimMarker);
          token := parts[1];
        } else if Includes(rawValue, ShortMarker) {
          var parts := Split(rawValue, ShortMarker);
          token := parts[1];
        }
        token := Trim(DropTrailingSlash(token));
        if token != "" {
          scanned := true;
          navigations := navigations + ["/claim/" + token];
        }
      }
    }
  }

  /** After one successful navigation every further scan changes nothing. */
  method ScanTwice(first: seq<DetectedCode>, second: seq<DetectedCode>) returns (page: ScanPage)
    requires |first| > 0 && ExtractToken(first[0].rawValue) != ""
    ensures page.scanned && page.navigations == ["/claim/" + ExtractToken(first[0].rawValue)]
  {
    page := new ScanPage();
    page.HandleScan(Some(first));
    page.HandleScan(Some(second));
  }
}
