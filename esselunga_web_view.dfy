/**
 * webviews/EsselungaWebView.kt: the browser page in which the user picks an
 * ESSELUNGA store.  Navigation is kept on the store-search and promotion
 * pages, and a finished leaflet page of one store is reported to the app
 * through the success callback.
 */
module EsselungaWebViews {
  import opened Text
  import opened Model

  const PromotionsPrefix := "https://www.esselunga.it/it-it/promozioni"
  const StoresPrefix := "https://www.esselunga.it/it-it/negozi"
  const InstitutionalPromotionsPrefix := "https://www.esselunga.it/content/istituzionale35/it/it/promozioni"
  const LeafletsPrefix := "https://www.esselunga.it/it-it/promozioni/volantini"

  /** The pages the view lets the user reach. */
  const AllowedPrefixes := [PromotionsPrefix, StoresPrefix, InstitutionalPromotionsPrefix]

  /** `shouldOverrideUrlLoading`: true (the load is blocked) unless the url starts with an allowed prefix. */
  function ShouldOverrideUrlLoading(url: string): (blocked: bool)
    ensures !blocked <==> exists i :: 0 <= i < |AllowedPrefixes| && StartsWith(url, AllowedPrefixes[i])
  {
    assert AllowedPrefixes[0] == PromotionsPrefix && AllowedPrefixes[1] == StoresPrefix &&
           AllowedPrefixes[2] == InstitutionalPromotionsPrefix;
    !(StartsWith(url, PromotionsPrefix) || StartsWith(url, StoresPrefix) || StartsWith(url, InstitutionalPromotionsPrefix))
  }

  /** What a finished page leads to: one call of the success callback, or the default handling. */
  datatype PageFinished = Callback(storeId: StoreId, url: string) | Default

  /**
   * The leaflet urls that are not a store's leaflet page: what follows the
   * leaflet prefix, once a trailing ".html" is dropped, is three characters
   * long.
   */
  predicate IsLeafletIndex(url: string) {
    StartsWith(url, LeafletsPrefix) &&
    (|url| == |LeafletsPrefix| + 3 || (|url| == |LeafletsPrefix| + 8 && EndsWith(url, ".html")))
  }

  /**
   * `onPageFinished`: a leaflet url other than the three-character ones
   * calls the callback once, with ESSELUNGA and the url unchanged; every
   * other url gets the default handling.
   */
  function OnPageFinished(url: string): (r: PageFinished)
    ensures r.Callback? <==> StartsWith(url, LeafletsPrefix) && !IsLeafletIndex(url)
    ensures r.Callback? ==> r == Callback(Esselunga, url)
  {
    if StartsWith(url, LeafletsPrefix) then
      var check := RemoveSuffix(RemovePrefix(url, LeafletsPrefix), ".html");
      LeafletCheck(url);
      if |check| == 3 then Default else Callback(Esselunga, url)
    else Default
  }

  /** The length test on the stripped leaflet url is `IsLeafletIndex`. */
  lemma LeafletCheck(url: string)
    requires StartsWith(url, LeafletsPrefix)
    ensures |RemoveSuffix(RemovePrefix(url, LeafletsPrefix), ".html")| == 3 <==> IsLeafletIndex(url)
  {
    var rest := RemovePrefix(url, LeafletsPrefix);
    assert |rest| == |url| - |LeafletsPrefix|;
    if |rest| >= 5 {
      assert url[|url| - 5..] == rest[|rest| - 5..];
    }
  }

  lemma StartsWithTrans(s: string, p: string, q: string)
    requires StartsWith(s, p) && StartsWith(p, q)
    ensures StartsWith(s, q)
  {
    assert s[..|q|] == s[..|p|][..|q|];
  }

  /**
   * A page that reports a store is one the view lets the user reach: every
   * leaflet url lies under the allowed promotions prefix.
   */
  lemma ReportedPagesAreReachable(url: string)
    requires OnPageFinished(url).Callback?
    ensures !ShouldOverrideUrlLoading(url)
  {
    assert StartsWith(LeafletsPrefix, PromotionsPrefix) by {
      assert LeafletsPrefix[..|PromotionsPrefix|] == PromotionsPrefix;
    }
    StartsWithTrans(url, LeafletsPrefix, PromotionsPrefix);
  }

  /** The leaflet page of the Gallarate store is reported. */
  lemma StoreLeafletReported()
    ensures OnPageFinished(LeafletsPrefix + ".esselunga-di-gallarate.gal.html") ==
            Callback(Esselunga, LeafletsPrefix + ".esselunga-di-gallarate.gal.html")
  {
    var url := LeafletsPrefix + ".esselunga-di-gallarate.gal.html";
    assert url[..|LeafletsPrefix|] == LeafletsPrefix;
  }
}
