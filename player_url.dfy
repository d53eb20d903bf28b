/** `YouTubeExtractor.formatPlayerUrl`: the absolute URL of the player script. */
module PlayerUrls {
  import opened Wrappers
  import opened ExtractorTypes

  /** The site root every request of the extractor goes to. */
  const BASE_URL: string := "https://www.youtube.com"

  /**
   * Turns the player config's `assets.js` into an absolute URL: a missing
   * value raises, a scheme-relative "//host/path" gets "https:" in front,
   * and anything not already starting with `BASE_URL` is then prefixed with it.
   * Whatever it returns starts with `BASE_URL`.
   */
  function FormatPlayerUrl(js: Option<string>): (r: Result<string, ExtractionError>)
    ensures r.Success? <==> js.Some?
    ensures r.Failure? ==> r.error == MissingPlayerJs
    ensures r.Success? ==> BASE_URL <= r.value
    ensures r.Success? ==> |js.value| <= |r.value| && r.value[|r.value| - |js.value|..] == js.value
  {
    if js.None? then Failure(MissingPlayerJs)
    else
      var withScheme := if "//" <= js.value then "https:" + js.value else js.value;
      var absolute := if BASE_URL <= withScheme then withScheme else BASE_URL + withScheme;
      assert js.value == absolute[|absolute| - |js.value|..];
      Success(absolute)
  }

  /** Formatting an already formatted URL changes nothing. */
  lemma FormatPlayerUrlIdempotent(js: Option<string>)
    requires js.Some?
    ensures FormatPlayerUrl(Some(FormatPlayerUrl(js).value)) == FormatPlayerUrl(js)
  {
    var u := FormatPlayerUrl(js).value;
    assert !("//" <= u) by {
      assert u[0] == 'h';
    }
  }

  /**
   * The three shapes of input: an absolute URL on the site is kept, a
   * root-relative path is prefixed, and a scheme-relative URL becomes
   * "https:" + it, prefixed again unless its host is the site itself.
   */
  lemma FormatPlayerUrlCases(js: string)
    ensures BASE_URL <= js ==> FormatPlayerUrl(Some(js)) == Success(js)
    ensures !("//" <= js) && !(BASE_URL <= js) ==> FormatPlayerUrl(Some(js)) == Success(BASE_URL + js)
    ensures "//" <= js && BASE_URL <= "https:" + js ==> FormatPlayerUrl(Some(js)) == Success("https:" + js)
    ensures "//" <= js && !(BASE_URL <= "https:" + js) ==> FormatPlayerUrl(Some(js)) == Success(BASE_URL + "https:" + js)
  {
    if BASE_URL <= js {
      assert !("//" <= js) by {
        assert js[0] == 'h';
      }
    }
    assert BASE_URL + "https:" + js == BASE_URL + ("https:" + js);
  }
}
