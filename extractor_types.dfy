/**
 * What `YouTubeExtractor` works on: the decoded format entries of a watch
 * page, the foreign calls it makes, the errors it raises, and Kotlin's
 * integer widths where the extractor converts between them.
 */
module ExtractorTypes {
  import opened Wrappers

  /** Kotlin's `Long`: a signed 64-bit integer. */
  type Int64 = x: int | -0x8000_0000_0000_0000 <= x < 0x8000_0000_0000_0000

  /** Kotlin's `Int`: a signed 32-bit integer. */
  type Int32 = x: int | -0x8000_0000 <= x < 0x8000_0000

  const TWO_32: int := 0x1_0000_0000

  /**
   * `Long.toInt()`: keeps the low 32 bits and reads them as a two's
   * complement `Int`, so the result agrees with the input modulo 2^32 and
   * equals it whenever the input already fits.
   */
  function LongToInt(x: Int64): (r: Int32)
    ensures (x - r) % TWO_32 == 0
    ensures -0x8000_0000 <= x < 0x8000_0000 ==> r == x
  {
    var low := (x + 0x8000_0000) % TWO_32;
    assert x + 0x8000_0000 == TWO_32 * ((x + 0x8000_0000) / TWO_32) + low;
    low - 0x8000_0000
  }

  /**
   * One entry of `streamingData.adaptiveFormats` or `streamingData.formats`,
   * reduced to the nullable fields the extractor reads.
   */
  datatype AdaptiveFormat = AdaptiveFormat(itag: Option<Int64>, contentLength: Option<Int64>, cipher: Option<string>)

  /**
   * The calls `YouTubeExtractor` makes into code outside this model, as
   * total functions the model is parameterised by:
   * `Parser.unescapeEntities(_, true)` (Jsoup), `Util.compatParseMap`,
   * `urlToString` (an HTTP GET whose `None` is its "Unable to connect"
   * exception, as is any other failure of the request), and
   * `JavaScriptUtil.loadDecryptionCode` / `decryptSignature`.
   */
  datatype Collaborators = Collaborators(
    unescapeEntities: string -> string,
    compatParseMap: string -> map<string, string>,
    urlToString: string -> Option<string>,
    loadDecryptionCode: string -> string,
    decryptSignature: (string, string) -> string)

  /** The exceptions the modelled code raises. */
  datatype ExtractionError =
    | MissingPlayerJs              // `playerConfig.assets?.js!!` on null
    | MissingCipher                // `format.cipher!!` on null
    | MissingItag                  // `format.itag!!` on null
    | ConnectionFailed(url: string) // `urlToString` gave no body

  /** The tag map of one entry's cipher string: `compatParseMap(unescapeEntities(cipher, true))`. */
  function Tags(cipher: string, env: Collaborators): (tags: map<string, string>) {
    env.compatParseMap(env.unescapeEntities(cipher))
  }

  /** `String.replace("\n", "")`: the input with every line feed removed and nothing else changed. */
  function RemoveNewlines(s: string): (r: string)
    ensures forall c :: c in r <==> c in s && c != '\n'
    ensures |r| == |s| - multiset(s)['\n']
    ensures '\n' !in s ==> r == s
  {
    if s == [] then []
    else
      assert s == [s[0]] + s[1..];
      if s[0] == '\n' then RemoveNewlines(s[1..])
      else [s[0]] + RemoveNewlines(s[1..])
  }

  /** Removing line feeds works piece by piece, so the kept characters stay in their order. */
  lemma {:induction false} RemoveNewlinesAppend(a: string, b: string)
    ensures RemoveNewlines(a + b) == RemoveNewlines(a) + RemoveNewlines(b)
  {
    if a == [] {
      assert a + b == b;
    } else {
      assert (a + b)[0] == a[0] && (a + b)[1..] == a[1..] + b;
      RemoveNewlinesAppend(a[1..], b);
    }
  }

  /** Kotlin's string template of a `String?`: the value itself, or "null" for null. */
  function NullableToString(s: Option<string>): (r: string)
    ensures s.Some? ==> r == s.value
    ensures s.None? ==> r == "null"
  {
    if s.Some? then s.value else "null"
  }
}
