/**
 * `parseAllItags` and `parseStreams`, as the Kotlin code runs them: the URL
 * map and the decryption-code cache are local variables reassigned entry by
 * entry, and sizes are written into the shared itag table in place.
 */
module YouTubeExtractor {
  import opened Wrappers
  import opened LinkedMaps
  import opened ItagEntries
  import opened Itags
  import opened ExtractorTypes
  import opened ItagParsing
  import ItagParsingLemmas

  /**
   * `parseAllItags(formats, playerUrl)`: the URL-to-itag map in insertion
   * order, or the exception that stopped the loop. Either way the table's
   * sizes end as the fold leaves them, including the sizes written before
   * an exception; `fetches` counts the requests for the player script.
   */
  method ParseAllItags(formats: seq<AdaptiveFormat>, playerUrl: string, env: Collaborators, table: ItagTable)
    returns (r: Result<LinkedMap<string, ItagDescriptor>, ExtractionError>, ghost fetches: nat)
    requires table.Valid()
    modifies table
    ensures table.Valid()
    ensures table.filesize == Run(formats, |formats|, ItagMap, playerUrl, env, old(table.filesize)).filesize
    ensures r == Outcome(Run(formats, |formats|, ItagMap, playerUrl, env, old(table.filesize)))
    ensures fetches == Run(formats, |formats|, ItagMap, playerUrl, env, old(table.filesize)).fetches <= 1
  {
    ghost var sizes := table.filesize;
    var urlAndItags: LinkedMap<string, ItagDescriptor> := Empty();
    var decryptCode: Option<string> := None;
    fetches := 0;
    for i := 0 to |formats|
      invariant table.Valid()
      invariant Run(formats, i, ItagMap, playerUrl, env, sizes) ==
        Progress(urlAndItags, decryptCode, table.filesize, fetches, None)
    {
      var error: Option<ExtractionError>;
      urlAndItags, decryptCode, error, fetches :=
        ParseFormat(formats[i], playerUrl, env, table, urlAndItags, decryptCode, fetches);
      if error.Some? {
        ItagParsingLemmas.FailurePersists(formats, i + 1, |formats|, ItagMap, playerUrl, env, sizes);
        return Failure(error.value), fetches;
      }
    }
    return Success(urlAndItags), fetches;
  }

  /**
   * The body of `parseAllItags`' loop for one entry: the new URL map and
   * cached code, or the exception the entry raises, with the entry's size
   * written into the shared table first when its itag is supported.
   */
  method ParseFormat(format: AdaptiveFormat, playerUrl: string, env: Collaborators, table: ItagTable,
                     urlAndItags: LinkedMap<string, ItagDescriptor>, decryptCode: Option<string>, ghost fetches: nat)
    returns (newUrlAndItags: LinkedMap<string, ItagDescriptor>, newDecryptCode: Option<string>,
             error: Option<ExtractionError>, ghost newFetches: nat)
    requires table.Valid()
    requires Progress(urlAndItags, decryptCode, table.filesize, fetches, None).Valid()
    requires CacheConsistent(Progress(urlAndItags, decryptCode, table.filesize, fetches, None), playerUrl, env)
    modifies table
    ensures table.Valid()
    ensures Step(Progress(urlAndItags, decryptCode, old(table.filesize), fetches, None), format, ItagMap, playerUrl, env)
      == Progress(newUrlAndItags, newDecryptCode, table.filesize, newFetches, error)
  {
    newUrlAndItags, newDecryptCode, error, newFetches := urlAndItags, decryptCode, None, fetches;
    if format.cipher.None? {
      return urlAndItags, decryptCode, Some(MissingCipher), fetches;
    }
    var tags := Tags(format.cipher.value, env);
    if format.itag.None? {
      return urlAndItags, decryptCode, Some(MissingItag), fetches;
    }
    var itag := LongToInt(format.itag.value);
    if IsSupported(Some(itag)) {
      var item := GetItag(Some(itag)).value;
      table.SetFilesize(item.id, format.contentLength);
      var streamUrl := Get(tags, "url");
      var signature := Get(tags, "s");
      if signature.Some? {
        if newDecryptCode.None? {
          newFetches := newFetches + 1;
          var page := env.urlToString(playerUrl);
          if page.None? {
            return urlAndItags, decryptCode, Some(ConnectionFailed(playerUrl)), newFetches;
          }
          newDecryptCode := Some(env.loadDecryptionCode(RemoveNewlines(page.value)));
        }
        streamUrl := Some(SignedUrl(streamUrl, signature.value, newDecryptCode.value, env));
      }
      if streamUrl.Some? {
        newUrlAndItags := newUrlAndItags.Put(streamUrl.value, item);
      }
    }
  }

  /**
   * `parseStreams(formats, playerUrl, audioOnly)`: one stream per stored
   * URL, read after the loop so each carries its itag's final size, and
   * only the audio ones when `audioOnly` is set.
   */
  method ParseStreams(formats: seq<AdaptiveFormat>, playerUrl: string, audioOnly: bool, env: Collaborators, table: ItagTable)
    returns (r: Result<seq<Stream>, ExtractionError>)
    requires table.Valid()
    modifies table
    ensures table.Valid()
    ensures table.filesize == Run(formats, |formats|, ItagMap, playerUrl, env, old(table.filesize)).filesize
    ensures r == StreamsOf(Run(formats, |formats|, ItagMap, playerUrl, env, old(table.filesize)), audioOnly)
  {
    var itags, _ := ParseAllItags(formats, playerUrl, env, table);
    if itags.Failure? {
      return Failure(itags.error);
    }
    var streams := ToStreams(itags.value, table.filesize);
    if audioOnly {
      streams := FilterAudio(streams);
    }
    return Success(streams);
  }
}
