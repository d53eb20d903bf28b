/**
 * What `YouTubeExtractor.parseAllItags` and `parseStreams` compute, as a
 * left fold of one step per format entry over the loop's state.
 *
 * An `ItagItem` is identified by its itag: the table holds one shared
 * object per itag, so the URL map stores each object's immutable part (an
 * `ItagDescriptor`), and the objects' mutable `filesize` fields form one map
 * from itag to size that the fold threads through (`Itags.ItagTable` is
 * that map in place).
 */
module ItagParsing {
  import opened Wrappers
  import opened LinkedMaps
  import opened ItagEntries
  import opened ExtractorTypes

  /**
   * The state of the loop in `parseAllItags` after some entries: the URL
   * map built so far (URL to table entry, in insertion order), the cached
   * decryption code, the shared `filesize` fields, how often the player
   * script was fetched, and the exception that ended the loop, if any.
   */
  datatype Progress = Progress(
    urlAndItags: LinkedMap<string, ItagDescriptor>,
    decryptCode: Option<string>,
    filesize: map<int, Option<int>>,
    fetches: nat,
    failure: Option<ExtractionError>)
  {
    /** The URL map is well formed and every entry it stores has a size slot. */
    ghost predicate Valid() {
      && urlAndItags.Valid()
      && (forall u :: u in urlAndItags.values ==> urlAndItags.values[u].id in filesize)
    }
  }

  /**
   * An itag table as the loop consults it: `ITAG_MAP`'s entry for an itag,
   * or `None` where `isSupported` is false. The extractor passes
   * `ItagEntries.ItagMap`; the lemmas hold for any table.
   */
  type ItagLookup = int -> Option<ItagDescriptor>

  /** The script `urlToString(playerUrl)` returned, without its line feeds, run through `loadDecryptionCode`. */
  function LoadedCode(playerUrl: string, env: Collaborators): (code: string)
    requires env.urlToString(playerUrl).Some?
  {
    env.loadDecryptionCode(RemoveNewlines(env.urlToString(playerUrl).value))
  }

  /**
   * The decryption-code cache agrees with the player script: the script is
   * fetched at most once, a cached code is the one loaded from it, and a
   * fetch that left nothing cached ended the loop.
   */
  ghost predicate CacheConsistent(p: Progress, playerUrl: string, env: Collaborators) {
    && p.fetches <= 1
    && (p.decryptCode.Some? ==>
          p.fetches == 1 && env.urlToString(playerUrl).Some? && p.decryptCode.value == LoadedCode(playerUrl, env))
    && (p.fetches == 1 && p.decryptCode.None? ==> p.failure == Some(ConnectionFailed(playerUrl)))
  }

  /** The state before the first entry, over the size slots as they are. */
  function Start(filesize: map<int, Option<int>>): (p: Progress)
    ensures p.Valid()
    ensures forall playerUrl, env :: CacheConsistent(p, playerUrl, env)
    ensures p.urlAndItags.keys == [] && p.fetches == 0 && p.failure.None? && p.filesize == filesize
  {
    Progress(Empty(), None, filesize, 0, None)
  }

  /** A stored URL built from a signature: `streamUrl + "&sig=" + decryptSignature(s, code)`, where a null URL reads "null". */
  function SignedUrl(streamUrl: Option<string>, signature: string, code: string, env: Collaborators): (url: string) {
    NullableToString(streamUrl) + "&sig=" + env.decryptSignature(signature, code)
  }

  /**
   * One iteration of the loop: `cipher!!` and `itag!!` raise on null, an
   * unsupported itag is skipped, and a supported one has its size written
   * and then its URL stored (after decrypting a signature, fetching the
   * player script first if no code is cached yet).
   */
  function Step(p: Progress, f: AdaptiveFormat, table: ItagLookup, playerUrl: string, env: Collaborators): (r: Progress)
    requires p.Valid() && CacheConsistent(p, playerUrl, env)
    ensures r.Valid() && CacheConsistent(r, playerUrl, env)
    ensures p.failure.Some? ==> r == p
    ensures p.fetches <= r.fetches
    ensures p.decryptCode.Some? ==> r.decryptCode == p.decryptCode
  {
    if p.failure.Some? then p
    else if f.cipher.None? then p.(failure := Some(MissingCipher))
    else if f.itag.None? then p.(failure := Some(MissingItag))
    else
      match table(LongToInt(f.itag.value))
      case None => p
      case Some(item) =>
        var sized := p.(filesize := p.filesize[item.id := f.contentLength]);
        StoreUrl(sized, item, Tags(f.cipher.value, env), playerUrl, env)
  }

  /**
   * The rest of an iteration for a supported entry whose size is already
   * written: read the "url" and "s" tags, decrypt a signature (loading the
   * code on first use), and put the resulting URL, if any, into the map.
   */
  function StoreUrl(p: Progress, item: ItagDescriptor, tags: map<string, string>, playerUrl: string, env: Collaborators): (r: Progress)
    requires p.Valid() && CacheConsistent(p, playerUrl, env) && p.failure.None? && item.id in p.filesize
    ensures r.Valid() && CacheConsistent(r, playerUrl, env)
    ensures p.fetches <= r.fetches
    ensures p.decryptCode.Some? ==> r.decryptCode == p.decryptCode
    ensures r.filesize == p.filesize
  {
    var streamUrl := Get(tags, "url");
    var signature := Get(tags, "s");
    if signature.None? then
      if streamUrl.Some? then p.(urlAndItags := p.urlAndItags.Put(streamUrl.value, item)) else p
    else if p.decryptCode.Some? then
      p.(urlAndItags := p.urlAndItags.Put(SignedUrl(streamUrl, signature.value, p.decryptCode.value, env), item))
    else if env.urlToString(playerUrl).None? then
      p.(fetches := p.fetches + 1, failure := Some(ConnectionFailed(playerUrl)))
    else
      var code := LoadedCode(playerUrl, env);
      p.(fetches := p.fetches + 1, decryptCode := Some(code),
         urlAndItags := p.urlAndItags.Put(SignedUrl(streamUrl, signature.value, code, env), item))
  }

  /**
   * The loop over the first `n` entries of `formats` against `table`, from the given size
   * slots: the state it reaches. It stays valid, keeps its cache consistent
   * with the player script, and fetches that script at most once.
   */
  function Run(formats: seq<AdaptiveFormat>, n: nat, table: ItagLookup, playerUrl: string, env: Collaborators,
               filesize: map<int, Option<int>>): (r: Progress)
    requires n <= |formats|
    ensures r.Valid() && CacheConsistent(r, playerUrl, env)
    ensures r.fetches <= 1
  {
    if n == 0 then Start(filesize)
    else Step(Run(formats, n - 1, table, playerUrl, env, filesize), formats[n - 1], table, playerUrl, env)
  }

  /** What `parseAllItags` returns from the state its loop ends in: the URL map, or the exception that stopped it. */
  function Outcome(p: Progress): (r: Result<LinkedMap<string, ItagDescriptor>, ExtractionError>)
    ensures r.Success? <==> p.failure.None?
    ensures r.Success? ==> r.value == p.urlAndItags
    ensures r.Failure? ==> r.error == p.failure.value
  {
    if p.failure.Some? then Failure(p.failure.value) else Success(p.urlAndItags)
  }

  /** One element of `parseStreams`' result: `Streams(url, format, resolution, filesize)`. */
  datatype Stream = Stream(url: string, format: Format, resolution: Resolution, filesize: Option<int>)

  /** The stream for one map entry: its URL, its table entry's format and resolution, and that entry's current size. */
  function StreamOf(url: string, item: ItagDescriptor, filesize: map<int, Option<int>>): (s: Stream)
    requires item.id in filesize
  {
    Stream(url, item.format, item.resolution, filesize[item.id])
  }

  /** `itags.map { Streams(...) }`: one stream per map entry, in the map's order. */
  function ToStreams(m: LinkedMap<string, ItagDescriptor>, filesize: map<int, Option<int>>): (r: seq<Stream>)
    requires m.Valid()
    requires forall u :: u in m.values ==> m.values[u].id in filesize
    ensures |r| == |m.values| == |m.keys|
    ensures forall i :: 0 <= i < |r| ==> m.keys[i] in m.values && r[i] == StreamOf(m.keys[i], m.values[m.keys[i]], filesize)
  {
    SizeIsKeyCount(m);
    seq(|m.keys|, i requires 0 <= i < |m.keys| => StreamOf(m.keys[i], m.values[m.keys[i]], filesize))
  }

  /** `streams.filter { it.resolution == RESOLUTION_AUDIO }`: the audio streams, in their order. */
  function FilterAudio(streams: seq<Stream>): (r: seq<Stream>)
    ensures forall s :: s in r <==> s in streams && s.resolution == Audio
    ensures |r| <= |streams|
  {
    if streams == [] then []
    else if streams[0].resolution == Audio then [streams[0]] + FilterAudio(streams[1..])
    else FilterAudio(streams[1..])
  }

  /** What `parseStreams` returns once its loop has reached the given state. */
  function StreamsOf(p: Progress, audioOnly: bool): (r: Result<seq<Stream>, ExtractionError>)
    requires p.Valid()
    ensures r.Success? <==> p.failure.None?
    ensures r.Failure? ==> r.error == p.failure.value
    ensures r.Success? ==>
      r.value == if audioOnly then FilterAudio(ToStreams(p.urlAndItags, p.filesize)) else ToStreams(p.urlAndItags, p.filesize)
    ensures r.Success? && !audioOnly ==> |r.value| == |p.urlAndItags.values|
    ensures r.Success? && audioOnly ==>
      forall s :: s in r.value <==> s in ToStreams(p.urlAndItags, p.filesize) && s.resolution == Audio
  {
    if p.failure.Some? then Failure(p.failure.value)
    else
      var streams := ToStreams(p.urlAndItags, p.filesize);
      Success(if audioOnly then FilterAudio(streams) else streams)
  }
}
