# YouTubeExtractor stream resolution, modelled in Dafny

This project models the stream-resolution core of the YouTubeExtractor
Kotlin library:

- **The itag capability table** (`ItagItem.kt`). YouTube labels each stream
  encoding with a numeric *itag*. `ITAG_MAP` maps each supported itag to an
  `ItagItem`, which holds a container format, a resolution label and a
  mutable `filesize`. Three lookups sit over it: `isSupported`, `isAudio`
  and `getItag`.
- **Three private steps of `YouTubeExtractor`** (`YouTubeExtractor.kt`):
  - `formatPlayerUrl` makes the player script's path absolute.
  - `parseAllItags` walks the watch page's format entries. For each entry it
    resolves a direct or signed URL, and it keeps those URLs in a
    `LinkedHashMap` to their `ItagItem`. It writes each entry's
    `contentLength` into the shared `ItagItem`. It fetches the player script
    and loads the decryption code on the first signed entry only.
  - `parseStreams` turns that map into `Streams` values and can keep only
    the audio ones.

The Dafny modules are organised as follows:

- `wrappers.dfy`, module `Wrappers`: `Option` and `Result`, plus a map
  lookup that yields `Option`.
- `linked_map.dfy`, module `LinkedMaps`: a `LinkedHashMap` as a value. It
  holds the keys in first-insertion order plus a map. It also defines the
  reference "fold of puts" that the extractor's map is proved equal to.
- `itag_item.dfy`:
  - module `ItagEntries`: `ITAG_MAP` as a function, entry for entry, with its
    groups of ids;
  - module `Itags`: the companion-object lookups, plus the class `ItagTable`.
    `ItagTable` holds the `filesize` field of each shared `ItagItem` object,
    keyed by itag, and it is updated in place.
- `extractor_types.dfy`, module `ExtractorTypes`:
  - the decoded format entry;
  - Kotlin's `Long` and `Int` and the truncating `toInt()`;
  - the exceptions;
  - the foreign calls, as function-valued parameters.
- `player_url.dfy`, module `PlayerUrls`: `formatPlayerUrl`.
- `itag_parsing.dfy`, module `ItagParsing`:
  - what `parseAllItags` computes, as a left fold of one step per entry;
  - what `parseStreams` computes from the fold's final state.
- `itag_parsing_lemmas.dfy`, module `ItagParsingLemmas`: the properties of
  the fold, among them:
  - failure persistence;
  - the fetch-once decryption cache;
  - the URL map equals a sequence of `LinkedHashMap` puts;
  - last-write-wins sizes through the shared item objects;
  - the order the audio filter keeps.
- `youtube_extractor.dfy`, module `YouTubeExtractor`: `parseAllItags`, its
  loop body and `parseStreams`, as imperative methods. They write into the
  `ItagTable` in place, and each is proved equal to the fold.

## Model

| member | source | states |
|---|---|---|
| ItagEntries.TableShape | youtubeextractor/src/main/java/com/commit451/youtubeextractor/ItagItem.kt:10-69 | `ITAG_MAP` holds an entry for exactly the 51 supported itags. Each entry's id is its own key. An entry's resolution is the audio label exactly when its itag is one of the 12 audio-only itags. |
| Itags.IsSupported | youtubeextractor/src/main/java/com/commit451/youtubeextractor/ItagItem.kt:72-74 | `isSupported(itag)` is true iff the itag is non-null and one of the supported ids. |
| Itags.IsAudio | youtubeextractor/src/main/java/com/commit451/youtubeextractor/ItagItem.kt:76-78 | `isAudio(itag)` is true iff the itag is one of the audio-only ids. An audio itag is always supported. Unknown and null itags give false, not an error. |
| Itags.GetItag | youtubeextractor/src/main/java/com/commit451/youtubeextractor/ItagItem.kt:80-82 | `getItag` succeeds iff `isSupported` holds. On success it returns the table's entry, whose id is the requested itag. Otherwise it fails with the not-supported error for that itag, null included. |
| Itags.KnownLookups | youtubeextractor/src/main/java/com/commit451/youtubeextractor/ItagItem.kt:12-20 | Concrete lookups: itag 18 is MPEG-4 360p, 17 is 3GPP 144p, and 22 is MPEG-4 720p. |
| Itags.ItagTable.constructor | youtubeextractor/src/main/java/com/commit451/youtubeextractor/ItagItem.kt:3-69 | The table as built has one `filesize` slot per supported itag, and every slot starts as null. |
| Itags.ItagTable.SetFilesize | youtubeextractor/src/main/java/com/commit451/youtubeextractor/ItagItem.kt:3 | Assigning `filesize` on the shared item for one itag changes that slot only and keeps one slot per supported itag. |
| ExtractorTypes.LongToInt | youtubeextractor/src/main/java/com/commit451/youtubeextractor/YouTubeExtractor.kt:147 | `Long.toInt()` returns an `Int` congruent to the input modulo 2^32, and equals the input whenever the input fits in an `Int`. |
| ExtractorTypes.RemoveNewlines | youtubeextractor/src/main/java/com/commit451/youtubeextractor/YouTubeExtractor.kt:158-159 | `replace("\n", "")` keeps exactly the characters of the input other than line feeds, and its length is the input's length less the number of line feeds. A script without line feeds is returned unchanged. |
| ExtractorTypes.RemoveNewlinesAppend | youtubeextractor/src/main/java/com/commit451/youtubeextractor/YouTubeExtractor.kt:158-159 | Removing line feeds from a concatenation is removing them from each part, so the kept characters stay in their order. |
| PlayerUrls.FormatPlayerUrl | youtubeextractor/src/main/java/com/commit451/youtubeextractor/YouTubeExtractor.kt:116-126 | A null `assets.js` raises. Otherwise the result starts with the base URL and ends with the given path. |
| PlayerUrls.FormatPlayerUrlIdempotent | youtubeextractor/src/main/java/com/commit451/youtubeextractor/YouTubeExtractor.kt:116-126 | Formatting an already formatted URL returns it unchanged. |
| PlayerUrls.FormatPlayerUrlCases | youtubeextractor/src/main/java/com/commit451/youtubeextractor/YouTubeExtractor.kt:119-124 | Each input shape and its result: an absolute site URL is kept; a root-relative path gets the base URL; a scheme-relative `//` URL gets "https:" and then the base URL unless it already starts with it. |
| ItagParsing.Start | youtubeextractor/src/main/java/com/commit451/youtubeextractor/YouTubeExtractor.kt:142-143 | The loop starts with an empty URL map, no cached code, no fetch, no failure and the sizes as they are. |
| ItagParsing.Step | youtubeextractor/src/main/java/com/commit451/youtubeextractor/YouTubeExtractor.kt:145-170 | One iteration keeps the state well formed and keeps the code cache consistent with the player script. After an exception the state no longer changes. The fetch count never decreases, and a cached code is never replaced. |
| ItagParsing.StoreUrl | youtubeextractor/src/main/java/com/commit451/youtubeextractor/YouTubeExtractor.kt:153-168 | Storing an entry's URL keeps the map well formed and the cache consistent, keeps a cached code, and leaves the sizes alone. |
| ItagParsing.Run | youtubeextractor/src/main/java/com/commit451/youtubeextractor/YouTubeExtractor.kt:141-174 | After any number of entries the state is well formed, the cache is consistent, and the player script was fetched at most once. |
| ItagParsingLemmas.ReturnsExactlyWhen | youtubeextractor/src/main/java/com/commit451/youtubeextractor/YouTubeExtractor.kt:145-162 | The loop over the entries runs without an exception (and `parseAllItags` returns its map) exactly when every entry has a non-null cipher and itag and, if some supported entry carries an "s" tag, the player script can be fetched. |
| ItagParsing.ToStreams | youtubeextractor/src/main/java/com/commit451/youtubeextractor/YouTubeExtractor.kt:131 | There is one stream per stored URL, in the map's order. Each stream carries the URL, its item's format and resolution, and that item's current size. |
| ItagParsing.FilterAudio | youtubeextractor/src/main/java/com/commit451/youtubeextractor/YouTubeExtractor.kt:132-136 | The filter keeps exactly the streams with the audio label, and is never longer than its input. |
| ItagParsing.StreamsOf | youtubeextractor/src/main/java/com/commit451/youtubeextractor/YouTubeExtractor.kt:128-139 | `parseStreams` fails iff `parseAllItags` raised, with the same exception. Otherwise it returns the map's streams (`ToStreams`), one per stored URL in the map's order; when `audioOnly` is set, the audio streams among them (`FilterAudio`), in the same relative order. |
| ItagParsingLemmas.FailurePersists | youtubeextractor/src/main/java/com/commit451/youtubeextractor/YouTubeExtractor.kt:145-147 | Once an entry has raised, later entries change nothing: the exception ends the loop. |
| ItagParsingLemmas.MissingFieldFails | youtubeextractor/src/main/java/com/commit451/youtubeextractor/YouTubeExtractor.kt:146-147 | An entry with a null cipher raises the cipher exception, and otherwise a null itag raises the itag exception. These checks come before the table lookup. |
| ItagParsingLemmas.UnsupportedAddsNothing | youtubeextractor/src/main/java/com/commit451/youtubeextractor/YouTubeExtractor.kt:149 | An entry whose itag is not supported leaves the whole state unchanged. |
| ItagParsingLemmas.CodePersists | youtubeextractor/src/main/java/com/commit451/youtubeextractor/YouTubeExtractor.kt:156 | Once a decryption code is cached, it stays the same for the rest of the loop. |
| ItagParsingLemmas.NoSignatureNoFetch | youtubeextractor/src/main/java/com/commit451/youtubeextractor/YouTubeExtractor.kt:155-162 | If no entry reaches the signature branch, the player script is never fetched and no code is loaded. |
| ItagParsingLemmas.SignatureLoadsCode | youtubeextractor/src/main/java/com/commit451/youtubeextractor/YouTubeExtractor.kt:155-162 | In a call that returns, once a signed entry has run a code is cached, and it stays cached to the end of the call. |
| ItagParsingLemmas.FetchesExactlyForSignatures | youtubeextractor/src/main/java/com/commit451/youtubeextractor/YouTubeExtractor.kt:143-162 | The player script is fetched at most once per call. In a call that returns, it is fetched exactly when some supported entry carries a signature. |
| ItagParsingLemmas.StepPuts | youtubeextractor/src/main/java/com/commit451/youtubeextractor/YouTubeExtractor.kt:153-168 | One entry of a call that has not raised adds exactly its own URL and item pair to the map. |
| ItagParsingLemmas.RunIsFromPuts | youtubeextractor/src/main/java/com/commit451/youtubeextractor/YouTubeExtractor.kt:142-168 | In a call that returns, the URL map equals the `LinkedHashMap` built by putting each entry's pair in entry order, with the code loaded from the player script. |
| ItagParsingLemmas.StoredUrlTakesLastEntry | youtubeextractor/src/main/java/com/commit451/youtubeextractor/YouTubeExtractor.kt:167 | The stored URLs are exactly the URLs put. A URL put twice maps to the item of the later entry. |
| ItagParsingLemmas.StoredUrlsInFirstPutOrder | youtubeextractor/src/main/java/com/commit451/youtubeextractor/YouTubeExtractor.kt:142 | The map lists its URLs in the order they were first put. A repeated URL keeps its first position. |
| ItagParsingLemmas.SizesAreLastContentLengths | youtubeextractor/src/main/java/com/commit451/youtubeextractor/YouTubeExtractor.kt:150-151 | In a call that returns, an item's size slot holds the `contentLength` of the last entry for that item. With no such entry, the slot keeps what it held before. |
| ItagParsingLemmas.PutItemsHaveEntries | youtubeextractor/src/main/java/com/commit451/youtubeextractor/YouTubeExtractor.kt:149-150 | Every put pair carries an item that the table gives some entry's itag, so that item has a last entry. |
| ItagParsingLemmas.StreamSizeIsLastContentLength | youtubeextractor/src/main/java/com/commit451/youtubeextractor/YouTubeExtractor.kt:131 | Each stream carries the `contentLength` of the last entry with its itag, whichever URL that entry stored: streams sharing an itag share one size. |
| ItagParsingLemmas.StoredItemsAreTableEntries | youtubeextractor/src/main/java/com/commit451/youtubeextractor/YouTubeExtractor.kt:149-150 | Every stored item is a supported itag's `ITAG_MAP` entry, keyed by its own id. |
| ItagParsingLemmas.FilterAudioAppend | youtubeextractor/src/main/java/com/commit451/youtubeextractor/YouTubeExtractor.kt:133-135 | The audio filter distributes over concatenation, so it keeps the streams' relative order. |
| LinkedMaps.LinkedMap.Put | youtubeextractor/src/main/java/com/commit451/youtubeextractor/YouTubeExtractor.kt:167 | A put maps the key to the new value. A new key goes to the end of the order; a key already present keeps its place. |
| LinkedMaps.FromPutsKeys | youtubeextractor/src/main/java/com/commit451/youtubeextractor/YouTubeExtractor.kt:142 | A map filled by puts holds exactly the keys that were put. |
| LinkedMaps.FromPutsLastValueWins | youtubeextractor/src/main/java/com/commit451/youtubeextractor/YouTubeExtractor.kt:167 | A map filled by puts holds, for each key, the value of the last put of that key. |
| LinkedMaps.FromPutsFirstInsertionOrder | youtubeextractor/src/main/java/com/commit451/youtubeextractor/YouTubeExtractor.kt:142 | A map filled by puts orders its keys by their first put. |
| LinkedMaps.SizeIsKeyCount | youtubeextractor/src/main/java/com/commit451/youtubeextractor/YouTubeExtractor.kt:131 | A well-formed map holds as many entries as it lists keys. |
| YouTubeExtractor.ParseFormat | youtubeextractor/src/main/java/com/commit451/youtubeextractor/YouTubeExtractor.kt:145-170 | One loop iteration, run in place against the shared table, produces exactly the fold's `Step`: the same map, the same cache, the same sizes in the table, and the same exception. |
| YouTubeExtractor.ParseAllItags | youtubeextractor/src/main/java/com/commit451/youtubeextractor/YouTubeExtractor.kt:141-174 | The loop returns the fold's outcome and leaves the table's sizes as the fold leaves them, including sizes written before an exception. The player script is requested at most once. |
| YouTubeExtractor.ParseStreams | youtubeextractor/src/main/java/com/commit451/youtubeextractor/YouTubeExtractor.kt:128-139 | Returns the streams of the fold's final state, or its exception, and updates the table's sizes as `parseAllItags` does. |

## Left out

- Network access (`urlToString` over OkHttp, lines 105-114) is a function parameter returning an optional body. `None` stands for "Unable to connect" and for any other exception of the request. Any single call sees one fixed answer.
- `Parser.unescapeEntities` (Jsoup), `Util.compatParseMap`, `JavaScriptUtil.loadDecryptionCode` and `JavaScriptUtil.decryptSignature` are uninterpreted function parameters. `Util` and `JavaScriptUtil` are not part of this model.
- `extract`, its RxJava `Single`, the watch-page regex and Moshi decoding, the `combineLists` concatenation of the two format lists, thumbnails, the `Builder`, and `log` are not modelled. They are I/O, JSON or glue around the modelled core.
- Exception messages ("itag=… not supported", "Unable to connect") are not modelled. Each exception is a constructor of an error datatype.
- `Streams.kt` is not part of this model. Its format and resolution strings are enumerations, and `Streams.RESOLUTION_AUDIO` is taken to be the string "AUDIO" that `isAudio` compares against.
- `ItagItem` object identity is modelled by its itag: `ITAG_MAP` holds exactly one object per key. The shared objects' `filesize` fields are the one map in `ItagTable`, and the URL map stores each object's immutable part.
- The fold in `ItagParsing` is stated for any itag table, and the methods pass `ITAG_MAP`. Properties that need the real table (`StoredItemsAreTableEntries`) are stated for it.
- The `map` over `LinkedHashMap` entries is modelled as a sequence comprehension, not as a loop.
- Concurrency is not modelled. Two extractions running at once share the `ItagItem` objects and could interleave their `filesize` writes; the model covers one call at a time and threads the sizes from call to call.
- The foreign calls `unescapeEntities`, `compatParseMap`, `loadDecryptionCode` and `decryptSignature` are taken never to throw, and `loadDecryptionCode` to return a non-null `String`. A throwing call would end the loop with an exception other than those of the error datatype. A null code would make the next signed entry fetch the player script again, because `decryptCode` is a `String?` (`YouTubeExtractor.kt` line 143). The fetch-at-most-once property rests on these two assumptions.

## Behaviour of the code worth noting

- A URL put twice keeps the position of its first put, and it maps to the item of the later entry (`LinkedHashMap` assignment at line 167).
- A failure to fetch the player script raises and ends the whole loop. Entries with direct URLs that were already stored are not returned.
- Item sizes live on the global `ITAG_MAP` objects. They persist from one call to the next, and two entries with the same itag share one size.
- A stored stream URL is whatever the entry's `url` tag holds; it is not made absolute. An entry with an `s` tag but no `url` tag stores "null&sig=…".
- An entry's size is written as soon as its itag is supported, even when the entry then stores no URL.
