/**
 * The itag capability table: a fixed map from YouTube's numeric stream
 * encoding ids ("itags") to a container format and a resolution label.
 */
module ItagEntries {
  import opened Wrappers

  /** The container formats of `Streams` the table uses. */
  datatype Format = V3gpp | Mpeg4 | Webm | M4a

  /** The resolution labels of `Streams` the table uses; `Audio` is the label "AUDIO". */
  datatype Resolution =
    | R144p | R240p | R360p | R480p | R720p | R720p60 | R1080p | R1080p60
    | R1440p | R1440p60 | R2160p | R2160p60 | Audio

  /** The immutable part of an `ItagItem`: its id, format and resolution. */
  datatype ItagDescriptor = ItagDescriptor(id: int, format: Format, resolution: Resolution)

  /**
   * `ITAG_MAP.get(itag)`: the table entry for `itag`, entry for entry and in
   * the source's order, or `None` for an itag the table does not hold.
   */
  function ItagMap(itag: int): (entry: Option<ItagDescriptor>) {
    match itag
    case 17 => Some(ItagDescriptor(17, V3gpp, R144p))

    case 18 => Some(ItagDescriptor(18, Mpeg4, R360p))
    case 34 => Some(ItagDescriptor(34, Mpeg4, R360p))
    case 35 => Some(ItagDescriptor(35, Mpeg4, R480p))
    case 36 => Some(ItagDescriptor(36, V3gpp, R240p))
    case 59 => Some(ItagDescriptor(59, Mpeg4, R480p))
    case 78 => Some(ItagDescriptor(78, Mpeg4, R480p))
    case 22 => Some(ItagDescriptor(22, Mpeg4, R720p))
    case 37 => Some(ItagDescriptor(37, Mpeg4, R1080p))
    case 38 => Some(ItagDescriptor(38, Mpeg4, R1080p))

    case 43 => Some(ItagDescriptor(43, Webm, R360p))
    case 44 => Some(ItagDescriptor(44, Webm, R480p))
    case 45 => Some(ItagDescriptor(45, Webm, R720p))
    case 46 => Some(ItagDescriptor(46, Webm, R1080p))

    case 160 => Some(ItagDescriptor(160, Mpeg4, R144p))
    case 133 => Some(ItagDescriptor(133, Mpeg4, R240p))
    case 134 => Some(ItagDescriptor(134, Mpeg4, R360p))
    case 135 => Some(ItagDescriptor(135, Mpeg4, R480p))
    case 212 => Some(ItagDescriptor(212, Mpeg4, R480p))
    case 136 => Some(ItagDescriptor(136, Mpeg4, R720p))
    case 298 => Some(ItagDescriptor(298, Mpeg4, R720p60))
    case 137 => Some(ItagDescriptor(137, Mpeg4, R1080p))
    case 299 => Some(ItagDescriptor(299, Mpeg4, R1080p60))
    case 266 => Some(ItagDescriptor(266, Mpeg4, R2160p))

    case 278 => Some(ItagDescriptor(278, Webm, R144p))
    case 242 => Some(ItagDescriptor(242, Webm, R240p))
    case 243 => Some(ItagDescriptor(243, Webm, R360p))
    case 244 => Some(ItagDescriptor(244, Webm, R480p))
    case 245 => Some(ItagDescriptor(245, Webm, R480p))
    case 246 => Some(ItagDescriptor(246, Webm, R480p))
    case 247 => Some(ItagDescriptor(247, Webm, R720p))
    case 248 => Some(ItagDescriptor(248, Webm, R1080p))
    case 271 => Some(ItagDescriptor(271, Webm, R1440p))
    case 272 => Some(ItagDescriptor(272, Webm, R2160p))
    case 302 => Some(ItagDescriptor(302, Webm, R720p60))
    case 303 => Some(ItagDescriptor(303, Webm, R1080p60))
    case 308 => Some(ItagDescriptor(308, Webm, R1440p60))
    case 313 => Some(ItagDescriptor(313, Webm, R2160p))
    case 315 => Some(ItagDescriptor(315, Webm, R2160p60))

    case 139 => Some(ItagDescriptor(139, M4a, Audio))
    case 140 => Some(ItagDescriptor(140, M4a, Audio))
    case 141 => Some(ItagDescriptor(141, M4a, Audio))
    case 256 => Some(ItagDescriptor(256, M4a, Audio))
    case 258 => Some(ItagDescriptor(258, M4a, Audio))
    case 325 => Some(ItagDescriptor(325, M4a, Audio))
    case 328 => Some(ItagDescriptor(328, M4a, Audio))

    case 171 => Some(ItagDescriptor(171, Webm, Audio))
    case 172 => Some(ItagDescriptor(172, Webm, Audio))
    case 249 => Some(ItagDescriptor(249, Webm, Audio))
    case 250 => Some(ItagDescriptor(250, Webm, Audio))
    case 251 => Some(ItagDescriptor(251, Webm, Audio))

    case _ => None
  }

  /**
   * The 51 itags the table holds: progressive ones, adaptive video-only
   * MPEG-4 and WEBM ones, then the audio-only ones.
   */
  const SUPPORTED_IDS: set<int> := PROGRESSIVE_IDS + ADAPTIVE_MPEG4_IDS + ADAPTIVE_WEBM_IDS + AUDIO_IDS

  /** The progressive (audio and video) itags. */
  const PROGRESSIVE_IDS: set<int> := {17, 18, 34, 35, 36, 59, 78, 22, 37, 38, 43, 44, 45, 46}
  /** The adaptive video-only MPEG-4 itags. */
  const ADAPTIVE_MPEG4_IDS: set<int> := {160, 133, 134, 135, 212, 136, 298, 137, 299, 266}
  /** The adaptive video-only WEBM itags. */
  const ADAPTIVE_WEBM_IDS: set<int> := {278, 242, 243, 244, 245, 246, 247, 248, 271, 272, 302, 303, 308, 313, 315}

  /** The 12 audio-only itags: seven M4A and five WEBM encodings. */
  const AUDIO_IDS: set<int> := {139, 140, 141, 256, 258, 325, 328, 171, 172, 249, 250, 251}

  /**
   * The table holds an entry for exactly the 51 supported itags; each entry
   * carries its own key as id, and its resolution is the audio label exactly
   * for the audio-only itags.
   */
  lemma TableShape(itag: int)
    ensures ItagMap(itag).Some? <==> itag in SUPPORTED_IDS
    ensures ItagMap(itag).Some? ==> ItagMap(itag).value.id == itag
    ensures ItagMap(itag).Some? ==> (ItagMap(itag).value.resolution == Audio <==> itag in AUDIO_IDS)
  {
    if itag in SUPPORTED_IDS {
      SupportedHaveEntries(itag);
    }
    if ItagMap(itag).Some? {
      EntriesAreSupported(itag);
      EntriesAreKeyed(itag);
      AudioEntries(itag);
    }
  }

  lemma SupportedHaveEntries(itag: int)
    requires itag in SUPPORTED_IDS
    ensures ItagMap(itag).Some?
  {
    if itag in PROGRESSIVE_IDS {
      ProgressiveHaveEntries(itag);
    } else if itag in ADAPTIVE_MPEG4_IDS {
      AdaptiveMpeg4HaveEntries(itag);
    } else if itag in ADAPTIVE_WEBM_IDS {
      AdaptiveWebmHaveEntries(itag);
    } else {
      AudioHaveEntries(itag);
    }
  }

  lemma ProgressiveHaveEntries(itag: int)
    requires itag in PROGRESSIVE_IDS
    ensures ItagMap(itag).Some?
  {
  }

  lemma AdaptiveMpeg4HaveEntries(itag: int)
    requires itag in ADAPTIVE_MPEG4_IDS
    ensures ItagMap(itag).Some?
  {
  }

  lemma AdaptiveWebmHaveEntries(itag: int)
    requires itag in ADAPTIVE_WEBM_IDS
    ensures ItagMap(itag).Some?
  {
  }

  lemma AudioHaveEntries(itag: int)
    requires itag in AUDIO_IDS
    ensures ItagMap(itag).Some?
  {
  }

  lemma EntriesAreSupported(itag: int)
    requires ItagMap(itag).Some?
    ensures itag in SUPPORTED_IDS
  {
    EntriesAreGrouped(itag);
  }

  lemma EntriesAreGrouped(itag: int)
    requires ItagMap(itag).Some?
    ensures itag in PROGRESSIVE_IDS || itag in ADAPTIVE_MPEG4_IDS || itag in ADAPTIVE_WEBM_IDS || itag in AUDIO_IDS
  {
  }

  lemma EntriesAreKeyed(itag: int)
    requires ItagMap(itag).Some?
    ensures ItagMap(itag).value.id == itag
  {
  }

  lemma AudioEntries(itag: int)
    requires ItagMap(itag).Some?
    ensures ItagMap(itag).value.resolution == Audio <==> itag in AUDIO_IDS
  {
  }
}

/** `ItagItem`'s companion object: the lookups over the table, and its shared mutable part. */
module Itags {
  import opened Wrappers
  import opened ItagEntries

  /** `isSupported`: `ITAG_MAP.containsKey(itag)`; a `null` itag is never a key. */
  function IsSupported(itag: Option<int>): (b: bool)
    ensures b <==> itag.Some? && itag.value in SUPPORTED_IDS
  {
    if itag.None? then false else TableShape(itag.value); ItagMap(itag.value).Some?
  }

  /** `isAudio`: the mapped entry's resolution is the audio label; false, not an error, for unknown itags. */
  function IsAudio(itag: Option<int>): (b: bool)
    ensures b <==> itag.Some? && itag.value in AUDIO_IDS
    ensures b ==> IsSupported(itag)
  {
    if itag.None? then false
    else
      TableShape(itag.value);
      var entry := ItagMap(itag.value);
      entry.Some? && entry.value.resolution == Audio
  }

  /** The exception `getItag` throws. */
  datatype ItagError = NotSupported(itag: Option<int>)

  /**
   * `getItag`: the table entry of a supported itag, whose id is that itag;
   * throws for every other itag, `null` included.
   */
  function GetItag(itag: Option<int>): (r: Result<ItagDescriptor, ItagError>)
    ensures r.Success? <==> IsSupported(itag)
    ensures r.Success? ==> r.value.id == itag.value && Some(r.value) == ItagMap(itag.value)
    ensures r.Failure? ==> r.error == NotSupported(itag)
  {
    var entry := if itag.Some? then ItagMap(itag.value) else None;
    if itag.Some? && entry.Some? then
      TableShape(itag.value);
      Success(entry.value)
    else Failure(NotSupported(itag))
  }

  /** Three fixed lookups of the table. */
  lemma KnownLookups()
    ensures GetItag(Some(18)) == Success(ItagDescriptor(18, Mpeg4, R360p))
    ensures GetItag(Some(17)) == Success(ItagDescriptor(17, V3gpp, R144p))
    ensures GetItag(Some(22)) == Success(ItagDescriptor(22, Mpeg4, R720p))
  {
  }

  /**
   * The mutable part of the table: the `filesize` field of the one shared
   * `ItagItem` object the table holds for each supported itag, keyed by that
   * itag. Every lookup of an itag returns the same object, so a write through
   * one lookup is seen by all of them.
   */
  class ItagTable {
    var filesize: map<int, Option<int>>

    ghost predicate Valid()
      reads this
    {
      filesize.Keys == SUPPORTED_IDS
    }

    /** The table as built: every entry starts with `filesize == null`. */
    constructor ()
      ensures Valid()
      ensures forall k :: k in filesize ==> filesize[k] == None
    {
      filesize := map k | k in SUPPORTED_IDS :: None;
    }

    /** `itagItem.filesize = size` on the one shared object for `itag`; every other object keeps its size. */
    method SetFilesize(itag: int, size: Option<int>)
      requires Valid() && itag in SUPPORTED_IDS
      modifies this
      ensures Valid()
      ensures filesize == old(filesize)[itag := size]
    {
      filesize := filesize[itag := size];
    }
  }
}
