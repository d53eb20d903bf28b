/** What the fold of `parseAllItags` guarantees over whole entry lists. */
module ItagParsingLemmas {
  import opened Wrappers
  import opened LinkedMaps
  import opened ItagEntries
  import opened Itags
  import opened ExtractorTypes
  import opened ItagParsing

  /**
   * The first `n` entries run without an exception exactly when each has a
   * cipher and an itag and, if any of them reaches the signature branch,
   * the player script can be fetched.
   */
  lemma {:induction false} ReturnsExactlyWhen(formats: seq<AdaptiveFormat>, n: nat, table: ItagLookup,
                                              playerUrl: string, env: Collaborators, filesize: map<int, Option<int>>)
    requires n <= |formats|
    ensures Outcome(Run(formats, n, table, playerUrl, env, filesize)).Success? <==>
      && (forall i :: 0 <= i < n ==> formats[i].cipher.Some? && formats[i].itag.Some?)
      && ((exists i :: 0 <= i < n && Signed(formats[i], table, env)) ==> env.urlToString(playerUrl).Some?)
  {
    if n > 0 {
      ReturnsExactlyWhen(formats, n - 1, table, playerUrl, env, filesize);
      RunReturnsExactlyWhen(formats, n, table, playerUrl, env, filesize);
      ConditionsOfPrefix(formats, n, table, playerUrl, env);
    }
  }

  /** `StepReturnsExactlyWhen` for the `n`-th step of the loop. */
  lemma RunReturnsExactlyWhen(formats: seq<AdaptiveFormat>, n: nat, table: ItagLookup,
                              playerUrl: string, env: Collaborators, filesize: map<int, Option<int>>)
    requires 0 < n <= |formats|
    ensures var f := formats[n - 1];
      Run(formats, n, table, playerUrl, env, filesize).failure.None? <==>
        && Run(formats, n - 1, table, playerUrl, env, filesize).failure.None?
        && f.cipher.Some? && f.itag.Some? && (Signed(f, table, env) ==> env.urlToString(playerUrl).Some?)
  {
    var p := Run(formats, n - 1, table, playerUrl, env, filesize);
    assert Run(formats, n, table, playerUrl, env, filesize) == Step(p, formats[n - 1], table, playerUrl, env);
    if p.failure.None? {
      StepReturnsExactlyWhen(p, formats[n - 1], table, playerUrl, env);
    }
  }

  /** The conditions of `ReturnsExactlyWhen` on `n` entries are those on `n - 1` and on the last entry. */
  lemma ConditionsOfPrefix(formats: seq<AdaptiveFormat>, n: nat, table: ItagLookup, playerUrl: string, env: Collaborators)
    requires 0 < n <= |formats|
    ensures var f := formats[n - 1];
      (&& (forall i :: 0 <= i < n ==> formats[i].cipher.Some? && formats[i].itag.Some?)
       && ((exists i :: 0 <= i < n && Signed(formats[i], table, env)) ==> env.urlToString(playerUrl).Some?))
      <==>
      (&& (forall i :: 0 <= i < n - 1 ==> formats[i].cipher.Some? && formats[i].itag.Some?)
       && ((exists i :: 0 <= i < n - 1 && Signed(formats[i], table, env)) ==> env.urlToString(playerUrl).Some?)
       && f.cipher.Some? && f.itag.Some? && (Signed(f, table, env) ==> env.urlToString(playerUrl).Some?))
  {
    if i :| 0 <= i < n && Signed(formats[i], table, env) {
      if i < n - 1 {
        assert exists j :: 0 <= j < n - 1 && Signed(formats[j], table, env);
      }
    }
  }

  /** One entry, reached without an exception, raises exactly when a field is null or it needs a script it cannot fetch. */
  lemma StepReturnsExactlyWhen(p: Progress, f: AdaptiveFormat, table: ItagLookup, playerUrl: string, env: Collaborators)
    requires p.Valid() && CacheConsistent(p, playerUrl, env) && p.failure.None?
    ensures Step(p, f, table, playerUrl, env).failure.None? <==>
      f.cipher.Some? && f.itag.Some? && (Signed(f, table, env) ==> env.urlToString(playerUrl).Some?)
  {
    if f.cipher.Some? && f.itag.Some? {
      assert Get(Tags(f.cipher.value, env), "s").Some? <==> "s" in Tags(f.cipher.value, env);
    }
  }

  /** Once an entry has raised, the later entries change nothing: the loop has stopped. */
  lemma {:induction false} FailurePersists(formats: seq<AdaptiveFormat>, j: nat, k: nat, table: ItagLookup,
                                           playerUrl: string, env: Collaborators, filesize: map<int, Option<int>>)
    requires j <= k <= |formats|
    requires Run(formats, j, table, playerUrl, env, filesize).failure.Some?
    ensures Run(formats, k, table, playerUrl, env, filesize) == Run(formats, j, table, playerUrl, env, filesize)
  {
    if j < k {
      FailurePersists(formats, j, k - 1, table, playerUrl, env, filesize);
    }
  }

  /**
   * An entry without a cipher or without an itag makes the whole call
   * raise, whatever its itag and wherever it stands: `cipher!!` and `itag!!`
   * run before the `isSupported` check, the cipher first. Reached without
   * an earlier exception, the entry raises the one for its first null field.
   */
  lemma MissingFieldFails(formats: seq<AdaptiveFormat>, i: nat, table: ItagLookup,
                          playerUrl: string, env: Collaborators, filesize: map<int, Option<int>>)
    requires i < |formats|
    requires formats[i].cipher.None? || formats[i].itag.None?
    ensures Run(formats, |formats|, table, playerUrl, env, filesize).failure.Some?
    ensures Run(formats, i, table, playerUrl, env, filesize).failure.None? ==>
      Run(formats, i + 1, table, playerUrl, env, filesize).failure ==
        Some(if formats[i].cipher.None? then MissingCipher else MissingItag)
  {
    assert Run(formats, i + 1, table, playerUrl, env, filesize).failure.Some?;
    FailurePersists(formats, i + 1, |formats|, table, playerUrl, env, filesize);
  }

  /** With the extractor's table, an entry whose itag `isSupported` rejects changes nothing. */
  lemma UnsupportedAddsNothing(formats: seq<AdaptiveFormat>, i: nat, playerUrl: string, env: Collaborators,
                               filesize: map<int, Option<int>>)
    requires i < |formats|
    requires formats[i].cipher.Some? && formats[i].itag.Some?
    requires !IsSupported(Some(LongToInt(formats[i].itag.value)))
    ensures Run(formats, i + 1, ItagMap, playerUrl, env, filesize) == Run(formats, i, ItagMap, playerUrl, env, filesize)
  {
    TableShape(LongToInt(formats[i].itag.value));
  }

  /**
   * An entry that reaches the signature branch: it has a cipher and an itag
   * the table holds, and its tag map carries an "s" entry.
   */
  predicate Signed(f: AdaptiveFormat, table: ItagLookup, env: Collaborators) {
    && f.cipher.Some? && f.itag.Some?
    && table(LongToInt(f.itag.value)).Some?
    && "s" in Tags(f.cipher.value, env)
  }

  /** A decryption code once cached stays cached, unchanged. */
  lemma {:induction false} CodePersists(formats: seq<AdaptiveFormat>, j: nat, k: nat, table: ItagLookup,
                                        playerUrl: string, env: Collaborators, filesize: map<int, Option<int>>)
    requires j <= k <= |formats|
    requires Run(formats, j, table, playerUrl, env, filesize).decryptCode.Some?
    ensures Run(formats, k, table, playerUrl, env, filesize).decryptCode == Run(formats, j, table, playerUrl, env, filesize).decryptCode
  {
    if j < k {
      CodePersists(formats, j, k - 1, table, playerUrl, env, filesize);
      var p := Run(formats, k - 1, table, playerUrl, env, filesize);
      assert Run(formats, k, table, playerUrl, env, filesize) == Step(p, formats[k - 1], table, playerUrl, env);
    }
  }

  /** Without an entry that reaches the signature branch, the player script is never fetched and no code is loaded. */
  lemma {:induction false} NoSignatureNoFetch(formats: seq<AdaptiveFormat>, n: nat, table: ItagLookup,
                                              playerUrl: string, env: Collaborators, filesize: map<int, Option<int>>)
    requires n <= |formats|
    requires forall i :: 0 <= i < n ==> !Signed(formats[i], table, env)
    ensures Run(formats, n, table, playerUrl, env, filesize).fetches == 0
    ensures Run(formats, n, table, playerUrl, env, filesize).decryptCode.None?
  {
    if n > 0 {
      NoSignatureNoFetch(formats, n - 1, table, playerUrl, env, filesize);
    }
  }

  /** In a call that returns, an entry that reaches the signature branch leaves a code cached from then on. */
  lemma SignatureLoadsCode(formats: seq<AdaptiveFormat>, i: nat, n: nat, table: ItagLookup,
                           playerUrl: string, env: Collaborators, filesize: map<int, Option<int>>)
    requires i < n <= |formats|
    requires Signed(formats[i], table, env)
    requires Run(formats, n, table, playerUrl, env, filesize).failure.None?
    ensures Run(formats, n, table, playerUrl, env, filesize).decryptCode.Some?
  {
    if Run(formats, i + 1, table, playerUrl, env, filesize).failure.Some? {
      FailurePersists(formats, i + 1, n, table, playerUrl, env, filesize);
    } else {
      SignedEntryCaches(formats, i, table, playerUrl, env, filesize);
      CodePersists(formats, i + 1, n, table, playerUrl, env, filesize);
    }
  }

  /** An entry that reaches the signature branch and does not raise leaves a code cached. */
  lemma SignedEntryCaches(formats: seq<AdaptiveFormat>, i: nat, table: ItagLookup,
                          playerUrl: string, env: Collaborators, filesize: map<int, Option<int>>)
    requires i < |formats|
    requires Signed(formats[i], table, env)
    requires Run(formats, i + 1, table, playerUrl, env, filesize).failure.None?
    ensures Run(formats, i + 1, table, playerUrl, env, filesize).decryptCode.Some?
  {
    var p := Run(formats, i, table, playerUrl, env, filesize);
    assert Run(formats, i + 1, table, playerUrl, env, filesize) == Step(p, formats[i], table, playerUrl, env);
    assert Get(Tags(formats[i].cipher.value, env), "s").Some?;
  }

  /**
   * The player script is fetched at most once per call, and in a call that
   * returns it was fetched exactly when some entry reached the signature
   * branch.
   */
  lemma FetchesExactlyForSignatures(formats: seq<AdaptiveFormat>, table: ItagLookup,
                                    playerUrl: string, env: Collaborators, filesize: map<int, Option<int>>)
    requires Run(formats, |formats|, table, playerUrl, env, filesize).failure.None?
    ensures Run(formats, |formats|, table, playerUrl, env, filesize).fetches <= 1
    ensures Run(formats, |formats|, table, playerUrl, env, filesize).fetches == 1 <==>
      exists i :: 0 <= i < |formats| && Signed(formats[i], table, env)
  {
    if i :| 0 <= i < |formats| && Signed(formats[i], table, env) {
      SignatureLoadsCode(formats, i, |formats|, table, playerUrl, env, filesize);
    } else {
      NoSignatureNoFetch(formats, |formats|, table, playerUrl, env, filesize);
    }
  }

  /**
   * The pair one entry puts into the URL map, given the decryption code:
   * with an "s" tag, the "url" tag (or "null" without one) followed by
   * "&sig=" and the decrypted signature; without it, the "url" tag; with
   * neither, nothing. An entry the table does not hold puts nothing.
   */
  function EntryPut(f: AdaptiveFormat, table: ItagLookup, env: Collaborators, code: string): (put: Option<(string, ItagDescriptor)>) {
    if f.cipher.None? || f.itag.None? || table(LongToInt(f.itag.value)).None? then None
    else
      var tags := Tags(f.cipher.value, env);
      var item := table(LongToInt(f.itag.value)).value;
      if "s" in tags then
        var url := if "url" in tags then tags["url"] else "null";
        Some((url + "&sig=" + env.decryptSignature(tags["s"], code), item))
      else if "url" in tags then Some((tags["url"], item))
      else None
  }

  /** The pairs the first `n` entries put, in order. */
  function Puts(formats: seq<AdaptiveFormat>, n: nat, table: ItagLookup, env: Collaborators, code: string): (puts: seq<(string, ItagDescriptor)>)
    requires n <= |formats|
  {
    if n == 0 then []
    else
      var put := EntryPut(formats[n - 1], table, env, code);
      Puts(formats, n - 1, table, env, code) + (if put.Some? then [put.value] else [])
  }

  /**
   * One entry of a call that has not raised adds exactly its own pair to
   * the URL map, using the code loaded from the player script.
   */
  lemma StepPuts(formats: seq<AdaptiveFormat>, i: nat, table: ItagLookup,
                 playerUrl: string, env: Collaborators, filesize: map<int, Option<int>>, code: string)
    requires i < |formats|
    requires Run(formats, i + 1, table, playerUrl, env, filesize).failure.None?
    requires env.urlToString(playerUrl).Some? ==> code == LoadedCode(playerUrl, env)
    ensures Run(formats, i, table, playerUrl, env, filesize).failure.None?
    ensures var put := EntryPut(formats[i], table, env, code);
      Run(formats, i + 1, table, playerUrl, env, filesize).urlAndItags ==
        if put.Some? then Run(formats, i, table, playerUrl, env, filesize).urlAndItags.Put(put.value.0, put.value.1)
        else Run(formats, i, table, playerUrl, env, filesize).urlAndItags
  {
    var p := Run(formats, i, table, playerUrl, env, filesize);
    var f := formats[i];
    assert p.failure.None? && f.cipher.Some? && f.itag.Some?;
    var tags := Tags(f.cipher.value, env);
    if table(LongToInt(f.itag.value)).Some? && "s" in tags {
      assert Get(tags, "url").Some? <==> "url" in tags;
    }
  }

  /**
   * In a call that returns, the URL map is the LinkedHashMap built by
   * putting, in entry order, the pair each entry puts under the code loaded
   * from the player script.
   */
  lemma {:induction false} RunIsFromPuts(formats: seq<AdaptiveFormat>, n: nat, table: ItagLookup,
                                         playerUrl: string, env: Collaborators, filesize: map<int, Option<int>>, code: string)
    requires n <= |formats|
    requires Run(formats, n, table, playerUrl, env, filesize).failure.None?
    requires env.urlToString(playerUrl).Some? ==> code == LoadedCode(playerUrl, env)
    ensures Run(formats, n, table, playerUrl, env, filesize).urlAndItags == FromPuts(Puts(formats, n, table, env, code))
  {
    if n > 0 {
      StepPuts(formats, n - 1, table, playerUrl, env, filesize, code);
      RunIsFromPuts(formats, n - 1, table, playerUrl, env, filesize, code);
      var put := EntryPut(formats[n - 1], table, env, code);
      if put.Some? {
        FromPutsSnoc(Puts(formats, n - 1, table, env, code), put.value.0, put.value.1);
      } else {
        assert Puts(formats, n, table, env, code) == Puts(formats, n - 1, table, env, code);
      }
    }
  }

  /**
   * In a call that returns, the stored URLs are exactly the URLs the
   * entries put, and each maps to the table entry of the last entry that
   * put it: a repeated URL takes the later entry's item.
   */
  lemma StoredUrlTakesLastEntry(formats: seq<AdaptiveFormat>, table: ItagLookup, playerUrl: string,
                                env: Collaborators, filesize: map<int, Option<int>>, code: string, url: string)
    requires Run(formats, |formats|, table, playerUrl, env, filesize).failure.None?
    requires env.urlToString(playerUrl).Some? ==> code == LoadedCode(playerUrl, env)
    ensures var m := Run(formats, |formats|, table, playerUrl, env, filesize).urlAndItags;
      var puts := Puts(formats, |formats|, table, env, code);
      && (url in m.values <==> url in PutKeys(puts))
      && (url in m.values ==> m.values[url] == LastValue(puts, url))
  {
    var puts := Puts(formats, |formats|, table, env, code);
    RunIsFromPuts(formats, |formats|, table, playerUrl, env, filesize, code);
    FromPutsKeys(puts);
    if url in PutKeys(puts) {
      FromPutsLastValueWins(puts, url);
    }
  }

  /**
   * In a call that returns, the URL map lists its URLs in the order they
   * were first put: a repeated URL keeps the position of its first put.
   */
  lemma StoredUrlsInFirstPutOrder(formats: seq<AdaptiveFormat>, table: ItagLookup, playerUrl: string,
                                  env: Collaborators, filesize: map<int, Option<int>>, code: string, i: nat, j: nat)
    requires Run(formats, |formats|, table, playerUrl, env, filesize).failure.None?
    requires env.urlToString(playerUrl).Some? ==> code == LoadedCode(playerUrl, env)
    requires i < j < |Run(formats, |formats|, table, playerUrl, env, filesize).urlAndItags.keys|
    ensures var keys := Run(formats, |formats|, table, playerUrl, env, filesize).urlAndItags.keys;
      var putKeys := PutKeys(Puts(formats, |formats|, table, env, code));
      keys[i] in putKeys && keys[j] in putKeys && FirstIndex(putKeys, keys[i]) < FirstIndex(putKeys, keys[j])
  {
    RunIsFromPuts(formats, |formats|, table, playerUrl, env, filesize, code);
    FromPutsFirstInsertionOrder(Puts(formats, |formats|, table, env, code), i, j);
  }

  /**
   * The `contentLength` of the last of the first `n` entries whose itag the
   * table maps to an item with id `id`, or `None` when no entry does.
   */
  function LastContentLength(formats: seq<AdaptiveFormat>, n: nat, table: ItagLookup, id: int): (last: Option<Option<int>>)
    requires n <= |formats|
  {
    if n == 0 then None
    else
      var f := formats[n - 1];
      var entry := if f.itag.Some? then table(LongToInt(f.itag.value)) else None;
      if entry.Some? && entry.value.id == id then Some(f.contentLength)
      else LastContentLength(formats, n - 1, table, id)
  }

  /**
   * In a call that returns, the size slot of an item holds the
   * `contentLength` of the last entry for that item, or what it held before
   * the call when no entry was for it: all entries with one itag write into
   * the same shared object.
   */
  lemma {:induction false} SizesAreLastContentLengths(formats: seq<AdaptiveFormat>, n: nat, table: ItagLookup,
                                                      playerUrl: string, env: Collaborators,
                                                      filesize: map<int, Option<int>>, id: int)
    requires n <= |formats|
    requires Run(formats, n, table, playerUrl, env, filesize).failure.None?
    ensures var last := LastContentLength(formats, n, table, id);
      var sizes := Run(formats, n, table, playerUrl, env, filesize).filesize;
      && (last.Some? ==> id in sizes && sizes[id] == last.value)
      && (last.None? ==> (id in sizes <==> id in filesize) && (id in filesize ==> sizes[id] == filesize[id]))
  {
    if n > 0 {
      assert Run(formats, n - 1, table, playerUrl, env, filesize).failure.None?;
      SizesAreLastContentLengths(formats, n - 1, table, playerUrl, env, filesize, id);
    }
  }

  /** Every pair the entries put carries an item of the table that some entry's itag maps to, so that item has a last entry. */
  lemma {:induction false} PutItemsHaveEntries(formats: seq<AdaptiveFormat>, n: nat, table: ItagLookup,
                                               env: Collaborators, code: string, pair: (string, ItagDescriptor))
    requires n <= |formats|
    requires pair in Puts(formats, n, table, env, code)
    ensures LastContentLength(formats, n, table, pair.1.id).Some?
    ensures exists itag :: table(itag) == Some(pair.1)
  {
    if n > 0 {
      var put := EntryPut(formats[n - 1], table, env, code);
      if pair in Puts(formats, n - 1, table, env, code) {
        PutItemsHaveEntries(formats, n - 1, table, env, code, pair);
      } else {
        assert put.Some? && pair == put.value;
        assert table(LongToInt(formats[n - 1].itag.value)) == Some(pair.1);
      }
    }
  }

  /**
   * In a call that returns, the stream for the `i`-th stored URL carries
   * that URL, its item's format and resolution, and the `contentLength` of
   * the last entry for its item, whichever URL that entry stored.
   */
  lemma StreamSizeIsLastContentLength(formats: seq<AdaptiveFormat>, table: ItagLookup, playerUrl: string,
                                      env: Collaborators, filesize: map<int, Option<int>>, i: nat)
    requires Run(formats, |formats|, table, playerUrl, env, filesize).failure.None?
    requires i < |Run(formats, |formats|, table, playerUrl, env, filesize).urlAndItags.keys|
    ensures var p := Run(formats, |formats|, table, playerUrl, env, filesize);
      var url := p.urlAndItags.keys[i];
      var item := p.urlAndItags.values[url];
      var s := ToStreams(p.urlAndItags, p.filesize)[i];
      && s.url == url && s.format == item.format && s.resolution == item.resolution
      && LastContentLength(formats, |formats|, table, item.id) == Some(s.filesize)
  {
    var p := Run(formats, |formats|, table, playerUrl, env, filesize);
    var url := p.urlAndItags.keys[i];
    assert url in p.urlAndItags.values;
    var item := p.urlAndItags.values[url];
    var code := if env.urlToString(playerUrl).Some? then LoadedCode(playerUrl, env) else "";
    StoredUrlTakesLastEntry(formats, table, playerUrl, env, filesize, code, url);
    PutItemsHaveEntries(formats, |formats|, table, env, code, (url, item));
    SizesAreLastContentLengths(formats, |formats|, table, playerUrl, env, filesize, item.id);
    assert p.filesize[item.id] == LastContentLength(formats, |formats|, table, item.id).value;
    assert ToStreams(p.urlAndItags, p.filesize)[i] == StreamOf(url, item, p.filesize);
  }

  /**
   * In a call that returns, every stored URL maps to an entry of `ITAG_MAP`:
   * a supported itag's entry, keyed by its own id.
   */
  lemma StoredItemsAreTableEntries(formats: seq<AdaptiveFormat>, playerUrl: string, env: Collaborators,
                                   filesize: map<int, Option<int>>, url: string)
    requires Run(formats, |formats|, ItagMap, playerUrl, env, filesize).failure.None?
    requires url in Run(formats, |formats|, ItagMap, playerUrl, env, filesize).urlAndItags.values
    ensures var item := Run(formats, |formats|, ItagMap, playerUrl, env, filesize).urlAndItags.values[url];
      item.id in SUPPORTED_IDS && ItagMap(item.id) == Some(item)
  {
    var item := Run(formats, |formats|, ItagMap, playerUrl, env, filesize).urlAndItags.values[url];
    var code := if env.urlToString(playerUrl).Some? then LoadedCode(playerUrl, env) else "";
    StoredUrlTakesLastEntry(formats, ItagMap, playerUrl, env, filesize, code, url);
    PutItemsHaveEntries(formats, |formats|, ItagMap, env, code, (url, item));
    var itag :| ItagMap(itag) == Some(item);
    TableShape(itag);
  }

  /** Filtering for audio distributes over concatenation, so it keeps the streams' relative order. */
  lemma {:induction false} FilterAudioAppend(a: seq<Stream>, b: seq<Stream>)
    ensures FilterAudio(a + b) == FilterAudio(a) + FilterAudio(b)
  {
    if a == [] {
      assert a + b == b;
    } else {
      assert (a + b)[0] == a[0] && (a + b)[1..] == a[1..] + b;
      FilterAudioAppend(a[1..], b);
    }
  }
}
