/**
 * The decision logic of the YouTube source (syng/sources/youtube.py). Every
 * yt-dlp call and `urlencode` is an input: the model receives what they
 * returned or raised and decides as the source does.
 */
module Youtube {
  import opened Wrappers
  import opened Text
  import opened Entries
  import opened Sources

  // ---------------------------------------------------------------------
  // Video metadata (class YouTube)

  /**
   * The fields of an `extract_info` dictionary the source reads. The outer
   * Option says whether the key is present, the inner one whether it holds None.
   */
  datatype InfoDict = InfoDict(
    duration: Option<int>,
    title: Option<Option<string>>,
    channel: Option<Option<string>>)

  /** What `extract_info(url, download=False)` did: raised, returned None, or returned a dictionary. */
  datatype Extraction = ExtractRaised(error: Exception) | ExtractNone | Extracted(info: InfoDict)

  /** A `YouTube` object: length, stored title and author (possibly None), and watch URL. */
  datatype YouTube = YouTube(length: int, storedTitle: Option<string>, storedAuthor: Option<string>, watchUrl: string)

  /**
   * `YouTube(url)`: with no url, an empty video of length 0; when extraction
   * raises DownloadError, a video of length 300 with no title or author; when
   * it returns None, RuntimeError; otherwise the dictionary's duration, title
   * and channel, a missing key raising KeyError.
   */
  function NewYouTube(url: Option<string>, extraction: Extraction): (r: Outcome<YouTube>)
    ensures url.None? ==> r == Returns(YouTube(0, Some(""), Some(""), ""))
    ensures url.Some? ==> (r.Returns? ==> r.value.watchUrl == url.value)
    ensures url.Some? && extraction.ExtractRaised? ==>
      if extraction.error == DownloadError then r == Returns(YouTube(300, None, None, url.value))
      else r == Raises(extraction.error)
    ensures url.Some? && extraction.ExtractNone? ==> r == Raises(RuntimeError)
    ensures url.Some? && extraction.Extracted? ==>
      var info := extraction.info;
      (r.Returns? <==> info.duration.Some? && info.title.Some? && info.channel.Some?)
      && (r.Raises? ==> r.error == KeyError)
      && (r.Returns? ==>
            r.value.length == info.duration.value
            && r.value.storedTitle == info.title.value && r.value.storedAuthor == info.channel.value)
  {
    if url.None? then Returns(YouTube(0, Some(""), Some(""), ""))
    else match extraction
      case ExtractRaised(e) =>
        if e == DownloadError then Returns(YouTube(300, None, None, url.value)) else Raises(e)
      case ExtractNone => Raises(RuntimeError)
      case Extracted(info) =>
        if info.duration.None? || info.title.None? || info.channel.None? then Raises(KeyError)
        else Returns(YouTube(info.duration.value, info.title.value, info.channel.value, url.value))
  }

  /** The `title` property: the stored title, or "" in place of None. */
  function Title(y: YouTube): (t: string)
    ensures y.storedTitle.Some? ==> t == y.storedTitle.value
    ensures y.storedTitle.None? ==> t == ""
  {
    if y.storedTitle.None? then "" else y.storedTitle.value
  }

  /** The `author` property: the stored author, or "" in place of None. */
  function Author(y: YouTube): (a: string)
    ensures y.storedAuthor.Some? ==> a == y.storedAuthor.value
    ensures y.storedAuthor.None? ==> a == ""
  {
    if y.storedAuthor.None? then "" else y.storedAuthor.value
  }

  /**
   * Whatever extraction did, a video built from a url that does not raise has
   * a title and an author as strings, and both are empty exactly when the
   * download failed or the dictionary held None.
   */
  lemma MetadataDefaults(url: string, extraction: Extraction)
    requires NewYouTube(Some(url), extraction).Returns?
    ensures var y := NewYouTube(Some(url), extraction).value;
      && (extraction.ExtractRaised? ==> Title(y) == "" && Author(y) == "" && y.length == 300)
      && (extraction.Extracted? && extraction.info.title.value.Some? ==> Title(y) == extraction.info.title.value.value)
      && (extraction.Extracted? && extraction.info.title.value.None? ==> Title(y) == "")
      && (extraction.Extracted? && extraction.info.channel.value.Some? ==> Author(y) == extraction.info.channel.value.value)
      && (extraction.Extracted? && extraction.info.channel.value.None? ==> Author(y) == "")
  {
  }

  // ---------------------------------------------------------------------
  // Searching (class Search)

  /** The search filter that restricts YouTube's results to videos. */
  const VideosOnly: string := "EgIQAfABAQ=="

  /** `channel[1:]` when the channel starts with `/`; IndexError for an empty channel. */
  function ChannelPath(channel: string): (r: Outcome<string>)
    ensures channel == "" <==> r == Raises(IndexError)
    ensures channel != "" && channel[0] == '/' ==> r == Returns(channel[1..])
    ensures channel != "" && channel[0] != '/' ==> r == Returns(channel)
  {
    if channel == "" then Raises(IndexError)
    else if channel[0] == '/' then Returns(channel[1..])
    else Returns(channel)
  }

  /** Exactly one leading slash is removed, even from a channel starting with several. */
  lemma OneSlashRemoved(c: string)
    ensures ChannelPath("/" + c) == Returns(c)
    ensures ChannelPath("//" + c) == Returns("/" + c)
  {
    assert ("/" + c)[1..] == c;
    assert ("//" + c)[1..] == "/" + c;
  }

  /**
   * The URL `Search` hands to yt-dlp: YouTube's results page for the query, or
   * the channel's search page, each with the videos-only filter; `urlencode`
   * is an input.
   */
  function SearchUrl(query: string, channel: Option<string>, urlencode: seq<(string, string)> -> string): (r: Outcome<string>)
    ensures channel.None? ==>
      r == Returns("https://youtube.com/results?" + urlencode([("search_query", query), ("sp", VideosOnly)]))
    ensures channel.Some? ==> (r.Returns? <==> ChannelPath(channel.value).Returns?)
    ensures channel.Some? && r.Returns? ==>
      r.value == "https://www.youtube.com/" + ChannelPath(channel.value).value + "/search?"
                 + urlencode([("query", query), ("sp", VideosOnly)])
  {
    if channel.None? then
      Returns("https://youtube.com/results?" + urlencode([("search_query", query), ("sp", VideosOnly)]))
    else match ChannelPath(channel.value)
      case Raises(e) => Raises(e)
      case Returns(path) =>
        Returns("https://www.youtube.com/" + path + "/search?" + urlencode([("query", query), ("sp", VideosOnly)]))
  }

  /** A flat search hit: its `url` key if present, and what extracting that url does. */
  datatype FlatEntry = FlatEntry(url: Option<string>, extraction: Extraction)

  /** What the flat search extraction did: raised, returned None, a dictionary without `entries`, or the hits. */
  datatype Listing = ListingRaised(error: Exception) | NoListing | NoEntries | Listing(entries: seq<FlatEntry>)

  /** A hit whose url the filter lets through. */
  predicate NotShort(e: FlatEntry)
    requires e.url.Some?
  {
    !Contains(e.url.value, "short")
  }

  /**
   * A hit that makes the whole search raise: the filter's `entry["url"]` has
   * no url to read, or building the video raises something other than KeyError.
   */
  predicate Aborts(e: FlatEntry) {
    e.url.None?
    || (NotShort(e) && NewYouTube(e.url, e.extraction).Raises? && NewYouTube(e.url, e.extraction).error != KeyError)
  }

  /** A hit that becomes a result. */
  predicate Kept(e: FlatEntry) {
    e.url.Some? && NotShort(e) && NewYouTube(e.url, e.extraction).Returns?
  }

  /** `Returns(xs + ys)` for a later outcome `Returns(ys)`; an exception stays. */
  function PrependAll(xs: seq<YouTube>, o: Outcome<seq<YouTube>>): (r: Outcome<seq<YouTube>>)
    ensures r.Returns? <==> o.Returns?
    ensures r.Returns? ==> r.value == xs + o.value
    ensures r.Raises? ==> r.error == o.error
  {
    if o.Returns? then Returns(xs + o.value) else o
  }

  /** Prepending nothing changes nothing, and prepending twice is prepending the concatenation. */
  lemma PrependAllLaws(xs: seq<YouTube>, ys: seq<YouTube>, o: Outcome<seq<YouTube>>)
    ensures PrependAll([], o) == o
    ensures PrependAll(xs, PrependAll(ys, o)) == PrependAll(xs + ys, o)
  {
    if o.Returns? {
      assert [] + o.value == o.value;
      assert xs + (ys + o.value) == (xs + ys) + o.value;
    }
  }

  /**
   * The loop over the filtered hits: a hit without url raises KeyError, short
   * urls are dropped, a video whose construction raises KeyError is dropped,
   * any other exception ends the search.
   */
  function Collect(entries: seq<FlatEntry>): (r: Outcome<seq<YouTube>>)
  {
    if entries == [] then Returns([])
    else
      var e := entries[0];
      if e.url.None? then Raises(KeyError)
      else if !NotShort(e) then Collect(entries[1..])
      else match NewYouTube(e.url, e.extraction)
        case Raises(err) => if err == KeyError then Collect(entries[1..]) else Raises(err)
        case Returns(y) => PrependAll([y], Collect(entries[1..]))
  }

  /** The search succeeds exactly when no hit aborts it. */
  lemma {:induction false} CollectSucceeds(entries: seq<FlatEntry>)
    ensures Collect(entries).Returns? <==> forall e :: e in entries ==> !Aborts(e)
  {
    if entries != [] {
      CollectSucceeds(entries[1..]);
      var e := entries[0];
      assert forall f :: f in entries <==> f == e || f in entries[1..];
      if e.url.None? {
        assert Aborts(e);
      } else if !NotShort(e) {
        assert !Aborts(e);
      } else if NewYouTube(e.url, e.extraction).Returns? {
        assert !Aborts(e);
        var y := NewYouTube(e.url, e.extraction).value;
        assert Collect(entries) == PrependAll([y], Collect(entries[1..]));
        assert Collect(entries).Returns? <==> Collect(entries[1..]).Returns?;
      } else if NewYouTube(e.url, e.extraction).error == KeyError {
        assert !Aborts(e);
        assert Collect(entries) == Collect(entries[1..]);
      } else {
        assert Aborts(e);
      }
    }
  }

  /** Every result comes from a kept hit, with that hit's url; so no result's url contains "short". */
  lemma {:induction false} CollectProvenance(entries: seq<FlatEntry>)
    requires Collect(entries).Returns?
    ensures forall y :: y in Collect(entries).value ==>
      exists e :: e in entries && Kept(e) && e.url == Some(y.watchUrl)
    ensures forall y :: y in Collect(entries).value ==> !Contains(y.watchUrl, "short")
  {
    if entries != [] {
      var e := entries[0];
      if e.url.Some? && NotShort(e) {
        CollectProvenance(entries[1..]);
        forall y | y in Collect(entries).value
          ensures exists f :: f in entries && Kept(f) && f.url == Some(y.watchUrl)
        {
          if y !in Collect(entries[1..]).value {
            assert e in entries && Kept(e);
          }
        }
      } else if e.url.Some? {
        CollectProvenance(entries[1..]);
      }
    }
  }

  /** The video a kept hit becomes. */
  function VideoOf(e: FlatEntry): YouTube
    requires Kept(e)
  {
    NewYouTube(e.url, e.extraction).value
  }

  /** A successful search has one result per kept hit, in order: the k-th result is the video of the k-th kept hit. */
  lemma {:induction false} CollectCount(entries: seq<FlatEntry>)
    requires Collect(entries).Returns?
    ensures |Collect(entries).value| == |FilterKept(entries)|
    ensures forall k :: 0 <= k < |FilterKept(entries)| ==> Collect(entries).value[k] == VideoOf(FilterKept(entries)[k])
  {
    if entries != [] {
      var e := entries[0];
      var rest := entries[1..];
      CollectCount(rest);
      if Kept(e) {
        assert FilterKept(entries) == [e] + FilterKept(rest);
        assert Collect(entries) == PrependAll([VideoOf(e)], Collect(rest));
      } else {
        assert FilterKept(entries) == FilterKept(rest);
        assert Collect(entries) == Collect(rest);
      }
    }
  }

  /** The hits that are kept, in order. */
  function FilterKept(entries: seq<FlatEntry>): (kept: seq<FlatEntry>)
    ensures forall e :: e in kept <==> e in entries && Kept(e)
    ensures forall k :: 0 <= k < |kept| ==> Kept(kept[k])
  {
    if entries == [] then []
    else if Kept(entries[0]) then [entries[0]] + FilterKept(entries[1..])
    else FilterKept(entries[1..])
  }

  /**
   * `Search(query, channel).results`: the URL is built, `extract` lists the
   * hits for it, and a loop appends a video for each kept hit.
   */
  method Search(query: string, channel: Option<string>, urlencode: seq<(string, string)> -> string,
                extract: string -> Listing)
    returns (results: Outcome<seq<YouTube>>)
    ensures SearchUrl(query, channel, urlencode).Raises? ==> results == Raises(IndexError)
    ensures SearchUrl(query, channel, urlencode).Returns? ==>
      match extract(SearchUrl(query, channel, urlencode).value)
        case ListingRaised(e) => results == Raises(e)
        case NoListing => results == Returns([])
        case NoEntries => results == Raises(KeyError)
        case Listing(entries) => results == Collect(entries)
  {
    var url := SearchUrl(query, channel, urlencode);
    if url.Raises? {
      return Raises(url.error);
    }
    var listing := extract(url.value);
    if listing.ListingRaised? {
      return Raises(listing.error);
    }
    if listing.NoListing? {
      return Returns([]);
    }
    if listing.NoEntries? {
      return Raises(KeyError);
    }
    var entries := listing.entries;
    var found: seq<YouTube> := [];
    var i := 0;
    assert entries[i..] == entries;
    PrependAllLaws([], [], Collect(entries));
    while i < |entries|
      invariant 0 <= i <= |entries|
      invariant Collect(entries) == PrependAll(found, Collect(entries[i..]))
    {
      var e := entries[i];
      assert entries[i..][0] == e && entries[i..][1..] == entries[i + 1..];
      if e.url.None? {
        assert Collect(entries[i..]) == Raises(KeyError);
        return Raises(KeyError);
      }
      if !Contains(e.url.value, "short") {
        var video := NewYouTube(e.url, e.extraction);
        if video.Returns? {
          assert Collect(entries[i..]) == PrependAll([video.value], Collect(entries[i + 1..]));
          PrependAllLaws(found, [video.value], Collect(entries[i + 1..]));
          found := found + [video.value];
        } else if video.error != KeyError {
          assert Collect(entries[i..]) == Raises(video.error);
          return Raises(video.error);
        }
      }
      i := i + 1;
    }
    assert entries[i..] == [] && found + [] == found;
    results := Returns(found);
  }

  // ---------------------------------------------------------------------
  // Configuration (YoutubeSource.__init__)

  /** A configuration value as read from the user's configuration file. */
  datatype ConfigValue = VStr(s: string) | VInt(n: int) | VBool(b: bool) | VList(items: seq<string>) | VNone

  /** Python's `int(v)`: parses strings, keeps integers, maps booleans to 0 and 1. */
  function PyInt(v: ConfigValue): (r: Outcome<int>)
    ensures v.VStr? ==> (r.Returns? <==> ParseInt(v.s).Some?) && (r.Raises? ==> r.error == ValueError)
    ensures v.VStr? && r.Returns? ==> r.value == ParseInt(v.s).value
    ensures v.VInt? ==> r == Returns(v.n)
    ensures v.VBool? ==> r == Returns(if v.b then 1 else 0)
    ensures v.VList? || v.VNone? ==> r == Raises(TypeError)
  {
    match v
      case VStr(s) => if ParseInt(s).Some? then Returns(ParseInt(s).value) else Raises(ValueError)
      case VInt(n) => Returns(n)
      case VBool(b) => Returns(if b then 1 else 0)
      case _ => Raises(TypeError)
  }

  /** Python truthiness. */
  predicate Truthy(v: ConfigValue) {
    match v
      case VStr(s) => s != ""
      case VInt(n) => n != 0
      case VBool(b) => b
      case VList(items) => items != []
      case VNone => false
  }

  /** The resolution used when `max_res` is missing or not a number. */
  const DefaultMaxRes := 720

  /** `max_res`: `int(config["max_res"])`, 720 on KeyError or ValueError; a TypeError propagates. */
  function MaxRes(config: map<string, ConfigValue>): (r: Outcome<int>)
    ensures "max_res" !in config ==> r == Returns(DefaultMaxRes)
    ensures "max_res" in config && PyInt(config["max_res"]).Returns? ==> r == PyInt(config["max_res"])
    ensures "max_res" in config && PyInt(config["max_res"]).Raises? ==>
      if PyInt(config["max_res"]).error == ValueError then r == Returns(DefaultMaxRes) else r == Raises(TypeError)
  {
    if "max_res" !in config then Returns(DefaultMaxRes)
    else match PyInt(config["max_res"])
      case Returns(n) => Returns(n)
      case Raises(e) => if e == ValueError then Returns(DefaultMaxRes) else Raises(e)
  }

  /** A `max_res` written as a number is read back as that number. */
  lemma MaxResOfNumeral(config: map<string, ConfigValue>, n: int)
    ensures MaxRes(config["max_res" := VStr(IntToString(n))]) == Returns(n)
  {
    ParseIntRoundTrip(n);
  }

  /** A `max_res` that is not a number falls back to 720. */
  lemma MaxResFallback(config: map<string, ConfigValue>)
    requires "max_res" in config && config["max_res"].VStr? && ParseInt(config["max_res"].s).None?
    ensures MaxRes(config) == Returns(DefaultMaxRes)
  {
  }

  /** `[height<=m]`: the height cap of one format alternative. */
  function HeightCap(m: int): string {
    "[height<=" + IntToString(m) + "]"
  }

  /** The yt-dlp format: best video plus best audio, or the best combined file, each capped at `m`. */
  function FormatString(m: int): (fs: string)
    ensures OccursAt(fs, "bestvideo" + HeightCap(m) + "+", 0)
    ensures OccursAt(fs, "bestaudio/best" + HeightCap(m), |fs| - |"bestaudio/best" + HeightCap(m)|)
  {
    "bestvideo" + HeightCap(m) + "+" + "bestaudio/best" + HeightCap(m)
  }

  /** The number written into a height cap reads back as `m`. */
  lemma HeightCapReadsBack(m: int)
    ensures var cap := HeightCap(m);
      |cap| >= 10 && ParseInt(cap[9..|cap| - 1]) == Some(m)
  {
    var cap := HeightCap(m);
    assert cap[9..|cap| - 1] == IntToString(m);
    ParseIntRoundTrip(m);
  }

  /** The settings `YoutubeSource.__init__` derives from its configuration. */
  datatype Settings = Settings(
    channels: ConfigValue,
    tmpDir: ConfigValue,
    maxRes: int,
    startStreaming: ConfigValue,
    formatString: string)

  /**
   * Each setting is the configured value or its default (no channels,
   * `/tmp/syng`, 720, no streaming); the format string caps at `max_res`.
   */
  function ReadSettings(config: map<string, ConfigValue>): (r: Outcome<Settings>)
    ensures r.Returns? <==> MaxRes(config).Returns?
    ensures r.Raises? ==> r.error == TypeError
    ensures r.Returns? ==>
      && r.value.channels == (if "channels" in config then config["channels"] else VList([]))
      && r.value.tmpDir == (if "tmp_dir" in config then config["tmp_dir"] else VStr("/tmp/syng"))
      && r.value.maxRes == MaxRes(config).value
      && r.value.startStreaming == (if "start_streaming" in config then config["start_streaming"] else VBool(false))
      && r.value.formatString == FormatString(r.value.maxRes)
  {
    match MaxRes(config)
      case Raises(e) => Raises(e)
      case Returns(m) =>
        Returns(Settings(
          if "channels" in config then config["channels"] else VList([]),
          if "tmp_dir" in config then config["tmp_dir"] else VStr("/tmp/syng"),
          m,
          if "start_streaming" in config then config["start_streaming"] else VBool(false),
          FormatString(m)))
  }

  /** An empty configuration gives the defaults and does not stream. */
  lemma DefaultSettings()
    ensures ReadSettings(map[]).Returns?
    ensures var s := ReadSettings(map[]).value;
      s.maxRes == 720 && !Truthy(s.startStreaming) && s.tmpDir == VStr("/tmp/syng") && s.channels == VList([])
  {
  }

  // ---------------------------------------------------------------------
  // Metadata and downloads

  /** A value of the missing-metadata dictionary. */
  datatype MetaValue = MInt(n: int) | MStr(s: string)

  /**
   * `get_missing_metadata`: nothing for an entry with complete data; otherwise
   * the duration, author and title of the video built from the identifier.
   */
  function MissingMetadata(entry: Entry, extraction: Extraction): (r: Outcome<map<string, MetaValue>>)
    ensures !entry.incompleteData ==> r == Returns(map[])
    ensures entry.incompleteData ==> (r.Returns? <==> NewYouTube(Some(entry.ident), extraction).Returns?)
    ensures entry.incompleteData && r.Returns? ==>
      var y := NewYouTube(Some(entry.ident), extraction).value;
      && r.value.Keys == {"duration", "artist", "title"}
      && r.value["duration"] == MInt(y.length)
      && r.value["artist"] == MStr(Author(y))
      && r.value["title"] == MStr(Title(y))
  {
    if !entry.incompleteData then Returns(map[])
    else match NewYouTube(Some(entry.ident), extraction)
      case Raises(e) => Raises(e)
      case Returns(y) => Returns(map["duration" := MInt(y.length), "artist" := MStr(Author(y)), "title" := MStr(Title(y))])
  }

  /** An incomplete entry whose video could not be downloaded reports length 300 and empty texts. */
  lemma MetadataOfUndownloadable(entry: Entry)
    requires entry.incompleteData
    ensures MissingMetadata(entry, ExtractRaised(DownloadError))
         == Returns(map["duration" := MInt(300), "artist" := MStr(""), "title" := MStr("")])
  {
  }

  /** What the download's `extract_info` did: raised, returned None, or returned the `requested_downloads` file paths. */
  datatype Download =
    | DownloadRaised(error: Exception)
    | DownloadNone
    | Downloaded(requested: Option<seq<Option<string>>>)  // key present?; each item's `filepath`, if present

  /** `do_buffer`: the first requested download's file path as the video, and no audio. */
  function DoBuffer(d: Download): (r: Outcome<(string, Option<string>)>)
    ensures r.Returns? ==> r.value.1 == None
    ensures r.Returns? <==> d.Downloaded? && d.requested.Some? && |d.requested.value| > 0 && d.requested.value[0].Some?
    ensures r.Returns? ==> r.value.0 == d.requested.value[0].value
    ensures d.DownloadRaised? ==> r == Raises(d.error)
    ensures d.DownloadNone? ==> r == Raises(TypeError)
  {
    match d
      case DownloadRaised(e) => Raises(e)
      case DownloadNone => Raises(TypeError)
      case Downloaded(requested) =>
        if requested.None? then Raises(KeyError)
        else if |requested.value| == 0 then Raises(IndexError)
        else if requested.value[0].None? then Raises(KeyError)
        else Returns((requested.value[0].value, None))
  }

  /** Fixed fields of the streaming command line. */
  const ScriptOpts: string := "--script-opts=ytdl_hook-ytdl_path=yt-dlp,ytdl_hook-exclude='%.pls$'"

  /** The options `play` hands `play_mpv` when streaming. */
  function StreamOptions(formatString: string, mpvOptions: string): seq<string> {
    [ScriptOpts, "--ytdl-format=" + formatString, "--fullscreen", mpvOptions]
  }

  /** Calling a Python function with `given` positional arguments where it declares `declared`. */
  function PositionalCall(given: nat, declared: nat): (r: Outcome<()>)
    ensures r.Raises? <==> given != declared
    ensures r.Raises? ==> r.error == TypeError
  {
    if given == declared then Returns(()) else Raises(TypeError)
  }

  /** Positional parameters of the base `Source.play` after `self`: the entry. */
  const BasePlayParameters: nat := 1

  /** What the non-streaming branch of `YoutubeSource.play` passes the base `play` as written: entry and options. */
  const DeferredArgumentsAsWritten: nat := 2

  /**
   * `YoutubeSource.play` as written, up to the start of playback: `Returns(true)`
   * when it streams, otherwise the outcome of calling the base `play` with the
   * entry and the options (`Returns(false)` had that call been accepted).
   */
  function PlayAsWritten(startStreaming: ConfigValue, complete: bool): (r: Outcome<bool>)
    ensures r == Returns(true) <==> Truthy(startStreaming) && !complete
  {
    if Truthy(startStreaming) && !complete then Returns(true)
    else match PositionalCall(DeferredArgumentsAsWritten, BasePlayParameters)
      case Returns(_) => Returns(false)
      case Raises(e) => Raises(e)
  }

  /**
   * As written, every `play` that does not stream fails with TypeError before
   * anything is played: exactly the cases where the corrected `PlayStart`
   * reports `streaming == false` and the base `play` follows.
   */
  lemma DeferredPlayRaises(startStreaming: ConfigValue, complete: bool)
    ensures PlayAsWritten(startStreaming, complete) == Raises(TypeError) <==> !(Truthy(startStreaming) && !complete)
    ensures PlayAsWritten(startStreaming, complete).Returns? ==> PlayAsWritten(startStreaming, complete).value
  {
    if !(Truthy(startStreaming) && !complete) {
      assert PositionalCall(DeferredArgumentsAsWritten, BasePlayParameters) == Raises(TypeError);
    }
  }

  // ---------------------------------------------------------------------
  // The source

  class YoutubeSource {
    /** The base coordinator this source extends. */
    const base: Source
    /** The settings read from the configuration. */
    const settings: Settings

    /** `YoutubeSource(config)` once `ReadSettings(config)` returned `settings`; no extra mpv arguments. */
    constructor (settings: Settings)
      ensures this.settings == settings
      ensures fresh(base) && base.Valid() && base.SingleFlight()
      ensures base.downloadedFiles == map[] && base.player == NoPlayer && !base.skipNext && base.tasks == []
      ensures base.extraMpvArguments == []
    {
      this.settings := settings;
      base := new Source([]);
    }

    /**
     * The branch of `play`: when streaming is configured and the record is not
     * complete, the player starts at once on the raw identifier, without audio
     * file and with the streaming options; otherwise nothing happens here and
     * the base `play` follows. The completeness test reads the record through
     * the defaultdict only when streaming is configured.
     */
    method PlayStart(entry: Entry, mpvOptions: string) returns (streaming: bool)
      requires base.Valid()
      modifies base
      ensures base.Valid()
      ensures streaming <==> Truthy(settings.startStreaming) && !old(base.Get(entry.ident)).complete
      ensures base.downloadedFiles == if Truthy(settings.startStreaming)
        then old(base.downloadedFiles)[entry.ident := old(base.Get(entry.ident))]
        else old(base.downloadedFiles)
      ensures streaming ==> base.player == Playing(MpvArgs(entry.ident, None, StreamOptions(settings.formatString, mpvOptions)))
      ensures !streaming ==> base.player == old(base.player)
      ensures base.tasks == old(base.tasks) && base.skipNext == old(base.skipNext)
      ensures old(base.SingleFlight()) ==> base.SingleFlight()
    {
      streaming := false;
      if Truthy(settings.startStreaming) {
        var record := base.Get(entry.ident);
        base.downloadedFiles := base.downloadedFiles[entry.ident := record];
        if !record.complete {
          base.player := Playing(MpvArgs(entry.ident, None, StreamOptions(settings.formatString, mpvOptions)));
          streaming := true;
        }
      }
    }

    /**
     * The streamed player exited: it is awaited, but the reference is kept and
     * a pending skip is neither consumed nor turned into `entry.skip`.
     */
    method StreamExit()
      requires base.player.Playing? || base.player.Killed?
      modifies base
      ensures base.player == Exited(old(base.player).args)
      ensures base.downloadedFiles == old(base.downloadedFiles) && base.tasks == old(base.tasks)
      ensures base.skipNext == old(base.skipNext)
    {
      base.player := Exited(base.player.args);
    }

    /**
     * The fetch task of `buffer` finished running `do_buffer`: its result is
     * stored with no audio file, and any exception marks the record failed.
     */
    method FinishDownload(t: nat, d: Download) returns (ok: bool)
      requires base.Valid()
      requires t < |base.tasks| && base.tasks[t].status == Running
      modifies base
      ensures base.Valid()
      ensures ok <==> DoBuffer(d).Returns?
      ensures var id := old(base.tasks)[t].ident;
        base.downloadedFiles == old(base.downloadedFiles)[id :=
          if ok then old(base.Get(id)).(video := DoBuffer(d).value.0, audio := None, complete := true, ready := true)
          else old(base.Get(id)).(failed := true, ready := true)]
      ensures base.tasks == old(base.tasks)[t := Fetch(old(base.tasks)[t].ident, Done)]
      ensures base.player == old(base.player) && base.skipNext == old(base.skipNext)
      ensures old(base.SingleFlight()) ==> base.SingleFlight()
    {
      var r := DoBuffer(d);
      if r.Returns? {
        base.BufferFinishOk(t, r.value.0, None);
        ok := true;
      } else {
        base.BufferFinishFail(t);
        ok := false;
      }
    }

    /** `get_entry`: a new entry for the identifier with the source's fixed metadata. */
    static method GetEntry(performer: string, ident: string, artist: Option<string>, title: Option<string>)
      returns (entry: Entry)
      ensures fresh(entry)
      ensures entry.ident == ident && entry.performer == performer
      ensures entry.artist == artist && entry.title == title
      ensures entry.source == "youtube" && entry.duration == 180 && entry.album == "YouTube"
      ensures entry.incompleteData && !entry.skip
    {
      entry := new Entry(ident, "youtube", 180, title, artist, "YouTube", performer, true);
    }
  }

  /** A downloaded YouTube video is played from one file: no `--audio-file` argument. */
  lemma DownloadedVideoHasNoAudioArgument(video: string, options: seq<string>)
    ensures |MpvArgs(video, None, options)| == |options| + 2
    ensures forall a :: a in MpvArgs(video, None, options) ==> a == "--fullscreen" || a in options || a == video
  {
    var args := MpvArgs(video, None, options);
    assert args == ["--fullscreen"] + options + [video];
  }
}
