/**
 * Adding torrents: the builder that collects the sources and the fifteen
 * optional parameters, `build`, which checks and partitions the sources,
 * the rendering of the present options as text fields, and the choice of
 * the one request `add_torrent` sends.
 *
 * File reads and the send are not modelled: the readable files are an
 * input (a map from path to full contents), and so is what the send
 * returned (a status code, or the transport's failure text).
 */
module AddTorrent {
  import opened Common
  import opened Strings
  import opened Misc
  import opened ErrorHandling
  import opened Torrents
  import opened AuthCookie
  import opened AuthApi

  type u64 = x: nat | x < 0x1_0000_0000_0000_0000
  type u32 = x: nat | x < 0x1_0000_0000

  /** A share-ratio limit (an `f32` in the source), held as the text it renders to. */
  type RatioLimit = string

  /** `TorrentAddDescriptorBuilder`: the sources and every option, each possibly unset. */
  datatype Builder = Builder(
    torrents: Option<seq<Torrent>>,
    savepath: Option<string>,
    cookie: Option<string>,
    category: Option<string>,
    tags: Option<seq<string>>,
    skipChecking: Option<bool>,
    paused: Option<bool>,
    rootFolder: Option<string>,
    rename: Option<string>,
    upLimit: Option<u64>,
    dlLimit: Option<u64>,
    ratioLimit: Option<RatioLimit>,
    seedingTimeLimit: Option<u32>,
    autoTmm: Option<bool>,
    sequentialDownload: Option<bool>,
    firstLastPiecePrio: Option<bool>)
  {
    // Each setter sets its own field and leaves every other field as it was.

    function WithTorrents(torrents: seq<Torrent>): (r: Builder)
      ensures r.torrents == Some(torrents) && r.(torrents := this.torrents) == this
    {
      this.(torrents := Some(torrents))
    }

    function WithSavepath(savepath: string): (r: Builder)
      ensures r.savepath == Some(savepath) && r.(savepath := this.savepath) == this
    {
      this.(savepath := Some(savepath))
    }

    function WithCookie(cookie: string): (r: Builder)
      ensures r.cookie == Some(cookie) && r.(cookie := this.cookie) == this
    {
      this.(cookie := Some(cookie))
    }

    function WithCategory(category: string): (r: Builder)
      ensures r.category == Some(category) && r.(category := this.category) == this
    {
      this.(category := Some(category))
    }

    function WithTags(tags: seq<string>): (r: Builder)
      ensures r.tags == Some(tags) && r.(tags := this.tags) == this
    {
      this.(tags := Some(tags))
    }

    function WithSkipChecking(skipChecking: bool): (r: Builder)
      ensures r.skipChecking == Some(skipChecking) && r.(skipChecking := this.skipChecking) == this
    {
      this.(skipChecking := Some(skipChecking))
    }

    function WithPaused(paused: bool): (r: Builder)
      ensures r.paused == Some(paused) && r.(paused := this.paused) == this
    {
      this.(paused := Some(paused))
    }

    function WithRootFolder(rootFolder: string): (r: Builder)
      ensures r.rootFolder == Some(rootFolder) && r.(rootFolder := this.rootFolder) == this
    {
      this.(rootFolder := Some(rootFolder))
    }

    function WithRename(rename: string): (r: Builder)
      ensures r.rename == Some(rename) && r.(rename := this.rename) == this
    {
      this.(rename := Some(rename))
    }

    function WithUpLimit(upLimit: u64): (r: Builder)
      ensures r.upLimit == Some(upLimit) && r.(upLimit := this.upLimit) == this
    {
      this.(upLimit := Some(upLimit))
    }

    function WithDlLimit(dlLimit: u64): (r: Builder)
      ensures r.dlLimit == Some(dlLimit) && r.(dlLimit := this.dlLimit) == this
    {
      this.(dlLimit := Some(dlLimit))
    }

    function WithRatioLimit(ratioLimit: RatioLimit): (r: Builder)
      ensures r.ratioLimit == Some(ratioLimit) && r.(ratioLimit := this.ratioLimit) == this
    {
      this.(ratioLimit := Some(ratioLimit))
    }

    function WithSeedingTimeLimit(seedingTimeLimit: u32): (r: Builder)
      ensures r.seedingTimeLimit == Some(seedingTimeLimit) && r.(seedingTimeLimit := this.seedingTimeLimit) == this
    {
      this.(seedingTimeLimit := Some(seedingTimeLimit))
    }

    function WithAutoTmm(autoTmm: bool): (r: Builder)
      ensures r.autoTmm == Some(autoTmm) && r.(autoTmm := this.autoTmm) == this
    {
      this.(autoTmm := Some(autoTmm))
    }

    function WithSequentialDownload(sequentialDownload: bool): (r: Builder)
      ensures r.sequentialDownload == Some(sequentialDownload) &&
              r.(sequentialDownload := this.sequentialDownload) == this
    {
      this.(sequentialDownload := Some(sequentialDownload))
    }

    function WithFirstLastPiecePrio(firstLastPiecePrio: bool): (r: Builder)
      ensures r.firstLastPiecePrio == Some(firstLastPiecePrio) &&
              r.(firstLastPiecePrio := this.firstLastPiecePrio) == this
    {
      this.(firstLastPiecePrio := Some(firstLastPiecePrio))
    }
  }

  /** Every option of a builder is unset. */
  predicate NoOptions(b: Builder)
  {
    b.savepath.None? && b.cookie.None? && b.category.None? && b.tags.None? &&
    b.skipChecking.None? && b.paused.None? && b.rootFolder.None? && b.rename.None? &&
    b.upLimit.None? && b.dlLimit.None? && b.ratioLimit.None? && b.seedingTimeLimit.None? &&
    b.autoTmm.None? && b.sequentialDownload.None? && b.firstLastPiecePrio.None?
  }

  /** `TorrentAddDescriptorBuilder::new` (and `TorrentAddDescriptor::builder`): nothing is set. */
  function NewBuilder(): (b: Builder)
    ensures b.torrents.None? && NoOptions(b)
  {
    Builder(None, None, None, None, None, None, None, None, None, None, None, None, None, None, None, None)
  }

  /** Setting a field a second time replaces the first value. */
  lemma SettersOverwrite(b: Builder, s1: string, s2: string, ts1: seq<Torrent>, ts2: seq<Torrent>,
                         tags1: seq<string>, tags2: seq<string>, f1: bool, f2: bool,
                         n1: u64, n2: u64, m1: u32, m2: u32)
    ensures b.WithTorrents(ts1).WithTorrents(ts2) == b.WithTorrents(ts2)
    ensures b.WithSavepath(s1).WithSavepath(s2) == b.WithSavepath(s2)
    ensures b.WithCookie(s1).WithCookie(s2) == b.WithCookie(s2)
    ensures b.WithCategory(s1).WithCategory(s2) == b.WithCategory(s2)
    ensures b.WithTags(tags1).WithTags(tags2) == b.WithTags(tags2)
    ensures b.WithSkipChecking(f1).WithSkipChecking(f2) == b.WithSkipChecking(f2)
    ensures b.WithPaused(f1).WithPaused(f2) == b.WithPaused(f2)
    ensures b.WithRootFolder(s1).WithRootFolder(s2) == b.WithRootFolder(s2)
    ensures b.WithRename(s1).WithRename(s2) == b.WithRename(s2)
    ensures b.WithUpLimit(n1).WithUpLimit(n2) == b.WithUpLimit(n2)
    ensures b.WithDlLimit(n1).WithDlLimit(n2) == b.WithDlLimit(n2)
    ensures b.WithRatioLimit(s1).WithRatioLimit(s2) == b.WithRatioLimit(s2)
    ensures b.WithSeedingTimeLimit(m1).WithSeedingTimeLimit(m2) == b.WithSeedingTimeLimit(m2)
    ensures b.WithAutoTmm(f1).WithAutoTmm(f2) == b.WithAutoTmm(f2)
    ensures b.WithSequentialDownload(f1).WithSequentialDownload(f2) == b.WithSequentialDownload(f2)
    ensures b.WithFirstLastPiecePrio(f1).WithFirstLastPiecePrio(f2) == b.WithFirstLastPiecePrio(f2)
  {
  }

  /** `TorrentAddDescriptor`: the sources split by kind, and the options as the builder held them. */
  datatype Descriptor = Descriptor(
    urls: SepVec,
    paths: seq<string>,
    savepath: Option<string>,
    cookie: Option<string>,
    category: Option<string>,
    tags: Option<SepVec>,
    skipChecking: Option<bool>,
    paused: Option<bool>,
    rootFolder: Option<string>,
    rename: Option<string>,
    upLimit: Option<u64>,
    dlLimit: Option<u64>,
    ratioLimit: Option<RatioLimit>,
    seedingTimeLimit: Option<u32>,
    autoTmm: Option<bool>,
    sequentialDownload: Option<bool>,
    firstLastPiecePrio: Option<bool>)

  /** The URLs among the sources, in their order. */
  function UrlsOf(ts: seq<Torrent>): seq<string>
  {
    if ts == [] then []
    else UrlsOf(ts[..|ts| - 1]) + match GetInner(ts[|ts| - 1]) case Url(u) => [u] case RawTorrent(_) => []
  }

  /** The `.torrent` file paths among the sources, in their order. */
  function PathsOf(ts: seq<Torrent>): seq<string>
  {
    if ts == [] then []
    else PathsOf(ts[..|ts| - 1]) + match GetInner(ts[|ts| - 1]) case Url(_) => [] case RawTorrent(p) => [p]
  }

  /** The sources a list of URLs and a list of paths stand for. */
  function AsUrls(us: seq<string>): seq<Torrent>
  {
    seq(|us|, k requires 0 <= k < |us| => Torrent(TorrentInner.Url(us[k])))
  }

  function AsFiles(ps: seq<string>): seq<Torrent>
  {
    seq(|ps|, k requires 0 <= k < |ps| => Torrent(TorrentInner.RawTorrent(ps[k])))
  }

  /**
   * The partition is stable: the URLs (and the paths) of a concatenation are
   * those of the first part followed by those of the second.
   */
  lemma {:induction false} PartitionAppend(a: seq<Torrent>, b: seq<Torrent>)
    ensures UrlsOf(a + b) == UrlsOf(a) + UrlsOf(b)
    ensures PathsOf(a + b) == PathsOf(a) + PathsOf(b)
    decreases |b|
  {
    if b == [] {
      assert a + b == a;
    } else {
      var b' := b[..|b| - 1];
      PartitionAppend(a, b');
      assert (a + b)[..|a + b| - 1] == a + b';
      assert (a + b)[|a + b| - 1] == b[|b| - 1];
    }
  }

  /**
   * Nothing is lost or duplicated: the sources are, up to order, exactly the
   * URLs as URL sources together with the paths as file sources.
   */
  lemma {:induction false} PartitionIsComplete(ts: seq<Torrent>)
    ensures multiset(ts) == multiset(AsUrls(UrlsOf(ts))) + multiset(AsFiles(PathsOf(ts)))
    ensures |UrlsOf(ts)| + |PathsOf(ts)| == |ts|
  {
    if ts != [] {
      var init := ts[..|ts| - 1];
      var last := ts[|ts| - 1];
      PartitionIsComplete(init);
      assert ts == init + [last];
      match last.inner {
        case Url(u) =>
          assert AsUrls(UrlsOf(ts)) == AsUrls(UrlsOf(init)) + [last];
          assert AsFiles(PathsOf(ts)) == AsFiles(PathsOf(init));
        case RawTorrent(p) =>
          assert AsFiles(PathsOf(ts)) == AsFiles(PathsOf(init)) + [last];
          assert AsUrls(UrlsOf(ts)) == AsUrls(UrlsOf(init));
      }
    }
  }

  /** A URL is among the URLs exactly when it is among the sources as a URL. */
  lemma {:induction false} UrlsOfHas(ts: seq<Torrent>, u: string)
    ensures u in UrlsOf(ts) <==> Torrent(TorrentInner.Url(u)) in ts
  {
    if ts != [] {
      UrlsOfHas(ts[..|ts| - 1], u);
      assert ts == ts[..|ts| - 1] + [ts[|ts| - 1]];
    }
  }

  /** A path is among the paths exactly when it is among the sources as a file. */
  lemma {:induction false} PathsOfHas(ts: seq<Torrent>, p: string)
    ensures p in PathsOf(ts) <==> Torrent(TorrentInner.RawTorrent(p)) in ts
  {
    if ts != [] {
      PathsOfHas(ts[..|ts| - 1], p);
      assert ts == ts[..|ts| - 1] + [ts[|ts| - 1]];
    }
  }

  const TorrentsNotSetError := Error.ApiError(TorrentError(TorrentErrors.TorrentsNotSet))

  /** What `build` returns for a builder. */
  function Built(b: Builder): (r: Result<Descriptor, Error>)
    ensures r.Err? <==> b.torrents.None? || b.torrents.value == []
    ensures r.Err? ==> r.error == TorrentsNotSetError
    ensures r.Ok? ==> |r.value.urls.inner| + |r.value.paths| == |b.torrents.value|
  {
    if b.torrents.None? || |b.torrents.value| == 0 then Err(TorrentsNotSetError)
    else
      var ts := b.torrents.value;
      PartitionIsComplete(ts);
      Ok(Descriptor(
        SepVec(UrlsOf(ts), ""), PathsOf(ts),
        b.savepath, b.cookie, b.category,
        if b.tags.Some? then Some(SepVec(b.tags.value, ",")) else None,
        b.skipChecking, b.paused, b.rootFolder, b.rename, b.upLimit, b.dlLimit,
        b.ratioLimit, b.seedingTimeLimit, b.autoTmm, b.sequentialDownload, b.firstLastPiecePrio))
  }

  /**
   * `TorrentAddDescriptorBuilder::build`: refuses a builder without sources
   * or with an empty list of them; otherwise walks the sources once, sending
   * each URL to one list and each path to the other.
   */
  method Build(b: Builder) returns (r: Result<Descriptor, Error>)
    ensures r == Built(b)
    ensures r.Err? <==> b.torrents.None? || b.torrents.value == []
    ensures r.Err? ==> r.error == TorrentsNotSetError
  {
    if b.torrents.None? || |b.torrents.value| == 0 {
      return Err(TorrentsNotSetError);
    }
    var t := b.torrents.value;
    var vecUrls: seq<string> := [];
    var vecPaths: seq<string> := [];
    for i := 0 to |t|
      invariant vecUrls == UrlsOf(t[..i])
      invariant vecPaths == PathsOf(t[..i])
    {
      assert t[..i + 1][..i] == t[..i];
      match GetInner(t[i]) {
        case Url(url) => vecUrls := vecUrls + [url];
        case RawTorrent(path) => vecPaths := vecPaths + [path];
      }
    }
    assert t[..|t|] == t;
    var tags := if b.tags.Some? then Some(SepVec(b.tags.value, ",")) else None;
    r := Ok(Descriptor(
      SepVec(vecUrls, ""), vecPaths,
      b.savepath, b.cookie, b.category, tags,
      b.skipChecking, b.paused, b.rootFolder, b.rename, b.upLimit, b.dlLimit,
      b.ratioLimit, b.seedingTimeLimit, b.autoTmm, b.sequentialDownload, b.firstLastPiecePrio));
  }

  /** A built descriptor holds every source, split by kind with each kind in its original order. */
  lemma BuiltPartitions(b: Builder)
    requires Built(b).Ok?
    ensures var d := Built(b).value; var ts := b.torrents.value;
      |ts| > 0 &&
      d.urls == SepVec(UrlsOf(ts), "") && d.paths == PathsOf(ts) &&
      |d.urls.inner| + |d.paths| == |ts| &&
      multiset(ts) == multiset(AsUrls(d.urls.inner)) + multiset(AsFiles(d.paths)) &&
      |d.urls.inner| + |d.paths| > 0
  {
    PartitionIsComplete(b.torrents.value);
  }

  /** A built descriptor has tags exactly when the builder had them, joined by commas; every other option is copied. */
  lemma BuiltOptions(b: Builder)
    requires Built(b).Ok?
    ensures var d := Built(b).value;
      (d.tags.Some? <==> b.tags.Some?) &&
      (b.tags.Some? ==> d.tags.value.inner == b.tags.value && d.tags.value.ToString() == Join(b.tags.value, ",")) &&
      d.savepath == b.savepath && d.cookie == b.cookie && d.category == b.category &&
      d.skipChecking == b.skipChecking && d.paused == b.paused && d.rootFolder == b.rootFolder &&
      d.rename == b.rename && d.upLimit == b.upLimit && d.dlLimit == b.dlLimit &&
      d.ratioLimit == b.ratioLimit && d.seedingTimeLimit == b.seedingTimeLimit &&
      d.autoTmm == b.autoTmm && d.sequentialDownload == b.sequentialDownload &&
      d.firstLastPiecePrio == b.firstLastPiecePrio
  {
  }

  // ---------- the option fields of the URL request ----------

  /** The wire names of the options, in the order they are added to a form. */
  const FieldNames: seq<string> := [
    "savepath", "cookie", "category", "tags", "skip_checking", "paused", "root_folder",
    "rename", "upLimit", "dlLimit", "ratioLimit", "seedingTimeLimit", "autoTMM",
    "sequentialDownload", "firstLastPiecePrio"]

  lemma FieldNamesDistinct()
    ensures forall i, j :: 0 <= i < j < |FieldNames| ==> FieldNames[i] != FieldNames[j]
  {
  }

  function BoolText(o: Option<bool>): Option<string>
  {
    if o.Some? then Some(BoolToString(o.value)) else None
  }

  function NumberText(o: Option<nat>): Option<string>
  {
    if o.Some? then Some(NatToString(o.value)) else None
  }

  /** Option `k` as its wire name and, when set, its value as text; in `FieldNames` order. */
  function Param(d: Descriptor, k: nat): (string, Option<string>)
    requires k < |FieldNames|
  {
    if k == 0 then ("savepath", d.savepath)
    else if k == 1 then ("cookie", d.cookie)
    else if k == 2 then ("category", d.category)
    else if k == 3 then ("tags", if d.tags.Some? then Some(d.tags.value.ToString()) else None)
    else if k == 4 then ("skip_checking", BoolText(d.skipChecking))
    else if k == 5 then ("paused", BoolText(d.paused))
    else if k == 6 then ("root_folder", d.rootFolder)
    else if k == 7 then ("rename", d.rename)
    else if k == 8 then ("upLimit", NumberText(d.upLimit))
    else if k == 9 then ("dlLimit", NumberText(d.dlLimit))
    else if k == 10 then ("ratioLimit", d.ratioLimit)
    else if k == 11 then ("seedingTimeLimit", NumberText(d.seedingTimeLimit))
    else if k == 12 then ("autoTMM", BoolText(d.autoTmm))
    else if k == 13 then ("sequentialDownload", BoolText(d.sequentialDownload))
    else ("firstLastPiecePrio", BoolText(d.firstLastPiecePrio))
  }

  /** All the options, in `FieldNames` order. */
  function OptionalParams(d: Descriptor): seq<(string, Option<string>)>
  {
    seq(|FieldNames|, k requires 0 <= k < |FieldNames| => Param(d, k))
  }

  lemma ParamNames(d: Descriptor)
    ensures |OptionalParams(d)| == |FieldNames|
    ensures forall k :: 0 <= k < |FieldNames| ==> OptionalParams(d)[k].0 == FieldNames[k]
  {
  }

  /** Every option of a descriptor is unset. */
  predicate Unconfigured(d: Descriptor)
  {
    d.savepath.None? && d.cookie.None? && d.category.None? && d.tags.None? &&
    d.skipChecking.None? && d.paused.None? && d.rootFolder.None? && d.rename.None? &&
    d.upLimit.None? && d.dlLimit.None? && d.ratioLimit.None? && d.seedingTimeLimit.None? &&
    d.autoTmm.None? && d.sequentialDownload.None? && d.firstLastPiecePrio.None?
  }

  /** One multipart part: a text field, or a file with its file name and media type. */
  datatype Part =
    | Text(name: string, value: string)
    | File(name: string, fileName: string, mime: string, bytes: seq<byte>)

  type Form = seq<Part>

  /** The text field for one entry: present only when the entry is set. */
  function Field(entry: (string, Option<string>)): Form
  {
    if entry.1.Some? then [Text(entry.0, entry.1.value)] else []
  }

  /** The text fields for the set entries of `ps`, in order. */
  function Present(ps: seq<(string, Option<string>)>): (fs: Form)
    ensures |fs| <= |ps|
    ensures forall k :: 0 <= k < |fs| ==> fs[k].Text?
  {
    if ps == [] then [] else Present(ps[..|ps| - 1]) + Field(ps[|ps| - 1])
  }

  lemma PresentStep(ps: seq<(string, Option<string>)>, k: nat)
    requires k < |ps|
    ensures Present(ps[..k + 1]) == Present(ps[..k]) + Field(ps[k])
  {
    assert ps[..k + 1][..k] == ps[..k];
  }

  /** A field is in `Present(ps)` exactly when its name is paired with its value in `ps`. */
  lemma {:induction false} PresentHas(ps: seq<(string, Option<string>)>, name: string, value: string)
    ensures Text(name, value) in Present(ps) <==> (name, Some(value)) in ps
  {
    if ps != [] {
      var init := ps[..|ps| - 1];
      PresentHas(init, name, value);
      assert ps == init + [ps[|ps| - 1]];
    }
  }

  /** Every field of `Present(ps)` comes from an entry of `ps`. */
  lemma {:induction false} PresentFrom(ps: seq<(string, Option<string>)>, i: nat)
    requires i < |Present(ps)|
    ensures exists k :: 0 <= k < |ps| && ps[k].0 == Present(ps)[i].name && ps[k].1 == Some(Present(ps)[i].value)
  {
    var init := ps[..|ps| - 1];
    if i < |Present(init)| {
      PresentFrom(init, i);
      var k :| 0 <= k < |init| && init[k].0 == Present(init)[i].name && init[k].1 == Some(Present(init)[i].value);
      assert ps[k] == init[k];
    } else {
      assert ps[|ps| - 1].0 == Present(ps)[i].name;
    }
  }

  /** No entry set, no field. */
  lemma {:induction false} PresentOfNone(ps: seq<(string, Option<string>)>)
    requires forall k :: 0 <= k < |ps| ==> ps[k].1.None?
    ensures Present(ps) == []
  {
    if ps != [] {
      PresentOfNone(ps[..|ps| - 1]);
    }
  }

  /** Only entry `k` possibly set: its field, if any, is the whole result. */
  lemma {:induction false} PresentOfOne(ps: seq<(string, Option<string>)>, k: nat)
    requires k < |ps|
    requires forall j :: 0 <= j < |ps| && j != k ==> ps[j].1.None?
    ensures Present(ps) == Field(ps[k])
  {
    var init := ps[..|ps| - 1];
    if k == |ps| - 1 {
      PresentOfNone(init);
    } else {
      PresentOfOne(init, k);
    }
  }

  /** The position of a name in `FieldNames` (past the end for any other name). */
  function Rank(name: string): nat
  {
    if name in FieldNames then RankIn(FieldNames, name) else |FieldNames|
  }

  function RankIn(names: seq<string>, name: string): (i: nat)
    requires name in names
    ensures i < |names| && names[i] == name
  {
    if names[0] == name then 0 else 1 + RankIn(names[1..], name)
  }

  lemma RankOfFieldName(k: nat)
    requires k < |FieldNames|
    ensures Rank(FieldNames[k]) == k
  {
    FieldNamesDistinct();
  }

  /** When the entries' names rise in rank, so do the names of the fields `Present` keeps. */
  lemma {:induction false} PresentKeepsOrder(ps: seq<(string, Option<string>)>)
    requires forall i, j :: 0 <= i < j < |ps| ==> Rank(ps[i].0) < Rank(ps[j].0)
    ensures forall i, j :: 0 <= i < j < |Present(ps)| ==> Rank(Present(ps)[i].name) < Rank(Present(ps)[j].name)
  {
    if ps != [] {
      var init := ps[..|ps| - 1];
      PresentKeepsOrder(init);
      var fs := Present(ps);
      var front := Present(init);
      assert fs == front + Field(ps[|ps| - 1]);
      forall i, j | 0 <= i < j < |fs|
        ensures Rank(fs[i].name) < Rank(fs[j].name)
      {
        assert fs[i] == front[i];
        if j >= |front| {
          PresentFrom(init, i);
          var k :| 0 <= k < |init| && init[k].0 == front[i].name && init[k].1 == Some(front[i].value);
          assert fs[j].name == ps[|ps| - 1].0 && ps[k] == init[k];
        } else {
          assert fs[j] == front[j];
        }
      }
    }
  }

  lemma ParamsRise(d: Descriptor)
    ensures forall i, j :: 0 <= i < j < |OptionalParams(d)| ==>
              Rank(OptionalParams(d)[i].0) < Rank(OptionalParams(d)[j].0)
  {
    ParamNames(d);
    forall k | 0 <= k < |FieldNames| {
      RankOfFieldName(k);
    }
  }

  /** `thing`'s additions for a descriptor: one text field per set option, in `FieldNames` order. */
  function OptionFields(d: Descriptor): (fs: Form)
    ensures |fs| <= |FieldNames|
    ensures forall i :: 0 <= i < |fs| ==> fs[i].Text?
  {
    ParamNames(d);
    Present(OptionalParams(d))
  }

  /** Option `k` gives the field `FieldNames[k]` exactly when it is set, and then with its value as text. */
  lemma OptionFieldPresent(d: Descriptor, k: nat, v: string)
    requires k < |FieldNames|
    ensures Text(FieldNames[k], v) in OptionFields(d) <==> OptionalParams(d)[k].1 == Some(v)
  {
    var ps := OptionalParams(d);
    ParamNames(d);
    PresentHas(ps, FieldNames[k], v);
    if (FieldNames[k], Some(v)) in ps {
      var j :| 0 <= j < |ps| && ps[j] == (FieldNames[k], Some(v));
      RankOfFieldName(j);
      RankOfFieldName(k);
    }
  }

  /** Only the options' wire names occur. */
  lemma OptionFieldNames(d: Descriptor)
    ensures forall i :: 0 <= i < |OptionFields(d)| ==> OptionFields(d)[i].name in FieldNames
  {
    var ps := OptionalParams(d);
    ParamNames(d);
    forall i | 0 <= i < |OptionFields(d)|
      ensures OptionFields(d)[i].name in FieldNames
    {
      PresentFrom(ps, i);
    }
  }

  /** The fields come in `FieldNames` order, so no name occurs twice and a set option gives exactly one field. */
  lemma OptionFieldsOrdered(d: Descriptor)
    ensures forall i, j :: 0 <= i < j < |OptionFields(d)| ==>
              Rank(OptionFields(d)[i].name) < Rank(OptionFields(d)[j].name) &&
              OptionFields(d)[i].name != OptionFields(d)[j].name
  {
    ParamsRise(d);
    PresentKeepsOrder(OptionalParams(d));
  }

  /** A descriptor without options adds no fields. */
  lemma NoOptionFields(d: Descriptor)
    requires Unconfigured(d)
    ensures OptionFields(d) == []
  {
    PresentOfNone(OptionalParams(d));
  }

  /** A descriptor whose only set option is its tags adds exactly the `tags` field. */
  lemma OnlyTagsGiveOneField(d: Descriptor)
    requires d.tags.Some? && Unconfigured(d.(tags := None))
    ensures OptionFields(d) == [Text("tags", d.tags.value.ToString())]
  {
    var ps := OptionalParams(d);
    assert forall j :: 0 <= j < |ps| && j != 3 ==> ps[j].1.None?;
    PresentOfOne(ps, 3);
  }

  /** One `if let Some(..)` of `thing`: the field is appended when the option is set. */
  method AppendIfSet(form: Form, name: string, value: Option<string>) returns (f: Form)
    ensures f == form + Field((name, value))
  {
    f := form;
    if value.Some? {
      f := f + [Text(name, value.value)];
    }
  }

  /** The fields of the first `k` options. */
  function Upto(d: Descriptor, k: nat): Form
    requires k <= |FieldNames|
  {
    if k == 0 then [] else Upto(d, k - 1) + Field(Param(d, k - 1))
  }

  lemma {:induction false} UptoIsPresent(d: Descriptor, k: nat)
    requires k <= |FieldNames|
    ensures Upto(d, k) == Present(OptionalParams(d)[..k])
  {
    if k > 0 {
      UptoIsPresent(d, k - 1);
      PresentStep(OptionalParams(d), k - 1);
    }
  }

  /** One step of `thing`: appending option `k`'s field extends the fields of the options before it. */
  lemma ThingStep(form: Form, f: Form, g: Form, d: Descriptor, k: nat, entry: (string, Option<string>))
    requires k < |FieldNames| && Param(d, k) == entry
    requires f == form + Upto(d, k)
    requires g == f + Field(entry)
    ensures g == form + Upto(d, k + 1)
  {
  }

  /**
   * `thing`: appends to `form` one text field per set option of the
   * descriptor, checking the options one after another in `FieldNames` order.
   */
  method Thing(form: Form, descriptor: Descriptor) returns (f: Form)
    ensures f == form + OptionFields(descriptor)
  {
    f := form;
    ghost var prev := f;
    assert f == form + Upto(descriptor, 0);
    f := AppendIfSet(f, "savepath", descriptor.savepath);
    ThingStep(form, prev, f, descriptor, 0, ("savepath", descriptor.savepath));
    prev := f;
    f := AppendIfSet(f, "cookie", descriptor.cookie);
    ThingStep(form, prev, f, descriptor, 1, ("cookie", descriptor.cookie));
    prev := f;
    f := AppendIfSet(f, "category", descriptor.category);
    ThingStep(form, prev, f, descriptor, 2, ("category", descriptor.category));
    prev := f;
    f := AppendIfSet(f, "tags", if descriptor.tags.Some? then Some(descriptor.tags.value.ToString()) else None);
    ThingStep(form, prev, f, descriptor, 3, ("tags", if descriptor.tags.Some? then Some(descriptor.tags.value.ToString()) else None));
    prev := f;
    f := AppendIfSet(f, "skip_checking", BoolText(descriptor.skipChecking));
    ThingStep(form, prev, f, descriptor, 4, ("skip_checking", BoolText(descriptor.skipChecking)));
    prev := f;
    f := AppendIfSet(f, "paused", BoolText(descriptor.paused));
    ThingStep(form, prev, f, descriptor, 5, ("paused", BoolText(descriptor.paused)));
    prev := f;
    f := AppendIfSet(f, "root_folder", descriptor.rootFolder);
    ThingStep(form, prev, f, descriptor, 6, ("root_folder", descriptor.rootFolder));
    prev := f;
    f := AppendIfSet(f, "rename", descriptor.rename);
    ThingStep(form, prev, f, descriptor, 7, ("rename", descriptor.rename));
    prev := f;
    f := AppendIfSet(f, "upLimit", NumberText(descriptor.upLimit));
    ThingStep(form, prev, f, descriptor, 8, ("upLimit", NumberText(descriptor.upLimit)));
    prev := f;
    f := AppendIfSet(f, "dlLimit", NumberText(descriptor.dlLimit));
    ThingStep(form, prev, f, descriptor, 9, ("dlLimit", NumberText(descriptor.dlLimit)));
    prev := f;
    f := AppendIfSet(f, "ratioLimit", descriptor.ratioLimit);
    ThingStep(form, prev, f, descriptor, 10, ("ratioLimit", descriptor.ratioLimit));
    prev := f;
    f := AppendIfSet(f, "seedingTimeLimit", NumberText(descriptor.seedingTimeLimit));
    ThingStep(form, prev, f, descriptor, 11, ("seedingTimeLimit", NumberText(descriptor.seedingTimeLimit)));
    prev := f;
    f := AppendIfSet(f, "autoTMM", BoolText(descriptor.autoTmm));
    ThingStep(form, prev, f, descriptor, 12, ("autoTMM", BoolText(descriptor.autoTmm)));
    prev := f;
    f := AppendIfSet(f, "sequentialDownload", BoolText(descriptor.sequentialDownload));
    ThingStep(form, prev, f, descriptor, 13, ("sequentialDownload", BoolText(descriptor.sequentialDownload)));
    prev := f;
    f := AppendIfSet(f, "firstLastPiecePrio", BoolText(descriptor.firstLastPiecePrio));
    ThingStep(form, prev, f, descriptor, 14, ("firstLastPiecePrio", BoolText(descriptor.firstLastPiecePrio)));
    UptoIsPresent(descriptor, |FieldNames|);
    assert OptionalParams(descriptor)[..|FieldNames|] == OptionalParams(descriptor);
  }

  /**
   * `TorrentAddDescriptor::new`: builds from the sources alone and unwraps,
   * so an empty list (which the source unwraps into a panic) is excluded.
   */
  method NewDescriptor(torrents: seq<Torrent>) returns (d: Descriptor)
    requires |torrents| > 0
    ensures Built(NewBuilder().WithTorrents(torrents)) == Ok(d)
    ensures d.urls == SepVec(UrlsOf(torrents), "") && d.paths == PathsOf(torrents)
    ensures OptionFields(d) == []
  {
    var r := Build(NewBuilder().WithTorrents(torrents));
    d := r.value;
    assert Unconfigured(d);
    NoOptionFields(d);
  }

  // ---------- the request add_torrent sends ----------

  const AddEndpoint := "/api/v2/torrents/add"
  const TorrentFileName := "torrent_file.torrent"
  const TorrentMime := "application/x-bittorrent"

  /** The contents of the files that can be opened and read to the end, by path. */
  type FileSystem = map<string, seq<byte>>

  /** The part a `.torrent` file's contents are sent in. */
  function FilePart(bytes: seq<byte>): Part
  {
    File("torrents", TorrentFileName, TorrentMime, bytes)
  }

  /** The form of file parts for `paths`, one per path in order, or nothing if some path cannot be read. */
  function FileForm(paths: seq<string>, fs: FileSystem): (r: Option<Form>)
    ensures r.Some? <==> forall k :: 0 <= k < |paths| ==> paths[k] in fs
    ensures r.Some? ==> |r.value| == |paths| &&
                        forall k :: 0 <= k < |paths| ==> paths[k] in fs && r.value[k] == FilePart(fs[paths[k]])
  {
    if forall k :: 0 <= k < |paths| ==> paths[k] in fs
    then Some(seq(|paths|, k requires 0 <= k < |paths| => FilePart(fs[paths[k]])))
    else None
  }

  /** Which request `add_torrent` makes of a descriptor. */
  datatype Shape = FileUpload(form: Form) | UrlUpload(form: Form) | NoRequest

  const FilePathError := UnflattenErr(FlatError.TorrentFilePathError)

  /**
   * The request `add_torrent` builds before it asks for the cookie: the file
   * parts if there are paths (an unreadable one is an error), else the URL
   * form, else none.
   */
  function Submission(d: Descriptor, fs: FileSystem): (r: Result<Shape, Error>)
    ensures r.Err? <==> exists k :: 0 <= k < |d.paths| && d.paths[k] !in fs
    ensures r.Err? ==> r.error == FilePathError
    ensures r.Ok? ==> (r.value.FileUpload? <==> |d.paths| > 0)
    ensures r.Ok? ==> (r.value.UrlUpload? <==> |d.paths| == 0 && |d.urls.inner| > 0)
    ensures r.Ok? ==> (r.value.NoRequest? <==> |d.paths| == 0 && |d.urls.inner| == 0)
  {
    if |d.paths| > 0 then
      match FileForm(d.paths, fs)
      case None => Err(FilePathError)
      case Some(form) => Ok(FileUpload(form))
    else if |d.urls.inner| > 0 then Ok(UrlUpload([Text("urls", d.urls.ToString())] + OptionFields(d)))
    else Ok(NoRequest)
  }

  /**
   * With file paths, only the files are sent: one file part per path, in
   * order, and no text field, so neither the URLs nor any option; one
   * unreadable path fails the whole call.
   */
  lemma FilesTakePrecedence(d: Descriptor, fs: FileSystem)
    requires |d.paths| > 0
    ensures Submission(d, fs).Err? <==> exists k :: 0 <= k < |d.paths| && d.paths[k] !in fs
    ensures Submission(d, fs).Err? ==> Submission(d, fs).error == Error.ApiError(TorrentError(TorrentErrors.TorrentFilePathError))
    ensures Submission(d, fs).Ok? ==>
              var s := Submission(d, fs).value;
              s.FileUpload? && |s.form| == |d.paths| &&
              forall k :: 0 <= k < |d.paths| ==> s.form[k] == FilePart(fs[d.paths[k]])
  {
  }

  /** Without file paths but with URLs: the `urls` field holding the URLs run together, then the option fields. */
  lemma UrlsWithoutFiles(d: Descriptor, fs: FileSystem)
    requires |d.paths| == 0 && |d.urls.inner| > 0
    ensures Submission(d, fs).Ok? && Submission(d, fs).value.UrlUpload?
    ensures var form := Submission(d, fs).value.form;
      |form| >= 1 && form[0] == Text("urls", d.urls.ToString()) && form[1..] == OptionFields(d)
  {
  }

  /** Without any source, no request at all. */
  lemma NothingToSend(d: Descriptor, fs: FileSystem)
    requires |d.paths| == 0 && |d.urls.inner| == 0
    ensures Submission(d, fs) == Ok(NoRequest)
  {
  }

  /** A descriptor that `build` produced always leads to a request or to a file error. */
  lemma BuiltAlwaysSubmits(b: Builder, fs: FileSystem)
    requires Built(b).Ok?
    ensures Submission(Built(b).value, fs) != Ok(NoRequest)
  {
    BuiltPartitions(b);
  }

  /** Sources of both kinds: the URLs are dropped, only the files are sent. */
  lemma MixedSourcesDropUrls(b: Builder, fs: FileSystem, url: string, path: string)
    requires b.torrents.Some?
    requires Torrent(TorrentInner.Url(url)) in b.torrents.value
    requires Torrent(TorrentInner.RawTorrent(path)) in b.torrents.value
    ensures Built(b).Ok? && |Built(b).value.urls.inner| > 0
    ensures Submission(Built(b).value, fs).Err? || Submission(Built(b).value, fs).value.FileUpload?
  {
    UrlsOfHas(b.torrents.value, url);
    PathsOfHas(b.torrents.value, path);
  }

  /**
   * One magnet link and the tags `a`, `b`: the form is the `urls` field with
   * the link, then the `tags` field `a,b`, and nothing else.
   */
  lemma MagnetExample(fs: FileSystem)
    ensures var b := NewBuilder().WithTorrents([Torrents.New("magnet:?xt=1", TorrentType.Url)]).WithTags(["a", "b"]);
      Built(b).Ok? &&
      Submission(Built(b).value, fs) == Ok(UrlUpload([Text("urls", "magnet:?xt=1"), Text("tags", "a,b")]))
  {
    var ts := [Torrents.New("magnet:?xt=1", TorrentType.Url)];
    var b := NewBuilder().WithTorrents(ts).WithTags(["a", "b"]);
    assert ts[..0] == [];
    assert UrlsOf(ts) == ["magnet:?xt=1"];
    assert PathsOf(ts) == [];
    var d := Built(b).value;
    assert d.urls.ToString() == "magnet:?xt=1";
    assert d.tags.value.ToString() == "a,b";
    OnlyTagsGiveOneField(d);
    assert |d.paths| == 0 && |d.urls.inner| == 1;
    assert [Text("urls", "magnet:?xt=1")] + [Text("tags", "a,b")] == [Text("urls", "magnet:?xt=1"), Text("tags", "a,b")];
  }

  /**
   * The builder of the client's own test: one URL, one file, every option
   * set. Building keeps the URL and the path apart and joins the tags with
   * a comma; the request sent is then the file alone.
   */
  lemma FullBuilderExample(b: Builder, fs: FileSystem)
    requires b == NewBuilder()
      .WithTorrents([Torrents.New("aaaaaa", TorrentType.Url), Torrents.New("/home/arch/hiiiii", TorrentType.TorrentFile)])
      .WithSavepath("/downloads").WithCookie("my_cookie_value").WithCategory("Movies")
      .WithTags(["action", "comedy"]).WithSkipChecking(true).WithPaused(false)
      .WithRootFolder("root_folder").WithRename("my_torrent").WithUpLimit(1024).WithDlLimit(2048)
      .WithRatioLimit("2.5").WithSeedingTimeLimit(120).WithAutoTmm(true)
      .WithSequentialDownload(true).WithFirstLastPiecePrio(false)
    requires "/home/arch/hiiiii" in fs
    ensures Built(b).Ok?
    ensures Built(b).value.urls.inner == ["aaaaaa"] && Built(b).value.paths == ["/home/arch/hiiiii"]
    ensures Built(b).value.tags.value.ToString() == "action,comedy"
    ensures Submission(Built(b).value, fs) == Ok(FileUpload([FilePart(fs["/home/arch/hiiiii"])]))
  {
    var ts := b.torrents.value;
    assert ts[..1] == [ts[0]] && ts[..1][..0] == [];
    assert UrlsOf(ts[..1]) == ["aaaaaa"] && PathsOf(ts[..1]) == [];
    assert UrlsOf(ts) == ["aaaaaa"] && PathsOf(ts) == ["/home/arch/hiiiii"];
    var d := Built(b).value;
    assert d.tags.value.ToString() == "action" + "," + "comedy";
    OneFileSubmission(d, fs, "/home/arch/hiiiii");
  }

  /** A descriptor with one readable path sends that file alone. */
  lemma OneFileSubmission(d: Descriptor, fs: FileSystem, path: string)
    requires d.paths == [path] && path in fs
    ensures Submission(d, fs) == Ok(FileUpload([FilePart(fs[path])]))
  {
    var form := FileForm(d.paths, fs).value;
    assert form == [FilePart(fs[path])];
  }

  /** The request actually sent: the endpoint, the session cookie header, and the form. */
  datatype Request = Request(url: string, cookieHeader: string, form: Form)

  /** What sending a request gave: a status code, or the transport's failure text. */
  type SendOutcome = Result<StatusCode, string>

  const FileFailureText := "we dont really know what went wrong, but something with the adding of torrent files."
  const UrlFailureText := "we dont really know what went wrong, but something with the adding of magnets."

  /** The result of `add_torrent` once a request of the given shape was sent. */
  function Verdict(shape: Shape, sent: SendOutcome): (r: Result<(), Error>)
    requires !shape.NoRequest?
    ensures r.Ok? <==> sent.Ok? && IsSuccess(sent.value)
    ensures r.Err? ==> r.error.MiscError? && r.error.misc.ReqwestError?
  {
    match sent
    case Err(reason) =>
      Err(UnflattenErr(FlatError.ReqwestError(reason + if shape.FileUpload? then ", aaaaa" else ", aaaaa, but magnets")))
    case Ok(status) =>
      if IsSuccess(status) then Ok(())
      else Err(UnflattenErr(FlatError.ReqwestError(if shape.FileUpload? then FileFailureText else UrlFailureText)))
  }

  /**
   * `Api::add_torrent`. With file paths: reads every file (the first
   * unreadable one ends the call with `TorrentFilePathError`, before the
   * cookie is asked for), asks for the cookie, and sends the file parts.
   * Otherwise, with URLs: sends the `urls` field followed by `thing`'s
   * fields. Otherwise does nothing. The cookie is renewed as `get_cookie`
   * renews it; a failed login ends the call before anything is sent.
   */
  method AddTorrentTo(api: Api, descriptor: Descriptor, fs: FileSystem, now: Instant,
                      login: LoginOutcome, sent: SendOutcome)
    returns (r: Result<(), Error>, request: Option<Request>)
    requires (IsExpired(api.cookie, now) && Submission(descriptor, fs).Ok? &&
              !Submission(descriptor, fs).value.NoRequest?) ==> Extractable(login)
    modifies api`cookie
    ensures api.authority == old(api.authority) && api.credentials == old(api.credentials)
    ensures Submission(descriptor, fs).Err? ==>
              r == Err(Submission(descriptor, fs).error) && request == None && api.cookie == old(api.cookie)
    ensures Submission(descriptor, fs) == Ok(NoRequest) ==>
              r == Ok(()) && request == None && api.cookie == old(api.cookie)
    ensures Submission(descriptor, fs).Ok? && !Submission(descriptor, fs).value.NoRequest? ==>
              var shape := Submission(descriptor, fs).value;
              var renewed := Reset(old(api.cookie), now, login);
              (renewed.Err? ==> r == Err(renewed.error) && request == None && api.cookie == old(api.cookie)) &&
              (renewed.Ok? ==>
                 api.cookie == renewed.value &&
                 request == Some(Request(api.authority + AddEndpoint, "SID=" + renewed.value.cookie, shape.form)) &&
                 r == Verdict(shape, sent))
  {
    request := None;
    if |descriptor.paths| > 0 {
      var form: Form := [];
      for i := 0 to |descriptor.paths|
        invariant |form| == i
        invariant forall k :: 0 <= k < i ==> descriptor.paths[k] in fs && form[k] == FilePart(fs[descriptor.paths[k]])
      {
        var path := descriptor.paths[i];
        if path !in fs {
          return Err(FilePathError), None;
        }
        form := form + [FilePart(fs[path])];
      }
      assert forall k :: 0 <= k < |descriptor.paths| ==> descriptor.paths[k] in fs;
      assert FileForm(descriptor.paths, fs).value == form;
      var token := api.GetCookie(now, login);
      if token.Err? {
        return Err(token.error), None;
      }
      request := Some(Request(api.authority + AddEndpoint, "SID=" + token.value, form));
      r := Verdict(FileUpload(form), sent);
      return;
    }

    if |descriptor.urls.inner| > 0 {
      var form2: Form := [];
      form2 := form2 + [Text("urls", descriptor.urls.ToString())];
      assert form2 == [Text("urls", descriptor.urls.ToString())];
      form2 := Thing(form2, descriptor);
      var token := api.GetCookie(now, login);
      if token.Err? {
        return Err(token.error), None;
      }
      request := Some(Request(api.authority + AddEndpoint, "SID=" + token.value, form2));
      r := Verdict(UrlUpload(form2), sent);
      return;
    }

    r := Ok(());
  }
}
