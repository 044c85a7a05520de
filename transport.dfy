/** The agent's transport negotiator (TorrentTransportFactory and its inner
    TorrentTransport): it decides whether an artifact download may go through
    the torrent network, learns from the build's `teamcity-ivy.xml` manifest
    which artifacts have a torrent, and downloads an artifact through the
    torrent client, falling back (by returning no digest) to plain HTTP.

    HTTP, the XML reader, the torrent library, the tracker, the file system and
    the `ParsedArtifactPath` URL transform are collaborators: their answers
    come in as parameters (`Net`, `ArtifactUrl`), and what the transport asks
    of them is recorded in the ghost trace `effects`. */
module TransportNegotiation {
  import opened Common

  const TEAMCITY_IVY: string := "teamcity-ivy.xml"
  /** TeamCity's hidden artifacts directory (ArtifactsConstants). */
  const TEAMCITY_ARTIFACTS_DIR: string := ".teamcity"
  const TEAMCITY_TORRENTS: string := TEAMCITY_ARTIFACTS_DIR + "/torrents/"
  const TORRENT_SUFFIX: string := ".torrent"
  const MIN_SEEDERS_COUNT_TO_TRY: int := 2
  /** The shared build parameter that selects the artifact transport. */
  const TEAMCITY_ARTIFACTS_TRANSPORT: string := "teamcity.artifacts.transport"
  /** The simple class name the parameter has to name. */
  const TORRENT_TRANSPORT_NAME: string := "TorrentTransport"
  /** Value of `teamcity.torrent.download.timeout` when the property is unset. */
  const DEFAULT_TIMEOUT_PROPERTY: string := "300"
  const DEFAULT_TIMEOUT_SEC: int := 300

  // ===========================================================================
  // Eligibility (getTransport)

  predicate ShouldUseTorrentTransport(sharedConfig: map<string, string>) {
    TEAMCITY_ARTIFACTS_TRANSPORT in sharedConfig
    && sharedConfig[TEAMCITY_ARTIFACTS_TRANSPORT] == TORRENT_TRANSPORT_NAME
  }

  /** Why a download falls back to plain HTTP, in the order the gates are tried. */
  datatype Refusal = NotSelected | LocalServer | ClientNotStarted

  /** The three gates of getTransport; `None` means a torrent transport is made. */
  function TransportGate(sharedConfig: map<string, string>, serverIsLocal: bool, clientStarted: bool): (r: Option<Refusal>)
    ensures r == None <==> ShouldUseTorrentTransport(sharedConfig) && !serverIsLocal && clientStarted
    ensures r == Some(NotSelected) <==> !ShouldUseTorrentTransport(sharedConfig)
    ensures r == Some(LocalServer) <==> ShouldUseTorrentTransport(sharedConfig) && serverIsLocal
  {
    if !ShouldUseTorrentTransport(sharedConfig) then Some(NotSelected)
    else if serverIsLocal then Some(LocalServer)
    else if !clientStarted then Some(ClientNotStarted)
    else None
  }

  /** getTransport: a fresh transport with an empty artifact-to-torrent map
      exactly when every gate passes, otherwise `null`. */
  method GetTransport(sharedConfig: map<string, string>, serverIsLocal: bool, clientStarted: bool,
                      storageDirectory: string)
    returns (t: TorrentTransport?)
    ensures t != null <==> TransportGate(sharedConfig, serverIsLocal, clientStarted) == None
    ensures t != null ==> fresh(t) && t.storageDirectory == storageDirectory
                          && t.torrentsForArtifacts == map[] && t.effects == []
  {
    if TransportGate(sharedConfig, serverIsLocal, clientStarted).Some? {
      return null;
    }
    t := new TorrentTransport(storageDirectory);
  }

  // ===========================================================================
  // Collaborators

  /** A torrent the library loaded; only its content identity is modelled. */
  datatype Torrent = Torrent(hexInfoHash: string)

  /** `download(url)` over HTTP: the body, an IOException (also a non-200
      status) or an unchecked exception. */
  datatype HttpResponse = Body(bytes: seq<bv8>) | HttpIOError | HttpRuntimeError

  /** `new Torrent(bytes, true)`. */
  datatype LoadResult = Loaded(torrent: Torrent) | LoadIOError | LoadNoAlgorithm

  /** `downloadAndShareOrFail` of the torrent client. */
  datatype FetchResult = Fetched | FetchIOError | FetchNoAlgorithm | FetchInterrupted | FetchRuntimeError

  datatype IoResult = IoDone | IoFailed

  /** One `artifact` node of the manifest; a missing attribute is `None`. */
  datatype Publication = Publication(name: Option<string>, ext: Option<string>)
  /** One `info` node of the manifest. */
  datatype ModuleInfo = ModuleInfo(moduleName: Option<string>, revision: Option<string>)
  /** What the XPath queries `/ivy-module/publications/artifact` and
      `ivy-module/info` select. */
  datatype Manifest = Manifest(publications: seq<Publication>, info: seq<ModuleInfo>)

  /** The answers of the transport's collaborators during one call. */
  datatype Net = Net(
    http: string -> HttpResponse,
    /** The XML reader; `None` when the bytes are not a readable document. */
    readManifest: seq<bv8> -> Option<Manifest>,
    loadTorrent: seq<bv8> -> LoadResult,
    /** TrackerHelper.getSeedersCount. */
    seeders: Torrent -> int,
    fetch: Torrent -> FetchResult,
    writeManifest: IoResult,
    saveTorrent: IoResult,
    createLink: IoResult,
    /** The system property `teamcity.torrent.download.timeout`. */
    timeoutProperty: Option<string>)

  /** What ParsedArtifactPath derives from an artifact download URL. */
  datatype ArtifactUrl = ArtifactUrl(
    artifactPath: string,
    torrentUrl: string,
    torrentPath: string,
    relativeLinkPath: string)

  /** What the transport asks of the world, in order. */
  datatype Effect =
    | HttpGet(url: string)
    | ManifestWritten(target: string)
    | ProgressStarted
    | ProgressFinished
    | EngineFetch(infoHash: string, target: string, timeoutSec: int, minSeeders: int)
    | TorrentSaved(torrentFile: string)
    | LinkCreated(target: string, torrentFile: string, linkDir: string)

  // ===========================================================================
  // Manifest: published names and the artifact-to-torrent map

  /** The name under which the manifest publishes an artifact; `None` when an
      attribute is missing (the NullPointerException that the parser catches). */
  function PublishedName(p: Publication): (r: Option<string>)
    ensures r.Some? <==> p.name.Some? && p.ext.Some?
    ensures r.Some? && p.ext.value != "" ==> r.value == p.name.value + "." + p.ext.value
    ensures r.Some? && p.ext.value == "" ==> r.value == p.name.value
  {
    match (p.name, p.ext)
    case (Some(name), Some(ext)) => if ext != "" then Some(name + "." + ext) else Some(name)
    case _ => None
  }

  predicate AllNamed(pubs: seq<Publication>) {
    forall p :: p in pubs ==> PublishedName(p).Some?
  }

  function NameSet(pubs: seq<Publication>): set<string>
    requires AllNamed(pubs)
  {
    set p | p in pubs :: PublishedName(p).value
  }

  /** The first loop of parseArtifactsList: the set of published names, or
      `None` when some artifact node lacks an attribute. */
  method PublishedNames(pubs: seq<Publication>) returns (names: Option<set<string>>)
    ensures names.Some? <==> AllNamed(pubs)
    ensures names.Some? ==> names.value == NameSet(pubs)
  {
    var artifactsSet: set<string> := {};
    for i := 0 to |pubs|
      invariant AllNamed(pubs[..i])
      invariant artifactsSet == NameSet(pubs[..i])
    {
      var name := PublishedName(pubs[i]);
      if name.None? {
        assert pubs[i] in pubs;
        return None;
      }
      assert pubs[..i + 1] == pubs[..i] + [pubs[i]];
      artifactsSet := artifactsSet + {name.value};
    }
    assert pubs[..|pubs|] == pubs;
    return Some(artifactsSet);
  }

  function TorrentNameFor(s: string): string {
    TEAMCITY_TORRENTS + s + TORRENT_SUFFIX
  }

  /** The map entries that keys in `keys` get, when torrents are looked up in `names`. */
  function TorrentEntries(keys: set<string>, names: set<string>): map<string, string> {
    map s | s in keys && !StartsWith(s, TEAMCITY_ARTIFACTS_DIR) && TorrentNameFor(s) in names :: TorrentNameFor(s)
  }

  /** The entries the second loop of parseArtifactsList adds. */
  function ArtifactTorrentMap(names: set<string>): map<string, string> {
    TorrentEntries(names, names)
  }

  /** An artifact is mapped exactly when it is published outside the artifacts
      directory together with its torrent file, and then to that file. */
  lemma ArtifactTorrentMapSpec(names: set<string>, s: string)
    ensures s in ArtifactTorrentMap(names) <==>
              s in names && !StartsWith(s, TEAMCITY_ARTIFACTS_DIR) && TEAMCITY_TORRENTS + s + ".torrent" in names
    ensures s in ArtifactTorrentMap(names) ==> ArtifactTorrentMap(names)[s] == TEAMCITY_TORRENTS + s + ".torrent"
  {
  }

  /** Torrent files live in the artifacts directory, so a torrent file is never
      itself mapped to a torrent, and every value is a published name. */
  lemma TorrentFilesAreNotMapped(names: set<string>, s: string)
    requires s in ArtifactTorrentMap(names)
    ensures ArtifactTorrentMap(names)[s] in names
    ensures ArtifactTorrentMap(names)[s] !in ArtifactTorrentMap(names)
  {
    var t := TorrentNameFor(s);
    assert t[..|TEAMCITY_ARTIFACTS_DIR|] == TEAMCITY_ARTIFACTS_DIR;
  }

  function ManifestDigest(moduleName: string, revision: string): string {
    TEAMCITY_IVY + "_" + moduleName + "_" + revision
  }

  /** The outcome of parseArtifactsList: the digest it returns, the transport's
      new map and the effects. */
  datatype ParseStep = ParseStep(digest: Option<string>, torrents: map<string, string>, effects: seq<Effect>)

  function ParseArtifactsListSpec(torrents: map<string, string>, url: string, target: string, net: Net): ParseStep {
    var fetched := [HttpGet(url)];
    match net.http(url)
    case HttpIOError => ParseStep(None, torrents, fetched)
    case HttpRuntimeError => ParseStep(None, torrents, fetched)
    case Body(bytes) =>
      match net.readManifest(bytes)
      case None => ParseStep(None, torrents, fetched)
      case Some(manifest) =>
        if !AllNamed(manifest.publications) then ParseStep(None, torrents, fetched)
        else
          var updated := torrents + ArtifactTorrentMap(NameSet(manifest.publications));
          var info := manifest.info;
          if |info| != 1 || info[0].moduleName.None? || info[0].revision.None? then ParseStep(None, updated, fetched)
          else if net.writeManifest.IoFailed? then ParseStep(None, updated, fetched + [ManifestWritten(target)])
          else ParseStep(Some(ManifestDigest(info[0].moduleName.value, info[0].revision.value)), updated,
                         fetched + [ManifestWritten(target)])
  }

  /** The manifest digest comes from a readable manifest with exactly one
      complete info node, and exactly when the target is then written; a
      failed write gives no digest; the map only grows, by the entries of the
      published names. */
  lemma ParseArtifactsListProperties(torrents: map<string, string>, url: string, target: string, net: Net)
    ensures var p := ParseArtifactsListSpec(torrents, url, target, net);
      && (p.digest.Some? ==>
            net.http(url).Body? && net.readManifest(net.http(url).bytes).Some?
            && var m := net.readManifest(net.http(url).bytes).value;
               |m.info| == 1 && m.info[0].moduleName.Some? && m.info[0].revision.Some?
               && p.digest == Some(TEAMCITY_IVY + "_" + m.info[0].moduleName.value + "_" + m.info[0].revision.value))
      && (ManifestWritten(target) in p.effects ==>
            net.readManifest(net.http(url).bytes).Some? && |net.readManifest(net.http(url).bytes).value.info| == 1)
      && (net.http(url).Body? && net.readManifest(net.http(url).bytes).Some?
          && AllNamed(net.readManifest(net.http(url).bytes).value.publications) ==>
            p.torrents == torrents + ArtifactTorrentMap(NameSet(net.readManifest(net.http(url).bytes).value.publications)))
      && (net.http(url).Body? && net.readManifest(net.http(url).bytes).Some? ==>
            var m := net.readManifest(net.http(url).bytes).value;
            AllNamed(m.publications) && |m.info| == 1 && m.info[0].moduleName.Some? && m.info[0].revision.Some?
            && net.writeManifest.IoDone? ==>
              p.digest == Some(ManifestDigest(m.info[0].moduleName.value, m.info[0].revision.value))
              && p.effects == [HttpGet(url), ManifestWritten(target)])
      && (net.writeManifest.IoFailed? ==> p.digest.None?)
      && (!net.http(url).Body? ==> p.digest.None? && p.torrents == torrents && p.effects == [HttpGet(url)])
      && (net.http(url).Body? && net.readManifest(net.http(url).bytes).None? ==>
            p.digest.None? && p.torrents == torrents && p.effects == [HttpGet(url)])
      && (net.http(url).Body? && net.readManifest(net.http(url).bytes).Some? ==>
            !AllNamed(net.readManifest(net.http(url).bytes).value.publications) ==>
              p.digest.None? && p.torrents == torrents && p.effects == [HttpGet(url)])
      && torrents.Keys <= p.torrents.Keys
      && p.effects[0] == HttpGet(url)
      && forall e :: e in p.effects ==> e == HttpGet(url) || e == ManifestWritten(target)
  {
  }

  // ===========================================================================
  // Torrent download

  datatype TorrentLookup = Found(torrent: Torrent) | NotFound | LookupFault
  datatype Lookup = Lookup(result: TorrentLookup, effects: seq<Effect>)

  /** downloadTorrent: no torrent, and no HTTP request, for an artifact the
      manifest did not map; otherwise the torrent file is fetched and loaded,
      its checked failures give no torrent and an unchecked one propagates. */
  function DownloadTorrentSpec(torrents: map<string, string>, url: ArtifactUrl, net: Net): (r: Lookup)
    ensures url.artifactPath !in torrents ==> r == Lookup(NotFound, [])
    ensures url.artifactPath in torrents ==> r.effects == [HttpGet(url.torrentUrl)]
    ensures r.result.Found? <==>
              url.artifactPath in torrents && net.http(url.torrentUrl).Body?
              && net.loadTorrent(net.http(url.torrentUrl).bytes).Loaded?
    ensures r.result.LookupFault? <==> url.artifactPath in torrents && net.http(url.torrentUrl).HttpRuntimeError?
    ensures r.result.Found? ==> r.result.torrent == net.loadTorrent(net.http(url.torrentUrl).bytes).torrent
  {
    if url.artifactPath !in torrents then Lookup(NotFound, [])
    else
      var fetched := [HttpGet(url.torrentUrl)];
      match net.http(url.torrentUrl)
      case HttpIOError => Lookup(NotFound, fetched)
      case HttpRuntimeError => Lookup(LookupFault, fetched)
      case Body(bytes) =>
        match net.loadTorrent(bytes)
        case Loaded(t) => Lookup(Found(t), fetched)
        case _ => Lookup(NotFound, fetched)
  }

  /** The checked exception downloadUrlTo raises, all of them IOException. */
  datatype IOCause = DownloadFailed | HashingUnavailable | DownloadInterrupted

  /** How downloadUrlTo ends: a digest (or `null`), an IOException, or an
      unchecked exception passed on unchanged. */
  datatype Outcome = Returned(digest: Option<string>) | ThrowsIO(cause: IOCause) | ThrowsRuntime

  datatype Attempt = Attempt(outcome: Outcome, effects: seq<Effect>)

  /** The body of the try block of downloadUrlTo, after the torrent is known. */
  function FetchAndShareSpec(torrent: Torrent, storage: string, url: ArtifactUrl, target: string, net: Net): Attempt {
    if net.seeders(torrent) == 0 then Attempt(Returned(None), [])
    else
      var fetch := [EngineFetch(torrent.hexInfoHash, target, DownloadTimeoutSec(net.timeoutProperty), MIN_SEEDERS_COUNT_TO_TRY)];
      match net.fetch(torrent)
      case FetchIOError => Attempt(ThrowsIO(DownloadFailed), fetch)
      case FetchNoAlgorithm => Attempt(ThrowsIO(HashingUnavailable), fetch)
      case FetchInterrupted => Attempt(ThrowsIO(DownloadInterrupted), fetch)
      case FetchRuntimeError => Attempt(ThrowsRuntime, fetch)
      case Fetched =>
        var torrentFile := ChildPath(RealParentDir(target, url.artifactPath), url.torrentPath);
        var saved := fetch + [TorrentSaved(torrentFile)];
        if net.saveTorrent.IoFailed? then Attempt(ThrowsIO(DownloadFailed), saved)
        else
          var linked := saved + [LinkCreated(target, torrentFile, ParentPath(storage + "/" + url.relativeLinkPath))];
          if net.createLink.IoFailed? then Attempt(ThrowsIO(DownloadFailed), linked)
          else Attempt(Returned(Some(torrent.hexInfoHash)), linked)
  }

  datatype Download = Download(outcome: Outcome, torrents: map<string, string>, effects: seq<Effect>)

  /** downloadUrlTo as a function of the transport's map, the storage
      directory, the URL, the target's absolute path and the collaborators. */
  function DownloadUrlToSpec(torrents: map<string, string>, storage: string, urlString: string,
                             url: ArtifactUrl, target: string, net: Net): Download
  {
    if EndsWith(urlString, TEAMCITY_IVY) then
      var p := ParseArtifactsListSpec(torrents, urlString, target, net);
      Download(Returned(p.digest), p.torrents, p.effects)
    else
      var lookup := DownloadTorrentSpec(torrents, url, net);
      match lookup.result
      case LookupFault => Download(ThrowsRuntime, torrents, lookup.effects)
      case NotFound => Download(Returned(None), torrents, lookup.effects)
      case Found(t) =>
        var a := FetchAndShareSpec(t, storage, url, target, net);
        Download(a.outcome, torrents, lookup.effects + [ProgressStarted] + a.effects + [ProgressFinished])
  }

  predicate TouchesTorrent(e: Effect) {
    e.ProgressStarted? || e.ProgressFinished? || e.EngineFetch? || e.TorrentSaved? || e.LinkCreated?
  }

  /** A manifest URL is parsed and never reaches the torrent path. */
  lemma ManifestUrlIsParsed(torrents: map<string, string>, storage: string, urlString: string,
                            url: ArtifactUrl, target: string, net: Net)
    requires EndsWith(urlString, TEAMCITY_IVY)
    ensures var d := DownloadUrlToSpec(torrents, storage, urlString, url, target, net);
      && d.outcome == Returned(ParseArtifactsListSpec(torrents, urlString, target, net).digest)
      && forall e :: e in d.effects ==> !TouchesTorrent(e)
  {
    ParseArtifactsListProperties(torrents, urlString, target, net);
  }

  /** Any other URL leaves the map alone and makes no request at all unless
      the manifest mapped the artifact. */
  lemma ArtifactUrlUsesMap(torrents: map<string, string>, storage: string, urlString: string,
                           url: ArtifactUrl, target: string, net: Net)
    requires !EndsWith(urlString, TEAMCITY_IVY)
    ensures var d := DownloadUrlToSpec(torrents, storage, urlString, url, target, net);
      && d.torrents == torrents
      && (url.artifactPath !in torrents ==> d == Download(Returned(None), torrents, []))
  {
  }

  /** With no seeders the torrent client is never asked to download. */
  lemma ZeroSeedersShortCircuit(torrents: map<string, string>, storage: string, urlString: string,
                                url: ArtifactUrl, target: string, net: Net, t: Torrent)
    requires !EndsWith(urlString, TEAMCITY_IVY)
    requires DownloadTorrentSpec(torrents, url, net).result == Found(t)
    requires net.seeders(t) == 0
    ensures var d := DownloadUrlToSpec(torrents, storage, urlString, url, target, net);
      && d.outcome == Returned(None)
      && d.effects == [HttpGet(url.torrentUrl), ProgressStarted, ProgressFinished]
  {
  }

  /** Failures of the torrent download: IOException, NoSuchAlgorithmException
      and InterruptedException all become IOException; an unchecked exception
      is passed on unchanged. */
  lemma FetchFailuresTranslated(torrents: map<string, string>, storage: string, urlString: string,
                                url: ArtifactUrl, target: string, net: Net, t: Torrent)
    requires !EndsWith(urlString, TEAMCITY_IVY)
    requires DownloadTorrentSpec(torrents, url, net).result == Found(t)
    requires net.seeders(t) != 0
    ensures var o := DownloadUrlToSpec(torrents, storage, urlString, url, target, net).outcome;
      && (net.fetch(t) == FetchIOError ==> o == ThrowsIO(DownloadFailed))
      && (net.fetch(t) == FetchNoAlgorithm ==> o == ThrowsIO(HashingUnavailable))
      && (net.fetch(t) == FetchInterrupted ==> o == ThrowsIO(DownloadInterrupted))
      && (net.fetch(t) == FetchRuntimeError ==> o == ThrowsRuntime)
      && (o.ThrowsRuntime? ==> net.fetch(t) == FetchRuntimeError)
      && (net.fetch(t) == Fetched && (net.saveTorrent.IoFailed? || net.createLink.IoFailed?) ==>
            o == ThrowsIO(DownloadFailed))
  {
  }

  /** progressFinished runs on every path on which progressStarted ran, as
      the last effect, and each runs at most once. */
  lemma ProgressAlwaysFinished(torrents: map<string, string>, storage: string, urlString: string,
                               url: ArtifactUrl, target: string, net: Net)
    ensures var d := DownloadUrlToSpec(torrents, storage, urlString, url, target, net);
      && (ProgressStarted in d.effects <==> ProgressFinished in d.effects)
      && (ProgressStarted in d.effects ==>
            d.effects[|d.effects| - 1] == ProgressFinished
            && multiset(d.effects)[ProgressStarted] == 1 && multiset(d.effects)[ProgressFinished] == 1)
  {
    if !EndsWith(urlString, TEAMCITY_IVY) {
      var lookup := DownloadTorrentSpec(torrents, url, net);
      if lookup.result.Found? {
        var a := FetchAndShareSpec(lookup.result.torrent, storage, url, target, net);
        assert ProgressStarted !in a.effects && ProgressFinished !in a.effects;
        assert multiset(a.effects)[ProgressStarted] == 0 && multiset(a.effects)[ProgressFinished] == 0;
      }
    } else {
      ManifestUrlIsParsed(torrents, storage, urlString, url, target, net);
    }
  }

  /** A downloaded artifact yields the loaded torrent's identity, after the
      client fetched it and the torrent file and link were written. */
  lemma SuccessfulDownloadRegisters(torrents: map<string, string>, storage: string, urlString: string,
                                    url: ArtifactUrl, target: string, net: Net, digest: string)
    requires !EndsWith(urlString, TEAMCITY_IVY)
    requires DownloadUrlToSpec(torrents, storage, urlString, url, target, net).outcome == Returned(Some(digest))
    ensures var lookup := DownloadTorrentSpec(torrents, url, net);
      && lookup.result.Found? && digest == lookup.result.torrent.hexInfoHash
      && net.seeders(lookup.result.torrent) != 0 && net.fetch(lookup.result.torrent) == Fetched
      && var torrentFile := ChildPath(RealParentDir(target, url.artifactPath), url.torrentPath);
         DownloadUrlToSpec(torrents, storage, urlString, url, target, net).effects
         == [HttpGet(url.torrentUrl), ProgressStarted,
             EngineFetch(digest, target, DownloadTimeoutSec(net.timeoutProperty), MIN_SEEDERS_COUNT_TO_TRY),
             TorrentSaved(torrentFile),
             LinkCreated(target, torrentFile, ParentPath(storage + "/" + url.relativeLinkPath)),
             ProgressFinished]
  {
  }

  /** An artifact download returns a digest exactly when the torrent is
      found, has seeders, the client fetches it and the torrent file and
      link are written; the digest is then the torrent's info hash. */
  lemma DownloadSucceedsExactly(torrents: map<string, string>, storage: string, urlString: string,
                                url: ArtifactUrl, target: string, net: Net)
    requires !EndsWith(urlString, TEAMCITY_IVY)
    ensures var d := DownloadUrlToSpec(torrents, storage, urlString, url, target, net);
            var lookup := DownloadTorrentSpec(torrents, url, net);
      && ((d.outcome.Returned? && d.outcome.digest.Some?) <==>
            lookup.result.Found? && net.seeders(lookup.result.torrent) != 0
            && net.fetch(lookup.result.torrent) == Fetched && net.saveTorrent.IoDone? && net.createLink.IoDone?)
      && (d.outcome.Returned? && d.outcome.digest.Some? ==>
            d.outcome.digest == Some(lookup.result.torrent.hexInfoHash))
  {
  }

  /** getDigest: the torrent's identity, or `null` exactly when no torrent was found. */
  function GetDigestSpec(torrents: map<string, string>, url: ArtifactUrl, net: Net): (r: Attempt)
    ensures r.outcome == Returned(None) <==> DownloadTorrentSpec(torrents, url, net).result.NotFound?
    ensures r.outcome.Returned? && r.outcome.digest.Some? ==>
              DownloadTorrentSpec(torrents, url, net).result == Found(Torrent(r.outcome.digest.value))
    ensures r.outcome.ThrowsRuntime? <==> DownloadTorrentSpec(torrents, url, net).result.LookupFault?
    ensures DownloadTorrentSpec(torrents, url, net).result.Found? ==>
              r.outcome == Returned(Some(DownloadTorrentSpec(torrents, url, net).result.torrent.hexInfoHash))
    ensures forall e :: e in r.effects ==> e == HttpGet(url.torrentUrl)
  {
    var lookup := DownloadTorrentSpec(torrents, url, net);
    match lookup.result
    case Found(t) => Attempt(Returned(Some(t.hexInfoHash)), lookup.effects)
    case NotFound => Attempt(Returned(None), lookup.effects)
    case LookupFault => Attempt(ThrowsRuntime, lookup.effects)
  }

  // ===========================================================================
  // Small helpers: paths and the download timeout

  function NormalizeSeparators(path: string): (r: string)
    ensures |r| == |path|
    ensures '\\' !in r
    ensures forall i :: 0 <= i < |path| && path[i] != '\\' ==> r[i] == path[i]
    ensures forall i :: 0 <= i < |path| && path[i] == '\\' ==> r[i] == '/'
  {
    seq(|path|, i requires 0 <= i < |path| => if path[i] == '\\' then '/' else path[i])
  }

  /** getRealParentDir: the part of the absolute path, with backslashes made
      forward slashes, that precedes the artifact's relative path. */
  function RealParentDir(absolutePath: string, relativePath: string): (r: Option<string>)
    ensures r.Some? <==> EndsWith(NormalizeSeparators(absolutePath), relativePath)
    ensures r.Some? ==> r.value + relativePath == NormalizeSeparators(absolutePath)
  {
    var path := NormalizeSeparators(absolutePath);
    if EndsWith(path, relativePath) then Some(path[..|path| - |relativePath|]) else None
  }

  /** `new File(parent, child)`; a null parent leaves the child as it is. */
  function ChildPath(parent: Option<string>, child: string): string {
    match parent
    case None => child
    case Some(p) => p + "/" + child
  }

  /** `getParentFile()`: everything before the last separator. */
  function ParentPath(path: string): (r: string)
    ensures |r| <= |path| && r == path[..|r|]
    ensures '/' in path ==> |r| < |path| && path[|r|] == '/' && '/' !in path[|r| + 1..]
  {
    if path == [] then []
    else if path[|path| - 1] == '/' then path[..|path| - 1]
    else
      var prefix := path[..|path| - 1];
      var r := ParentPath(prefix);
      assert '/' in path ==> '/' in prefix;
      assert '/' in path ==> prefix[|r| + 1..] + [path[|path| - 1]] == path[|r| + 1..];
      r
  }

  /** getDownloadTimeoutSec: the property parsed as a `long`, 300 when it does not parse. */
  function DownloadTimeoutSec(property: Option<string>): (r: int)
    ensures LONG_MIN <= r <= LONG_MAX
    ensures ParseLong(property.GetOr(DEFAULT_TIMEOUT_PROPERTY)).None? ==> r == DEFAULT_TIMEOUT_SEC
    ensures ParseLong(property.GetOr(DEFAULT_TIMEOUT_PROPERTY)).Some? ==>
              r == ParseLong(property.GetOr(DEFAULT_TIMEOUT_PROPERTY)).value
  {
    match ParseLong(property.GetOr(DEFAULT_TIMEOUT_PROPERTY))
    case Some(v) => v
    case None => DEFAULT_TIMEOUT_SEC
  }

  lemma DownloadTimeoutDefaults()
    ensures DownloadTimeoutSec(None) == 300
  {
    assert "300"[..2] == "30" && "30"[..1] == "3" && "3"[..0] == [];
    assert DigitsValue("3") == 3;
    assert DigitsValue("30") == 30;
    assert DigitsValue("300") == 300;
  }

  lemma DownloadTimeoutReadsLong(n: int)
    requires LONG_MIN <= n <= LONG_MAX
    ensures DownloadTimeoutSec(Some(LongToString(n))) == n
  {
    ParseLongRoundTrip(n);
  }

  // ===========================================================================
  // The transport object

  class TorrentTransport {
    /** The storage directory of the agent's directory seeder. */
    const storageDirectory: string
    var torrentsForArtifacts: map<string, string>
    ghost var effects: seq<Effect>

    constructor (storageDirectory: string)
      ensures this.storageDirectory == storageDirectory
      ensures torrentsForArtifacts == map[] && effects == []
    {
      this.storageDirectory := storageDirectory;
      torrentsForArtifacts := map[];
      effects := [];
    }

    /** The second loop of parseArtifactsList. */
    method AddTorrentsFor(names: set<string>)
      modifies this
      ensures torrentsForArtifacts == old(torrentsForArtifacts) + ArtifactTorrentMap(names)
      ensures effects == old(effects)
    {
      var rest := names;
      while rest != {}
        invariant rest <= names
        invariant torrentsForArtifacts == old(torrentsForArtifacts) + TorrentEntries(names - rest, names)
        invariant effects == old(effects)
        decreases rest
      {
        var s :| s in rest;
        ghost var done := names - rest;
        if !StartsWith(s, TEAMCITY_ARTIFACTS_DIR) {
          var proposedTorrentName := TEAMCITY_TORRENTS + s + TORRENT_SUFFIX;
          if proposedTorrentName in names {
            torrentsForArtifacts := torrentsForArtifacts[s := proposedTorrentName];
          }
        }
        rest := rest - {s};
        assert names - rest == done + {s};
      }
      assert names - rest == names;
    }

    method ParseArtifactsList(teamcityIvyUrl: string, target: string, net: Net) returns (digest: Option<string>)
      modifies this
      ensures var p := ParseArtifactsListSpec(old(torrentsForArtifacts), teamcityIvyUrl, target, net);
        digest == p.digest && torrentsForArtifacts == p.torrents && effects == old(effects) + p.effects
    {
      effects := effects + [HttpGet(teamcityIvyUrl)];
      var ivyData := net.http(teamcityIvyUrl);
      if !ivyData.Body? {
        return None;
      }
      var manifest := net.readManifest(ivyData.bytes);
      if manifest.None? {
        return None;
      }
      var artifactsSet := PublishedNames(manifest.value.publications);
      if artifactsSet.None? {
        return None;
      }
      AddTorrentsFor(artifactsSet.value);
      var info := manifest.value.info;
      if |info| != 1 || info[0].moduleName.None? || info[0].revision.None? {
        return None;
      }
      effects := effects + [ManifestWritten(target)];
      if net.writeManifest.IoFailed? {
        return None;
      }
      return Some(ManifestDigest(info[0].moduleName.value, info[0].revision.value));
    }

    method DownloadTorrent(url: ArtifactUrl, net: Net) returns (result: TorrentLookup)
      modifies this`effects
      ensures var lookup := DownloadTorrentSpec(torrentsForArtifacts, url, net);
        result == lookup.result && effects == old(effects) + lookup.effects
    {
      if url.artifactPath !in torrentsForArtifacts {
        return NotFound;
      }
      effects := effects + [HttpGet(url.torrentUrl)];
      var torrentData := net.http(url.torrentUrl);
      match torrentData
      case HttpIOError => result := NotFound;
      case HttpRuntimeError => result := LookupFault;
      case Body(bytes) =>
        var loaded := net.loadTorrent(bytes);
        result := if loaded.Loaded? then Found(loaded.torrent) else NotFound;
    }

    method GetDigest(url: ArtifactUrl, net: Net) returns (outcome: Outcome)
      modifies this`effects
      ensures var a := GetDigestSpec(torrentsForArtifacts, url, net);
        outcome == a.outcome && effects == old(effects) + a.effects
    {
      var torrent := DownloadTorrent(url, net);
      match torrent
      case Found(t) => outcome := Returned(Some(t.hexInfoHash));
      case NotFound => outcome := Returned(None);
      case LookupFault => outcome := ThrowsRuntime;
    }

    /** The try block of downloadUrlTo. */
    method FetchAndShare(torrent: Torrent, url: ArtifactUrl, target: string, net: Net) returns (outcome: Outcome)
      modifies this`effects
      ensures var a := FetchAndShareSpec(torrent, storageDirectory, url, target, net);
        outcome == a.outcome && effects == old(effects) + a.effects
    {
      if net.seeders(torrent) == 0 {
        return Returned(None);
      }
      effects := effects + [EngineFetch(torrent.hexInfoHash, target, DownloadTimeoutSec(net.timeoutProperty), MIN_SEEDERS_COUNT_TO_TRY)];
      match net.fetch(torrent)
      case FetchIOError => return ThrowsIO(DownloadFailed);
      case FetchNoAlgorithm => return ThrowsIO(HashingUnavailable);
      case FetchInterrupted => return ThrowsIO(DownloadInterrupted);
      case FetchRuntimeError => return ThrowsRuntime;
      case Fetched =>
      var parentDir := RealParentDir(target, url.artifactPath);
      var torrentFile := ChildPath(parentDir, url.torrentPath);
      effects := effects + [TorrentSaved(torrentFile)];
      if net.saveTorrent.IoFailed? {
        return ThrowsIO(DownloadFailed);
      }
      var linkDir := ParentPath(storageDirectory + "/" + url.relativeLinkPath);
      effects := effects + [LinkCreated(target, torrentFile, linkDir)];
      if net.createLink.IoFailed? {
        return ThrowsIO(DownloadFailed);
      }
      return Returned(Some(torrent.hexInfoHash));
    }

    method DownloadUrlTo(urlString: string, url: ArtifactUrl, target: string, net: Net) returns (outcome: Outcome)
      modifies this
      ensures var d := DownloadUrlToSpec(old(torrentsForArtifacts), storageDirectory, urlString, url, target, net);
        outcome == d.outcome && torrentsForArtifacts == d.torrents && effects == old(effects) + d.effects
    {
      if EndsWith(urlString, TEAMCITY_IVY) {
        var digest := ParseArtifactsList(urlString, target, net);
        return Returned(digest);
      }
      var torrent := DownloadTorrent(url, net);
      match torrent
      case LookupFault => return ThrowsRuntime;
      case NotFound => return Returned(None);
      case Found(t) =>
        effects := effects + [ProgressStarted];
        outcome := FetchAndShare(t, url, target, net);
        effects := effects + [ProgressFinished];
    }
  }
}
