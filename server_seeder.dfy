/** The server's producer and configuration state machine
    (ServerTorrentsDirectorySeeder): it keeps the live configuration that the
    configurator pushes through property changes, starts and stops the
    seeding engine around server startup and shutdown, and, when a build
    finishes, walks the build's artifact tree, creates a torrent and a link
    for every large enough file and seeds it when seeding is enabled.

    The torrent library, the link store and the configurator are
    collaborators: their answers come in as parameters (`Host`,
    `LeafResponse`), and what the producer asks of them is recorded in the
    ghost trace `effects`; calls into the seeding engine are recorded by the
    engine itself (module DirectorySeeding). */
module ServerSeeding {
  import opened Common
  import opened DirectorySeeding

  // ===========================================================================
  // The size threshold

  /** Two-step wrap-around of the code equals one wrap-around of the exact
      product: `(t * 1024) * 1024` in `int` arithmetic is `t * 2^20` reduced
      to 32 bits. */
  lemma DoubleWrapIsSingleWrap(thresholdMb: Int32)
    ensures WrapInt32(WrapInt32(thresholdMb * 1024) * 1024) == WrapInt32(thresholdMb * 0x10_0000)
  {
    var w := WrapInt32(thresholdMb * 1024);
    var d := w - thresholdMb * 1024;
    var k := d / 0x1_0000_0000;
    assert d == k * 0x1_0000_0000;
    assert w * 1024 == thresholdMb * 0x10_0000 + (k * 1024) * 0x1_0000_0000;
    WrapInt32Congruent(w * 1024, thresholdMb * 0x10_0000, k * 1024);
  }

  /** shouldCreateTorrentFor exactly as written: the product is a Java `int`,
      so the file size is compared with the exact threshold in bytes reduced
      to 32 bits. */
  function ShouldCreateTorrentForAsWritten(size: int, thresholdMb: Int32): (r: bool)
    ensures r <==> size >= WrapInt32(thresholdMb * 0x10_0000)
  {
    DoubleWrapIsSingleWrap(thresholdMb);
    size >= WrapInt32(WrapInt32(thresholdMb * 1024) * 1024)
  }

  /** shouldCreateTorrentFor as intended: the threshold in bytes, without
      overflow; a file qualifies exactly when its size in whole megabytes
      reaches the threshold. The artifact walk below uses this rule. */
  function ShouldCreateTorrentFor(size: int, thresholdMb: Int32): (r: bool)
    ensures r <==> size / 0x10_0000 >= thresholdMb
  {
    size >= thresholdMb * 0x10_0000
  }

  /** A larger file or a lower threshold never turns a torrent away. */
  lemma ThresholdMonotone(size1: int, size2: int, threshold1: Int32, threshold2: Int32)
    requires size1 <= size2 && threshold2 <= threshold1
    requires ShouldCreateTorrentFor(size1, threshold1)
    ensures ShouldCreateTorrentFor(size2, threshold2)
  {
  }

  /** The boundary is inclusive. */
  lemma ThresholdBoundary(thresholdMb: Int32)
    ensures ShouldCreateTorrentFor(thresholdMb * 0x10_0000, thresholdMb)
    ensures !ShouldCreateTorrentFor(thresholdMb * 0x10_0000 - 1, thresholdMb)
  {
  }

  /** Below 2048 MB the 32-bit product does not overflow and the code as
      written decides as intended. */
  lemma AsWrittenAgreesBelow2048(size: int, thresholdMb: Int32)
    requires -2048 <= thresholdMb < 2048
    ensures ShouldCreateTorrentForAsWritten(size, thresholdMb) == ShouldCreateTorrentFor(size, thresholdMb)
  {
    assert WrapInt32(thresholdMb * 1024) == thresholdMb * 1024;
    assert WrapInt32(thresholdMb * 1024 * 1024) == thresholdMb * 0x10_0000;
  }

  /** At 2048 MB the product wraps to -2^31: as written, every file gets a
      torrent, while a threshold of 2047 MB still turns an empty file away. */
  lemma AsWrittenWrapsAt2048(size: int)
    requires 0 <= size < 2048 * 0x10_0000
    ensures ShouldCreateTorrentForAsWritten(size, 2048)
    ensures !ShouldCreateTorrentFor(size, 2048)
    ensures !ShouldCreateTorrentForAsWritten(0, 2047)
  {
    assert WrapInt32(2048 * 1024) == 2048 * 1024;
    assert WrapInt32(2048 * 1024 * 1024) == INT32_MIN;
    assert WrapInt32(2047 * 1024) == 2047 * 1024;
    assert WrapInt32(2047 * 1024 * 1024) == 2047 * 1024 * 1024;
  }

  // ===========================================================================
  // The artifact tree walk (processArtifactInternal)

  /** A file of a build's artifacts, by its path relative to the artifacts
      directory. */
  datatype FileEntry = FileEntry(relativePath: string, size: int)

  datatype Artifact =
    | FileArtifact(file: FileEntry)
    | DirectoryArtifact(relativePath: string, children: seq<Artifact>)

  /** What the producer asks of the torrent library and the link store. */
  datatype ProducerEffect =
    | TorrentCreated(artifactFile: string, relativePath: string, announce: Option<Uri>)
    | LinkCreated(artifactFile: string, torrentFile: string, linkDir: string)
    | Seeded(torrentFile: string, artifactFile: string)

  /** The collaborators' answers for one file: the torrent file
      TorrentUtil.getOrCreateTorrent returns, and whether FileLink.createLink
      succeeded (an IOException otherwise). */
  datatype LeafResponse = LeafResponse(torrentFile: string, linkOk: bool)

  /** Everything a walk over one build's artifacts depends on. */
  datatype WalkContext = WalkContext(
    artifactsDirectory: string,
    linkDir: string,
    thresholdMb: Int32,
    announce: Option<Uri>,
    seederEnabled: bool,
    respond: string -> LeafResponse)

  function ArtifactFile(artifactsDirectory: string, relativePath: string): string {
    artifactsDirectory + "/" + relativePath
  }

  /** The torrent-creation request for a file. */
  function TorrentRequest(f: FileEntry, ctx: WalkContext): ProducerEffect {
    TorrentCreated(ArtifactFile(ctx.artifactsDirectory, f.relativePath), f.relativePath, ctx.announce)
  }

  /** The link request for a file: its artifact, the torrent file the library
      returned for it, and the build's link directory. */
  function LinkRequest(f: FileEntry, ctx: WalkContext): ProducerEffect {
    LinkCreated(ArtifactFile(ctx.artifactsDirectory, f.relativePath), ctx.respond(f.relativePath).torrentFile, ctx.linkDir)
  }

  /** The seeding request for a file: its torrent file and its artifact. */
  function SeedRequest(f: FileEntry, ctx: WalkContext): ProducerEffect {
    Seeded(ctx.respond(f.relativePath).torrentFile, ArtifactFile(ctx.artifactsDirectory, f.relativePath))
  }

  /** What one file contributes: nothing below the threshold; otherwise a
      torrent, then a link, then seeding when enabled, stopping at the first
      failure. */
  function LeafEffects(f: FileEntry, ctx: WalkContext): seq<ProducerEffect> {
    if !ShouldCreateTorrentFor(f.size, ctx.thresholdMb) then []
    else
      var file := ArtifactFile(ctx.artifactsDirectory, f.relativePath);
      var response := ctx.respond(f.relativePath);
      [TorrentRequest(f, ctx)]
      + if !response.linkOk then []
        else [LinkCreated(file, response.torrentFile, ctx.linkDir)]
             + if ctx.seederEnabled then [Seeded(response.torrentFile, file)] else []
  }

  function WalkEffects(a: Artifact, ctx: WalkContext): seq<ProducerEffect>
    decreases a
  {
    match a
    case FileArtifact(f) => LeafEffects(f, ctx)
    case DirectoryArtifact(_, children) => WalkAllEffects(children, ctx)
  }

  function WalkAllEffects(artifacts: seq<Artifact>, ctx: WalkContext): seq<ProducerEffect>
    decreases artifacts
  {
    if artifacts == [] then []
    else WalkAllEffects(artifacts[..|artifacts| - 1], ctx) + WalkEffects(artifacts[|artifacts| - 1], ctx)
  }

  /** The files of a tree, in the order the walk reaches them. */
  function Leaves(a: Artifact): seq<FileEntry>
    decreases a
  {
    match a
    case FileArtifact(f) => [f]
    case DirectoryArtifact(_, children) => LeavesOfAll(children)
  }

  function LeavesOfAll(artifacts: seq<Artifact>): seq<FileEntry>
    decreases artifacts
  {
    if artifacts == [] then []
    else LeavesOfAll(artifacts[..|artifacts| - 1]) + Leaves(artifacts[|artifacts| - 1])
  }

  /** The effects of a sequence of files, each considered on its own. */
  function EffectsOfLeaves(leaves: seq<FileEntry>, ctx: WalkContext): seq<ProducerEffect> {
    ConcatMap(leaves, f => LeafEffects(f, ctx))
  }

  /** The walk does exactly what its files do one after the other:
      directories contribute nothing of their own. */
  lemma {:induction false} WalkIsLeafByLeaf(a: Artifact, ctx: WalkContext)
    ensures WalkEffects(a, ctx) == EffectsOfLeaves(Leaves(a), ctx)
    decreases a, 1
  {
    match a
    case FileArtifact(f) =>
      ConcatMapSingleton(f, g => LeafEffects(g, ctx));
    case DirectoryArtifact(_, children) =>
      WalkAllIsLeafByLeaf(children, ctx);
  }

  lemma {:induction false} WalkAllIsLeafByLeaf(artifacts: seq<Artifact>, ctx: WalkContext)
    ensures WalkAllEffects(artifacts, ctx) == EffectsOfLeaves(LeavesOfAll(artifacts), ctx)
    decreases artifacts, 0
  {
    if artifacts != [] {
      var init := artifacts[..|artifacts| - 1];
      var last := artifacts[|artifacts| - 1];
      WalkAllIsLeafByLeaf(init, ctx);
      WalkIsLeafByLeaf(last, ctx);
      ConcatMapAppend(LeavesOfAll(init), Leaves(last), f => LeafEffects(f, ctx));
    }
  }

  /** Only files are ever torrented, and only when they pass the threshold;
      a link is made only for such a file, after its torrent, when the link
      store succeeds; seeding happens only after that link, and only when
      enabled. */
  lemma TorrentsComeFromQualifyingFiles(a: Artifact, ctx: WalkContext, e: ProducerEffect)
    requires e in WalkEffects(a, ctx)
    ensures e.TorrentCreated? ==>
              exists f :: f in Leaves(a) && ShouldCreateTorrentFor(f.size, ctx.thresholdMb) && e == TorrentRequest(f, ctx)
    ensures e.LinkCreated? ==>
              exists f :: f in Leaves(a) && ShouldCreateTorrentFor(f.size, ctx.thresholdMb)
                          && ctx.respond(f.relativePath).linkOk && e == LinkRequest(f, ctx)
    ensures e.Seeded? ==>
              ctx.seederEnabled
              && exists f :: f in Leaves(a) && ShouldCreateTorrentFor(f.size, ctx.thresholdMb)
                             && ctx.respond(f.relativePath).linkOk && e == SeedRequest(f, ctx)
  {
    WalkIsLeafByLeaf(a, ctx);
    var leaves := Leaves(a);
    InConcatMap(leaves, f => LeafEffects(f, ctx), e);
    var i :| 0 <= i < |leaves| && e in LeafEffects(leaves[i], ctx);
    assert leaves[i] in leaves;
  }

  /** Every file that passes the threshold gets its torrent, whatever
      happened to the other files; its link when the link store succeeds;
      and its seeding too when seeding is enabled. */
  lemma EveryQualifyingFileIsTorrented(a: Artifact, ctx: WalkContext, f: FileEntry)
    requires f in Leaves(a) && ShouldCreateTorrentFor(f.size, ctx.thresholdMb)
    ensures TorrentRequest(f, ctx) in WalkEffects(a, ctx)
    ensures ctx.respond(f.relativePath).linkOk ==> LinkRequest(f, ctx) in WalkEffects(a, ctx)
    ensures ctx.respond(f.relativePath).linkOk && ctx.seederEnabled ==> SeedRequest(f, ctx) in WalkEffects(a, ctx)
  {
    WalkIsLeafByLeaf(a, ctx);
    var leaves := Leaves(a);
    var i :| 0 <= i < |leaves| && leaves[i] == f;
    assert TorrentRequest(f, ctx) in LeafEffects(leaves[i], ctx);
    InConcatMap(leaves, g => LeafEffects(g, ctx), TorrentRequest(f, ctx));
    if ctx.respond(f.relativePath).linkOk {
      assert LinkRequest(f, ctx) in LeafEffects(leaves[i], ctx);
      InConcatMap(leaves, g => LeafEffects(g, ctx), LinkRequest(f, ctx));
      if ctx.seederEnabled {
        assert SeedRequest(f, ctx) in LeafEffects(leaves[i], ctx);
        InConcatMap(leaves, g => LeafEffects(g, ctx), SeedRequest(f, ctx));
      }
    }
  }

  /** Below 2048 MB the walk decides like the code as written: every file
      the code's 32-bit rule admits gets its torrent. */
  lemma CodeQualifyingFileIsTorrented(a: Artifact, ctx: WalkContext, f: FileEntry)
    requires -2048 <= ctx.thresholdMb < 2048
    requires f in Leaves(a) && ShouldCreateTorrentForAsWritten(f.size, ctx.thresholdMb)
    ensures TorrentRequest(f, ctx) in WalkEffects(a, ctx)
  {
    AsWrittenAgreesBelow2048(f.size, ctx.thresholdMb);
    EveryQualifyingFileIsTorrented(a, ctx, f);
  }

  /** Below 2048 MB every torrent the walk creates is one the code as
      written creates too. */
  lemma CodeTorrentsComeFromQualifyingFiles(a: Artifact, ctx: WalkContext, e: ProducerEffect)
    requires -2048 <= ctx.thresholdMb < 2048
    requires e in WalkEffects(a, ctx) && e.TorrentCreated?
    ensures exists f :: f in Leaves(a) && ShouldCreateTorrentForAsWritten(f.size, ctx.thresholdMb)
                        && e == TorrentRequest(f, ctx)
  {
    TorrentsComeFromQualifyingFiles(a, ctx, e);
    var f :| f in Leaves(a) && ShouldCreateTorrentFor(f.size, ctx.thresholdMb) && e == TorrentRequest(f, ctx);
    AsWrittenAgreesBelow2048(f.size, ctx.thresholdMb);
  }

  /** The seeding-engine call a producer effect amounts to, if any. */
  function SeedCallOf(e: ProducerEffect): seq<SeederCall> {
    if e.Seeded? then [SeedTorrentFile(e.torrentFile, e.artifactFile)] else []
  }

  /** The seeding-engine calls a sequence of producer effects amounts to. */
  function SeedCalls(effects: seq<ProducerEffect>): seq<SeederCall> {
    ConcatMap(effects, SeedCallOf)
  }

  /** One more artifact of a walk: its effects and its seeding calls follow
      those of the ones before. */
  lemma WalkAllStep(artifacts: seq<Artifact>, i: nat, ctx: WalkContext)
    requires i < |artifacts|
    ensures WalkAllEffects(artifacts[..i + 1], ctx) == WalkAllEffects(artifacts[..i], ctx) + WalkEffects(artifacts[i], ctx)
    ensures SeedCalls(WalkAllEffects(artifacts[..i + 1], ctx))
            == SeedCalls(WalkAllEffects(artifacts[..i], ctx)) + SeedCalls(WalkEffects(artifacts[i], ctx))
  {
    assert artifacts[..i + 1][..i] == artifacts[..i];
    ConcatMapAppend(WalkAllEffects(artifacts[..i], ctx), WalkEffects(artifacts[i], ctx), SeedCallOf);
  }

  // ===========================================================================
  // Link directory

  /** getLinkDir: the directory `<buildTypeId>/<buildId>` under the storage
      directory, with the id printed as Long.toString does. */
  function LinkDir(storage: string, buildTypeId: string, buildId: int): (r: string)
    ensures StartsWith(r, storage + "/" + buildTypeId + "/")
    ensures EndsWith(r, "/" + LongToString(buildId))
    ensures |r| == |storage| + |buildTypeId| + |LongToString(buildId)| + 2
  {
    storage + "/" + (buildTypeId + "/" + LongToString(buildId))
  }

  /** Builds of different configurations or with different ids never share
      a link directory. */
  lemma LinkDirInjective(storage: string, type1: string, id1: int, type2: string, id2: int)
    requires '/' !in type1 && '/' !in type2
    requires LONG_MIN <= id1 <= LONG_MAX && LONG_MIN <= id2 <= LONG_MAX
    requires LinkDir(storage, type1, id1) == LinkDir(storage, type2, id2)
    ensures type1 == type2 && id1 == id2
  {
    var prefix := storage + "/";
    var rest1 := type1 + "/" + LongToString(id1);
    var rest2 := type2 + "/" + LongToString(id2);
    assert rest1 == LinkDir(storage, type1, id1)[|prefix|..];
    assert rest2 == LinkDir(storage, type2, id2)[|prefix|..];
    assert rest1 == rest2;
    assert rest1[|type1|] == '/' && rest2[|type2|] == '/';
    assert forall k :: 0 <= k < |type1| ==> rest1[k] == type1[k];
    assert forall k :: 0 <= k < |type2| ==> rest2[k] == type2[k];
    assert |type1| == |type2|;
    assert type1 == rest1[..|type1|];
    assert type2 == rest2[..|type2|];
    assert LongToString(id1) == rest1[|type1| + 1..];
    assert LongToString(id2) == rest2[|type2| + 1..];
    LongToStringInjective(id1, id2);
  }

  // ===========================================================================
  // Configuration and lifecycle

  datatype ServerState = ServerState(
    fileSizeThreshold: Int32,
    maxTorrentsToSeed: Int32,
    announceUri: Option<Uri>,
    isServerStarted: bool,
    seeder: SeederState)

  /** A property change the configurator reports, by property. */
  datatype ConfigChange =
    | FileSizeThresholdChanged(thresholdMb: Int32)
    | MaxSeededTorrentsChanged(max: Int32)
    | AnnounceIntervalChanged(seconds: Int32)
    | AnnounceUrlChanged(text: string)
    | SeederEnabledChanged(enabled: bool)
    | OtherPropertyChanged(name: string)

  /** The answers of the host during one event: whether
      NetworkUtil.getSelfAddresses succeeds, the configured announce interval,
      and which strings URI.create accepts. */
  datatype Host = Host(selfAddressesOk: bool, announceIntervalSec: int, isUri: string -> bool)

  /** startSeeder: starts the engine with the current announce URI, unless
      the local addresses cannot be determined. */
  function StartSeederSpec(s: ServerState, scan: ScanInterval, host: Host): ServerState {
    if host.selfAddressesOk then s.(seeder := AfterStart(s.seeder, s.announceUri, scan, host.announceIntervalSec))
    else s
  }

  datatype ChangeResult = ChangeResult(state: ServerState, raised: bool)

  /** The property-change listener; `raised` is the IllegalArgumentException
      of URI.create on a malformed announce URL. */
  function PropertyChangeSpec(s: ServerState, change: ConfigChange, host: Host): ChangeResult {
    match change
    case FileSizeThresholdChanged(mb) => ChangeResult(s.(fileSizeThreshold := mb), false)
    case MaxSeededTorrentsChanged(max) =>
      ChangeResult(s.(maxTorrentsToSeed := max, seeder := s.seeder.(maxTorrentsToSeed := max)), false)
    case AnnounceIntervalChanged(seconds) =>
      ChangeResult(s.(seeder := s.seeder.(announceIntervalSec := Some(seconds))), false)
    case AnnounceUrlChanged(text) =>
      if host.isUri(text) then ChangeResult(s.(announceUri := Some(Uri(text))), false) else ChangeResult(s, true)
    case SeederEnabledChanged(enabled) =>
      if !s.isServerStarted then ChangeResult(s, false)
      else if enabled then ChangeResult(StartSeederSpec(s, DefaultScanInterval, host), false)
      else ChangeResult(s.(seeder := StopIfRunning(s.seeder)), false)
    case OtherPropertyChanged(_) => ChangeResult(s, false)
  }

  /** serverStartup: starts the engine when seeding is enabled and marks the
      server as started either way. */
  function ServerStartupSpec(s: ServerState, seederEnabled: bool, host: Host): ServerState {
    (if seederEnabled then StartSeederSpec(s, DefaultScanInterval, host) else s).(isServerStarted := true)
  }

  /** Each change sets only its own field; only the enabled flag starts or
      stops the engine, and no change marks the server started. */
  lemma ChangeTouchesOnlyItsField(s: ServerState, change: ConfigChange, host: Host)
    ensures var r := PropertyChangeSpec(s, change, host);
      && r.state.isServerStarted == s.isServerStarted
      && (r.raised <==> change.AnnounceUrlChanged? && !host.isUri(change.text))
      && (!change.SeederEnabledChanged? ==>
            r.state.seeder.stopped == s.seeder.stopped && r.state.seeder.calls == s.seeder.calls)
      && (change.FileSizeThresholdChanged? ==> r.state == s.(fileSizeThreshold := change.thresholdMb))
      && (change.MaxSeededTorrentsChanged? ==>
            r.state == s.(maxTorrentsToSeed := change.max, seeder := s.seeder.(maxTorrentsToSeed := change.max)))
      && (change.AnnounceIntervalChanged? ==>
            r.state == s.(seeder := s.seeder.(announceIntervalSec := Some(change.seconds))))
      && (change.AnnounceUrlChanged? && host.isUri(change.text) ==>
            r.state == s.(announceUri := Some(Uri(change.text))))
      && (r.raised || change.OtherPropertyChanged? ==> r.state == s)
      && (change.SeederEnabledChanged? ==>
            r.state.(seeder := s.seeder) == s
            && r.state.seeder.calls[..|s.seeder.calls|] == s.seeder.calls)
  {
  }

  function ApplyChanges(s: ServerState, changes: seq<ConfigChange>, host: Host): ServerState {
    if changes == [] then s
    else PropertyChangeSpec(ApplyChanges(s, changes[..|changes| - 1], host), changes[|changes| - 1], host).state
  }

  /** Before startup no sequence of property changes starts or stops the
      engine, or calls it at all. */
  lemma {:induction false} ChangesBeforeStartupNeverRunSeeder(s: ServerState, changes: seq<ConfigChange>, host: Host)
    requires !s.isServerStarted
    ensures var r := ApplyChanges(s, changes, host);
      && !r.isServerStarted && r.seeder.stopped == s.seeder.stopped && r.seeder.calls == s.seeder.calls
  {
    if changes != [] {
      ChangesBeforeStartupNeverRunSeeder(s, changes[..|changes| - 1], host);
    }
  }

  /** After startup the enabled flag takes effect at once. */
  lemma EnabledFlagAfterStartup(s: ServerState, seederEnabled: bool, enabled: bool, host: Host)
    ensures ServerStartupSpec(s, seederEnabled, host).isServerStarted
    ensures seederEnabled && host.selfAddressesOk ==> !ServerStartupSpec(s, seederEnabled, host).seeder.stopped
    ensures !seederEnabled ==> ServerStartupSpec(s, seederEnabled, host).seeder == s.seeder
    ensures var r := PropertyChangeSpec(ServerStartupSpec(s, seederEnabled, host), SeederEnabledChanged(enabled), host).state;
      && (!enabled ==> r.seeder.stopped)
      && (enabled && host.selfAddressesOk ==> !r.seeder.stopped)
  {
  }

  datatype Build = Build(buildTypeId: string, buildId: int, artifactsDirectory: string, artifacts: seq<Artifact>)

  // ===========================================================================
  // The object

  class ServerTorrentsDirectorySeeder {
    const seeder: DirectorySeeder
    var fileSizeThreshold: Int32
    var announceUri: Option<Uri>
    var maxTorrentsToSeed: Int32
    var isServerStarted: bool
    ghost var effects: seq<ProducerEffect>

    ghost function State(): ServerState
      reads this, seeder
    {
      ServerState(fileSizeThreshold, maxTorrentsToSeed, announceUri, isServerStarted, seeder.State())
    }

    /** The walk context of a build, from the current configuration. */
    function Context(artifactsDirectory: string, linkDir: string, seederEnabled: bool,
                     respond: string -> LeafResponse): (ctx: WalkContext)
      reads this`fileSizeThreshold, this`announceUri
      ensures ctx.thresholdMb == fileSizeThreshold && ctx.announce == announceUri
    {
      WalkContext(artifactsDirectory, linkDir, fileSizeThreshold, announceUri, seederEnabled, respond)
    }

    constructor (torrentsStorage: string, maxSeededTorrents: Int32, fileSizeThresholdMb: Int32)
      ensures fresh(seeder) && seeder.storageDirectory == torrentsStorage
      ensures State() == ServerState(fileSizeThresholdMb, maxSeededTorrents, None, false,
                                     SeederState(true, fileSizeThresholdMb, maxSeededTorrents, None, []))
      ensures effects == []
    {
      seeder := new DirectorySeeder(torrentsStorage, maxSeededTorrents, fileSizeThresholdMb);
      isServerStarted := false;
      maxTorrentsToSeed := maxSeededTorrents;
      fileSizeThreshold := fileSizeThresholdMb;
      announceUri := None;
      effects := [];
    }

    method StopSeeder()
      modifies seeder
      ensures State() == old(State()).(seeder := StopIfRunning(old(State()).seeder))
    {
      if !seeder.stopped {
        seeder.Stop();
      }
    }

    method StartSeeder(scan: ScanInterval, host: Host)
      modifies seeder
      ensures State() == StartSeederSpec(old(State()), scan, host)
    {
      if host.selfAddressesOk {
        seeder.Start(announceUri, scan, host.announceIntervalSec);
      }
    }

    method SetFileSizeThreshold(thresholdMb: Int32)
      modifies this`fileSizeThreshold
      ensures State() == old(State()).(fileSizeThreshold := thresholdMb)
    {
      fileSizeThreshold := thresholdMb;
    }

    method SetMaxNumberOfSeededTorrents(max: Int32)
      modifies this`maxTorrentsToSeed
      ensures State() == old(State()).(maxTorrentsToSeed := max)
    {
      maxTorrentsToSeed := max;
    }

    method SetAnnounceUri(uri: Uri)
      modifies this`announceUri
      ensures State() == old(State()).(announceUri := Some(uri))
    {
      announceUri := Some(uri);
    }

    method PropertyChange(change: ConfigChange, host: Host) returns (raised: bool)
      modifies this, seeder
      ensures ChangeResult(State(), raised) == PropertyChangeSpec(old(State()), change, host)
      ensures effects == old(effects)
    {
      raised := false;
      match change
      case FileSizeThresholdChanged(mb) =>
        SetFileSizeThreshold(mb);
      case MaxSeededTorrentsChanged(max) =>
        SetMaxNumberOfSeededTorrents(max);
        seeder.SetMaxTorrentsToSeed(maxTorrentsToSeed);
      case AnnounceIntervalChanged(seconds) =>
        seeder.SetAnnounceInterval(seconds);
      case AnnounceUrlChanged(text) =>
        if host.isUri(text) {
          SetAnnounceUri(Uri(text));
        } else {
          raised := true;
        }
      case SeederEnabledChanged(enabled) =>
        if isServerStarted {
          if enabled {
            StartSeeder(DefaultScanInterval, host);
          } else {
            StopSeeder();
          }
        }
      case OtherPropertyChanged(_) =>
    }

    method ServerStartup(seederEnabled: bool, host: Host)
      modifies this, seeder
      ensures State() == ServerStartupSpec(old(State()), seederEnabled, host)
      ensures effects == old(effects)
    {
      if seederEnabled {
        StartSeeder(DefaultScanInterval, host);
      }
      isServerStarted := true;
    }

    method ServerShutdown()
      modifies seeder
      ensures State() == old(State()).(seeder := StopIfRunning(old(State()).seeder))
    {
      StopSeeder();
    }

    /** getNumberOfSeededTorrents: 0 whenever the engine is stopped. */
    function NumberOfSeededTorrents(): (n: int)
      reads this, seeder
      ensures seeder.stopped ==> n == 0
      ensures !seeder.stopped ==> n == seeder.numberOfSeeded
    {
      if seeder.stopped then 0 else seeder.numberOfSeeded
    }

    /** processArtifactInternal. */
    method ProcessArtifact(artifact: Artifact, artifactsDirectory: string, linkDir: string,
                           seederEnabled: bool, respond: string -> LeafResponse)
      modifies this`effects, seeder
      ensures var walked := WalkEffects(artifact, Context(artifactsDirectory, linkDir, seederEnabled, respond));
        && effects == old(effects) + walked
        && seeder.State() == old(seeder.State()).(calls := old(seeder.calls) + SeedCalls(walked))
      decreases artifact, 1
    {
      match artifact
      case DirectoryArtifact(_, children) =>
        ProcessArtifacts(children, artifactsDirectory, linkDir, seederEnabled, respond);
      case FileArtifact(f) =>
        var relativePath := f.relativePath;
        if ShouldCreateTorrentFor(f.size, fileSizeThreshold) {
          var artifactFile := ArtifactFile(artifactsDirectory, relativePath);
          var response := respond(relativePath);
          effects := effects + [TorrentCreated(artifactFile, relativePath, announceUri)];
          if response.linkOk {
            effects := effects + [LinkCreated(artifactFile, response.torrentFile, linkDir)];
            if seederEnabled {
              effects := effects + [Seeded(response.torrentFile, artifactFile)];
              seeder.SeedTorrentFile(response.torrentFile, artifactFile);
            }
          }
          ghost var leaf := LeafEffects(f, Context(artifactsDirectory, linkDir, seederEnabled, respond));
          assert effects == old(effects) + leaf;
          assert leaf == [TorrentCreated(artifactFile, relativePath, announceUri)] + leaf[1..];
          ConcatMapAppend([TorrentCreated(artifactFile, relativePath, announceUri)], leaf[1..], SeedCallOf);
          assert |leaf| > 1 ==> leaf[1..] == [leaf[1]] + leaf[2..];
          if |leaf| > 1 {
            ConcatMapAppend([leaf[1]], leaf[2..], SeedCallOf);
          }
        }
    }

    /** The loop over a directory's children, or over a build's artifacts. */
    method ProcessArtifacts(artifacts: seq<Artifact>, artifactsDirectory: string, linkDir: string,
                            seederEnabled: bool, respond: string -> LeafResponse)
      modifies this`effects, seeder
      ensures var walked := WalkAllEffects(artifacts, Context(artifactsDirectory, linkDir, seederEnabled, respond));
        && effects == old(effects) + walked
        && seeder.State() == old(seeder.State()).(calls := old(seeder.calls) + SeedCalls(walked))
      decreases artifacts, 0
    {
      ghost var ctx := Context(artifactsDirectory, linkDir, seederEnabled, respond);
      ghost var effects0 := effects;
      ghost var seeder0 := seeder.State();
      for i := 0 to |artifacts|
        invariant effects == effects0 + WalkAllEffects(artifacts[..i], ctx)
        invariant seeder.State() == seeder0.(calls := seeder0.calls + SeedCalls(WalkAllEffects(artifacts[..i], ctx)))
      {
        ProcessArtifact(artifacts[i], artifactsDirectory, linkDir, seederEnabled, respond);
        WalkAllStep(artifacts, i, ctx);
      }
      assert artifacts[..|artifacts|] == artifacts;
    }

    /** buildFinished: when the tracker is enabled, every artifact the build
        reports is processed into the build's link directory. */
    method BuildFinished(trackerEnabled: bool, build: Build, seederEnabled: bool, respond: string -> LeafResponse)
      modifies this`effects, seeder
      ensures var walked :=
          if trackerEnabled
          then WalkAllEffects(build.artifacts,
                 Context(build.artifactsDirectory, LinkDir(seeder.storageDirectory, build.buildTypeId, build.buildId),
                         seederEnabled, respond))
          else [];
        && effects == old(effects) + walked
        && seeder.State() == old(seeder.State()).(calls := old(seeder.calls) + SeedCalls(walked))
    {
      if trackerEnabled {
        var linkDir := LinkDir(seeder.storageDirectory, build.buildTypeId, build.buildId);
        ProcessArtifacts(build.artifacts, build.artifactsDirectory, linkDir, seederEnabled, respond);
      }
    }
  }
}
