/** The agent's publisher (AgentTorrentsManager): it reads the tracker
    settings from the agent-side configuration, keeps a seeding engine running
    between agent startup and shutdown, and, when a build publishes
    artifacts, creates and seeds a torrent for every file the engine
    considers large enough.

    The configuration source, URI parsing, the local addresses and the
    torrent library are collaborators: their answers come in as parameters
    (`TrackerConfig`, `FileResponse`). What the manager asks of the seeding
    engine is recorded in the engine's call trace. */
module AgentPublishing {
  import opened Common
  import opened DirectorySeeding

  /** What TorrentTrackerConfiguration answers during one event, and which
      strings the URI parser accepts. */
  datatype TrackerConfig = TrackerConfig(
    announceUrl: Option<string>,
    fileSizeThresholdMb: Int32,
    announceIntervalSec: Int32,
    isUri: string -> bool)

  /** The manager's own fields and the engine's observable state. */
  datatype AgentState = AgentState(
    trackerAnnounceUrl: Option<Uri>,
    fileSizeThresholdMb: Option<Int32>,
    hasRunningBuild: bool,
    seeder: SeederState)

  /** settingsInited: both the announce URL and the threshold are known. */
  predicate SettingsInited(trackerAnnounceUrl: Option<Uri>, fileSizeThresholdMb: Option<Int32>) {
    trackerAnnounceUrl.Some? && fileSizeThresholdMb.Some?
  }

  // ===========================================================================
  // Settings and lifecycle

  datatype InitResult = InitResult(state: AgentState, ok: bool)

  /** initSettings: fails, changing nothing, when there is no announce URL or
      it does not parse; otherwise takes the URL and the threshold, and hands
      the threshold to the engine. */
  function InitSettingsSpec(s: AgentState, cfg: TrackerConfig): InitResult {
    match cfg.announceUrl
    case None => InitResult(s, false)
    case Some(text) =>
      if !cfg.isUri(text) then InitResult(s, false)
      else InitResult(s.(trackerAnnounceUrl := Some(Uri(text)),
                         fileSizeThresholdMb := Some(cfg.fileSizeThresholdMb),
                         seeder := s.seeder.(fileSizeThresholdMb := cfg.fileSizeThresholdMb)), true)
  }

  /** initSettings succeeds exactly when the configured URL parses; then the
      settings are inited, and otherwise nothing changes, so settings inited
      earlier stay in force. */
  lemma InitSettingsProperties(s: AgentState, cfg: TrackerConfig)
    ensures var r := InitSettingsSpec(s, cfg);
      && (r.ok <==> cfg.announceUrl.Some? && cfg.isUri(cfg.announceUrl.value))
      && (r.ok ==> SettingsInited(r.state.trackerAnnounceUrl, r.state.fileSizeThresholdMb)
                   && r.state.trackerAnnounceUrl == Some(Uri(cfg.announceUrl.value))
                   && r.state.fileSizeThresholdMb == Some(cfg.fileSizeThresholdMb)
                   && r.state.seeder.fileSizeThresholdMb == cfg.fileSizeThresholdMb)
      && (!r.ok ==> r.state == s)
      && (var wasInited := SettingsInited(s.trackerAnnounceUrl, s.fileSizeThresholdMb);
          wasInited ==> SettingsInited(r.state.trackerAnnounceUrl, r.state.fileSizeThresholdMb))
      && r.state.seeder.calls == s.seeder.calls && r.state.seeder.stopped == s.seeder.stopped
  {
  }

  datatype StartResult = StartResult(state: AgentState, raised: bool)

  /** agentStarted: initSettings, then the engine is started with the
      configured tracker URI (or none); a URL that does not parse raises an
      unchecked exception out of the handler, and local addresses that
      cannot be determined leave the engine stopped. */
  function AgentStartedSpec(s: AgentState, cfg: TrackerConfig, selfAddressesOk: bool): StartResult {
    var inited := InitSettingsSpec(s, cfg).state;
    if cfg.announceUrl.Some? && !cfg.isUri(cfg.announceUrl.value) then StartResult(inited, true)
    else
      var trackerUri := if cfg.announceUrl.Some? then Some(Uri(cfg.announceUrl.value)) else None;
      if !selfAddressesOk then StartResult(inited, false)
      else StartResult(inited.(seeder := AfterStart(inited.seeder, trackerUri, DefaultScanInterval, cfg.announceIntervalSec)), false)
  }

  /** The engine runs after agent startup exactly when the URL is absent or
      parses and the local addresses are known. */
  lemma AgentStartedProperties(s: AgentState, cfg: TrackerConfig, selfAddressesOk: bool)
    requires s.seeder.stopped
    ensures var r := AgentStartedSpec(s, cfg, selfAddressesOk);
      && (r.raised <==> cfg.announceUrl.Some? && !cfg.isUri(cfg.announceUrl.value))
      && (!r.state.seeder.stopped <==> !r.raised && selfAddressesOk)
      && (!r.state.seeder.stopped ==>
            r.state.seeder.calls == s.seeder.calls
              + [Start(if cfg.announceUrl.Some? then Some(Uri(cfg.announceUrl.value)) else None,
                       DefaultScanInterval, cfg.announceIntervalSec)])
      && (r.state.seeder.stopped ==> r.state.seeder.calls == s.seeder.calls)
  {
  }

  /** buildStarted: initSettings, then the build is remembered. */
  function BuildStartedSpec(s: AgentState, cfg: TrackerConfig): AgentState {
    InitSettingsSpec(s, cfg).state.(hasRunningBuild := true)
  }


  // ===========================================================================
  // Announcing files

  /** The collaborators' answers for one file: whether stopSeedingByPath
      returns normally, whether the engine considers the file large enough,
      whether Torrent.create succeeds and whether seedTorrent does. */
  datatype FileResponse = FileResponse(stopOk: bool, qualifies: bool, createOk: bool, seedOk: bool)

  datatype Announced = Announced(ok: bool, calls: seq<SeederCall>)

  /** announceNewFile: nothing before the settings are inited; otherwise any
      earlier seeding of the file is withdrawn and, when the file qualifies,
      a new torrent announced to the configured tracker is seeded. Any
      exception on the way makes the result false. */
  function AnnounceNewFileSpec(s: AgentState, file: string, r: FileResponse): Announced {
    if !SettingsInited(s.trackerAnnounceUrl, s.fileSizeThresholdMb) then Announced(false, [])
    else if !r.stopOk then Announced(false, [StopSeedingByPath(file)])
    else if !r.qualifies then Announced(true, [StopSeedingByPath(file)])
    else if !r.createOk then Announced(false, [StopSeedingByPath(file)])
    else Announced(r.seedOk, [StopSeedingByPath(file), SeedNewTorrent(file, s.trackerAnnounceUrl.value)])
  }

  /** A file counts as announced exactly when the settings are inited and
      nothing failed; a small file counts without being seeded; the file is
      seeded only under the configured tracker, and only after its earlier
      seeding was withdrawn. */
  lemma AnnounceNewFileProperties(s: AgentState, file: string, r: FileResponse)
    ensures var a := AnnounceNewFileSpec(s, file, r);
      && (a.ok <==> SettingsInited(s.trackerAnnounceUrl, s.fileSizeThresholdMb)
                    && r.stopOk && (!r.qualifies || (r.createOk && r.seedOk)))
      && (a.calls == [] <==> !SettingsInited(s.trackerAnnounceUrl, s.fileSizeThresholdMb))
      && (a.calls != [] ==> a.calls[0] == StopSeedingByPath(file))
      && (forall c :: c in a.calls && c.SeedNewTorrent? ==>
            c == SeedNewTorrent(file, s.trackerAnnounceUrl.value) && r.stopOk && r.qualifies && r.createOk)
      && (SettingsInited(s.trackerAnnounceUrl, s.fileSizeThresholdMb) && r.stopOk && r.qualifies && r.createOk ==>
            a.calls == [StopSeedingByPath(file), SeedNewTorrent(file, s.trackerAnnounceUrl.value)])
      && (SettingsInited(s.trackerAnnounceUrl, s.fileSizeThresholdMb) && !(r.stopOk && r.qualifies && r.createOk) ==>
            a.calls == [StopSeedingByPath(file)])
  {
  }

  /** The number of files announceBuildArtifacts counts. */
  function AnnouncedCount(s: AgentState, files: seq<string>, respond: string -> FileResponse): nat {
    if files == [] then 0
    else
      var last := files[|files| - 1];
      AnnouncedCount(s, files[..|files| - 1], respond) + if AnnounceNewFileSpec(s, last, respond(last)).ok then 1 else 0
  }

  /** The engine calls announceBuildArtifacts makes, file after file. */
  function AnnouncedCalls(s: AgentState, files: seq<string>, respond: string -> FileResponse): seq<SeederCall> {
    ConcatMap(files, f => AnnounceNewFileSpec(s, f, respond(f)).calls)
  }

  /** The count is at most the number of files, equals it exactly when every
      file is announced, and is 0 (with no engine call) before the settings
      are inited. */
  lemma {:induction false} AnnouncedCountBounds(s: AgentState, files: seq<string>, respond: string -> FileResponse)
    ensures AnnouncedCount(s, files, respond) <= |files|
    ensures AnnouncedCount(s, files, respond) == |files| <==>
              forall i :: 0 <= i < |files| ==> AnnounceNewFileSpec(s, files[i], respond(files[i])).ok
    ensures !SettingsInited(s.trackerAnnounceUrl, s.fileSizeThresholdMb) ==>
              AnnouncedCount(s, files, respond) == 0 && AnnouncedCalls(s, files, respond) == []
  {
    if files != [] {
      var init := files[..|files| - 1];
      AnnouncedCountBounds(s, init, respond);
      assert forall i :: 0 <= i < |init| ==> init[i] == files[i];
    }
  }

  datatype Published = Published(state: AgentState, count: nat)

  /** publishFiles: hands the current threshold and announce interval to the
      engine, takes a new announce URL when one is configured and parses
      (exceptions are swallowed), leaves the manager's own threshold alone,
      and announces every file. */
  function PublishFilesSpec(s: AgentState, cfg: TrackerConfig, files: seq<string>, respond: string -> FileResponse): Published {
    var configured := s.(seeder := s.seeder.(fileSizeThresholdMb := cfg.fileSizeThresholdMb,
                                             announceIntervalSec := Some(cfg.announceIntervalSec)));
    var updated :=
      if cfg.announceUrl.Some? && cfg.isUri(cfg.announceUrl.value)
      then configured.(trackerAnnounceUrl := Some(Uri(cfg.announceUrl.value)))
      else configured;
    Published(updated.(seeder := updated.seeder.(calls := updated.seeder.calls + AnnouncedCalls(updated, files, respond))),
              AnnouncedCount(updated, files, respond))
  }

  /** publishFiles always refreshes the engine's threshold and interval,
      replaces the announce URL only with a configured one that parses,
      never touches the manager's threshold, and announces the files under
      the resulting settings. */
  lemma PublishFilesProperties(s: AgentState, cfg: TrackerConfig, files: seq<string>, respond: string -> FileResponse)
    ensures var p := PublishFilesSpec(s, cfg, files, respond);
      && p.state.fileSizeThresholdMb == s.fileSizeThresholdMb
      && p.state.seeder.fileSizeThresholdMb == cfg.fileSizeThresholdMb
      && p.state.seeder.announceIntervalSec == Some(cfg.announceIntervalSec)
      && p.state.seeder.stopped == s.seeder.stopped
      && (cfg.announceUrl.None? || !cfg.isUri(cfg.announceUrl.value) ==> p.state.trackerAnnounceUrl == s.trackerAnnounceUrl)
      && (cfg.announceUrl.Some? && cfg.isUri(cfg.announceUrl.value) ==>
            p.state.trackerAnnounceUrl == Some(Uri(cfg.announceUrl.value)))
      && var before := p.state.(seeder := p.state.seeder.(calls := s.seeder.calls));
         p.count == AnnouncedCount(before, files, respond)
         && p.state.seeder.calls == s.seeder.calls + AnnouncedCalls(before, files, respond)
  {
  }

  /** publishFiles never sets the manager's threshold, so an agent whose
      settings were never inited announces nothing, whatever the tracker
      configuration says by now. */
  lemma PublishWithoutThresholdAnnouncesNothing(s: AgentState, cfg: TrackerConfig, files: seq<string>,
                                                respond: string -> FileResponse)
    requires s.fileSizeThresholdMb.None?
    ensures PublishFilesSpec(s, cfg, files, respond).count == 0
    ensures PublishFilesSpec(s, cfg, files, respond).state.seeder.calls == s.seeder.calls
    ensures PublishFilesSpec(s, cfg, files, respond).state.fileSizeThresholdMb.None?
  {
    var p := PublishFilesSpec(s, cfg, files, respond);
    var updated := p.state.(seeder := p.state.seeder.(calls := s.seeder.calls));
    AnnouncedCountBounds(updated, files, respond);
  }

  /** Once inited, publishing uses the freshest parseable URL for every
      file that qualifies. */
  lemma PublishUsesFreshUrl(s: AgentState, cfg: TrackerConfig, files: seq<string>, respond: string -> FileResponse,
                            c: SeederCall)
    requires s.fileSizeThresholdMb.Some?
    requires cfg.announceUrl.Some? && cfg.isUri(cfg.announceUrl.value)
    requires c in PublishFilesSpec(s, cfg, files, respond).state.seeder.calls[|s.seeder.calls|..]
    requires c.SeedNewTorrent?
    ensures c.trackerUri == Uri(cfg.announceUrl.value)
  {
    var p := PublishFilesSpec(s, cfg, files, respond);
    var updated := s.(trackerAnnounceUrl := Some(Uri(cfg.announceUrl.value)),
                      seeder := s.seeder.(fileSizeThresholdMb := cfg.fileSizeThresholdMb,
                                          announceIntervalSec := Some(cfg.announceIntervalSec)));
    assert p.state.seeder.calls[|s.seeder.calls|..] == AnnouncedCalls(updated, files, respond);
    InConcatMap(files, f => AnnounceNewFileSpec(updated, f, respond(f)).calls, c);
    var i :| 0 <= i < |files| && c in AnnounceNewFileSpec(updated, files[i], respond(files[i])).calls;
    AnnounceNewFileProperties(updated, files[i], respond(files[i]));
  }

  // ===========================================================================
  // The object

  class AgentTorrentsManager {
    const seeder: DirectorySeeder
    var trackerAnnounceUrl: Option<Uri>
    var fileSizeThresholdMb: Option<Int32>
    var hasRunningBuild: bool

    ghost function State(): AgentState
      reads this, seeder
    {
      AgentState(trackerAnnounceUrl, fileSizeThresholdMb, hasRunningBuild, seeder.State())
    }

    /** The engine is created stopped, with no limit on the number of seeded
        torrents (-1) and a threshold of 0 MB. */
    constructor (torrentsStorage: string)
      ensures fresh(seeder) && seeder.storageDirectory == torrentsStorage
      ensures State() == AgentState(None, None, false, SeederState(true, 0, -1, None, []))
    {
      seeder := new DirectorySeeder(torrentsStorage, -1, 0);
      trackerAnnounceUrl := None;
      fileSizeThresholdMb := None;
      hasRunningBuild := false;
    }

    method InitSettings(cfg: TrackerConfig) returns (ok: bool)
      modifies this, seeder
      ensures InitResult(State(), ok) == InitSettingsSpec(old(State()), cfg)
    {
      match cfg.announceUrl
      case None =>
        return false;
      case Some(text) =>
        if !cfg.isUri(text) {
          return false;
        }
        trackerAnnounceUrl := Some(Uri(text));
        fileSizeThresholdMb := Some(cfg.fileSizeThresholdMb);
        seeder.SetFileSizeThresholdMb(cfg.fileSizeThresholdMb);
        return true;
    }

    method AgentStarted(cfg: TrackerConfig, selfAddressesOk: bool) returns (raised: bool)
      modifies this, seeder
      ensures StartResult(State(), raised) == AgentStartedSpec(old(State()), cfg, selfAddressesOk)
    {
      var _ := InitSettings(cfg);
      var trackerUri: Option<Uri> := None;
      if cfg.announceUrl.Some? {
        if !cfg.isUri(cfg.announceUrl.value) {
          return true;
        }
        trackerUri := Some(Uri(cfg.announceUrl.value));
      }
      if selfAddressesOk {
        seeder.Start(trackerUri, DefaultScanInterval, cfg.announceIntervalSec);
      }
      return false;
    }

    method BuildStarted(cfg: TrackerConfig)
      modifies this, seeder
      ensures State() == BuildStartedSpec(old(State()), cfg)
    {
      var _ := InitSettings(cfg);
      hasRunningBuild := true;
    }

    method AgentShutdown()
      modifies seeder
      ensures State() == old(State()).(seeder := StopIfRunning(old(State()).seeder))
    {
      if !seeder.stopped {
        seeder.Stop();
      }
    }

    method AnnounceNewFile(file: string, r: FileResponse) returns (ok: bool)
      modifies seeder
      ensures var a := AnnounceNewFileSpec(old(State()), file, r);
        ok == a.ok && seeder.State() == old(seeder.State()).(calls := old(seeder.calls) + a.calls)
    {
      if !SettingsInited(trackerAnnounceUrl, fileSizeThresholdMb) {
        return false;
      }
      seeder.StopSeedingByPath(file);
      if !r.stopOk {
        return false;
      }
      if r.qualifies {
        if !r.createOk {
          return false;
        }
        seeder.SeedNewTorrent(file, trackerAnnounceUrl.value);
        if !r.seedOk {
          return false;
        }
      }
      return true;
    }

    method AnnounceBuildArtifacts(files: seq<string>, respond: string -> FileResponse) returns (num: nat)
      modifies seeder
      ensures num == AnnouncedCount(old(State()), files, respond)
      ensures seeder.State() == old(seeder.State()).(calls := old(seeder.calls) + AnnouncedCalls(old(State()), files, respond))
    {
      ghost var s0 := State();
      num := 0;
      for i := 0 to |files|
        invariant num == AnnouncedCount(s0, files[..i], respond)
        invariant seeder.State() == s0.seeder.(calls := s0.seeder.calls + AnnouncedCalls(s0, files[..i], respond))
      {
        var ok := AnnounceNewFile(files[i], respond(files[i]));
        if ok {
          num := num + 1;
        }
        AnnounceStep(s0, files, i, respond);
      }
      assert files[..|files|] == files;
    }

    method PublishFiles(cfg: TrackerConfig, files: seq<string>, respond: string -> FileResponse) returns (count: nat)
      modifies this, seeder
      ensures Published(State(), count) == PublishFilesSpec(old(State()), cfg, files, respond)
    {
      seeder.SetFileSizeThresholdMb(cfg.fileSizeThresholdMb);
      seeder.SetAnnounceInterval(cfg.announceIntervalSec);
      if cfg.announceUrl.Some? && cfg.isUri(cfg.announceUrl.value) {
        trackerAnnounceUrl := Some(Uri(cfg.announceUrl.value));
      }
      count := AnnounceBuildArtifacts(files, respond);
    }
  }

  /** One more file of announceBuildArtifacts. */
  lemma AnnounceStep(s: AgentState, files: seq<string>, i: nat, respond: string -> FileResponse)
    requires i < |files|
    ensures var a := AnnounceNewFileSpec(s, files[i], respond(files[i]));
      && AnnouncedCount(s, files[..i + 1], respond) == AnnouncedCount(s, files[..i], respond) + (if a.ok then 1 else 0)
      && AnnouncedCalls(s, files[..i + 1], respond) == AnnouncedCalls(s, files[..i], respond) + a.calls
  {
    assert files[..i + 1][..i] == files[..i];
    assert files[..i + 1] == files[..i] + [files[i]];
    ConcatMapAppend(files[..i], [files[i]], f => AnnounceNewFileSpec(s, f, respond(f)).calls);
    ConcatMapSingleton(files[i], f => AnnounceNewFileSpec(s, f, respond(f)).calls);
  }
}
