/** The torrent seeding engine that both the agent and the server drive
    (TorrentsDirectorySeeder and its TeamcityTorrentClient). Its scan loop,
    eviction and peer service are not part of this model: the class keeps
    only what the core reads or sets, and a trace of the calls the core makes
    into it, so that the core's contracts can say which calls happen in
    which order. The only behaviour assumed of the engine is that `Start`
    leaves it running and `Stop` leaves it stopped. */
module DirectorySeeding {
  import opened Common

  /** How often the engine rescans its storage directory. */
  datatype ScanInterval = DefaultScanInterval | ScanEvery(seconds: int)

  /** A call into the engine that the core makes for its effect. */
  datatype SeederCall =
    | Start(announce: Option<Uri>, scan: ScanInterval, announceIntervalSec: int)
    | Stop
    | StopSeedingByPath(file: string)
    /** The server seeds a torrent file it has written for an artifact. */
    | SeedTorrentFile(torrentFile: string, artifactFile: string)
    /** The agent seeds a torrent it has just created for a file. */
    | SeedNewTorrent(file: string, trackerUri: Uri)

  /** The part of the engine's state the core can observe or set. */
  datatype SeederState = SeederState(
    stopped: bool,
    fileSizeThresholdMb: int,
    maxTorrentsToSeed: int,
    announceIntervalSec: Option<int>,
    calls: seq<SeederCall>)

  function Record(s: SeederState, c: SeederCall): (r: SeederState)
    ensures r.calls == s.calls + [c]
  {
    s.(calls := s.calls + [c])
  }

  /** The engine after `start`: running, with the call recorded. */
  function AfterStart(s: SeederState, announce: Option<Uri>, scan: ScanInterval, announceIntervalSec: int): (r: SeederState)
    ensures !r.stopped && r.calls == s.calls + [Start(announce, scan, announceIntervalSec)]
  {
    Record(s, Start(announce, scan, announceIntervalSec)).(stopped := false)
  }

  /** The engine after `stop`: stopped, with the call recorded. */
  function AfterStop(s: SeederState): (r: SeederState)
    ensures r.stopped && r.calls == s.calls + [Stop]
  {
    Record(s, Stop).(stopped := true)
  }

  /** What both the agent and the server do on shutdown: stop the engine
      unless it is already stopped. */
  function StopIfRunning(s: SeederState): SeederState {
    if s.stopped then s else AfterStop(s)
  }

  /** Stopping is idempotent: the engine is stopped afterwards, and `stop` is
      called only when it was running. */
  lemma StopIfRunningIdempotent(s: SeederState)
    ensures StopIfRunning(s).stopped
    ensures StopIfRunning(StopIfRunning(s)) == StopIfRunning(s)
    ensures StopIfRunning(s).calls == s.calls + if s.stopped then [] else [Stop]
    ensures StopIfRunning(s).(stopped := s.stopped, calls := s.calls) == s
  {
  }

  class DirectorySeeder {
    const storageDirectory: string
    var stopped: bool
    var fileSizeThresholdMb: int
    var maxTorrentsToSeed: int
    var announceIntervalSec: Option<int>
    /** What the engine reports as seeded; the model promises nothing about it. */
    var numberOfSeeded: nat
    ghost var calls: seq<SeederCall>

    ghost function State(): SeederState
      reads this
    {
      SeederState(stopped, fileSizeThresholdMb, maxTorrentsToSeed, announceIntervalSec, calls)
    }

    constructor (storageDirectory: string, maxTorrentsToSeed: int, fileSizeThresholdMb: int)
      ensures this.storageDirectory == storageDirectory
      ensures State() == SeederState(true, fileSizeThresholdMb, maxTorrentsToSeed, None, [])
    {
      this.storageDirectory := storageDirectory;
      stopped := true;
      this.fileSizeThresholdMb := fileSizeThresholdMb;
      this.maxTorrentsToSeed := maxTorrentsToSeed;
      announceIntervalSec := None;
      numberOfSeeded := 0;
      calls := [];
    }

    method Start(announce: Option<Uri>, scan: ScanInterval, announceIntervalSec: int)
      modifies this
      ensures State() == AfterStart(old(State()), announce, scan, announceIntervalSec)
      ensures numberOfSeeded == old(numberOfSeeded)
    {
      stopped := false;
      calls := calls + [SeederCall.Start(announce, scan, announceIntervalSec)];
    }

    method Stop()
      modifies this
      ensures State() == AfterStop(old(State()))
      ensures numberOfSeeded == old(numberOfSeeded)
    {
      stopped := true;
      calls := calls + [SeederCall.Stop];
    }

    method SetFileSizeThresholdMb(thresholdMb: int)
      modifies this
      ensures State() == old(State()).(fileSizeThresholdMb := thresholdMb)
      ensures numberOfSeeded == old(numberOfSeeded)
    {
      fileSizeThresholdMb := thresholdMb;
    }

    method SetMaxTorrentsToSeed(max: int)
      modifies this
      ensures State() == old(State()).(maxTorrentsToSeed := max)
      ensures numberOfSeeded == old(numberOfSeeded)
    {
      maxTorrentsToSeed := max;
    }

    method SetAnnounceInterval(seconds: int)
      modifies this
      ensures State() == old(State()).(announceIntervalSec := Some(seconds))
      ensures numberOfSeeded == old(numberOfSeeded)
    {
      announceIntervalSec := Some(seconds);
    }

    method StopSeedingByPath(file: string)
      modifies this
      ensures State() == Record(old(State()), SeederCall.StopSeedingByPath(file))
      ensures numberOfSeeded == old(numberOfSeeded)
    {
      calls := calls + [SeederCall.StopSeedingByPath(file)];
    }

    method SeedTorrentFile(torrentFile: string, artifactFile: string)
      modifies this
      ensures State() == Record(old(State()), SeederCall.SeedTorrentFile(torrentFile, artifactFile))
      ensures numberOfSeeded == old(numberOfSeeded)
    {
      calls := calls + [SeederCall.SeedTorrentFile(torrentFile, artifactFile)];
    }

    method SeedNewTorrent(file: string, announce: Uri)
      modifies this
      ensures State() == Record(old(State()), SeederCall.SeedNewTorrent(file, announce))
      ensures numberOfSeeded == old(numberOfSeeded)
    {
      calls := calls + [SeederCall.SeedNewTorrent(file, announce)];
    }
  }
}
