# TeamCity torrent plugin: a Dafny model of its decision and bookkeeping core

The plugin spreads build artifacts over BitTorrent. The server creates a
torrent for every large enough artifact of a finished build and seeds it.
Agents re-seed what they publish. When an agent resolves an artifact
dependency, it fetches the artifact through the torrent network instead of
plain HTTP whenever that is possible. This project models three parts of
that logic and proves properties of them:

- **The transport negotiator** on the agent (`TorrentTransportFactory` and
  its inner `TorrentTransport`), in `transport.dfy`, module
  `TransportNegotiation`. It covers:
  - the three gates that decide between the torrent transport and a
    fall-back to HTTP;
  - how a download is routed by its URL;
  - the artifact-to-torrent map built from the `teamcity-ivy.xml` manifest;
  - the manifest digest;
  - the torrent download, with its zero-seeder short-circuit and its
    exception translation;
  - the path and timeout helpers.
- **The producer and configuration state machine** on the server
  (`ServerTorrentsDirectorySeeder`), in `server_seeder.dfy`, module
  `ServerSeeding`. It covers:
  - the size threshold;
  - the walk over a build's artifact tree;
  - the property-change listener;
  - startup, shutdown and the link directory.
- **The publisher** on the agent (`AgentTorrentsManager`), in
  `agent_manager.dfy`, module `AgentPublishing`. It covers:
  - the tracker settings;
  - agent startup and shutdown;
  - the per-file announce step;
  - the batch count.

Two modules are shared:
- `common.dfy`, module `Common`: optional values, Java's 32-bit
  wrap-around, and Java's `Long.toString` / `Long.parseLong` on ASCII digits.
- `directory_seeder.dfy`, module `DirectorySeeding`: the seeding engine
  (`TorrentsDirectorySeeder` and its torrent client). Both sides drive it,
  but its code is not part of this model. It is a class that keeps only:
  - the settings the core pushes into it;
  - whether it is stopped;
  - a ghost trace of the calls the core makes.

The only behaviour assumed of it is that it is created stopped, that
`start` leaves it running and that `stop` leaves it stopped.

Collaborators become parameters. These are:
- HTTP;
- the XML reader;
- the torrent library;
- the tracker's seeder count;
- the file system and link store;
- URI parsing;
- the local-address lookup;
- the configuration sources;
- the URL transform of `ParsedArtifactPath`.

Each is a datatype of answers (`Net`, `ArtifactUrl`, `Host`, `LeafResponse`,
`TrackerConfig`, `FileResponse`). What the core asks of them goes into ghost
effect traces, so the contracts can say which calls happen, in which order,
and with which arguments.

The classes are imperative: each state-changing method works on fields. Each
method's contract ties the new state, the trace and the result to a pure
function of the old state (`...Spec`). The lemmas are about those
functions.

## Model

| member | source | states |
|---|---|---|
| TransportNegotiation.TransportGate | agent/src/jetbrains/buildServer/artifactsMirror/TorrentTransportFactory.java:83-110 | no refusal exactly when the shared parameter `teamcity.artifacts.transport` is present and equals `TorrentTransport`, the server is not local and the torrent client has started; each refusal is tied to its gate in gate order |
| TransportNegotiation.GetTransport | agent/src/jetbrains/buildServer/artifactsMirror/TorrentTransportFactory.java:83-105 | returns a fresh transport with an empty artifact-to-torrent map exactly when every gate passes, otherwise null |
| TransportNegotiation.TorrentTransport.constructor | agent/src/jetbrains/buildServer/artifactsMirror/TorrentTransportFactory.java:121-129 | a new transport has an empty map and has done nothing |
| TransportNegotiation.PublishedName | agent/src/jetbrains/buildServer/artifactsMirror/TorrentTransportFactory.java:191-198 | a published name is `name.ext` for a non-empty extension and `name` otherwise; a missing attribute gives no name |
| TransportNegotiation.PublishedNames | agent/src/jetbrains/buildServer/artifactsMirror/TorrentTransportFactory.java:189-199 | the first loop yields the set of all published names, and fails exactly when some artifact node lacks an attribute |
| TransportNegotiation.TorrentTransport.AddTorrentsFor | agent/src/jetbrains/buildServer/artifactsMirror/TorrentTransportFactory.java:201-208 | the second loop adds exactly the artifact-to-torrent entries of the published names to the map, in whatever order the set is visited |
| TransportNegotiation.ArtifactTorrentMapSpec | agent/src/jetbrains/buildServer/artifactsMirror/TorrentTransportFactory.java:201-208 | a name is mapped exactly when it is published, does not start with the artifacts directory and its `.teamcity/torrents/<name>.torrent` is published too; it is then mapped to that torrent name |
| TransportNegotiation.TorrentFilesAreNotMapped | agent/src/jetbrains/buildServer/artifactsMirror/TorrentTransportFactory.java:201-208 | every mapped torrent name is itself published, and no torrent file is ever mapped to a torrent of its own |
| TransportNegotiation.ParseArtifactsListProperties | agent/src/jetbrains/buildServer/artifactsMirror/TorrentTransportFactory.java:183-225 | the digest `teamcity-ivy.xml_<module>_<revision>` comes only from a readable manifest with exactly one info node; conversely a readable manifest with named artifacts and one complete info node returns that digest after writing the target; a failed write gives null; a failed request, an unreadable document or an artifact node without `name` or `ext` gives null, writes nothing and leaves the map as it was; otherwise the map grows by the entries of the published names |
| TransportNegotiation.TorrentTransport.ParseArtifactsList | agent/src/jetbrains/buildServer/artifactsMirror/TorrentTransportFactory.java:183-225 | the digest, the new map and the effects are those of the manifest-parsing specification |
| TransportNegotiation.DownloadTorrentSpec | agent/src/jetbrains/buildServer/artifactsMirror/TorrentTransportFactory.java:242-256 | an artifact absent from the map gives no torrent and no request; otherwise exactly one request for the torrent URL; a torrent exactly when the body loads, and then it is the torrent loaded from the downloaded bytes; an unchecked failure exactly when HTTP raises one |
| TransportNegotiation.TorrentTransport.DownloadTorrent | agent/src/jetbrains/buildServer/artifactsMirror/TorrentTransportFactory.java:242-256 | result and effects are those of the download-torrent specification |
| TransportNegotiation.GetDigestSpec | agent/src/jetbrains/buildServer/artifactsMirror/TorrentTransportFactory.java:232-236 | null exactly when no torrent is found; otherwise the found torrent's info hash; the only effect is the torrent request |
| TransportNegotiation.TorrentTransport.GetDigest | agent/src/jetbrains/buildServer/artifactsMirror/TorrentTransportFactory.java:232-236 | outcome and effects are those of the digest specification |
| TransportNegotiation.TorrentTransport.FetchAndShare | agent/src/jetbrains/buildServer/artifactsMirror/TorrentTransportFactory.java:145-177 | the try block: zero seeders return null; otherwise the client downloads with the configured timeout and minimum of 2 seeders, then the torrent file is saved next to the artifact and linked into the storage directory |
| TransportNegotiation.TorrentTransport.DownloadUrlTo | agent/src/jetbrains/buildServer/artifactsMirror/TorrentTransportFactory.java:132-181 | outcome, new map and effects are those of the download specification |
| TransportNegotiation.ManifestUrlIsParsed | agent/src/jetbrains/buildServer/artifactsMirror/TorrentTransportFactory.java:134-138 | a URL ending in `teamcity-ivy.xml` is answered by manifest parsing and never touches the torrent path |
| TransportNegotiation.ArtifactUrlUsesMap | agent/src/jetbrains/buildServer/artifactsMirror/TorrentTransportFactory.java:140-143 | any other URL leaves the map unchanged, and an unmapped artifact returns null with no request at all |
| TransportNegotiation.ZeroSeedersShortCircuit | agent/src/jetbrains/buildServer/artifactsMirror/TorrentTransportFactory.java:146-150 | with zero seeders the result is null and the client is never asked to download |
| TransportNegotiation.FetchFailuresTranslated | agent/src/jetbrains/buildServer/artifactsMirror/TorrentTransportFactory.java:168-177 | within the try block, IOException, NoSuchAlgorithmException and InterruptedException of the fetch become IOException, and so does a failed torrent save or link after a successful fetch; an unchecked exception from the fetch passes unchanged, and no other step after the torrent is found raises one |
| TransportNegotiation.ProgressAlwaysFinished | agent/src/jetbrains/buildServer/artifactsMirror/TorrentTransportFactory.java:145-180 | progress is finished on every path where it was started, as the last effect, each exactly once |
| TransportNegotiation.SuccessfulDownloadRegisters | agent/src/jetbrains/buildServer/artifactsMirror/TorrentTransportFactory.java:151-166 | a returned digest is the loaded torrent's info hash, after a successful fetch, the torrent save and the link, in that order |
| TransportNegotiation.DownloadSucceedsExactly | agent/src/jetbrains/buildServer/artifactsMirror/TorrentTransportFactory.java:145-166 | an artifact download returns a digest exactly when the torrent is found, has seeders, is fetched, and its torrent file and link are written; the digest is then the torrent's info hash |
| TransportNegotiation.NormalizeSeparators | agent/src/jetbrains/buildServer/artifactsMirror/TorrentTransportFactory.java:277 | every backslash becomes `/`, and nothing else changes |
| TransportNegotiation.RealParentDir | agent/src/jetbrains/buildServer/artifactsMirror/TorrentTransportFactory.java:276-283 | defined exactly when the normalised path ends with the relative path; then it is the prefix, and prefix + relative path is the normalised path |
| TransportNegotiation.ParentPath | agent/src/jetbrains/buildServer/artifactsMirror/TorrentTransportFactory.java:162 | the parent is a prefix of the path that ends just before its last separator |
| TransportNegotiation.DownloadTimeoutSec | agent/src/jetbrains/buildServer/artifactsMirror/TorrentTransportFactory.java:285-292 | the property (default `"300"`) as `Long.parseLong` reads it when it parses, and 300 otherwise |
| TransportNegotiation.DownloadTimeoutDefaults | agent/src/jetbrains/buildServer/artifactsMirror/TorrentTransportFactory.java:286 | an unset property gives 300 seconds |
| TransportNegotiation.DownloadTimeoutReadsLong | agent/src/jetbrains/buildServer/artifactsMirror/TorrentTransportFactory.java:288 | a property holding a printed `long` gives back that value |
| Common.ParseLongRoundTrip | agent/src/jetbrains/buildServer/artifactsMirror/TorrentTransportFactory.java:288 | `Long.parseLong` reads back every value `Long.toString` prints |
| Common.WrapInt32 | server/src/jetbrains/buildServer/artifactsMirror/ServerTorrentsDirectorySeeder.java:234 | a Java `int` result equals the exact result modulo 2^32 and is unchanged when in range |
| Common.WrapInt32Congruent | server/src/jetbrains/buildServer/artifactsMirror/ServerTorrentsDirectorySeeder.java:234 | two values that differ by a multiple of 2^32 hold the same Java `int` |
| ServerSeeding.DoubleWrapIsSingleWrap | server/src/jetbrains/buildServer/artifactsMirror/ServerTorrentsDirectorySeeder.java:234 | multiplying by 1024 twice in `int` arithmetic gives the exact product by 2^20 reduced to 32 bits |
| ServerSeeding.ShouldCreateTorrentForAsWritten | server/src/jetbrains/buildServer/artifactsMirror/ServerTorrentsDirectorySeeder.java:233-235 | the code compares the file size with the exact threshold in bytes reduced to a 32-bit `int` |
| ServerSeeding.ShouldCreateTorrentFor | server/src/jetbrains/buildServer/artifactsMirror/ServerTorrentsDirectorySeeder.java:233-235 | the intended rule: a file qualifies exactly when its size in whole megabytes reaches the threshold |
| ServerSeeding.ThresholdMonotone | server/src/jetbrains/buildServer/artifactsMirror/ServerTorrentsDirectorySeeder.java:233-235 | a larger file or a lower threshold never turns a torrent away |
| ServerSeeding.ThresholdBoundary | server/src/jetbrains/buildServer/artifactsMirror/ServerTorrentsDirectorySeeder.java:233-235 | a file of exactly the threshold gets a torrent, and one byte less does not |
| ServerSeeding.AsWrittenAgreesBelow2048 | server/src/jetbrains/buildServer/artifactsMirror/ServerTorrentsDirectorySeeder.java:234 | below 2048 MB the 32-bit product does not wrap, and the code as written decides as intended |
| ServerSeeding.AsWrittenWrapsAt2048 | server/src/jetbrains/buildServer/artifactsMirror/ServerTorrentsDirectorySeeder.java:234 | at 2048 MB the code as written gives every file a torrent, while the intended rule and the code at 2047 MB turn an empty file away |
| ServerSeeding.WalkIsLeafByLeaf | server/src/jetbrains/buildServer/artifactsMirror/ServerTorrentsDirectorySeeder.java:188-197 | the walk of a tree does exactly what its files do one after another; directories contribute nothing of their own |
| ServerSeeding.WalkAllIsLeafByLeaf | server/src/jetbrains/buildServer/artifactsMirror/ServerTorrentsDirectorySeeder.java:193-195 | the same for a sequence of sibling artifacts |
| ServerSeeding.TorrentsComeFromQualifyingFiles | server/src/jetbrains/buildServer/artifactsMirror/ServerTorrentsDirectorySeeder.java:199-213 | every torrent the walk creates is that of a file of the tree that passes the threshold; every link is that of such a file whose link succeeded; every seeding is that of such a linked file, and only when the seeder is enabled |
| ServerSeeding.EveryQualifyingFileIsTorrented | server/src/jetbrains/buildServer/artifactsMirror/ServerTorrentsDirectorySeeder.java:192-219 | every file of the tree that passes the threshold gets its torrent, its link when the link store succeeds, and its seeding when also enabled, whatever failed for the other files |
| ServerSeeding.CodeQualifyingFileIsTorrented | server/src/jetbrains/buildServer/artifactsMirror/ServerTorrentsDirectorySeeder.java:199-206 | below 2048 MB every file the code's 32-bit rule admits gets its torrent from the walk |
| ServerSeeding.CodeTorrentsComeFromQualifyingFiles | server/src/jetbrains/buildServer/artifactsMirror/ServerTorrentsDirectorySeeder.java:199-206 | below 2048 MB every torrent the walk creates is for a file the code's 32-bit rule admits |
| ServerSeeding.LinkDir | server/src/jetbrains/buildServer/artifactsMirror/ServerTorrentsDirectorySeeder.java:245-248 | the link directory lies under `<storage>/<buildTypeId>/` and ends with `/` and the build id as Long.toString prints it |
| ServerSeeding.LinkDirInjective | server/src/jetbrains/buildServer/artifactsMirror/ServerTorrentsDirectorySeeder.java:245-248 | the link directory is `<storage>/<buildTypeId>/<buildId>`, and two builds share one only if they have the same configuration and id |
| ServerSeeding.ChangeTouchesOnlyItsField | server/src/jetbrains/buildServer/artifactsMirror/ServerTorrentsDirectorySeeder.java:84-107 | each property change sets only its own field; the maximum also reaches the engine; the interval only the engine; a malformed URL raises and changes nothing; only the enabled flag starts or stops the engine; no change marks the server started |
| ServerSeeding.ChangesBeforeStartupNeverRunSeeder | server/src/jetbrains/buildServer/artifactsMirror/ServerTorrentsDirectorySeeder.java:96-105 | before startup, no sequence of property changes starts, stops or calls the engine |
| ServerSeeding.EnabledFlagAfterStartup | server/src/jetbrains/buildServer/artifactsMirror/ServerTorrentsDirectorySeeder.java:64-74 | startup marks the server started whatever the flag says; with seeding enabled and known local addresses it starts the engine; afterwards the flag stops or starts the engine at once |
| DirectorySeeding.StopIfRunningIdempotent | server/src/jetbrains/buildServer/artifactsMirror/ServerTorrentsDirectorySeeder.java:111-115 | `stop` is called only when the engine runs; stopping twice is stopping once; nothing else changes |
| ServerSeeding.ServerTorrentsDirectorySeeder.constructor | server/src/jetbrains/buildServer/artifactsMirror/ServerTorrentsDirectorySeeder.java:45-57 | a stopped engine built with the configured maximum and threshold; no announce URI; server not started |
| ServerSeeding.ServerTorrentsDirectorySeeder.StopSeeder | server/src/jetbrains/buildServer/artifactsMirror/ServerTorrentsDirectorySeeder.java:111-115 | the new state is the stop-if-running transition of the old |
| ServerSeeding.ServerTorrentsDirectorySeeder.StartSeeder | server/src/jetbrains/buildServer/artifactsMirror/ServerTorrentsDirectorySeeder.java:117-133 | the engine is started with the current announce URI and the configured interval, unless the local addresses cannot be determined |
| ServerSeeding.ServerTorrentsDirectorySeeder.SetFileSizeThreshold | server/src/jetbrains/buildServer/artifactsMirror/ServerTorrentsDirectorySeeder.java:136-138 | only the threshold changes |
| ServerSeeding.ServerTorrentsDirectorySeeder.SetMaxNumberOfSeededTorrents | server/src/jetbrains/buildServer/artifactsMirror/ServerTorrentsDirectorySeeder.java:237-239 | only the maximum changes |
| ServerSeeding.ServerTorrentsDirectorySeeder.SetAnnounceUri | server/src/jetbrains/buildServer/artifactsMirror/ServerTorrentsDirectorySeeder.java:241-243 | only the announce URI changes |
| ServerSeeding.ServerTorrentsDirectorySeeder.PropertyChange | server/src/jetbrains/buildServer/artifactsMirror/ServerTorrentsDirectorySeeder.java:84-107 | new state and raised exception are those of the property-change specification |
| ServerSeeding.ServerTorrentsDirectorySeeder.ServerStartup | server/src/jetbrains/buildServer/artifactsMirror/ServerTorrentsDirectorySeeder.java:64-74 | new state is that of the startup specification |
| ServerSeeding.ServerTorrentsDirectorySeeder.ServerShutdown | server/src/jetbrains/buildServer/artifactsMirror/ServerTorrentsDirectorySeeder.java:59-61 | shutdown is the stop-if-running transition |
| ServerSeeding.ServerTorrentsDirectorySeeder.NumberOfSeededTorrents | server/src/jetbrains/buildServer/artifactsMirror/ServerTorrentsDirectorySeeder.java:165-170 | 0 whenever the engine is stopped, otherwise what the engine reports |
| ServerSeeding.ServerTorrentsDirectorySeeder.ProcessArtifact | server/src/jetbrains/buildServer/artifactsMirror/ServerTorrentsDirectorySeeder.java:188-220 | the effects and the engine calls of one artifact are those of the walk specification; the seeding calls are exactly the seeded effects |
| ServerSeeding.ServerTorrentsDirectorySeeder.ProcessArtifacts | server/src/jetbrains/buildServer/artifactsMirror/ServerTorrentsDirectorySeeder.java:193-195 | the children are processed in order, each with the effects of the walk specification |
| ServerSeeding.ServerTorrentsDirectorySeeder.BuildFinished | server/src/jetbrains/buildServer/artifactsMirror/ServerTorrentsDirectorySeeder.java:172-186 | with the tracker enabled, every artifact of the build is walked into the build's link directory; otherwise nothing happens |
| AgentPublishing.InitSettingsProperties | agent/src/jetbrains/buildServer/artifactsMirror/AgentTorrentsManager.java:54-66 | initialisation succeeds exactly when the configured URL is present and parses; it then sets the URL and the threshold and pushes the threshold to the engine; otherwise nothing changes, so earlier settings stay in force |
| AgentPublishing.AgentStartedProperties | agent/src/jetbrains/buildServer/artifactsMirror/AgentTorrentsManager.java:68-78 | a malformed URL raises out of the handler; the engine runs afterwards exactly when nothing raised and the local addresses are known, started with the configured URI or none |
| AgentPublishing.AnnounceNewFileProperties | agent/src/jetbrains/buildServer/artifactsMirror/AgentTorrentsManager.java:93-110 | true exactly when the settings are inited and nothing failed; a small file counts without being seeded; once inited, the file is first withdrawn, and it is then seeded under the configured tracker exactly when the withdrawal succeeded, the file qualifies and the torrent was created |
| AgentPublishing.AnnouncedCountBounds | agent/src/jetbrains/buildServer/artifactsMirror/AgentTorrentsManager.java:126-132 | the count is at most the number of files, equals it exactly when every file is announced, and is 0 with no engine call before the settings are inited |
| AgentPublishing.PublishFilesProperties | agent/src/jetbrains/buildServer/artifactsMirror/AgentTorrentsManager.java:113-124 | publishing refreshes the engine's threshold and interval, replaces the URL only with a configured one that parses, leaves the manager's threshold alone, and then runs the batch under the new settings |
| AgentPublishing.PublishWithoutThresholdAnnouncesNothing | agent/src/jetbrains/buildServer/artifactsMirror/AgentTorrentsManager.java:113-124 | an agent whose settings were never inited announces nothing on publish, because publishing never sets the manager's threshold |
| AgentPublishing.PublishUsesFreshUrl | agent/src/jetbrains/buildServer/artifactsMirror/AgentTorrentsManager.java:118-123 | once inited, every torrent seeded by a publish is announced to the freshly configured tracker |
| AgentPublishing.AgentTorrentsManager.constructor | agent/src/jetbrains/buildServer/artifactsMirror/AgentTorrentsManager.java:40-48 | the engine is created stopped, with maximum -1 and threshold 0, and no settings are known |
| AgentPublishing.AgentTorrentsManager.InitSettings | agent/src/jetbrains/buildServer/artifactsMirror/AgentTorrentsManager.java:54-66 | result and new state are those of the initialisation specification |
| AgentPublishing.AgentTorrentsManager.AgentStarted | agent/src/jetbrains/buildServer/artifactsMirror/AgentTorrentsManager.java:68-78 | raised exception and new state are those of the startup specification |
| AgentPublishing.AgentTorrentsManager.BuildStarted | agent/src/jetbrains/buildServer/artifactsMirror/AgentTorrentsManager.java:80-84 | settings are initialised and the build is remembered |
| AgentPublishing.AgentTorrentsManager.AgentShutdown | agent/src/jetbrains/buildServer/artifactsMirror/AgentTorrentsManager.java:86-91 | shutdown is the stop-if-running transition |
| AgentPublishing.AgentTorrentsManager.AnnounceNewFile | agent/src/jetbrains/buildServer/artifactsMirror/AgentTorrentsManager.java:93-110 | result and engine calls are those of the announce specification |
| AgentPublishing.AgentTorrentsManager.AnnounceBuildArtifacts | agent/src/jetbrains/buildServer/artifactsMirror/AgentTorrentsManager.java:126-132 | the counting loop returns the number of files announced and makes their engine calls in order |
| AgentPublishing.AgentTorrentsManager.PublishFiles | agent/src/jetbrains/buildServer/artifactsMirror/AgentTorrentsManager.java:113-124 | count and new state are those of the publish specification |

## Left out

- HTTP (`createHttpClient`, `download`, status codes, credentials) is one function from URL to body or failure. A non-200 status is an IOException.
- XPath evaluation is left out. The manifest arrives already read: artifact nodes with optional `name` and `ext` attributes, and the `info` nodes. An unreadable document is a failure.
- ttorrent is not modelled. This covers `new Torrent(bytes, true)`, `Torrent.create`, hashing, `getHexInfoHash`, `TrackerHelper.getSeedersCount` and `downloadAndShareOrFail`. Each is an answer passed in.
- `TorrentsDirectorySeeder`, its torrent client, `FileLink`, `TorrentUtil` and `ParsedArtifactPath` are not part of this model. The engine keeps only the state the core sets or reads. `ParsedArtifactPath`'s four derived paths are inputs. `TorrentUtil.getOrCreateTorrent`'s answer is an input, and so are link and seeding outcomes.
- `NetworkUtil.isLocalHost`, `NetworkUtil.getSelfAddresses` and the agent's `isTorrentClientStarted` are booleans passed in. `isTorrentClientStarted` is not among the modelled files.
- `ArtifactsConstants.TEAMCITY_ARTIFACTS_DIR` is assumed to be `.teamcity`. Its definition is not part of this model, and no proof depends on its value.
- Server startup submits `startSeeder` to a low-priority executor. The model starts the engine synchronously, before the started flag is set. Both orders give the same final state. `volatile` fields and the engine's threads are left out.
- Logging, build-log messages, progress text, wall-clock timing and the speed computation are left out.
- `mkdirs` and file writes other than the manifest write, torrent save and link are left out.
- `java.io.File` path handling is plain text: `/` is the separator, and there is no normalisation beyond `getRealParentDir`'s backslash rewrite.
- `Long.parseLong` is modelled on ASCII digits only. Non-ASCII Unicode digits are left out.
- `getTorrentFilesBaseDir`, `getTorrentFiles`, `getTorrentFile`, `getSharedTorrents` and `createTorrent`'s directory handling are left out. The directory where the library writes torrents is not recorded in the effects.
- `new ParsedArtifactPath(urlString)` may fail on a malformed URL. That failure is left out.
- Unchecked exceptions are modelled in these places:
  - HTTP inside `downloadTorrent`, which passes out of `downloadUrlTo` and `getDigest`;
  - `downloadAndShareOrFail`, which passes out of `downloadUrlTo`;
  - `URI.create` on a malformed announce URL: raised out of the server listener and out of `agentStarted`, and swallowed in `publishFiles`.
- Unchecked exceptions are left out in these places, so each of these steps either succeeds or fails with a checked exception:
  - `new Torrent(bytes, true)` in `downloadTorrent`;
  - `TrackerHelper.getSeedersCount`, which the model treats as a total function;
  - `Torrent.save` and `FileLink.createLink` on the agent, which can only fail with an IOException;
  - `torrentFile.getParentFile()` returning null when the torrent path has no parent;
  - the server listener's casts of property values;
  - `getOrCreateTorrent` on the server;
  - the agent's configuration getters.
- `TransportNegotiation.FetchFailuresTranslated`: "no other step raises an unchecked exception" holds only because of the omissions just listed.
- `ServerSeeding.ServerTorrentsDirectorySeeder.ProcessArtifacts`: it runs the same walk as `ProcessArtifact` and has the same threshold gap, described on the next line.
- `ServerSeeding.ServerTorrentsDirectorySeeder.BuildFinished`: it runs the same walk as `ProcessArtifact` and has the same threshold gap, described on the next line.
- `ServerSeeding.ServerTorrentsDirectorySeeder.ProcessArtifact`: the walk decides with the corrected threshold rule `ShouldCreateTorrentFor`, not the code's 32-bit one. For thresholds of 2048 MB and above, the code also creates, links and seeds torrents for small files, and the walk does not (see Findings). Below 2048 MB the two agree, and `CodeQualifyingFileIsTorrented` and `CodeTorrentsComeFromQualifyingFiles` state the walk's guarantees under the code's rule.
- `ServerSeeding.ServerTorrentsDirectorySeeder.ProcessArtifact`: the model reads the seeder-enabled flag once per build. The source reads it once per file, so a change in the middle of a walk is not captured.
- `ServerSeeding.ServerTorrentsDirectorySeeder.BuildFinished`: the artifacts are the ones `iterateArtifacts` hands to the processor, in its order. Which artifacts it visits is the collaborator's business.
- `ServerSeeding.ServerTorrentsDirectorySeeder.NumberOfSeededTorrents`: the model promises nothing about what a running engine reports.
- The debug message logged at the maximum number of seeded torrents has no effect and is left out. Evicting torrents is the engine's job.
- `AgentPublishing.AgentTorrentsManager.AnnounceNewFile`: the engine's `shouldCreateTorrentFileFor` decision is input. The engine's threshold rule is not part of this model. `log2Build` is assumed to have a running build.
- The torrent path returns early only when the tracker reports zero seeders (TorrentTransportFactory.java:147). With one seeder it goes on and hands `MIN_SEEDERS_COUNT_TO_TRY` = 2 to the torrent client (lines 56 and 152), and what the client does with that minimum is outside this model.

## Findings

| source | as written | input that shows it | evidently intended | confidence | as-written member | corrected member |
|---|---|---|---|---|---|---|
| server/src/jetbrains/buildServer/artifactsMirror/ServerTorrentsDirectorySeeder.java:234 | `myFileSizeThreshold * 1024 * 1024` is computed in 32-bit `int` before it is compared with the `long` size | threshold 2048 MB, artifact size 0: the product wraps to -2^31 and every file gets a torrent, while 2047 MB still rejects an empty file | the threshold in bytes without overflow, so a larger threshold never admits more files | not executed | ServerSeeding.ShouldCreateTorrentForAsWritten (shown by ServerSeeding.AsWrittenWrapsAt2048) | ServerSeeding.ShouldCreateTorrentFor (proved by ServerSeeding.ThresholdMonotone) |
