/**
 * The launcher's static plan: the `Paths` configuration with its derived executables and URLs
 * (POSIX layout), the argument vector each `start_*` routine builds, the stage schedule of
 * `start_backend`/`start_all`, and the fixed key order of `stop_all`.
 */
module Commands {
  import opened Text
  import Wrappers
  import Config
  import Probe

  /** The runtime configuration (`Paths`); the CPU limit is kept as the text `str()` gives it. */
  datatype Paths = Paths(
    projectRoot: string, frontendDir: string, npmExe: string, dockerExe: string,
    djangoAsgiApp: string, daphneHost: string, daphnePort: int,
    frontendHost: string, frontendPort: int, autoOpenBrowser: bool,
    redisHost: string, redisPort: int, redisDockerName: string,
    fetchOpenapi: bool, openapiRel: string,
    celeryQueue: string, celeryPool: string, celeryConcurrency: int,
    migrationPolicy: string, dockerMemoryLimit: string, dockerCpuLimit: string)

  /** `os.path.join(a, b)` on POSIX: an absolute `b` wins, otherwise one "/" between the two. */
  function PathJoin(a: string, b: string): string
  {
    if |b| > 0 && b[0] == '/' then b
    else if a == "" || a[|a| - 1] == '/' then a + b
    else a + "/" + b
  }

  /**
   * An absolute `b` replaces `a`; otherwise the result is `a`, then a single separator unless
   * `a` is empty or already ends in one, then `b`.
   */
  lemma PathJoinParts(a: string, b: string)
    ensures |b| > 0 && b[0] == '/' ==> PathJoin(a, b) == b
    ensures !(|b| > 0 && b[0] == '/') ==>
              var r := PathJoin(a, b);
              |a| + |b| <= |r| <= |a| + 1 + |b| && r[..|a|] == a && r[|r| - |b|..] == b &&
              (a != "" ==> r[|r| - |b| - 1] == '/')
  {
  }

  function VenvBin(cfg: Paths): string { PathJoin(PathJoin(cfg.projectRoot, "venv"), "bin") }
  function PythonExe(cfg: Paths): string { PathJoin(VenvBin(cfg), "python") }
  function CeleryExe(cfg: Paths): string { PathJoin(VenvBin(cfg), "celery") }
  function DaphneExe(cfg: Paths): string { PathJoin(VenvBin(cfg), "daphne") }
  function BeatSchedulePath(cfg: Paths): string { PathJoin(cfg.projectRoot, "celerybeat-schedule") }

  /** The project root, then one "/" unless the root is empty or already ends in one. */
  function RootPrefix(cfg: Paths): string {
    var root := cfg.projectRoot;
    if root == "" || root[|root| - 1] == '/' then root else root + "/"
  }

  /** A tool of the venv: `venv/bin/<tool>` under the project root. */
  lemma VenvTool(cfg: Paths, tool: string)
    requires tool != [] && tool[0] != '/'
    ensures PathJoin(VenvBin(cfg), tool) == RootPrefix(cfg) + "venv/bin/" + tool
  {
    var pre := RootPrefix(cfg);
    var venv := pre + "venv";
    assert PathJoin(cfg.projectRoot, "venv") == venv;
    assert venv[|venv| - 1] == "venv"[3];
    var bin := venv + "/" + "bin";
    assert VenvBin(cfg) == bin;
    assert bin[|bin| - 1] == "bin"[2];
    assert bin == pre + "venv/bin";
    assert bin + "/" + tool == pre + ("venv/bin/" + tool);
  }

  /**
   * The venv executables and the beat schedule file sit under the project root: the root, one
   * "/" unless the root is empty or already ends in one, then `venv/bin/<tool>` or the file name.
   */
  lemma UnderProjectRoot(cfg: Paths)
    ensures PythonExe(cfg) == RootPrefix(cfg) + "venv/bin/" + "python"
    ensures CeleryExe(cfg) == RootPrefix(cfg) + "venv/bin/" + "celery"
    ensures DaphneExe(cfg) == RootPrefix(cfg) + "venv/bin/" + "daphne"
    ensures BeatSchedulePath(cfg) == RootPrefix(cfg) + "celerybeat-schedule"
  {
    VenvTool(cfg, "python");
    VenvTool(cfg, "celery");
    VenvTool(cfg, "daphne");
  }

  /** `FRONTEND_URL`: "http://host:port", which the probe reads as the root path of the frontend. */
  function FrontendUrl(cfg: Paths): (url: string)
    ensures Probe.PlainHost(cfg.frontendHost) ==>
              Probe.SplitUrl(url) == Wrappers.Some(Probe.HttpTarget(cfg.frontendHost, cfg.frontendPort, "/"))
  {
    var url := Probe.HttpUrl(cfg.frontendHost, cfg.frontendPort, "");
    if Probe.PlainHost(cfg.frontendHost) then
      Probe.SplitUrlRoundTrip(cfg.frontendHost, cfg.frontendPort, "");
      url
    else url
  }

  /**
   * `OPENAPI_URL`: the server's address followed by the normalised schema path. The launcher
   * never probes this URL; `Probe.SplitUrl` only reads the built text back into its parts.
   */
  function OpenapiUrl(cfg: Paths): (url: string)
    ensures Probe.PlainHost(cfg.daphneHost) ==>
              Probe.SplitUrl(url) ==
              Wrappers.Some(Probe.HttpTarget(cfg.daphneHost, cfg.daphnePort, Config.NormalizedRel(cfg.openapiRel)))
  {
    var path := Config.NormalizedRel(cfg.openapiRel);
    var url := Probe.HttpUrl(cfg.daphneHost, cfg.daphnePort, path);
    if Probe.PlainHost(cfg.daphneHost) then
      Probe.SplitUrlRoundTrip(cfg.daphneHost, cfg.daphnePort, path);
      url
    else url
  }

  /** The browser opener probes the frontend's root path at its configured host and port. */
  lemma FrontendUrlProbesRoot(cfg: Paths, respond: Probe.HttpTarget -> Wrappers.Option<int>)
    requires Probe.PlainHost(cfg.frontendHost)
    ensures var t := Probe.HttpTarget(cfg.frontendHost, cfg.frontendPort, "/");
            Probe.HttpOk(FrontendUrl(cfg), respond) <==> respond(t).Some? && Probe.Reachable(respond(t).value)
  {
    Probe.HttpOkOnBuiltUrl(cfg.frontendHost, cfg.frontendPort, "", respond);
  }

  // ---------- argument vectors ----------

  const CeleryApp := "scanner_backend.celery:app"

  /** Pools that run the worker on green threads and get the three "--without-*" flags. */
  predicate GreenPool(pool: string) {
    pool == "eventlet" || pool == "gevent"
  }

  /** `migrate_db`: run Django's migrations with the project's interpreter. */
  function MigrateArgs(cfg: Paths): (args: seq<string>)
    ensures |args| == 4 && args[0] == PythonExe(cfg) && args[1] == PathJoin(cfg.projectRoot, "manage.py")
    ensures args[2..] == ["migrate", "--noinput"]
  {
    [PythonExe(cfg), PathJoin(cfg.projectRoot, "manage.py"), "migrate", "--noinput"]
  }

  /** `ensure_redis`: a throw-away Redis 7 container publishing the configured port. */
  function RedisArgs(cfg: Paths): (args: seq<string>)
    ensures |args| == 13 && args[0] == cfg.dockerExe && args[|args| - 1] == "redis:7"
    ensures args[7] == IntToString(cfg.redisPort) + ":6379"
  {
    [cfg.dockerExe, "run", "--rm", "-d",
     "--name", cfg.redisDockerName,
     "-p", IntToString(cfg.redisPort) + ":6379",
     "--memory", cfg.dockerMemoryLimit,
     "--cpus", cfg.dockerCpuLimit,
     "redis:7"]
  }

  /** `start_daphne`: serve the ASGI application on the configured host and port. */
  function DaphneArgs(cfg: Paths): (args: seq<string>)
    ensures |args| == 6 && args[0] == DaphneExe(cfg) && args[1] == cfg.djangoAsgiApp
    ensures args[2] == "--port" && args[3] == IntToString(cfg.daphnePort)
    ensures args[4] == "--bind" && args[5] == cfg.daphneHost
  {
    var port := IntToString(cfg.daphnePort);
    [DaphneExe(cfg), cfg.djangoAsgiApp, "--port", port, "--bind", cfg.daphneHost]
  }

  /** `start_celery_beat`: the scheduler with its schedule file in the project root. */
  function BeatArgs(cfg: Paths): (args: seq<string>)
    ensures |args| == 8 && args[0] == CeleryExe(cfg) && args[3] == "beat"
    ensures args[6] == "-s" && args[7] == BeatSchedulePath(cfg)
  {
    [CeleryExe(cfg), "-A", CeleryApp, "beat", "-l", "info", "-s", BeatSchedulePath(cfg)]
  }

  /** The flags a green-thread pool adds to the worker's command line. */
  const GreenPoolFlags: seq<string> := ["--without-gossip", "--without-mingle", "--without-heartbeat"]

  /**
   * `start_celery_worker`: the worker on the configured queue, pool and concurrency; green-thread
   * pools, and only they, also switch gossip, mingle and heartbeat off.
   */
  function WorkerArgs(cfg: Paths): (args: seq<string>)
    ensures |args| >= 12 && args[0] == CeleryExe(cfg) && args[3] == "worker"
    ensures args[4] == "-Q" && args[5] == cfg.celeryQueue
    ensures args[8] == "-P" && args[9] == cfg.celeryPool
    ensures args[10] == "-c" && args[11] == IntToString(cfg.celeryConcurrency)
    ensures args[12..] == if GreenPool(cfg.celeryPool) then GreenPoolFlags else []
  {
    var base := [CeleryExe(cfg), "-A", CeleryApp, "worker",
                 "-Q", cfg.celeryQueue, "-l", "info",
                 "-P", cfg.celeryPool, "-c", IntToString(cfg.celeryConcurrency)];
    assert |base| == 12;
    base + (if GreenPool(cfg.celeryPool) then GreenPoolFlags else [])
  }

  /** `start_frontend`: the dev server pinned to the configured port ("--strictPort") and host. */
  function FrontendArgs(cfg: Paths): (args: seq<string>)
    ensures |args| == 9 && args[0] == cfg.npmExe && args[1..4] == ["run", "dev", "--"]
    ensures args[4] == "--port" && args[5] == IntToString(cfg.frontendPort)
    ensures args[6] == "--strictPort" && args[7] == "--host" && args[8] == cfg.frontendHost
  {
    var port := IntToString(cfg.frontendPort);
    [cfg.npmExe, "run", "dev", "--", "--port", port, "--strictPort", "--host", cfg.frontendHost]
  }

  /** The server reads back the configured port from its "--port" argument. */
  lemma DaphnePortReadsBack(cfg: Paths)
    ensures var args := DaphneArgs(cfg);
            args[2] == "--port" && ParseIntLiteral(args[3]) == Wrappers.Some(cfg.daphnePort)
  {
    IntToStringRoundTrip(cfg.daphnePort);
  }

  /** The worker reads back the configured concurrency from its "-c" argument. */
  lemma WorkerConcurrencyReadsBack(cfg: Paths)
    ensures var args := WorkerArgs(cfg);
            args[10] == "-c" && ParseIntLiteral(args[11]) == Wrappers.Some(cfg.celeryConcurrency)
  {
    IntToStringRoundTrip(cfg.celeryConcurrency);
  }

  /** The dev server reads back the configured port from its "--port" argument. */
  lemma FrontendPortReadsBack(cfg: Paths)
    ensures var args := FrontendArgs(cfg);
            args[4] == "--port" && ParseIntLiteral(args[5]) == Wrappers.Some(cfg.frontendPort)
  {
    IntToStringRoundTrip(cfg.frontendPort);
  }

  // ---------- start and stop order ----------

  /** The managed services. */
  datatype Service = Redis | Migrate | Daphne | CeleryBeat | CeleryWorker | Frontend

  /** The process-table key each service is spawned under. */
  function Key(s: Service): string {
    match s
    case Redis => "redis_docker"
    case Migrate => "migrate"
    case Daphne => "daphne"
    case CeleryBeat => "celery_beat"
    case CeleryWorker => "celery_worker"
    case Frontend => "frontend"
  }

  lemma KeysDistinct(s: Service, t: Service)
    ensures Key(s) == Key(t) <==> s == t
  {
  }

  /** How a stage is started: inline on the calling thread, or by a timer after `ms` milliseconds. */
  datatype Launch = Inline | After(ms: nat)

  datatype Stage = Stage(service: Service, launch: Launch)

  /** The timers of `start_backend`, and the frontend's that `start_all` adds. */
  function Timers(withFrontend: bool): seq<Stage> {
    [Stage(Daphne, After(1000)), Stage(CeleryBeat, After(1500)), Stage(CeleryWorker, After(2000))] +
    (if withFrontend then [Stage(Frontend, After(3000))] else [])
  }

  /**
   * A launch error other than a missing executable escapes `_spawn`, and with it the inline
   * stage that raised and the whole routine: no timer is started.
   */
  predicate Aborted(policy: string, redisEscaped: bool, migrateEscaped: bool) {
    redisEscaped || (policy == "always" && migrateEscaped)
  }

  /**
   * `start_backend` (`withFrontend` false) and `start_all` (true): Redis and, under the "always"
   * policy, migrations run inline; then timers started together fire the server after 1.0 s, the
   * scheduler after 1.5 s, the worker after 2.0 s and, for `start_all`, the frontend after 3.0 s.
   * `redisEscaped` and `migrateEscaped` say whether the inline stage's launch raised past `_spawn`.
   */
  function StartSchedule(policy: string, withFrontend: bool, redisEscaped: bool, migrateEscaped: bool): (st: seq<Stage>)
    ensures |st| > 0 && st[0] == Stage(Redis, Inline)
    ensures Stage(Migrate, Inline) in st <==> policy == "always" && !redisEscaped
    ensures forall t :: t in Timers(withFrontend) ==> (t in st <==> !Aborted(policy, redisEscaped, migrateEscaped))
    ensures Stage(Frontend, After(3000)) in st <==> withFrontend && !Aborted(policy, redisEscaped, migrateEscaped)
  {
    var inline := [Stage(Redis, Inline)] + (if policy == "always" then [Stage(Migrate, Inline)] else []);
    if redisEscaped then [Stage(Redis, Inline)]
    else if Aborted(policy, redisEscaped, migrateEscaped) then inline
    else inline + Timers(withFrontend)
  }

  /** Stage `a` is under way before stage `b` when `a` runs inline or both are timers and `a`'s is shorter. */
  predicate StartsBefore(a: Stage, b: Stage) {
    a.launch.Inline? || (b.launch.After? && a.launch.ms < b.launch.ms)
  }

  /** The schedule lists the stages in the order they start; a timer stage never precedes an inline one. */
  lemma ScheduleIsStartOrder(policy: string, withFrontend: bool, redisEscaped: bool, migrateEscaped: bool)
    ensures var st := StartSchedule(policy, withFrontend, redisEscaped, migrateEscaped);
            forall i, j :: 0 <= i < j < |st| ==> StartsBefore(st[i], st[j]) && !(st[i].launch.After? && st[j].launch.Inline?)
  {
  }

  /** Every service starts at most once. */
  lemma ScheduleStartsEachOnce(policy: string, withFrontend: bool, redisEscaped: bool, migrateEscaped: bool)
    ensures var st := StartSchedule(policy, withFrontend, redisEscaped, migrateEscaped);
            forall i, j :: 0 <= i < j < |st| ==> st[i].service != st[j].service
  {
  }

  /** Position of `k` in `s`, `|s|` when it is absent. */
  function IndexOf(s: seq<string>, k: string): (i: nat)
    ensures i <= |s| && (i < |s| ==> s[i] == k) && (forall j :: 0 <= j < i ==> s[j] != k)
  {
    if s == [] then 0 else if s[0] == k then 0 else 1 + IndexOf(s[1..], k)
  }

  /** `stop_all`'s fixed order. */
  const StopOrder: seq<string> := ["frontend", "celery_worker", "celery_beat", "daphne", "redis_docker", "migrate"]

  /** `stop_all` terminates every key a start routine can spawn. */
  lemma StopOrderCoversEveryService(s: Service)
    ensures Key(s) in StopOrder
  {
    StopRankIsPosition(s);
  }

  /** `stop_all` names each key once. */
  lemma StopOrderDistinct()
    ensures forall i, j :: 0 <= i < j < |StopOrder| ==> StopOrder[i] != StopOrder[j]
  {
  }

  /** The position of each service's key in `StopOrder`. */
  function StopRank(s: Service): nat {
    match s
    case Frontend => 0
    case CeleryWorker => 1
    case CeleryBeat => 2
    case Daphne => 3
    case Redis => 4
    case Migrate => 5
  }

  lemma StopRankIsPosition(s: Service)
    ensures StopRank(s) < |StopOrder| && StopOrder[StopRank(s)] == Key(s)
    ensures IndexOf(StopOrder, Key(s)) == StopRank(s)
  {
    var r := StopRank(s);
    assert StopOrder[r] == Key(s);
    assert forall j :: 0 <= j < r ==> StopOrder[j] != Key(s);
  }

  /**
   * Among the long-running services the shutdown is the exact reverse of the startup:
   * a stage started later is stopped earlier (`StopRank` is the position in `StopOrder`).
   */
  lemma StopReversesStart(policy: string, withFrontend: bool, redisEscaped: bool, migrateEscaped: bool)
    ensures var st := StartSchedule(policy, withFrontend, redisEscaped, migrateEscaped);
            forall i, j :: 0 <= i < j < |st| && st[i].service != Migrate && st[j].service != Migrate ==>
              StopRank(st[j].service) < StopRank(st[i].service)
  {
  }

  /**
   * The one-shot migration step is the exception: it starts after Redis but is stopped after it
   * too, so the whole order is not a strict reverse.
   */
  lemma MigrateNotReversed()
    ensures var st := StartSchedule("always", true, false, false);
            st[0].service == Redis && st[1].service == Migrate &&
            IndexOf(StopOrder, Key(Redis)) < IndexOf(StopOrder, Key(Migrate))
  {
    StopRankIsPosition(Redis);
    StopRankIsPosition(Migrate);
  }
}
