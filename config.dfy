/**
 * Configuration handling: the DEFAULTS table, `ConfigManager._migrate` (which turns whatever
 * the store held into exactly the current key set), `Paths._normalized_rel`, and the
 * Configure dialog's `_parse_port` / `_parse_int` validators. Only the POSIX defaults are modelled.
 */
module Config {
  import opened Wrappers
  import opened Text

  /** A stored configuration value, as JSON decoding produces it. */
  datatype Value =
    | VNull
    | VBool(b: bool)
    | VInt(i: int)
    | VReal(r: real)
    | VStr(s: string)
    | VComposite  // a JSON list or object

  /**
   * Python's `int(v)`: `None` where `int` raises. A bool is 0 or 1, a float is truncated
   * toward zero, and a string is read as `int` reads a decimal literal.
   */
  function CoerceInt(v: Value): (r: Option<int>)
    ensures v.VInt? ==> r == Some(v.i)
    ensures v.VBool? ==> r == Some(if v.b then 1 else 0)
    ensures v.VStr? ==> r == ParseIntLiteral(v.s)
    ensures v.VReal? ==> r.Some?
    ensures v.VReal? && v.r >= 0.0 ==> 0 <= r.value && r.value as real <= v.r < r.value as real + 1.0
    ensures v.VReal? && v.r < 0.0 ==> r.value <= 0 && r.value as real - 1.0 < v.r <= r.value as real
    ensures v.VNull? || v.VComposite? ==> r.None?
  {
    match v
    case VNull => None
    case VBool(b) => Some(if b then 1 else 0)
    case VInt(i) => Some(i)
    case VReal(x) => Some(if x >= 0.0 then x.Floor else -((-x).Floor))  // truncates toward zero
    case VStr(s) => ParseIntLiteral(s)
    case VComposite => None
  }

  /** The keys of DEFAULTS, in declaration order. */
  const DefaultKeys: seq<string> := [
    "PROJECT_ROOT", "FRONTEND_DIR", "NPM_EXE", "DOCKER_EXE",
    "DJANGO_ASGI_APP", "DAPHNE_HOST", "DAPHNE_PORT",
    "FRONTEND_HOST", "FRONTEND_PORT", "AUTO_OPEN_BROWSER",
    "REDIS_HOST", "REDIS_PORT", "REDIS_DOCKER_NAME",
    "FETCH_OPENAPI", "OPENAPI_REL",
    "CELERY_QUEUE", "CELERY_POOL", "CELERY_CONCURRENCY",
    "MIGRATION_POLICY",
    "DOCKER_MEMORY_LIMIT", "DOCKER_CPU_LIMIT"
  ]

  /** DEFAULTS on a POSIX host. */
  const Defaults: map<string, Value> := map[
    "PROJECT_ROOT" := VStr("/home/user/projects/scanner_backend"),
    "FRONTEND_DIR" := VStr("/home/user/projects/scanner_frontend"),
    "NPM_EXE" := VStr("/usr/bin/npm"),
    "DOCKER_EXE" := VStr("/usr/bin/docker"),
    "DJANGO_ASGI_APP" := VStr("scanner_backend.asgi:application"),
    "DAPHNE_HOST" := VStr("127.0.0.1"),
    "DAPHNE_PORT" := VInt(8070),
    "FRONTEND_HOST" := VStr("127.0.0.1"),
    "FRONTEND_PORT" := VInt(5178),
    "AUTO_OPEN_BROWSER" := VBool(true),
    "REDIS_HOST" := VStr("127.0.0.1"),
    "REDIS_PORT" := VInt(6379),
    "REDIS_DOCKER_NAME" := VStr("local-redis-7"),
    "FETCH_OPENAPI" := VBool(false),
    "OPENAPI_REL" := VStr("/api/schema/"),
    "CELERY_QUEUE" := VStr("ingestion"),
    "CELERY_POOL" := VStr("solo"),
    "CELERY_CONCURRENCY" := VInt(1),
    "MIGRATION_POLICY" := VStr("manual"),
    "DOCKER_MEMORY_LIMIT" := VStr("512m"),
    "DOCKER_CPU_LIMIT" := VReal(1.0)
  ]

  /** The keys `_migrate` forces to integers, in the order it visits them. */
  const IntKeys: seq<string> := ["DAPHNE_PORT", "FRONTEND_PORT", "REDIS_PORT", "CELERY_CONCURRENCY"]

  const PolicyKey := "MIGRATION_POLICY"
  const ManualPolicy := VStr("manual")
  const AlwaysPolicy := VStr("always")

  /** What the stages of `_migrate` rely on in a defaults table. */
  predicate WellFormedDefaults(defaults: map<string, Value>) {
    (forall k :: k in IntKeys ==> k in defaults && defaults[k].VInt?) &&
    PolicyKey in defaults && defaults[PolicyKey] == ManualPolicy &&
    "FRONTEND_HOST" in defaults && "FRONTEND_URL" !in defaults
  }

  lemma DefaultsWellFormed()
    ensures WellFormedDefaults(Defaults)
    ensures forall k :: k in DefaultKeys <==> k in Defaults
  {
  }

  /** What `urlparse` made of a legacy FRONTEND_URL value. */
  datatype UrlParse =
    | UrlRaised                                       // urlparse itself raised
    | Parsed(hostname: Option<string>, port: UrlPort)

  /** What reading `.port` of a parse result gave. */
  datatype UrlPort = NoPort | Port(n: int) | PortRaises

  // ---------- the stages of _migrate, as a specification ----------

  /** Start from the defaults and copy over every known key the store holds. */
  function CopyKnown(defaults: map<string, Value>, data: map<string, Value>): (r: map<string, Value>)
    ensures r.Keys == defaults.Keys
    ensures forall k :: k in r ==> r[k] == if k in data then data[k] else defaults[k]
  {
    map k | k in defaults :: if k in data then data[k] else defaults[k]
  }

  /** The hostname a stored legacy FRONTEND_URL supplies: `urlparse` did not raise and gave a truthy one. */
  function LegacyHost(data: map<string, Value>, legacy: UrlParse): (h: Option<string>)
    ensures h.Some? <==> "FRONTEND_URL" in data && legacy.Parsed? && legacy.hostname.Some? && legacy.hostname.value != ""
    ensures h.Some? ==> h == legacy.hostname
  {
    if "FRONTEND_URL" in data && legacy.Parsed? && legacy.hostname.Some? && legacy.hostname.value != "" then legacy.hostname
    else None
  }

  /** The port a stored legacy FRONTEND_URL supplies: `.port` was read without raising and is non-zero. */
  function LegacyPort(data: map<string, Value>, legacy: UrlParse): (p: Option<int>)
    ensures p.Some? <==> "FRONTEND_URL" in data && legacy.Parsed? && legacy.port.Port? && legacy.port.n != 0
    ensures p.Some? ==> p.value == legacy.port.n
  {
    if "FRONTEND_URL" in data && legacy.Parsed? && legacy.port.Port? && legacy.port.n != 0 then Some(legacy.port.n)
    else None
  }

  /** The legacy FRONTEND_URL fallback: a truthy hostname and a truthy port override the split keys. */
  function WithLegacyUrl(m: map<string, Value>, data: map<string, Value>, legacy: UrlParse): (r: map<string, Value>)
    requires "FRONTEND_HOST" in m && "FRONTEND_PORT" in m
    ensures r.Keys == m.Keys
    ensures forall k :: k in m && k != "FRONTEND_HOST" && k != "FRONTEND_PORT" ==> r[k] == m[k]
    ensures "FRONTEND_URL" !in data || legacy.UrlRaised? ==> r == m
    ensures r["FRONTEND_HOST"] == if LegacyHost(data, legacy).Some? then VStr(LegacyHost(data, legacy).value) else m["FRONTEND_HOST"]
    ensures r["FRONTEND_PORT"] == if LegacyPort(data, legacy).Some? then VInt(LegacyPort(data, legacy).value) else m["FRONTEND_PORT"]
  {
    if "FRONTEND_URL" !in data then m
    else
      match legacy
      case UrlRaised => m
      case Parsed(host, port) =>
        var m1 := if host.Some? && host.value != "" then m["FRONTEND_HOST" := VStr(host.value)] else m;
        if port.Port? && port.n != 0 then m1["FRONTEND_PORT" := VInt(port.n)] else m1
  }

  /** The value an integer key ends with: `int(v)`, or the default's when `int` raises. */
  function CoercedInt(defaults: map<string, Value>, k: string, v: Value): Value
    requires WellFormedDefaults(defaults) && k in IntKeys
  {
    VInt(CoerceInt(v).GetOr(defaults[k].i))
  }

  /** Force the first `n` integer keys to integers. */
  function CoerceInts(defaults: map<string, Value>, m: map<string, Value>, n: nat): (r: map<string, Value>)
    requires WellFormedDefaults(defaults) && n <= |IntKeys|
    ensures r.Keys == m.Keys
    ensures forall k :: k in r && k in IntKeys[..n] ==> r[k].VInt?
    ensures forall k :: k in r && k !in IntKeys[..n] ==> r[k] == m[k]
  {
    map k | k in m :: if k in IntKeys[..n] then CoercedInt(defaults, k, m[k]) else m[k]
  }

  /**
   * What an integer key holds after the integer pass: `int` of the stored value when `int`
   * accepts it (so the text "8080" that `str` printed loads as 8080), and the default otherwise.
   */
  lemma CoercedIntKey(defaults: map<string, Value>, m: map<string, Value>, n: nat, k: string)
    requires WellFormedDefaults(defaults) && n <= |IntKeys|
    requires k in m && k in IntKeys[..n]
    ensures CoerceInt(m[k]).Some? ==> CoerceInts(defaults, m, n)[k] == VInt(CoerceInt(m[k]).value)
    ensures CoerceInt(m[k]).None? ==> CoerceInts(defaults, m, n)[k] == defaults[k]
    ensures forall i :: m[k] == VStr(IntToString(i)) ==> CoerceInts(defaults, m, n)[k] == VInt(i)
  {
    assert k in IntKeys;
    forall i | m[k] == VStr(IntToString(i))
      ensures CoerceInts(defaults, m, n)[k] == VInt(i)
    {
      IntToStringRoundTrip(i);
    }
  }

  /** Replace a migration policy other than "manual" or "always" by the default. */
  function FixPolicy(m: map<string, Value>): (r: map<string, Value>)
    ensures r.Keys == m.Keys + {PolicyKey}
    ensures r[PolicyKey] == ManualPolicy || r[PolicyKey] == AlwaysPolicy
    ensures PolicyKey in m && (m[PolicyKey] == ManualPolicy || m[PolicyKey] == AlwaysPolicy) ==> r[PolicyKey] == m[PolicyKey]
    ensures forall k :: k in m && k != PolicyKey ==> r[k] == m[k]
  {
    if PolicyKey in m && (m[PolicyKey] == ManualPolicy || m[PolicyKey] == AlwaysPolicy) then m
    else m[PolicyKey := ManualPolicy]
  }

  /** FRONTEND_HOST after migration: the legacy URL's hostname, else the stored value, else the default. */
  function FrontendHostFrom(defaults: map<string, Value>, data: map<string, Value>, legacy: UrlParse): Value
    requires "FRONTEND_HOST" in defaults
  {
    if LegacyHost(data, legacy).Some? then VStr(LegacyHost(data, legacy).value)
    else if "FRONTEND_HOST" in data then data["FRONTEND_HOST"] else defaults["FRONTEND_HOST"]
  }

  /** The stored values over the DEFAULTS keys, with the legacy FRONTEND_URL applied. */
  function Copied(defaults: map<string, Value>, data: map<string, Value>, legacy: UrlParse): (r: map<string, Value>)
    requires WellFormedDefaults(defaults)
    ensures r.Keys == defaults.Keys
    ensures forall k :: k in r && k != "FRONTEND_HOST" && k != "FRONTEND_PORT" ==>
              r[k] == if k in data then data[k] else defaults[k]
    ensures r["FRONTEND_HOST"] == FrontendHostFrom(defaults, data, legacy)
    ensures LegacyPort(data, legacy).None? ==>
              r["FRONTEND_PORT"] == if "FRONTEND_PORT" in data then data["FRONTEND_PORT"] else defaults["FRONTEND_PORT"]
    ensures LegacyPort(data, legacy).Some? ==> r["FRONTEND_PORT"] == VInt(LegacyPort(data, legacy).value)
  {
    WithLegacyUrl(CopyKnown(defaults, data), data, legacy)
  }

  /** `Copied` after the integer pass. */
  function Coerced(defaults: map<string, Value>, data: map<string, Value>, legacy: UrlParse): (r: map<string, Value>)
    requires WellFormedDefaults(defaults)
    ensures r.Keys == defaults.Keys
    ensures forall k :: k in IntKeys ==> r[k].VInt?
    ensures forall k :: k in r && k !in IntKeys && k != "FRONTEND_HOST" ==>
              r[k] == if k in data then data[k] else defaults[k]
    ensures r["FRONTEND_HOST"] == FrontendHostFrom(defaults, data, legacy)
  {
    assert IntKeys[..|IntKeys|] == IntKeys;
    var copied := Copied(defaults, data, legacy);
    assert "FRONTEND_HOST" in copied && "FRONTEND_HOST" !in IntKeys;
    CoerceInts(defaults, copied, |IntKeys|)
  }

  /** The result of `_migrate` against a given defaults table. */
  function MigratedFrom(defaults: map<string, Value>, data: map<string, Value>, legacy: UrlParse): (r: map<string, Value>)
    requires WellFormedDefaults(defaults)
    ensures r.Keys == defaults.Keys
    ensures forall k :: k in IntKeys ==> r[k].VInt?
    ensures r[PolicyKey] == ManualPolicy || r[PolicyKey] == AlwaysPolicy
    ensures PolicyKey in data && (data[PolicyKey] == ManualPolicy || data[PolicyKey] == AlwaysPolicy) ==>
              r[PolicyKey] == data[PolicyKey]
    ensures forall k :: k in r && k !in IntKeys && k != PolicyKey && k != "FRONTEND_HOST" ==>
              r[k] == if k in data then data[k] else defaults[k]
    ensures r["FRONTEND_HOST"] == FrontendHostFrom(defaults, data, legacy)
  {
    FixPolicy(Coerced(defaults, data, legacy))
  }

  /**
   * What an integer key holds after `_migrate`: a truthy legacy port for FRONTEND_PORT, and
   * otherwise `int` of the stored value (or of the default, when nothing is stored), falling
   * back to the default where `int` raises. A stored integer survives unchanged.
   */
  lemma MigratedIntKey(defaults: map<string, Value>, data: map<string, Value>, legacy: UrlParse, k: string)
    requires WellFormedDefaults(defaults) && k in IntKeys
    ensures var stored := if k in data then data[k] else defaults[k];
            var r := MigratedFrom(defaults, data, legacy);
            var overridden := k == "FRONTEND_PORT" && LegacyPort(data, legacy).Some?;
            (overridden ==> r[k] == VInt(LegacyPort(data, legacy).value)) &&
            (!overridden ==> r[k] == VInt(CoerceInt(stored).GetOr(defaults[k].i))) &&
            (!overridden && stored.VInt? ==> r[k] == stored)
  {
    var copied := Copied(defaults, data, legacy);
    assert IntKeys[..|IntKeys|] == IntKeys;
    var coerced := CoerceInts(defaults, copied, |IntKeys|);
    assert coerced == Coerced(defaults, data, legacy);
    assert k in copied && coerced[k] == CoercedInt(defaults, k, copied[k]);
    assert k != PolicyKey;
  }

  /**
   * What `_migrate(data)` returns, given what `urlparse` makes of FRONTEND_URL: exactly the keys
   * of DEFAULTS, integers under the integer keys and a known migration policy, whatever was stored.
   */
  function Migrated(data: map<string, Value>, legacy: UrlParse): (r: map<string, Value>)
    ensures forall k :: k in r <==> k in DefaultKeys
    ensures forall k :: k in IntKeys ==> k in r && r[k].VInt?
    ensures PolicyKey in r && (r[PolicyKey] == ManualPolicy || r[PolicyKey] == AlwaysPolicy)
  {
    DefaultsWellFormed();
    MigratedFrom(Defaults, data, legacy)
  }

  /** A migrated configuration migrates to itself: loading what was saved changes nothing. */
  lemma {:induction false} MigratedFromIdempotent(defaults: map<string, Value>, data: map<string, Value>,
                                                  legacy: UrlParse, legacy2: UrlParse)
    requires WellFormedDefaults(defaults)
    ensures MigratedFrom(defaults, MigratedFrom(defaults, data, legacy), legacy2) == MigratedFrom(defaults, data, legacy)
  {
    var m := MigratedFrom(defaults, data, legacy);
    var copied := CopyKnown(defaults, m);
    assert copied == m;
    assert "FRONTEND_URL" !in m;
    assert WithLegacyUrl(copied, m, legacy2) == m;
    CoerceIntsFixes(defaults, m);
  }

  /** Coercing a table whose integer keys already hold integers changes nothing. */
  lemma CoerceIntsFixes(defaults: map<string, Value>, m: map<string, Value>)
    requires WellFormedDefaults(defaults)
    requires forall k :: k in IntKeys ==> k in m && m[k].VInt?
    ensures CoerceInts(defaults, m, |IntKeys|) == m
  {
    assert IntKeys[..|IntKeys|] == IntKeys;
    var c := CoerceInts(defaults, m, |IntKeys|);
    forall k | k in c ensures c[k] == m[k] {
      if k in IntKeys {
        assert CoerceInt(m[k]) == Some(m[k].i);
      }
    }
  }

  /** A well-formed defaults table is already migrated. */
  lemma {:induction false} DefaultsFixed(defaults: map<string, Value>, legacy: UrlParse)
    requires WellFormedDefaults(defaults)
    ensures MigratedFrom(defaults, defaults, legacy) == defaults
  {
    var copied := CopyKnown(defaults, defaults);
    assert copied == defaults;
    assert WithLegacyUrl(copied, defaults, legacy) == defaults;
    CoerceIntsFixes(defaults, defaults);
  }

  /** `_migrate` over DEFAULTS: idempotent, and DEFAULTS is its own migration. */
  lemma MigratedIdempotent(data: map<string, Value>, legacy: UrlParse, legacy2: UrlParse)
    ensures Migrated(Migrated(data, legacy), legacy2) == Migrated(data, legacy)
    ensures Migrated(Defaults, legacy) == Defaults
  {
    DefaultsWellFormed();
    MigratedFromIdempotent(Defaults, data, legacy, legacy2);
    DefaultsFixed(Defaults, legacy);
  }

  /** The first loop of `_migrate`: DEFAULTS overlaid with the known keys of `data`. */
  method CopyKnownKeys(defaults: map<string, Value>, defaultKeys: seq<string>, data: map<string, Value>)
    returns (migrated: map<string, Value>)
    requires forall k :: k in defaultKeys <==> k in defaults
    ensures migrated == CopyKnown(defaults, data)
  {
    migrated := defaults;
    var i := 0;
    while i < |defaultKeys|
      invariant 0 <= i <= |defaultKeys|
      invariant migrated.Keys == defaults.Keys
      invariant forall k :: k in migrated ==>
                  migrated[k] == if k in data && k in defaultKeys[..i] then data[k] else defaults[k]
    {
      var k := defaultKeys[i];
      if k in data {
        migrated := migrated[k := data[k]];
      }
      i := i + 1;
    }
    assert defaultKeys[..i] == defaultKeys;
  }

  /** The second loop of `_migrate`: `int()` each integer key, falling back to its default. */
  method CoerceIntKeys(defaults: map<string, Value>, m: map<string, Value>) returns (migrated: map<string, Value>)
    requires WellFormedDefaults(defaults)
    requires forall k :: k in IntKeys ==> k in m
    ensures migrated == CoerceInts(defaults, m, |IntKeys|)
  {
    migrated := m;
    var j := 0;
    while j < |IntKeys|
      invariant 0 <= j <= |IntKeys|
      invariant migrated == CoerceInts(defaults, m, j)
    {
      var k := IntKeys[j];
      CoerceIntsStep(defaults, m, j);
      migrated := migrated[k := VInt(CoerceInt(migrated[k]).GetOr(defaults[k].i))];
      j := j + 1;
    }
  }

  /** One more integer key coerced: the table so far, with that key's value coerced. */
  lemma CoerceIntsStep(defaults: map<string, Value>, m: map<string, Value>, j: nat)
    requires WellFormedDefaults(defaults) && j < |IntKeys| && IntKeys[j] in m
    ensures var k := IntKeys[j];
            CoerceInts(defaults, m, j)[k] == m[k] &&
            CoerceInts(defaults, m, j + 1) == CoerceInts(defaults, m, j)[k := CoercedInt(defaults, k, m[k])]
  {
    var k := IntKeys[j];
    assert IntKeys[..j + 1] == IntKeys[..j] + [k];
    assert k !in IntKeys[..j];
  }

  /** The FRONTEND_URL fallback of `_migrate`, applied to the copied table. */
  method ApplyLegacyUrl(m: map<string, Value>, data: map<string, Value>, legacy: UrlParse)
    returns (migrated: map<string, Value>)
    requires "FRONTEND_HOST" in m && "FRONTEND_PORT" in m
    ensures migrated == WithLegacyUrl(m, data, legacy)
  {
    migrated := m;
    if "FRONTEND_URL" in data {
      match legacy {
        case UrlRaised =>
        case Parsed(host, port) =>
          if host.Some? && host.value != "" {
            migrated := migrated["FRONTEND_HOST" := VStr(host.value)];
          }
          if port.Port? && port.n != 0 {
            migrated := migrated["FRONTEND_PORT" := VInt(port.n)];
          }
      }
    }
  }

  /**
   * `ConfigManager._migrate`. The DEFAULTS table and its key order are passed in
   * (`Defaults` and `DefaultKeys`, see `DefaultsWellFormed`).
   */
  method Migrate(defaults: map<string, Value>, defaultKeys: seq<string>, data: map<string, Value>, legacy: UrlParse)
    returns (migrated: map<string, Value>)
    requires WellFormedDefaults(defaults)
    requires forall k :: k in defaultKeys <==> k in defaults
    ensures migrated == MigratedFrom(defaults, data, legacy)
  {
    var copied := CopyKnownKeys(defaults, defaultKeys, data);
    var withUrl := ApplyLegacyUrl(copied, data, legacy);
    var coerced := CoerceIntKeys(defaults, withUrl);
    migrated := coerced;
    if !(migrated[PolicyKey] == ManualPolicy || migrated[PolicyKey] == AlwaysPolicy) {
      migrated := migrated[PolicyKey := ManualPolicy];
    }
    assert migrated == FixPolicy(coerced);
  }

  // ---------- Paths._normalized_rel ----------

  /** A relative URL path with a leading "/" forced onto it; the empty path becomes "/". */
  function NormalizedRel(p: string): (r: string)
    ensures |r| > 0 && r[0] == '/'
    ensures r == p || r == "/" + p
    ensures r == p <==> |p| > 0 && p[0] == '/'
  {
    if p == "" then "/"
    else if p[0] == '/' then p
    else "/" + p
  }

  /** Normalising twice is normalising once. */
  lemma NormalizedRelIdempotent(p: string)
    ensures NormalizedRel(NormalizedRel(p)) == NormalizedRel(p)
  {
  }

  // ---------- ConfigDialog._parse_port / _parse_int ----------

  /** Python's `repr` of a string without quotes or backslashes in it. */
  function Quoted(s: string): string {
    "'" + s + "'"
  }

  function PortError(name: string, value: string): string {
    name + " must be an integer between 1 and 65535 (got " + Quoted(value) + ")."
  }

  function MinError(name: string, value: string, minV: int): string {
    name + " must be an integer ≥ " + IntToString(minV) + " (got " + Quoted(value) + ")."
  }

  /** `_parse_port`: the port and the error list with the message it may have appended. */
  function ParsePort(name: string, value: string, errs: seq<string>): (r: (int, seq<string>))
    ensures (1 <= r.0 <= 65535 && r.1 == errs) || (r.0 == 0 && r.1 == errs + [PortError(name, value)])
    ensures r.0 != 0 <==> ParseIntLiteral(value).Some? && 1 <= ParseIntLiteral(value).value <= 65535
    ensures r.0 != 0 ==> ParseIntLiteral(value) == Some(r.0)
  {
    match ParseIntLiteral(value)
    case Some(p) => if 1 <= p <= 65535 then (p, errs) else (0, errs + [PortError(name, value)])
    case None => (0, errs + [PortError(name, value)])
  }

  /** A port the dialog itself printed with `str` is accepted unchanged. */
  lemma ParsePortRoundTrip(name: string, port: int, errs: seq<string>)
    requires 1 <= port <= 65535
    ensures ParsePort(name, IntToString(port), errs) == (port, errs)
  {
    IntToStringRoundTrip(port);
  }

  /** `_parse_int`: an integer at least `minV`, or 0 and one appended message. */
  function ParseIntAtLeast(name: string, value: string, minV: int, errs: seq<string>): (r: (int, seq<string>))
    ensures (r.0 >= minV && r.1 == errs && ParseIntLiteral(value) == Some(r.0)) ||
            (r.0 == 0 && r.1 == errs + [MinError(name, value, minV)])
    ensures r.1 == errs <==> ParseIntLiteral(value).Some? && ParseIntLiteral(value).value >= minV
  {
    match ParseIntLiteral(value)
    case Some(v) => if v >= minV then (v, errs) else (0, errs + [MinError(name, value, minV)])
    case None => (0, errs + [MinError(name, value, minV)])
  }
}
