/** The order in which a production host is searched for a browser binary
    and a matching driver binary. The host is an oracle: which paths are
    files, what the environment holds, and whether starting the browser
    from a given pair of paths succeeds. */
module Provisioning {
  import opened Common

  datatype Config = Config(name: string, browser: string, driver: string)

  datatype Host = Host(
    isFile: string -> bool,
    env: string -> Option<string>,
    launches: (string, string) -> bool)

  /** The browser and driver paths a started session uses. */
  datatype Launch = Launch(browser: string, driver: string)

  const DefaultBrowser: string := "/usr/bin/google-chrome-stable"
  const DefaultDriver: string := "/usr/local/bin/chromedriver"

  /** `os.getenv(name, default)`. */
  function EnvOr(host: Host, name: string, default: string): string {
    match host.env(name)
    case Some(v) => v
    case None => default
  }

  /** The six named configurations, in the order they are tried; the third
      takes its paths from `CHROME_BIN` and `CHROMEDRIVER_PATH`. */
  function Configs(host: Host): (cs: seq<Config>)
    ensures |cs| == 6
    ensures cs[2].browser == EnvOr(host, "CHROME_BIN", DefaultBrowser)
    ensures cs[2].driver == EnvOr(host, "CHROMEDRIVER_PATH", DefaultDriver)
  {
    [
      Config("Buildpack Google Chrome",
             "/app/.heroku-buildpack-google-chrome/opt/google/chrome/chrome",
             "/app/.chromedriver/bin/chromedriver"),
      Config("Buildpack Chrome Alt", "/app/.google-chrome/chrome", "/app/.chromedriver/chromedriver"),
      Config("Variables Entorno",
             EnvOr(host, "CHROME_BIN", DefaultBrowser),
             EnvOr(host, "CHROMEDRIVER_PATH", DefaultDriver)),
      Config("Sistema Linux", "/usr/bin/google-chrome-stable", "/usr/bin/chromedriver"),
      Config("Chrome gen\U{E9}rico", "/usr/bin/google-chrome", "/usr/local/bin/chromedriver"),
      Config("Chromium respaldo", "/usr/bin/chromium-browser", "/usr/bin/chromedriver")
    ]
  }

  /** Browser paths of the dynamic search, in order. */
  const BrowserSearch: seq<string> := [
    "/app/.heroku-buildpack-google-chrome/opt/google/chrome/chrome",
    "/app/.google-chrome/chrome",
    "/usr/bin/google-chrome-stable",
    "/usr/bin/google-chrome",
    "/usr/bin/chromium-browser"
  ]

  /** Driver paths of the dynamic search, in order. */
  const DriverSearch: seq<string> := [
    "/app/.chromedriver/bin/chromedriver",
    "/app/.chromedriver/chromedriver",
    "/usr/bin/chromedriver",
    "/usr/local/bin/chromedriver"
  ]

  const ProvisioningError: string :=
    "\U{274C} CR\U{CD}TICO: No se pudo configurar Chrome en ninguna configuraci\U{F3}n de producci\U{F3}n"

  /** A configuration is taken when both of its files exist and the browser
      starts from them; a failed start moves on to the next one. */
  predicate Usable(host: Host, c: Config) {
    host.isFile(c.browser) && host.isFile(c.driver) && host.launches(c.browser, c.driver)
  }

  /** The first usable configuration. */
  function FirstUsable(host: Host, cs: seq<Config>): (r: Option<Launch>)
    ensures r.None? <==> forall k :: 0 <= k < |cs| ==> !Usable(host, cs[k])
    ensures r.Some? ==> exists k :: 0 <= k < |cs| && Usable(host, cs[k])
                                   && r.value == Launch(cs[k].browser, cs[k].driver)
                                   && forall j :: 0 <= j < k ==> !Usable(host, cs[j])
    decreases |cs|
  {
    if cs == [] then None
    else if Usable(host, cs[0]) then Some(Launch(cs[0].browser, cs[0].driver))
    else
      var r := FirstUsable(host, cs[1..]);
      assert forall k :: 1 <= k <= |cs[1..]| ==> cs[k] == cs[1..][k - 1];
      r
  }

  /** Index of the first existing path, or `|paths|` when none exists. */
  function FirstExisting(host: Host, paths: seq<string>): (k: nat)
    ensures k <= |paths|
    ensures forall j :: 0 <= j < k ==> !host.isFile(paths[j])
    ensures k < |paths| ==> host.isFile(paths[k])
    decreases |paths|
  {
    if paths == [] then 0
    else if host.isFile(paths[0]) then 0
    else 1 + FirstExisting(host, paths[1..])
  }

  /** The last resort: the first existing browser and, chosen on its own,
      the first existing driver. */
  function DynamicSearch(host: Host): (r: Option<Launch>)
    ensures r.Some? ==> host.isFile(r.value.browser) && host.isFile(r.value.driver)
                        && host.launches(r.value.browser, r.value.driver)
    ensures r.Some? ==> r.value.browser in BrowserSearch && r.value.driver in DriverSearch
    ensures var b := FirstExisting(host, BrowserSearch);
            var d := FirstExisting(host, DriverSearch);
            && (r.Some? <==> b < |BrowserSearch| && d < |DriverSearch| && host.launches(BrowserSearch[b], DriverSearch[d]))
            && (r.Some? ==> r.value == Launch(BrowserSearch[b], DriverSearch[d]))
  {
    var b := FirstExisting(host, BrowserSearch);
    var d := FirstExisting(host, DriverSearch);
    if b < |BrowserSearch| && d < |DriverSearch| && host.launches(BrowserSearch[b], DriverSearch[d]) then
      Some(Launch(BrowserSearch[b], DriverSearch[d]))
    else None
  }

  /** The whole production set-up. */
  function Provision(host: Host): (r: Result<Launch, string>)
    ensures r.Ok? ==> host.isFile(r.value.browser) && host.isFile(r.value.driver)
                      && host.launches(r.value.browser, r.value.driver)
    ensures r.Err? <==> FirstUsable(host, Configs(host)).None? && DynamicSearch(host).None?
    ensures r.Err? ==> r.error == ProvisioningError
    ensures FirstUsable(host, Configs(host)).Some? ==> r == Ok(FirstUsable(host, Configs(host)).value)
    ensures FirstUsable(host, Configs(host)).None? && DynamicSearch(host).Some? ==> r == Ok(DynamicSearch(host).value)
  {
    match FirstUsable(host, Configs(host))
    case Some(l) => Ok(l)
    case None =>
      match DynamicSearch(host)
      case Some(l) => Ok(l)
      case None => Err(ProvisioningError)
  }

  method FindExisting(host: Host, paths: seq<string>) returns (k: nat)
    ensures k == FirstExisting(host, paths)
  {
    k := 0;
    while k < |paths|
      invariant k <= |paths|
      invariant forall j :: 0 <= j < k ==> !host.isFile(paths[j])
    {
      if host.isFile(paths[k]) {
        return;
      }
      k := k + 1;
    }
  }

  /** The configuration loop followed by the dynamic search. */
  method SetupProductionChrome(host: Host) returns (r: Result<Launch, string>)
    ensures r == Provision(host)
  {
    var cs := Configs(host);
    var i := 0;
    while i < |cs|
      invariant 0 <= i <= |cs|
      invariant FirstUsable(host, cs[i..]) == FirstUsable(host, cs)
    {
      var c := cs[i];
      if host.isFile(c.browser) && host.isFile(c.driver) && host.launches(c.browser, c.driver) {
        return Ok(Launch(c.browser, c.driver));
      }
      assert cs[i..][1..] == cs[i + 1..];
      i := i + 1;
    }
    var b := FindExisting(host, BrowserSearch);
    var d := FindExisting(host, DriverSearch);
    if b < |BrowserSearch| && d < |DriverSearch| && host.launches(BrowserSearch[b], DriverSearch[d]) {
      return Ok(Launch(BrowserSearch[b], DriverSearch[d]));
    }
    return Err(ProvisioningError);
  }

  /** A configuration is never passed over for a later one when it is
      usable: the earliest usable configuration is the one started. */
  lemma EarliestUsableWins(host: Host, k: nat)
    requires k < 6 && Usable(host, Configs(host)[k])
    requires forall j :: 0 <= j < k ==> !Usable(host, Configs(host)[j])
    ensures Provision(host) == Ok(Launch(Configs(host)[k].browser, Configs(host)[k].driver))
  {
    var cs := Configs(host);
    var r := FirstUsable(host, cs);
    var w :| 0 <= w < |cs| && Usable(host, cs[w]) && r.value == Launch(cs[w].browser, cs[w].driver)
             && forall j :: 0 <= j < w ==> !Usable(host, cs[j]);
    assert w == k;
  }

  /** The dynamic search chooses the browser and the driver independently,
      so it can start a pair that no configuration lists: a host with only
      a Chromium binary and a buildpack driver, and neither environment
      variable set, gets exactly that pair. */
  lemma DynamicPairsIndependently(host: Host)
    requires host.env("CHROME_BIN").None? && host.env("CHROMEDRIVER_PATH").None?
    requires forall p :: host.isFile(p) <==> p == "/usr/bin/chromium-browser" || p == "/app/.chromedriver/bin/chromedriver"
    requires forall b, d :: host.launches(b, d)
    ensures Provision(host) == Ok(Launch("/usr/bin/chromium-browser", "/app/.chromedriver/bin/chromedriver"))
    ensures forall k :: 0 <= k < 6 ==> Configs(host)[k] != Config(Configs(host)[k].name, "/usr/bin/chromium-browser", "/app/.chromedriver/bin/chromedriver")
  {
    var cs := Configs(host);
    assert !host.isFile(DefaultBrowser);
    assert !host.isFile("/usr/bin/chromedriver");
    assert FirstExisting(host, BrowserSearch) == 4;
    assert FirstExisting(host, DriverSearch) == 0;
    assert forall k :: 0 <= k < 6 ==> !Usable(host, cs[k]);
  }
}
