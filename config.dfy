/** The decoded configuration file and the defaults the package falls back to. */
module Config {
  import opened Int64s

  /** The fields of the TOML configuration: sink mode, log root, base file name and retention. */
  datatype LogConfig = LogConfig(mode: string, path: string, name: string, maxDays: Int64)

  /** The package-level configuration before any successful decode. */
  const ZERO_CONFIG: LogConfig := LogConfig("", "", "", 0)

  const DEV_MODE: string := "dev"
  const DEFAULT_PATH: string := "./log"
  const DEFAULT_NAME: string := "log"
  const DEFAULT_MAX_DAYS: Int64 := 28

  /** conf(): the log root and the base file name, each empty field replaced by its default
      independently of the other. */
  function Conf(c: LogConfig): (r: (string, string))
    ensures r.0 != "" && r.1 != ""
    ensures r.0 == (if c.path != "" then c.path else DEFAULT_PATH)
    ensures r.1 == (if c.name != "" then c.name else DEFAULT_NAME)
  {
    var lpath := if c.path != "" then c.path else DEFAULT_PATH;
    var name := if c.name != "" then c.name else DEFAULT_NAME;
    (lpath, name)
  }

  /** The retention the sweep uses: MaxDays, or 28 when it is zero; never clamped. */
  function RetentionDays(c: LogConfig): (r: Int64)
    ensures r != 0
    ensures c.maxDays != 0 ==> r == c.maxDays
    ensures c.maxDays == 0 ==> r == DEFAULT_MAX_DAYS
  {
    if c.maxDays != 0 then c.maxDays else DEFAULT_MAX_DAYS
  }

  /** Feeding conf()'s answer back in as the configuration changes nothing: the defaults are
      only ever substituted for empty fields, and the defaults are not empty. */
  lemma ConfIsFixpoint(c: LogConfig)
    ensures Conf(c.(path := Conf(c).0, name := Conf(c).1)) == Conf(c)
    ensures RetentionDays(c.(maxDays := RetentionDays(c))) == RetentionDays(c)
  {
  }

  /** The path answer depends only on Path and the name answer only on Name. */
  lemma ConfFieldsIndependent(c: LogConfig, d: LogConfig)
    ensures c.path == d.path ==> Conf(c).0 == Conf(d).0
    ensures c.name == d.name ==> Conf(c).1 == Conf(d).1
  {
  }
}
