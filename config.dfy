/** Loading the settings file: its contents as YAML, with a default for each
    text setting left empty. Reading the file and decoding the YAML are done
    by the operating system and a library, so their outcomes are inputs. */
module Config {
  import opened Wrappers

  datatype UiConfig = UiConfig(branding: bool, position: string)
  datatype GitConfig = GitConfig(autoFetch: bool, defaultBranch: string)
  datatype Config = Config(ui: UiConfig, git: GitConfig)

  /** Go's zero `Config{}`, returned beside an error. */
  const ZeroConfig := Config(UiConfig(false, ""), GitConfig(false, ""))

  const DefaultPosition := "left"
  const DefaultBranch := "main"

  /** A decoded configuration with nothing left to default. */
  predicate Defaulted(cfg: Config) {
    cfg.ui.position != "" && cfg.git.defaultBranch != ""
  }

  /** The defaulting step as a value: an empty position becomes "left", an
      empty default branch "main", and everything else is kept. */
  function WithDefaults(cfg: Config): (r: Config)
    ensures Defaulted(r)
    ensures r.ui.branding == cfg.ui.branding && r.git.autoFetch == cfg.git.autoFetch
    ensures cfg.ui.position != "" ==> r.ui.position == cfg.ui.position
    ensures cfg.ui.position == "" ==> r.ui.position == DefaultPosition
    ensures cfg.git.defaultBranch != "" ==> r.git.defaultBranch == cfg.git.defaultBranch
    ensures cfg.git.defaultBranch == "" ==> r.git.defaultBranch == DefaultBranch
  {
    Config(UiConfig(cfg.ui.branding, if cfg.ui.position == "" then DefaultPosition else cfg.ui.position),
           GitConfig(cfg.git.autoFetch, if cfg.git.defaultBranch == "" then DefaultBranch else cfg.git.defaultBranch))
  }

  /** `LoadConfig`. `readErr` is the error reading the file gave, if any,
      and `decoded` the outcome of decoding what was read. A failure of either
      gives the zero configuration and the error, with no defaults applied;
      otherwise the decoded configuration with its defaults filled in. */
  method LoadConfig(readErr: Option<string>, decoded: Result<Config>) returns (cfg: Config, err: Option<string>)
    ensures readErr.Some? ==> cfg == ZeroConfig && err == readErr
    ensures readErr.None? && decoded.Err? ==> cfg == ZeroConfig && err == Some(decoded.error)
    ensures readErr.None? && decoded.Ok? ==> err.None? && cfg == WithDefaults(decoded.value)
  {
    if readErr.Some? {
      return ZeroConfig, readErr;
    }
    if decoded.Err? {
      return ZeroConfig, Some(decoded.error);
    }
    cfg := decoded.value;
    if cfg.ui.position == "" {
      cfg := cfg.(ui := cfg.ui.(position := DefaultPosition));
    }
    if cfg.git.defaultBranch == "" {
      cfg := cfg.(git := cfg.git.(defaultBranch := DefaultBranch));
    }
    err := None;
  }

  /** A configuration that needs no defaults is loaded exactly as decoded,
      and defaulting twice is defaulting once. */
  lemma DefaultsIdempotent(cfg: Config)
    ensures Defaulted(cfg) ==> WithDefaults(cfg) == cfg
    ensures WithDefaults(WithDefaults(cfg)) == WithDefaults(cfg)
  {
  }
}
