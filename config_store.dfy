/** The part of `configparser.ConfigParser` the client reads: named sections of string
    options, plus the special `DEFAULT` section whose options every section inherits. */
module ConfigStore {
  import opened PyRuntime

  /** One section's options, as a `SectionProxy` presents them. */
  type Section = map<string, string>

  const DefaultSectionName := "DEFAULT"

  /** A parsed configuration file. `sections` never holds `DEFAULT` in a parse; if it
      did, `SectionView` would ignore that entry, as ConfigParser does. */
  datatype Config = Config(defaults: Section, sections: map<string, Section>)

  /** What `ConfigParser()` holds before (or without) reading a file. */
  const EmptyConfig := Config(map[], map[])

  /** `config[name]`: `None` is the `KeyError`. A section sees its own options and,
      under the other keys, the options of `DEFAULT`. */
  function SectionView(cfg: Config, name: string): (r: Option<Section>)
    ensures r.Some? <==> name == DefaultSectionName || name in cfg.sections
    ensures r.Some? ==>
      r.value.Keys == cfg.defaults.Keys + (if name == DefaultSectionName then {} else cfg.sections[name].Keys)
    ensures r.Some? && name != DefaultSectionName ==>
      forall k :: k in cfg.sections[name] ==> r.value[k] == cfg.sections[name][k]
    ensures r.Some? ==>
      forall k :: k in cfg.defaults && (name == DefaultSectionName || k !in cfg.sections[name]) ==>
        r.value[k] == cfg.defaults[k]
  {
    if name == DefaultSectionName then Some(cfg.defaults)
    else if name in cfg.sections then Some(cfg.defaults + cfg.sections[name])
    else None
  }

  /** `config[section][key]`, raising `KeyError` for a missing section or option. */
  function Lookup(cfg: Config, section: string, key: string): (r: Result<string>)
    ensures SectionView(cfg, section).None? ==> r == Err(KeyError(section))
    ensures SectionView(cfg, section).Some? ==>
      (r.Ok? <==> key in SectionView(cfg, section).value)
    ensures r.Ok? ==> r.value == SectionView(cfg, section).value[key]
    ensures r.Err? && SectionView(cfg, section).Some? ==> r == Err(KeyError(key))
  {
    match SectionView(cfg, section)
    case None => Err(KeyError(section))
    case Some(s) => if key in s then Ok(s[key]) else Err(KeyError(key))
  }

  /** `config[section][key]` in terms of the parsed file: a missing section raises
      KeyError(section); otherwise the section's own option wins, then DEFAULT's, and an
      option in neither raises KeyError(key). */
  lemma LookupInConfig(cfg: Config, section: string, key: string)
    ensures section != DefaultSectionName && section !in cfg.sections ==>
      Lookup(cfg, section, key) == Err(KeyError(section))
    ensures section != DefaultSectionName && section in cfg.sections && key in cfg.sections[section] ==>
      Lookup(cfg, section, key) == Ok(cfg.sections[section][key])
    ensures (section == DefaultSectionName || (section in cfg.sections && key !in cfg.sections[section])) ==>
      Lookup(cfg, section, key) == (if key in cfg.defaults then Ok(cfg.defaults[key]) else Err(KeyError(key)))
  {
  }

  /** Every option of the empty configuration is missing, `global` included. */
  lemma EmptyConfigHasNoGlobal()
    ensures Lookup(EmptyConfig, "global", "default_profile") == Err(KeyError("global"))
  {
  }
}
