/** The configuration file as the commands see it, and the precedence rule
    that merges a section into the command-line values. */
module Config {
  import opened Outcomes
  import opened PyValues

  /** One table of the TOML file (`[asm]`, `[dis]`, `[exe]`). */
  type Section = map<string, Value>

  /** The parsed file: section name to section. */
  type Configuration = map<string, Section>

  /** What the file system and the TOML parser make of the path given with
      `--config`: no such file, a file that cannot be opened for another
      reason, or a readable file whose parse succeeded (Some) or failed (None). */
  datatype ConfigFile = NoSuchFile | Unopenable | Readable(parsed: Option<Configuration>)

  /** get_config: a missing file is ConfigFileNotFound; any other failure to
      open is swallowed by the first `open` and resurfaces as the OSError of the
      TOML loader's own `open`; a parse failure is BadFormat. */
  function GetConfig(file: ConfigFile): (r: Result<Configuration>)
    ensures r.Ok? <==> file.Readable? && file.parsed.Some?
    ensures r.Ok? ==> r.value == file.parsed.value
    ensures r == Err(ConfigFileNotFound) <==> file == NoSuchFile
    ensures r == Err(BadFormat) <==> file == Readable(None)
    ensures r == Err(OsError) <==> file == Unopenable
  {
    match file
    case NoSuchFile => Err(ConfigFileNotFound)
    case Unopenable => Err(OsError)
    case Readable(None) => Err(BadFormat)
    case Readable(Some(configuration)) => Ok(configuration)
  }

  /** The documented three-tier precedence: an explicit value, else the
      section's value, else the built-in default. */
  function Precedence(explicit: Option<Value>, key: string, section: Section, default: Value): Value
  {
    if explicit.Some? then explicit.value
    else if key in section then section[key]
    else default
  }

  /** The merge the content checks perform for one key: the section's value
      replaces the command-line value only while that value is still the
      option's default. */
  function Merge(cli: Value, default: Value, key: string, section: Section): (r: Value)
    ensures cli != default ==> r == cli
    ensures cli == default && key in section ==> r == section[key]
    ensures cli == default && key !in section ==> r == default
    ensures r == Precedence(if cli == default then None else Some(cli), key, section, default)
  {
    if key in section && cli == default then section[key] else cli
  }
}
