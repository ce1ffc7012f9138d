/** Command-string construction: the four settings, the checks made on them,
    and the strings `get_efm_command`, `efm_set_priority` and
    `efm_list_properties` format into buffers they size by hand. */
module EfmCommands {
  import opened Wrappers
  import opened EfmErrors

  /** The settings `efm.command_path`, `efm.edb_sudo`, `efm.cluster_name`
      and `efm.properties_location`; `None` is a NULL (never set) value. */
  datatype Config = Config(
    commandPath: Option<string>,
    sudo: Option<string>,
    clusterName: Option<string>,
    propertiesLocation: Option<string>)

  function Min(a: int, b: int): (m: int) { if a <= b then a else b }

  /** `snprintf(buf, size, ...)` of an already formatted string: at most
      `size - 1` characters are written, the rest is cut off. */
  function Snprintf(size: nat, formatted: string): (written: string)
    requires size > 0
    ensures |written| == Min(|formatted|, size - 1)
    ensures written == formatted[..|written|]
  {
    formatted[..Min(|formatted|, size - 1)]
  }

  // ---------------------------------------------------------------------
  // Checks
  // ---------------------------------------------------------------------

  /** `access(path, F_OK) == 0` against the set of files that exist; a NULL
      path is never accessible. */
  predicate Accessible(path: Option<string>, existing: set<string>)
  {
    path.Some? && path.value in existing
  }

  /** `command_exists`: the command path must pass the existence probe. */
  function CommandExists(cfg: Config, existing: set<string>): (o: Outcome<Error>)
    ensures o.Pass? <==> cfg.commandPath.Some? && cfg.commandPath.value in existing
    ensures o.Fail? ==> o.error == CommandNotAvailable(cfg.commandPath)
  {
    if Accessible(cfg.commandPath, existing) then Pass else Fail(CommandNotAvailable(cfg.commandPath))
  }

  /** `check_efm_cluster_name_sudo`: the cluster name is checked before the
      sudo prefix, and only a NULL value fails; an empty string passes. */
  function CheckClusterNameSudo(clusterName: Option<string>, sudo: Option<string>): (o: Outcome<Error>)
    ensures o.Pass? <==> clusterName.Some? && sudo.Some?
    ensures clusterName.None? ==> o == Fail(ClusterNameUndefined)
    ensures clusterName.Some? && sudo.None? ==> o == Fail(SudoUndefined)
  {
    if clusterName.None? then Fail(ClusterNameUndefined)
    else if sudo.None? then Fail(SudoUndefined)
    else Pass
  }

  /** `check_efm_properties_file`: a NULL path is reported as an undefined
      location, then the path must pass the existence probe. */
  function CheckPropertiesFile(file: Option<string>, existing: set<string>): (o: Outcome<Error>)
    ensures o.Pass? <==> Accessible(file, existing)
    ensures file.None? ==> o == Fail(PropertiesLocationUndefined)
    ensures file.Some? && o.Fail? ==> o == Fail(FileNotAvailable(file.value))
  {
    if file.None? then Fail(PropertiesLocationUndefined)
    else if file.value !in existing then Fail(FileNotAvailable(file.value))
    else Pass
  }

  // ---------------------------------------------------------------------
  // get_efm_command
  // ---------------------------------------------------------------------

  /** The `len` that `get_efm_command` hands to `palloc` and `snprintf`. */
  function EfmCommandSize(sudo: string, path: string, op: string, cluster: string, arg: string): (size: nat)
  {
    |sudo| + 1 + |path| + 1 + |op| + 1 + |cluster| + 1 + |arg| + 1
  }

  /** `get_efm_command(op, arg)`: the tool must exist, then the cluster name
      and the sudo prefix must be set; the command is the five parts joined by
      single spaces, with nothing quoted, and its buffer holds it exactly. */
  function GetEfmCommand(cfg: Config, existing: set<string>, op: string, arg: string): (r: Result<string, Error>)
    ensures !Accessible(cfg.commandPath, existing) ==> r == Failure(CommandNotAvailable(cfg.commandPath))
    ensures Accessible(cfg.commandPath, existing) && cfg.clusterName.None? ==> r == Failure(ClusterNameUndefined)
    ensures Accessible(cfg.commandPath, existing) && cfg.clusterName.Some? && cfg.sudo.None? ==>
      r == Failure(SudoUndefined)
    ensures r.Success? <==> Accessible(cfg.commandPath, existing) && cfg.clusterName.Some? && cfg.sudo.Some?
    ensures r.Success? ==>
      r.value == cfg.sudo.value + " " + cfg.commandPath.value + " " + op + " " + cfg.clusterName.value + " " + arg
    ensures r.Success? ==>
      |r.value| + 1 == EfmCommandSize(cfg.sudo.value, cfg.commandPath.value, op, cfg.clusterName.value, arg)
  {
    match CommandExists(cfg, existing)
    case Fail(e) => Failure(e)
    case Pass =>
      match CheckClusterNameSudo(cfg.clusterName, cfg.sudo)
      case Fail(e) => Failure(e)
      case Pass =>
        var sudo, path, cluster := cfg.sudo.value, cfg.commandPath.value, cfg.clusterName.value;
        var len := EfmCommandSize(sudo, path, op, cluster, arg);
        Success(Snprintf(len, sudo + " " + path + " " + op + " " + cluster + " " + arg))
  }

  // ---------------------------------------------------------------------
  // efm_set_priority
  // ---------------------------------------------------------------------

  /** The `len` of the `action` buffer in `efm_set_priority`. */
  function SetPriorityActionSize(address: string, priority: string): (size: nat)
  {
    |address| + 1 + |priority| + 1
  }

  /** The `action` argument of `efm_set_priority`: "<address> <priority>",
      formatted into a buffer exactly one longer than the text. */
  function SetPriorityAction(address: string, priority: string): (action: string)
    ensures action == address + " " + priority
    ensures |action| + 1 == SetPriorityActionSize(address, priority)
  {
    Snprintf(SetPriorityActionSize(address, priority), address + " " + priority)
  }

  /** The index of the first space in `s`, or `|s|` when there is none. */
  function FirstSpace(s: string): (i: nat)
    ensures i <= |s| && ' ' !in s[..i]
    ensures i < |s| ==> s[i] == ' '
  {
    if s == [] then 0
    else if s[0] == ' ' then 0
    else
      var i := FirstSpace(s[1..]);
      assert s[..i + 1] == [s[0]] + s[1..][..i];
      i + 1
  }

  /** Splitting an action at its first space: the reading of it as an address
      and a priority. */
  function SplitAction(action: string): (parts: (string, string))
  {
    var i := FirstSpace(action);
    if i < |action| then (action[..i], action[i + 1..]) else (action, "")
  }

  /** Splitting `x + " " + y` at its first space gives back `x` and `y` when
      `x` holds no space. */
  lemma SplitAt(x: string, y: string)
    requires ' ' !in x
    ensures SplitAction(x + " " + y) == (x, y)
  {
    var s := x + " " + y;
    assert s[..|x|] == x && s[|x|] == ' ';
    assert s[..|x| + 1] == s[..|x|] + [' '];
    assert s[|x| + 1..] == y;
  }

  /** An address without spaces is recovered, with the priority, from the
      action. */
  lemma SplitSetPriorityAction(address: string, priority: string)
    requires ' ' !in address
    ensures SplitAction(SetPriorityAction(address, priority)) == (address, priority)
  {
    SplitAt(address, priority);
  }

  /** Nothing is quoted: an address holding a space builds the same action
      as a different address and priority, so the action cannot tell them
      apart. */
  lemma SpacedAddressIsAmbiguous()
    ensures SetPriorityAction("10.0.0.1 9", "1") == SetPriorityAction("10.0.0.1", "9 1")
    ensures ("10.0.0.1 9", "1") != ("10.0.0.1", "9 1")
  {
    assert "10.0.0.1 9" + " " + "1" == "10.0.0.1" + " " + "9 1";
  }

  // ---------------------------------------------------------------------
  // efm_list_properties
  // ---------------------------------------------------------------------

  /** The filter the properties file is piped through. */
  const ParseCommand: string := "| grep -v \"^#\" | sed '/^$/d'"

  const PropertiesSuffix: string := ".properties"

  /** The first `len` in `efm_list_properties`. */
  function PropertiesPathSize(location: string, cluster: string): (size: nat)
  {
    |location| + 1 + |"/"| + 1 + |cluster| + 1 + |PropertiesSuffix|
  }

  /** The properties file "<location>/<cluster>.properties"; the buffer is
      three characters longer than the text. */
  function PropertiesPath(location: string, cluster: string): (path: string)
    ensures path == location + "/" + cluster + PropertiesSuffix
    ensures |path| + 3 == PropertiesPathSize(location, cluster)
  {
    Snprintf(PropertiesPathSize(location, cluster), location + "/" + cluster + PropertiesSuffix)
  }

  /** The second `len`. */
  function CatCommandSize(path: string): (size: nat)
  {
    |"cat "| + 1 + |path| + 1
  }

  /** "cat <path>"; the buffer is two characters longer than the text. */
  function CatCommand(path: string): (cat: string)
    ensures cat == "cat " + path
    ensures |cat| + 2 == CatCommandSize(path)
  {
    Snprintf(CatCommandSize(path), "cat " + path)
  }

  /** The third `len`: it counts the sudo prefix, which the string leaves out. */
  function PipelineSize(sudo: string, cat: string): (size: nat)
  {
    |sudo| + 1 + |cat| + 1 + |ParseCommand| + 1
  }

  /** "<cat> <filter>": the sudo prefix is only counted in the size, so the
      buffer is `|sudo| + 2` characters longer than the text. */
  function PropertiesPipeline(sudo: string, cat: string): (exec: string)
    ensures exec == cat + " " + ParseCommand
    ensures |exec| + 2 + |sudo| == PipelineSize(sudo, cat)
  {
    Snprintf(PipelineSize(sudo, cat), cat + " " + ParseCommand)
  }
}
