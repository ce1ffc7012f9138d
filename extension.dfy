/** The SQL-callable entry points of the extension: the single-shot
    operations that run one command and return its status, and the two
    set-returning functions `efm_cluster_status` and `efm_list_properties`.

    The superuser test, the existence probe, `system` and `popen` are given as
    parameters: `superuser`, `existing` (the files `access(..., F_OK)` finds),
    `system` (the status a command string exits with) and `popen` (the pipe a
    command string opens, `None` when spawning fails). */
module EfmExtension {
  import opened Wrappers
  import opened EfmErrors
  import opened EfmCommands
  import opened EfmStream

  // ---------------------------------------------------------------------
  // Single-shot operations
  // ---------------------------------------------------------------------

  /** `efm_allow_node`, `efm_disallow_node`, `efm_failover`,
      `efm_switchover`, `efm_resume_monitoring` and `efm_set_priority`. */
  datatype Operation =
    | AllowNode(address: string)
    | DisallowNode(address: string)
    | Failover
    | Switchover
    | ResumeMonitoring
    | SetPriority(address: string, priority: string)

  /** The operation keyword each entry point passes to `get_efm_command`. */
  function Keyword(op: Operation): (keyword: string)
  {
    match op
    case AllowNode(_) => "allow-node"
    case DisallowNode(_) => "disallow-node"
    case Failover => "promote"
    case Switchover => "promote"
    case ResumeMonitoring => "resume"
    case SetPriority(_, _) => "set-priority"
  }

  /** The argument each entry point passes to `get_efm_command`. */
  function Argument(op: Operation): (arg: string)
  {
    match op
    case AllowNode(address) => address
    case DisallowNode(address) => address
    case Failover => ""
    case Switchover => "-switchover"
    case ResumeMonitoring => ""
    case SetPriority(address, priority) => SetPriorityAction(address, priority)
  }

  /** The command a single-shot entry point runs: superuser first, then the
      checks of `get_efm_command`; the command is laid out as
      "<sudo> <path> <keyword> <cluster> <argument>". */
  function SingleShotCommand(cfg: Config, existing: set<string>, superuser: bool, op: Operation): (r: Result<string, Error>)
    ensures !superuser ==> r == Failure(PermissionDenied)
    ensures r.Success? <==>
      superuser && Accessible(cfg.commandPath, existing) && cfg.clusterName.Some? && cfg.sudo.Some?
    ensures superuser && !Accessible(cfg.commandPath, existing) ==>
      r == Failure(CommandNotAvailable(cfg.commandPath))
    ensures superuser && Accessible(cfg.commandPath, existing) && cfg.clusterName.None? ==>
      r == Failure(ClusterNameUndefined)
    ensures superuser && Accessible(cfg.commandPath, existing) && cfg.clusterName.Some? && cfg.sudo.None? ==>
      r == Failure(SudoUndefined)
    ensures r.Success? ==>
      r.value == cfg.sudo.value + " " + cfg.commandPath.value + " " + Keyword(op) + " " +
                 cfg.clusterName.value + " " + Argument(op)
  {
    if !superuser then Failure(PermissionDenied)
    else GetEfmCommand(cfg, existing, Keyword(op), Argument(op))
  }

  /** A single-shot entry point: the status `system` reports for exactly the
      built command, or the error raised before anything was run. */
  function RunSingleShot(cfg: Config, existing: set<string>, superuser: bool, op: Operation,
                         system: string -> int): (r: Result<int, Error>)
    ensures r.Success? <==> SingleShotCommand(cfg, existing, superuser, op).Success?
    ensures r.Success? ==> r.value == system(SingleShotCommand(cfg, existing, superuser, op).value)
    ensures r.Failure? ==> r.error == SingleShotCommand(cfg, existing, superuser, op).error
  {
    match SingleShotCommand(cfg, existing, superuser, op)
    case Failure(e) => Failure(e)
    case Success(command) => Success(system(command))
  }

  /** `efm_failover` and `efm_resume_monitoring` pass an empty argument, so
      their command ends in a space. */
  lemma EmptyArgumentLeavesTrailingSpace(cfg: Config, existing: set<string>, op: Operation)
    requires op == Failover || op == ResumeMonitoring
    requires SingleShotCommand(cfg, existing, true, op).Success?
    ensures var c := SingleShotCommand(cfg, existing, true, op).value;
      |c| > 0 && c[|c| - 1] == ' '
  {
  }

  /** Switchover is the failover command with "-switchover" appended. */
  lemma SwitchoverExtendsFailover(cfg: Config, existing: set<string>)
    requires SingleShotCommand(cfg, existing, true, Failover).Success?
    ensures SingleShotCommand(cfg, existing, true, Switchover).value ==
      SingleShotCommand(cfg, existing, true, Failover).value + "-switchover"
  {
  }

  /** The set-priority command is the builder applied to "set-priority" and
      "<address> <priority>". */
  lemma SetPriorityCommandLayout(cfg: Config, existing: set<string>, address: string, priority: string)
    requires SingleShotCommand(cfg, existing, true, SetPriority(address, priority)).Success?
    ensures SingleShotCommand(cfg, existing, true, SetPriority(address, priority)).value ==
      cfg.sudo.value + " " + cfg.commandPath.value + " " + "set-priority" + " " + cfg.clusterName.value + " " +
      address + " " + priority
  {
    var front := cfg.sudo.value + " " + cfg.commandPath.value + " " + "set-priority" + " " + cfg.clusterName.value + " ";
    assert front + (address + " " + priority) == front + address + " " + priority;
  }

  // ---------------------------------------------------------------------
  // The two set-returning functions: their first call
  // ---------------------------------------------------------------------

  /** The `ignore_errors` each set-returning function fixes. */
  const ClusterStatusIgnoresErrors: bool := true
  const ListPropertiesIgnoresErrors: bool := false

  /** What the first call of a set-returning function does before it reads:
      open a stream on a command, finish with no rows, or raise an error. */
  datatype Start =
    | Opened(command: string, pipe: Pipe)
    | Finished
    | Rejected(error: Error)

  /** Spawning a built command: a failed `popen` finishes quietly under
      `ignore_errors` and raises an error otherwise; nothing is spawned when
      building the command failed. */
  function Spawn(command: Result<string, Error>, popen: string -> Option<Pipe>, ignoreErrors: bool): (s: Start)
    ensures command.Failure? ==> s == Rejected(command.error)
    ensures s.Opened? <==> command.Success? && popen(command.value).Some?
    ensures s.Opened? ==> s.command == command.value && popen(s.command) == Some(s.pipe)
    ensures command.Success? && popen(command.value).None? ==>
      s == (if ignoreErrors then Finished else Rejected(FailedToRunCommand))
  {
    match command
    case Failure(e) => Rejected(e)
    case Success(c) =>
      match popen(c)
      case Some(pipe) => Opened(c, pipe)
      case None => if ignoreErrors then Finished else Rejected(FailedToRunCommand)
  }

  /** The command `efm_cluster_status` runs: "text" selects "cluster-status",
      "json" selects "cluster-status-json", both with an empty argument; any
      other mode is refused before the configuration is looked at. */
  function ClusterStatusCommand(cfg: Config, existing: set<string>, superuser: bool, mode: string): (r: Result<string, Error>)
    ensures !superuser ==> r == Failure(PermissionDenied)
    ensures superuser && mode != "text" && mode != "json" ==> r == Failure(UnknownArgument)
    ensures superuser && (mode == "text" || mode == "json") ==>
      (!Accessible(cfg.commandPath, existing) ==> r == Failure(CommandNotAvailable(cfg.commandPath))) &&
      (Accessible(cfg.commandPath, existing) && cfg.clusterName.None? ==> r == Failure(ClusterNameUndefined)) &&
      (Accessible(cfg.commandPath, existing) && cfg.clusterName.Some? && cfg.sudo.None? ==>
         r == Failure(SudoUndefined))
    ensures r.Success? <==>
      superuser && (mode == "text" || mode == "json") &&
      Accessible(cfg.commandPath, existing) && cfg.clusterName.Some? && cfg.sudo.Some?
    ensures r.Success? ==>
      r.value == cfg.sudo.value + " " + cfg.commandPath.value + " " +
                 (if mode == "text" then "cluster-status" else "cluster-status-json") + " " +
                 cfg.clusterName.value + " "
  {
    if !superuser then Failure(PermissionDenied)
    else if mode == "text" then GetEfmCommand(cfg, existing, "cluster-status", "")
    else if mode == "json" then GetEfmCommand(cfg, existing, "cluster-status-json", "")
    else Failure(UnknownArgument)
  }

  /** The configurations `efm_list_properties` runs on as written: it takes
      `strlen` of the location and the cluster name without a NULL check, and
      of the sudo prefix once the properties file was found. */
  predicate ListPropertiesDefined(cfg: Config, existing: set<string>, superuser: bool)
  {
    superuser ==>
      cfg.propertiesLocation.Some? && cfg.clusterName.Some? &&
      (PropertiesPath(cfg.propertiesLocation.value, cfg.clusterName.value) in existing ==> cfg.sudo.Some?)
  }

  /** The command `efm_list_properties` runs, as written: it reads
      "<location>/<cluster>.properties" through the comment and blank-line
      filter. It neither checks the command path nor uses the sudo prefix, and
      its NULL-location error can never be raised, as the path it checks is the
      one it has just built. */
  function ListPropertiesCommand(cfg: Config, existing: set<string>, superuser: bool): (r: Result<string, Error>)
    requires ListPropertiesDefined(cfg, existing, superuser)
    ensures !superuser ==> r == Failure(PermissionDenied)
    ensures superuser ==> var file := cfg.propertiesLocation.value + "/" + cfg.clusterName.value + ".properties";
      (r.Success? <==> file in existing) &&
      (r.Failure? ==> r == Failure(FileNotAvailable(file))) &&
      (r.Success? ==> r.value == "cat " + file + " " + ParseCommand)
    ensures r != Failure(PropertiesLocationUndefined)
  {
    if !superuser then Failure(PermissionDenied)
    else
      var file := PropertiesPath(cfg.propertiesLocation.value, cfg.clusterName.value);
      match CheckPropertiesFile(Some(file), existing)
      case Fail(e) => Failure(e)
      case Pass => Success(PropertiesPipeline(cfg.sudo.value, CatCommand(file)))
  }

  /** The properties command does not depend on the sudo prefix or the
      command path. */
  lemma ListPropertiesIgnoresSudoAndPath(cfg: Config, other: Config, existing: set<string>)
    requires ListPropertiesDefined(cfg, existing, true) && ListPropertiesDefined(other, existing, true)
    requires other.propertiesLocation == cfg.propertiesLocation && other.clusterName == cfg.clusterName
    ensures ListPropertiesCommand(cfg, existing, true) == ListPropertiesCommand(other, existing, true)
  {
  }

  /** The properties command as evidently intended: an unset location is
      reported as undefined and an unset cluster name likewise, instead of being
      passed to `strlen`; the unused sudo prefix is not needed. Wherever the
      code as written is defined, the two agree. */
  function ListPropertiesCommandChecked(cfg: Config, existing: set<string>, superuser: bool): (r: Result<string, Error>)
    ensures !superuser ==> r == Failure(PermissionDenied)
    ensures superuser && cfg.propertiesLocation.None? ==> r == Failure(PropertiesLocationUndefined)
    ensures superuser && cfg.propertiesLocation.Some? && cfg.clusterName.None? ==> r == Failure(ClusterNameUndefined)
    ensures ListPropertiesDefined(cfg, existing, superuser) ==> r == ListPropertiesCommand(cfg, existing, superuser)
  {
    if !superuser then Failure(PermissionDenied)
    else if cfg.propertiesLocation.None? then Failure(PropertiesLocationUndefined)
    else if cfg.clusterName.None? then Failure(ClusterNameUndefined)
    else
      var file := PropertiesPath(cfg.propertiesLocation.value, cfg.clusterName.value);
      match CheckPropertiesFile(Some(file), existing)
      case Fail(e) => Failure(e)
      case Pass => Success(PropertiesPipeline("", CatCommand(file)))
  }

  /** With `efm.properties_location` unset the code as written is outside its
      domain (it calls `strlen(NULL)`), while the intended check reports the
      location as undefined. */
  lemma UnsetLocationIsNeverReported(existing: set<string>)
    ensures var cfg := Config(Some("/usr/edb/efm/bin/efm"), Some("sudo"), Some("efm"), None);
      !ListPropertiesDefined(cfg, existing, true) &&
      ListPropertiesCommandChecked(cfg, existing, true) == Failure(PropertiesLocationUndefined)
  {
  }

  /** The first call of `efm_cluster_status` up to its first read. */
  function ClusterStatusStart(cfg: Config, existing: set<string>, superuser: bool, mode: string,
                              popen: string -> Option<Pipe>): (s: Start)
    ensures !superuser ==> s == Rejected(PermissionDenied)
    ensures superuser && mode != "text" && mode != "json" ==> s == Rejected(UnknownArgument)
    ensures s.Opened? ==> ClusterStatusCommand(cfg, existing, superuser, mode) == Success(s.command)
    ensures var c := ClusterStatusCommand(cfg, existing, superuser, mode);
      (c.Failure? ==> s == Rejected(c.error)) &&
      (c.Success? && popen(c.value).Some? ==> s == Opened(c.value, popen(c.value).value)) &&
      (c.Success? && popen(c.value).None? ==> s == Finished)
  {
    Spawn(ClusterStatusCommand(cfg, existing, superuser, mode), popen, ClusterStatusIgnoresErrors)
  }

  /** The first call of `efm_list_properties` up to its first read, built on
      the checked properties command: a failed spawn raises an error, and so
      does an unset location. */
  function ListPropertiesStart(cfg: Config, existing: set<string>, superuser: bool,
                               popen: string -> Option<Pipe>): (s: Start)
    ensures !superuser ==> s == Rejected(PermissionDenied)
    ensures superuser && cfg.propertiesLocation.None? ==> s == Rejected(PropertiesLocationUndefined)
    ensures s.Opened? ==> ListPropertiesCommandChecked(cfg, existing, superuser) == Success(s.command)
    ensures var c := ListPropertiesCommandChecked(cfg, existing, superuser);
      (c.Failure? ==> s == Rejected(c.error)) &&
      (c.Success? && popen(c.value).Some? ==> s == Opened(c.value, popen(c.value).value)) &&
      (c.Success? && popen(c.value).None? ==> s == Rejected(FailedToRunCommand))
    ensures !s.Finished?
  {
    Spawn(ListPropertiesCommandChecked(cfg, existing, superuser), popen, ListPropertiesIgnoresErrors)
  }

  // ---------------------------------------------------------------------
  // The two set-returning functions: the calls
  // ---------------------------------------------------------------------

  /** The first call: publish a fresh output context when a stream was opened
      and read the first row from it; otherwise publish nothing. */
  method FirstCall(start: Start, ignoreErrors: bool) returns (ctx: OutputContext?, step: Step)
    ensures start.Finished? ==> ctx == null && step == Done
    ensures start.Rejected? ==> ctx == null && step == Raised(start.error)
    ensures start.Opened? ==>
      ctx != null && fresh(ctx) && ctx.Valid() &&
      ctx.status == start.pipe.status && ctx.ignoreErrors == ignoreErrors &&
      (start.pipe.output == [] ==>
        ctx.closed && step == (if ctx.status != 0 && !ignoreErrors then Raised(FailedToRunCommand) else Done)) &&
      (start.pipe.output != [] ==>
        !ctx.closed && step == Row(Records(start.pipe.output)[0]) &&
        ctx.Pending() == Records(start.pipe.output)[1..])
  {
    match start
    case Finished =>
      ctx, step := null, Done;
    case Rejected(e) =>
      ctx, step := null, Raised(e);
    case Opened(_, pipe) =>
      ctx := new OutputContext(pipe, ignoreErrors);
      step := ctx.Next();
  }

  /** Moving the head of the pending records over to the rows. */
  lemma AppendHead(rows: seq<string>, pending: seq<string>)
    requires pending != []
    ensures rows + [pending[0]] + pending[1..] == rows + pending
  {
    assert [pending[0]] + pending[1..] == pending;
  }

  /** A whole scan of a set-returning function: the first call, then one
      call per row until it finishes, as the executor drives it. The rows are
      the output's lines in order; a non-zero close status ends the scan with
      an error unless errors are ignored. */
  method Scan(start: Start, ignoreErrors: bool) returns (rows: seq<string>, last: Step)
    ensures !last.Row?
    ensures !start.Opened? ==> rows == [] && last == (if start.Rejected? then Raised(start.error) else Done)
    ensures start.Opened? ==>
      rows == Records(start.pipe.output) &&
      last == (if start.pipe.status != 0 && !ignoreErrors then Raised(FailedToRunCommand) else Done)
  {
    var ctx, step := FirstCall(start, ignoreErrors);
    rows := [];
    if ctx == null {
      last := step;
      return;
    }
    ghost var all := Records(start.pipe.output);
    if step.Row? {
      AppendHead([], all);
    } else {
      assert rows + all == all;
    }
    while step.Row?
      invariant ctx.Valid() && ctx.status == start.pipe.status && ctx.ignoreErrors == ignoreErrors
      invariant step.Row? ==> !ctx.closed && rows + [step.record] + ctx.Pending() == all
      invariant !step.Row? ==>
        (ctx.closed && rows == all &&
         step == (if ctx.status != 0 && !ignoreErrors then Raised(FailedToRunCommand) else Done))
      decreases |ctx.unread| + (if ctx.closed then 0 else 1)
    {
      ghost var pending := ctx.Pending();
      rows := rows + [step.record];
      step := ctx.Next();
      if step.Row? {
        AppendHead(rows, pending);
      } else {
        assert rows + pending == rows;
      }
    }
    last := step;
  }

  /** A whole scan of `efm_cluster_status`: the status lines in order. A
      failed spawn yields no rows and a non-zero exit status is ignored; an
      unknown mode is refused before any command is spawned. */
  method ClusterStatus(cfg: Config, existing: set<string>, superuser: bool, mode: string,
                       popen: string -> Option<Pipe>) returns (rows: seq<string>, last: Step)
    ensures superuser && mode != "text" && mode != "json" ==> rows == [] && last == Raised(UnknownArgument)
    ensures last != Raised(FailedToRunCommand)
    ensures var c := ClusterStatusCommand(cfg, existing, superuser, mode);
      (c.Failure? ==> rows == [] && last == Raised(c.error)) &&
      (c.Success? && popen(c.value).None? ==> rows == [] && last == Done) &&
      (c.Success? && popen(c.value).Some? ==> rows == Records(popen(c.value).value.output) && last == Done)
  {
    rows, last := Scan(ClusterStatusStart(cfg, existing, superuser, mode, popen), ClusterStatusIgnoresErrors);
  }

  /** A whole scan of `efm_list_properties` (on the checked command): the
      filtered lines in order; a failed spawn or a non-zero exit status raises
      an error. */
  method ListProperties(cfg: Config, existing: set<string>, superuser: bool,
                        popen: string -> Option<Pipe>) returns (rows: seq<string>, last: Step)
    ensures var c := ListPropertiesCommandChecked(cfg, existing, superuser);
      (c.Failure? ==> rows == [] && last == Raised(c.error)) &&
      (c.Success? && popen(c.value).None? ==> rows == [] && last == Raised(FailedToRunCommand)) &&
      (c.Success? && popen(c.value).Some? ==>
        var pipe := popen(c.value).value;
        rows == Records(pipe.output) && last == (if pipe.status != 0 then Raised(FailedToRunCommand) else Done))
  {
    rows, last := Scan(ListPropertiesStart(cfg, existing, superuser, popen), ListPropertiesIgnoresErrors);
  }

  /** The byte-exact status command for a typical configuration. */
  lemma ClusterStatusExample()
    ensures var cfg := Config(Some("/usr/edb/efm/bin/efm"), Some("sudo -u efm"), Some("efm"), None);
      ClusterStatusCommand(cfg, {"/usr/edb/efm/bin/efm"}, true, "text") ==
        Success("sudo -u efm /usr/edb/efm/bin/efm cluster-status efm ")
  {
    var cfg := Config(Some("/usr/edb/efm/bin/efm"), Some("sudo -u efm"), Some("efm"), None);
    var r := ClusterStatusCommand(cfg, {"/usr/edb/efm/bin/efm"}, true, "text");
    assert r.Success?;
    assert "sudo -u efm" + " " == "sudo -u efm ";
    assert "sudo -u efm " + "/usr/edb/efm/bin/efm" == "sudo -u efm /usr/edb/efm/bin/efm";
    assert "sudo -u efm /usr/edb/efm/bin/efm" + " " == "sudo -u efm /usr/edb/efm/bin/efm ";
    assert "sudo -u efm /usr/edb/efm/bin/efm " + "cluster-status" == "sudo -u efm /usr/edb/efm/bin/efm cluster-status";
    assert "sudo -u efm /usr/edb/efm/bin/efm cluster-status" + " " == "sudo -u efm /usr/edb/efm/bin/efm cluster-status ";
    assert "sudo -u efm /usr/edb/efm/bin/efm cluster-status " + "efm" == "sudo -u efm /usr/edb/efm/bin/efm cluster-status efm";
    assert "sudo -u efm /usr/edb/efm/bin/efm cluster-status efm" + " " == "sudo -u efm /usr/edb/efm/bin/efm cluster-status efm ";
  }
}
