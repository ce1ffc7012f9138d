/** The errors the extension raises with `ereport`/`elog(ERROR, ...)`. */
module EfmErrors {
  import opened Wrappers

  datatype Error =
    /** "only superuser may access generic file functions" */
    | PermissionDenied
    /** "<path> command not available": the command path failed the existence probe */
    | CommandNotAvailable(path: Option<string>)
    /** "efm.cluster_name parameter is undefined" */
    | ClusterNameUndefined
    /** "efm.edb_sudo parameter is undefined" */
    | SudoUndefined
    /** "efm.properties_location is undefined" */
    | PropertiesLocationUndefined
    /** "<file> file not available": the properties file failed the existence probe */
    | FileNotAvailable(file: string)
    /** "unknow argument for efm_cluster_status" */
    | UnknownArgument
    /** "Failed to run command": spawning failed, or the command exited non-zero */
    | FailedToRunCommand
}
