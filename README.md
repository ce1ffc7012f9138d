# efm_extension in Dafny

A model of the PostgreSQL extension `efm_extension`. Its SQL functions drive
the EDB Failover Manager command-line tool. Eight functions are modelled.
Six run one `efm` command through `system` and return its status:
allow-node, disallow-node, failover, switchover, resume and set-priority.
Two are set-returning functions that stream a command's output one line per
call: `efm_cluster_status` and `efm_list_properties`.

The model has three parts:

- `commands.dfy` (module `EfmCommands`) builds the command strings. It
  covers the four settings (`efm.command_path`, `efm.edb_sudo`,
  `efm.cluster_name`, `efm.properties_location`; `None` stands for a NULL
  setting) and the checks made on them. It also models every buffer the C
  code sizes by hand. `snprintf` is modelled as truncating to `size - 1`
  characters, so "nothing is cut off" is a proved property, not an
  assumption.
- `stream.dfy` (module `EfmStream`) is the resumable line reader.
  - `ChunkLength`, `Strip` and `Records` state what `getline` with at most
    one trailing `'\n'` removed makes of a command's output.
  - The class `OutputContext` is the per-scan state kept in
    `funcctx->user_fctx`. Its `unread` field is what the pipe has still to
    deliver, so each `getline` consumes a chunk from its front. Its `Next`
    method is one per-call step.
- `extension.dfy` (module `EfmExtension`) holds the entry points:
  - the single-shot operations;
  - the first call of each set-returning function (build, spawn, publish);
  - a whole scan, driven the way the executor calls a set-returning function
    until it reports done.

Calls into the environment are parameters:

- `superuser`: the result of `superuser()`.
- `existing`: the set of paths `access(path, F_OK)` finds.
- `system`: the status a command string exits with.
- `popen`: the pipe a command string opens, `None` when spawning fails. A
  pipe is the command's whole standard output plus the status `pclose`
  reports.

The model follows the code in two places a reader might not expect:

- Only a NULL cluster name or sudo prefix is rejected. An empty string
  passes.
- `efm_list_properties` checks neither the command path nor the sudo
  prefix.

## Model

| member | source | states |
|---|---|---|
| `EfmCommands.Snprintf` | efm_extension.c:121 | At most size - 1 characters are written: the result is the longest prefix of the formatted text that fits. It is used for all five formatting calls (lines 121, 225, 359, 365 and 369). |
| `EfmCommands.CommandExists` | efm_extension.c:59-64 | The check passes exactly when the command path is set and passes the existence probe; otherwise the error names that path. |
| `EfmCommands.CheckClusterNameSudo` | efm_extension.c:46-53 | The cluster name is checked before the sudo prefix. Only NULL fails, so an empty string passes. The check passes iff both are set. |
| `EfmCommands.CheckPropertiesFile` | efm_extension.c:70-81 | NULL is reported as an undefined location. A set path passes iff it passes the existence probe; otherwise it is reported as not available. |
| `EfmCommands.GetEfmCommand` | efm_extension.c:108-124 | Validation order: tool existence, then cluster name, then sudo prefix. Any failure yields no command. On success the command is exactly `sudo + " " + path + " " + op + " " + cluster + " " + arg`, and the computed `len` is its length plus one, so `snprintf` cuts nothing off. |
| `EfmCommands.SetPriorityAction` | efm_extension.c:218-225 | The action is exactly `address + " " + priority`, in a buffer exactly one longer than the text. |
| `EfmCommands.SplitAt` | efm_extension.c:220-227 | Splitting `x + " " + y` at its first space gives back `x` and `y` when `x` holds no space. |
| `EfmCommands.SplitSetPriorityAction` | efm_extension.c:220-227 | For an address without spaces, splitting the action at its first space gives back the address and the priority. |
| `EfmCommands.SpacedAddressIsAmbiguous` | efm_extension.c:220-227 | Nothing is quoted: the address `10.0.0.1 9` with priority `1` builds the same action as the different pair `10.0.0.1` and `9 1`, so the command cannot tell them apart. |
| `EfmCommands.PropertiesPath` | efm_extension.c:357-359 | The path is `location + "/" + cluster + ".properties"`. Its buffer is three characters longer than the text (two beyond the terminating NUL), so nothing is cut off. |
| `EfmCommands.CatCommand` | efm_extension.c:362-365 | The string is `"cat " + path`. Its buffer is two characters longer than the text (one beyond the terminating NUL). |
| `EfmCommands.PropertiesPipeline` | efm_extension.c:353-369 | The executed string is `cat + " " + ParseCommand`, where `ParseCommand` is the grep/sed filter of line 353. The sudo prefix is counted in the buffer size but never written. |
| `EfmStream.ChunkLength` | efm_extension.c:299 | `getline` semantics: a chunk runs up to and including the first `'\n'`, or to the end of the output. Zero (`getline` returns -1) only when nothing is left. |
| `EfmStream.Records` | efm_extension.c:295-327 | The reference definition of a scan: the records are the stripped `getline` chunks of the output, in order. There are none exactly when the output is empty. |
| `EfmStream.StripRemovesOneNewline` | efm_extension.c:323-325 | A record is its chunk with at most one trailing `'\n'` removed, and with nothing else changed. It is a prefix of the chunk, one shorter exactly when the chunk ends in `'\n'`, and otherwise the whole chunk. |
| `EfmStream.RecordsHaveNoNewline` | efm_extension.c:299-325 | No record contains a `'\n'`. |
| `EfmStream.UnlinesRecords` | efm_extension.c:295-327 | Writing the records back one per line gives the output again. A final `'\n'` is added when the output lacked one, so nothing is lost or reordered. |
| `EfmStream.RecordsUnlines` | efm_extension.c:295-327 | Lines without `'\n'`, written one per line, are read back unchanged and in order. |
| `EfmStream.ChunkOfLine` | efm_extension.c:299 | A chunk ends right after the first `'\n'`. |
| `EfmStream.ThreeTerminatedLines` | efm_extension.c:295-327 | `"a\nb\nc\n"` yields `a`, `b`, `c`. |
| `EfmStream.UnterminatedLastLine` | efm_extension.c:295-327 | `"a\nb"` yields `a`, `b`: a missing final newline loses nothing. |
| `EfmStream.LoneNewline` | efm_extension.c:323-325 | `"\n"` yields one empty record. |
| `EfmStream.RecordsCons` | efm_extension.c:299-325 | A line without `'\n'`, followed by `'\n'`, is read as one record ahead of the records of the text after it. |
| `EfmStream.FirstRecordHasNoNewline` | efm_extension.c:299-325 | The first chunk, with one trailing `'\n'` removed, holds no `'\n'`. |
| `EfmStream.Advance` | efm_extension.c:295-327 | One `getline` on what the pipe still holds takes a non-empty chunk from its front. The chunk with one trailing `'\n'` cut off is the next pending record and holds no `'\n'`. The records of what is left are the rest. |
| `EfmStream.OutputContext.constructor` | efm_extension.c:269-272 | A fresh context has the whole output unread, an empty line buffer and the pipe's close status. It is still open, and every record is pending. |
| `EfmStream.OutputContext.Next` | efm_extension.c:295-327 | If records remain, the call returns the next one in order (its chunk minus one trailing `'\n'`, with no `'\n'` in it), consumes exactly that chunk from the unread output (the line buffer holds it) and stays open. At end of stream it frees the buffer and closes the pipe, exactly once. It then finishes, or raises "Failed to run command" iff the close status is non-zero and errors are not ignored. A closed context is never read again. |
| `EfmExtension.SingleShotCommand` | efm_extension.c:127-236 | The superuser check comes first. The checks then run in order: a missing tool raises "not available" naming its path, then an unset cluster name, then an unset sudo prefix. It succeeds iff all three pass. The command is `sudo path keyword cluster argument`, with the keyword and argument each entry point passes. |
| `EfmExtension.RunSingleShot` | efm_extension.c:138-140 | Returns the status `system` reports for exactly the built command. A build error is raised before anything runs. |
| `EfmExtension.EmptyArgumentLeavesTrailingSpace` | efm_extension.c:169-172 | Failover and resume pass an empty argument, so their command ends in a space (see also line 202). |
| `EfmExtension.SwitchoverExtendsFailover` | efm_extension.c:169-185 | The switchover command is the failover command followed by `-switchover`. |
| `EfmExtension.SetPriorityCommandLayout` | efm_extension.c:218-227 | The set-priority command is the builder applied to `set-priority` and `address + " " + priority`. |
| `EfmExtension.Spawn` | efm_extension.c:272-287 | Nothing is spawned when building failed. A failed `popen` finishes with no rows under `ignore_errors` and raises an error otherwise. A stream is opened on exactly the built command. |
| `EfmExtension.ClusterStatusCommand` | efm_extension.c:249-264 | After the superuser check, mode `text` selects `cluster-status` and mode `json` selects `cluster-status-json`, both with an empty argument. Any other mode is refused before the settings are looked at. For a valid mode the tool, cluster-name and sudo checks raise their errors in that order. |
| `EfmExtension.ListPropertiesCommand` | efm_extension.c:344-369 | As written, the caller must set the location and the cluster name, and the sudo prefix once the file exists. The command is `"cat " + location/cluster.properties + " " + filter` iff the file exists; otherwise the error names the file. "Location undefined" is never raised. |
| `EfmExtension.ListPropertiesIgnoresSudoAndPath` | efm_extension.c:357-369 | Wherever the code is defined for both configurations, the properties command depends neither on the sudo prefix nor on the command path. |
| `EfmExtension.ListPropertiesCommandChecked` | efm_extension.c:75-76 | The intended check: an unset location is reported as undefined, and an unset cluster name likewise. It agrees with the code as written wherever the latter is defined. |
| `EfmExtension.UnsetLocationIsNeverReported` | efm_extension.c:357-360 | With the location unset, the code as written is outside its domain (`strlen(NULL)`), while the intended check reports the location as undefined. |
| `EfmExtension.ClusterStatusStart` | efm_extension.c:240-287 | A first call refused by the superuser check or by the mode opens no stream. A build error is passed on as it is. With a valid command, a successful spawn opens a stream on exactly that command and pipe, and a failed spawn finishes with no rows. |
| `EfmExtension.ListPropertiesStart` | efm_extension.c:335-392 | A first call refused by the superuser check or an unset location opens no stream. Any other build error, such as a missing file, is passed on as it is. With a valid command, a successful spawn opens a stream on exactly that command and pipe, and a failed spawn raises an error. It never finishes without reading. |
| `EfmExtension.FirstCall` | efm_extension.c:254-296 | A context is published only when a stream was opened, and then the first row is read from it. Otherwise there is no context and the call finishes or raises. |
| `EfmExtension.Scan` | efm_extension.c:295-327 | Calling until done yields exactly the output's records in order. The scan then finishes, or raises iff the close status is non-zero and errors are not ignored. Without a stream there are no rows. |
| `EfmExtension.ClusterStatus` | efm_extension.c:239-328 | A whole status scan gives the status lines in order. It never raises "Failed to run command" (`ignore_errors` is true, line 246), and an unknown mode spawns nothing. |
| `EfmExtension.ListProperties` | efm_extension.c:334-433 | A whole properties scan gives the lines in order. A failed spawn or a non-zero exit status raises an error (`ignore_errors` is false, line 341). |
| `EfmExtension.ClusterStatusExample` | efm_extension.c:259-260 | With sudo `sudo -u efm`, path `/usr/edb/efm/bin/efm` and cluster `efm`, mode `text` gives exactly `"sudo -u efm /usr/edb/efm/bin/efm cluster-status efm "`. |

## Left out

- `requireSuperuser` is the parameter `superuser`, checked first. Its repeated
  check on every later call of a set-returning function is not modelled
  separately, since the answer cannot change within a scan.
- `system`, `popen` and `pclose` are the oracles `system` and `popen`. A pipe
  is the whole output plus the close status. Timing, blocking reads and
  partial writes are not modelled.
- The filtering done by `grep` and `sed` runs in external tools. Only the
  string that invokes them is modelled, so which lines the properties scan
  drops is not stated.
- `access(..., F_OK)` is the set `existing`. A NULL path is never found,
  since on Linux `access(NULL, ...)` fails. The set is not constrained
  otherwise: it may contain the empty path, although `access("", F_OK)`
  always fails.
- A `char` of a Dafny string stands for one byte of a C string. The lengths
  and buffer sizes are `strlen` byte counts; no character encoding is
  modelled.
- `_PG_init` and the registration of the four settings are not modelled. The
  settings are a `Config` value.
- `palloc`, `pfree`, memory contexts, the SRF and fmgr macros, and the
  `text_to_cstring` / `cstring_to_text_with_len` conversions are replaced by
  values and the `OutputContext` object.
- The `errno == EINVAL` path that raises `FATAL` after a read depends on
  `errno` and is not modelled.
- `OutputContext` has no `len` field. `getline`'s buffer size and its
  reallocation are library behaviour. `line` holds the last chunk read.
- A query cancelled in the middle of a scan leaks the pipe and the buffer in
  the source. Nothing is modelled on that path.
- `EfmStream.OutputContext.Next` requires an open context, because PostgreSQL
  never calls a set-returning function again after it reported done.
  Calling after exhaustion is therefore not a modelled step.
- `EfmCommands.GetEfmCommand`: lengths are unbounded integers. The 32-bit
  `int len` and `palloc`'s 1 GB request limit are not modelled, so strings
  whose total exceeds 1 GB are treated like any others.
- `EfmCommands.PropertiesPath`: the same unbounded-length simplification
  applies to the three buffers of `efm_list_properties`.
- `EfmCommands.SetPriorityAction`: the same unbounded-length simplification
  applies to the `int len` and the `palloc` of the action buffer
  (efm_extension.c:220-223).
- `EfmExtension.ListPropertiesStart`: built on the corrected
  `ListPropertiesCommandChecked` (see Findings). Where the code as written is
  defined, the two agree. An unset location or cluster name is an error here
  instead of a `strlen(NULL)`. An unset sudo prefix is accepted once the file
  exists, where the code calls `strlen(NULL)` on it (efm_extension.c:367); the prefix is never
  written into the command.
- `EfmExtension.ListProperties`: uses `ListPropertiesStart`, so the same
  correction applies.
- Embedded NUL bytes in a line are kept as ordinary characters, as
  `cstring_to_text_with_len` keeps them.

## Findings

| source | as written | input that shows it | evidently intended | confidence | as-written member | corrected member |
|---|---|---|---|---|---|---|
| efm_extension.c:357-360 | `check_efm_properties_file` tests the freshly built path for NULL, which can never be NULL. Line 357 has already called `strlen` on the unset location (and line 367 on the unset sudo prefix). | `efm.properties_location` unset, then `efm_list_properties()` | Report "efm.properties_location is undefined" for an unset location, and likewise for an unset cluster name, before formatting the path | medium; not executed | `EfmExtension.UnsetLocationIsNeverReported` | `EfmExtension.ListPropertiesCommandChecked` |
