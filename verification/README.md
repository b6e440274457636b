# rethinkdb-pull, modelled in Dafny

`rethinkdb-pull` copies a remote RethinkDB database into a local one. It opens
an ssh tunnel to the remote host, runs `rethinkdb dump` through the tunnel's
local port into a `.tar.gz` archive in a per-run workspace, decompresses it,
and runs `rethinkdb import` once per exported table, one at a time, into the
local database. The whole program is one file, `index.js`.

This project models the decision logic of that file as pure functions over
immutable data:

- **Configuration** (`Config`): `runTask`'s defaults (`tempDir` `/tmp`, empty
  include and exclude lists, and the tunnel defaults port 22, dstHost and
  localHost `127.0.0.1`, dstPort 28015, localPort 9999, keepAlive on, each
  overridden by a key the caller gives). It also covers the normalisation of
  a `remoteDb` array, each prompt question's `when` condition, and
  `mergeOptions`' precedence: explicit option, then prompt answer, then
  environment variable. Then come the derived paths `tempDir/<timestamp>` and
  `tempDir/<timestamp>/rethink_dump.tar.gz`, the check that reports every
  missing required setting, and the task dispatch.
- **Credential staging** (`Staging`): the password files that the dump and the
  imports read, and what those files hold once both are written.
- **Imports** (`Imports`): `setImportArgs` selects the files by include-list or
  exclude-list. It derives the table name as the basename minus `.json`. It
  builds each `rethinkdb import` argument vector, with `--pkey` taken from the
  `.info` sidecar when that file is readable and names a key. The import loop
  is a fold over the imports' exit statuses that stops at the first failure.
- **Dump** (`Dump`): the `rethinkdb dump` argument vector and its `close`
  handler.
- **Pull** (`Pull`): the `tasks.pull` chain is a small state machine. Its steps
  are: write remote password, write local password, dump, decompress, one
  import per table, clean. There is one `.catch`.

The outside world's answers are parameters:

- the prompt's replies (`respond`);
- the environment (`Env`);
- the task argument;
- the clock reading (`ts`);
- whether each file write, the decompression and the search for the decompressed files succeed;
- the files found after decompression;
- the sidecar files' contents;
- each subprocess's exit status.

Supporting modules model the JavaScript semantics the code relies on:

- `JsValues`: truthiness, `a || b || c`, template-string rendering, the decimal
  rendering of a timestamp and its inverse.
- `Seqs`: order-preserving filter and subsequence.
- `Paths`: `path.join`, `path.basename` and the `.json` to `.info` rewrite.
- `Processes`: `if (code) reject(code) else resolve()`.

A subprocess that a signal ends reports exit code `null`. `null` is falsy, so
the code treats such a run as a success. The model keeps this behaviour
(`Processes.SignalResolves`).

Three behaviours of the code are kept as they are:

- `clean` runs only when every step succeeds, and the tunnel is closed only by
  the dump's `close` handler. So a failed password-file write leaves the tunnel
  open, and any failure leaves the workspace in place
  (`Pull.CleanOnlyOnSuccess`, `Pull.TunnelClosedIffDumpRan`).
- A failed import rejects with the exit code alone, not the table. In the
  model, the failing table is the last stage in the run's stage list.
- Both password files are named `<tempDir>/<db>.txt` (`Config.Dispatch`). When
  the remote and local databases share a name, the two files are one file
  (see Findings). The corrected per-credential naming is
  `Staging.StagedPasswordFiles`.

`Config.Resolve` (all of `runTask` once the prompt has answered) and
`Pull.RunPull` (`tasks.pull` for a launched run) only compose the members
above. Their behaviour is stated by the lemmas about them:
`Config.ExplicitOptionsLaunch`, `Config.RemoteDbListUsesChoice`,
`Config.SingletonRemoteDb`, `Pull.CleanOnlyOnSuccess`,
`Pull.TunnelClosedIffDumpRan` and `Pull.ImportFailureSkipsRest`.

## Model

| member | source | states |
|---|---|---|
| JsValues.OrChain | index.js:20-23 | `a \|\| b \|\| c` yields a truthy operand iff one exists, and then the first one; otherwise it yields the last operand |
| JsValues.OrChain3 | index.js:20-23 | For three operands: explicit value if truthy, else the answer if truthy, else the environment value |
| JsValues.Decimal | index.js:34 | `${+new Date()}` is a non-empty string of decimal digits, with no leading zero unless the number is 0 |
| JsValues.DecimalRoundTrip | index.js:34 | Reading the rendered timestamp or port back gives the number |
| JsValues.DecimalInjective | index.js:34 | Distinct timestamps render to distinct strings |
| Seqs.Filter | index.js:45-47 | `files.filter(p)` keeps exactly the elements satisfying p, each as often as it occurs in the input |
| Seqs.FilterIsSubsequence | index.js:45-47 | The filtered list keeps the input's order |
| Paths.Join | index.js:34-35 | `path.join(dir, name)` ends with name. What precedes it is nothing when dir is empty, dir itself when dir ends with a separator, and otherwise dir plus one added separator |
| Paths.JoinDistinct | index.js:307-308 | Two different names in one directory give two different paths |
| Paths.JoinEndsWith | index.js:307-308 | A joined path ends with its name's extension |
| Paths.JoinInjective | index.js:307-308 | The same directory joined with two names gives one path only when the names are equal |
| Paths.LastSegment | index.js:53 | The basename is the longest suffix without a separator |
| Paths.Basename | index.js:45-53 | `path.basename(p, ext)` has no separator. It is the last segment, or the last segment minus a trailing ext, which is always stripped when the segment is longer than ext |
| Paths.InfoFile | index.js:51 | The `.json$` to `.info` rewrite keeps the path's length and stem and changes only a trailing `.json` |
| Paths.BasenameOfJoin | index.js:45 | The table name of `dir/<stem>.json` is `stem` |
| Paths.InfoFileOfJoin | index.js:51 | The sidecar of `dir/<stem>.json` is `dir/<stem>.info` |
| Processes.Settle | index.js:112-116 | A close handler rejects with the code exactly when the code is non-zero, and resolves otherwise |
| Processes.SignalResolves | index.js:155-160 | An exit code of `null` (ended by a signal) resolves |
| Staging.PasswordFilesAsWritten | index.js:307-308 | The remote and local password files are the same path exactly when remoteDb equals localDb |
| Staging.StagedPasswordFiles | index.js:307-308 | Corrected naming: the two password files are always distinct |
| Staging.WritePasswords | index.js:191-194 | Writing remote then local leaves the local password in the local file. The remote file holds the remote password, or the local one when the two paths are the same file. No other file is touched |
| Staging.AsWrittenDumpReadsLocalPassword | index.js:191-196 | With the code's naming and equal database names, the file the dump reads holds the local password |
| Staging.AsWrittenCounterexample | index.js:307-308 | Concrete case: database `app` on both sides; the dump does not read the remote password |
| Staging.StagedPasswordsReadBack | index.js:191-196 | With the corrected naming, the dump reads the remote password and the imports read the local one |
| Config.TunnelConfig | index.js:215-236 | Each tunnel key the caller gives replaces the default; absent keys keep 22, 127.0.0.1, 28015, 127.0.0.1, 9999, keepAlive true |
| Config.NormaliseRemoteDb | index.js:240-243 | A one-element array becomes its element and an empty one becomes `undefined`; only arrays of two or more stay lists |
| Config.Prepare | index.js:223-243 | Defaults `/tmp` and empty table lists unless given; the tunnel merged; `remoteDbList` iff remoteDb is still a list |
| Config.Ask | index.js:245-286 | The answers hold a reply for exactly the questions whose `when` holds |
| Config.FirstOf | index.js:21-23 | A setting is the explicit value if truthy, else the answer if truthy, else the environment value |
| Config.MergedRemoteDb | index.js:20-27 | remoteDb follows the same precedence; a list is replaced by the chosen answer; the result is never a list |
| Config.MergeOptions | index.js:19-38 | The four settings follow the precedence; tunnel username and host come from the option, then the answer; other tunnel keys are unchanged; tempDir is `<root>/<ts>` and archive is `<tempDir>/rethink_dump.tar.gz` |
| Config.MissingSettings | index.js:296-301 | Reports every falsy required setting, in question order, not just the first |
| Config.Dispatch | index.js:292-308 | An unknown task stops; otherwise the run launches iff every required setting is truthy. A launched run gets the password files `<tempDir>/<remoteDb>.txt` and `<tempDir>/<localDb>.txt`, which are one file exactly when the two names are equal |
| Config.WorkspacePerTimestamp | index.js:34 | Runs at different clock readings get different workspaces |
| Config.NothingAsked | index.js:245-284 | When every required setting is already in the options, no question's `when` holds and the answers are empty |
| Config.MergeKeepsExplicit | index.js:19-32 | Merging empty answers into options that hold every required setting leaves those settings and the tunnel unchanged |
| Config.SettingsPresent | index.js:296-301 | Settings with all six required values truthy pass the required-setting check |
| Config.ExplicitOptionsLaunch | index.js:213-308 | A caller who gives the four database settings and a tunnel username and host is asked nothing, and launches with exactly those settings and the tunnel that the defaults and the caller's keys make |
| Config.RemoteDbListUsesChoice | index.js:25-27 | A list of remote databases is always asked about, and the chosen name replaces it |
| Config.SingletonRemoteDb | index.js:240-243 | A one-element remoteDb array resolves to its element |
| Imports.Table | index.js:45-53 | A file's table is its last path segment without `.json`. A segment that is only `.json` or lacks the extension is used whole |
| Imports.SelectFiles | index.js:42-48 | Non-empty include-list: exactly the files of included tables, and the exclude-list is ignored. Else a non-empty exclude-list drops exactly the excluded tables' files. Else the list is unchanged. Always an order-preserving subsequence |
| Imports.PrimaryKeyHint | index.js:63-69 | A key is supplied iff the sidecar was read, parsed, and has a truthy `primary_key`; a failed read supplies none |
| Imports.ImportArgs | index.js:55-61 | Args start with `import -f <file> --password-file <pwd> --table <db>.<table> --format json` and end with `--force`. Length is 12 with `--pkey <key>`, else 10. The import tool reads back exactly these values |
| Imports.ImportFor | index.js:50-74 | A file's record targets `<db>.<basename>` with the local password file; `--pkey` is present iff its `.info` sidecar names a key |
| Imports.PrimaryKeyPropagates | index.js:63-67 | A sidecar `{"primary_key": k}` beside `<stem>.json` gives `--pkey k` on the import of `<db>.<stem>` |
| Imports.MissingSidecarOmitsKey | index.js:63-73 | A missing or unparsable sidecar gives no `--pkey` and the record is still built |
| Imports.ImportRecords | index.js:50-78 | One record per selected file, in the same order |
| Imports.RunImports | index.js:138-166 | Imports run in sequence. The attempted ones are a prefix. The loop resolves iff no import fails. On rejection the last attempted import is the first failure and its code is the rejection |
| Imports.FailFast | index.js:138-163 | If import k fails first, exactly tables 0..k are spawned and the loop rejects with k's code |
| Imports.AllImported | index.js:138-166 | If every import exits 0, all tables are imported and the loop resolves |
| Dump.DumpArgs | index.js:82-88 | Args are `dump -c localhost:<localPort> -e <remoteDb> -f <archive> --password-file <pwd>`. The port is written in decimal with no leading zero, and the dump tool reads back exactly these values |
| Dump.ConnectRoundTrip | index.js:84 | The `-c` value `localhost:<port>` starts with `localhost:`, and the rest reads back as the port |
| Dump.DumpArgsFor | index.js:82-88 | A run's dump uses the tunnel's localPort, remoteDb, the archive and the remote password file |
| Dump.OnDumpClose | index.js:106-117 | The tunnel is closed whenever it is defined, whatever the exit code; exit 0 resolves and a non-zero code rejects with that code |
| Pull.Chain | index.js:191-206 | The steps run are a prefix of the plan, and each started only after the previous resolved. A catch ends at the failing step with its code or I/O error. Completion iff the whole plan ran. Tunnel closed iff the dump ran |
| Pull.Restore | index.js:198-203 | After the prelude, the imports run until the first failure; clean runs only when all resolve |
| Pull.ChainCleans | index.js:191-206 | For any import records, the chain reaches `clean` exactly when every step that can fail succeeds |
| Pull.GlobFailureStops | index.js:130-134 | When the search for the decompressed `.json` files rejects, the one `.catch` receives an I/O error after the decompress step. No table is imported, the tunnel is already closed, and `clean` does not run |
| Pull.CleanOnlyOnSuccess | index.js:191-206 | `clean` is reached exactly when both writes, the dump, the decompression, the file search and every import succeed |
| Pull.TunnelClosedIffDumpRan | index.js:106-110 | The tunnel is closed exactly when both password files were written, whatever the dump's exit |
| Pull.ChainImportFailure | index.js:198-206 | For any import records, a first failing import k ends the chain after table k with k's exit code, the tunnel closed and clean skipped |
| Pull.ImportFailureSkipsRest | index.js:198-206 | A first failing import k ends the run after table k with k's exit code, and skips clean |

## Left out

- Process spawning and output streaming (index.js:89-104, 140-151), including the `[`-prefixed line overwrite. Only exit statuses are modelled.
- Tunnel establishment through `tunnel-ssh` (index.js:181-189), including the `tnl.close()` on its error path. This is a foreign library doing network I/O. The chain starts once the tunnel is up.
- `inquirer`, `dotenv` and `yargs` (index.js:6-17, 286). Prompt replies, environment and task argument are parameters. Only the questions' `when` conditions are modelled, not their `type`, `choices` or `default`. A list answer is any string. The answers object is read by question name. The model assumes inquirer stores the dotted names `tunnel.username` and `tunnel.host` as flat keys. If it stored them as nested paths, `answers['tunnel.username']` at index.js:29-30 would be `undefined`, and the model does not represent that case.
- `decompress` and `globby` (index.js:122-134). Whether decompression succeeds, whether the file search resolves, and the list of `.json` files it finds are parameters. A failed search, like a failed decompression, ends the run at the decompress step with an I/O error (`Pull.GlobFailureStops`).
- File-system writes and removal, and `ensureDir` (index.js:172-176, 191-193, 310-314). Each write's success is a parameter. `Clean` marks the start of the removal. The removal is not awaited, and its result is not modelled.
- The clock reading (index.js:34) is the parameter `ts`.
- Console messages and colours.
- Paths.Join: `path.join` normalisation of `.`, `..` and repeated separators is not modelled. Names are single segments.
- Paths.Basename: trailing separators are not modelled, since glob results have none. Node's `path.basename('.json', '.json')` is the empty string, while the model returns `.json` for a last segment equal to the extension. Glob results always carry the workspace prefix and a table name, so that input does not arise.
- Imports.PrimaryKeyHint: a `primary_key` that is not a string is not modelled.
- Config.Prepare: an option given explicitly as `undefined` is treated as absent, but `Object.assign` copies it. With `tempDir: undefined`, `path.join` throws at index.js:34 and no run starts. With `includeTables` or `excludeTables` undefined, the read of `.length` at index.js:44-46 throws inside the pull's chain. Table lists are lists of names, so a string list and its substring `.includes` are not modelled either.
- Config.TunnelConfig: a tunnel key present with the value `undefined` is treated as absent. Non-numeric ports are not modelled.
- Config.Dispatch: the task table is the single key `pull`. Keys inherited from `Object.prototype` are not modelled.
- Config.MergeOptions: settings with types other than `undefined`, string or array of strings are not modelled.

## Findings

| source | as written | input that shows it | evidently intended | confidence | as-written member | corrected member |
|---|---|---|---|---|---|---|
| index.js:307-308 | Both password files are `<tempDir>/<db>.txt`. The local password is written after the remote one (lines 191-194) | remoteDb = localDb = `app`, remotePwd `remote-secret`, localPwd `local-secret`: the dump's `--password-file` holds `local-secret` | One staging file per credential, so the dump authenticates with the remote password | not executed; high | Staging.AsWrittenCounterexample | Staging.StagedPasswordFiles |

`Config.Dispatch` names the files as the code does. `Staging.StagedPasswordsReadBack`
proves the corrected naming gives both subprocesses the right password.
