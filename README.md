# MySQL CDR backend — Dafny model

This project models the Asterisk add-on `cdr_addon_mysql`. The add-on writes
every call detail record (CDR) of the PBX as one `INSERT` into a MySQL
table, keeps one process-wide connection to the server, and reconnects on
demand. It reads its settings from the `global` section of
`cdr_mysql.conf` and reports the connection through `cdr mysql status`.

The model has six modules:

- `Uptime`: how the status command splits the time since the last connect
  into years, days, hours, minutes and seconds.
- `Decimal`: `%i` rendering of integers, with a parser as its partner.
- `Statement`: the row of (column, value) cells one record becomes, and the
  statement text. The text is proved equal to the source's four `sprintf`
  templates: with or without `userfield`, and with or without `uniqueid`.
- `Settings`: the connection settings, how loading fills them with defaults
  and how unloading frees them. A string setting is a `Slot`: NULL,
  a built-in default, or a copy the module owns (its `*_alloc` flag).
- `StatusReport`: the status report, meaning the target line, the
  credentials suffix, the uptime and the counters.
- `CdrMysql`: the write path. It has two specification functions. `Reconnect`
  is the retrying reconnect step. `Write` is one call of `mysql_log`. The
  `Writer` class holds the module's globals. Its methods `ReconnectLoop`
  and `Log` are proved against `Reconnect` and `Write`. `Load`, `Unload`
  and `Reload` are proved against `LoadSettings`, `Released` and
  `LoadResult`.

The database is an oracle (`Db`). It says whether a connect succeeds, whether
the k-th ping of a call succeeds, and whether the INSERT succeeds. Three
routines come from outside the module and are taken as function parameters
(`Foreign`): escaping, date formatting and disposition names. The
configuration file arrives already parsed, and `sscanf("%d")` is a parameter
`scan`. Allocation failures are inputs: a set of buffers or keys whose
allocation fails. The clock is a parameter `now`.

## Model

| member | source | states |
|---|---|---|
| Uptime.Breakdown | user/asterisk-addons/cdr_addon_mysql.c:88-98 | the unit used is chosen by strict thresholds (more than a year, a day, an hour, a minute), so exactly 60 seconds is reported as seconds only |
| Uptime.BreakdownRecombines | user/asterisk-addons/cdr_addon_mysql.c:88-98 | the printed units add back up to the elapsed time, and every unit below the leading one is within its range (days < 365, hours < 24, minutes < 60, seconds < 60) |
| Decimal.IntToDecimal | user/asterisk-addons/cdr_addon_mysql.c:221-229 | `%i` gives a non-empty string of digits with no leading zero, with a leading minus sign exactly for negative numbers |
| Decimal.DecimalRoundTrip | user/asterisk-addons/cdr_addon_mysql.c:221-229 | parsing the `%i` text of any integer gives that integer back |
| Statement.BuildRow | user/asterisk-addons/cdr_addon_mysql.c:219-231 | the row of one record has as many cells as the statement has columns |
| Statement.BuildRowColumns | user/asterisk-addons/cdr_addon_mysql.c:219-231 | the row has one cell per column of the statement, in the source's column order |
| Statement.BuildRowQuoting | user/asterisk-addons/cdr_addon_mysql.c:219-231 | exactly the duration, billsec and amaflags values are bare integers; every other value is quoted |
| Statement.BuildRowOptional | user/asterisk-addons/cdr_addon_mysql.c:219-231 | the userfield column is there exactly when it is requested, and so is the uniqueid column |
| Statement.Render | user/asterisk-addons/cdr_addon_mysql.c:219-231 | the statement starts with `INSERT INTO`, the table and the opening of the column list |
| Statement.RenderMatchesSource | user/asterisk-addons/cdr_addon_mysql.c:219-231 | the rendered statement equals the source's template for each of the four variants, including the space after the fifth value |
| Settings.LoadSettings | user/asterisk-addons/cdr_addon_mysql.c:300-424 | a load without a file or a non-empty `global` section leaves the settings unchanged; a completed load leaves settings that can connect |
| Settings.LoadOutcomeCases | user/asterisk-addons/cdr_addon_mysql.c:300-400 | a load without a file or without a non-empty `global` section changes nothing; a load completes exactly when no present string key fails to copy |
| Settings.LoadFillsDefaults | user/asterisk-addons/cdr_addon_mysql.c:312-400 | after a completed load each string setting is its configured copy, or the default "localhost", "asteriskcdrdb", "root", "cdr" or "" (no socket); so the connect guard holds |
| Settings.LoadNumbers | user/asterisk-addons/cdr_addon_mysql.c:402-424 | port, timeout and userfield become 0 when they do not scan and keep the previous value when absent; the unsigned timeout is reduced modulo 2^32 |
| Settings.LoadOutOfMemory | user/asterisk-addons/cdr_addon_mysql.c:312-400 | when the first key whose copy fails is the j-th string key, the load runs out of memory; that setting is NULL, the keys before it are copied or defaulted, the keys after it keep their old values, and no number is read |
| Settings.Released | user/asterisk-addons/cdr_addon_mysql.c:250-291 | unload sets every allocated copy to NULL and leaves every built-in default and every NULL as it was; it resets the port and keeps the timeout and the userfield toggle |
| Settings.ReleaseThenLoad | user/asterisk-addons/cdr_addon_mysql.c:250-291 | unload leaves no copies, resets the port, keeps timeout and userfield, and is idempotent; loading after unload rebuilds the same string settings and port as a first load |
| StatusReport.Truncated | user/asterisk-addons/cdr_addon_mysql.c:78-87 | `snprintf` keeps the whole text when it fits, and otherwise a prefix of exactly size - 1 characters |
| StatusReport.TargetOf | user/asterisk-addons/cdr_addon_mysql.c:77-82 | the target is the port when one is set, else the socket file when set, else the host |
| StatusReport.TargetText | user/asterisk-addons/cdr_addon_mysql.c:77-82 | the first line starts with "Connected to" and the database name |
| StatusReport.CountsOf | user/asterisk-addons/cdr_addon_mysql.c:99-102 | the report gives the total alone exactly when it equals the records since the reconnect |
| StatusReport.StatusOf | user/asterisk-addons/cdr_addon_mysql.c:72-108 | "not connected" exactly when disconnected; otherwise the uptime is the breakdown of now minus the connect time and recombines to it; the target text is truncated to its 255-byte buffer and the credentials suffix to its 99-byte buffer, and the two are printed on one line |
| StatusReport.Suffix | user/asterisk-addons/cdr_addon_mysql.c:84-87 | the suffix fits its buffer and is empty unless the table or the username is set and non-empty |
| StatusReport.HeadNotTruncated | user/asterisk-addons/cdr_addon_mysql.c:77-82 | a first line shorter than its buffer is reported whole |
| StatusReport.DefaultsHideUsername | user/asterisk-addons/cdr_addon_mysql.c:84-87 | with the default user and table, the suffix names the table only |
| StatusReport.SuffixNamesUser | user/asterisk-addons/cdr_addon_mysql.c:84-87 | for names of any length, a non-empty table replaces the username: the suffix is the truncated " using table" text, the truncated " with username" text only without a table, and empty with neither |
| CdrMysql.Reconnect | user/asterisk-addons/cdr_addon_mysql.c:135-171 | one reconnect step makes at most one connect, and only with full settings |
| CdrMysql.ReconnectBounds | user/asterisk-addons/cdr_addon_mysql.c:135-171 | at most `retries` pings and at most one connect, and a connect only with full settings; the records count is kept or reset to 0; a link that ends up connected came from a successful connect (reset, stamped now) or from an untouched live link whose first ping succeeded |
| CdrMysql.ReconnectWithSettings | user/asterisk-addons/cdr_addon_mysql.c:136-170 | with full settings: at most one ping; a live link that answers is kept; otherwise exactly one connect, with no retry, and the link is up exactly when it succeeds |
| CdrMysql.ReconnectWithoutSettings | user/asterisk-addons/cdr_addon_mysql.c:152-170 | without full settings: never connects; pings until one succeeds or the retries run out, every earlier ping having failed; a failed first ping resets the records; the link stays up exactly when it was up and the first ping succeeds |
| CdrMysql.Write | user/asterisk-addons/cdr_addon_mysql.c:115-248 | a write that fails for memory sends nothing and counts nothing; the total rises by at most one, and only for a sent statement that succeeds |
| CdrMysql.WriteReturnCode | user/asterisk-addons/cdr_addon_mysql.c:205-214 | -1 exactly when a required buffer is missing (uniqueid only when it is logged; userfield never), else 0; a statement is sent exactly when the result is 0 and the link is up after the reconnect step |
| CdrMysql.WriteSendsSourceStatement | user/asterisk-addons/cdr_addon_mysql.c:202-231 | the statement sent is the source's template, with the userfield column exactly when the toggle is non-zero and its buffer was allocated |
| CdrMysql.WriteCounters | user/asterisk-addons/cdr_addon_mysql.c:236-247 | the total rises by one exactly when a sent statement succeeds, and the records rise with it; after the reconnect step only a failed statement touches the link; a successful insert keeps the link up with its connect time, and a write that sends nothing leaves the link as the reconnect step did; records never exceed the total |
| CdrMysql.WriteSmooth | user/asterisk-addons/cdr_addon_mysql.c:236-244 | on a live link whose ping succeeds, a write with its buffers allocated and its INSERT accepted adds one record and keeps the link and its connect time |
| CdrMysql.NoSendWithoutConnection | user/asterisk-addons/cdr_addon_mysql.c:135-171 | with incomplete settings and no connection, a write sends nothing, connects never and leaves the total unchanged |
| CdrMysql.SessionCounters | user/asterisk-addons/cdr_addon_mysql.c:236-247 | over any sequence of writes the total grows by at most one per write and never falls below the records since the reconnect |
| CdrMysql.SessionSteady | user/asterisk-addons/cdr_addon_mysql.c:236-244 | from a live link, N writes that all go through leave the link up with the same connect time, with records and total both raised by N |
| CdrMysql.LoadResult | user/asterisk-addons/cdr_addon_mysql.c:293-465 | load returns 0 with no file or no settings and -1 out of memory; a completed load returns the CDR registration result when it fails, otherwise the CLI registration result |
| CdrMysql.Writer.constructor | user/asterisk-addons/cdr_addon_mysql.c:54-62 | before loading, every setting is NULL and every number 0 |
| CdrMysql.Writer.ReconnectLoop | user/asterisk-addons/cdr_addon_mysql.c:135-171 | the `goto` retry loop leaves the link, ping count and connect count that `Reconnect` specifies |
| CdrMysql.Writer.Log | user/asterisk-addons/cdr_addon_mysql.c:115-248 | one `mysql_log` call leaves the link and total, and returns the code and statement, that `Write` specifies; records never exceed the total |
| CdrMysql.Writer.Load | user/asterisk-addons/cdr_addon_mysql.c:293-465 | settings become `LoadSettings`; a completed load connects (records reset, connect time stamped on success) and returns the registration result; any other outcome leaves the connection untouched |
| CdrMysql.Writer.Unload | user/asterisk-addons/cdr_addon_mysql.c:250-291 | disconnects (records reset only if it was connected), frees owned settings, and keeps the total and the connect time |
| CdrMysql.Writer.Reload | user/asterisk-addons/cdr_addon_mysql.c:477-487 | unload then load: settings are loaded over the released ones; a completed load leaves the link up exactly when it connected, with records reset; otherwise the link is down and the records are reset only if it was connected; the connect time is stamped only by a successful connect |
| CdrMysql.Writer.Status | user/asterisk-addons/cdr_addon_mysql.c:72-108 | the status report of the current state: not connected exactly when the flag is clear; the uptime is the breakdown of the time since the connect; the total is shown alone exactly when it equals the records |

## Left out

- The MySQL client library (`mysql_init`, `mysql_options`, `mysql_real_connect`, `mysql_ping`, `mysql_real_query`, `mysql_close`, `mysql_errno`) is foreign. Its outcomes are the `Db` oracle. The connect timeout option and the handle's own state are not modelled. The classification of ping errors only selects a log message.
- `mysql_escape_string` is foreign and is the parameter `escape`. The model makes no claim about its output, including the buffer-size assumption of at most twice the input.
- `ast_localtime`/`strftime` with `DATE_FORMAT` and `ast_cdr_disp2str` depend on time zones and on the PBX. They are the parameters `dateString` and `dispositionName`.
- `ast_config_load`, `ast_variable_browse`, `ast_variable_retrieve` and `sscanf` are parsing. A configuration is a parsed map of sections, and `scan` gives the parsed integer or nothing.
- `malloc`, `alloca` and `free`: allocation success is an input, and freeing is clearing the slot.
- The mutex around `mysql_log` and `reload` exists only for concurrency. `Reload` is an unload followed by a load.
- CDR and CLI registration and unregistration are calls into the PBX. `Load` takes their results as inputs, and unregistration is not modelled.
- `ast_log` and `ast_cli` output is not modelled. The status report is a value holding the text pieces and numbers the command prints.
- The 2048-byte statement buffer and the 128-byte date buffer are unbounded strings here, so a statement longer than the buffer does not overflow.
- CdrMysql.Writer.Log: `records` and `totalrecords` are C `int`s and may wrap past 2^31 - 1. The model counts without bound.
- Decimal.IntToDecimal: `%i` of a value outside the 32-bit range is not modelled. The CDR fields are unbounded integers.
- StatusReport.Truncated: C counts bytes, and the model counts characters. A host, database or table name outside ASCII is therefore cut at a different place than `snprintf` cuts it. Also, `%s` stops at a NUL byte, while a model string may contain `'\0'`.
- StatusReport.StatusOf: `time(NULL) - connect_time` is stored in an `int` in the source. The model does not truncate it.
- `time(NULL)` is the parameter `now`.
