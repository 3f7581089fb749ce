# Ghauri orchestrator, modelled in Dafny

Ghauri is an SQL-injection tool. Its entry point `perform_injection` takes a
target request (from a raw HTTP request file or from command-line options),
finds the injectable locations in it, and walks them group by group: GET,
POST, COOKIE and HEADER parameters. Which groups are tested depends on the
test level, or on custom `*` markers when the user placed them. Before
each test it probes the connection, until one probe reports the connection
tested; later tests reuse that probe's results. It asks the confirmation oracle
about each eligible parameter and stops at the first parameter reported
vulnerable. It returns a `GhauriResponse` record: the injected one, or an
all-empty record when nothing was injectable. The `Ghauri` class then
extracts data through a confirmed injection. It can list the databases,
falling back to the current database when the list cannot be read. It can
dump one table (its columns, then its records) or a whole database (its
tables, then each table in turn).

The project has four modules:

- `Text` (text.dfy): the few `str` operations the code relies on, namely
  `startswith`, ASCII `upper` and `join`; and `split`, which the code never
  calls and which is used only to state that the joined column list can be
  split back.
- `Target` (target.dfy): URL and method normalisation, level escalation
  from markers, the level-to-types table, the `testparameter` allow-list
  and the marker test.
- `Injection` (injection.dfy): `perform_injection` as imperative Dafny.
  - `TestParameter` is one pass of the inner loop.
  - `ChooseTypes` is the choice of injection types for a group.
  - `TestGroup` is the loop over a group's parameters.
  - `VisitGroup` and `SearchGroups` are the loop over groups.
  - `PerformInjection` is the whole function.
  - Each method is proved against specification functions:
    - `Candidates` is the search order.
    - `ProbeRule`, `TechniqueRule` and `DbmsAt` are the per-test rules.
    - `ProbedAt` and `TechniquesAt` are the closed forms of the first two.
    - `DbmsFollowsHints` is the backend rule applied to every test.
    - `InjectedResponse` and `NotInjected` are the two records.
  - The method also returns the sequence of tests it sent (`attempts`), so
    the contracts can state what was sent.
- `Extraction` (extraction.dfy): the `Ghauri` class.
  - Its `issued` field is the sequence of fetches sent so far.
  - Its `server` constant is the remote database's answer to each fetch.
  - The constructor starts with an empty `issued`. Each single extraction
    appends its one fetch. `ExtractDbs`, `DumpTable` and `DumpDatabase`
    append a plan function (`DbsPlan`, `TablePlan`, `DatabasePlan`).
  - Lemmas state what those plans guarantee.

The connection probe (`basic_check`), the confirmation oracle
(`check_injections`), the prompts (`logger.read_input`), the level check
(`check_injection_points_for_level`) and the remote fetches (`target.*`,
`target_adv.*`) are function-valued parameters or constants. The model
treats them as deterministic functions of the arguments that change during
a run. For the probe these are the location, the parameter and the
upper-cased techniques, which grow by an `E` after each backend hint. For
the confirmation oracle they are the fields of `Query`. In batch mode
every prompt answers yes. A Python `None` or empty string for
`possible_dbms`, `dbms`, `testparameter` or `base` is the empty string or
the empty sequence here. In the not-injected record, the empty strings the
source gives for `parameter` and `injection_type` are `None` here, since
those fields hold a parameter and a location in the injected record.

Behaviour the model keeps as written:

- A cookie marker sets the level to 2 even when level 3 was requested. So
  escalation can lower the level (`EscalateLevel`).
- The custom-marker prompt is asked only while the first injection-point
  group is handled. A "no" keeps the level's types for that group only.
  Every later group sees the marked types, because the prompt is not asked
  again and the pending answer defaults to yes (`TypesAt`).
- Without markers, the level's type list is chosen once and never changes.
- `techniques` gets one more `E` in front for every test that follows a
  probe with a backend hint. That includes tests reusing an old probe's
  hint (`TechniquesAt`).
- A backend given on the command line is never replaced. Otherwise the
  first hint the user accepts fixes it (`GivenDbmsKept`, `FixedDbmsKept`).

## Model

| member | source | states |
|---|---|---|
| Target.NormaliseUrl | ghauri/ghauri.py:141-142 | The result always starts with `http`. A URL that already does is left alone. Any other URL gets `http://` in front, and a scheme-relative `//host` gets only `http:`, so the part after `http://` is the host part. |
| Target.Resolve | ghauri/ghauri.py:129-158 | A request file's URL, body and verb are kept as parsed. On the command line the URL is exactly `NormaliseUrl` of the given one, and the body is kept. The method is POST exactly when there is a body and GET exactly when there is none. |
| Target.EscalatedLevelIsHighestMarker | ghauri/ghauri.py:162-166 | With a cookie or header marker, the level becomes the highest rank among the marked locations. |
| Target.EscalatedLevelCoversMarkers | ghauri/ghauri.py:162-166 | From any valid level, every marked location is among the types tested at the escalated level. |
| Target.LevelTypesMembership | ghauri/ghauri.py:227-232 | A type is in a level's list exactly when the level is 1, 2 or 3 and the type's rank is at most the level: GET/POST from 1, COOKIE from 2, HEADER at 3. Any other level lists nothing. |
| Target.LevelTypesNested | ghauri/ghauri.py:227-232 | Each level's list is a proper prefix of the next level's list. |
| Target.FilterByKeys | ghauri/ghauri.py:249-250 | A parameter survives the allow-list exactly when it was there and its key is listed. The list never grows. |
| Target.FilterByKeysConcat | ghauri/ghauri.py:249-250 | Filtering distributes over concatenation, so the kept parameters keep their order. |
| Injection.PickVector | ghauri/ghauri.py:372-376 | A non-empty vector is reported exactly when one of the three slots holds one. The one reported comes from the highest-priority non-empty slot: error-based before boolean-based before time-based. No vector at all only when the time slot is absent too. |
| Injection.CandidatesMembership | ghauri/ghauri.py:198-261 | A parameter belongs to the search order exactly when some group makes it eligible. Eligible means: the group's type is in force there, the parameter is in the group, the allow-list keeps it, and when markers exist it carries a `*`. |
| Injection.OnlyLevelTypesTested | ghauri/ghauri.py:227-233 | Without markers, no parameter of a type above the level is ever in the search order. |
| Injection.OnlyMarkedTested | ghauri/ghauri.py:254-261 | With markers, every parameter in the search order has a `*` in its key or value. |
| Injection.ProbeRuleUntilConnected | ghauri/ghauri.py:269-290 | Applying the per-test probe rule from the first test on makes the probe stop for good at the first probe that reports the connection tested. The `k`-th test is probed exactly when no earlier probe reported the connection tested. A probed test carries the base, hint and text-only flag of the probe for its location, parameter and techniques. Any other test reuses the previous ones. |
| Injection.TechniqueRuleAccumulates | ghauri/ghauri.py:280-318 | Applying the per-test technique rule from the first test on, the probe before a test is sent the upper-cased techniques with one `E` in front per earlier hinted test, and the test itself sends one `E` per hinted test so far, this one included. |
| Injection.GivenDbmsKept | ghauri/ghauri.py:319-326 | A backend given as an option is sent with every test. |
| Injection.FixedDbmsKept | ghauri/ghauri.py:317-327 | Once a test carries a backend, every later test carries the same one. |
| Injection.TestParameter | ghauri/ghauri.py:269-362 | The step appends exactly one test, for this parameter, to the trace. It probes exactly when the connection was not yet reported tested, sending the probe the upper-cased techniques as they stood, and then takes base, hint and text-only from the probe. It puts `E` in front of the techniques and offers the hint as backend exactly when there is a hint. It reports code 200 as None. The verdict is the oracle's answer for the query sent. |
| Injection.ChooseTypes | ghauri/ghauri.py:198-232 | After the call the prompt counts as asked exactly when markers exist. The types in force for group `i` are those of `TypesAt`: the level's list without markers, the marked list from the second group on or when the prompt was accepted. |
| Injection.TestGroup | ghauri/ghauri.py:251-396 | Parameters without a marker are skipped when markers exist. The others are tested in order. Without a hit every selected parameter of the group was tested and none was a hit. With a hit the last test is that hit and no earlier test of the group was one. The per-test rules keep holding. |
| Injection.VisitGroup | ghauri/ghauri.py:198-261 | For one group: the types in force are chosen, a group whose type is not among them adds nothing, and otherwise the allow-listed parameters are tested. The trace stays equal to the search order so far, or stops at the first hit within it. |
| Injection.SearchGroups | ghauri/ghauri.py:198-396 | Groups are visited in the parser's order. Without a hit the trace is exactly the full search order with no hit. With one the trace is a prefix of it ending at the first hit. |
| Injection.PerformInjection | ghauri/ghauri.py:129-420 | The run stops before any test exactly when no parameter is found at the escalated level. Otherwise the tests follow the search order. Only the last test can be a hit, and the run stops at it. The injected record carries the resolved URL and body, the chosen vector, the verdict's fields, the probe's base and text-only flag, and code 200 reported as None. With no hit, every candidate was tested and the all-empty record is returned. Probes, techniques, backend and code obey their rules on every test sent. |
| Text.UpperIdempotent | ghauri/ghauri.py:318 | Upper-casing twice is upper-casing once, so `E` plus the upper-cased techniques is already upper-case when sent. |
| Text.SplitJoin | ghauri/ghauri.py:757 | Joining a non-empty column list whose names hold no `,` can be undone by splitting at `,`. |
| Text.JoinEmptyIsAmbiguous | ghauri/ghauri.py:757 | A column list joins to the empty text exactly when it is empty or holds one empty name, so those two cannot be told apart afterwards. |
| Extraction.Ghauri.constructor | ghauri/ghauri.py:426-469 | The object keeps the target as reached through the injection it was built from, and has sent no fetch yet. |
| Extraction.Ghauri.ExtractCurrentDb | ghauri/ghauri.py:540-565 | Sends exactly one current-database fetch and returns its response. |
| Extraction.Ghauri.ExtractDbs | ghauri/ghauri.py:594-623 | Sends the database-list fetch. When it fails it also sends the current-database fetch and returns that response. Otherwise it returns the list's response. |
| Extraction.Ghauri.ExtractTables | ghauri/ghauri.py:625-657 | Sends exactly one table-list fetch for the database and window, and returns its response. |
| Extraction.Ghauri.ExtractColumns | ghauri/ghauri.py:659-691 | Sends exactly one column fetch for the table and window, and returns its response. |
| Extraction.Ghauri.ExtractRecords | ghauri/ghauri.py:693-735 | Sends exactly one records fetch for the table, columns and window, and returns its response. |
| Extraction.Ghauri.DumpTable | ghauri/ghauri.py:766-787 | The fetches sent are the table's column fetch, followed by the records fetch only when the columns were read. That fetch carries the read columns joined by `,`. |
| Extraction.Ghauri.DumpDatabase | ghauri/ghauri.py:737-764 | The fetches sent are the table-list fetch, then, only when it succeeded, the dump of each listed table in order. |
| Extraction.DatabaseDumpShape | ghauri/ghauri.py:737-764 | A database dump starts with the table-list fetch. When that fails nothing else is sent. Otherwise every later fetch is a column or records fetch, and the column fetches name exactly the listed tables, in order. Every records fetch comes right after a successful column fetch of the same table and carries those columns joined. Conversely, every successful column fetch is followed at once by its table's records fetch with those columns joined, and a failed one by the next table's column fetch or by nothing. Every fetch stays in the database and window asked for. |
| Extraction.TablesVisitedInOrder | ghauri/ghauri.py:745-753 | Dumping a list of tables asks for the columns of each listed table once, in the listed order. |
| Extraction.TablesRecordsFollowColumns | ghauri/ghauri.py:753-761 | In such a dump every records fetch directly follows a successful column fetch of its table, with exactly those columns joined. |
| Extraction.TablesColumnsLeadToRecords | ghauri/ghauri.py:745-761 | In such a dump every successful column fetch is followed at once by the records fetch of its table with those columns joined. A failed one is followed by the next table's column fetch, or ends the dump. |
| Extraction.TablesPlanScoped | ghauri/ghauri.py:745-761 | Such a dump sends only column and records fetches, and every one names the same database, start and stop. |
| Extraction.RecordsColumnsRecoverable | ghauri/ghauri.py:776-784 | When at least one column was read and no column name holds a `,`, splitting the records fetch's column argument gives back exactly the columns read. |

## Left out

- Logging, console output and `Ghauri.__end`: they only report, and change no state the model keeps.
- Opening and parsing the request file (`HTTPRequest`), `prepare_custom_headers` and `extract_injection_points`. Their results (URL, body, verb, injection-point groups, marker locations, multipart flag) are inputs of `PerformInjection`.
- Session file paths, verbosity, SSL context, proxy preparation and the `conf` globals. They steer code that is not part of this model.
- `exit(0)` when no parameter is found: the model returns `NoParameters`.
- The "remaining tests", multipart and JSON prompts: their answers are never used, so they change nothing. The quit answer `q` is not modelled.
- `is_resumed`: it only selects the log message before each test.
- Text-only mode: the flag kept in the `conf` global is modelled as the local the query and the response read.
- The URL, body, headers, proxy, timeouts, multipart and JSON flags, payload prefix/suffix, string matching options and session path passed to `check_injections` and `basic_check`: they are fixed for a whole run, so they are folded into the oracles.
- The `headers`, `proxy`, `filepaths` and `not_match_string` fields of `GhauriResponse`: they are the request headers, proxy and session paths passed in unchanged, and a constant `None`.
- The fields of the `Ghauri` object (URL, body, vector, backend, parameter, headers, base, injection type, proxy, timeouts, attack strings, code, text-only flag): they are only passed along with every fetch, so they are folded into `server`.
- Extraction.Ghauri.constructor: the error raised when `filepaths` is missing (`None`, or the empty string of the not-injected record) is not modelled, because session file paths are not part of this model. The model constructor always succeeds.
- The other `Ghauri` extractions (banner, hostname, current user) and `dump_requested`, which only changes log output.
- The `records` answer of a dump is not kept, because the source only logs it.
- Text.Upper: ASCII letters only. Unicode case mapping is not modelled.
- Injection.PerformInjection: the oracles are deterministic functions of the query. A real target can answer the same request differently over time.
