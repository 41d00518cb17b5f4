# presto-admin: role selection, worker configuration and expected cluster status

A Dafny model of three parts of presto-admin, the tool that installs, configures and
monitors a Presto cluster made of one coordinator and a set of workers.

- **Role and host selection** (`FabricApi`, file `fabricapi.dfy`). This decides which hosts a
  fabric task runs on. It filters `env.hosts` against `env.exclude_hosts` and looks roles up in
  `env.roledefs`. It runs the wrapped task only on hosts that hold a named role, and runs worker
  tasks only on workers that are not the coordinator. fabric's global `env` is passed in as
  parameters. "Calling `f`" is a returned decision, `Dispatch<A>`. It is one of `Invoke(args)`,
  `Skip`, `Abort(message)` or `KeyError(key)`.
- **Worker configuration engine** (`Workers`, file `workers.dfy`). This covers the default
  bundle, the merge of user overrides over the defaults, and the ordered validation rules of a
  worker's configuration. A bundle is a map from a logical file name to a `Payload`. A payload is
  a property map (`node.properties`, `config.properties`) or an ordered flag list
  (`jvm.config`). Validation returns the bundle unchanged or a `ConfigurationError` carrying the
  message the tests expect.
- **Expected cluster status** (`Status`, file `status.dfy`). The product-test helpers build
  per-host status records for a topology: coordinator first, then the workers. There are
  healthy, not-started, not-installed, single-node-up and node-down variants. The helpers render
  those records into the lines `server status` prints. The module also has the retry check that
  tells a transient report from a settled one. The builders are methods whose loops grow or
  rewrite a sequence of records, as the Python helpers do.

Shared helpers: `Wrappers` (`wrappers.dfy`: Option, Result) and `Strings` (`strings.dfy`). The
string helpers are Python's `in` on strings, `startswith`, `join`, `str(n)` and `repr` of a
list of names.

External inputs become parameters:
- fabric's `env`: hosts, excluded hosts, current host, role table;
- the cluster under test: IP map, internal master and slaves (`Status.Cluster`);
- the label of a stopped host and the connection-error text;
- `PRESTO_VERSION`;
- the text a `server status` run printed.

## Model

| member | source | states |
|---|---|---|
| `FabricApi.GetHostList` | prestoadmin/util/fabricapi.py:25-26 | every selected host is in `env.hosts` and not in `env.exclude_hosts`; every host that is not excluded keeps its exact number of occurrences |
| `FabricApi.GetHostListAppend` | prestoadmin/util/fabricapi.py:25-26 | selecting from `a + b` gives the selection of `a` followed by that of `b`, so the original order is kept |
| `FabricApi.GetHostListSingle` | prestoadmin/util/fabricapi.py:26 | a single host is kept exactly when it is not excluded (with the append lemma this fixes the whole result) |
| `FabricApi.GetHostListNoExclusions` | prestoadmin/util/fabricapi.py:26 | with an empty exclude list the result is `env.hosts` itself |
| `FabricApi.GetHostListIdempotent` | prestoadmin/util/fabricapi.py:26 | filtering the result again with the same exclusions changes nothing |
| `FabricApi.Lookup` | prestoadmin/util/fabricapi.py:50-53 | `env.roledefs[name]` is found exactly when `name` is one of the table's names, and the hosts returned are that entry's hosts |
| `FabricApi.GetCoordinatorRole` | prestoadmin/util/fabricapi.py:29-30 | returns the hosts of the `coordinator` entry, or nothing (KeyError) when the table has no such role |
| `FabricApi.GetWorkerRole` | prestoadmin/util/fabricapi.py:33-34 | returns the hosts of the `worker` entry, or nothing (KeyError) when the table has no such role |
| `FabricApi.InvalidRoleMessage` | prestoadmin/util/fabricapi.py:51-52 | the abort text starts with "Invalid role name <name>. Valid rolenames are " and lists every valid name of the table |
| `FabricApi.ByRolename` | prestoadmin/util/fabricapi.py:46-54 | with no role name `f` runs; with an unknown name the call aborts with the invalid-role message and `f` does not run; with a known name `f` runs iff the host is in that role, else it is skipped; `f` always gets the given arguments |
| `FabricApi.TaskByRolename` | prestoadmin/util/fabricapi.py:37-43 | the wrapper's outcome is `by_rolename` applied to `env.host`, the role name and the unchanged arguments |
| `FabricApi.ByRoleCoordinator` | prestoadmin/util/fabricapi.py:57-59 | `f` runs iff the host is in the coordinator role, else it is skipped; a table without that role raises KeyError |
| `FabricApi.ByRoleWorker` | prestoadmin/util/fabricapi.py:62-64 | `f` runs iff the host is in the worker role and not in the coordinator role; the coordinator role is consulted only for hosts in the worker role |
| `FabricApi.ByRoleCoordinatorIsByRolename` | prestoadmin/util/fabricapi.py:46-59 | when the table has a coordinator role, `by_role_coordinator` decides as `by_rolename('coordinator')`; without it the first raises KeyError and the second aborts |
| `FabricApi.CoordinatorAndWorkerExclusive` | prestoadmin/util/fabricapi.py:57-64 | no host runs both the coordinator task and the worker task |
| `FabricApi.EveryRoleHostRunsOnce` | prestoadmin/util/fabricapi.py:57-64 | with both roles defined, a host runs one of the two tasks iff it is in the coordinator role or the worker role |
| `Strings.ReprList` | prestoadmin/util/fabricapi.py:51-52 | the rendering of `env.roledefs.keys()` shows the quoted form of every name |
| `Strings.NatToString` | tests/product/test_status.py:197-198 | `str(port)` is a non-empty string of decimal digits with no leading zero |
| `Strings.ParseNatToString` | tests/product/test_status.py:197-198 | reading the rendered port back gives the port: `str` loses nothing |
| `Workers.BuildDefaults` | tests/unit/test_workers.py:28-53 | the default bundle has exactly the three required files: the four fixed node properties, the nine fixed JVM flags in order, and a `config.properties` with exactly its five keys and their values for every coordinator: `coordinator = false`, `discovery.uri = http://<coordinator>:8080`, `http-server.http.port = 8080`, `query.max-memory = 50GB` and `query.max-memory-per-node = 1GB` |
| `Workers.BuildDefaultsExample` | tests/unit/test_workers.py:28-53 | for coordinator `a` the default bundle is, value by value, the literal bundle the test expects |
| `Workers.DiscoveryUriHost` | tests/unit/test_workers.py:121-129 | for a host name without `:` or `/`, the default discovery URI starts with `http://` and its host component is the coordinator host |
| `Workers.FirstMissing` | tests/unit/test_workers.py:68-72 | finds the first required file the bundle lacks, with all the earlier ones present |
| `Workers.Validate` | tests/unit/test_workers.py:55-145 | a valid bundle is returned unchanged; otherwise the first broken rule decides the error: the first missing required file is named; then coordinator must be "false"; then `discovery.uri` must be present; then it must start with `http://`, and the message quotes it; then it must not name localhost in a multi-node cluster; a bundle keeping every rule is accepted |
| `Workers.MisspeltFileRejected` | tests/unit/test_workers.py:68-72 | a bundle whose only file is the misspelt `node.propoerties` is refused with "Missing configuration for required file: node.properties" |
| `Workers.DefaultsAreValid` | tests/unit/test_workers.py:63-66 | for a coordinator host name without `:` or `/`, the defaults pass validation unchanged, unless the coordinator is `localhost` and the cluster has more than one host, in which case the localhost rule fires |
| `Workers.MergePayload` | tests/unit/test_workers.py:92-119 | property maps merge key by key: the user's value wins, unknown user keys pass through, and keys the user does not give keep the default; a non-empty user flag list replaces the default list and an empty one keeps it |
| `Workers.Merge` | tests/unit/test_workers.py:86-119 | the merged bundle has the files of both; a file only the user gives passes through, a file only the defaults give is taken from them, and a file both give is merged payload by payload |
| `Workers.MergeEmpty` | tests/unit/test_workers.py:86-90 | an empty user configuration merges to exactly the defaults |
| `Workers.MergeIdempotent` | tests/unit/test_workers.py:92-119 | applying the same overrides twice gives the same bundle as applying them once |
| `Workers.MergeDefaultsAgain` | tests/unit/test_workers.py:86-119 | filling the defaults into a bundle that has already been merged over them changes nothing |
| `Workers.MergeFillsDefaults` | tests/unit/test_workers.py:86-119 | the merged bundle has the files of both sides; files the user omits are the defaults' files; every property the user gives is kept; every default property the user does not override is kept |
| `Workers.GetConf` | tests/unit/test_workers.py:86-129 | an empty coordinator role raises IndexError. Otherwise the call succeeds exactly when the merge of the user's configuration over the defaults passes validation, and any other failure is a ConfigurationError: exactly the error `Validate` raises on that merge, so its message reaches the caller of `get_conf`. A successful result is exactly that merge, so a non-empty user `jvm.config` replaces the default flags. It passes validation unchanged, is well formed and fills in the defaults as `MergeFillsDefaults` states |
| `Workers.GetConfEmptyIsDefault` | tests/unit/test_workers.py:86-90 | with no user configuration `get_conf` returns exactly `build_defaults()` |
| `Workers.GetConfNodePropertiesOverride` | tests/unit/test_workers.py:92-119 | a user `node.properties` overrides the defaults it names, adds its unknown keys, and leaves the other defaults and the other files as they were |
| `Workers.GetConfLocalhostMultiNode` | tests/unit/test_workers.py:121-129 | with coordinator `localhost` and more than one host in the cluster, `get_conf` fails with "discovery.uri should not be localhost in a multi-node cluster" |
| `Status.BaseStatus` | tests/product/test_status.py:125-142 | one entry per host, `1 + |workers|` of them: the coordinator first, then the workers in order; the role is coordinator for the entry equal to the coordinator host and worker otherwise; every entry is Running with its IP from the IP map and no error |
| `Status.NotStartedStatus` | tests/product/test_status.py:144-151 | the same hosts and roles, every entry with IP Unknown, Not Running and the "unable to query coordinator" message |
| `Status.NotInstalledStatus` | tests/product/test_status.py:153-159 | the same hosts and roles, every entry with IP Unknown, Not Running and "Presto is not installed." |
| `Status.SingleNodeUpStatus` | tests/product/test_status.py:161-166 | only the entries whose host is `node` are Running; every entry, those included, keeps IP Unknown and the "unable to query coordinator" message |
| `Status.NodeNotAvailableStatus` | tests/product/test_status.py:168-183 | the entry whose host is `node` is Not Running with the connection-error message and IP Unknown, and is relabelled with the down hostname. Without a coordinator outage every other entry is as in `base_status`. With one, every other entry keeps Running but gets IP Unknown and the "unable to query coordinator" message |
| `Status.ErrorBlock` | tests/product/test_status.py:193-194 | the block of an entry with a non-empty error is the status line, the header and the error line |
| `Status.ExpectedOutputAppend` | tests/product/test_status.py:186-201 | the expected lines of two reports put together are the lines of the first followed by those of the second |
| `Status.CheckStatus` | tests/product/test_status.py:185-203 | the expected lines are, entry by entry in order, 'Server Status:' and the header with host, IP, role and running state; then the error line if the error is non-empty, else the URI (with the port), version, active and connector lines if the host is Running, else nothing |
| `Status.GetStatusUntilCoordinatorUpdated` | tests/product/test_status.py:208-217 | the status output is returned unchanged iff it contains neither "the coordinator has not yet discovered this node" nor the running-coordinator-that-could-not-be-queried text; otherwise PrestoError is raised with the message of the first condition found |
| `Status.UnqueriedRunningCoordinatorIsTransient` | tests/product/test_status.py:185-217 | the joined expected output of any report in which a Running coordinator shows the "unable to query coordinator" error contains the second transient text, so the retry check raises |
| `Status.OnlyCoordinatorUpIsTransient` | tests/product/test_status.py:50-60 | the expected output when only the coordinator runs, checked on the default port 8080 as the test leaves the port out, is always transient for the retry check, which is why that test does not retry |

## Left out

- Remote execution, fabric's `execute` over many hosts and its concurrency are not modelled. Each host's decision is modelled on its own.
- `abort` printing and exiting is not modelled; an abort is the returned `Abort(message)`.
- The wrapped task `f` is never run. Its return value is dropped by `by_rolename` and by the `task_by_rolename` wrapper, which return None, so the model has no return value for it.
- `Strings.ReprList`: renders names as plain byte strings in single quotes. It does not model Python's escaping of quotes or special characters, nor the `u'...'` form of unicode names.
- The role table is a list of entries in the dictionary's iteration order, so the abort text is deterministic. Python's order for `keys()` is implementation-defined.
- Role values are lists of host names. fabric also accepts other shapes, and Python treats a bare string role (tests/unit/test_workers.py:29,64) as a string of characters; neither is modelled.
- prestoadmin/workers.py is not part of this model. The worker engine is pinned down by the assertions of tests/unit/test_workers.py, and so are these choices:
  - required files are checked in the order `node.properties`, `jvm.config`, `config.properties`;
  - a required file holding the wrong kind of content (a list for a property file, or the reverse) is refused, with this model's own wording for the message;
  - a `config.properties` without a `coordinator` key is refused like one whose value is not "false";
  - the localhost rule compares the URI's host component (the text after `http://` up to the first `:` or `/`) with `localhost`, and counts the hosts of the `all` role;
  - for `jvm.config`, an empty user list keeps the default list and a non-empty one replaces it;
  - user content of a different kind than the default's is kept as given, and validation then refuses it.
- `Workers.Validate`: covers the worker's validation only. The coordinator's own configuration (`coordinator = true`) lives in a module that is not part of this model.
- `Workers.GetConf`: takes the coordinator role and the `all` role as lists. A KeyError for a missing role key is not modelled.
- tests/product/test_status.py: these are left out:
  - the `test_*` methods, which drive a live cluster;
  - `self.retry` and `run_prestoadmin`, which live in a base class not part of this model;
  - the cluster's Docker plumbing.
- `Status.CheckStatus`: returns the expected lines. It does not model the `assertRegexpMatches` comparison against the real output. The `\(` escapes are dropped, and regex metacharacters in IPs or the version are taken literally.
- `Status.BaseStatus`: needs an IP for every host and, for the default topology, three internal slaves. The Python helper raises KeyError or IndexError otherwise, and no test handles those errors.
- The Python identity tests (`is`) at tests/product/test_status.py:137,164,195 are modelled as value equality.
- The status dictionaries are updated in place in Python. Here each loop rebuilds a sequence of records. Nothing else holds a reference to those dictionaries, so no aliasing is lost.
- The 'not yet discovered' text is produced by the real status command, not by these helpers. The model only checks for it.

## Where the model chooses beyond the tests

- `Workers.BuildDefaults` gives every host the worker defaults, with `coordinator = "false"`, as tests/unit/test_workers.py:28-53 asserts. A `coordinator = "true"` configuration for the coordinator host is not derived from it.
- The localhost rule fires when the `all` role lists more than one host. The model counts the entries of that list, as tests/unit/test_workers.py:126 fills it, and does not remove duplicates first.
- A report is transient exactly when it contains one of the two fixed substrings of tests/product/test_status.py:210-216. The model keeps that substring test and does not name transient states.
- `get_worker_role` reads the `worker` key, while tests/unit/test_workers.py:30 sets `workers`. The model follows each file as written.
