# idb: xctest run filters and client-manager companion selection, in Dafny

This project models two pieces of decision logic from idb, the iOS device and simulator automation bridge, and proves properties about them.

- **The `xctest run` commands** (`idb/cli/commands/xctest.py`, module `Xctest` in `xctest.dfy`). The `app`, `ui` and `logic` sub-commands each turn their flags into the test filters of a run request. The logic command's `--test-to-run` takes precedence over `--tests-to-run`. Otherwise `--tests-to-run` is joined with commas into a set holding one string; the model also proves that splitting that string on commas gives back the names when no name contains a comma. The `--report-attachments` flag implies `report_activities`, and one `run` value gives `is_ui`/`is_logic`. Installing bundles first rewrites the bundle ids in the argument namespace. The run exits with code 3 when some test result crashed outside a test case.
- **The gRPC client manager** (`idb/grpc/management.py`, module `Management` in `management.dfy`). `from_udid` chooses the companion a command talks to, or spawns a new one. `_local_target_type` decides the target type of a spawned companion, and its socket path is derived from the udid. The manager keeps a stored set of companions. `list_targets` describes every stored companion and prunes the dead ones when configured to. `kill` clears the set and signals every cleared companion whose `pid` is not `None`.

`common.dfy` (module `Common`) holds `Option`, `Result` and Python's `set(xs)`.

The command-line model follows the code. `Namespace` is a class, because `install_bundles` rewrites `args.test_bundle_id`, `args.app_bundle_id` and `args.test_host_app_bundle_id` in place, one loop per install stream. The logic filter keeps the source's `+=` loop and the `[:-1]` slice. It is proved against a reference `Join`. `Split` models Python's `str.split(",")` and gives the round trip. The crash flag is a loop, proved against the fold `CrashFlag`.

The client-manager model is a class `ClientManager`. Its field `companions` holds the contents of the companion set. Calls that leave the process are replaced by the values they produce, passed in as parameters:
- `listing`: what `companion.list_targets` returns.
- `describe`: the outcome of `client.describe()` for each address, where `None` means the call raised.
- `pid`: the id of the spawned companion process.
- `reported`: the companion that a directly connected server reports.

`CompanionSet` is not part of this model. This model assumes the following about it:
- adding appends a record;
- removing an address drops every record with that address;
- removing a udid drops every record for that udid;
- clearing returns the old contents and leaves the set empty.

`BASE_IDB_FILE_PATH` is defined in `idb/common/constants.py`, which is not part of this model. It is taken as `/tmp/idb`. The socket-path properties depend only on that path being absolute and not ending in `/`. `os.path.join` is modelled with its POSIX rule: a second part that starts with `/` replaces the first part.

## Model

| member | source | states |
|---|---|---|
| `Common.ElementsSize` | idb/cli/commands/xctest.py:299 | `set(names)` collapses duplicates: it is never larger than the list, and it is non-empty for a non-empty list |
| `Xctest.BaseTestsToRun` | idb/cli/commands/xctest.py:252-253 | the base command applies no run filter |
| `Xctest.BaseTestsToSkip` | idb/cli/commands/xctest.py:255-256 | the base command (and so `logic`) applies no skip filter |
| `Xctest.AppFilter` | idb/cli/commands/xctest.py:298-302 | no filter exactly when the list is absent or empty; otherwise a set holding exactly the given names, of size between 1 and the list's length |
| `Xctest.LogicTestsToRun` | idb/cli/commands/xctest.py:346-357 | a non-empty `--test-to-run` wins and gives exactly its names; otherwise a non-empty `--tests-to-run` gives the one-element set of the comma-joined names; otherwise no filter |
| `Xctest.TerminatedIsJoin` | idb/cli/commands/xctest.py:350-353 | the `+=` loop builds the joined names plus one trailing comma, and `[:-1]` removes exactly that comma |
| `Xctest.JoinLength` | idb/cli/commands/xctest.py:349-356 | the joined string's length is the sum of the name lengths plus n-1 commas |
| `Xctest.SplitJoin` | idb/cli/commands/xctest.py:350-356 | when no name contains a comma, splitting the joined string on `","` gives back the names in order |
| `Xctest.TestsToRun` | idb/cli/commands/xctest.py:200 | each sub-command's `get_tests_to_run`: `app` and `ui` use the app filter, `logic` the precedence-then-join rule |
| `Xctest.TestsToSkip` | idb/cli/commands/xctest.py:201 | `logic` never skips; `app` and `ui` skip exactly the given names, or nothing for an absent or empty list |
| `Xctest.ParseCoverageFormat` | idb/cli/commands/xctest.py:219 | `CodeCoverageFormat[name]` gives `EXPORTED` or `RAW` for exactly those names, and fails for any other name |
| `Xctest.MakeRequest` | idb/cli/commands/xctest.py:202-239 | `report_activities` holds whenever `report_attachments` does, and exactly when either flag was given; `is_ui` and `is_logic` are never both true and follow `run`; the given test arguments are passed, or `[]` when the namespace has none; the timeout, the result-bundle, activities, coverage and log paths, `report_attachments`, `wait_for_debugger` and the coverage format are passed through unchanged |
| `Xctest.CrashFlagIffSomeCrash` | idb/cli/commands/xctest.py:242-244 | the folded `crashed_outside_test_case` flag is true exactly when some result crashed outside a test case |
| `Xctest.CrashFlagNeverReverts` | idb/cli/commands/xctest.py:242-244 | once the flag is set after some prefix of the stream, it stays set after every longer prefix |
| `Xctest.ConsumeResults` | idb/cli/commands/xctest.py:218-246 | the run exits with code 3 exactly when some result crashed outside a test case, and completes normally otherwise |
| `Xctest.Namespace.constructor` | idb/cli/commands/xctest.py:202-210 | the namespace parsed by a sub-command has `run` set to that sub-command's name, an app bundle id and test arguments exactly for `app` and `ui`, and a test host bundle id exactly for `ui` |
| `Xctest.Namespace.InstallTestBundle` | idb/cli/commands/xctest.py:248-250 | the test bundle id becomes the name of the last install response, or stays as it was when there was none; the other ids are unchanged |
| `Xctest.Namespace.InstallAppBundle` | idb/cli/commands/xctest.py:293-296 | the app bundle id becomes the name of the last app install response, or stays; the other ids are unchanged |
| `Xctest.Namespace.InstallTestHostBundle` | idb/cli/commands/xctest.py:318-321 | the test host bundle id becomes the name of the last host install response, or stays; the other ids are unchanged |
| `Xctest.Namespace.InstallBundles` | idb/cli/commands/xctest.py:198-199 | installs the test bundle, then for `app`/`ui` the app, then for `ui` the test host; each id becomes the last name reported, and the ids a sub-command lacks stay absent |
| `Xctest.Namespace.RunWithClient` | idb/cli/commands/xctest.py:196-246 | ids are rewritten only when installing, each to the last name reported, and the ids a sub-command lacks stay absent; the request carries the rewritten ids, the sub-command's run filter (the app filter, or for `logic` the precedence-then-join rule) and skip filter, `report_activities` exactly when either report flag was given, `is_ui`/`is_logic` exactly for the `ui`/`logic` sub-command, the test arguments for `app`/`ui` and `[]` for `logic`, and the timeout, paths and remaining flags unchanged; an unknown coverage format sends no request; otherwise the exit code is 3 exactly when some result crashed outside a test case |
| `Management.IndexBy` | idb/grpc/management.py:121-124 | the udid-keyed dict has exactly the udids of the records as keys, and each key maps to a record with that udid |
| `Management.IndexByLastWins` | idb/grpc/management.py:121-124 | a later record with the same udid replaces an earlier one: a key maps to the last record carrying it |
| `Management.SelectCompanion` | idb/grpc/management.py:125-143 | a given known udid uses a stored companion with that udid, and nothing is spawned; a given unknown udid spawns for exactly that udid; without a udid, one distinct udid uses its companion, an empty set fails with "no companions", and several udids fail with "multiple companions" |
| `Management.SelectLastStored` | idb/grpc/management.py:121-135 | among several stored companions for one udid, the last stored is used, whether that udid was given or is the only one stored |
| `Management.LocalTargetType` | idb/grpc/management.py:33-44 | `"mac"` gives the Mac type without consulting the listing; any other udid gives the type of a listed target with that udid, and fails with the listed udids when no target has it |
| `Management.LocalTargetTypeLastListed` | idb/grpc/management.py:36-44 | when several listed targets share the udid, the type of the last listed one is used |
| `Management.PathJoin` | idb/grpc/management.py:78 | POSIX `os.path.join`: an absolute second part replaces the first part; otherwise the result is the first part, then a `/` exactly when the first part is non-empty and does not already end in `/`, then the second part |
| `Management.CompanionSocketPath` | idb/grpc/management.py:78 | the socket is `BASE_IDB_FILE_PATH/<udid>_companion.sock`, or `<udid>_companion.sock` when the udid is itself an absolute path |
| `Management.SocketPathsDistinct` | idb/grpc/management.py:78 | companions spawned for different relative udids never share a socket path |
| `Management.WithoutAddresses` | idb/grpc/management.py:116 | removing companions by address keeps exactly the records at other addresses |
| `Management.WithoutAddressesConcat` | idb/grpc/management.py:116 | removal distributes over joining two lists, so the kept records stay in their stored order |
| `Management.WithoutAbsentAddresses` | idb/grpc/management.py:116 | removing addresses that no stored record has leaves the list exactly as it was |
| `Management.WithoutAddressesTwice` | idb/grpc/management.py:116 | removing one set of addresses and then another is removing their union |
| `Management.WithoutUdid` | idb/grpc/management.py:205 | disconnecting by udid keeps exactly the records for other udids |
| `Management.WithoutAbsentUdid` | idb/grpc/management.py:205 | disconnecting a udid that no stored record has leaves the list exactly as it was |
| `Management.RemovalsCommute` | idb/grpc/management.py:161-176 | the removals made by the concurrently gathered describes give the same set in either order |
| `Management.PruneStep` | idb/grpc/management.py:109-117 | a successful describe adds no failed address; a failed one, removed from what the earlier failures left, leaves the snapshot without every address failed so far |
| `Management.PruneAllFailed` | idb/grpc/management.py:109-117 | after every failed describe has removed its address, exactly the reachable companions remain, in stored order |
| `Management.ConnectedTargetsFollowCompanions` | idb/grpc/management.py:165-176 | the connected targets are the non-`None` describe results, one for each reachable companion, in companion order |
| `Management.SpawnedPidsExactly` | idb/grpc/management.py:209-216 | exactly the companions that have a pid are signalled; a companion without a pid is skipped |
| `Management.ClientManager.constructor` | idb/grpc/management.py:48-69 | the manager starts from the stored companions with the given companion executable and pruning policy |
| `Management.ClientManager.SpawnCompanionServer` | idb/grpc/management.py:71-99 | fails without a companion executable before looking at targets; fails when no target matches; otherwise starts a server on the udid's socket with the target's type, stores the new local companion with its pid, and returns it |
| `Management.ClientManager.CompanionToTarget` | idb/grpc/management.py:101-117 | returns the description, or `None` when describing fails; a failed companion is removed exactly when pruning is on, and the set is unchanged otherwise |
| `Management.ClientManager.ListTargets` | idb/grpc/management.py:151-179 | there are no local targets without a companion executable; the connected targets are the successful describes in companion order; with pruning on, only the reachable companions remain |
| `Management.ClientManager.FromUdid` | idb/grpc/management.py:119-149 | an existing companion is used with the set unchanged; a failed selection changes nothing; an unknown udid spawns, and stores, the local companion on that udid's socket path with the spawned pid, or fails with "no companion executable" or the target-lookup error and changes nothing |
| `Management.ClientManager.Connect` | idb/grpc/management.py:181-201 | an address stores the companion that the server reports; a udid spawns, and stores, the local companion on that udid's socket path with the spawned pid, or fails with "no companion executable" or the target-lookup error and changes nothing |
| `Management.ClientManager.Disconnect` | idb/grpc/management.py:203-205 | forgets the companions at that address, or those for that udid |
| `Management.ClientManager.Kill` | idb/grpc/management.py:207-216 | the set is empty afterwards; the signalled pids are those of the cleared companions that have one, in cleared order |

## Left out

- The future/context and data-consumer framework that the rest of idb builds on is not part of this model. Its sources are not among the files modelled.
- Argument-parser declarations and help strings (`add_parser_arguments`, `add_parser_positional_arguments`, `CommandGroup`) are left out: they are declarations with no behaviour. The model takes the parsed namespace as its input.
- Printing, JSON output and the `human_format_*`/`json_format_*` helpers are output only. This covers the install progress lines and the `--wait-for-debugger` notice. The notice says the flag defaults to false for app and ui tests. The code still passes `args.wait_for_debugger` through unchanged, and the model follows the code.
- `XctestInstallCommand`, `XctestsListBundlesCommand` and `XctestListTestsCommand` are left out: their work is client I/O and printing. `XctestListTestsCommand.install_bundles` (idb/cli/commands/xctest.py:116-118) is the same rewriting as `Xctest.Namespace.InstallTestBundle`. Resolving the app path there is filesystem access.
- `super().run_with_client` of `ClientCommand` and `get_env_with_idb_prefix` are left out. Both are outside the modelled files. The request carries no environment.
- The gRPC client calls, `Client.build`, `asyncio.gather`, logging, `os.makedirs`, spawning a companion process and `os.kill` are left out. Their successful results are parameters. `list_targets` describes the companions one after another. `Management.RemovalsCommute` shows that the order in which the removals land does not change the final set.
- Management.ClientManager.Kill: every `os.kill` is taken to succeed. In the code, a pid that has already exited makes `os.kill` raise `ProcessLookupError`, which `kill` does not catch. `kill` then stops with the set already cleared, and the later pids are never signalled. The model signals all of them.
- Exceptions raised by the spawned server (`spawn_domain_sock_server`) and by the install and run streams (`install_xctest`, `install`, `run_xctest`) propagate out of the code and are not modelled. A failure in the middle of an install stream leaves the bundle ids partly rewritten. A failure in the middle of the run stream skips the exit-code check. The model has every such call succeed.
- `merge_connected_targets` is not part of this model. `Management.ClientManager.ListTargets` returns the local and the connected targets unmerged.
- The `OnlyFilter` argument of `list_targets` is left out. It is passed on to the companion executable, and its effect is already part of the `listing` parameter.
- In `connect`, the `else` branch that raises "can't find target" is left out. A `CompanionInfo` is always truthy, so the branch cannot be taken.
- The messages of `IdbException` are left out. Each message is one constructor of `IdbError`, and that constructor carries the udids the message shows.
- `FBAMDServiceConnection.h`, `FBProcessFetcher.h`, `FBCodeCoverageConfiguration.h` and `FBCodeCoverageRequest.h` are left out. They are declarations without bodies. The two coverage formats they name are `Xctest.CoverageFormat`.
