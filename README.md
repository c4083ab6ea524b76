# azurectl core: configuration, command dispatch and endpoint tasks

This project is a Dafny model of three parts of azurectl, a command line tool
for Microsoft Azure. It proves properties of each part.

- **Configuration** (`azurectl/config.py`, class `Config`). The constructor
  picks the account configuration file: an explicit `--config` file first,
  then an account template, then the default file. It parses the file and
  requires a non-empty DEFAULT section. It then selects the account section
  named by `default_account`, and the region section. The region section is
  `region:<name>` for an explicit region, and otherwise the one named by
  `default_region`. Every selected section name must exist unless it is empty.
  The getters read account and region options, and every failed lookup
  becomes a configuration-variable error. They also pick a storage account or
  container: the explicit name when it is non-empty, otherwise the region's
  default. The choice must be one of the region's comma-separated list.
- **Command line dispatch** (`azurectl/cli.py`, class `Cli`). This covers the
  service name and its precedence, the global arguments, the one-shot cached
  `load_command`, and the argv handed to the command's own usage text.
- **The `compute endpoint` task** (`azurectl/compute_endpoint_task.py`). This
  covers the help short-cut, the argument defaults of `create` and of the
  instance name, and the four sub-command flags, each checked independently.

Layout:

- `wrappers.dfy`: `Option`, `Result` and `Outcome`.
- `pystr.dfy`: the Python string semantics the code relies on. It models the
  truthiness of `None` and `""`, `a or b`, and `str.split(',')` without
  trimming (`''.split(',') == ['']`). It also models `str.replace`, which
  replaces every occurrence, left to right, without overlap.
- `docopt_args.dfy`: the values in docopt's dictionary.
- `config.dfy`, `cli.dfy`, `compute_endpoint_task.dfy`: one module per source
  file.

`Config` and `Cli` keep the source's instance state as fields. The endpoint
task keeps no collaborator objects; its calls on them become events in a
`trace` field.

- `Config.Init` assigns the fields stage by stage, as `__init__` does. It is
  proved against the function `Load`.
- `Cli.LoadCommand` updates the `loaded` field. It is proved against the
  transition function `LoadTransition`.
- `Cli.GetGlobalArgs` builds its dictionary in a loop.
- The endpoint task records, in a `trace` field, the method calls it makes on
  its collaborators: showing the manual, opening the output, configuration
  loading, `set_instance`, and the endpoint calls with the `DataCollector.add`
  of their results. Constructing the collaborators is not recorded, except
  the output object, whose construction is the `OutputOpened` event. Each
  method is proved to append exactly the events of a specification function.
  The lemmas about those functions state what the source promises.

The outside world becomes oracles, given as parameters or inputs:

- `os.path.isfile`, `ConfigFilePath`'s two lookups, and `ConfigParser.read`
  are fields of `AzureConfig.Environment`. `read` gives `None` when the parser
  raises.
- The module importer is the set of importable module names.
- docopt's result for the main usage text is the `Cli` constructor's
  argument. docopt's parse of a command's usage text is a function parameter
  of `GetCommandArgs`.
- `ConfigParser.get` is modelled as in Python 2.7:
  - a missing section is an error unless it is `DEFAULT`;
  - the option is looked up in the section, then among the defaults.

## Model

| member | source | states |
|---|---|---|
| AzureConfig.ParserGet | azurectl/config.py:129 | ConfigParser's `get`: NoSectionError exactly for a missing non-DEFAULT section; a section's own option wins; otherwise the DEFAULT entry or NoOptionError |
| AzureConfig.SectionOption | azurectl/config.py:127-145 | every failed option lookup, for a missing section or a missing option, is ConfigVariableNotFound with the option, section and file; a missing non-DEFAULT section always fails; a present option gives its value, an inherited one (also in a DEFAULT section) the DEFAULT value; `Config.AccountOption` and `Config.RegionOption` bind it to the account and the region section |
| AzureConfig.LookupConfigFile | azurectl/config.py:147-178 | a non-empty filename wins and is returned unchanged exactly when it is a file; otherwise a non-empty template uses the template lookup; otherwise the default lookup; an empty lookup result fails with AccountLoadFailed naming which lookup failed; a returned path is never empty |
| AzureConfig.CheckForSection | azurectl/config.py:120-125 | passes exactly when the name is empty or a section of the file; otherwise ConfigSectionNotFound with that name |
| AzureConfig.ImportDefaultAccount | azurectl/config.py:195-205 | no `default_account` gives ConfigAccountNotFound; otherwise its value is returned exactly when it is empty or an existing section, else ConfigSectionNotFound |
| AzureConfig.ImportDefaultRegion | azurectl/config.py:180-193 | an explicit region selects `region:` + name, which must exist; otherwise `default_region` (missing: ConfigRegionNotFound), which must be empty or exist; else ConfigSectionNotFound |
| AzureConfig.Load | azurectl/config.py:41-78 | construction succeeds exactly when every stage passes, with the looked-up file, its parse, the `default_account` account and the explicit or default region; otherwise the first failing stage decides the error: the lookup's AccountLoadFailed, ConfigParseError for an unreadable file, AccountDefaultSectionNotFound for an empty DEFAULT section, then the account's and the region's errors |
| AzureConfig.EmptyDefaultsFail | azurectl/config.py:69-73 | a file whose DEFAULT section is empty makes construction fail with AccountDefaultSectionNotFound, whatever other sections it has and whatever the region argument |
| AzureConfig.AccountBeforeRegion | azurectl/config.py:75-78 | the account is resolved before the region: a missing `default_account` is reported whatever the region settings |
| AzureConfig.ExplicitRegionRoundTrip | azurectl/config.py:115 | an explicit region name without `region:` in it comes back unchanged from the prefix removal after construction (lines 183 and 115 together) |
| AzureConfig.Config.constructor | azurectl/config.py:33-38 | a fresh instance with no storage names and empty configuration state |
| AzureConfig.Config.Init | azurectl/config.py:41-78 | stores both storage arguments; succeeds exactly when `Load` does, with `Load`'s error otherwise; on success the file, configuration, account and region fields are `Load`'s; an explicit region without `region:` is reported back by `GetRegionName` |
| AzureConfig.Config.GetSubscriptionId | azurectl/config.py:108-109 | the account section's `subscription_id`, else the DEFAULT one (also for an account named DEFAULT that is not a section); fails for any other missing account section; every failure is ConfigVariableNotFound for it |
| AzureConfig.Config.GetPublishsettingsFileName | azurectl/config.py:111-112 | the account section's `publishsettings`, else the DEFAULT one (also for an account named DEFAULT that is not a section); fails for any other missing account section; every failure is ConfigVariableNotFound for it |
| AzureConfig.Config.GetStorageAccountName | azurectl/config.py:80-92 | a returned name is always an exact element of `storage_accounts` split at commas; a non-empty explicit name is returned exactly when listed; otherwise `default_storage_account`, returned exactly when found and listed, its lookup error propagated; a failed `storage_accounts` lookup propagates its error; a chosen name not in the list raises StorageAccountInvalid with the name and the list |
| AzureConfig.Config.GetStorageContainerName | azurectl/config.py:94-106 | the same rule with `default_storage_container` and `storage_containers`: a returned name is always listed, a failed list lookup propagates its error, and an unlisted container raises StorageAccountInvalid with the name and the list |
| AzureConfig.Config.GetRegionName | azurectl/config.py:114-115 | a name without `region:` is returned unchanged; `region:` + r gives r when r has no further `region:` |
| AzureConfig.Config.GetAccountName | azurectl/config.py:117-118 | a name without `account:` is returned unchanged; `account:` + a gives a when a has no further `account:` |
| PyStr.Split | azurectl/config.py:87 | `str.split` always yields at least one piece |
| PyStr.JoinSplit | azurectl/config.py:87 | joining the pieces of a split with the separator gives the string back |
| PyStr.SplitPiecesSepFree | azurectl/config.py:87 | no piece of a split contains the separator |
| PyStr.SplitSepFree | azurectl/config.py:101 | a string without the separator splits into itself alone, so a one-entry list admits exactly its entry |
| PyStr.SplitAtSep | azurectl/config.py:87 | splitting `a,b` gives the pieces of `a` followed by those of `b` |
| PyStr.SplitJoin | azurectl/config.py:101 | separator-free pieces joined with the separator split back into the same pieces |
| PyStr.ReplaceAll | azurectl/config.py:115 | `str.replace` with every occurrence replaced left to right; replacing by something no longer than the pattern never lengthens the string |
| PyStr.ReplaceKeepsPrefix | azurectl/config.py:115 | text before the first occurrence is kept: when no occurrence starts inside `a`, replacing in `a + b` gives `a` followed by the replacement of `b` |
| PyStr.ReplaceAfterText | azurectl/config.py:115 | an occurrence after other text is removed as well: `a + pat + r` becomes `a + r` when `r` has no `pat` and none starts inside `a` (so `East region:US` loses its `region:`) |
| PyStr.RemoveLeadingCopies | azurectl/config.py:115 | every occurrence is removed, not just the first: any number of leading copies of the pattern before a pattern-free rest all disappear |
| PyStr.ReplaceAbsent | azurectl/config.py:115 | `replace` leaves a string without the pattern unchanged |
| PyStr.StripPrefixRoundTrip | azurectl/config.py:183 | removing every `pat` from `pat + r` gives r when r does not contain `pat` |
| PyStr.RemovalFacts | azurectl/config.py:115 | removal leaves a pattern-free string unchanged and strips a single leading occurrence |
| AzureCli.Command | azurectl/cli.py:99-100 | `get_command` is the `<command>` entry of docopt's dictionary, `None` when absent |
| AzureCli.ServiceName | azurectl/cli.py:89-97 | `compute` exactly when its flag is set, `setup` exactly when compute is unset and setup set, UnknownServiceName exactly when neither is |
| AzureCli.LoadTransition | azurectl/cli.py:116-135 | a loaded module is returned and kept; otherwise the service is resolved before the command is checked (UnknownServiceName, then LoadCommandUndefined); the module `azurectl.<service>_<command>_task` is loaded exactly when importable, else UnknownCommand; failures leave `loaded` as it was |
| AzureCli.LoadIdempotent | azurectl/cli.py:116-118 | after a successful load, loading again returns the same module and changes nothing, whatever is importable then |
| AzureCli.Cli.constructor | azurectl/cli.py:77-84 | keeps docopt's dictionary, takes the command arguments from `<args>`, and starts with nothing loaded |
| AzureCli.Cli.LoadCommand | azurectl/cli.py:116-135 | the returned module or error and the new `loaded` field are `LoadTransition` of the old one; the loaded module is always this command line's task module |
| AzureCli.Cli.CommandArgv | azurectl/cli.py:137-138 | the argv is the service name, then the command, then the command arguments in order |
| AzureCli.Cli.GetCommandArgs | azurectl/cli.py:102-107 | CommandNotLoaded with the command while nothing is loaded; otherwise the loaded module's usage text parsed on `CommandArgv` |
| AzureCli.Cli.GetGlobalArgs | azurectl/cli.py:109-114 | the keys are exactly those of the dictionary other than `<command>` and `<args>`, with the values unchanged |
| PyStr.Or | azurectl/compute_endpoint_task.py:93-94 | Python's `a or b`: `a` when truthy, else `b`; the result is truthy exactly when one of them is |
| ComputeEndpointTasks.InstanceName | azurectl/compute_endpoint_task.py:90-96 | `--instance-name` when non-empty, otherwise the cloud service name |
| ComputeEndpointTasks.CreateCall | azurectl/compute_endpoint_task.py:125-138 | create gets the name and port; the instance port falls back to the port; the protocol is `udp` exactly when `--udp` is set and `tcp` exactly when not; the idle timeout falls back to `4` |
| ComputeEndpointTasks.DispatchKeys | azurectl/compute_endpoint_task.py:98-148 | the sub-commands store one result per set flag, under `endpoints`, `endpoint`, `endpoint:<name>`, `endpoint:<name>` in the order list, show, create, delete, and each result is displayed right after it is stored |
| ComputeEndpointTasks.HelpShortCircuits | azurectl/compute_endpoint_task.py:74-77 | with help asked for, showing the manual for `azurectl::compute::endpoint` is the only recorded call: no configuration loading and no result |
| ComputeEndpointTasks.DispatchIndependent | azurectl/compute_endpoint_task.py:74-105 | without help, configuration is loaded, the instance is set with its fallback, and then exactly the expected results are stored, each followed by its display |
| ComputeEndpointTasks.CreateUsesDefaults | azurectl/compute_endpoint_task.py:102-138 | with `create` set, its result is stored under `endpoint:<name>`, and every create call made carries the defaulted arguments of `CreateCall` |
| ComputeEndpointTasks.ComputeEndpointTask.constructor | azurectl/compute_endpoint_task.py:70-73 | a task over the given global and command arguments that has made no call yet |
| ComputeEndpointTasks.ComputeEndpointTask.Process | azurectl/compute_endpoint_task.py:74-105 | appends exactly `ProcessEvents`: the manual alone with help, otherwise output set-up, configuration loading, `set_instance` and the sub-commands |
| ComputeEndpointTasks.ComputeEndpointTask.Dispatch | azurectl/compute_endpoint_task.py:98-105 | appends exactly the events of each set flag among list, show, create, delete, in that order |
| ComputeEndpointTasks.ComputeEndpointTask.Help | azurectl/compute_endpoint_task.py:107-112 | reports whether help was asked for, and shows the manual exactly then |
| ComputeEndpointTasks.ComputeEndpointTask.List | azurectl/compute_endpoint_task.py:114-116 | stores the endpoint list under `endpoints`, then displays |
| ComputeEndpointTasks.ComputeEndpointTask.Show | azurectl/compute_endpoint_task.py:118-123 | stores the named endpoint under `endpoint`, then displays |
| ComputeEndpointTasks.ComputeEndpointTask.Create | azurectl/compute_endpoint_task.py:125-139 | stores the create call with its defaults under `endpoint:<name>`, then displays |
| ComputeEndpointTasks.ComputeEndpointTask.Delete | azurectl/compute_endpoint_task.py:141-148 | stores the delete call under `endpoint:<name>`, then displays |

## Left out

- The streaming upload pipeline (the XZ reader and the blob uploader): out of scope; the model covers neither them nor their tests.
- `azure_cli/disk_task.py`: a thin driver over a disk service with a background progress job. Its point is concurrency.
- `azure_cli/app.py`: it picks a task class by reflection on a module's dictionary, which is Python runtime behaviour.
- `azurectl/commands/storage_blob.py`: glue around a copy operation that is still a stub.
- ConfigParser's file syntax, `%(name)s` interpolation and the lower-casing of option names: parsing is the `read` oracle, and option names are taken as already stored.
- `Cli.show_help`: it only reads the `help` entry, and the modelled code does not use it.
- docopt's own behaviour (exits for `--help` or `--version`, usage errors) and the content of usage texts: docopt's results are inputs.
- Logging, and the texts of the exception messages: each error keeps only the names its message mentions.
- The exception type and text reported when an import fails: `UnknownCommand` keeps the command and the service only.
- The construction of `Help` (on both paths of `process`), `AzureAccount`, `Endpoint` and `DataCollector` is not recorded as events; the endpoint calls' results and their failures are not modelled. Each endpoint call is merged with the `add` of its result into one `ResultAdded` event.
- `load_config` (inherited from the task base class) is the single event `ConfigLoaded`; its own failures are not modelled.
- The idle-timeout range of 4 to 30 minutes is only documented in the usage text, so the model enforces no range.
- `EndpointUsage` requires `--name` whenever `create` or `delete` is set, as the usage text guarantees; with no name, the source would fail concatenating it into the key.
- `Config.Init`: the fields assigned before a failing stage are not specified; the source raises out of the constructor and the instance is not used.
- `ComputeEndpointTask.Dispatch` is the tail of `process` (its four flag checks), factored into a method of its own.
- `ComputeEndpointTask`: the attributes `manual`, `result`, `out`, `account` and `endpoint` that `process` assigns are not fields of the model. Only the calls made on them are kept, in order, in `trace`; their own state is not modelled.
