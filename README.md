# ComfyUIManager plugin engine — a Dafny model

ComfyUIManager is the plugin that lets KatUI load ComfyUI custom nodes and
manage ComfyUI plugins. This project models its install/remove engine and the
data shaping behind its plugin panel:

- the five transports that put plugin files in place or take them away:
  `copy_install`, `copy_uninstall`, `unzip_install`, `gitclone_uninstall`
  (`_external_functions.py`) and `gitclone_install` (`main.py`). Each walks
  its list of URLs in order and returns `False` at the first URL whose step
  fails (`Transports`);
- the post-fetch installer `execute_install_script` with
  `try_install_script`, `run_script`, `handle_stream` and the retrying
  `rmtree` (`Scripts`);
- `is_valid_url`, with the part of `urllib.parse.urlparse` it relies on
  (`Urls`);
- the three web handlers that list, install and remove plugins and keep the
  installed-plugins cache (`Registry`);
- start-up loading of custom node modules into `NODE_CLASS_MAPPINGS`
  (`NodeLoading`), and the node descriptions built by `node_info`,
  `convert_type` and `node_info_to_node_dict` (`NodeInfo`);
- from the panel `comfyui_manager.tsx`: the search, the conversion of the
  remote catalogue, the merged and filtered "Plugins Repo" list, the sort by
  name, the revert rows, the action buttons and the usage count
  (`PluginList`).

The machine is a value `Platform.Os`. It holds a filesystem (a map from
resolved paths to directories and files), the list of processes spawned so
far, and the number of tree deletions attempted so far. Everything outside
the program is fixed in a `Platform.World` of oracle functions:

- exit statuses;
- downloads;
- archive contents, named relative to the directory they are extracted into;
- what `git clone` creates, named relative to the repository directory it creates;
- whether the n-th `shutil.rmtree` call succeeds.

The imperative code is modelled as methods on two classes. `Platform.Host`
updates the filesystem and process table in place. `Registry.Server` keeps
the cache file and the reload count. `NodeLoading.NodeRegistry` holds the two
node mappings. Each method is proved equal to a specification function on
`Os`, and the properties are proved about those functions. `gitclone_uninstall`
is modelled with a corrected safety check (see Findings), and the remove
handler uses it. Python dicts that
the code only indexes are Dafny maps. JavaScript objects, and Python dicts
whose key order is observable, are insertion-ordered association lists
(`Dicts`).

## Model

| member | source | states |
|---|---|---|
| Urls.ValidUrlHasAuthority | _external_functions.py:29-34 | an accepted URL, once leading controls, tabs and line breaks are dropped, starts with a non-empty scheme of scheme characters followed by `://` |
| Urls.CommonShapeValid | _external_functions.py:29-34 | every `scheme://host[/path]` with an alphabetic scheme, a non-empty host free of `/?#[]`, and no control character or space anywhere in the URL is accepted |
| Urls.NoSchemeInvalid | _external_functions.py:29-34 | a text without `:` has no scheme and is rejected |
| Urls.UnbalancedBracketInvalid | _external_functions.py:29-34 | a host with only one of `[` and `]` makes the parse raise `ValueError`, and the URL is rejected |
| Scripts.EchoLine | _external_functions.py:108-118 | stderr lines go to stderr and stdout lines to stdout; a stderr progress line is printed after `\r`, whole when it starts with `100%` and otherwise without exactly its last character; any other line is the prefix, a space and the line |
| Scripts.ProgressUpdateOverwrites | _external_functions.py:109-113 | an unfinished progress update carries no newline, so the next one overwrites it; the 100% one keeps its newline |
| Scripts.HandleStream | _external_functions.py:106-118 | one echo per line of the stream, in order, each as `EchoLine` decides |
| Scripts.RunScriptSpec | _external_functions.py:121-137 | a command whose first token starts with `#` is not started and returns 0; any other is spawned once in `cwd` and returns its exit status; the disk is untouched |
| Scripts.RunScript | _external_functions.py:121-137 | the host's new state and the returned status are those of `RunScriptSpec` |
| Scripts.TryInstallScriptSpec | _external_functions.py:140-159 | a deferred command spawns nothing, is either queued or raised, and, when queued, is the last line of `install-scripts.txt`; any other command is spawned once in the repository and gives `Failed` exactly when it exits non-zero |
| Scripts.DeferredAppendsOneLine | _external_functions.py:141-150 | when the startup path is not a regular file and no directory sits at the queue file, a deferred command is queued as exactly one new line appended to the queue file, every other existing entry on disk unchanged |
| Scripts.DeferredRaisesWhenBlocked | _external_functions.py:141-148 | a deferred command raises exactly when the startup path is a regular file or the queue file is a directory; a regular file at the startup path leaves the state untouched |
| Scripts.TryInstallScript | _external_functions.py:140-159 | the host's new state and the outcome are those of `TryInstallScriptSpec` |
| Scripts.PipInvocationsPerLine | _external_functions.py:172-178 | one pip command per non-blank line of `requirements.txt`, each installing one line's stripped text |
| Scripts.PipInvocationsAppend | _external_functions.py:173-178 | the pip commands of a split file are those of its parts, in order |
| Scripts.InstallPackagesSpawnsPip | _external_functions.py:173-178 | the loop spawns exactly the reference pip commands, touches no file and succeeds |
| Scripts.InstallRequirementsSpawnsPip | _external_functions.py:170-178 | with a readable or missing `requirements.txt`, the pip step spawns one pip command per non-blank line in file order and succeeds |
| Scripts.ExecuteInstallRunsEachRequirement | _external_functions.py:162-185 | non-lazy installation spawns the pip commands, then `install.py` once if it exists, and returns `True` whatever their exit statuses |
| Scripts.ExecuteInstallScript | _external_functions.py:162-185 | the host's new state and the result are those of the specification, the requirements loop proved against `InstallPackages` |
| Scripts.RmtreeStep | _external_functions.py:195-199 | one attempt: the Windows `attrib` call, then one deletion that removes the whole tree or nothing |
| Scripts.RmtreeLoopAttempts | _external_functions.py:188-208 | entered with counter `count`, the loop makes 1 to `count + 1` attempts, stops at the first success, fails only after all failed, and removes the tree exactly when it succeeds |
| Scripts.RmtreeSucceedsIffSomeAttempt | _external_functions.py:188-208 | `rmtree` succeeds exactly when one of its at most four attempts does |
| Scripts.RmtreeRetryScenarios | _external_functions.py:189-206 | two failures then a success return success after three attempts; four failures re-raise after four |
| Scripts.Rmtree | _external_functions.py:188-208 | the host's new state and the result are those of `RmtreeSpec` |
| Platform.AppendLine | _external_functions.py:145-148 | appending raises, changing nothing, when the target is a directory or the directory that holds it is a regular file; otherwise it creates a missing file or adds exactly one line at the end |
| Platform.Download | _external_functions.py:70-75 | `download_url` creates its directory when missing; it fails when that directory is a file, when the URL ends in no name, `.` or `..`, or when a directory holds the target name, and otherwise exactly when the fetch fails; on success the fetched file is stored under the URL's name and nothing else changes |
| Platform.Clone | main.py:362-365 | `git clone url` is spawned once in the given directory; it succeeds exactly when the destination named after the URL is not a file or a non-empty directory and git exits with 0, and then the destination holds the cloned entries; a failure changes no file |
| Platform.CloneAgainRefused | main.py:360-365 | after a successful clone, whose `.git` directory lands in the destination, cloning the same URL again is refused with only the spawn recorded |
| Transports.CopyInstallStep | _external_functions.py:65-79 | a copy step is `download_url` into the custom nodes directory for a `.py` URL and into the script directory otherwise; it succeeds exactly when that target is not blocked and the download succeeds, and the directory exists afterwards either way |
| Transports.CopyInstallPlacement | _external_functions.py:69-75 | with the target free, a `.py` file lands in the custom nodes directory and anything else in the script directory, created first when missing, under the URL's file name with the downloaded content; nothing else changes |
| Transports.CopyInstallRefusesDirectory | _external_functions.py:69-79 | a directory under the target name, or a file in place of the target directory, fails the step; only the missing directory is created |
| Transports.CopyBatchSucceedsIffAllDownloads | _external_functions.py:64-82 | `copy_install` returns `True` only when every URL downloads, and exactly then when no target is blocked or names one of the two directories |
| Transports.CopyBatchSpawnsNothing | _external_functions.py:64-82 | `copy_install` spawns no process and attempts no deletion |
| Transports.CopyInstall | _external_functions.py:64-82 | the host's new state and the result are those of the batch specification |
| Transports.CopyTargetsAgree | _external_functions.py:64-91 | with the handlers' defaults, `copy_install` and `copy_uninstall` name the same file |
| Transports.CopyRoundTrip | _external_functions.py:64-103 | with the target free, installing a file by copy and then uninstalling the same URL removes exactly the installed file and nothing else |
| Transports.CopyUninstallAbsent | _external_functions.py:94-97 | a file present under neither name is no error and nothing changes |
| Transports.CopyUninstallCases | _external_functions.py:93-100 | a file is removed; failing that, its `.disabled` twin is removed; a directory in its place makes the step fail with nothing removed |
| Transports.CopyUninstall | _external_functions.py:85-103 | the host's new state and the result are those of the batch specification |
| Transports.UnzipInstallStep | _external_functions.py:40-58 | an unzip step succeeds exactly when the archive can be fetched and opened and no entry clashes with the disk (a file on a directory, a directory on a file, or a file where its directory should be) |
| Transports.UnzipBatchAllOrNothingReported | _external_functions.py:37-61 | `unzip_install` returns `True` exactly when every archive opens and extracts without a clash on the disk the archives before it left, and only if every archive opens; the disk is then the old one with every archive extracted into the custom nodes directory, later archives overwriting earlier ones |
| Transports.UnzipBatchConfined | _external_functions.py:39-58 | whatever `unzip_install` returns, it removes nothing, and every entry it creates or overwrites lies in the custom nodes directory |
| Transports.UnzipInstall | _external_functions.py:37-61 | the host's new state and the result are those of the batch specification |
| Transports.BatchAppend | _external_functions.py:216-251 | a batch over `a + b` is the batch over `a`, then, only if it succeeded, the batch over `b` |
| Transports.CloneUrl | main.py:358-359 | the cloned URL is the given URL when that ends in `.git`, and otherwise the given URL extended by exactly four characters ending in `.git` |
| Transports.GitcloneInstallStep | main.py:334-372 | an invalid URL fails the step with nothing changed and no deletion is ever attempted |
| Transports.GitBatchRejectsInvalidFirst | main.py:334-337 | an invalid first URL ends `gitclone_install` with `False` and nothing cloned or spawned |
| Transports.GitNamesAgree | main.py:339-344 | for `.../name`, `.../name.git` and either with a trailing slash, install clones `.../name.git` into `name` and uninstall targets that same `name` |
| Transports.GitReinstallRefused | main.py:355-372 | installing an already cloned repository again fails at `git clone`, with only that spawn recorded and no install script run, so `gitclone_install([u, u])` returns `False` |
| Transports.GitcloneInstallOne | main.py:335-372 | the host's new state and the result are those of one install step |
| Transports.GitcloneInstall | main.py:332-375 | the host's new state and the result are those of the batch specification |
| Transports.UninstallDirEffect | _external_functions.py:228-245 | after the safety check, a step leaves the disk alone or deletes exactly the named directory's tree or its `.disabled` twin's |
| Transports.UninstallDirectory | _external_functions.py:228-245 | the host's new state and the result are those of `UninstallDir` |
| Transports.DotGitNameIsEmpty | _external_functions.py:217-220 | a URL whose last component is `.git` yields an empty directory name |
| Transports.AsWrittenGuardDeletesAllPlugins | _external_functions.py:220-245 | as written, the check lets the custom nodes directory itself through for such a URL, and a successful step deletes every plugin |
| Transports.GuardConfinesDeletion | _external_functions.py:216-248 | with the corrected check, a step deletes nothing or only the one plugin directory one level below the custom nodes directory (or its `.disabled` twin), and never that directory itself |
| Transports.CheckedTargetIsChild | _external_functions.py:220-245 | a name that passes the corrected check names a child of the custom nodes directory, and so does its `.disabled` twin |
| Transports.UnsafeTargetRefused | _external_functions.py:220-226 | a URL the safety check refuses fails its step with nothing changed, under the check as written and under the corrected one |
| Transports.GitBatchStopsAtRefused | _external_functions.py:216-248 | `gitclone_uninstall` returns `False` at the first refused URL, with the state the URLs before it left and nothing of it or any later URL deleted |
| Transports.GitcloneUninstallOne | _external_functions.py:217-248 | the host's new state and the result are those of one corrected uninstall step |
| Transports.GitcloneUninstall | _external_functions.py:211-251 | the host's new state and the result are those of the batch specification, with the corrected safety check |
| Registry.ListingMarksEveryPlugin | main.py:378-393 | the listing holds every cached plugin and no other, each with its path set to the installed mark; no cache file lists nothing; no node loader gives a 500 |
| Registry.InstallStoresPayload | main.py:414-441 | a known install type runs its transport and stores the payload under its name; every other entry is kept; the nodes reload once; the reply is a 200 |
| Registry.InstallIgnoresTransportResult | main.py:420-441 | the cache and the reply after an install do not depend on what the transport reported |
| Registry.RefusedRequestsChangeNothing | main.py:414-464 | no node loader or an unknown install type changes nothing, with a 500 or the raised `ValueError` |
| Registry.UnzipRemovalRefused | main.py:461-462 | removing an `unzip` plugin changes nothing and answers 500 with the manual-removal message |
| Registry.RemoveSpecRuns | main.py:457-477 | a removal with a known type runs its transport, drops the entry, reloads and answers 200 |
| Registry.RemoveDropsEntry | main.py:466-471 | removal drops the name from an existing cache (a missing name is no error) and keeps every other entry; with no cache file none is written |
| Registry.InstallThenRemove | main.py:429-471 | install then remove of the same plugin leaves the cache as it was, less any older entry under that name |
| Registry.InstalledPluginListedForRemoval | main.py:390-391 | after an install, the listing marks the plugin installed, so the panel offers Remove and hides it from the remote list |
| Registry.RunTransport | main.py:420-425 | the host's new state and the result are those of the transport's batch |
| Registry.Server.ListPlugins | main.py:378-393 | the reply is the listing specification of the current state |
| Registry.Server.InstallPlugin | main.py:396-441 | the host, cache, reload count and reply are those of the install specification |
| Registry.Server.RemovePlugin | main.py:444-477 | the host, cache, reload count and reply are those of the remove specification, whose `git-clone` removal uses the corrected safety check |
| NodeLoading.MergeClassesBindings | main.py:57-60 | an ignored name keeps its binding or its absence, any other name the module exports takes the module's class, every other name is untouched |
| NodeLoading.LoadOne | main.py:57-66 | loading succeeds exactly when the module has class mappings; without them both mappings are unchanged; with them the classes are merged as `MergeClassesBindings` says, the module's display names are all set, and every other display name is kept |
| NodeLoading.NodeRegistry.LoadModule | main.py:57-66 | the mappings and the result after the merge loop are those of `LoadOne` |
| NodeLoading.LoadAllOutcomes | main.py:88-90 | one outcome per candidate, in order: its path, and success exactly when its import yields class mappings |
| NodeLoading.LoadAllKeepsIgnored | main.py:59-60 | however many modules load, an ignored name keeps its class or stays unregistered |
| NodeLoading.LoadAllOnlyAddsExported | main.py:57-60 | a name that no loaded module exports and that was not registered before is not registered after |
| NodeLoading.RemovePyCache | main.py:79-80 | removing the cache entry drops no other entry and adds none |
| NodeLoading.KeptExactly | main.py:82-87 | the paths handed to the loader are exactly those of the entries that neither `continue` skips |
| NodeLoading.CandidatesExactly | main.py:78-87 | every candidate is a `.py` file or a directory, never `.disabled`, and every such entry other than `__pycache__` is a candidate |
| NodeLoading.DisabledTwinNeverLoaded | main.py:86-87 | a module renamed to its `.disabled` twin is never loaded |
| NodeLoading.PyCacheNeverLoaded | main.py:79-80 | a listing that names `__pycache__` once never loads it |
| NodeLoading.ModulePath | main.py:83-87 | the joined path of an entry, and whether one of the two tests skips it |
| NodeLoading.NodeRegistry.LoadPath | main.py:88-90 | the mappings and results after one load are those of the specification extended by that path |
| NodeLoading.NodeRegistry.LoadEntry | main.py:82-90 | one listing entry extends the loaded paths by exactly that entry's kept path, if any |
| NodeLoading.NodeRegistry.LoadFolder | main.py:78-90 | the mappings and results after one folder are those of loading its candidates in order |
| NodeLoading.NodeRegistry.LoadCustomNodes | main.py:73-90 | the mappings and results are those of loading every folder's candidates in order, against the names registered before the walk |
| NodeLoading.LoadingKeepsBaseNames | main.py:74-89 | loading never replaces a class that was registered before the walk |
| NodeInfo.ConvertType | main.py:180-188 | a string stands for itself; the error is raised exactly for a value that is neither a string nor a list of strings, with the source's message |
| NodeInfo.LiteralListsEveryChoice | main.py:183-187 | a list of strings becomes `typing.Literal[...]` naming every choice quoted |
| NodeInfo.LiteralAppendsChoice | main.py:186-187 | one more choice at the end of the list adds `, 'x'` just before the closing bracket, so the choices appear in list order |
| NodeInfo.LiteralShapes | main.py:186-187 | the empty list and a one-choice list give `typing.Literal[]` and `typing.Literal['a']` |
| NodeInfo.NonStringChoiceRejected | main.py:185-188 | one non-string item makes the whole list unsupported |
| NodeInfo.ConvertAll | main.py:197-203 | the port types convert one by one in order; a failure is the error of the first unsupported port |
| NodeInfo.GetNodeInfo | main.py:159-177 | a name with no class raises `KeyError` with the name, and only then |
| NodeInfo.NodeInfoDefaults | main.py:164-176 | a class defining only inputs and return types gets no list outputs, outputs named by their types, its own name shown, an empty description, category `sd`, no output node |
| NodeInfo.OutputTypes | main.py:211 | `zip` of return types and list flags stops at the shorter of the two |
| NodeInfo.ReplaceChar | main.py:247 | every `/` becomes `.`, every other character is kept |
| NodeInfo.NodeInfoToNodeDict | main.py:191-249 | the node type, class name, display name and description are copied from the info |
| NodeInfo.NodeDictFailsOnUnsupportedPort | main.py:195-203 | the description is built exactly when every required and optional port type converts |
| NodeInfo.InputsRequiredThenOptional | main.py:193-208 | with distinct port ids, the inputs are the required ports, then the optional ones, in declaration order, each with its converted type |
| NodeInfo.OutputsByName | main.py:211-215 | every named output has the type of its last occurrence in the zip, the list type where flagged; with no output, `{"output": "None"}` |
| NodeInfo.ListOutputMarked | main.py:211-212 | with distinct names, a flagged output has the list type |
| NodeInfo.PluginNameFromCategory | main.py:247 | the plugin name is the category with every `/` turned into `.` |
| NodeInfo.DefaultOutputs | main.py:164-215 | a class without outputs has the one output `None`; plain distinct return types become one output each, named by the type |
| PluginList.EmptyWordMatches | comfyui_manager.tsx:41-46 | the empty word matches every target |
| PluginList.SubstringMatches | comfyui_manager.tsx:41-46 | a word that occurs in the target is found |
| PluginList.SearchIgnoresCase | comfyui_manager.tsx:41-46 | the test gives the same answer on the lower-cased word and target |
| PluginList.ConvertRemote | comfyui_manager.tsx:66-92 | the title becomes the name and the reference the url; author, description, files and install type are kept; `is_single_file` holds exactly for `copy`; every other field is undefined |
| PluginList.RemoteIndexEntries | comfyui_manager.tsx:119-123 | the remote index has a key exactly for each catalogue title, holding the conversion of the last catalogue entry with that title |
| PluginList.EmptySearchShowsUninstalled | comfyui_manager.tsx:482-491 | with an empty search the remote list shows exactly the plugins without a path |
| PluginList.SearchFindsNodeType | comfyui_manager.tsx:490-491 | a search for part of an uninstalled plugin's node type finds it |
| PluginList.FilterShown | comfyui_manager.tsx:481-493 | the filter keeps exactly the entries whose plugin is shown |
| PluginList.FilterShownAppend | comfyui_manager.tsx:481-493 | filtering a concatenation is filtering each part in turn, so the entries keep their order |
| PluginList.FilterShownKeys | comfyui_manager.tsx:481-493 | filtering keeps keys unique |
| PluginList.RemoteEntriesGet | comfyui_manager.tsx:477-493 | a key is listed with the installed plugin when there is one, else the remote one, and only while it is shown |
| PluginList.Insert | comfyui_manager.tsx:215-217 | insertion adds exactly the one plugin |
| PluginList.InsertSorted | comfyui_manager.tsx:215-217 | insertion into a sorted list keeps it sorted |
| PluginList.SortByName | comfyui_manager.tsx:215-217 | the rows are sorted by name and are a permutation of the values |
| PluginList.RemoteRowsContents | comfyui_manager.tsx:477-495 | the "Plugins Repo" rows are sorted and hold exactly the shown plugins of the merged view, none installed |
| PluginList.ShortHash | comfyui_manager.tsx:222 | the short hash is the first seven characters, or the whole hash when shorter |
| PluginList.CommitRows | comfyui_manager.tsx:219-228 | one row per commit hash in order, with its short hash and the message at the same index; `''` with no messages; undefined past the end |
| PluginList.PrimaryAction | comfyui_manager.tsx:366-371 | the button removes exactly the plugins that have a path and installs the others |
| PluginList.UsageCount | comfyui_manager.tsx:429-437 | the count is between 0 and the number of graph nodes, 0 exactly when no node uses the plugin, all exactly when every node does |
| PluginList.UsageCountAppend | comfyui_manager.tsx:430-437 | the count over a split graph is the sum of the counts of its parts |
| PluginList.ConvertedPluginIsUninstalled | comfyui_manager.tsx:66-92 | a fresh catalogue plugin is listed under an empty search, offers Install, has Update disabled, no revert rows and a zero count |
| PluginList.InstalledRowsOfferRemove | comfyui_manager.tsx:366-371 | every installed row with a path offers Remove |

## Left out

- Processes: the pipes and threads of `run_script` are not modelled. A spawned command never changes the disk in the model. The hooks `install.py`, `uninstall.py` and `disable.py` and pip are not modelled beyond being started. `handle_stream` is modelled on its list of lines, and the printed messages are left out.
- Downloads, archives and clones are oracle answers. The HTTP headers, the temporary `manager-temp.zip` and the integrity and skip-if-present logic of `download_url` are left out. An archive's or a clone's entries are placed under the directory they go into; `zipfile`'s own cleaning of entry names is taken as given.
- `os.makedirs` is modelled as creating the one missing directory. Missing intermediate directories are not created.
- Paths resolve by dropping empty and `.` segments. `..` and symbolic links are not resolved.
- Paths are POSIX paths: `/` is the only separator. Windows backslashes are not modelled, and neither are the doubled backslashes of `repr` in a queue line. `Config.windows` only decides the `attrib` call of `rmtree`.
- Platform.Clone: git's choice of the destination directory is modelled as the URL's last component less `.git`. Its other rules (a trailing `/.git`, a `host:path` URL) are not modelled.
- Platform.Extract and Transports.UnzipInstallStep: on a clash, `extractall` leaves the entries extracted before the failing one on disk; the model leaves the disk unchanged, since the order of an archive's members is not modelled. Clashes between two entries of the same archive are not modelled.
- Platform.RmtreeAttempt: whether an attempt succeeds depends only on the attempt number, so the model lets an attempt on a regular file succeed, where `shutil.rmtree` always raises on one. No lemma relies on such a success.
- `time.sleep(3)` and every `print` are left out of `rmtree` and the transports.
- Urls.IsValidUrl: IDNA/NFKC netloc checks and the full IPv6 bracket validation of `urlsplit` are not modelled. Only the scheme rule, the network location and the unbalanced-bracket error are modelled.
- Lower-casing in the search and in the URL scheme is modelled as ASCII lower-casing.
- PluginList.SortByName: `localeCompare` is modelled as code-unit lexicographic order, and the sort as a stable insertion sort.
- JavaScript objects list integer-like keys first. The model keeps plain insertion order.
- Importing a node module is an oracle. `spec_from_file_location`, `exec_module`, `sys.modules`, `WEB_DIRECTORY` handling (main.py:52-55) and the import-time report are left out.
- The display names copied at main.py:61-62 are merged with a plain map update.
- `init_custom_nodes` (main.py:103-148) loads a fixed list of built-in extras before the walk. It is not modelled beyond `load_custom_nodes`.
- NodeInfo.NodeInfoToNodeDict: the defaults read from the execute function's signature (main.py:218-220) and the constant fields are not modelled.
- NodeInfo.GetNodeInfo: `OUTPUT_NODE` is modelled as an optional boolean, so only `== True` is modelled.
- NodeInfo.Repr: Python's quoting of strings that contain quotes is not modelled. The same holds for Scripts.QueueEntry, which writes a command list's repr.
- The module-level registration of the plugin's own nodes is not modelled (main.py:252-257, `monkey_patch_comfy_nodes` and `add_plugin`).
- The node-loader re-initialisation after install and remove is modelled as a reload counter.
- Registry: a payload without `files`, `install_type` or `name` (a `KeyError`) is outside the model. A payload is a typed record.
- A cache file that is not valid JSON is not modelled.
- The panel's rendering, notifications, the revert request, pagination and the fetches are left out. The fetched data are inputs.
- The Update button's action is left out: the source leaves it empty.
- Transports.GitcloneUninstall, Registry.RemoveSpec and Registry.Server.RemovePlugin use the corrected safety check, which also refuses a directory name of `""`, `.` or `..`; the check as written is modelled by Transports.GitcloneUninstallStepAsWritten and its consequence is under Findings.

## Findings

| source | as written | input that shows it | evidently intended | confidence | as-written member | corrected member |
|---|---|---|---|---|---|---|
| _external_functions.py:220-245 | the safety check refuses only `/`, a drive root and the empty path, so a directory name of `""`, `.` or `..` passes and `dir_path` is the custom nodes directory itself (or its parent) | `gitclone_uninstall(["https://example.com/.git"])`: the name is `""`, `dir_path` is `custom_nodes/`, and `rmtree` deletes every installed plugin | only a plugin directory one level below the custom nodes directory may be deleted; a name that is empty, `.` or `..` is refused | not executed | Transports.AsWrittenGuardDeletesAllPlugins | Transports.GuardConfinesDeletion |
