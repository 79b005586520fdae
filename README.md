# FileWise voice agent: a Dafny model of its command core

FileWise ("Jarvis") is a voice assistant for Windows. A front end listens, sends the
request to a FastAPI backend, and speaks the answer. The backend asks a Gemini chat
session to turn the request into a JSON command, or into a `workflow` of commands.
It runs each command through a `command_map` of handlers (open, search, execute,
copy, browse, close a program, ...) and returns the results. Some variants also
summarise each step and remember earlier turns.

This project models the part of that system that decides what happens to a command.
That is, four backends and the front ends' treatment of an answer:

| module | models |
|---|---|
| `AgentV1` | `EnhancedFileAgent` of `backend/jarvis_backend_v1.py`: each handler call inside a `try`, browser and system commands, conversation memory |
| `AgentCheckpoint` | `EnhancedFileAgent` of `backend/.ipynb_checkpoints/jarvis_backend-checkpoint.py`: the same memory and search, with no `try` around a handler call |
| `AgentBasic` | `FileAgent` of `backend/jarvis_backend.py`: no memory, the earlier `_search_item` |
| `AgentMain` | `FileAgent` of `backend/.ipynb_checkpoints/main-checkpoint.py`: one command per reply, a per-command summary sentence |
| `Memory`, `Similarity` | `ConversationMemory` and `_calculate_similarity` (the same text in v1 and the checkpoint) |
| `Search` | both versions of `_search_item` |
| `Dispatch`, `Binding`, `Workflow` | `_execute_single_command` up to the lookup in `command_map`, Python's binding of `f(**params)`, and the `workflow` loop of `_execute_command` |
| `Handlers`, `Apps`, `Browse` | `_open_file`, `_open_folder`, `_execute_code`, `_copy_item`, `_clarify`, `_respond`, `_open_application`, `_close_program`, `_browse_internet` |
| `Speech` | `format_response_for_speech` and `needs_clarification` of the voice front ends, and which result windows `handle_backend_response` opens |
| `Values`, `Text`, `Paths`, `Host`, `Base` | Python values and the parts of `str`, `ntpath` and `os` the core uses |

How the Python world is represented:

- **Values.** A JSON-like Python value is a `Values.Value`: `None`, `bool`, `int`,
  `float`, `str`, `list`, or `dict`.
  - A `dict` is a sequence of pairs in insertion order, so its order is visible.
  - `in`, `[]`, `.get`, `.lower()`, `str()` and `repr()` are modelled with Python's
    outcomes. An operation that raises in Python gives `Raised(message)`, with the
    message CPython 3.11 prints.
- **Calls.** A handler call `command_map[name](**params)` goes through
  `Binding.Bind`, which follows Python's rules for keyword arguments:
  - an unexpected keyword is refused, and so is `self`;
  - a missing required argument is refused;
  - a non-mapping is refused;
  - `**kwargs` collects the rest.
- **The operating system** is a `Host.Host` value, a fixed snapshot of the machine.
  - It provides `abspath`, `exists`, `isdir`, `os.walk`, the running processes, the
    browsers, and `difflib`'s ratio.
  - It also decides which call fails and with what message.
- **Handler effects.** Every call a handler makes is returned as an `Effect`, in
  order: a file opened, a program started, a copy, a termination, a URL opened. The
  agent classes append these to a ghost log, `effects`.
- **The agents.** Each agent is a class.
  - Its `ConversationMemory` is a class with `history` and `cache` fields, which the
    methods update.
  - `_execute_command` and its loop are methods. Each is proved against a function
    in `Workflow` or `Dispatch` that states the whole result.

Points where the system's specification and the code disagree (the model follows the
code):

- **Cache key.** The cache key is `f"{search_path}:{keyword.lower()}"`: the path, a
  colon, then the lower-cased keyword. It is not the lower-cased keyword followed by
  the path.
- **Failure sentence.** The failure summary is `❌ Failed to {cmd} with {params}.
  Reason: {error}`, and a success is `✅ {cmd} executed with {params}`. The
  per-command sentences exist only in `main-checkpoint.py`.
- **Self-similarity.** The similarity of a one-word name to itself is 0.85, not 1.0,
  because the partial-match part adds only 0.5 per related pair
  (`Similarity.SingleIdenticalTerm`).
- **Workflow short-circuiting.** In v1 every handler call is inside a `try`, so a
  workflow of well-formed steps always runs to the end (`AgentV1.WorkflowCompletes`);
  a step whose `parameters` cannot be rewritten still raises before its handler. In the checkpoint and
  in `jarvis_backend.py`, one raising step ends the loop. The answer is then
  `Execution error: ...`, and the earlier entries are lost
  (`AgentCheckpoint.RaiseAbortsWorkflow`).
- **Semantic fallback.** The semantic fallback of `_search_item` can never suggest a
  file that only `_search_item` itself cached. The search caches its bare results,
  which have no `results` key, so no cached entry records a file
  (`Search.SemanticNeverSucceeds`).

## Model

| member | source | states |
|---|---|---|
| Memory.ConversationMemory.constructor | backend/jarvis_backend_v1.py:56-61 | a new memory has no history and an empty search cache, and keeps its cap |
| Memory.ConversationMemory.AddInteraction | backend/jarvis_backend_v1.py:63-75 | the history becomes the old history plus the new turn, trimmed with Python's slice rules to the cap |
| Memory.Trim | backend/jarvis_backend_v1.py:73-75 | under a positive cap only the last `cap` turns remain; a cap of 0 keeps every turn |
| Memory.HistoryKeepsMostRecent | backend/jarvis_backend_v1.py:63-75 | after any number of additions under a positive cap, the history is the most recent turns, oldest first |
| Memory.ZeroCapKeepsAll | backend/jarvis_backend_v1.py:73-75 | with a cap of 0 nothing is ever dropped (`h[-0:]` is the whole list) |
| Memory.ConversationMemory.GetContext | backend/jarvis_backend_v1.py:77-89 | the string the loop builds is the context of the history: a header and the rendered last three turns |
| Memory.ContextEmptyIff | backend/jarvis_backend_v1.py:79-80 | the context is "No previous conversation." exactly when the history is empty |
| Memory.ContextOfLastThree | backend/jarvis_backend_v1.py:82-88 | turns older than the last three never change the context |
| Memory.NewestRenderedLast | backend/jarvis_backend_v1.py:63-89 | after a turn is added under a positive cap, it is the last turn the context renders |
| Memory.BlockIs | backend/jarvis_backend_v1.py:84-88 | a turn renders as its user line, its agent line, an error line only when the result has `error`, and the separator |
| Memory.ConversationMemory.CacheSearchResults | backend/jarvis_backend_v1.py:91-98 | the cache gains the entry under `path:lower(keyword)`, holding the results and the files extracted from them, or the call raises and the cache is unchanged |
| Memory.DescribeFile | backend/jarvis_backend_v1.py:105-112 | a path is described exactly when it is a string, with the path itself and its basename |
| Memory.DescribeFiles | backend/jarvis_backend_v1.py:104-112 | every file is described exactly when every item is a string, and then item i is described by the i-th description, in order |
| Memory.ExtractFileInfo | backend/jarvis_backend_v1.py:100-113 | results without a `results` key give no files; otherwise only `results['results']['files']` is read: a non-dict raises, a missing `files` gives no files, and a list gives one description per path (its path and basename, in order) exactly when every item is a string |
| Memory.ListedFiles | backend/jarvis_backend_v1.py:104-112 | the loop over `.get('files', [])`: a non-dict raises, a missing `files` gives nothing, a list of strings gives one description per path, in order |
| Memory.BareResultsRecordNoFiles | backend/jarvis_backend_v1.py:91-113 | caching results without a `results` key succeeds and leaves a cache in which no entry records a file |
| Memory.ConversationMemory.FindSemanticMatch | backend/jarvis_backend_v1.py:115-136 | the nested loops return the specified semantic match over the entries whose key contains the path |
| Memory.ScanFiles | backend/jarvis_backend_v1.py:125-134 | the inner loop over one entry's files equals the scan specification continued from the best so far |
| Memory.ConsiderFile | backend/jarvis_backend_v1.py:127-134 | one file replaces the best so far exactly when it beats both the best score and the threshold |
| Memory.ScanFindsFirstBest | backend/jarvis_backend_v1.py:115-136 | with a numeric threshold the scan never raises; it finds nothing exactly when no file beats 0 and the threshold, else the first file of highest score |
| Memory.BestAfterAccept | backend/jarvis_backend_v1.py:132-134 | a file beating the best and the threshold becomes the best of the longer list |
| Memory.BestAfterSkip | backend/jarvis_backend_v1.py:132-134 | a file that does not beat both leaves the best of the longer list unchanged |
| Memory.ScanRaisedStays | backend/jarvis_backend_v1.py:123-134 | once a file's scoring raises, the whole lookup raises that exception |
| Memory.NoFilesNoMatch | backend/jarvis_backend_v1.py:115-136 | when no cached entry records a file the lookup answers `(None, 0)` |
| Similarity.CalculateSimilarity | backend/jarvis_backend_v1.py:138-162 | the double loop computes the specified score: 0.4 exact, 0.3 partial (capped at 1), 0.3 sequence ratio, and 0 for empty terms |
| Similarity.ToSet | backend/jarvis_backend_v1.py:144 | `set(q)` holds exactly the terms of `q` and is no larger |
| Similarity.ExactScoreBounds | backend/jarvis_backend_v1.py:143-145 | the exact-match score lies in [0, 1] |
| Similarity.PartialScoreBounds | backend/jarvis_backend_v1.py:147-153 | the partial-match score lies in [0, 1] |
| Similarity.SimilarityBounds | backend/jarvis_backend_v1.py:138-162 | the combined score lies in [0, 1] whenever the sequence ratio does |
| Similarity.SingleIdenticalTerm | backend/jarvis_backend_v1.py:138-162 | one term scored against itself gives 0.85, not 1 |
| Similarity.UnrelatedTerms | backend/jarvis_backend_v1.py:138-162 | with no related pair of terms only 0.3 times the sequence ratio remains |
| Search.NameHits | backend/jarvis_backend_v1.py:651-658 | the name scan raises exactly when there is a name and the keyword is not a string |
| Search.CollectNames | backend/jarvis_backend_v1.py:651-658 | the inner loop appends the specified hits of one directory, or raises as specified |
| Search.WalkSearch | backend/jarvis_backend_v1.py:649-658 | the walk loop returns the specified folders and files, or the exception |
| Search.HitsIff | backend/jarvis_backend_v1.py:651-658 | a path is a hit exactly when it joins the root to a name containing the lower-cased keyword |
| Search.EmptyKeywordMatchesAll | backend/jarvis_backend_v1.py:652 | the empty keyword makes every name a hit, in order |
| Search.TypeFilters | backend/jarvis_backend_v1.py:650-658 | folders are found only for `both` and `folder`, files only for `both` and `file` |
| Search.OtherTypeFindsNothing | backend/jarvis_backend_v1.py:650-658 | any other `search_type` finds nothing |
| Search.StringKeywordCollects | backend/jarvis_backend_v1.py:649-658 | a string keyword never makes the walk raise |
| Search.CollectRaisesLower | backend/jarvis_backend_v1.py:649-658 | a non-string keyword makes the walk raise for the missing `lower`, or find nothing |
| Search.MissingRoot | backend/jarvis_backend_v1.py:645-646 | a missing root is reported with its absolute path, and the cache and host are untouched |
| Search.NonStringKeywordFails | backend/jarvis_backend_v1.py:644-701 | a non-string keyword over an existing root fails the search with one message and leaves the cache as it was |
| Search.SemanticIn | backend/jarvis_backend_v1.py:661-672 | the semantic fallback on the agent's memory is the specified one |
| Search.SemanticFrom | backend/jarvis_backend_v1.py:661-672 | when asked for and nothing exact was found, the fallback lists the match found, rounded |
| Search.ConcludeIn | backend/jarvis_backend_v1.py:661-698 | after the walk the method stores the results in the cache and answers as specified |
| Search.SearchBody | backend/jarvis_backend_v1.py:644-701 | the `try` block answers and updates the cache as specified, an exception becoming `Search failed` |
| Search.SearchIn | backend/jarvis_backend_v1.py:635-701 | `_search_item` answers, updates the cache and opens what the specification says, or raises before its `try` |
| Search.OpensOnlyLoneHit | backend/jarvis_backend_v1.py:677-691 | something is opened only for a lone file or a lone folder, and it is that one |
| Search.LoneHitIsOpened | backend/jarvis_backend_v1.py:678-681 | a lone file or a lone folder is opened |
| Search.TotalFound | backend/jarvis_backend_v1.py:682-698 | `total_found` counts files, folders and semantic matches; a lone semantic match is suggested, never opened |
| Search.NoSuggestionNoKey | backend/jarvis_backend_v1.py:693-698 | without a semantic suggestion the answer has no `semantic_suggestion` key |
| Search.ConcludeNoFiles | backend/jarvis_backend_v1.py:661-675 | on a cache with no recorded file nothing is suggested, and the cache still records no file |
| Search.SemanticNeverSucceeds | backend/jarvis_backend_v1.py:635-701 | on a cache only `_search_item` filled, a search never suggests a file and leaves no file recorded |
| Search.BasicSearchIn | backend/jarvis_backend.py:204-225 | the loops of the earlier `_search_item` answer as its specification says |
| Search.BasicMissingRootFindsNothing | backend/jarvis_backend.py:206-223 | the earlier search answers an empty result for a missing root, because `os.walk` yields nothing |
| Search.BasicOpensOnlyLoneHit | backend/jarvis_backend.py:219-223 | the earlier search answers `results` and `keyword`; it opens something only for a lone folder with no file (that folder) or a lone file with no folder (that file); a lone folder that is a directory, or a lone existing file, is opened; in every other case nothing is opened |
| Binding.Bind | backend/jarvis_backend_v1.py:941 | a successful binding gives each declared parameter, in order, its value |
| Binding.BindParams | backend/jarvis_backend_v1.py:941 | each parameter is bound to the value passed, or to its default when none was |
| Binding.FirstKeyError | backend/jarvis_backend_v1.py:941 | no key is refused exactly when every key is accepted by the signature |
| Binding.Missing | backend/jarvis_backend_v1.py:941 | the missing names are exactly the required parameters not passed |
| Binding.Extra | backend/jarvis_backend_v1.py:763 | `**kwargs` collects only passed keywords that no parameter takes |
| Binding.BindSucceedsIff | backend/jarvis_backend_v1.py:941 | a call binds exactly when a dict is passed, every key is accepted, and every required parameter is given |
| Binding.BoundValues | backend/jarvis_backend_v1.py:941 | a bound parameter holds the value passed, or its default |
| Binding.SelfKeywordRefused | backend/jarvis_backend_v1.py:941 | passing `self` by keyword always raises |
| Binding.VarKwCollectsRest | backend/jarvis_backend_v1.py:763 | with `**kwargs`, every undeclared keyword reaches the handler |
| Binding.ExtraOfNone | backend/jarvis_backend_v1.py:635 | with no declared parameters, `**kwargs` is every keyword, in order |
| Binding.ExtraKeeps | backend/jarvis_backend_v1.py:763 | an undeclared keyword is always collected |
| Dispatch.Summarize | backend/jarvis_backend_v1.py:202-207 | a dict result is always summarised; a result that is not a container raises |
| Dispatch.SummaryMarksFailure | backend/jarvis_backend_v1.py:205-207 | a dict result is summarised as a failure exactly when it has `error`, otherwise as a success |
| Dispatch.SummaryOfNoneRaises | backend/jarvis_backend_v1.py:205 | a `None` result raises CPython's `not iterable` error |
| Dispatch.SummaryOfMissingCommand | backend/jarvis_backend_v1.py:203-207 | a step with no `command` is summarised with an empty name |
| Dispatch.Prepare | backend/jarvis_backend_v1.py:895-939 | the step stays a dict exactly when it was one, and only a dict step reaches a command |
| Dispatch.NormalizeDict | backend/jarvis_backend_v1.py:899-902 | `path` keeps its value, or takes `file_path`'s, or else `folder_path`'s, and that alias disappears; no other key changes |
| Dispatch.NormalizeListRaises | backend/jarvis_backend_v1.py:899-900 | a list naming an alias and not `path` raises on `pop` |
| Dispatch.NormalizeKeepsStrings | backend/jarvis_backend_v1.py:899-902 | a string of parameters is never rewritten |
| Dispatch.PrepareRoutes | backend/jarvis_backend_v1.py:904-944 | `execute_file` runs `execute_code`; a name outside the map is reported unknown under its own name |
| Dispatch.PrepareRewritesOnlyParameters | backend/jarvis_backend_v1.py:896-902 | preparing a step changes only its `parameters`, which become the handler's arguments |
| Dispatch.UnhashableCommandRaises | backend/jarvis_backend_v1.py:939 | a list or dict command name raises in the `command_map` lookup |
| Dispatch.Invoke | backend/jarvis_backend_v1.py:941 | a handler call raises exactly when its arguments do not bind |
| Workflow.Execute | backend/jarvis_backend_v1.py:878-893 | a reply that is not a container is an execution error and runs nothing; a reply without `workflow` is exactly one step |
| Workflow.Flow | backend/jarvis_backend_v1.py:882-888 | the loop keeps one rewritten step per step |
| Workflow.FlowPrefix | backend/jarvis_backend_v1.py:882-888 | the loop after one more step is one more iteration |
| Workflow.FlowStopped | backend/jarvis_backend_v1.py:882-893 | once a step has raised, later steps neither run nor change |
| Workflow.OneEntryPerStep | backend/jarvis_backend_v1.py:880-889 | a completed workflow has one entry per step, in order, each with the step, its result and its summary |
| Workflow.FlowCompletes | backend/jarvis_backend_v1.py:882-889 | when every step answers a dict and stays a dict, no step is skipped and the workflow completes |
| Workflow.NextGoesOn | backend/jarvis_backend_v1.py:882-888 | a step that answers a dict extends a running loop |
| Workflow.AnswersDict | backend/jarvis_backend_v1.py:878-893 | when every step answers a dict, so does `_execute_command` |
| Workflow.RaiseDiscardsEntries | backend/jarvis_backend_v1.py:879-893 | a raise ends the loop, and the answer is only `Execution error: ...` |
| Workflow.SingleCommandPassesThrough | backend/jarvis_backend_v1.py:890-891 | a reply without `workflow` returns the single step's dict unchanged |
| Handlers.ExecuteCode | backend/jarvis_backend_v1.py:763-791 | at most one command is launched, as a new process or through `os.system` |
| Handlers.Launcher | backend/jarvis_backend_v1.py:772-787 | an extension has a launch command exactly when it is one of the eight supported |
| Handlers.ExecuteMissingFileFirst | backend/jarvis_backend_v1.py:767-769 | a missing file is reported with its absolute path before its extension is looked at, and nothing runs |
| Handlers.ExecuteRunsIffSupported | backend/jarvis_backend_v1.py:770-789 | an existing file runs exactly when its lower-cased extension is supported; any other is refused by name |
| Handlers.LauncherQuotesPath | backend/jarvis_backend_v1.py:772-785 | every launch command ends with the absolute path in double quotes |
| Handlers.OnlyHtmlUsesSystem | backend/jarvis_backend_v1.py:784-785 | only `.html` goes through `os.system` |
| Handlers.CopyItem | backend/jarvis_backend_v1.py:824-844 | at most two calls are made: creating folders and copying |
| Handlers.CopyRefusals | backend/jarvis_backend_v1.py:829-834 | a missing source, or a folder whose destination exists, copies nothing |
| Handlers.CopyTargets | backend/jarvis_backend_v1.py:832-838 | a copy goes from the absolute source to the absolute destination, as a tree for a folder and as a file otherwise |
| Handlers.CopyFileAfterMakeDirs | backend/jarvis_backend_v1.py:836-838 | a file is copied only after its destination folder was created |
| Handlers.OpenFolderOnlyDirectories | backend/jarvis_backend_v1.py:753-761 | only a directory is opened |
| Handlers.OpenFileOnlyExisting | backend/jarvis_backend_v1.py:737-751 | only an existing file is opened, through the default program when no application is named |
| Apps.OpenApplication | backend/jarvis_backend_v1.py:712-725 | at most one program is started |
| Apps.OpenApplicationLaunchesOnce | backend/jarvis_backend_v1.py:712-725 | a string name starts exactly one program; any other value is refused with CPython's `lower` error |
| Apps.OpenKnownApplication | backend/jarvis_backend_v1.py:714-721 | a known name, in any case and with blanks around it, starts the table's command (`start` before a store app) |
| Apps.OpenUnknownApplication | backend/jarvis_backend_v1.py:722-723 | an unknown name is passed to `start` exactly as given |
| Apps.Matching | backend/jarvis_backend_v1.py:470-474 | the matching processes are a selection of the processes |
| Apps.MatchingIff | backend/jarvis_backend_v1.py:470-474 | a process is selected exactly when it matches the lower-cased name |
| Apps.CloseProgram | backend/jarvis_backend_v1.py:453-499 | at most one process is terminated |
| Apps.TerminatesOnlyUniqueMatch | backend/jarvis_backend_v1.py:453-499 | a process is terminated only when exactly one process matches, and it is that one |
| Apps.TerminatesMatch | backend/jarvis_backend_v1.py:493-496 | a single match is terminated |
| Apps.NothingToClose | backend/jarvis_backend_v1.py:456-459 | with no name, or a name that is not a string, nothing is terminated |
| Apps.NoTermination | backend/jarvis_backend_v1.py:476-491 | unless exactly one process matches, nothing is terminated |
| Apps.SeveralMatchesAsk | backend/jarvis_backend_v1.py:488-491 | several matches lead to a question |
| Browse.NormalizeUrl | backend/jarvis_backend_v1.py:542-547 | the URL has a scheme, and a website is kept exactly when it already has one |
| Browse.NormalizeUrlIdempotent | backend/jarvis_backend_v1.py:542-547 | normalising twice changes nothing |
| Browse.PercentBytesEncoded | backend/jarvis_backend_v1.py:550 | escaped UTF-8 bytes consist of `%XX` groups only |
| Browse.QuoteEncodes | backend/jarvis_backend_v1.py:550 | any quoted query holds only unreserved characters and `%XX` escapes |
| Browse.QuoteKeepsUnreserved | backend/jarvis_backend_v1.py:550 | a query of unreserved characters is used unchanged |
| Browse.QuoteSpace | backend/jarvis_backend_v1.py:550 | a blank becomes `%20` |
| Browse.TargetIs | backend/jarvis_backend_v1.py:541-550 | the target is the normalised website or, without one, the Google search for the query |
| Browse.TargetHasScheme | backend/jarvis_backend_v1.py:541-550 | every target URL has a scheme |
| Browse.OpenTarget | backend/jarvis_backend_v1.py:555-591 | once the URL is known, exactly that URL is opened |
| Browse.Fallback | backend/jarvis_backend_v1.py:593-608 | the fallback opens nothing, or the target URL |
| Browse.BrowseInternet | backend/jarvis_backend_v1.py:529-608 | the handler opens at most one URL |
| Browse.BrowseEffects | backend/jarvis_backend_v1.py:529-608 | what is opened is nothing, or the target URL once |
| Browse.BrowseOpensTarget | backend/jarvis_backend_v1.py:529-608 | the only URL opened is the normalised website or the Google search for the query |
| Browse.BrowseNeedsTarget | backend/jarvis_backend_v1.py:532-533 | with neither a website nor a query the handler only asks, and opens nothing |
| Browse.NoBrowserEffects | backend/jarvis_backend_v1.py:536-539 | without a browser the handler opens nothing |
| Browse.OpensTarget | backend/jarvis_backend_v1.py:555-591 | once URL and browser are known, the handler is the opening step |
| Browse.UrlKeys | backend/jarvis_backend_v1.py:583-608 | only the success answer has a `url` key, holding the URL opened |
| Browse.BrowseReportsTarget | backend/jarvis_backend_v1.py:529-608 | a reported URL is the target URL, which has a scheme |
| Browse.NoTargetKeys | backend/jarvis_backend_v1.py:532-533 | asking for a target reports no URL |
| Browse.NoBrowserKeys | backend/jarvis_backend_v1.py:538-539 | asking whether to fall back reports no URL |
| Browse.OpeningKeys | backend/jarvis_backend_v1.py:573-591 | the opening step reports the URL exactly when it succeeds |
| Browse.FallbackKeys | backend/jarvis_backend_v1.py:593-608 | the fallback never reports a `url` |
| AgentV1.Agent.constructor | backend/jarvis_backend_v1.py:165-200 | a new agent has its host and memory, no effects, and its step function |
| AgentV1.Agent.ExecuteCommand | backend/jarvis_backend_v1.py:878-893 | answer, cache and effects are those of `Workflow.Execute` over the v1 step |
| AgentV1.Agent.ExecuteWorkflowIn | backend/jarvis_backend_v1.py:880-889 | the `workflow` branch equals its specification |
| AgentV1.Agent.RunWorkflow | backend/jarvis_backend_v1.py:882-888 | the loop's entries, steps, cache and effects equal the flow specification |
| AgentV1.Agent.RunStep | backend/jarvis_backend_v1.py:883 | one step as the loop calls it |
| AgentV1.Agent.ExecuteSingleCommand | backend/jarvis_backend_v1.py:895-944 | result, rewritten step, cache and effects are those of the v1 step specification |
| AgentV1.Agent.RouteStep | backend/jarvis_backend_v1.py:939-944 | the dispatch after the lookup equals its specification |
| AgentV1.Agent.RunSearch | backend/jarvis_backend_v1.py:939-943 | the `search_item` call inside the `try` equals its specification |
| AgentV1.RaisesOnlyBeforeHandler | backend/jarvis_backend_v1.py:895-944 | a step raises exactly when its lookup, alias rewrite or name hash raises; otherwise it answers a dict |
| AgentV1.RouteRaises | backend/jarvis_backend_v1.py:939-944 | once looked up, nothing raises |
| AgentV1.SearchAnswers | backend/jarvis_backend_v1.py:939-943 | `search_item` always answers a dict |
| AgentV1.HandlerAnswers | backend/jarvis_backend_v1.py:939-943 | every other handler always answers a dict |
| AgentV1.WellFormedNeverRaises | backend/jarvis_backend_v1.py:895-944 | a well-formed step answers a dict and stays a dict |
| AgentV1.PrepareWellFormed | backend/jarvis_backend_v1.py:896-905 | preparing a well-formed step cannot raise |
| AgentV1.WorkflowCompletes | backend/jarvis_backend_v1.py:878-893 | a workflow of well-formed steps completes, with one entry per step in order |
| AgentV1.UnknownCommand | backend/jarvis_backend_v1.py:944 | an unknown command answers `Unknown command '<name>'` and changes nothing |
| AgentV1.BindFailureAnswers | backend/jarvis_backend_v1.py:940-943 | arguments that do not bind give `Error executing <name>: ...` instead of a raise |
| AgentV1.OnlySearchWritesCache | backend/jarvis_backend_v1.py:895-944 | only `search_item` changes the cache |
| AgentCheckpoint.Agent.constructor | backend/.ipynb_checkpoints/jarvis_backend-checkpoint.py:152-187 | a new agent has its host and memory, no effects, and its step function |
| AgentCheckpoint.Agent.ProcessRequest | backend/.ipynb_checkpoints/jarvis_backend-checkpoint.py:496-514 | a parsed reply is executed, answered as `agent_command` and `result`, and recorded in the history; invalid JSON or a failed send answers an error and changes nothing |
| AgentCheckpoint.Agent.ExecuteCommand | backend/.ipynb_checkpoints/jarvis_backend-checkpoint.py:444-459 | answer, cache and effects are those of `Workflow.Execute` over the checkpoint step |
| AgentCheckpoint.Agent.ExecuteWorkflowIn | backend/.ipynb_checkpoints/jarvis_backend-checkpoint.py:446-455 | the `workflow` branch equals its specification |
| AgentCheckpoint.Agent.RunWorkflow | backend/.ipynb_checkpoints/jarvis_backend-checkpoint.py:448-454 | the loop equals the flow specification |
| AgentCheckpoint.Agent.RunStep | backend/.ipynb_checkpoints/jarvis_backend-checkpoint.py:449 | one step as the loop calls it |
| AgentCheckpoint.Agent.ExecuteSingleCommand | backend/.ipynb_checkpoints/jarvis_backend-checkpoint.py:461-494 | result, step, cache and effects are those of the checkpoint step specification |
| AgentCheckpoint.Agent.RouteStep | backend/.ipynb_checkpoints/jarvis_backend-checkpoint.py:492-494 | the dispatch after the lookup equals its specification |
| AgentCheckpoint.Agent.RunSearch | backend/.ipynb_checkpoints/jarvis_backend-checkpoint.py:492-493 | the unprotected `search_item` call equals its specification |
| AgentCheckpoint.Agent.RunHandler | backend/.ipynb_checkpoints/jarvis_backend-checkpoint.py:492-493 | any other unprotected handler call equals its specification |
| AgentCheckpoint.BindFailureRaises | backend/.ipynb_checkpoints/jarvis_backend-checkpoint.py:492-493 | arguments that do not bind raise out of the step, with no effect |
| AgentCheckpoint.SingleAnswersDict | backend/.ipynb_checkpoints/jarvis_backend-checkpoint.py:461-494 | a step that does not raise answers a dict |
| AgentCheckpoint.RaiseAbortsWorkflow | backend/.ipynb_checkpoints/jarvis_backend-checkpoint.py:444-459 | one raising step makes the whole answer `Execution error: ...` with that step's message |
| AgentCheckpoint.UnknownCommand | backend/.ipynb_checkpoints/jarvis_backend-checkpoint.py:494 | a command outside the map, including v1's system commands, answers `Unknown command '<name>'` |
| AgentBasic.Agent.constructor | backend/jarvis_backend.py:36-70 | a new agent has its host, no effects, and its step function |
| AgentBasic.Agent.ProcessRequest | backend/jarvis_backend.py:360-371 | a parsed reply is executed and answered as `agent_command` and `result`; invalid JSON or a failed send answers an error |
| AgentBasic.Agent.ExecuteCommand | backend/jarvis_backend.py:304-319 | answer and effects are those of `Workflow.Execute` over the basic step |
| AgentBasic.Agent.ExecuteWorkflowIn | backend/jarvis_backend.py:306-315 | the `workflow` branch equals its specification |
| AgentBasic.Agent.RunWorkflow | backend/jarvis_backend.py:308-314 | the loop equals the flow specification |
| AgentBasic.Agent.RunStep | backend/jarvis_backend.py:309 | one step as the loop calls it |
| AgentBasic.Agent.ExecuteSingleCommand | backend/jarvis_backend.py:321-355 | result, step and effects are those of the basic step specification |
| AgentBasic.Agent.RouteStep | backend/jarvis_backend.py:353-355 | the dispatch after the lookup equals its specification |
| AgentBasic.Agent.RunSearch | backend/jarvis_backend.py:204-225 | the earlier search, run through its loops, equals its specification |
| AgentBasic.BindFailureRaises | backend/jarvis_backend.py:353-354 | arguments that do not bind raise out of the step, with no effect |
| AgentBasic.SingleAnswersDict | backend/jarvis_backend.py:321-355 | a step that does not raise answers a dict |
| AgentBasic.RaiseAbortsWorkflow | backend/jarvis_backend.py:304-319 | one raising step makes the whole answer `Execution error: ...` |
| AgentBasic.SearchPathRaises | backend/jarvis_backend.py:206 | a `search_path` that is not a string raises before the search's `try`, with no effect |
| AgentMain.SearchFileIn | backend/.ipynb_checkpoints/main-checkpoint.py:191-199 | the walk loop returns the specified search answer |
| AgentMain.HitsAppend | backend/.ipynb_checkpoints/main-checkpoint.py:194-196 | the hits of two stretches of the walk are concatenated |
| AgentMain.HitsOfOne | backend/.ipynb_checkpoints/main-checkpoint.py:195-196 | one directory contributes its joined path exactly when it lists the file by exact name |
| AgentMain.HitsComeFromHolders | backend/.ipynb_checkpoints/main-checkpoint.py:194-196 | every path found joins a directory that holds the file |
| AgentMain.HoldersAreHits | backend/.ipynb_checkpoints/main-checkpoint.py:194-196 | every directory holding the file is found, in walk order |
| AgentMain.NoHolderNoHits | backend/.ipynb_checkpoints/main-checkpoint.py:195 | a name listed nowhere, not even in another case, finds nothing |
| AgentMain.Execute | backend/.ipynb_checkpoints/main-checkpoint.py:88-120 | a reply that is not a dict is answered with the caught `get` error; a missing command is refused; nothing runs in either case |
| AgentMain.ParseName | backend/.ipynb_checkpoints/main-checkpoint.py:98-112 | each command's name is found in `command_map` |
| AgentMain.ParseOnlyNames | backend/.ipynb_checkpoints/main-checkpoint.py:98-112 | only command names are found |
| AgentMain.UnknownCommandRefused | backend/.ipynb_checkpoints/main-checkpoint.py:114-115 | an unknown name is refused by name and nothing runs |
| AgentMain.BindFailureCaught | backend/.ipynb_checkpoints/main-checkpoint.py:112-118 | arguments that do not bind are caught as an execution error and nothing runs |
| AgentMain.RefusalsAreErrors | backend/.ipynb_checkpoints/main-checkpoint.py:88-120 | every reply not handed to a handler is answered with one `error` and no effect |
| AgentMain.EffectsOnlyWhenDispatched | backend/.ipynb_checkpoints/main-checkpoint.py:112-113 | the system is touched only by a dispatched handler, and never by `search_file`, `clarify` or `respond` |
| AgentMain.FailureSummarisedFirst | backend/.ipynb_checkpoints/main-checkpoint.py:60-61 | a failed step is summarised as a failure, whatever the command |
| AgentMain.SentenceHeads | backend/.ipynb_checkpoints/main-checkpoint.py:63-84 | every command's sentence starts with its own emoji, never the generic tick |
| AgentMain.FillOfDict | backend/.ipynb_checkpoints/main-checkpoint.py:63-84 | with dict parameters a sentence is always filled, starting with its emoji |
| AgentMain.TemplateOfListed | backend/.ipynb_checkpoints/main-checkpoint.py:63-84 | a listed command is summarised by its own sentence |
| AgentMain.TemplateOfDict | backend/.ipynb_checkpoints/main-checkpoint.py:63-86 | a template starts with the tick exactly when the command is unlisted |
| AgentMain.GenericSummaryIffUnlisted | backend/.ipynb_checkpoints/main-checkpoint.py:60-86 | a successful step is summarised generically exactly when its command is outside `command_map` |
| AgentMain.ExecutedSummarised | backend/.ipynb_checkpoints/main-checkpoint.py:222-223 | what `_execute_command` answers for a dict reply can always be summarised |
| AgentMain.ParsedDictAnswered | backend/.ipynb_checkpoints/main-checkpoint.py:207-224 | a dict reply is answered with itself, its result and its summary |
| Speech.FirstKey | frontend/jarvis_frontend_v1.py:612-619 | the first present key's value, and none exactly when no key is present |
| Speech.FirstString | frontend/jarvis_frontend_v1.py:624-627 | the first non-empty string value, and none exactly when there is none |
| Speech.FormatForSpeech | frontend/jarvis_frontend_v1.py:590-654 | the speech is never empty and never longer than 300 characters plus the "Check the log" suffix |
| Speech.SourceOfDict | frontend/jarvis_frontend_v1.py:597-604 | the spoken value is the first of `result`, `response`, `message`, else the whole answer |
| Speech.SourceOfScalarRaises | frontend/jarvis_frontend_v1.py:592-654 | an answer that is not a container is answered by the `except` sentence |
| Speech.DictPreference | frontend/jarvis_frontend_v1.py:612-619 | `content`, `output`, `text`, `message` are preferred in that order |
| Speech.DictFallbacks | frontend/jarvis_frontend_v1.py:620-629 | then `status` is announced, else the first non-empty string, else the fixed sentence |
| Speech.ListSpeech | frontend/jarvis_frontend_v1.py:630-639 | a list is announced by its length, with its first item when that is a string |
| Speech.ShortSpeechIsCollapsed | frontend/jarvis_frontend_v1.py:643-650 | short speech is the text with single spaces, the same words, no blanks at the ends |
| Speech.LongSpeechIsCut | frontend/jarvis_frontend_v1.py:646-648 | longer speech keeps its first 300 characters and points to the log |
| Speech.BlankSpeechFallsBack | frontend/jarvis_frontend_v1.py:644-650 | speech with no words falls back to the fixed sentence |
| Speech.NeedsClarificationIff | frontend/jarvis_frontend_v1.py:569-588 | a command needs clarification exactly when it has at most two words or contains an unclear word |
| Speech.AnyInIff | frontend/.ipynb_checkpoints/jarvis_frontend-checkpoint.py:939 | the scan finds a word exactly when one occurs |
| Speech.LaunchOpensNothing | frontend/.ipynb_checkpoints/jarvis_frontend-checkpoint.py:929-942 | an application launch opens no window |
| Speech.JsonWindowIff | frontend/.ipynb_checkpoints/jarvis_frontend-checkpoint.py:942-946 | the JSON window opens exactly for a non-launch whose dict or list result prints longer than 200 |
| Speech.OneInfoWindow | frontend/.ipynb_checkpoints/jarvis_frontend-checkpoint.py:949-955 | at most one information window opens, after the JSON window, and only for an information word |
| Speech.InfoWindowPriority | frontend/.ipynb_checkpoints/jarvis_frontend-checkpoint.py:949-955 | a device word wins over a location word, which wins over a network word |
| Text.Lower | backend/jarvis_backend_v1.py:652 | `lower()` maps each character and keeps the length |
| Text.CollapseShape | frontend/jarvis_frontend_v1.py:646 | whitespace collapses to single inner spaces, empty exactly when there are no words |
| Text.WordsOfJoin | frontend/jarvis_frontend_v1.py:646 | splitting words joined by spaces gives them back |
| Text.CollapseIdempotent | frontend/jarvis_frontend_v1.py:646 | collapsing twice changes nothing |
| Paths.BasenameOfJoin | backend/jarvis_backend_v1.py:105 | the basename of a name joined to a directory is the name |
| Paths.SplitExt | backend/jarvis_backend_v1.py:106 | the stem and extension concatenate to the path, and the extension is a dot suffix after the last separator |
| Values.EscapeChar | frontend/.ipynb_checkpoints/jarvis_frontend-checkpoint.py:944 | a character is shown as itself exactly when it is not the quote, not a backslash and printable; any other character is escaped |
| Values.ReprOfPlain | backend/jarvis_backend_v1.py:85 | a string with no quote, backslash or non-printable character is shown between single quotes, unchanged |
| Values.ReprLength | frontend/.ipynb_checkpoints/jarvis_frontend-checkpoint.py:944 | a string's `repr` is at least two characters longer than the string |
| Values.Contains | backend/jarvis_backend_v1.py:205 | `in` raises exactly for a non-container, and on a dict tests the keys |
| Values.GetOr | backend/jarvis_backend_v1.py:896-897 | `.get` works exactly on a dict, giving the default for a missing key |
| Values.PutKeys | backend/jarvis_backend_v1.py:94 | assigning keeps a key's position, and a new key goes last |
| Host.AbsPath | backend/jarvis_backend_v1.py:637 | `abspath` succeeds exactly on a string |

## Left out

- Text.Lower: maps only ASCII letters. Python's full Unicode case mapping is not modelled. This affects Search.Hits, Apps.AppKey, Apps.Matches, Speech.NeedsClarification, Speech.IsAppLaunch and Speech.InfoWindow for non-ASCII input.
- Text.LowerChar: ASCII only, as above.
- Text.IsWordChar: the class `\w` is restricted to ASCII letters, digits and `_`. This affects Similarity.Terms for non-ASCII names.
- Similarity.Terms: `\w` is ASCII only (see Text.IsWordChar).
- Paths.SplitDrive: recognises drive letters only. UNC paths (`\\server\share`) are not treated as drives.
- Host: a fixed snapshot of the machine. Effects are recorded but not applied, so within one workflow a later step does not see an earlier step's file (`create_file` then `open_file` can say "File not found").
- Browse.OpenTarget: the loop over the available browsers can call `open` on several browsers before one succeeds. The model records a single `OpenUrl` for the whole attempt, and the host decides which browser, if any, succeeds.
- Memory.ConversationMemory.AddInteraction: the `timestamp` (`time.time()`) of each turn is not recorded.
- Memory.ConversationMemory.CacheSearchResults: the `timestamp` of each cache entry is not recorded.
- Values.ReprStr: Values.NonPrintable escapes the control characters, the separators other than the space (U+00A0, U+1680, U+2000-U+200A, U+2028, U+2029, U+202F, U+205F, U+3000), the soft hyphen, the format characters of the General Punctuation block, U+FEFF, U+FFF9-U+FFFB, the tag characters and the private-use areas. Other code points that Python's Unicode database calls non-printable (other format characters, unassigned code points) are shown as they are, so Values.ReprStr and Values.Repr can be shorter than Python's `repr` for such strings. This affects Speech.Windows (`len(str(result)) > 200`) and Memory.Context.
- Exception messages follow the wording of CPython 3.11. Other versions word some of them differently.
- Search.SemanticFrom: `round(score, 2)` comes from the host's float formatting and is not computed.
- Similarity.CalculateSimilarity: `SequenceMatcher.ratio()` is a host function. Only its bounds and its value on identical strings are assumed, where a lemma needs them.
- v1 `process_request` is not modelled. It calls the language model, recovers JSON with a regular expression, and substitutes a canned `respond` command on failure. The text it produces is outside the command core.
- The earlier `_browse_internet` of `backend/jarvis_backend_v1.py` (line 290) is not modelled. The later definition at line 529 replaces it in the class.
- The remaining handlers only forward to the operating system. Their answers come from the host, through one opaque call: `_list_directory`, `_read_file`, `_create_file`, `_write_file`, `_move_item`, `_delete_file`, `_create_directory`, `_delete_directory`, `_list_running_programs`, `_get_system_info`, `_get_current_time`, `_get_weather`, `_get_location`, `_check_available_browsers`.
- The FastAPI endpoints are not modelled: `handle_request`, including the HTTP 400 of `main-checkpoint.py`, and the status and history routes.
- The voice side of the front ends is not modelled: wake-word listening, speech recognition and synthesis, threads and the Tk windows. The contents of the device, location and network windows are not modelled either; only the decision of which windows open is.
- The Gemini chat session is not modelled. Its reply is a parameter (`send`) of `ProcessRequest`, already parsed or failed.
- Concurrency between requests and floating-point rounding beyond the exact rationals used for scores are not modelled.
