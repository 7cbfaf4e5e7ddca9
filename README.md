# Primus OS core, modelled in Dafny

Primus OS is a command-line assistant that looks for manual work worth automating. This
project models the deterministic core behind it and proves properties of that model:

- **Task scanning** (`TaskScanner` in `core/tasks.py`).
  - `scan` chooses between a filesystem path, a URL and literal text.
  - `_scan_filesystem` walks a directory and keeps documents with the suffixes `.md`, `.txt`,
    `.doc` and `.pdf`.
  - `_analyze_file` notes a PDF by name and reads any other file.
  - `_extract_tasks_from_text` applies four case-insensitive cue patterns. It strips each
    capture, drops empty ones and removes duplicates.
- **Workflow recommendations** (`WorkflowAnalyzer._generate_recommendations`): a table of four
  keywords with their advice, and four general pieces of advice as the fallback.
- **Helpers** (`utils/helpers.py`).
  - `validate_api_key`: the per-provider prefix and length rules.
  - `load_config_file` and `save_config_file`: the choice between JSON, YAML and
    `ValueError`, made from the path's suffix.
- **Settings** (`config/settings.py`).
  - The `Settings` dataclass and the environment overrides its `__post_init__` applies.
  - `is_configured`.
  - The `.env` text `save_to_env_file` writes.
  - The `.env` parser and environment export of `load_from_env_file`.

Files:

- `wrappers.dfy`: `Option` and `Result`.
- `strings.dfy`: the Python string operations the core uses. These are `str.isspace`, `strip`,
  `lower`, `startswith`, the substring test `in`, `partition`, `splitlines`, `str(int)` and
  `int(str)`.
- `paths.dfy`: `PurePath.name` and `PurePath.suffix`.
- `cues.dfy`: the four cue patterns, modelled as token sequences. A small matcher follows the
  backtracking order of Python's regular-expression engine, and `re.findall` is modelled on top
  of it.
- `tasks.dfy`: the scanner and the recommendation rules.
- `helpers.dfy`: API-key validation and config-format selection.
- `settings.dfy`: the `Settings` class, its environment overrides, and the `.env` writer and
  parser.

The outside world is passed in as parameters:

- The filesystem is a map from path to entry. An entry is a file holding its text or a read
  failure, or a directory holding the paths `rglob("*")` lists.
- `_is_url` is a predicate parameter.
- The web is a map from URL to the text BeautifulSoup would extract from the page.
- The process environment is a map from names to values. `load_from_env_file` returns the
  updated environment instead of writing `os.environ`.
- A `.env` file is `Option<string>`: `None` when the file does not exist, otherwise its
  contents.

Behaviour of the code that is easy to miss:

- A single-file target is analysed whatever its suffix. Only a directory walk filters by
  suffix.
- Only `.pdf` gets the placeholder note. Every other file, `.doc` included, is read as text, and
  one that cannot be decoded contributes nothing.
- In `Currently done manually.` the second cue pattern captures `ly`. The engine gives the
  optional `ly` back so that `[^.\n]+` can match it, and the matcher does the same.

## Model

| member | source | states |
|---|---|---|
| Tasks.ExtractTasks | primus-os/src/core/tasks.py:71-87 | the result is the stripped, non-empty captures of the four patterns in turn, deduplicated; it holds no duplicates, and every entry is non-empty, equal to its own strip and free of `.` and `\n` |
| Tasks.ExtractedEntries | primus-os/src/core/tasks.py:85-87 | every extracted entry is non-empty, stripped, and contains neither `.` nor a newline |
| Tasks.StrippedNonEmpty | primus-os/src/core/tasks.py:85 | what is kept of a pattern's matches is stripped and non-empty, and free of `.` and `\n` when the matches are |
| Tasks.NonEmptyImagesMembers | primus-os/src/core/tasks.py:85 | a value is kept exactly when it is non-empty and is the strip of some match |
| Tasks.StripKeepsNoStop | primus-os/src/core/tasks.py:85 | stripping a capture that has no `.` or `\n` leaves one that has none |
| Tasks.CollectedUpTo | primus-os/src/core/tasks.py:83-85 | everything collected from the first patterns is non-empty, stripped and free of `.` and `\n` |
| Tasks.CollectedGrows | primus-os/src/core/tasks.py:83-85 | what the first patterns contribute stays in the final collection |
| Tasks.Dedup | primus-os/src/core/tasks.py:87 | `list(set(...))` has no duplicates, the same members as its input, and no more entries |
| Tasks.NoCueNoTasks | primus-os/src/core/tasks.py:76-87 | a text that contains none of `manual`, `human`, `repetitive` (in any case) yields no tasks |
| Tasks.DataEntryExtracted | primus-os/src/core/tasks.py:77-78 | a text opening `Currently done manually: data entry process.` yields the task `data entry process`, whatever follows |
| Tasks.OpeningMatch | primus-os/src/core/tasks.py:78 | the `currently ... manual(ly)` pattern matches that opening with the capture `data entry process` |
| Tasks.UnitTestSentence | primus-os/tests/test_main.py:31-35 | the sentence of the unit test yields a non-empty result with an entry whose lower-case form contains `data entry` and one whose lower-case form contains `report generation` |
| Tasks.ReportStepMatch | primus-os/src/core/tasks.py:77 | the first pattern matches `Manual task: report generation.` with the capture `report generation`, trying `process` before `task` |
| Tasks.ReportExtracted | primus-os/src/core/tasks.py:83-87 | when the first pattern matches nowhere before a position holding `Manual task: report generation.`, the task `report generation` is extracted |
| Tasks.NoManualStepInOpening | primus-os/src/core/tasks.py:77 | in the opening `Currently done manually: data entry process. ` the first pattern matches nowhere, because `manually` is followed by `:` and not by whitespace |
| Cues.FindAllSkip | primus-os/src/core/tasks.py:84 | `re.findall` passes over positions where the pattern does not match and resumes at the next one |
| Tasks.AnalyzeFile | primus-os/src/core/tasks.py:41-56 | the tasks of one file: the PDF note for `.pdf`, the extracted tasks of a readable file, nothing for an unreadable one |
| Tasks.PdfNotRead | primus-os/src/core/tasks.py:46-49 | a `.pdf` yields exactly `Review PDF documentation: <name>`, whatever the filesystem holds |
| Tasks.PdfNoteNamesFile | primus-os/src/core/tasks.py:49 | the name in the note has no `/` and ends in `.pdf` |
| Tasks.UnreadableNoTasks | primus-os/src/core/tasks.py:50-54 | a file that cannot be read yields no tasks |
| Tasks.ScanFilesystem | primus-os/src/core/tasks.py:27-39 | a file target is analysed whatever its suffix; a directory's listed documents are analysed and their tasks appended in order |
| Tasks.JoinedAppend | primus-os/src/core/tasks.py:35-37 | the per-file results of two parts of a walk concatenate |
| Tasks.JoinedMembers | primus-os/src/core/tasks.py:35-37 | an entry is in the concatenation exactly when one file contributes it |
| Tasks.DirectoryTasksAppend | primus-os/src/core/tasks.py:35-37 | a directory scan is the concatenation of the scans of any split of the walk, with no deduplication across files |
| Tasks.DirectoryTasksMembers | primus-os/src/core/tasks.py:36-37 | an entry comes from a directory scan exactly when some listed file with an accepted suffix yields it |
| Tasks.NoDocumentsNoTasks | primus-os/src/core/tasks.py:36 | a walk with no document of an accepted suffix yields nothing |
| Tasks.ScanWebpage | primus-os/src/core/tasks.py:58-69 | a fetched page yields the tasks of its text; a failed fetch yields nothing |
| Tasks.ParseTextDescription | primus-os/src/core/tasks.py:89-91 | a text description yields the tasks extracted from it |
| Tasks.Scan | primus-os/src/core/tasks.py:15-25 | an existing path goes to the filesystem scan even if it looks like a URL; otherwise a URL goes to the webpage scan; otherwise the target is parsed as text |
| Tasks.SpecificAdvice | primus-os/src/core/tasks.py:114-121 | there is at most one piece of advice per keyword, and a piece is present exactly when its keyword occurs |
| Tasks.GenerateRecommendations | primus-os/src/core/tasks.py:109-132 | the recommendations are the specific advice in table order, or the general advice when there is none |
| Tasks.RecommendationsShape | primus-os/src/core/tasks.py:111-132 | between 1 and 4 recommendations; each keyword's advice appears exactly when the keyword occurs in the lower-cased content; with no keyword, exactly the four general ones |
| Tasks.AdviceTable | primus-os/src/core/tasks.py:114-121 | the specific advice is `email`, `data entry`, `report`, `approval` in that order, each present exactly when found |
| Cues.FindAll | primus-os/src/core/tasks.py:84 | every string `re.findall` returns for a cue pattern is non-empty and has no `.` or `\n` |
| Cues.Tail | primus-os/src/core/tasks.py:77-80 | the shared tail `[:\s]*([^.\n]+)` captures a non-empty run of non-stop characters that ends at a stop character or the end of the text |
| Cues.MatchSeq | primus-os/src/core/tasks.py:77-80 | a match of a pattern from a position captures a non-empty stretch after that position without `.` or `\n` |
| Cues.MatchNeedsLit | primus-os/src/core/tasks.py:77-80 | a pattern matches only where each of its fixed words occurs in the text, in any case |
| Cues.FindAllNeedsLit | primus-os/src/core/tasks.py:84 | a pattern one of whose words does not occur finds nothing |
| Cues.Anchor | primus-os/src/core/tasks.py:77-80 | each pattern contains one of the words `manual`, `human`, `repetitive` |
| Strings.Strip | primus-os/src/core/tasks.py:85 | `strip()` leaves no whitespace at either end and never lengthens its input |
| Strings.StripEmpty | primus-os/src/core/tasks.py:85 | `strip()` gives the empty string exactly for all-whitespace input, which is when a capture is dropped |
| Strings.StripCharacterised | primus-os/src/core/tasks.py:85 | `strip` leaves no whitespace at either end, and a string is its own strip exactly when neither end is whitespace |
| Strings.StripIdempotent | primus-os/src/core/tasks.py:85 | stripping twice is stripping once |
| Strings.StripChars | primus-os/src/core/tasks.py:85 | `strip` adds no character |
| Strings.ContainsOccurs | primus-os/src/core/tasks.py:114 | `w in s` holds exactly when `w` stands at some position of `s` |
| Strings.Partition | primus-os/src/config/settings.py:70 | `partition('=')` splits at the first `=`: the head holds no `=`, and without `=` the whole string is the head |
| Strings.SplitLinesCons | primus-os/src/config/settings.py:67 | a line without line breaks followed by `\n` splits off as one line |
| Strings.SplitLines | primus-os/src/config/settings.py:67 | `splitlines()` returns lines that hold no line-break character |
| Strings.ParseInt | primus-os/src/config/settings.py:37-38 | `int()` accepts only text that is non-empty once stripped and, after an optional sign, holds only digits and `_`; a negative result comes from a leading `-` |
| Strings.IntToString | primus-os/src/config/settings.py:54-55 | `str(n)` is non-empty decimal digits, led by `-` exactly when `n` is negative |
| Strings.ParseIntOfIntToString | primus-os/src/config/settings.py:37-38 | in the model, `int(str(n)) == n` for every integer; CPython's digit limit is not modelled (see Left out) |
| Strings.IntToStringShape | primus-os/src/config/settings.py:54-55 | a printed integer has no surrounding whitespace and no line break |
| Paths.FileName | primus-os/src/core/tasks.py:49 | `Path(p).name` is the end of `p` after its last `/`, and holds no `/` |
| Paths.Suffix | primus-os/src/core/tasks.py:36 | `Path(p).suffix` is empty or ends the path: a dot and at least one more character, with no further dot and no `/` |
| Paths.NameSuffix | primus-os/src/core/tasks.py:36 | a suffix starts at the last dot of the name, is at least two characters and shorter than the name, and has no further dot |
| Paths.SuffixOfDottedName | primus-os/src/core/tasks.py:36 | the file `dir/stem.ext` has name `stem.ext` and suffix `.ext` |
| Paths.DotFileHasNoSuffix | primus-os/src/utils/helpers.py:25 | a name whose only dot is its first character has no suffix |
| Paths.FileNameOfJoin | primus-os/src/core/tasks.py:49 | the name of `dir/name` is `name` |
| Helpers.ValidateApiKey | primus-os/src/utils/helpers.py:45-51 | whatever the provider, an accepted key starts with `sk-` and is longer than 20 characters |
| Helpers.AnthropicKeyIsOpenAiKey | primus-os/src/utils/helpers.py:48-50 | every key accepted for Anthropic is accepted for OpenAI |
| Helpers.KeyCaseKept | primus-os/src/utils/helpers.py:47-48 | the key is compared as given: `sk-` plus 18 characters is accepted for OpenAI and `SK-` plus the same is refused |
| Helpers.OpenAiSpellings | primus-os/src/utils/helpers.py:47 | `OpenAI` and `OPENAI` select the OpenAI rule |
| Helpers.ConfigFormatOf | primus-os/src/utils/helpers.py:23-43 | a path is loaded or saved as JSON exactly when its suffix is `.json`, as YAML when it is `.yaml` or `.yml`, and otherwise refused with the message naming the suffix |
| Helpers.FormatOfSuffix | primus-os/src/utils/helpers.py:25-32 | the suffix is accepted exactly when it is `.json`, `.yaml` or `.yml`; JSON exactly for `.json`; otherwise the error message ends with the suffix |
| Helpers.ConfigFormatBySuffix | primus-os/src/utils/helpers.py:36-43 | a path with suffix `.ext` is accepted exactly when `ext` is `json`, `yaml` or `yml`, and is JSON exactly for `json` |
| Helpers.DottedConfigName | primus-os/src/utils/helpers.py:25-32 | for `dir/stem.ext` the choice depends on `ext` alone, compared exactly (so `config.JSON` is refused) |
| Helpers.NoSuffixRefused | primus-os/src/utils/helpers.py:31-32 | a path with no suffix is refused with an error naming an empty suffix |
| Helpers.HiddenJsonRefused | primus-os/src/utils/helpers.py:25-32 | a file named just `.json` is refused |
| Configuration.Settings.constructor | primus-os/src/config/settings.py:30-38 | the new object's fields are the given values with `__post_init__`'s environment overrides applied |
| Configuration.FromEnvironment | primus-os/src/config/settings.py:30-38 | the overrides never touch the embedding model, and an environment setting none of the five variables changes nothing |
| Configuration.OverridesApplied | primus-os/src/config/settings.py:32-38 | each of the five variables that is set replaces its field, the integer ones parsed; each one not set leaves its field; the embedding model is never overridden |
| Configuration.OnlyFiveVariablesMatter | primus-os/src/config/settings.py:32-38 | environments that agree on the five variables give the same settings |
| Configuration.OverridesIdempotent | primus-os/src/config/settings.py:32-38 | applying the overrides a second time changes nothing |
| Configuration.DefaultModelKept | primus-os/tests/test_main.py:17-21 | without `PRIMUS_DEFAULT_MODEL`, default settings use `gpt-4` |
| Configuration.Configured | primus-os/src/config/settings.py:43-46 | `is_configured` holds exactly when one of the two keys is present and non-empty |
| Configuration.Settings.IsConfigured | primus-os/src/config/settings.py:43-46 | the object is configured exactly when one of its two key fields is present and non-empty |
| Configuration.ConfiguredFromEnvironment | primus-os/src/config/settings.py:32-46 | default settings are configured exactly when a key variable is set to a non-empty value |
| Configuration.Settings.LoadFromEnvFile | primus-os/src/config/settings.py:59-77 | with no file the environment is kept; otherwise every parsed assignment is exported into it. A fresh object with the overrides of the new environment is returned exactly when both integer variables parse; otherwise the `ValueError` names `PRIMUS_MAX_CONCURRENT` first, then `PRIMUS_TIMEOUT`, with the value that failed |
| Configuration.LineAssignment | primus-os/src/config/settings.py:67-71 | a line assigns nothing exactly when it is blank or a comment once stripped; otherwise its key holds no `=`, key and value are stripped, and the key is empty only for a line starting with `=` |
| Configuration.KeyAndValue | primus-os/src/config/settings.py:70-71 | the key holds no `=`, both parts are stripped, and the key is non-empty unless the line starts with `=` |
| Configuration.ParseEnvText | primus-os/src/config/settings.py:66-71 | the parse loop builds the dictionary of the lines' assignments, in order |
| Configuration.LastAssignmentWins | primus-os/src/config/settings.py:67-71 | a key is set exactly when some line assigns it, and then it holds the value of the last such line |
| Configuration.IgnoredLineDropped | primus-os/src/config/settings.py:68-69 | removing a blank or comment line anywhere changes nothing |
| Configuration.AssignmentLine | primus-os/src/config/settings.py:70-71 | `KEY=value` with any non-empty stripped key that holds no `=` and does not start with `#`, and a stripped value, assigns that value to that key, any further `=` included |
| Configuration.NoEqualsLine | primus-os/src/config/settings.py:70-71 | a line without `=` assigns its stripped self the empty string |
| Configuration.ExportVariables | primus-os/src/config/settings.py:74-75 | the environment afterwards is the old one overridden by every parsed entry |
| Configuration.RenderLayout | primus-os/src/config/settings.py:50-56 | when no written string holds a line break, the written text splits into the comment line and the five `KEY=value` lines, in the fixed order, with `None` keys written empty |
| Configuration.Render | primus-os/src/config/settings.py:50-56 | the written text starts with the comment line `# Primus OS Configuration` and ends with a newline |
| Configuration.Settings.EnvFileText | primus-os/src/config/settings.py:48-57 | the object's `.env` text splits into the comment and the five assignments when no written string holds a line break, and parses back to the five written values when none has surrounding whitespace either |
| Configuration.SavedFileRoundTrip | primus-os/src/config/settings.py:50-71 | parsing the written text gives exactly the five names, each bound to the value written |
| Configuration.SaveThenLoad | primus-os/src/config/settings.py:50-77 | loading what was saved gives back the keys (`None` as `""`), the model, the limit and the timeout; resets the embedding model; and keeps whether the settings are configured |

## Left out

- `_is_url` and `urllib.parse`: the URL test is a predicate parameter of `Tasks.Scan`.
- `_scan_webpage`'s HTTP request and HTML text extraction: a map from URL to page text stands
  in for them. A URL missing from the map is a failed fetch.
- `Path.exists`, `is_file`, `rglob` and `read_text`: a map from path to entry stands in for
  them. Decoding errors are a read failure. Path normalisation is not modelled: a target is
  looked up as written, and `""` is not the current directory.
- `Tasks.Scan`: does not model the `OSError` that `Path.exists()` re-raises in pathlib up to
  Python 3.12, for errors other than ENOENT, ENOTDIR, EBADF and ELOOP. An example is
  ENAMETOOLONG, for a text description longer than 255 bytes with no `/`. There `scan` raises,
  while the model parses the text.
- The `print` calls in the exception handlers.
- The regular-expression engine in general: only the four cue patterns are modelled.
- `Tasks.Dedup`: keeps the first occurrence of each entry. Python's `list(set(...))` order is
  unspecified, and no property proved here depends on the order.
- `Strings.Lower`: lower-cases ASCII letters and the Kelvin sign only, not the rest of
  Unicode. The words compared against are ASCII.
- `Cues.FoldsTo`: case-insensitive matching covers ASCII letters and the four non-ASCII
  characters Python folds onto `i`, `s` and `k`.
- `Strings.ParseInt`: `int()` accepts ASCII digits only here, not other Unicode decimal
  digits. It accepts digit strings of any length. CPython 3.11 (and 3.7.14, 3.8.14, 3.9.14,
  3.10.7) raises `ValueError` for a decimal string of more than 4300 digits, and `str(n)` raises
  for such an `n`. So `Configuration.Settings.LoadFromEnvFile` returns `Success` for such a
  value where `settings.py` raises. `Strings.ParseIntOfIntToString` and
  `Configuration.SaveThenLoad` likewise cover integers whose text `str()` would refuse.
- `Configuration.Settings.constructor`: requires the two integer variables to parse, when set.
  The `ValueError` that `int()` raises otherwise is modelled in
  `Configuration.Settings.LoadFromEnvFile`, which returns a `Failure` naming the first
  variable that does not parse.
- `Configuration.Settings.LoadFromEnvFile`: does not model the `ValueError` that `os.environ`
  raises for an empty name, as a line `=value` produces, or for a NUL character in a name or
  value.
- `config_dir`, `log_file` and `mkdir`.
- The file writes of `save_to_env_file`: `Configuration.Settings.EnvFileText` is the text it
  would write.
- The JSON and YAML reading and writing behind the config loaders. Only the format choice is
  modelled.
- `setup_logging`, `format_code` and `create_project_structure`.
- `WorkflowAnalyzer.analyze_file`: it only reads a file and calls the recommendation rules.
- `core/agents.py`: it calls the OpenAI service.
- `main.py`.
