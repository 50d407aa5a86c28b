# bilibili-series-downloader, modelled in Dafny

This project models the three pieces of plain logic in bilibili-series-downloader. The rest of the tool is glue around yt-dlp, ffmpeg and the filesystem. The three pieces are:

- **Renaming downloaded MP3 files** (`rename_mp3.py`). `extract_song_name` is a cascade of five regular expressions that pulls the song title out of a downloaded file's name. `clean_filename` sanitises that title. The loop of `rename_mp3_files` then decides, file by file, whether to skip, keep or rename, and counts the successes.
- **The simple extractor** (`bilibili_audio_extractor.py`). It covers three things:
  - `extract_video_id`, a priority search over three URL patterns;
  - the `safe_title` substitution and output template of `download_audio`;
  - the collection loop of `extract_from_collection`, which names each entry `NN_title` and counts the successful downloads.
- **The advanced extractor** (`advanced_extractor.py`). It covers these parts:
  - `load_config` and its default configuration;
  - `setup_ydl_options`, the yt-dlp option dictionary built from the configuration, including key order, `**` spreads, overrides and conditional keys, with the Python exceptions that missing keys and wrong types raise;
  - `download_playlist_concurrent`: entry filtering, the worker count, the job labels `[i/total] title`, and the boolean result.

Modules follow the program's structure:

| module | what it holds |
|---|---|
| `Text` | character classes (`\s`, `\d`, the illegal filename characters), `str.strip`, and decimal formatting |
| `CleanName` | `clean_filename` |
| `SongName` | `extract_song_name` |
| `RenameMp3` | the rename loop, as a class over the directory's set of names |
| `VideoId` | `extract_video_id` |
| `YtInfo` | the info and entry records that yt-dlp reports |
| `Bilibili` | `download_audio`'s template and `extract_from_collection` |
| `PyJson` | JSON values, and Python dictionaries as insertion-ordered association lists |
| `AdvancedOptions` | `load_config` and `setup_ydl_options` as functions |
| `AdvancedExtractor` | the class `AdvancedBilibiliExtractor`, whose `setup_ydl_options` updates the object's option field |

Each regular expression is encoded directly by the match that Python's backtracking engine settles on. This is not a general regex engine:

- a greedy run is the longest run of a character class;
- a lazy `.*?`, and the scan of `re.search`, is the least position that lets the rest of the pattern match.

The outside world enters the model as parameters:

- yt-dlp's info dictionary;
- the outcome of each download and of each rename;
- the order in which the thread pool completes its jobs;
- the content of the configuration file.

## Model

| member | source | states |
|---|---|---|
| Text.ReplaceIllegal | rename_mp3.py:65-66 | same length; each of the nine illegal filename characters becomes `_` and every other character is kept; the result has none of them |
| Text.Strip | rename_mp3.py:69-70 | the result is the slice of the input at `StripOffset`, and neither of its ends is in the stripped class |
| Text.StripCuts | rename_mp3.py:69-70 | every character `strip` cuts, before and after the slice it keeps, is in the stripped class |
| Text.StripUnchanged | rename_mp3.py:69-70 | a string whose ends are outside the class is returned unchanged |
| Text.DecimalRoundTrip | advanced_extractor.py:164 | `str(n)` is a non-empty digit string without a leading zero that reads back as `n` |
| Text.ZeroPad2RoundTrip | bilibili_audio_extractor.py:125 | `f"{n:02d}"` has at least two digits, exactly two below 100, and reads back as `n` |
| CleanName.CollapseSpace | rename_mp3.py:69 | `re.sub(r'\s+', ' ', s)` is no longer than `s`, keeps its first character or makes it `' '`, leaves no two adjacent whitespace characters and keeps `' '` as the only whitespace, and adds no illegal character |
| CleanName.CollapseKeepsText | rename_mp3.py:69 | collapsing keeps every character that is not whitespace, in order, and adds none |
| CleanName.CollapseKeepsSingleSpaced | rename_mp3.py:69 | a string that is already single-spaced is left unchanged |
| CleanName.CleanFilename | rename_mp3.py:62-72 | the result has no illegal character, no two adjacent whitespace characters, only `' '` as whitespace, no `.` at either end, and is never longer than the input |
| CleanName.CleanFilenameCuts | rename_mp3.py:66-70 | the result is the slice of the replaced and collapsed name at `CleanOffset`, and every character cut from its two ends is a space or a dot |
| CleanName.CleanFixesClean | rename_mp3.py:66-70 | a name with no illegal character, single plain spaces and no space or dot at either end is returned unchanged |
| CleanName.CleanIdempotentIff | rename_mp3.py:69-70 | cleaning twice gives the same result as cleaning once exactly when the first result has no space at either end |
| CleanName.CleanNotIdempotent | rename_mp3.py:69-70 | `". a ."` is cleaned to `" a "`, which is cleaned again to `"a"` |
| CleanName.CleanFilenameFixed | rename_mp3.py:69-70 | with spaces and dots stripped together, the result has neither at either end, besides the other guarantees of `CleanFilename`; it is the slice of the collapsed name left once only spaces and dots are cut from its two ends |
| CleanName.CleanFixedIdempotent | rename_mp3.py:62-72 | the corrected cleaning is idempotent and leaves every clean name unchanged |
| SongName.DropExtension | rename_mp3.py:15 | `rsplit('.', 1)[0]` is the prefix before the last `.`, or the whole name without a `.` |
| SongName.DropExtensionMp3 | rename_mp3.py:15 | dropping the extension of `s + ".mp3"` gives back `s` |
| SongName.IndexPrefixEnd | rename_mp3.py:19 | when `^\d+_` matches, it ends just after a `_` that follows a non-empty digit run from the start; it never matches a name that does not start with a digit |
| SongName.IndexPrefixEndOf | rename_mp3.py:19 | conversely, a name made of digits up to a `_` matches `^\d+_`, which ends just after that `_` |
| SongName.MarkerAt | rename_mp3.py:19 | the `\sp\d+\s+` marker starts with a whitespace character and `p`, and its digit and space runs are non-empty |
| SongName.TitleStart | rename_mp3.py:19 | the title group may start after the marker's digits and within its space run, and can start whenever text follows the run |
| SongName.DashGroupEnd | rename_mp3.py:19 | the lazy title of `(.+?)(?:-.*?-.*?)?$` ends at the first later `-` that has another `-` after it, or at the end of the name |
| SongName.YearGroupEnd | rename_mp3.py:38 | the lazy title of `(.+?)(?:-.*?-\d{4})?$` ends at the first later `-` that starts a `-…-dddd` tail, or at the end of the name |
| SongName.FirstTitle | rename_mp3.py:19 | the lazy `.*?` picks the least position where a marker with a title follows |
| SongName.FirstWangJie | rename_mp3.py:30 | the least position where the Wang Jie marker and track number `\d+\.` follow |
| SongName.FirstOldFormat | rename_mp3.py:38 | the least position where the old-format marker and group follow |
| SongName.FirstBookTitle | rename_mp3.py:46 | the earliest `《` that has a non-empty title closed by `》` after it |
| SongName.FirstFallback | rename_mp3.py:53 | the least whitespace position where the fallback group can follow |
| SongName.LatestGroup | rename_mp3.py:19-20 | when the latest pattern matches, its group is a non-empty piece of the name |
| SongName.WangJieAt | rename_mp3.py:30 | the Wang Jie title starts after a marker and a track number ending in digit and `.` |
| SongName.WangJieStart | rename_mp3.py:30 | where the scan settles, the Wang Jie group starts inside the name, just after a digit and `.` |
| SongName.TrackNumberEnd | rename_mp3.py:30 | `\d+\.` after the marker's spaces ends with a digit followed by `.` |
| SongName.WangJieGroup | rename_mp3.py:30-31 | the group is the non-empty rest of the name after a digit and `.`, and so a piece of the name |
| SongName.OldFormatAt | rename_mp3.py:38 | the old-format group starts inside the name |
| SongName.OldFormatStart | rename_mp3.py:38 | where the scan settles, the old-format group starts inside the name |
| SongName.OldFormatGroup | rename_mp3.py:38-39 | the old-format pattern matches exactly when the scan finds a start for its group; the group is a non-empty piece of the name |
| SongName.NaGroup | rename_mp3.py:46-47 | only names starting `NA_` match; the group is a non-empty piece of the name with no `》` after its first character |
| SongName.FallbackAt | rename_mp3.py:53 | the fallback group starts after a whitespace character |
| SongName.FallbackGroup | rename_mp3.py:53-54 | when the fallback pattern matches, its group is a non-empty piece of the name |
| SongName.LatestFinish | rename_mp3.py:22-25 | the latest rule's title has no `-` and no whitespace at either end; a title without `-` is only stripped |
| SongName.LatestFinishInfix | rename_mp3.py:22-25 | what the latest rule keeps is a piece of its group |
| SongName.ExtractSongName | rename_mp3.py:12-60 | the result is the name without its extension, or a piece of it with no whitespace at either end; when the latest pattern matches, it has no `-` |
| SongName.ShadowedRulesNeverDecide | rename_mp3.py:15-60 | the cascade's result is decided by the latest rule, else the `NA_` rule, else the fallback, else the name without its extension; the Wang Jie and old-format rules never decide |
| SongName.LatestShadowsWangJie | rename_mp3.py:19-31 | every name the Wang Jie pattern accepts, the latest pattern accepts too |
| SongName.OldFormatIffLatest | rename_mp3.py:19-39 | the old-format pattern accepts a name exactly when the latest pattern does |
| SongName.NaPrefixSkipsDigitRules | rename_mp3.py:19-38 | a name starting `NA_` matches none of the three rules that need a leading index |
| SongName.NoSpaceKeepsName | rename_mp3.py:46-60 | a name without whitespace that the `NA_` rule rejects comes back as the name without its extension |
| SongName.ExtractSongNameFixed | rename_mp3.py:28-42 | the corrected cascade tries the Wang Jie rule, then the old format 1 with its year suffix, before the latest rule; its result is the name without its extension or a piece of it with no edge whitespace, and has no `-` when the latest rule decides |
| SongName.NaTakesFirstBookTitle | rename_mp3.py:46-47 | with no `《` before the first book title, the `NA_` rule returns that title |
| SongName.LatestExample | rename_mp3.py:17-26 | the example of line 18 yields `爱相随` |
| SongName.WangJieExample | rename_mp3.py:28-34 | the example of line 29 yields `1.谁明浪子心` as written, and `谁明浪子心` under the corrected cascade |
| SongName.OldFormatExample | rename_mp3.py:36-42 | the example of line 37 yields `【开头王炸】My heart will go on` as written, and `My heart will go on` under the corrected cascade |
| SongName.NaExample | rename_mp3.py:44-50 | the example of line 45 yields `Say You, Say Me` |
| SongName.DecidedByWangJieFixed | rename_mp3.py:30-34 | under the corrected cascade a Wang Jie match decides the result |
| SongName.DecidedByOldFormatFixed | rename_mp3.py:38-42 | under the corrected cascade an old-format match with its year suffix decides the result |
| SongName.FixedAgreesElsewhere | rename_mp3.py:12-60 | the corrected cascade differs from the original only on names the Wang Jie pattern accepts and on old-format names whose `-…-dddd` suffix matched |
| RenameMp3.NewName | rename_mp3.py:99-105 | the new name ends in `.mp3` and its stem has no illegal character, single plain spaces and no edge dot |
| RenameMp3.Decide | rename_mp3.py:111-124 | skip exactly when a different file already has the name; keep exactly when the name is unchanged; rename exactly otherwise |
| RenameMp3.StepFacts | rename_mp3.py:111-128 | `Step`, one iteration of the loop, keeps the number of files and every other file, only adds its target, and changes the directory only by a counted rename onto a free name |
| RenameMp3.StepCounts | rename_mp3.py:111-128 | a step counts exactly when the name is unchanged, or the target is free and the rename succeeds; a counted file ends up under its target |
| RenameMp3.RunFacts | rename_mp3.py:94-130 | `Run`, the whole loop, keeps the number of files, counts at most one success per file, and keeps every file it was not given |
| RenameMp3.RunOnlyAddsNewNames | rename_mp3.py:104-128 | every name the loop adds to the directory is one of the new names |
| RenameMp3.RunAllNamed | rename_mp3.py:116-120 | when every file already has its new name, nothing changes and every file counts |
| RenameMp3.RenamedAreMp3 | rename_mp3.py:104-126 | every name the loop adds ends in `.mp3` and has a stem without illegal characters |
| RenameMp3.Mp3Directory.constructor | rename_mp3.py:80-86 | the directory holds the given names |
| RenameMp3.Mp3Directory.RenameMp3Files | rename_mp3.py:94-130 | the new directory and the success count are those of `Run` over the listed files, their new names and the rename outcomes |
| VideoId.CaptureAt | bilibili_audio_extractor.py:61-63 | the captured group starts right after the pattern's literal and is the longest non-empty run of the pattern's class there: the character after it is outside the class, or the URL ends |
| VideoId.Search | bilibili_audio_extractor.py:67 | `re.search` gives the leftmost match, and none when the pattern occurs nowhere |
| VideoId.WithBvPrefix | bilibili_audio_extractor.py:69-71 | the id starts with `BV`; `BV` is prepended exactly when the capture lacks it |
| VideoId.IdFrom | bilibili_audio_extractor.py:61-71 | the id starts with `BV` and has no `/` or `?`; from the bare `BV` pattern it is ASCII letters and digits only |
| VideoId.ExtractVideoId | bilibili_audio_extractor.py:58-73 | a returned id starts with `BV` and has no `/` or `?`; `None` exactly when no pattern occurs anywhere in the URL |
| VideoId.NoMatchOfAny | bilibili_audio_extractor.py:66-73 | no match of each of the three patterns means no match of any pattern |
| VideoId.PatternPriority | bilibili_audio_extractor.py:60-68 | the leftmost match of the highest-priority pattern that occurs decides the id, wherever the others occur |
| VideoId.ShortLinkExample | bilibili_audio_extractor.py:62 | `https://b23.tv/abc?x=1` yields `BVabc`; the query string is cut off |
| YtInfo.Present | advanced_extractor.py:143 | the entries that are not `None`, in list order: there are as many as present entries, the entry at position `k` lands at index `PresentCount(entries, k)`, and no other value occurs |
| YtInfo.PresentCountBelow | advanced_extractor.py:143 | a present entry counts itself: fewer present entries precede it than precede any later position |
| Bilibili.OutputTemplate | bilibili_audio_extractor.py:88-92 | with a non-empty custom title the template is the directory, `/`, the title with each illegal character replaced by `_`, and `.%(ext)s`; otherwise it is the directory and the default leaf `%(title)s.%(ext)s`; the leaf never has an illegal character |
| Bilibili.ItemLabelReadsBack | bilibili_audio_extractor.py:120-125 | `ItemLabel` starts with the position, zero-padded to at least two digits, which reads back as the position, then `_`, then the title or `Video_i` |
| Bilibili.CollectionCallsShape | bilibili_audio_extractor.py:116-125 | `CollectionCalls` makes one download per entry that is not `None`, each the call of some present entry |
| Bilibili.CollectionCallsAt | bilibili_audio_extractor.py:116-125 | the download of the present entry at position `k` is the call at index `PresentCount(entries, k)`, with `webpage_url or url` and the name `ItemLabel(k + 1, entry)` |
| Bilibili.SuccessesBounds | bilibili_audio_extractor.py:115-129 | `Successes`, the loop's counter, is at most the number of present entries, and positive exactly when some present entry downloaded |
| Bilibili.CollectionResultMeans | bilibili_audio_extractor.py:107-134 | `CollectionResult` is `False` without info; for a collection, `True` exactly when some download succeeded; for a single video, that download's outcome |
| Bilibili.ExtractFromCollection | bilibili_audio_extractor.py:102-134 | the loop makes exactly the downloads of `CollectionPlan`, and its result is true exactly when some entry's download succeeded |
| PyJson.Get | advanced_extractor.py:74-75 | a lookup succeeds exactly when the key is in the dictionary |
| PyJson.GetAt | advanced_extractor.py:74-75 | in a dictionary with distinct keys, each key maps to the value of its pair |
| PyJson.Set | advanced_extractor.py:82-89 | after `d[k] = v`, `k` maps to `v` and every other key keeps its value |
| PyJson.SetKeys | advanced_extractor.py:82-89 | assignment keeps a present key in its place and appends a new key at the end |
| PyJson.SetKeepsDistinct | advanced_extractor.py:82-89 | assignment keeps the keys distinct |
| PyJson.Spread | advanced_extractor.py:71-75 | after `{**d, **extra}`, keys absent from `extra` keep their values |
| PyJson.SpreadWins | advanced_extractor.py:71-75 | after a spread, every key of `extra` has the value `extra` gives it |
| PyJson.SpreadKeepsOrder | advanced_extractor.py:63-76 | a spread keeps the keys of `d` in their places at the front |
| AdvancedOptions.LoadConfig | advanced_extractor.py:31-59 | a loaded file's JSON is the configuration; a missing or unreadable file gives the default, whose output directory is `./downloads`, whose `max_concurrent_downloads` is 3, and from which the options build without error |
| AdvancedOptions.DefaultConfigValues | advanced_extractor.py:44-59 | `DefaultConfig` has 3 concurrent downloads, 3 retries, format `mp3`, quality `192` and directory `./downloads` |
| AdvancedOptions.OutputDirectory | advanced_extractor.py:25 | the output directory is read when `output_directory` is present and a string |
| AdvancedOptions.BasePairs | advanced_extractor.py:63-74 | the literal part of the option dictionary has the eight keys in source order |
| AdvancedOptions.BaseKeysDistinct | advanced_extractor.py:63-74 | its eight keys are distinct |
| AdvancedOptions.BaseParts | advanced_extractor.py:63-76 | a non-dictionary raises `TypeError`, a missing `filename_template` raises `KeyError`; on success each part is the value the source reads |
| AdvancedOptions.BaseOptions | advanced_extractor.py:63-76 | the dictionary is built exactly when every part can be read |
| AdvancedOptions.AssembleGet | advanced_extractor.py:63-76 | in `Assemble` the eight base keys come first in source order; each has its literal value unless `download_options` overrides it |
| AdvancedOptions.OptionsRules | advanced_extractor.py:63-76 | `outtmpl` is the directory joined with the template; `audioformat`/`audioquality` come from the configuration; `ignoreerrors` is true; `retries` is `retry_attempts` or 3; `download_options` overrides each |
| AdvancedOptions.AssembleOther | advanced_extractor.py:75 | every non-base key has its value from `download_options` |
| AdvancedOptions.PostprocessorKey | advanced_extractor.py:69-72 | `key` comes first in the `Postprocessor` entry; `postprocessor_options` can override it |
| AdvancedOptions.ProxyValue | advanced_extractor.py:79-82 | the proxy setting fails exactly when `proxy` is not a dictionary, and any value it gives is truthy |
| AdvancedOptions.ProxyRule | advanced_extractor.py:79-82 | `proxy` is set exactly when `proxy.enabled` and `http_proxy` are both truthy; otherwise it is whatever `download_options` gave |
| AdvancedOptions.SetIf | advanced_extractor.py:81-89 | a conditional assignment changes only its key and keeps the key order |
| AdvancedOptions.SetThreeFacts | advanced_extractor.py:78-89 | the three conditional assignments change only `proxy`, `user_agent` and `http_headers`, and keep the key order |
| AdvancedOptions.Extras | advanced_extractor.py:78-89 | the conditional part fails exactly when `proxy` is not a dictionary |
| AdvancedOptions.ExtrasRules | advanced_extractor.py:78-89 | `user_agent` and `http_headers` are set exactly when truthy and then win over `download_options`; every other key and the key order are kept |
| AdvancedOptions.YdlOptions | advanced_extractor.py:61-89 | the options are built exactly when the base parts can be read and `proxy` is absent or a dictionary |
| AdvancedOptions.DefaultConfigParts | advanced_extractor.py:44-76 | the parts the default configuration gives |
| AdvancedOptions.DefaultConfigNoProxy | advanced_extractor.py:44-59 | the default has no `proxy` entry |
| AdvancedOptions.DefaultConfigBuilds | advanced_extractor.py:44-89 | building the options from the default configuration raises nothing |
| AdvancedExtractor.MaxWorkers | advanced_extractor.py:152-154 | the worker count is `min(configured, total)`, between 1 and both; a count of 0 or less raises `ValueError` |
| AdvancedExtractor.DefaultSetting | advanced_extractor.py:147-152 | the default configuration asks for 3 workers |
| AdvancedExtractor.DefaultWorkers | advanced_extractor.py:152-154 | with the default configuration the pool has `min(3, total)` workers |
| AdvancedExtractor.JobLabelReadsBack | advanced_extractor.py:161-164 | `JobLabel` is `[i/total] title`: its two numbers read back as `i` and `total`, and its rest is the title or `Video_i` |
| AdvancedExtractor.PlaylistJobReadsBack | advanced_extractor.py:157-165 | job `k` of `PlaylistJobs` has the URL of present entry `k` and the label `[k+1/total] title` |
| AdvancedExtractor.PlaylistNumbering | advanced_extractor.py:143-165 | the present entry at list position `i` gets the job at index `PresentCount(entries, i)`, with its URL and the label `[n/total] title` where `n` is that index plus 1 and `total` the number of present entries |
| AdvancedExtractor.CountTruePositive | advanced_extractor.py:168-172 | the successes are at most the jobs, and positive exactly when some job succeeded |
| AdvancedExtractor.CompletionCovers | advanced_extractor.py:168-172 | whatever order the jobs complete in, some completed job succeeded exactly when some job succeeded |
| AdvancedExtractor.PlaylistResultMeans | advanced_extractor.py:143-183 | with a worker count, `PlaylistResult` is `True` exactly when some job succeeded; otherwise it is the error of computing the count |
| AdvancedExtractor.EmptyPlaylistRaises | advanced_extractor.py:143-154 | a playlist whose entries are all `None` always raises, `ValueError` once the setting is a number |
| AdvancedExtractor.EmptyPlaylistExample | advanced_extractor.py:143-154 | with the default configuration the playlist `[None]` raises `ValueError` |
| AdvancedExtractor.FixedPlaylistMeans | advanced_extractor.py:143-183 | with the empty-playlist guard and a positive setting, the result raises nothing and is `True` exactly when some job succeeded |
| AdvancedExtractor.PlaylistResultFixed | advanced_extractor.py:143-183 | with the empty-playlist guard, an empty playlist no longer raises `ValueError`: it gives `False` exactly when the worker setting can be read |
| AdvancedExtractor.FixedAgreesElsewhere | advanced_extractor.py:128-183 | the guard changes nothing except for an empty playlist |
| AdvancedExtractor.SubmitJobs | advanced_extractor.py:156-165 | the submission loop submits exactly the planned jobs |
| AdvancedExtractor.CountCompleted | advanced_extractor.py:168-172 | the count is at most the number of jobs, and positive exactly when some job succeeded |
| AdvancedExtractor.AdvancedBilibiliExtractor.constructor | advanced_extractor.py:23-29 | the object holds the loaded configuration, its output directory and the options `setup_ydl_options` builds |
| AdvancedExtractor.AdvancedBilibiliExtractor.SetupYdlOptions | advanced_extractor.py:61-89 | it changes only the option field: it is left as it was when the base dictionary raises, is the base dictionary when the proxy step raises, and is the full options otherwise; it raises exactly when building the options fails |
| AdvancedExtractor.AdvancedBilibiliExtractor.DownloadPlaylistConcurrent | advanced_extractor.py:128-183 | the jobs are those of `PlaylistPlan` and the result is that of `PlaylistResult`: `False` without info, the single download without `entries`, else the playlist result |

## Left out

- yt-dlp, ffmpeg, subprocess calls, `mkdir`, `glob` and `stat` are not modelled. The info dictionaries, the outcomes of downloads and renames, and the configuration file's content are inputs.
- The thread pool and `as_completed` are not modelled. The completion order is an input, and only the success count matters.
- Printing, `progress_hook`, `input()`, `argparse`, and `main`'s overrides of the configuration (advanced_extractor.py:238-253) are not modelled. They only print or feed values that the model takes as parameters.
- The `b23.tv` redirect (bilibili_audio_extractor.py:144-151) is left out because it is network I/O.
- The early returns of `rename_mp3_files` for a missing directory or no MP3 files (rename_mp3.py:80-89) only print. The model takes the listed files as given.
- Floating-point JSON numbers and the MB and percentage computations are left out. A float `max_concurrent_downloads` is not representable in the model.
- Paths are joined as `dir + "/" + name`. `pathlib`'s normalisation, such as dropping a leading `./` or doubled separators, is not modelled.
- Filesystem case-insensitivity is not modelled. A target name counts as taken only when it is the same string.
- An info dictionary that is empty is treated like `None`, as `if not info` does. Its other falsy forms follow from that.
- Titles and URLs are strings or absent. A `title` key whose value is `null` or not a string is not modelled.
- `entries` is a list or absent. A `null` or non-list value is not modelled.
- The fixed `ydl_opts` of `BilibiliAudioExtractor.__init__` are not modelled, apart from `outtmpl`.
- `download_single_video` copies the options and adds `progress_hooks`. The model does not carry these options, because yt-dlp is not modelled.
- `\d` is the ASCII digits. Python also accepts other Unicode decimal digits, which are not modelled.
- `\s` is Python's `str.isspace` set, written out in full.
- JSON objects are association lists. A file whose object repeats a key is read by `json.load` with the last value winning, while `PyJson.Get` takes the first; configurations with repeated keys are not modelled faithfully.
- SongName.ExtractSongName: the patterns are encoded for names without line breaks. On a name containing `\n`, Python's `.` and `$` behave differently and the model does not follow them.
- AdvancedExtractor.CountCompleted: states only that the count is bounded by the number of jobs and is positive exactly when some job succeeded. It does not state that the count equals the number of successful jobs, which would need a permutation argument over the completion order.
- AdvancedExtractor.AdvancedBilibiliExtractor.constructor: requires the configuration to yield an output directory and options. When they do not, Python's `__init__` raises, and the model has no object to construct.

## Findings

Nothing was executed; each finding comes from a lemma about the model.

| source | as written | input that shows it | evidently intended | confidence | as-written member | corrected member |
|---|---|---|---|---|---|---|
| rename_mp3.py:19-34 | the latest rule is tried first, and it accepts every name the Wang Jie rule accepts, so the Wang Jie branch never decides | the example of line 29, `01_【Hi-Res无损音质】…歌单！ p01 1.谁明浪子心.mp3`, yields `1.谁明浪子心` | the Wang Jie rule drops the track number and yields `谁明浪子心` | not executed | SongName.WangJieExample | SongName.ExtractSongNameFixed |
| rename_mp3.py:69-70 | spaces are stripped before dots, so a space shielded by a dot survives at an edge and a second cleaning changes the name | `". a ."` is cleaned to `" a "`, then to `"a"` | cleaning is idempotent and leaves no space at either end | not executed | CleanName.CleanNotIdempotent | CleanName.CleanFilenameFixed |
| advanced_extractor.py:143-154 | a playlist whose entries are all `None` gives `max_workers = min(n, 0) = 0`, and `ThreadPoolExecutor` raises `ValueError` | the playlist `[None]` with the default configuration | an empty playlist reports `False`, like a playlist whose downloads all failed | not executed | AdvancedExtractor.EmptyPlaylistExample | AdvancedExtractor.PlaylistResultFixed |
| rename_mp3.py:36-42 | the latest rule is tried first, and it accepts exactly the names the old format 1 accepts, so the old format 1 never decides and its `【...】` prefix and `-film-year` suffix handling is dead | the example of line 37, `01_70后 80后 90后 欧美奥斯卡电影金曲精选合集（1940-2015）珍藏版 值得回味收藏！ p01 【开头王炸】My heart will go on-泰坦尼克号-1997.mp3`, yields `【开头王炸】My heart will go on` | the old format 1 drops the bracketed prefix and yields `My heart will go on` | not executed | SongName.OldFormatExample | SongName.ExtractSongNameFixed |
