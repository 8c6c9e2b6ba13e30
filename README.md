# Instagram uploader core, modelled in Dafny

The uploader publishes images and videos to an Instagram account through the
Graph API, one at a time from a form or in a batch from a CSV table. This
project models its deterministic core and proves what it promises:

- **Settings** (`Settings.dfy`): the `key=value` settings lines read into a
  dictionary (`load_txt_settings`), and the configuration record.
- **Job table** (`JobFile.dfy`): the batch table after tokenisation
  (`read_jobs_from_csv`): header matching that ignores case and surrounding
  whitespace, the required `type`, `url` and `caption` columns, row
  normalisation and filtering, and the two ways the table can be rejected.
- **Graph API requests** (`GraphApi.dfy`): the container-creation form
  (`create_container`), the publish form and the status query, and the
  platform itself as a `Remote` value whose members give the answer to each
  request or raise.
- **One upload** (`Uploader.dfy`): `_upload_one` as a method that creates the
  container, for a video polls its status until FINISHED, ERROR or timeout,
  then publishes, proved equal to the specification function `Upload`; the
  pre-checks of a single upload (`_start_single`).
- **Batch** (`Batch.dfy`): the batch worker's loop with its success and
  failure counters and overall progress, and the pre-checks of
  `_start_batch`.
- `Text.dfy` holds the Python string operations the code relies on (`strip`,
  `lower`, `startswith`, the first occurrence of a character), `Dict.dfy` the
  dictionary built by assigning entries in order, `Seqs.dfy` the list built
  by appending what each item gives, `Wrappers.dfy` `Option` and
  `Result`.

Every request an upload sends is recorded in order (`Call`), so the
contracts speak about which requests were sent, with which fields, and in
which order, as well as about the outcome.

## Model

| member | source | states |
|---|---|---|
| Settings.ParseLine | instagram_uploader_gui.py:40-42 | a line yields an assignment exactly when it holds '='; the assignment is the stripped line split at its first '=', both halves stripped |
| Settings.LoadTxtSettings | instagram_uploader_gui.py:35-43 | the loop over the lines builds exactly `SettingsOf(lines)`, the lines' assignments applied top to bottom |
| Settings.SettingsOfExtend | instagram_uploader_gui.py:39-42 | one more line changes the settings by its own assignment alone, if it has one |
| Settings.ParsedKeyHasNoEquals | instagram_uploader_gui.py:41-42 | a key never holds '=', and neither key nor value has whitespace at its ends |
| Settings.SettingsKeys | instagram_uploader_gui.py:39-42 | a key is in the settings exactly when some line with '=' assigns it |
| Settings.SettingsLastLineWins | instagram_uploader_gui.py:42 | a key's value is the one of the last line assigning it; later duplicates overwrite earlier ones |
| Settings.LineWithoutEqualsIgnored | instagram_uploader_gui.py:40 | a line without '=' changes nothing |
| Settings.ValueKeepsLaterEquals | instagram_uploader_gui.py:41 | only the first '=' splits: the value keeps later '=' characters and both sides are stripped |
| JobFile.HeaderMap | instagram_uploader_gui.py:114 | every column of the header map is read from a header that normalises (strips and lower-cases) to that column's name |
| JobFile.HeaderMapKeys | instagram_uploader_gui.py:114 | a normalised name is a key of the header map exactly when some header strips and lower-cases to it |
| JobFile.HeaderCheck | instagram_uploader_gui.py:114-117 | the header check passes exactly when `type`, `url` and `caption` are all among the normalised headers |
| JobFile.RowToJob | instagram_uploader_gui.py:119-126 | a row gives a job exactly when its normalised type is `image` or `video` and its stripped URL is non-empty; every job it gives is valid (lower-case known type, non-empty stripped URL, stripped caption) |
| JobFile.FilterJobs | instagram_uploader_gui.py:118-126 | the surviving rows' jobs are no more numerous than the rows |
| JobFile.FilterJobsValid | instagram_uploader_gui.py:118-126 | every job read from the table has a lower-case known type, a non-empty stripped URL and a stripped caption |
| JobFile.ReadJobs | instagram_uploader_gui.py:104-129 | fails with MissingColumns exactly when a required column is missing, before any row is read, and with NoValidJobs exactly when the columns are there but no row survives; success returns the non-empty filtered jobs in row order |
| JobFile.ReadRows | instagram_uploader_gui.py:118-126 | the row loop collects exactly the jobs `FilterJobs` gives, in row order |
| JobFile.FilterJobsAppend | instagram_uploader_gui.py:118-126 | filtering keeps row order: the jobs of a concatenation are the jobs of the first part followed by those of the second |
| JobFile.FilterJobsFromRows | instagram_uploader_gui.py:118-126 | a job is in the result exactly when some row gives it |
| JobFile.TypeHeaderName | instagram_uploader_gui.py:114 | the header `Type` normalises to `type` |
| JobFile.UrlHeaderName | instagram_uploader_gui.py:114 | the header `URL` normalises to `url` |
| JobFile.CaptionHeaderName | instagram_uploader_gui.py:114 | the header `Caption` normalises to `caption` |
| JobFile.ThreeHeaders | instagram_uploader_gui.py:114-117 | three headers that normalise to `type`, `url` and `caption` pass the check, and each column is read from its header as written |
| JobFile.MixedCaseHeaderExample | instagram_uploader_gui.py:114-117 | the headers `Type,URL,Caption` pass the check and each column is read from its header as written |
| JobFile.ExampleImageRow | instagram_uploader_gui.py:119-126 | the row `image,http://a,hi` gives that job |
| JobFile.ExampleUnknownTypeRow | instagram_uploader_gui.py:119-125 | the row `bogus,http://b,` gives nothing: its type is unknown |
| JobFile.ExampleEmptyUrlRow | instagram_uploader_gui.py:119-123 | the row `video,,caption` gives nothing: its URL is empty |
| JobFile.OnlyFirstOfThree | instagram_uploader_gui.py:118-126 | when only the first of three rows gives a job, the table gives that job alone |
| JobFile.MixedCaseTableExample | instagram_uploader_gui.py:118-126 | under the headers `Type,URL,Caption` those three rows give exactly the one job `image`, `http://a`, `hi` |
| GraphApi.ContainerFields | instagram_uploader_gui.py:76-85 | the access token is always sent; the caption exactly when it is non-empty, verbatim; an image type (any letter case) sends `image_url` and neither `media_type` nor `video_url`; any other type sends `media_type=VIDEO` and `video_url`; no other field |
| GraphApi.ContainerFormRoundTrip | instagram_uploader_gui.py:76-85 | reading the form back gives the token, the kind, the URL and the caption given, an empty caption included |
| GraphApi.PublishFields | instagram_uploader_gui.py:89-92 | the publish form holds exactly the creation id and the access token |
| GraphApi.StatusParams | instagram_uploader_gui.py:95-98 | the status query asks for `status_code,status` with the access token, nothing else |
| Uploader.PollFrom | instagram_uploader_gui.py:352-366 | each round reads the status at least once more; defined whenever the loop ends: a non-zero interval, a wait already at the timeout, or a platform that eventually answers something other than still processing |
| Uploader.PollFromEnds | instagram_uploader_gui.py:352-366 | the last status read decides the end (FINISHED: ready; ERROR: processing failed; a raised read: that failure; still processing: timeout, or the sleep's rejection for a negative interval) and every earlier read was still processing |
| Uploader.PollFromStep | instagram_uploader_gui.py:355-366 | a read that is still processing, with the wait after the sleep short of the timeout, hands the loop on to the next read without changing where it ends |
| Uploader.ZeroIntervalEndsAtSettle | instagram_uploader_gui.py:352-366 | with an interval of 0 before the timeout the wait never grows, and the loop ends exactly at the first read that is FINISHED, ERROR or raises |
| Uploader.Upload | instagram_uploader_gui.py:345-372 | the first request is always the container creation with the job's fields; a published upload ends with the publish request |
| Uploader.PollProcessing | instagram_uploader_gui.py:352-366 | the `while True` loop ends as `Poll` says and sends exactly its number of status reads |
| Uploader.UploadOne | instagram_uploader_gui.py:345-372 | the step-by-step upload produces exactly the outcome and the requests of `Upload` |
| Uploader.NonVideoNeverPolls | instagram_uploader_gui.py:351 | a type other than exactly `video` sends no status read: at most create and publish |
| Uploader.VideoPollsAfterCreate | instagram_uploader_gui.py:348-355 | once the container exists, a video reads its status at least once, right after creation, and only that container's |
| Uploader.PublishedMeansFinished | instagram_uploader_gui.py:345-372 | a published upload had its container created, for a video saw FINISHED on the last read after reads that were all still processing, and returns the id the publish request answered; publish is the last request |
| Uploader.PublishSentMeansReady | instagram_uploader_gui.py:345-372 | whatever the outcome, a publish request is sent only for a created container and, for a video, after a last read of FINISHED preceded by reads all still processing; a creation that raises ends the upload as that failure with the creation request alone |
| Uploader.PollsToTimeoutIsFirstReach | instagram_uploader_gui.py:363-366 | the number of reads before a timeout is the least n >= 1 with n times the interval at least the timeout, that is the ceiling of timeout over interval, or 1 |
| Uploader.PollFromBound | instagram_uploader_gui.py:352-366 | with a positive interval the loop never reads the status more than `PollsToTimeout` times |
| Uploader.TimedOutAfterAllReads | instagram_uploader_gui.py:363-366 | with a positive interval a timeout never comes early: polling that times out has read the status exactly `PollsToTimeout` times |
| Uploader.PollFromTimesOut | instagram_uploader_gui.py:352-366 | a status that stays in processing for the first `PollsToTimeout` reads ends in a timeout after exactly those reads, whatever later reads would answer |
| Uploader.VideoPollCountBound | instagram_uploader_gui.py:345-372 | a whole video upload sends at most `2 + PollsToTimeout` requests |
| Uploader.VideoStuckInProcessingTimesOut | instagram_uploader_gui.py:352-366 | a video still processing on each of its first `PollsToTimeout` reads fails with a timeout after exactly those reads and never publishes |
| Uploader.CapitalizedVideoSkipsPolling | instagram_uploader_gui.py:351 | the type `Video` asks for a video container (line 81 lower-cases) but skips the status polling (line 351 compares exactly) |
| Uploader.LowerCaseTypesAgree | instagram_uploader_gui.py:351 | for the lower-case types `image` and `video` the container form and the polling test pick the same kind |
| Uploader.UrlAccepted | instagram_uploader_gui.py:259 | a URL passes exactly when it starts with `http` followed by `://` or by `s://` |
| Uploader.StartSingle | instagram_uploader_gui.py:254-282 | refuses without token or account id; refuses a stripped URL that starts with neither `http://` nor `https://`; otherwise uploads the stripped URL and caption |
| Uploader.PaddedUrlAccepted | instagram_uploader_gui.py:258-259 | whitespace around an accepted URL changes neither the verdict nor the URL sent |
| Batch.RunBatch | instagram_uploader_gui.py:313-331 | the worker uploads every job once in order, whatever earlier jobs did; `ok` counts the published runs, `fail` the failed ones, and together they make the number of jobs; the progress is (1, total), ..., (total, total) |
| Batch.UploadJob | instagram_uploader_gui.py:315-323 | the next job is uploaded with its own type, URL and caption against the platform of its turn, extending the runs of the jobs before it |
| Batch.Tally | instagram_uploader_gui.py:322-328 | a published run adds one to the successes, a failed one to the failures |
| Batch.CountsAddUp | instagram_uploader_gui.py:322-328 | every run is counted once, as a success or a failure |
| Batch.CountsStep | instagram_uploader_gui.py:322-328 | one more run adds one to exactly the count its outcome names |
| Batch.ProgressCountsUp | instagram_uploader_gui.py:329-331 | the progress counts up by one from 1, never skipping nor going back, and ends at (total, total) |
| Batch.SecondCreateFailsExample | instagram_uploader_gui.py:313-333 | three image jobs whose second container creation raises give two successes, one failure, and the failure is the second job |
| Batch.StartBatch | instagram_uploader_gui.py:293-338 | refuses without credentials, with an empty stripped path or a missing file; rejects the table with MissingColumns exactly when a required column is missing and with NoValidJobs exactly when no row gives a job; otherwise runs the batch over the table's jobs, reporting the counts of published and failed runs and the progress (1, total), ..., (total, total) |

## Left out

- The tkinter/ttkbootstrap interface: widgets, dialogs, clipboard, the log window, the progress bars' drawing and the log texts. The batch progress is modelled as the sequence of `(i, total)` pairs passed to `_bump_overall`.
- Threads and `after` marshalling: the worker bodies are sequential methods.
- HTTP: `_request`, the `requests` call, JSON decoding, error formatting and a missing `id` key all become a `Raised` reply of the `Remote`; the endpoint URLs and `GRAPH_BASE` are not modelled beyond the account id passed with create and publish.
- The platform is an input: `Remote` gives the answer to every request, and in a batch the k-th job meets the platform `remotes(k)`; nothing models how it changes between requests beyond the status read's attempt number.
- `time.sleep` is not modelled except for its refusal of a negative interval (`SleepRejected`); elapsed time is only the `waited` counter.
- Files and the environment: `os.path.exists`, opening files, `csv.DictReader` tokenisation and the UTF-8 BOM, `dotenv`, `os.getenv` and the `int(...)` conversions of the settings. The settings file is its sequence of lines, the CSV file its header names and row maps (`None` when it does not exist), and the configuration a `Config` value.
- Where the configuration values come from is not modelled: the access token, the account id and the API version are taken from the environment first, then the settings file, then a default (empty, empty, `v21.0`); the poll interval and the timeout from the settings file alone, defaulting to 5 and 600. The API version only enters the endpoint URLs, so `Config` does not carry it.
- A header that is `None` in `csv.DictReader` (the `k or ""` case) and rows with extra cells are not modelled: headers are strings and a missing cell reads as "".
- Text.Lower: lower-cases ASCII letters only, where Python's `str.lower` lower-cases all of Unicode; Text.IsSpace follows `str.isspace`.
- Uploader.PollFrom: defined only where the polling loop ends. With an interval of 0 and a positive timeout the wait never grows, and a platform that answers "still processing" forever keeps the source polling for ever; a model that returns cannot follow that run, so this case alone is excluded.
- Uploader.Poll: same exclusion as Uploader.PollFrom, for the container's polling from the first read.
- Uploader.PollProcessing: same exclusion as Uploader.PollFrom; the loop is proved to end by the distance to the first settling read when the interval is 0.
- Uploader.Upload: same exclusion as Uploader.PollFrom, for a video whose container was created.
- Uploader.UploadOne: same exclusion as Uploader.Upload.
- Uploader.StartSingle: same exclusion as Uploader.Upload, for the stripped URL and caption, and only once the credentials and the URL have passed their checks; a refused request is always modelled.
- Batch.RunBatch: same exclusion as Uploader.Upload, for every job against the platform of its turn.
- Batch.StartBatch: same exclusion as Batch.RunBatch, for the jobs of the table, and only once the credentials, the path and the file have passed their checks and the table has its columns; every refusal is modelled.
- The status reply's `status` text is only logged, so it is not modelled; a missing `status_code` is `None` and counts as still processing.
