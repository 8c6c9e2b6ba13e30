/**
 * A batch upload (`_start_batch` and its worker): the pre-checks, then every
 * job of the table uploaded once, in table order, with the successes and
 * failures counted and the overall progress advanced after each job
 * whatever its outcome.
 */
module Batch {
  import opened Wrappers
  import opened Text
  import opened Settings
  import opened GraphApi
  import opened JobFile
  import opened Uploader

  /** Every upload of the batch ends: job k (counting from 0) against the platform as it behaves during the (k+1)-th upload. */
  ghost predicate PollsEnd(cfg: Config, jobs: seq<Job>, remotes: nat -> Remote)
  {
    forall k :: 0 <= k < |jobs| ==> UploadEnds(cfg, remotes(k + 1), jobs[k].mediaType, jobs[k].url, jobs[k].caption)
  }

  /**
   * The runs are those of the batch's first |runs| jobs: job k (counting
   * from 0) is uploaded (k+1)-th, once, with its own type, URL and caption,
   * against the platform as it behaves during that upload.
   */
  predicate RunsOfFirst(cfg: Config, jobs: seq<Job>, remotes: nat -> Remote, runs: seq<UploadRun>)
    requires PollsEnd(cfg, jobs, remotes)
  {
    && |runs| <= |jobs|
    && forall k :: 0 <= k < |runs| ==>
         runs[k] == Upload(cfg, remotes(k + 1), jobs[k].mediaType, jobs[k].url, jobs[k].caption)
  }

  /** The run of the next job extends the runs of the first jobs. */
  lemma RunsOfFirstSnoc(cfg: Config, jobs: seq<Job>, remotes: nat -> Remote, runs: seq<UploadRun>, run: UploadRun)
    requires PollsEnd(cfg, jobs, remotes) && RunsOfFirst(cfg, jobs, remotes, runs) && |runs| < |jobs|
    requires run == Upload(cfg, remotes(|runs| + 1), jobs[|runs|].mediaType, jobs[|runs|].url, jobs[|runs|].caption)
    ensures RunsOfFirst(cfg, jobs, remotes, runs + [run])
  {
  }

  /** 1 for a run that published, else 0. */
  function Won(run: UploadRun): nat
  {
    if run.outcome.Published? then 1 else 0
  }

  /** 1 for a run that failed, else 0. */
  function Lost(run: UploadRun): nat
  {
    if run.outcome.Failed? then 1 else 0
  }

  /** Number of runs that published. */
  function Successes(runs: seq<UploadRun>): (n: nat)
    ensures n <= |runs|
  {
    if runs == [] then 0
    else Successes(runs[..|runs| - 1]) + Won(runs[|runs| - 1])
  }

  /** Number of runs that failed. */
  function Failures(runs: seq<UploadRun>): (n: nat)
    ensures n <= |runs|
  {
    if runs == [] then 0
    else Failures(runs[..|runs| - 1]) + Lost(runs[|runs| - 1])
  }

  /** Every run is counted exactly once, as a success or as a failure. */
  lemma {:induction false} CountsAddUp(runs: seq<UploadRun>)
    ensures Successes(runs) + Failures(runs) == |runs|
  {
    if runs != [] {
      CountsAddUp(runs[..|runs| - 1]);
    }
  }

  /** Appending a run adds it to exactly one of the two counts. */
  lemma CountsStep(runs: seq<UploadRun>, run: UploadRun)
    ensures Successes(runs + [run]) == Successes(runs) + Won(run)
    ensures Failures(runs + [run]) == Failures(runs) + Lost(run)
  {
    assert (runs + [run])[..|runs|] == runs;
  }

  /** The overall progress after n jobs of a batch of total: (1, total), (2, total), ..., (n, total). */
  function Progress(n: nat, total: nat): (p: seq<(nat, nat)>)
    ensures |p| == n
  {
    seq(n, k => (k + 1, total))
  }

  lemma ProgressStep(n: nat, total: nat)
    ensures Progress(n + 1, total) == Progress(n, total) + [(n + 1, total)]
  {
  }

  /** Counts one more run as a success or as a failure. */
  method Tally(runs: seq<UploadRun>, run: UploadRun, ok: nat, fail: nat) returns (ok': nat, fail': nat)
    requires ok == Successes(runs) && fail == Failures(runs)
    ensures ok' == Successes(runs + [run]) && fail' == Failures(runs + [run])
  {
    CountsStep(runs, run);
    if run.outcome.Published? {
      ok', fail' := ok + 1, fail;
    } else {
      ok', fail' := ok, fail + 1;
    }
  }

  /** What a batch run reports. */
  datatype BatchReport = BatchReport(ok: nat, fail: nat, runs: seq<UploadRun>, progress: seq<(nat, nat)>)

  /** Uploads the job that follows the runs so far, against the platform as it behaves during that upload. */
  method UploadJob(cfg: Config, jobs: seq<Job>, remotes: nat -> Remote, runs: seq<UploadRun>) returns (run: UploadRun)
    requires PollsEnd(cfg, jobs, remotes) && RunsOfFirst(cfg, jobs, remotes, runs) && |runs| < |jobs|
    ensures RunsOfFirst(cfg, jobs, remotes, runs + [run])
  {
    var job := jobs[|runs|];
    var outcome, calls := UploadOne(cfg, remotes(|runs| + 1), job.mediaType, job.url, job.caption);
    run := UploadRun(outcome, calls);
    RunsOfFirstSnoc(cfg, jobs, remotes, runs, run);
  }

  /**
   * The batch worker: uploads every job once, in order, counts it as a
   * success or a failure, and advances the overall progress after each job.
   */
  method RunBatch(cfg: Config, jobs: seq<Job>, remotes: nat -> Remote) returns (report: BatchReport)
    requires PollsEnd(cfg, jobs, remotes)
    ensures |report.runs| == |jobs| && RunsOfFirst(cfg, jobs, remotes, report.runs)
    ensures report.ok == Successes(report.runs) && report.fail == Failures(report.runs)
    ensures report.ok + report.fail == |jobs|
    ensures report.progress == Progress(|jobs|, |jobs|)
  {
    var total: nat := |jobs|;
    var ok, fail := 0, 0;
    var runs: seq<UploadRun> := [];
    var progress: seq<(nat, nat)> := [];
    for i := 1 to total + 1
      invariant |runs| == i - 1 && RunsOfFirst(cfg, jobs, remotes, runs)
      invariant ok == Successes(runs) && fail == Failures(runs)
      invariant progress == Progress(i - 1, total)
    {
      var run := UploadJob(cfg, jobs, remotes, runs);
      ok, fail := Tally(runs, run, ok, fail);
      ProgressStep(i - 1, total);
      runs := runs + [run];
      progress := progress + [(i as nat, total)];
    }
    CountsAddUp(runs);
    return BatchReport(ok, fail, runs, progress);
  }

  /**
   * The overall progress counts up by one from (1, total), never skipping nor
   * going back, and ends at (total, total).
   */
  lemma ProgressCountsUp(total: nat)
    ensures var p := Progress(total, total);
      && (forall k :: 0 <= k < total ==> p[k].0 == k + 1 && p[k].1 == total)
      && (forall k :: 0 < k < total ==> p[k].0 == p[k - 1].0 + 1)
      && (total > 0 ==> p[total - 1] == (total, total))
  {
  }

  /** The counts of the first n + 1 runs are those of the first n plus run n's. */
  lemma CountsOfPrefix(runs: seq<UploadRun>, n: nat)
    requires n < |runs|
    ensures Successes(runs[..n + 1]) == Successes(runs[..n]) + Won(runs[n])
    ensures Failures(runs[..n + 1]) == Failures(runs[..n]) + Lost(runs[n])
  {
    assert runs[..n + 1][..n] == runs[..n];
  }

  /** The counts of three runs, run by run. */
  lemma CountsOfThree(runs: seq<UploadRun>)
    requires |runs| == 3
    ensures Successes(runs) == Won(runs[0]) + Won(runs[1]) + Won(runs[2])
    ensures Failures(runs) == Lost(runs[0]) + Lost(runs[1]) + Lost(runs[2])
  {
    CountsOfPrefix(runs, 0);
    CountsOfPrefix(runs, 1);
    CountsOfPrefix(runs, 2);
    assert runs[..0] == [];
    assert runs[..3] == runs;
  }

  /**
   * Three image jobs whose second container creation raises: two successes
   * and one failure, and the failure is the second job's.
   */
  lemma SecondCreateFailsExample(cfg: Config, jobs: seq<Job>, remotes: nat -> Remote, runs: seq<UploadRun>)
    requires |jobs| == 3 && forall k :: 0 <= k < 3 ==> jobs[k].mediaType == "image"
    requires forall a, f :: remotes(1).create(a, f).Answer? && remotes(1).publish(a, f).Answer?
    requires forall a, f :: remotes(2).create(a, f).Raised?
    requires forall a, f :: remotes(3).create(a, f).Answer? && remotes(3).publish(a, f).Answer?
    requires |runs| == 3 && RunsOfFirst(cfg, jobs, remotes, runs)
    ensures Successes(runs) == 2 && Failures(runs) == 1
    ensures runs[0].outcome.Published? && runs[1].outcome.Failed? && runs[2].outcome.Published?
  {
    assert runs[0].outcome.Published?;
    assert runs[1].outcome.Failed?;
    assert runs[2].outcome.Published?;
    CountsOfThree(runs);
  }

  /** How a batch started from the form ends. */
  datatype BatchStart =
    | BatchMissingCredentials             // no access token or no account id
    | NoFileChosen                        // the path is empty once stripped
    | FileMissing                         // no file at that path
    | TableRejected(error: JobFileError)  // the table has no usable jobs
    | Ran(report: BatchReport)

  /** A job table: its header names and its rows. */
  datatype Table = Table(headers: seq<string>, rows: seq<Row>)

  /**
   * `_start_batch`: refuses to start without credentials, without a file
   * path, when the file is missing or its table is rejected; otherwise runs
   * the batch over the table's jobs. `file` is the table at the stripped
   * path, None when there is no file there.
   */
  method StartBatch(cfg: Config, rawPath: string, file: Option<Table>, remotes: nat -> Remote)
    returns (r: BatchStart)
    requires HasCredentials(cfg) && Trim(rawPath) != [] && file.Some? && HasColumns(HeaderMap(file.value.headers)) ==>
      PollsEnd(cfg, FilterJobs(ColumnsOf(HeaderMap(file.value.headers)), file.value.rows), remotes)
    ensures r == BatchMissingCredentials <==> !HasCredentials(cfg)
    ensures r == NoFileChosen <==> HasCredentials(cfg) && Trim(rawPath) == []
    ensures r == FileMissing <==> HasCredentials(cfg) && Trim(rawPath) != [] && file.None?
    ensures r == TableRejected(MissingColumns) <==>
      HasCredentials(cfg) && Trim(rawPath) != [] && file.Some? && !HeadersComplete(file.value.headers)
    ensures r == TableRejected(NoValidJobs) <==>
      && HasCredentials(cfg) && Trim(rawPath) != [] && file.Some?
      && HeadersComplete(file.value.headers)
      && (HeaderCheck(file.value.headers);
          FilterJobs(ColumnsOf(HeaderMap(file.value.headers)), file.value.rows) == [])
    ensures r.Ran? ==>
      && HasCredentials(cfg) && Trim(rawPath) != [] && file.Some?
      && HeadersComplete(file.value.headers)
      && (HeaderCheck(file.value.headers);
          var jobs := FilterJobs(ColumnsOf(HeaderMap(file.value.headers)), file.value.rows);
          && jobs != []
          && |r.report.runs| == |jobs| && RunsOfFirst(cfg, jobs, remotes, r.report.runs)
          && r.report.ok == Successes(r.report.runs) && r.report.fail == Failures(r.report.runs)
          && r.report.ok + r.report.fail == |jobs|
          && r.report.progress == Progress(|jobs|, |jobs|))
  {
    if cfg.accessToken == [] || cfg.userId == [] {
      return BatchMissingCredentials;
    }
    var path := Trim(rawPath);
    if path == [] {
      return NoFileChosen;
    }
    if file.None? {
      return FileMissing;
    }
    var read := ReadJobs(file.value.headers, file.value.rows);
    if read.Failure? {
      return TableRejected(read.error);
    }
    HeaderCheck(file.value.headers);
    var fm := HeaderMap(file.value.headers);
    assert read.value == FilterJobs(ColumnsOf(fm), file.value.rows);
    assert PollsEnd(cfg, read.value, remotes);
    var report := RunBatch(cfg, read.value, remotes);
    return Ran(report);
  }
}
