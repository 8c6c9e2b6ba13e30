/**
 * One upload (`_upload_one`): create a media container, for a video poll
 * its processing status until it is finished, failed or out of time, then
 * publish it. Also the pre-checks of a single upload (`_start_single`).
 */
module Uploader {
  import opened Wrappers
  import opened Text
  import opened Settings
  import opened GraphApi

  /** A request sent to the platform, in the order sent. */
  datatype Call =
    | CreateCall(account: string, form: Form)
    | StatusCall(creationId: string, params: Form)
    | PublishCall(account: string, form: Form)

  /** Why an upload did not publish. */
  datatype UploadError =
    | RemoteFailure(message: string)  // a request raised
    | ProcessingFailed                // the status read said ERROR
    | TimedOut                        // the accumulated wait reached the timeout
    | SleepRejected                   // a negative poll interval makes the sleep raise

  datatype Outcome = Published(mediaId: string) | Failed(error: UploadError)

  /** The outcome of an upload together with every request it sent. */
  datatype UploadRun = UploadRun(outcome: Outcome, calls: seq<Call>)

  /** How the status polling ended. */
  datatype PollEnd = Ready | Stopped(error: UploadError)

  /** A status answer that is neither FINISHED nor ERROR (a missing or unknown code included). */
  predicate StillProcessing(reply: Reply<Option<string>>)
  {
    reply.Answer? && reply.value != Some("FINISHED") && reply.value != Some("ERROR")
  }

  /** Some status read of cid from the k-th on answers FINISHED or ERROR, or raises. */
  ghost predicate SettlesFrom(remote: Remote, cid: string, k: nat)
  {
    exists a: nat :: k <= a && !StillProcessing(remote.status(cid, a))
  }

  /**
   * The polling loop, from the k-th read with `waited` accumulated, comes to
   * an end: a non-zero interval makes the wait grow (or the sleep raise), a
   * wait already at the timeout stops after one read, and otherwise (a zero
   * interval before the timeout) only a read that is not still processing
   * ends it.
   */
  ghost predicate PollEndsFrom(remote: Remote, cid: string, interval: int, timeout: int, k: nat, waited: int)
  {
    interval != 0 || timeout <= waited || SettlesFrom(remote, cid, k)
  }

  /** The first read from the k-th on that settles, given that read a does. */
  ghost function FirstSettlingRead(remote: Remote, cid: string, k: nat, a: nat): (m: nat)
    requires k <= a && !StillProcessing(remote.status(cid, a))
    ensures k <= m <= a && !StillProcessing(remote.status(cid, m))
    ensures forall b :: k <= b < m ==> StillProcessing(remote.status(cid, b))
    decreases a - k
  {
    if StillProcessing(remote.status(cid, k)) then FirstSettlingRead(remote, cid, k + 1, a) else k
  }

  /** How many reads from the k-th on are still processing before the first that settles. */
  ghost function ReadsToSettle(remote: Remote, cid: string, k: nat): (n: nat)
    requires SettlesFrom(remote, cid, k)
    ensures !StillProcessing(remote.status(cid, k + n))
    ensures forall b :: k <= b < k + n ==> StillProcessing(remote.status(cid, b))
  {
    var a: nat :| k <= a && !StillProcessing(remote.status(cid, a));
    FirstSettlingRead(remote, cid, k, a) - k
  }

  /** A read that is still processing brings the first settling read one step closer. */
  lemma SettleStep(remote: Remote, cid: string, k: nat)
    requires SettlesFrom(remote, cid, k) && StillProcessing(remote.status(cid, k))
    ensures SettlesFrom(remote, cid, k + 1)
    ensures ReadsToSettle(remote, cid, k + 1) == ReadsToSettle(remote, cid, k) - 1
  {
    var n := ReadsToSettle(remote, cid, k);
    assert k + 1 <= k + n && !StillProcessing(remote.status(cid, k + n));
    var m := ReadsToSettle(remote, cid, k + 1);
    assert !StillProcessing(remote.status(cid, k + 1 + m));
  }

  /**
   * The polling loop from the k-th status read on, with `waited` seconds
   * already accumulated. Returns how it ended and the number of status reads
   * made in all (k included).
   */
  function PollFrom(remote: Remote, cid: string, interval: int, timeout: int, k: nat, waited: int): (r: (PollEnd, nat))
    requires PollEndsFrom(remote, cid, interval, timeout, k, waited)
    ensures r.1 > k
    decreases if interval == 0 && waited < timeout then ReadsToSettle(remote, cid, k) else 0, timeout - waited
  {
    match remote.status(cid, k)
    case Raised(m) => (Stopped(RemoteFailure(m)), k + 1)
    case Answer(code) =>
      if code == Some("FINISHED") then (Ready, k + 1)
      else if code == Some("ERROR") then (Stopped(ProcessingFailed), k + 1)
      else if interval < 0 then (Stopped(SleepRejected), k + 1)
      else if waited + interval >= timeout then (Stopped(TimedOut), k + 1)
      else
        if interval == 0 then SettleStep(remote, cid, k); PollFrom(remote, cid, interval, timeout, k + 1, waited + interval)
        else PollFrom(remote, cid, interval, timeout, k + 1, waited + interval)
  }

  /**
   * The last status read decides how polling ends (FINISHED: ready; ERROR:
   * processing failed; a raised read: that failure; still processing: a
   * timeout, or the sleep's refusal of a negative interval), and every read
   * before it was still processing.
   */
  lemma {:induction false} PollFromEnds(remote: Remote, cid: string, interval: int, timeout: int, k: nat, waited: int)
    requires PollEndsFrom(remote, cid, interval, timeout, k, waited)
    ensures var r := PollFrom(remote, cid, interval, timeout, k, waited);
      var last := remote.status(cid, r.1 - 1);
      && (forall a :: k <= a < r.1 - 1 ==> StillProcessing(remote.status(cid, a)))
      && (r.0 == Ready <==> last == Answer(Some("FINISHED")))
      && (r.0 == Stopped(ProcessingFailed) <==> last == Answer(Some("ERROR")))
      && (r.0.Stopped? && r.0.error.RemoteFailure? <==> last.Raised?)
      && (r.0.Stopped? && r.0.error.RemoteFailure? ==> r.0.error.message == last.message)
      && (r.0 == Stopped(TimedOut) || r.0 == Stopped(SleepRejected) <==> StillProcessing(last))
      && (r.0 == Stopped(SleepRejected) <==> interval < 0 && StillProcessing(remote.status(cid, k)))
    decreases if interval == 0 && waited < timeout then ReadsToSettle(remote, cid, k) else 0, timeout - waited
  {
    if StillProcessing(remote.status(cid, k)) && interval >= 0 && waited + interval < timeout {
      if interval == 0 {
        SettleStep(remote, cid, k);
      }
      PollFromEnds(remote, cid, interval, timeout, k + 1, waited + interval);
    }
  }

  /**
   * A read that is still processing, with the wait after the sleep still
   * short of the timeout, hands polling on to the next read unchanged, one
   * step closer to its end.
   */
  lemma PollFromStep(remote: Remote, cid: string, interval: int, timeout: int, k: nat, waited: int)
    requires PollEndsFrom(remote, cid, interval, timeout, k, waited)
    requires StillProcessing(remote.status(cid, k)) && 0 <= interval && waited + interval < timeout
    ensures PollEndsFrom(remote, cid, interval, timeout, k + 1, waited + interval)
    ensures PollFrom(remote, cid, interval, timeout, k + 1, waited + interval) == PollFrom(remote, cid, interval, timeout, k, waited)
    ensures interval == 0 ==> ReadsToSettle(remote, cid, k + 1) < ReadsToSettle(remote, cid, k)
  {
    if interval == 0 {
      SettleStep(remote, cid, k);
    }
  }

  /**
   * With a zero interval before the timeout the wait never grows, so polling
   * ends exactly at the first read that is not still processing.
   */
  lemma {:induction false} ZeroIntervalEndsAtSettle(remote: Remote, cid: string, timeout: int, k: nat, waited: int)
    requires waited < timeout && SettlesFrom(remote, cid, k)
    ensures PollFrom(remote, cid, 0, timeout, k, waited).1 == k + ReadsToSettle(remote, cid, k) + 1
    decreases ReadsToSettle(remote, cid, k)
  {
    if StillProcessing(remote.status(cid, k)) {
      SettleStep(remote, cid, k);
      ZeroIntervalEndsAtSettle(remote, cid, timeout, k + 1, waited);
    }
  }

  /** Polling of container cid under the configuration ends. */
  ghost predicate PollEnds(cfg: Config, remote: Remote, cid: string)
  {
    PollEndsFrom(remote, cid, cfg.pollInterval, cfg.timeout, 0, 0)
  }

  /** The status polling of a video upload, from the first read. */
  function Poll(cfg: Config, remote: Remote, cid: string): (PollEnd, nat)
    requires PollEnds(cfg, remote, cid)
  {
    PollFrom(remote, cid, cfg.pollInterval, cfg.timeout, 0, 0)
  }

  /** n status reads of the container cid. */
  function StatusCalls(cfg: Config, cid: string, n: nat): seq<Call>
  {
    seq(n, _ => StatusCall(cid, StatusParams(cfg.accessToken)))
  }

  /** Publishing the container cid after the requests already sent. */
  function PublishStep(cfg: Config, remote: Remote, cid: string, before: seq<Call>): UploadRun
  {
    var form := PublishFields(cfg.accessToken, cid);
    var calls := before + [PublishCall(cfg.userId, form)];
    match remote.publish(cfg.userId, form)
    case Raised(m) => UploadRun(Failed(RemoteFailure(m)), calls)
    case Answer(id) => UploadRun(Published(id), calls)
  }

  /**
   * The upload comes to an end: only a video whose container was created
   * polls, and then that polling must end.
   */
  ghost predicate UploadEnds(cfg: Config, remote: Remote, mediaType: string, url: string, caption: string)
  {
    mediaType == "video" ==>
      match remote.create(cfg.userId, ContainerFields(cfg.accessToken, mediaType, url, caption))
      case Raised(_) => true
      case Answer(cid) => PollEnds(cfg, remote, cid)
  }

  /**
   * What one upload does: create the container; only when the media type is
   * exactly "video", poll its status; then publish. The first failing
   * request ends the upload.
   */
  function Upload(cfg: Config, remote: Remote, mediaType: string, url: string, caption: string): (run: UploadRun)
    requires UploadEnds(cfg, remote, mediaType, url, caption)
    ensures run.calls != [] && run.calls[0] == CreateCall(cfg.userId, ContainerFields(cfg.accessToken, mediaType, url, caption))
    ensures run.outcome.Published? ==> run.calls[|run.calls| - 1].PublishCall?
  {
    var form := ContainerFields(cfg.accessToken, mediaType, url, caption);
    var create := [CreateCall(cfg.userId, form)];
    match remote.create(cfg.userId, form)
    case Raised(m) => UploadRun(Failed(RemoteFailure(m)), create)
    case Answer(cid) =>
      if mediaType == "video" then
        var (end, polls) := Poll(cfg, remote, cid);
        var before := create + StatusCalls(cfg, cid, polls);
        match end
        case Stopped(e) => UploadRun(Failed(e), before)
        case Ready => PublishStep(cfg, remote, cid, before)
      else PublishStep(cfg, remote, cid, create)
  }

  /**
   * The polling loop of `_upload_one`: reads the status until FINISHED,
   * stops on ERROR, on a failed read, on a sleep that raises, or once the
   * accumulated wait reaches the timeout. Returns how it ended and the
   * status reads it sent.
   */
  method PollProcessing(cfg: Config, remote: Remote, cid: string) returns (end: PollEnd, sent: seq<Call>)
    requires PollEnds(cfg, remote, cid)
    ensures end == Poll(cfg, remote, cid).0
    ensures sent == StatusCalls(cfg, cid, Poll(cfg, remote, cid).1)
  {
    var params := StatusParams(cfg.accessToken);
    var waited := 0;
    var k: nat := 0;
    sent := [];
    while true
      invariant PollEndsFrom(remote, cid, cfg.pollInterval, cfg.timeout, k, waited)
      invariant PollFrom(remote, cid, cfg.pollInterval, cfg.timeout, k, waited) == Poll(cfg, remote, cid)
      invariant sent == StatusCalls(cfg, cid, k)
      decreases if cfg.pollInterval == 0 && waited < cfg.timeout then ReadsToSettle(remote, cid, k) else 0,
        cfg.timeout - waited
    {
      var status := remote.status(cid, k);
      sent := sent + [StatusCall(cid, params)];
      assert sent == StatusCalls(cfg, cid, k + 1);
      k := k + 1;
      if status.Raised? {
        return Stopped(RemoteFailure(status.message)), sent;
      }
      if status.value == Some("FINISHED") {
        return Ready, sent;
      }
      if status.value == Some("ERROR") {
        return Stopped(ProcessingFailed), sent;
      }
      if cfg.pollInterval < 0 {
        return Stopped(SleepRejected), sent;
      }
      waited := waited + cfg.pollInterval;
      if waited >= cfg.timeout {
        return Stopped(TimedOut), sent;
      }
      PollFromStep(remote, cid, cfg.pollInterval, cfg.timeout, k - 1, waited - cfg.pollInterval);
    }
  }

  /** `_upload_one`: sends the requests one by one and stops at the first failure. */
  method UploadOne(cfg: Config, remote: Remote, mediaType: string, url: string, caption: string)
    returns (outcome: Outcome, calls: seq<Call>)
    requires UploadEnds(cfg, remote, mediaType, url, caption)
    ensures UploadRun(outcome, calls) == Upload(cfg, remote, mediaType, url, caption)
  {
    var form := ContainerFields(cfg.accessToken, mediaType, url, caption);
    calls := [CreateCall(cfg.userId, form)];
    var created := remote.create(cfg.userId, form);
    if created.Raised? {
      return Failed(RemoteFailure(created.message)), calls;
    }
    var cid := created.value;
    if mediaType == "video" {
      var end, sent := PollProcessing(cfg, remote, cid);
      calls := calls + sent;
      if end.Stopped? {
        return Failed(end.error), calls;
      }
    }
    var publishForm := PublishFields(cfg.accessToken, cid);
    calls := calls + [PublishCall(cfg.userId, publishForm)];
    var published := remote.publish(cfg.userId, publishForm);
    if published.Raised? {
      return Failed(RemoteFailure(published.message)), calls;
    }
    return Published(published.value), calls;
  }

  /** Only an upload whose media type is exactly "video" reads the processing status. */
  lemma NonVideoNeverPolls(cfg: Config, remote: Remote, mediaType: string, url: string, caption: string)
    requires mediaType != "video"
    ensures var run := Upload(cfg, remote, mediaType, url, caption);
      && |run.calls| <= 2
      && forall c :: c in run.calls ==> !c.StatusCall?
  {
  }

  /** Once its container exists, a video upload reads the status at least once, and every read is of that container. */
  lemma VideoPollsAfterCreate(cfg: Config, remote: Remote, url: string, caption: string)
    requires remote.create(cfg.userId, ContainerFields(cfg.accessToken, "video", url, caption)).Answer?
    requires PollEnds(cfg, remote, remote.create(cfg.userId, ContainerFields(cfg.accessToken, "video", url, caption)).value)
    ensures var run := Upload(cfg, remote, "video", url, caption);
      var cid := remote.create(cfg.userId, ContainerFields(cfg.accessToken, "video", url, caption)).value;
      && |run.calls| >= 2
      && run.calls[1] == StatusCall(cid, StatusParams(cfg.accessToken))
      && forall c :: c in run.calls && c.StatusCall? ==> c.creationId == cid
  {
    var cid := remote.create(cfg.userId, ContainerFields(cfg.accessToken, "video", url, caption)).value;
    var polls := Poll(cfg, remote, cid).1;
    assert StatusCalls(cfg, cid, polls)[0] == StatusCall(cid, StatusParams(cfg.accessToken));
  }

  /**
   * A published upload created its container, got FINISHED from the last
   * status read (a video) after reads that were all still processing, and
   * reports the media id the publish request answered with; the publish
   * request is the last one sent.
   */
  lemma PublishedMeansFinished(cfg: Config, remote: Remote, mediaType: string, url: string, caption: string)
    requires UploadEnds(cfg, remote, mediaType, url, caption)
    requires Upload(cfg, remote, mediaType, url, caption).outcome.Published?
    ensures var form := ContainerFields(cfg.accessToken, mediaType, url, caption);
      var run := Upload(cfg, remote, mediaType, url, caption);
      && remote.create(cfg.userId, form).Answer?
      && var cid := remote.create(cfg.userId, form).value;
      && remote.publish(cfg.userId, PublishFields(cfg.accessToken, cid)) == Answer(run.outcome.mediaId)
      && run.calls[|run.calls| - 1] == PublishCall(cfg.userId, PublishFields(cfg.accessToken, cid))
      && (mediaType == "video" ==>
        var polls := Poll(cfg, remote, cid).1;
        && remote.status(cid, polls - 1) == Answer(Some("FINISHED"))
        && forall a :: 0 <= a < polls - 1 ==> StillProcessing(remote.status(cid, a)))
  {
    var form := ContainerFields(cfg.accessToken, mediaType, url, caption);
    if mediaType == "video" {
      PollFromEnds(remote, remote.create(cfg.userId, form).value, cfg.pollInterval, cfg.timeout, 0, 0);
    }
  }
  /**
   * Whatever the outcome, a publish request is only ever sent for a container
   * that was created and, for a video, whose last status read answered
   * FINISHED after reads that were all still processing; a creation that
   * raises ends the upload as a failure with that single request.
   */
  lemma PublishSentMeansReady(cfg: Config, remote: Remote, mediaType: string, url: string, caption: string)
    requires UploadEnds(cfg, remote, mediaType, url, caption)
    ensures var form := ContainerFields(cfg.accessToken, mediaType, url, caption);
      var run := Upload(cfg, remote, mediaType, url, caption);
      (exists c :: c in run.calls && c.PublishCall?) ==>
        && remote.create(cfg.userId, form).Answer?
        && (mediaType == "video" ==>
          var cid := remote.create(cfg.userId, form).value;
          var polls := Poll(cfg, remote, cid).1;
          && remote.status(cid, polls - 1) == Answer(Some("FINISHED"))
          && forall a :: 0 <= a < polls - 1 ==> StillProcessing(remote.status(cid, a)))
    ensures var form := ContainerFields(cfg.accessToken, mediaType, url, caption);
      remote.create(cfg.userId, form).Raised? ==>
        Upload(cfg, remote, mediaType, url, caption)
          == UploadRun(Failed(RemoteFailure(remote.create(cfg.userId, form).message)), [CreateCall(cfg.userId, form)])
  {
    var form := ContainerFields(cfg.accessToken, mediaType, url, caption);
    if mediaType == "video" && remote.create(cfg.userId, form).Answer? {
      var cid := remote.create(cfg.userId, form).value;
      PollFromEnds(remote, cid, cfg.pollInterval, cfg.timeout, 0, 0);
      var (end, polls) := Poll(cfg, remote, cid);
      var before := [CreateCall(cfg.userId, form)] + StatusCalls(cfg, cid, polls);
      assert forall c :: c in before ==> !c.PublishCall?;
    }
  }


  /**
   * How many status reads a processing that never ends gets before the
   * timeout: the first read at which the accumulated wait, one interval per
   * read, reaches the timeout.
   */
  function PollsToTimeout(interval: int, timeout: int): (n: nat)
    requires interval > 0
    ensures n >= 1
    decreases timeout
  {
    if timeout <= interval then 1 else 1 + PollsToTimeout(interval, timeout - interval)
  }

  /** n = PollsToTimeout(interval, timeout) is the least n >= 1 with n * interval >= timeout. */
  lemma {:induction false} PollsToTimeoutIsFirstReach(interval: int, timeout: int)
    requires interval > 0
    ensures timeout <= PollsToTimeout(interval, timeout) * interval
    ensures PollsToTimeout(interval, timeout) == 1 || (PollsToTimeout(interval, timeout) - 1) * interval < timeout
    decreases timeout
  {
    if timeout > interval {
      var m := PollsToTimeout(interval, timeout - interval);
      PollsToTimeoutIsFirstReach(interval, timeout - interval);
      assert (m + 1) * interval == m * interval + interval;
      assert m * interval == (m - 1) * interval + interval;
    }
  }

  /** With a positive interval, polling never reads the status more often than PollsToTimeout allows. */
  lemma {:induction false} PollFromBound(remote: Remote, cid: string, interval: int, timeout: int, k: nat, waited: int)
    requires interval > 0
    ensures PollFrom(remote, cid, interval, timeout, k, waited).1 <= k + PollsToTimeout(interval, timeout - waited)
    decreases timeout - waited
  {
    if StillProcessing(remote.status(cid, k)) && waited + interval < timeout {
      PollFromBound(remote, cid, interval, timeout, k + 1, waited + interval);
    }
  }

  /**
   * With a positive interval a timeout never comes early: polling that ends
   * in TimedOut has read the status exactly PollsToTimeout times.
   */
  lemma {:induction false} TimedOutAfterAllReads(remote: Remote, cid: string, interval: int, timeout: int, k: nat, waited: int)
    requires interval > 0
    ensures PollFrom(remote, cid, interval, timeout, k, waited).0 == Stopped(TimedOut) ==>
      PollFrom(remote, cid, interval, timeout, k, waited).1 == k + PollsToTimeout(interval, timeout - waited)
    decreases timeout - waited
  {
    if StillProcessing(remote.status(cid, k)) && waited + interval < timeout {
      TimedOutAfterAllReads(remote, cid, interval, timeout, k + 1, waited + interval);
    }
  }

  /**
   * A status that stays in processing for the PollsToTimeout reads from the
   * k-th makes polling time out after exactly those reads, whatever the
   * platform would answer later.
   */
  lemma {:induction false} PollFromTimesOut(remote: Remote, cid: string, interval: int, timeout: int, k: nat, waited: int)
    requires interval > 0
    requires forall a :: k <= a < k + PollsToTimeout(interval, timeout - waited) ==> StillProcessing(remote.status(cid, a))
    ensures PollFrom(remote, cid, interval, timeout, k, waited) == (Stopped(TimedOut), k + PollsToTimeout(interval, timeout - waited))
    decreases timeout - waited
  {
    if waited + interval < timeout {
      PollFromTimesOut(remote, cid, interval, timeout, k + 1, waited + interval);
    }
  }

  /** A video upload reads the status at most PollsToTimeout(interval, timeout) times. */
  lemma VideoPollCountBound(cfg: Config, remote: Remote, url: string, caption: string)
    requires cfg.pollInterval > 0
    ensures |Upload(cfg, remote, "video", url, caption).calls| <= 2 + PollsToTimeout(cfg.pollInterval, cfg.timeout)
  {
    var form := ContainerFields(cfg.accessToken, "video", url, caption);
    if remote.create(cfg.userId, form).Answer? {
      PollFromBound(remote, remote.create(cfg.userId, form).value, cfg.pollInterval, cfg.timeout, 0, 0);
    }
  }

  /**
   * A video whose processing neither finishes nor fails within the first
   * PollsToTimeout status reads fails with TimedOut after exactly those reads,
   * and never publishes.
   */
  lemma VideoStuckInProcessingTimesOut(cfg: Config, remote: Remote, url: string, caption: string)
    requires cfg.pollInterval > 0
    requires remote.create(cfg.userId, ContainerFields(cfg.accessToken, "video", url, caption)).Answer?
    requires var cid := remote.create(cfg.userId, ContainerFields(cfg.accessToken, "video", url, caption)).value;
      forall a :: 0 <= a < PollsToTimeout(cfg.pollInterval, cfg.timeout) ==> StillProcessing(remote.status(cid, a))
    ensures Upload(cfg, remote, "video", url, caption).outcome == Failed(TimedOut)
    ensures |Upload(cfg, remote, "video", url, caption).calls| == 1 + PollsToTimeout(cfg.pollInterval, cfg.timeout)
    ensures forall c :: c in Upload(cfg, remote, "video", url, caption).calls ==> !c.PublishCall?
  {
    var cid := remote.create(cfg.userId, ContainerFields(cfg.accessToken, "video", url, caption)).value;
    PollFromTimesOut(remote, cid, cfg.pollInterval, cfg.timeout, 0, 0);
  }

  /**
   * The container form lower-cases the media type but the polling test does
   * not: an upload of type "Video" creates a video container and publishes
   * it without ever reading its processing status.
   */
  lemma CapitalizedVideoSkipsPolling(cfg: Config, remote: Remote, url: string, caption: string)
    ensures var form := ContainerFields(cfg.accessToken, "Video", url, caption);
      "media_type" in form && form["media_type"] == "VIDEO"
    ensures forall c :: c in Upload(cfg, remote, "Video", url, caption).calls ==> !c.StatusCall?
  {
    assert Lower("Video")[0] == 'v';
    NonVideoNeverPolls(cfg, remote, "Video", url, caption);
  }

  /** For the two lower-case types the container form and the polling test agree. */
  lemma LowerCaseTypesAgree(mediaType: string)
    requires mediaType == "image" || mediaType == "video"
    ensures IsImageType(mediaType) <==> mediaType != "video"
  {
    assert Lower("video")[0] == 'v';
    LowerUnchanged("image");
  }

  /** What a single upload started from the form can end in. */
  datatype SingleResult =
    | MissingCredentials        // no access token or no account id
    | InvalidUrl                // the URL does not start with http:// or https://
    | Uploaded(run: UploadRun)

  predicate HasCredentials(cfg: Config)
  {
    cfg.accessToken != [] && cfg.userId != []
  }

  /** The URL check of the single upload: the URL starts with "http", then "://" or "s://". */
  function UrlAccepted(url: string): (ok: bool)
    ensures ok <==> |url| >= 7 && url[..4] == "http" && (url[4..7] == "://" || (|url| >= 8 && url[4..8] == "s://"))
  {
    StartsWith(url, "http://") || StartsWith(url, "https://")
  }

  /**
   * `_start_single`: refuses to start without credentials or with a URL
   * that, once stripped, is not http or https; otherwise uploads the
   * stripped URL with the stripped caption.
   */
  method StartSingle(cfg: Config, rawUrl: string, mediaType: string, rawCaption: string, remote: Remote)
    returns (r: SingleResult)
    requires HasCredentials(cfg) && UrlAccepted(Trim(rawUrl)) ==>
      UploadEnds(cfg, remote, mediaType, Trim(rawUrl), Trim(rawCaption))
    ensures r == MissingCredentials <==> !HasCredentials(cfg)
    ensures r == InvalidUrl <==> HasCredentials(cfg) && !UrlAccepted(Trim(rawUrl))
    ensures r.Uploaded? ==> r.run == Upload(cfg, remote, mediaType, Trim(rawUrl), Trim(rawCaption))
  {
    if cfg.accessToken == [] || cfg.userId == [] {
      return MissingCredentials;
    }
    var url := Trim(rawUrl);
    if !(StartsWith(url, "http://") || StartsWith(url, "https://")) {
      return InvalidUrl;
    }
    var caption := Trim(rawCaption);
    var outcome, calls := UploadOne(cfg, remote, mediaType, url, caption);
    return Uploaded(UploadRun(outcome, calls));
  }

  /** Whitespace around an accepted URL does not change the verdict nor the URL sent. */
  lemma PaddedUrlAccepted(before: string, url: string, after: string)
    requires AllSpace(before) && AllSpace(after)
    requires UrlAccepted(url) && Stripped(url)
    ensures Trim(before + url + after) == url
    ensures UrlAccepted(Trim(before + url + after))
  {
    var s := before + url + after;
    assert s[|before|..|before| + |url|] == url;
    forall i | 0 <= i < |before| ensures IsSpace(s[i]) {
      assert s[i] == before[i];
    }
    forall i | |before| + |url| <= i < |s| ensures IsSpace(s[i]) {
      assert s[i] == after[i - |before| - |url|];
    }
    TrimIs(s, |before|, |before| + |url|);
  }
}
