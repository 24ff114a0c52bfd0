/** The `/separate` handler (index.js:67-170): the credential gate, the
    three submission steps, polling, extraction, the demo fallback and the
    deletion of the uploaded temp file on every exit past the gate. */
module Orchestrator {
  import opened Text
  import opened JsonValue
  import opened KeyResolver
  import opened StemExtractor
  import opened JobPolling

  /** `DEMO_STEMS`: the fixed sample payload. */
  const DEMO_STEMS: StemSet := StemSet(
    Str("https://tonejs.github.io/audio/drum-samples/CR78/kick.mp3"),
    Str("https://tonejs.github.io/audio/berklee/bass_loop.mp3"),
    Str("https://tonejs.github.io/audio/berklee/gong_1.mp3"),
    Str("https://tonejs.github.io/audio/berklee/guitar_loop.mp3"),
    Str("https://tonejs.github.io/audio/casio/A1.mp3"))

  /** Every demo stem is a non-empty URL, so the demo payload itself passes
      the real-result test. */
  lemma DemoStemsComplete()
    ensures Truthy(DEMO_STEMS.drums) && Truthy(DEMO_STEMS.bass) && Truthy(DEMO_STEMS.vocals)
    ensures Truthy(DEMO_STEMS.guitar) && Truthy(DEMO_STEMS.piano)
    ensures WellFormedStems(DEMO_STEMS) && HasPrimary(DEMO_STEMS)
  {
  }

  /** One reply of the job-status endpoint: its `status` and `result` fields. */
  datatype JobReply = JobReply(status: Option<string>, result: Option<Json>)

  /** What the provider does with this request, one entry per remote step:
      whether the upload-slot GET, the file PUT and the job POST succeed,
      and the replies to successive status GETs (a request past the last
      reply raises). */
  datatype Remote = Remote(slotOk: bool, putOk: bool, jobOk: bool, replies: seq<JobReply>)

  function Statuses(replies: seq<JobReply>): (s: seq<Option<string>>)
    ensures |s| == |replies| && forall i :: 0 <= i < |s| ==> s[i] == replies[i].status
  {
    seq(|replies|, i requires 0 <= i < |replies| => replies[i].status)
  }

  /** The reason `sendDemo` is given, one per demo exit of the handler. */
  datatype Reason =
    | MissingKey     // no API key configured
    | ShortKey       // key shorter than 10 UTF-16 code units
    | AuthFailure    // the upload-slot request failed
    | JobFailure     // a status reply said FAILED
    | NoLinks        // drums, bass and vocals all unresolved
    | Internal       // any other exception, reaching the outer catch

  datatype Verdict = Degraded(reason: Reason) | Served(stems: StemSet)

  /** The JSON body sent back: `{success, isDemo, stems}` (isDemo absent reads false). */
  datatype Response = Response(success: bool, isDemo: bool, stems: StemSet)

  /** A key rejected before any remote call: empty, or under 10 UTF-16 code
      units. The empty test is subsumed by the length test. */
  predicate Gated(key: string)
    ensures Gated(key) <==> Utf16Length(key) < 10
  {
    key == "" || Utf16Length(key) < 10
  }

  /** The handler's decision as a function of the configured key, whether a
      file was uploaded, whether it is on disk, and the provider's behaviour. */
  function Decide(key: string, uploaded: bool, onDisk: bool, remote: Remote): (r: Verdict)
    ensures r == Degraded(MissingKey) <==> key == ""
    ensures Gated(key) <==> r.Degraded? && (r.reason == MissingKey || r.reason == ShortKey)
    ensures r.Served? ==> WellFormedStems(r.stems) && HasPrimary(r.stems)
  {
    if key == "" then Degraded(MissingKey)
    else if Utf16Length(key) < 10 then Degraded(ShortKey)
    else if !remote.slotOk then
      // the inner catch deletes the file; deleting a missing file raises
      if uploaded && !onDisk then Degraded(Internal) else Degraded(AuthFailure)
    else if !uploaded || !onDisk || !remote.putOk || !remote.jobOk then Degraded(Internal)
    else
      match PollFrom(Statuses(remote.replies), 0)
      case Success(at) =>
        var stems := ExtractStems(ResultOf(remote.replies[at].result));
        if HasPrimary(stems) then Served(stems) else Degraded(NoLinks)
      case JobFailed(_) => Degraded(JobFailure)
      case _ => Degraded(Internal)
  }

  /** Requests the handler sends to the provider, in protocol order: the
      slot GET, the PUT (only once the file was read), the job POST, then one
      GET per polling iteration. Each step runs only if the one before it
      succeeded. */
  function CallsMade(key: string, uploaded: bool, onDisk: bool, remote: Remote): (n: nat)
    ensures Gated(key) <==> n == 0
    ensures n <= 3 + MAX_POLLS
  {
    if Gated(key) then 0
    else if !remote.slotOk || !uploaded || !onDisk then 1
    else if !remote.putOk then 2
    else if !remote.jobOk then 3
    else
      PollIsBounded(Statuses(remote.replies));
      3 + ChecksMade(PollFrom(Statuses(remote.replies), 0))
  }

  /** `sendDemo` for a degraded request, `res.json({success, stems})` otherwise. */
  function Respond(v: Verdict): (r: Response)
    ensures r.success
    ensures r.isDemo <==> v.Degraded?
    ensures r.isDemo ==> r.stems == DEMO_STEMS
    ensures v.Served? ==> r.stems == v.stems
  {
    match v
    case Degraded(_) => Response(true, true, DEMO_STEMS)
    case Served(stems) => Response(true, false, stems)
  }

  /** One request to `/separate`, owning the temp file multer stored. */
  class SeparateRequest {
    /** `req.file` is set: multer received an "audio" part. */
    const uploaded: bool
    /** The temp file is still on disk. */
    var onDisk: bool
    /** Successful deletions of the temp file. */
    ghost var deletions: nat
    /** Requests sent to the provider. */
    ghost var remoteCalls: nat

    ghost predicate Valid()
      reads this
    {
      onDisk ==> uploaded
    }

    constructor (uploaded: bool, onDisk: bool)
      requires onDisk ==> uploaded
      ensures Valid()
      ensures this.uploaded == uploaded && this.onDisk == onDisk
      ensures deletions == 0 && remoteCalls == 0
    {
      this.uploaded := uploaded;
      this.onDisk := onDisk;
      deletions := 0;
      remoteCalls := 0;
    }

    /** `fs.unlinkSync(req.file.path)`: deletes the file, or raises (`ok` is
        false) when it is not there. */
    method Unlink() returns (ok: bool)
      requires Valid()
      modifies this`onDisk, this`deletions
      ensures Valid()
      ensures ok == old(onDisk) && !onDisk
      ensures deletions == old(deletions) + (if ok then 1 else 0)
    {
      ok := onDisk;
      if ok {
        onDisk := false;
        deletions := deletions + 1;
      }
    }

    /** The outer catch: delete the file if `req.file` is set and it still
        exists, then send the demo payload. */
    method Recover() returns (resp: Response)
      requires Valid()
      modifies this`onDisk, this`deletions
      ensures Valid() && !onDisk
      ensures deletions == old(deletions) + (if old(onDisk) then 1 else 0)
      ensures resp == Respond(Degraded(Internal))
    {
      if uploaded && onDisk {
        var _ := Unlink();
      }
      resp := Respond(Degraded(Internal));
    }

    /** The `/separate` handler for one request. */
    method Handle(key: string, remote: Remote) returns (resp: Response)
      requires Valid()
      modifies this`onDisk, this`deletions, this`remoteCalls
      ensures Valid()
      ensures resp == Respond(Decide(key, uploaded, old(onDisk), remote))
      ensures Gated(key) ==>
                onDisk == old(onDisk) && deletions == old(deletions)
      ensures !Gated(key) ==>
                !onDisk && deletions == old(deletions) + (if old(onDisk) then 1 else 0)
      ensures remoteCalls == old(remoteCalls) + CallsMade(key, uploaded, old(onDisk), remote)
    {
      if key == "" {
        return Respond(Degraded(MissingKey));
      }
      if Utf16Length(key) < 10 {
        return Respond(Degraded(ShortKey));
      }
      // 1. upload slot
      remoteCalls := remoteCalls + 1;
      if !remote.slotOk {
        if uploaded {
          var ok := Unlink();
          if !ok {
            resp := Recover();
            return;
          }
        }
        return Respond(Degraded(AuthFailure));
      }
      // reading the file raises when req.file is unset or the file is gone
      if !uploaded || !onDisk {
        resp := Recover();
        return;
      }
      // 2. upload
      remoteCalls := remoteCalls + 1;
      if !remote.putOk {
        resp := Recover();
        return;
      }
      // 3. job creation
      remoteCalls := remoteCalls + 1;
      if !remote.jobOk {
        resp := Recover();
        return;
      }
      // 4. polling
      var outcome := Poll(Statuses(remote.replies));
      remoteCalls := remoteCalls + ChecksMade(outcome);
      match outcome {
        case JobFailed(_) =>
          var ok := Unlink();
          resp := Respond(Degraded(JobFailure));
        case Success(at) =>
          var ok := Unlink();
          // 5. extraction
          var result := ResultOf(remote.replies[at].result);
          var stems := ExtractStems(result);
          if !HasPrimary(stems) {
            return Respond(Degraded(NoLinks));
          }
          resp := Respond(Served(stems));
        case Timeout =>
          resp := Recover();
        case RequestError(_) =>
          resp := Recover();
      }
    }
  }

  /** A key that is empty or shorter than 10 code units yields the demo
      payload whatever the provider would have done. */
  lemma CredentialGate(key: string, uploaded: bool, onDisk: bool, remote: Remote)
    requires Gated(key)
    ensures Decide(key, uploaded, onDisk, remote) == Degraded(if key == "" then MissingKey else ShortKey)
    ensures Respond(Decide(key, uploaded, onDisk, remote)) == Response(true, true, DEMO_STEMS)
  {
  }

  /** Every response has `success: true`; a demo response carries exactly
      DEMO_STEMS, and a real one carries well-formed stems with drums, bass
      or vocals present. */
  lemma EveryResponseWellFormed(key: string, uploaded: bool, onDisk: bool, remote: Remote)
    ensures var r := Respond(Decide(key, uploaded, onDisk, remote));
      && r.success
      && (r.isDemo ==> r.stems == DEMO_STEMS)
      && (!r.isDemo ==> WellFormedStems(r.stems) && HasPrimary(r.stems))
  {
  }

  /** A real result is served only when every step succeeded and the
      polling stopped on a success status, and then it is the extraction of
      that reply's result. */
  lemma ServedMeansComplete(key: string, uploaded: bool, onDisk: bool, remote: Remote)
    requires Decide(key, uploaded, onDisk, remote).Served?
    ensures !Gated(key) && uploaded && onDisk && remote.slotOk && remote.putOk && remote.jobOk
    ensures exists at :: 0 <= at < |remote.replies| && at < MAX_POLLS
              && PollFrom(Statuses(remote.replies), 0) == Success(at)
              && Decide(key, uploaded, onDisk, remote).stems == ExtractStems(ResultOf(remote.replies[at].result))
  {
    var at := PollFrom(Statuses(remote.replies), 0).at;
    assert 0 <= at < |remote.replies|;
  }

  /** After a successful job, the demo payload is returned exactly when
      drums, bass and vocals are all unresolved; guitar, piano and "other"
      do not count. */
  lemma DemoExactlyWhenNoPrimary(key: string, remote: Remote, at: nat)
    requires !Gated(key) && remote.slotOk && remote.putOk && remote.jobOk
    requires PollFrom(Statuses(remote.replies), 0) == Success(at)
    ensures var result := ResultOf(remote.replies[at].result);
      Respond(Decide(key, true, true, remote)).isDemo <==>
        Resolve(result, DRUM_LABELS).Null? && Resolve(result, BASS_LABELS).Null?
        && Resolve(result, VOCAL_LABELS).Null?
  {
  }

  /** A missing or falsy `result` in the success reply reads as `{}` and so
      yields the demo payload. */
  lemma FalsyResultDegrades(key: string, remote: Remote, at: nat)
    requires !Gated(key) && remote.slotOk && remote.putOk && remote.jobOk
    requires PollFrom(Statuses(remote.replies), 0) == Success(at)
    requires remote.replies[at].result.None? || !Truthy(remote.replies[at].result.value)
    ensures Decide(key, true, true, remote) == Degraded(NoLinks)
  {
    EmptyResultHasNoStems();
  }

  /** A FAILED status ends the request with the demo payload and no extraction. */
  lemma FailedJobDegrades(key: string, remote: Remote)
    requires !Gated(key) && remote.slotOk && remote.putOk && remote.jobOk
    requires exists at :: PollFrom(Statuses(remote.replies), 0) == JobFailed(at)
    ensures Decide(key, true, true, remote) == Degraded(JobFailure)
  {
  }

  /** Sixty non-terminal statuses spend the budget; the thrown timeout is
      caught and the demo payload returned. */
  lemma TimeoutDegrades(key: string, remote: Remote)
    requires !Gated(key) && remote.slotOk && remote.putOk && remote.jobOk
    requires |remote.replies| >= MAX_POLLS
    requires forall i :: 0 <= i < MAX_POLLS ==> Classify(remote.replies[i].status) == Pending
    ensures Decide(key, true, true, remote) == Degraded(Internal)
  {
    PollSpec(Statuses(remote.replies), Timeout);
  }

  /** The scenario PENDING, PENDING, FAILED: the demo payload, the temp file
      deleted once, and no more than the three status requests. */
  method FailedJobScenario() returns (resp: Response, ghost deletions: nat, ghost calls: nat)
    ensures resp == Response(true, true, DEMO_STEMS)
    ensures deletions == 1 && calls == 3 + 3
  {
    var request := new SeparateRequest(true, true);
    var replies := [JobReply(Some("PENDING"), None), JobReply(Some("pending"), None), JobReply(Some("FAILED"), None)];
    assert Statuses(replies) == [Some("PENDING"), Some("pending"), Some("FAILED")];
    PendingPendingFailed();
    resp := request.Handle("sk-0123456789", Remote(true, true, true, replies));
    deletions, calls := request.deletions, request.remoteCalls;
  }

  /** The scenario of an upload that raises while the file is on disk: the
      demo payload and exactly one deletion. */
  method UploadFailureScenario() returns (resp: Response, ghost deletions: nat)
    ensures resp == Response(true, true, DEMO_STEMS)
    ensures deletions == 1
  {
    var request := new SeparateRequest(true, true);
    resp := request.Handle("sk-0123456789", Remote(true, false, true, []));
    deletions := request.deletions;
  }

  /** A key of five emoji has `length` 10: it passes the gate, and the
      handler goes on to request an upload slot. */
  lemma AstralKeyPassesGate()
    ensures var key := "\U{1F600}\U{1F600}\U{1F600}\U{1F600}\U{1F600}";
      |key| == 5 && Utf16Length(key) == 10 && !Gated(key)
      && CallsMade(key, true, true, Remote(false, false, false, [])) == 1
  {
    var key := "\U{1F600}\U{1F600}\U{1F600}\U{1F600}\U{1F600}";
    assert Utf16Length(key[..1]) == 2 by { assert key[..1][..0] == []; }
    assert Utf16Length(key[..2]) == 4 by { assert key[..2][..1] == key[..1]; }
    assert Utf16Length(key[..3]) == 6 by { assert key[..3][..2] == key[..2]; }
    assert Utf16Length(key[..4]) == 8 by { assert key[..4][..3] == key[..3]; }
    assert key[..5] == key;
  }
}
