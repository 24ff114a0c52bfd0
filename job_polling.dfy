/** The job-status polling loop of the `/separate` handler (index.js:113-133). */
module JobPolling {
  import opened Text
  import opened JsonValue

  /** The loop's iteration budget: `for (let i = 0; i < 60; i++)`. */
  const MAX_POLLS: nat := 60

  /** `(data.status || 'UNKNOWN').toUpperCase()`: an absent or empty status
      reads as UNKNOWN. */
  function NormalizeStatus(status: Option<string>): (r: string)
    ensures r != "" && NoLower(r)
    ensures status.None? ==> r == "UNKNOWN"
  {
    match status
    case Some(s) => if s == "" then "UNKNOWN" else Upper(s)
    case None => "UNKNOWN"
  }

  /** The three ways one status reply is read: stop with the result, abort,
      or keep polling (any other spelling, UNKNOWN included). */
  datatype JobState = Succeeded | Failed | Pending

  /** The UNKNOWN default never matters: only a present status whose
      upper-cased spelling is a success or the failure word is terminal. */
  function Classify(status: Option<string>): (r: JobState)
    ensures r == Succeeded <==> status.Some? && Upper(status.value) in {"SUCCEEDED", "COMPLETED", "SUCCESS"}
    ensures r == Failed <==> status.Some? && Upper(status.value) == "FAILED"
  {
    var s := NormalizeStatus(status);
    if s == "SUCCEEDED" || s == "COMPLETED" || s == "SUCCESS" then Succeeded
    else if s == "FAILED" then Failed
    else Pending
  }

  /** How the loop ends: with the reply at index `at`, on a FAILED status at
      `at`, with the budget spent, or because the status request at `at`
      raised (the replies ran out). */
  datatype PollOutcome = Success(at: nat) | JobFailed(at: nat) | Timeout | RequestError(at: nat)

  /** Status requests the loop issued before it ended. */
  function ChecksMade(o: PollOutcome): (n: nat)
    ensures n >= 1
    ensures !o.Timeout? ==> o.at < n
  {
    match o
    case Success(at) => at + 1
    case JobFailed(at) => at + 1
    case RequestError(at) => at + 1
    case Timeout => MAX_POLLS
  }

  /** The loop from iteration `i` on, given the statuses the provider returns
      to successive requests. */
  function PollFrom(statuses: seq<Option<string>>, i: nat): (o: PollOutcome)
    requires i <= MAX_POLLS
    ensures o.Success? ==> i <= o.at < |statuses| && o.at < MAX_POLLS
    decreases MAX_POLLS - i
  {
    if i == MAX_POLLS then Timeout
    else if i >= |statuses| then RequestError(i)
    else
      match Classify(statuses[i])
      case Succeeded => Success(i)
      case Failed => JobFailed(i)
      case Pending => PollFrom(statuses, i + 1)
  }

  /** The loop as the handler runs it: one status request per iteration,
      leaving early on a terminal status. */
  method Poll(statuses: seq<Option<string>>) returns (o: PollOutcome)
    ensures o == PollFrom(statuses, 0)
  {
    for i := 0 to MAX_POLLS
      invariant PollFrom(statuses, 0) == PollFrom(statuses, i)
    {
      if i >= |statuses| {
        return RequestError(i);
      }
      var state := Classify(statuses[i]);
      if state == Succeeded {
        return Success(i);
      } else if state == Failed {
        return JobFailed(i);
      }
    }
    return Timeout;
  }

  /** Every status before index `n` says to keep polling. */
  ghost predicate PendingBefore(statuses: seq<Option<string>>, n: nat)
    requires n <= |statuses|
  {
    forall j :: 0 <= j < n ==> Classify(statuses[j]) == Pending
  }

  /** What each outcome means about the statuses that were read. */
  ghost predicate Explains(statuses: seq<Option<string>>, o: PollOutcome) {
    match o
    case Success(at) =>
      at < MAX_POLLS && at < |statuses| && PendingBefore(statuses, at) && Classify(statuses[at]) == Succeeded
    case JobFailed(at) =>
      at < MAX_POLLS && at < |statuses| && PendingBefore(statuses, at) && Classify(statuses[at]) == Failed
    case RequestError(at) =>
      at < MAX_POLLS && at == |statuses| && PendingBefore(statuses, at)
    case Timeout =>
      MAX_POLLS <= |statuses| && PendingBefore(statuses, MAX_POLLS)
  }

  lemma {:induction false} PollFromExplains(statuses: seq<Option<string>>, i: nat)
    requires i <= MAX_POLLS && i <= |statuses| && PendingBefore(statuses, i)
    ensures Explains(statuses, PollFrom(statuses, i))
    decreases MAX_POLLS - i
  {
    if i < MAX_POLLS && i < |statuses| && Classify(statuses[i]) == Pending {
      PollFromExplains(statuses, i + 1);
    }
  }

  /** At most one outcome explains a given status sequence. */
  lemma ExplainsUnique(statuses: seq<Option<string>>, o1: PollOutcome, o2: PollOutcome)
    requires Explains(statuses, o1) && Explains(statuses, o2)
    ensures o1 == o2
  {
    var n1 := if o1.Timeout? then MAX_POLLS else o1.at;
    var n2 := if o2.Timeout? then MAX_POLLS else o2.at;
    if n1 < n2 {
      assert false;
    } else if n2 < n1 {
      assert false;
    }
  }

  /** The polling outcome is exactly the one the statuses explain: the first
      success spelling stops with that reply, FAILED aborts, anything else
      continues, and 60 non-terminal statuses exhaust the budget. */
  lemma PollSpec(statuses: seq<Option<string>>, o: PollOutcome)
    ensures PollFrom(statuses, 0) == o <==> Explains(statuses, o)
  {
    PollFromExplains(statuses, 0);
    if Explains(statuses, o) {
      ExplainsUnique(statuses, o, PollFrom(statuses, 0));
    }
  }

  /** The loop never issues more than 60 status requests. */
  lemma PollIsBounded(statuses: seq<Option<string>>)
    ensures 0 < ChecksMade(PollFrom(statuses, 0)) <= MAX_POLLS
  {
    PollFromExplains(statuses, 0);
  }

  /** Status spellings are matched after upper-casing, so their case never matters. */
  lemma ClassifyIgnoresCase(s: string)
    ensures Classify(Some(Lower(s))) == Classify(Some(s))
  {
    UpperOfLower(s);
  }

  /** Two pending replies, in either letter case, then FAILED: the loop
      aborts at the third request. */
  lemma PendingPendingFailed()
    ensures PollFrom([Some("PENDING"), Some("pending"), Some("FAILED")], 0) == JobFailed(2)
  {
    var statuses := [Some("PENDING"), Some("pending"), Some("FAILED")];
    assert Upper("PENDING") == "PENDING" && Upper("pending") == "PENDING";
    assert Classify(statuses[0]) == Pending && Classify(statuses[1]) == Pending;
    assert Classify(statuses[2]) == Failed;
    assert PollFrom(statuses, 2) == JobFailed(2);
  }
}
