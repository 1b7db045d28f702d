/**
 * The crash-report sink: a filter in the crash reporter's sending pipeline
 * that uploads each report to the backend in turn, and hands back the reports
 * that were uploaded, in their original order, with the error of the last
 * upload that failed.
 *
 * The network is not modelled: what the backend answered to the i-th upload
 * (or how the transfer failed) is the input `exchanges(i)`.
 */
module ServiceSink {
  import opened Optional

  /** The kinds of report the pipeline carries; only dictionary reports are uploaded. */
  datatype CrashReport = DictionaryReport(id: int) | StringReport(id: int) | DataReport(id: int)

  /** What came back for a request: an HTTP response, or some other kind of response. `body` is absent when it is not UTF-8. */
  datatype Response = HttpResponse(statusCode: int, body: Option<string>) | OtherResponse(body: Option<string>)

  /** The outcome of one upload attempt at the transport level. */
  datatype Exchange = Responded(response: Response) | TransportFailed(description: string)

  /** The errors an upload throws. */
  datatype UploadError =
    | BadServerResponse                         // the report is not a dictionary report
    | Rejected(code: int, description: string)  // the server answered, but not with a 2xx status
    | TransportError(description: string)       // the request itself failed

  /** The statuses the sink takes as a successful upload: 200 through 299. */
  predicate Accepted(statusCode: int) {
    200 <= statusCode <= 299
  }

  /**
   * `uploadReport`: the error it throws for `report` when the request ends in
   * `exchange`, or `None` when it returns normally.
   */
  function Upload(report: CrashReport, exchange: Exchange): (e: Option<UploadError>)
    ensures e.None? <==>
      report.DictionaryReport? && exchange.Responded?
      && exchange.response.HttpResponse? && Accepted(exchange.response.statusCode)
    ensures !report.DictionaryReport? ==> e == Some(BadServerResponse)
    ensures report.DictionaryReport? && exchange.Responded? && e.Some? ==>
      e.value.Rejected? && e.value.description == exchange.response.body.GetOr("")
      && e.value.code == (if exchange.response.HttpResponse? then exchange.response.statusCode else 0)
    ensures report.DictionaryReport? && exchange.TransportFailed? ==> e == Some(TransportError(exchange.description))
  {
    if !report.DictionaryReport? then Some(BadServerResponse)
    else match exchange
      case TransportFailed(d) => Some(TransportError(d))
      case Responded(response) =>
        if response.HttpResponse? && Accepted(response.statusCode) then None
        else
          var code := if response.HttpResponse? then response.statusCode else 0;
          Some(Rejected(code, response.body.GetOr("")))
  }

  /** Whether the i-th upload succeeded. */
  predicate Uploaded(reports: seq<CrashReport>, exchanges: nat -> Exchange, i: nat)
    requires i < |reports|
  {
    Upload(reports[i], exchanges(i)).None?
  }

  /** The reports among the first `n` whose upload succeeded, in order. */
  function SuccessfulUpTo(reports: seq<CrashReport>, exchanges: nat -> Exchange, n: nat): (s: seq<CrashReport>)
    requires n <= |reports|
    ensures |s| <= n
    decreases n
  {
    if n == 0 then []
    else if Uploaded(reports, exchanges, n - 1) then SuccessfulUpTo(reports, exchanges, n - 1) + [reports[n - 1]]
    else SuccessfulUpTo(reports, exchanges, n - 1)
  }

  /** How many of the first `n` uploads failed. */
  function FailedUpTo(reports: seq<CrashReport>, exchanges: nat -> Exchange, n: nat): nat
    requires n <= |reports|
    decreases n
  {
    if n == 0 then 0
    else if Uploaded(reports, exchanges, n - 1) then FailedUpTo(reports, exchanges, n - 1)
    else FailedUpTo(reports, exchanges, n - 1) + 1
  }

  /** The error of the last of the first `n` uploads that failed, or `None` when none did. */
  function LastErrorUpTo(reports: seq<CrashReport>, exchanges: nat -> Exchange, n: nat): Option<UploadError>
    requires n <= |reports|
    decreases n
  {
    if n == 0 then None
    else if Uploaded(reports, exchanges, n - 1) then LastErrorUpTo(reports, exchanges, n - 1)
    else Upload(reports[n - 1], exchanges(n - 1))
  }

  /**
   * `filterReports`: upload every report in order, keep those that went
   * through and remember the last error. An empty batch is handed back
   * at once, unchanged and without an error. The completion handler's
   * arguments are the method's results.
   */
  method FilterReports(reports: seq<CrashReport>, exchanges: nat -> Exchange)
    returns (successful: seq<CrashReport>, lastError: Option<UploadError>)
    ensures successful == SuccessfulUpTo(reports, exchanges, |reports|)
    ensures lastError == LastErrorUpTo(reports, exchanges, |reports|)
    ensures reports == [] ==> successful == reports && lastError == None
  {
    if reports == [] {
      return reports, None;
    }
    successful, lastError := [], None;
    var i := 0;
    while i < |reports|
      invariant 0 <= i <= |reports|
      invariant successful == SuccessfulUpTo(reports, exchanges, i)
      invariant lastError == LastErrorUpTo(reports, exchanges, i)
    {
      var report := reports[i];
      var error := Upload(report, exchanges(i));
      if error.None? {
        successful := successful + [report];
      } else {
        lastError := error;
      }
      i := i + 1;
    }
  }

  /** Every report is either kept or counted as failed. */
  lemma {:induction false} SuccessfulPlusFailed(reports: seq<CrashReport>, exchanges: nat -> Exchange, n: nat)
    requires n <= |reports|
    ensures |SuccessfulUpTo(reports, exchanges, n)| + FailedUpTo(reports, exchanges, n) == n
    decreases n
  {
    if n > 0 {
      SuccessfulPlusFailed(reports, exchanges, n - 1);
    }
  }

  /** `a` is `b` with some entries left out, the rest in the same order. */
  predicate IsSubsequence<T(==)>(a: seq<T>, b: seq<T>)
    decreases |b|
  {
    if a == [] then true
    else if b == [] then false
    else
      (a[|a| - 1] == b[|b| - 1] && IsSubsequence(a[..|a| - 1], b[..|b| - 1]))
      || IsSubsequence(a, b[..|b| - 1])
  }

  /** The kept reports are a subsequence of the input: nothing is reordered or duplicated. */
  lemma {:induction false} SuccessfulIsSubsequence(reports: seq<CrashReport>, exchanges: nat -> Exchange, n: nat)
    requires n <= |reports|
    ensures IsSubsequence(SuccessfulUpTo(reports, exchanges, n), reports[..n])
    decreases n
  {
    if n > 0 {
      var s := SuccessfulUpTo(reports, exchanges, n - 1);
      SuccessfulIsSubsequence(reports, exchanges, n - 1);
      assert reports[..n][..n - 1] == reports[..n - 1];
      if Uploaded(reports, exchanges, n - 1) {
        assert (s + [reports[n - 1]])[..|s|] == s;
      } else if s != [] {
        assert reports[..n] != [];
      }
    }
  }

  /** A report is kept exactly when some position holding it was uploaded. */
  lemma {:induction false} SuccessfulMembers(reports: seq<CrashReport>, exchanges: nat -> Exchange, n: nat, r: CrashReport)
    requires n <= |reports|
    ensures r in SuccessfulUpTo(reports, exchanges, n) <==>
      exists i :: 0 <= i < n && reports[i] == r && Uploaded(reports, exchanges, i)
    decreases n
  {
    if n > 0 {
      SuccessfulMembers(reports, exchanges, n - 1, r);
    }
  }

  /** The positions among the first `n` whose upload succeeded, in increasing order. */
  function KeptPositions(reports: seq<CrashReport>, exchanges: nat -> Exchange, n: nat): seq<nat>
    requires n <= |reports|
    decreases n
  {
    if n == 0 then []
    else if Uploaded(reports, exchanges, n - 1) then KeptPositions(reports, exchanges, n - 1) + [n - 1]
    else KeptPositions(reports, exchanges, n - 1)
  }

  /**
   * The kept reports are exactly the reports at the positions whose upload
   * succeeded, taken in increasing order of position: the j-th kept report is
   * the report at the j-th such position.
   */
  lemma {:induction false} SuccessfulPositions(reports: seq<CrashReport>, exchanges: nat -> Exchange, n: nat)
    requires n <= |reports|
    ensures |KeptPositions(reports, exchanges, n)| == |SuccessfulUpTo(reports, exchanges, n)|
    ensures forall i :: 0 <= i < n ==> (i in KeptPositions(reports, exchanges, n) <==> Uploaded(reports, exchanges, i))
    ensures forall j :: 0 <= j < |KeptPositions(reports, exchanges, n)| ==>
      KeptPositions(reports, exchanges, n)[j] < n
      && SuccessfulUpTo(reports, exchanges, n)[j] == reports[KeptPositions(reports, exchanges, n)[j]]
    ensures forall j, j' :: 0 <= j < j' < |KeptPositions(reports, exchanges, n)| ==>
      KeptPositions(reports, exchanges, n)[j] < KeptPositions(reports, exchanges, n)[j']
    decreases n
  {
    if n > 0 {
      SuccessfulPositions(reports, exchanges, n - 1);
    }
  }

  /**
   * The returned error is `None` exactly when every upload succeeded, and
   * otherwise is the error of the last upload that failed.
   */
  lemma {:induction false} LastErrorIsLastFailure(reports: seq<CrashReport>, exchanges: nat -> Exchange, n: nat)
    requires n <= |reports|
    ensures LastErrorUpTo(reports, exchanges, n).None? <==> forall i :: 0 <= i < n ==> Uploaded(reports, exchanges, i)
    ensures LastErrorUpTo(reports, exchanges, n).Some? ==>
      exists i :: 0 <= i < n && !Uploaded(reports, exchanges, i)
        && LastErrorUpTo(reports, exchanges, n) == Upload(reports[i], exchanges(i))
        && forall j :: i < j < n ==> Uploaded(reports, exchanges, j)
    decreases n
  {
    if n > 0 {
      LastErrorIsLastFailure(reports, exchanges, n - 1);
      if Uploaded(reports, exchanges, n - 1) && LastErrorUpTo(reports, exchanges, n).Some? {
        var i :| 0 <= i < n - 1 && !Uploaded(reports, exchanges, i)
          && LastErrorUpTo(reports, exchanges, n - 1) == Upload(reports[i], exchanges(i))
          && forall j :: i < j < n - 1 ==> Uploaded(reports, exchanges, j);
        assert forall j :: i < j < n ==> Uploaded(reports, exchanges, j);
      }
    }
  }
}
