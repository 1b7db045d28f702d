/**
 * The crash automation manager: the app-wide object that installs the crash
 * reporter once, arms at most one crash per CI run on launch, fires the armed
 * crash once the UI is up, and reports how sending the stored crash reports
 * went in a status line that the UI test reads.
 *
 * The process environment is a constant map, `UserDefaults` a map from keys to
 * booleans, and the work the manager queues on the main thread (a call chain
 * ending in a crash) is recorded in `scheduledCrashes`.
 */
module AutomationManager {
  import opened Optional
  import opened CrashCatalog
  import opened Decimal

  /** Set to "1" to crash on launch. */
  const CrashOnLaunchVariable := "CI_AUTOMATION_CRASH_ON_LAUNCH"
  /** Names the CI run, so that each run crashes at most once. */
  const RunIDVariable := "CI_AUTOMATION_RUN_ID"
  const DefaultRunID := "default"
  const DidCrashKeyPrefix := "ci.automation.didCrash."

  const StartingText := "Starting..."
  const NoReportStoreText := "No report store"
  const InstallFailedPrefix := "Install failed: "

  /** `env["CI_AUTOMATION_RUN_ID"] ?? "default"`. */
  function RunID(env: map<string, string>): string {
    if RunIDVariable in env then env[RunIDVariable] else DefaultRunID
  }

  /** The `UserDefaults` key recording that run `runID` has crashed. */
  function DidCrashKey(runID: string): string {
    DidCrashKeyPrefix + runID
  }

  /** Runs with different IDs use different keys. */
  lemma {:induction false} DidCrashKeyInjective(a: string, b: string)
    ensures DidCrashKey(a) == DidCrashKey(b) ==> a == b
  {
    assert DidCrashKey(a)[|DidCrashKeyPrefix|..] == a;
    assert DidCrashKey(b)[|DidCrashKeyPrefix|..] == b;
  }

  /** `UserDefaults.bool(forKey:)`: `false` for a key that was never written. */
  predicate BoolForKey(defaults: map<string, bool>, key: string) {
    key in defaults && defaults[key]
  }

  /**
   * The guard of `maybeTriggerCrashOnLaunch`: the crash-on-launch flag is
   * exactly "1" and this run has not crashed yet.
   */
  predicate ShouldArm(env: map<string, string>, defaults: map<string, bool>) {
    CrashOnLaunchVariable in env && env[CrashOnLaunchVariable] == "1"
    && !BoolForKey(defaults, DidCrashKey(RunID(env)))
  }

  /** The defaults once the run's crash is armed: its key is true, every other key is kept. */
  function MarkCrashed(env: map<string, string>, defaults: map<string, bool>): (d: map<string, bool>)
    ensures BoolForKey(d, DidCrashKey(RunID(env)))
    ensures forall k :: k != DidCrashKey(RunID(env)) ==> (k in d <==> k in defaults)
    ensures forall k :: k != DidCrashKey(RunID(env)) && k in defaults ==> d[k] == defaults[k]
  {
    defaults[DidCrashKey(RunID(env)) := true]
  }

  /**
   * Once a run has armed its crash, no later launch with the same run ID arms
   * again, whatever else its environment holds.
   */
  lemma ArmsOncePerRun(env: map<string, string>, other: map<string, string>, defaults: map<string, bool>)
    requires RunID(other) == RunID(env)
    ensures !ShouldArm(other, MarkCrashed(env, defaults))
  {
  }

  /** Arming one run leaves whether any other run arms exactly as it was. */
  lemma {:induction false} ArmingIsolatedByRunID(env: map<string, string>, other: map<string, string>, defaults: map<string, bool>)
    requires RunID(env) != RunID(other)
    ensures ShouldArm(other, MarkCrashed(env, defaults)) == ShouldArm(other, defaults)
  {
    DidCrashKeyInjective(RunID(env), RunID(other));
  }

  /** The counters of the report-sending loop: reports sent, reports failed, and the last failure's text. */
  datatype Tally = Tally(sent: nat, failed: nat, lastError: Option<string>)

  /**
   * The counters after the first `n` sends, where `outcome(i)` is the text of
   * the error the i-th send threw, or `None` when it went through.
   */
  function TallyUpTo(outcome: nat -> Option<string>, n: nat): (t: Tally)
    ensures t.sent + t.failed == n
    ensures t.lastError.Some? <==> t.failed > 0
    decreases n
  {
    if n == 0 then Tally(0, 0, None)
    else
      var t := TallyUpTo(outcome, n - 1);
      match outcome(n - 1)
      case None => Tally(t.sent + 1, t.failed, t.lastError)
      case Some(e) => Tally(t.sent, t.failed + 1, Some(e))
  }

  /** The positions among the first `n` sends whose send went through. */
  ghost function SentPositions(outcome: nat -> Option<string>, n: nat): set<nat> {
    set i: nat | i < n && outcome(i).None?
  }

  /** The positions among the first `n` sends whose send threw. */
  ghost function FailedPositions(outcome: nat -> Option<string>, n: nat): set<nat> {
    set i: nat | i < n && outcome(i).Some?
  }

  /** One more send adds its position to the sent or the failed positions, and leaves the other set as it was. */
  lemma PositionsStep(outcome: nat -> Option<string>, n: nat)
    ensures |SentPositions(outcome, n + 1)| == |SentPositions(outcome, n)| + (if outcome(n).None? then 1 else 0)
    ensures |FailedPositions(outcome, n + 1)| == |FailedPositions(outcome, n)| + (if outcome(n).Some? then 1 else 0)
  {
    var sent, failed := SentPositions(outcome, n), FailedPositions(outcome, n);
    assert n !in sent && n !in failed;
    if outcome(n).None? {
      assert SentPositions(outcome, n + 1) == sent + {n};
      assert FailedPositions(outcome, n + 1) == failed;
    } else {
      assert SentPositions(outcome, n + 1) == sent;
      assert FailedPositions(outcome, n + 1) == failed + {n};
    }
  }

  /** The sent count is the number of sends that went through, and the failed count the number that threw. */
  lemma {:induction false} TallyCounts(outcome: nat -> Option<string>, n: nat)
    ensures TallyUpTo(outcome, n).sent == |SentPositions(outcome, n)|
    ensures TallyUpTo(outcome, n).failed == |FailedPositions(outcome, n)|
    decreases n
  {
    if n == 0 {
      assert SentPositions(outcome, 0) == {};
      assert FailedPositions(outcome, 0) == {};
    } else {
      TallyCounts(outcome, n - 1);
      PositionsStep(outcome, n - 1);
    }
  }

  /** The last error is that of the last send that threw, and there is none when every send went through. */
  lemma {:induction false} TallyLastError(outcome: nat -> Option<string>, n: nat)
    ensures TallyUpTo(outcome, n).lastError.None? <==> forall i :: 0 <= i < n ==> outcome(i).None?
    ensures TallyUpTo(outcome, n).lastError.Some? ==>
      exists i :: 0 <= i < n && outcome(i) == TallyUpTo(outcome, n).lastError
        && forall j :: i < j < n ==> outcome(j).None?
    decreases n
  {
    if n > 0 {
      TallyLastError(outcome, n - 1);
      if outcome(n - 1).None? && TallyUpTo(outcome, n).lastError.Some? {
        var i :| 0 <= i < n - 1 && outcome(i) == TallyUpTo(outcome, n - 1).lastError
          && forall j :: i < j < n - 1 ==> outcome(j).None?;
        assert forall j :: i < j < n ==> outcome(j).None?;
      }
    }
  }

  /** `"Sent: s, Failed: f"`, followed by `"\nError: e"` when a send failed. */
  function StatusText(t: Tally): string {
    "Sent: " + NatToString(t.sent) + ", Failed: " + NatToString(t.failed)
    + (if t.lastError.Some? then "\nError: " + t.lastError.value else "")
  }

  /** The text shown for an empty report store is the one the loop would produce for no reports. */
  lemma EmptyStatusText(outcome: nat -> Option<string>)
    ensures StatusText(TallyUpTo(outcome, 0)) == "Sent: 0, Failed: 0"
  {
    assert NatToString(0) == "0";
  }

  /** `s` is all digits. */
  predicate AllDigits(s: string) {
    forall i :: 0 <= i < |s| ==> IsDigit(s[i])
  }

  /** How many digits `s` starts with. */
  function LeadingDigits(s: string): (n: nat)
    ensures n <= |s|
  {
    if s == [] || !IsDigit(s[0]) then 0 else 1 + LeadingDigits(s[1..])
  }

  /** A numeral followed by text that is empty or starts with a non-digit: the numeral is all the leading digits. */
  lemma {:induction false} LeadingDigitsOfNumeral(x: string, y: string)
    requires AllDigits(x)
    requires y == [] || !IsDigit(y[0])
    ensures LeadingDigits(x + y) == |x|
    decreases |x|
  {
    if x == [] {
      assert x + y == y;
    } else {
      assert (x + y)[1..] == x[1..] + y;
      LeadingDigitsOfNumeral(x[1..], y);
    }
  }

  /** Such a numeral and the text after it can be split back apart in one way only. */
  lemma {:induction false} NumeralSplit(x: string, y: string, x': string, y': string)
    requires AllDigits(x) && AllDigits(x')
    requires y == [] || !IsDigit(y[0])
    requires y' == [] || !IsDigit(y'[0])
    requires x + y == x' + y'
    ensures x == x' && y == y'
  {
    LeadingDigitsOfNumeral(x, y);
    LeadingDigitsOfNumeral(x', y');
    assert x == (x + y)[..|x|];
    assert x' == (x' + y')[..|x'|];
    assert y == (x + y)[|x|..];
    assert y' == (x' + y')[|x'|..];
  }

  /** The error part of the status line: empty, or a line starting `"\nError: "`. */
  function ErrorLine(e: Option<string>): (s: string)
    ensures s == [] || s[0] == '\n'
  {
    if e.Some? then "\nError: " + e.value else ""
  }

  /** Equal texts after the same prefix are equal. */
  lemma DropPrefix(p: string, a: string, b: string)
    requires p + a == p + b
    ensures a == b
  {
    assert a == (p + a)[|p|..];
  }

  /** The status line, split at the counts. */
  lemma StatusTextParts(t: Tally)
    ensures StatusText(t) ==
      "Sent: " + (NatToString(t.sent) + (", Failed: " + (NatToString(t.failed) + ErrorLine(t.lastError))))
  {
  }

  /**
   * The status line loses nothing: two tallies that print the same are the
   * same, so the sent and failed counts and the error can be read off the text.
   */
  lemma {:induction false} StatusTextInjective(a: Tally, b: Tally)
    requires a.lastError.Some? <==> a.failed > 0
    requires b.lastError.Some? <==> b.failed > 0
    ensures StatusText(a) == StatusText(b) ==> a == b
  {
    if StatusText(a) == StatusText(b) {
      var fa, fb := NatToString(a.failed) + ErrorLine(a.lastError), NatToString(b.failed) + ErrorLine(b.lastError);
      StatusTextParts(a);
      StatusTextParts(b);
      DropPrefix("Sent: ", NatToString(a.sent) + (", Failed: " + fa), NatToString(b.sent) + (", Failed: " + fb));
      NumeralSplit(NatToString(a.sent), ", Failed: " + fa, NatToString(b.sent), ", Failed: " + fb);
      NatToStringInjective(a.sent, b.sent);
      DropPrefix(", Failed: ", fa, fb);
      NumeralSplit(NatToString(a.failed), ErrorLine(a.lastError), NatToString(b.failed), ErrorLine(b.lastError));
      NatToStringInjective(a.failed, b.failed);
      if a.lastError.Some? {
        DropPrefix("\nError: ", a.lastError.value, b.lastError.value);
      }
    }
  }

  /** `pattern` occurs in `text` starting at position `i`. */
  predicate OccursAt(text: string, pattern: string, i: nat) {
    i + |pattern| <= |text| && text[i..i + |pattern|] == pattern
  }

  /** `text.contains(pattern)`. */
  predicate Contains(text: string, pattern: string) {
    exists i: nat :: i <= |text| && OccursAt(text, pattern, i)
  }

  /** An occurrence in `b` is an occurrence in `a + b`, shifted by `|a|`. */
  lemma OccursAfter(a: string, b: string, pattern: string, j: nat)
    requires OccursAt(b, pattern, j)
    ensures OccursAt(a + b, pattern, |a| + j)
  {
    assert (a + b)[|a| + j..|a| + j + |pattern|] == b[j..j + |pattern|];
  }

  /** A text that lacks one of the pattern's characters does not contain the pattern. */
  lemma NotContainsMissingChar(text: string, pattern: string, j: nat)
    requires j < |pattern| && pattern[j] !in text
    ensures !Contains(text, pattern)
  {
    forall i: nat | i <= |text|
      ensures !OccursAt(text, pattern, i)
    {
      if i + |pattern| <= |text| {
        assert text[i..i + |pattern|][j] == text[i + j];
      }
    }
  }

  /** The UI test's verdict on the status line as written: it must not contain `"Failed: 1"`. */
  predicate UITestPassesAsWritten(text: string) {
    !Contains(text, "Failed: 1")
  }

  /**
   * The test as written lets failures through: when both of two sends throw,
   * the status line says `"Failed: 2"`, and the test passes although reports
   * failed to send.
   */
  lemma {:induction false} UITestMissesTwoFailures(outcome: nat -> Option<string>)
    requires outcome(0).Some? && outcome(1).Some? && '1' !in outcome(1).value
    ensures TallyUpTo(outcome, 2).failed == 2
    ensures UITestPassesAsWritten(StatusText(TallyUpTo(outcome, 2)))
  {
    var t := TallyUpTo(outcome, 2);
    assert TallyUpTo(outcome, 1) == Tally(0, 1, outcome(0));
    assert t == Tally(0, 2, outcome(1));
    StatusTextParts(t);
    assert NatToString(0) == "0" && NatToString(2) == "2";
    assert '1' !in "Sent: " && '1' !in ", Failed: " && '1' !in ErrorLine(t.lastError);
    NotContainsMissingChar(StatusText(t), "Failed: 1", 8);
  }

  /** The check the test's message asks for: the status line has no error line. */
  predicate UITestPasses(text: string) {
    !Contains(text, "Error:")
  }

  /** The corrected check passes exactly when no report failed to send. */
  lemma {:induction false} UITestPassesIffNoFailure(t: Tally)
    requires t.lastError.Some? <==> t.failed > 0
    ensures UITestPasses(StatusText(t)) <==> t.failed == 0
  {
    var head := "Sent: " + NatToString(t.sent) + ", Failed: " + NatToString(t.failed);
    assert StatusText(t) == head + ErrorLine(t.lastError);
    if t.failed > 0 {
      var line := ErrorLine(t.lastError);
      assert line[1..7] == "Error:";
      OccursAfter(head, line, "Error:", 1);
    } else {
      assert StatusText(t) == head;
      assert forall i :: 0 <= i < |NatToString(t.sent)| ==> NatToString(t.sent)[i] != 'E';
      assert forall i :: 0 <= i < |NatToString(t.failed)| ==> NatToString(t.failed)[i] != 'E';
      assert 'E' !in head;
      NotContainsMissingChar(head, "Error:", 0);
    }
  }

  /** The manager (`CrashAutomationManager.shared`). */
  class CrashAutomationManager {
    /** The process environment. */
    const env: map<string, string>
    /** `UserDefaults.standard`, as far as booleans go; it outlives the process. */
    var defaults: map<string, bool>
    var reportsStatusText: string
    var selectedCrashType: Option<CrashType>
    var started: bool
    var pendingCrash: bool
    /** How many times the crash reporter has been installed. */
    var installs: nat
    /** The crashes queued on the main thread, each to run at the bottom of a call chain, oldest first. */
    var scheduledCrashes: seq<CrashType>

    /** A crash is only ever pending together with its type. */
    ghost predicate Valid()
      reads this
    {
      pendingCrash ==> selectedCrashType.Some?
    }

    /**
     * The effect of the launch check on the defaults, the pending flag and the
     * selected type, from the values `d0`, `p0`, `s0` they had before it.
     */
    ghost predicate LaunchChecked(d0: map<string, bool>, p0: bool, s0: Option<CrashType>)
      reads this
    {
      if ShouldArm(env, d0) then
        defaults == MarkCrashed(env, d0) && pendingCrash && selectedCrashType.Some?
        && (RequestedCrashType(env).Some? ==> selectedCrashType == RequestedCrashType(env))
      else
        defaults == d0 && pendingCrash == p0 && selectedCrashType == s0
    }

    constructor (env: map<string, string>, defaults: map<string, bool>)
      ensures this.env == env && this.defaults == defaults
      ensures reportsStatusText == StartingText && selectedCrashType == None
      ensures !started && !pendingCrash && installs == 0 && scheduledCrashes == []
      ensures Valid()
    {
      this.env := env;
      this.defaults := defaults;
      reportsStatusText := StartingText;
      selectedCrashType := None;
      started := false;
      pendingCrash := false;
      installs := 0;
      scheduledCrashes := [];
    }

    /**
     * `startIfNeeded`: the first call installs the crash reporter (which fails
     * with `installError` when that is present) and runs the launch check;
     * every later call changes nothing.
     */
    method StartIfNeeded(installError: Option<string>)
      modifies this
      ensures old(started) ==> unchanged(this)
      ensures !old(started) ==> started && installs == old(installs) + 1
      ensures !old(started) ==>
        reportsStatusText == (if installError.Some? then InstallFailedPrefix + installError.value else old(reportsStatusText))
      ensures !old(started) ==> LaunchChecked(old(defaults), old(pendingCrash), old(selectedCrashType))
      ensures !old(started) ==> scheduledCrashes == old(scheduledCrashes)
      ensures old(Valid()) ==> Valid()
    {
      if started {
        return;
      }
      started := true;
      InstallCrashReporter(installError);
      MaybeTriggerCrashOnLaunch();
    }

    /** `installCrashReporter`, reduced to its outcome: a failure shows in the status text. */
    method InstallCrashReporter(installError: Option<string>)
      modifies this
      ensures installs == old(installs) + 1
      ensures reportsStatusText ==
        (if installError.Some? then InstallFailedPrefix + installError.value else old(reportsStatusText))
      ensures defaults == old(defaults) && selectedCrashType == old(selectedCrashType)
      ensures started == old(started) && pendingCrash == old(pendingCrash)
      ensures scheduledCrashes == old(scheduledCrashes)
    {
      installs := installs + 1;
      if installError.Some? {
        reportsStatusText := InstallFailedPrefix + installError.value;
      }
    }

    /**
     * `resolveCrashType`: the type the environment names, or a random one when
     * it names none. It never fails.
     */
    method ResolveCrashType() returns (t: CrashType)
      ensures RequestedCrashType(env).Some? ==> t == RequestedCrashType(env).value
      ensures t in AllCases
    {
      var requested := RequestedCrashType(env);
      if requested.Some? {
        t := requested.value;
        CaseIndexListsCase(t);
      } else {
        t := RandomCrashType();
      }
    }

    /**
     * `maybeTriggerCrashOnLaunch`: when the flag is "1" and this run has not
     * crashed yet, record that it has and arm a crash of the resolved type.
     */
    method MaybeTriggerCrashOnLaunch()
      modifies this
      ensures LaunchChecked(old(defaults), old(pendingCrash), old(selectedCrashType))
      ensures reportsStatusText == old(reportsStatusText) && started == old(started)
      ensures installs == old(installs) && scheduledCrashes == old(scheduledCrashes)
      ensures old(Valid()) ==> Valid()
    {
      if !(CrashOnLaunchVariable in env && env[CrashOnLaunchVariable] == "1") {
        return;
      }
      var runID := if RunIDVariable in env then env[RunIDVariable] else DefaultRunID;
      var crashKey := DidCrashKeyPrefix + runID;
      if crashKey in defaults && defaults[crashKey] {
        return;
      }
      defaults := defaults[crashKey := true];
      var t := ResolveCrashType();
      selectedCrashType := Some(t);
      pendingCrash := true;
    }

    /** `triggerCrashNow`: select a type and queue its crash. */
    method TriggerCrashNow()
      modifies this
      ensures selectedCrashType.Some? && scheduledCrashes == old(scheduledCrashes) + [selectedCrashType.value]
      ensures RequestedCrashType(env).Some? ==> selectedCrashType == RequestedCrashType(env)
      ensures defaults == old(defaults) && reportsStatusText == old(reportsStatusText)
      ensures started == old(started) && pendingCrash == old(pendingCrash) && installs == old(installs)
      ensures old(Valid()) ==> Valid()
    {
      var t := ResolveCrashType();
      selectedCrashType := Some(t);
      scheduledCrashes := scheduledCrashes + [t];
    }

    /**
     * `onUIReady`: fire the armed crash, once. With a crash pending and a type
     * selected, clear the pending flag and queue that type's crash; otherwise
     * do nothing. A valid manager has no crash pending afterwards, so a second
     * call does nothing.
     */
    method OnUIReady()
      modifies this
      ensures old(pendingCrash) && old(selectedCrashType).Some? ==>
        !pendingCrash && scheduledCrashes == old(scheduledCrashes) + [old(selectedCrashType).value]
        && defaults == old(defaults) && selectedCrashType == old(selectedCrashType)
        && reportsStatusText == old(reportsStatusText) && started == old(started) && installs == old(installs)
      ensures !(old(pendingCrash) && old(selectedCrashType).Some?) ==> unchanged(this)
      ensures old(Valid()) ==> Valid() && !pendingCrash
    {
      if !pendingCrash || selectedCrashType.None? {
        return;
      }
      var t := selectedCrashType.value;
      pendingCrash := false;
      scheduledCrashes := scheduledCrashes + [t];
    }

    /**
     * `sendPendingReports`: `store` is the report store's list of report IDs,
     * absent when there is no store; `outcome(i)` is the text of the error that
     * sending the i-th report threw, or `None` when it was sent.
     */
    method SendPendingReports(store: Option<seq<int>>, outcome: nat -> Option<string>)
      modifies this
      ensures store.None? ==> reportsStatusText == NoReportStoreText
      ensures store.Some? ==> reportsStatusText == StatusText(TallyUpTo(outcome, |store.value|))
      ensures defaults == old(defaults) && selectedCrashType == old(selectedCrashType)
      ensures started == old(started) && pendingCrash == old(pendingCrash)
      ensures installs == old(installs) && scheduledCrashes == old(scheduledCrashes)
    {
      if store.None? {
        reportsStatusText := NoReportStoreText;
        return;
      }
      var reportIDs := store.value;
      if |reportIDs| == 0 {
        reportsStatusText := "Sent: 0, Failed: 0";
        EmptyStatusText(outcome);
        return;
      }
      var sentCount, failedCount, lastError := 0, 0, None;
      var i := 0;
      while i < |reportIDs|
        invariant 0 <= i <= |reportIDs|
        invariant Tally(sentCount, failedCount, lastError) == TallyUpTo(outcome, i)
      {
        match outcome(i) {
          case None =>
            sentCount := sentCount + 1;
          case Some(e) =>
            failedCount := failedCount + 1;
            lastError := Some(e);
        }
        i := i + 1;
      }
      var status := "Sent: " + NatToString(sentCount) + ", Failed: " + NatToString(failedCount);
      if lastError.Some? {
        status := status + ("\nError: " + lastError.value);
      }
      reportsStatusText := status;
    }
  }
}
