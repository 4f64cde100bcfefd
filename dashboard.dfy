/**
 * The dashboard's view logic in frontend/src/pages/DashboardPage.jsx: the
 * status badge, the running/OTP flags, the controls they drive and the
 * classification of log lines. All of it is computed from the polled status
 * string and log lines.
 */
module Dashboard {
  import Text
  import opened Status

  // ---------------------------------------------------------------------
  // Status badge and flags
  // ---------------------------------------------------------------------

  /** `getStatusClass`: the CSS class of the status badge. */
  function GetStatusClass(status: string): string {
    if status == IdleValue || status == ErrorValue || status == SuccessValue then "status-" + status
    else if status == WaitingOtpValue then "status-" + WaitingOtpValue
    else "status-running"
  }

  /** `isRunning`: any status other than idle, error and success. */
  predicate IsRunning(status: string) {
    status != IdleValue && status != ErrorValue && status != SuccessValue
  }

  /** `isWaitingOtp`. */
  predicate IsWaitingOtp(status: string) {
    status == WaitingOtpValue
  }

  /** The badge text: `status.replace('_', ' ')`, which replaces the first underscore only. */
  function StatusLabel(status: string): string {
    Text.ReplaceFirst(status, '_', ' ')
  }

  /** What the page shows and enables for a status. */
  datatype Controls = Controls(
    startDisabled: bool,
    startLabel: string,
    stopShown: bool,
    datesDisabled: bool,
    otpBannerShown: bool)

  function View(status: string): Controls {
    var running := IsRunning(status);
    Controls(
      running,
      if running then "Syncing..." else "Start Global Sync",
      running,
      running,
      running && IsWaitingOtp(status))
  }

  /** A status is running exactly when it is not one a finished run ends in. */
  lemma RunningIffNotTerminal(s: AppStatus)
    ensures IsRunning(Value(s)) <==> !Terminal(s)
    ensures IsWaitingOtp(Value(s)) <==> s == WaitingOtp
  {
    ValueHeads();
  }

  /** The badge class of each status: its own for the three final ones and OTP, a shared one otherwise. */
  lemma StatusClassSpec(s: AppStatus)
    ensures Terminal(s) ==> GetStatusClass(Value(s)) == "status-" + Value(s)
    ensures s == WaitingOtp ==> GetStatusClass(Value(s)) == "status-waiting_otp"
    ensures !Terminal(s) && s != WaitingOtp ==> GetStatusClass(Value(s)) == "status-running"
    ensures GetStatusClass(Value(s)) == "status-running" <==> IsRunning(Value(s)) && !IsWaitingOtp(Value(s))
  {
    if Terminal(s) || s == WaitingOtp {
      // the badge differs from the shared class right after "status-"
      assert GetStatusClass(Value(s))[7] == Value(s)[0] != 'r';
    }
  }

  /** Start is disabled exactly when Stop is shown; the OTP banner only appears while running. */
  lemma ControlsSpec(status: string)
    ensures View(status).startDisabled <==> IsRunning(status)
    ensures View(status).stopShown <==> View(status).startDisabled
    ensures View(status).otpBannerShown <==> IsWaitingOtp(status)
    ensures View(status).startLabel == "Syncing..." <==> View(status).stopShown
  {
  }

  /** The four two-word status values read with their underscore as a space. */
  lemma StatusLabelSpec(s: AppStatus)
    ensures s == LoggingIn ==> StatusLabel(Value(s)) == "logging in"
    ensures s == WaitingOtp ==> StatusLabel(Value(s)) == "waiting otp"
    ensures s == FetchingData ==> StatusLabel(Value(s)) == "fetching data"
    ensures s == SavingData ==> StatusLabel(Value(s)) == "saving data"
  {
    match s
    case LoggingIn => TwoWordLabel(LoggingInValue, "logging", "in");
    case WaitingOtp => TwoWordLabel(WaitingOtpValue, "waiting", "otp");
    case FetchingData => TwoWordLabel(FetchingDataValue, "fetching", "data");
    case SavingData => TwoWordLabel(SavingDataValue, "saving", "data");
    case _ =>
  }

  /** A value made of two words joined by an underscore reads with a space instead. */
  lemma TwoWordLabel(v: string, first: string, second: string)
    requires v == first + "_" + second && '_' !in first
    ensures StatusLabel(v) == first + " " + second
  {
    assert v == first + ['_'] + second;
    Text.ReplaceFirstAt(first, second, '_', ' ');
  }

  /** The one-word status values read as they are. */
  lemma StatusLabelPlain(s: AppStatus)
    requires Terminal(s) || s == Starting
    ensures StatusLabel(Value(s)) == Value(s)
  {
    Text.ReplaceFirstAbsent(Value(s), '_', ' ');
  }

  /** Only the first underscore is replaced: a second one stays. */
  lemma StatusLabelFirstOnly(a: string, b: string, c: string)
    requires '_' !in a
    ensures StatusLabel(a + "_" + b + "_" + c) == a + " " + b + "_" + c
  {
    assert a + "_" + b + "_" + c == a + ['_'] + (b + "_" + c);
    Text.ReplaceFirstAt(a, b + "_" + c, '_', ' ');
  }

  // ---------------------------------------------------------------------
  // Log lines
  // ---------------------------------------------------------------------

  /** One rendered log line. */
  datatype LogEntry = LogEntry(content: string, className: string)

  predicate MentionsError(log: string) {
    Text.Contains(Text.ToLower(log), "[error]") || Text.Contains(Text.ToLower(log), "failed")
  }

  predicate MentionsSuccess(log: string) {
    Text.Contains(Text.ToLower(log), "[success]") || Text.Contains(Text.ToLower(log), "done")
  }

  predicate MentionsWarning(log: string) {
    Text.Contains(Text.ToLower(log), "[warning]") || Text.Contains(Text.ToLower(log), "timeout")
  }

  /** `formatLogEntry`: `type` starts as info and each later test that matches overrides it. */
  function FormatLogEntry(log: string): LogEntry {
    var t0 := "info";
    var t1 := if MentionsError(log) then "error" else t0;
    var t2 := if MentionsSuccess(log) then "success" else t1;
    var t3 := if MentionsWarning(log) then "warning" else t2;
    LogEntry(log, "log-entry log-" + t3)
  }

  /** The line kinds, strongest first. */
  datatype Kind = Warning | Succeeded | Failed | Info

  /** The kind a line is shown as, by priority: warning, then success, then error. */
  function KindOf(log: string): Kind {
    if MentionsWarning(log) then Warning
    else if MentionsSuccess(log) then Succeeded
    else if MentionsError(log) then Failed
    else Info
  }

  function KindName(k: Kind): string {
    match k
    case Warning => "warning"
    case Succeeded => "success"
    case Failed => "error"
    case Info => "info"
  }

  /**
   * The rendered line keeps its text, and its class names the strongest
   * kind the line mentions.
   */
  lemma FormatLogEntrySpec(log: string)
    ensures FormatLogEntry(log).content == log
    ensures FormatLogEntry(log).className == "log-entry log-" + KindName(KindOf(log))
    ensures MentionsWarning(log) ==> KindOf(log) == Warning
    ensures KindOf(log) == Failed <==> MentionsError(log) && !MentionsSuccess(log) && !MentionsWarning(log)
    ensures KindOf(log) == Info <==> !MentionsError(log) && !MentionsSuccess(log) && !MentionsWarning(log)
  {
  }

  /** Matching ignores case: a line and its lower-cased form get the same class. */
  lemma FormatIgnoresCase(log: string)
    ensures FormatLogEntry(Text.ToLower(log)).className == FormatLogEntry(log).className
  {
    var l := Text.ToLower(log);
    assert Text.ToLower(l) == l by {
      forall i | 0 <= i < |l| ensures Text.ToLower(l)[i] == l[i] {
        assert Text.LowerChar(Text.LowerChar(log[i])) == Text.LowerChar(log[i]);
      }
    }
  }
}
