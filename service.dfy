/**
 * `BankingService` of service.py: the sync status, the `running` gate, the
 * last error and the rolling log, driven by one sync run (`_run_process`)
 * through launch, login, fetch and save. The browser, the bank, the Actual
 * server and the clock are outside the model: what they do to a run is
 * given as an `Env` of outcomes.
 *
 * The run is specified by pure functions over a `State` (status, last
 * error, gate, every log line emitted, the import calls issued); the class
 * methods are proved to change the object exactly as those functions say,
 * and the properties of a run are lemmas about the functions.
 */
module Service {
  import opened Wrappers
  import opened Status
  import opened Json
  import Text
  import Convert
  import Response
  import LogBuffer

  /** `deque(maxlen=50)` of the service, and the handler's own default limit. */
  const MaxLogs: nat := 50
  const HandlerLimit: nat := 100

  const AlreadyRunning := "Sync already in progress"
  const NoListWarning := "Could not find a list of transactions in the response!"
  const NoTokenError := "Failed to get Actual Budget token"

  /** The fixed lines and prefixes the run logs. */
  const StatusPrefix := "Status changed to: "
  const NetworkErrorPrefix := "Error occurred: "
  const NavigatingLine := "Navigating to dashboard..."
  const AwaitingLoginLine := "Waiting for login completion (OTP or dashboard load)"
  const LoggedInLine := "Logged in successfully!"
  const FetchingLine := "Fetching data..."
  const TokenLine := "Fetching Actual's token..."
  const ImportingLine := "Importing data to Actual..."
  const FetchFailedPrefix := "Fetch flow failed: "
  const SyncErrorPrefix := "Error during sync: "

  // ---------------------------------------------------------------------
  // Log lines
  // ---------------------------------------------------------------------

  /** The line `_set_status` logs. */
  function StatusLine(s: AppStatus): string {
    StatusPrefix + Value(s)
  }

  /** The line the Actual client logs when a request fails on the network. */
  function NetworkErrorLine(e: string): string {
    NetworkErrorPrefix + e
  }

  /** The name `type()` reports for a parsed value. */
  function TypeName(j: Json): string {
    match j
    case JNull => NoneTypeName
    case JBool(_) => BoolName
    case JNum(n) => if n.Floor as real == n then IntName else FloatName
    case JStr(_) => StrName
    case JArr(_) => ListName
    case JObj(_) => DictName
  }

  const NoneTypeName := "NoneType"
  const BoolName := "bool"
  const IntName := "int"
  const FloatName := "float"
  const StrName := "str"
  const ListName := "list"
  const DictName := "dict"

  const DataTypePrefix := "Data type: <class '"
  const DataTypeSuffix := "'>"

  function DataTypeLine(j: Json): string {
    DataTypePrefix + TypeName(j) + DataTypeSuffix
  }

  function Quoted(keys: seq<string>): (r: seq<string>)
    ensures |r| == |keys|
  {
    seq(|keys|, i requires 0 <= i < |keys| => "'" + keys[i] + "'")
  }

  /** The line announcing how many items will be converted. */
  function ConvertingLine(n: nat): string {
    ConvertingPrefix + Text.Decimal(n) + ConvertingSuffix
  }

  const ConvertingPrefix := "Converting "
  const ConvertingSuffix := " transactions..."
  const KeysPrefix := "Response keys: ["
  const KeysSuffix := "]"
  const KeySeparator := ", "

  function KeysLine(fields: seq<(string, Json)>): string {
    KeysPrefix + Text.Join(Quoted(Keys(fields)), KeySeparator) + KeysSuffix
  }

  // ---------------------------------------------------------------------
  // The world a run meets
  // ---------------------------------------------------------------------

  /**
   * The settings a run reads: `accounts_mapping`, if present, taken to be
   * the dict from arrangement id to account id that the transformer looks
   * arrangement ids up in.
   */
  datatype SyncConfig = SyncConfig(accountsMapping: Option<map<string, string>>)

  /** `self._config.get("accounts_mapping", {})`. */
  function MappingOf(c: SyncConfig): map<string, string> {
    if c.accountsMapping.Some? then c.accountsMapping.value else map[]
  }

  /** What waiting for the transaction response ends with. */
  datatype CaptureOutcome =
    | CaptureFailed(message: string)      // no matching response in time, or the page failed
    | Captured(body: Result<Json>)        // the body, as `json.loads` parses it (or its error)

  /** What `actual.init_actual` does. */
  datatype TokenOutcome =
    | Token(token: Json)                  // the `token` field of the reply
    | NoToken(networkError: string)       // a network error, logged; the call returns None
    | TokenRaised(message: string)        // any other exception

  /** What one `actual.import_transactions` call does. */
  datatype ImportOutcome =
    | Imported
    | ImportFailed(networkError: string)  // logged; the call returns None and the loop goes on
    | ImportRaised(message: string)

  datatype Env = Env(
    launchError: Option<string>,          // launching the browser, its context or page raised
    formError: Option<string>,            // navigation or the credential form raised
    shortWaitOk: bool,                    // the dashboard appeared within the short wait
    longWaitError: Option<string>,        // the long (OTP) wait raised
    stopDuringLogin: bool,                // `stop_sync` ran while the login was awaited
    captureLines: seq<string>,            // lines logged while clicking through to the response
    capture: CaptureOutcome,
    rate: Convert.RateFeed,
    parseAmount: string -> Option<real>,
    token: TokenOutcome,
    imports: Convert.Group -> ImportOutcome)

  // ---------------------------------------------------------------------
  // The run, as functions on the observable state
  // ---------------------------------------------------------------------

  /** What the service exposes and does: status, last error, gate, emitted lines, import calls. */
  datatype State = State(
    status: AppStatus,
    lastError: string,
    running: bool,
    log: seq<string>,
    calls: seq<Convert.Group>)

  /** A state and the message of the exception in flight, if any. */
  datatype Step = Step(st: State, raised: Option<string>)

  function WithLine(st: State, line: string): State {
    st.(log := st.log + [line])
  }

  function WithLines(st: State, lines: seq<string>): State {
    st.(log := st.log + lines)
  }

  /** `_set_status`. */
  function WithStatus(st: State, s: AppStatus): State {
    WithLine(st.(status := s), StatusLine(s))
  }

  /** An exception handler: log the message, record it, set `ERROR`. */
  function Fail(st: State, prefix: string, message: string): State {
    WithStatus(WithLine(st, prefix + message).(lastError := message), Error)
  }

  /** `start_sync`. */
  function Start(st: State): Result<State> {
    if st.running then Err(AlreadyRunning) else Ok(st.(running := true))
  }

  /** `_process_login`. */
  function Login(st: State, env: Env): Step {
    var s0 := WithLine(WithStatus(st, LoggingIn), NavigatingLine);
    if env.formError.Some? then Step(s0, env.formError)
    else
      var s1 := WithLine(s0, AwaitingLoginLine);
      var s2 := if env.shortWaitOk then s1 else WithStatus(s1, WaitingOtp);
      if !env.shortWaitOk && env.longWaitError.Some? then Step(s2, env.longWaitError)
      else Step(WithLine(WithStatus(s2, LoggingIn), LoggedInLine), None)
  }

  /** The import loop over the groups, written from its last iteration back. */
  function Imports(st: State, groups: seq<Convert.Group>, imports: Convert.Group -> ImportOutcome): Step
    decreases |groups|
  {
    if groups == [] then Step(st, None)
    else
      var r := Imports(st, groups[..|groups| - 1], imports);
      if r.raised.Some? then r else ImportOne(r.st, groups[|groups| - 1], imports(groups[|groups| - 1]))
  }

  function ImportOne(st: State, g: Convert.Group, outcome: ImportOutcome): Step {
    var s := st.(calls := st.calls + [g]);
    match outcome
    case Imported => Step(s, None)
    case ImportFailed(e) => Step(WithLine(s, NetworkErrorLine(e)), None)
    case ImportRaised(m) => Step(s, Some(m))
  }

  /** The token request and the imports, once the groups are known. */
  function Upload(st: State, groups: seq<Convert.Group>, env: Env): Step {
    match env.token
    case TokenRaised(m) => Step(st, Some(m))
    case NoToken(e) => Step(WithLine(st, NetworkErrorLine(e)), Some(NoTokenError))
    case Token(t) =>
      if !Truthy(t) then Step(st, Some(NoTokenError))
      else
        var r := Imports(WithLine(st, ImportingLine), groups, env.imports);
        if r.raised.Some? then r else Step(WithStatus(r.st, Success), None)
  }

  /** `_process_save`. */
  function Save(st: State, body: Result<Json>, mapping: map<string, string>, env: Env): Step {
    var s0 := WithStatus(st, SavingData);
    if body.Err? then Step(s0, Some(body.message))
    else ConvertAndSend(Inspect(s0, body.value), body.value, mapping, env)
  }

  /** The diagnostic lines about the parsed body, and the warning when no list is found. */
  function Inspect(st: State, j: Json): State {
    var s1 := WithLine(st, DataTypeLine(j));
    var s2 := if j.JObj? then WithLine(s1, KeysLine(j.fields)) else s1;
    if Response.WarnsNoList(Response.Extract(j)) then WithLine(s2, NoListWarning) else s2
  }

  /** `len`, the conversion, then the upload. */
  function ConvertAndSend(st: State, j: Json, mapping: map<string, string>, env: Env): Step {
    var list := Response.Normalize(Response.Extract(j));
    var n := Length(list);
    if n.Err? then Step(st, Some(n.message))
    else
      var s := WithLine(st, ConvertingLine(n.value));
      var converted := Response.ConvertResponse(list, mapping, env.rate, env.parseAmount);
      if converted.Err? then Step(s, Some(converted.message))
      else Upload(WithLine(s, TokenLine), converted.value, env)
  }

  /** `_process_fetch`: its handler logs and records the error, then re-raises it. */
  function Fetch(st: State, mapping: map<string, string>, env: Env): Step {
    var s0 := WithLines(WithLine(WithStatus(st, FetchingData), FetchingLine), env.captureLines);
    var r := if env.capture.CaptureFailed? then Step(s0, Some(env.capture.message))
             else Save(s0, env.capture.body, mapping, env);
    if r.raised.None? then r
    else Step(Fail(r.st, FetchFailedPrefix, r.raised.value), r.raised)
  }

  /** Login, then fetch when the gate is still open. */
  function LoginThenFetch(st: State, mapping: map<string, string>, env: Env): Step {
    var l := Login(st, env);
    if l.raised.Some? then l
    else
      var s := if env.stopDuringLogin then l.st.(running := false) else l.st;
      if s.running then Fetch(s, mapping, env) else Step(s, None)
  }

  /** The `finally` block. */
  function Teardown(st: State): State {
    var s := st.(running := false);
    if s.status != Error && s.status != Success then WithStatus(s, Idle) else s
  }

  /** The `try` body of `_run_process`: `STARTING`, the launch, then login and fetch. */
  function Attempt(st: State, mapping: map<string, string>, env: Env): Step {
    var s0 := WithStatus(st, Starting);
    if env.launchError.Some? then Step(s0, env.launchError) else LoginThenFetch(s0, mapping, env)
  }

  /** The `except` and `finally` clauses of `_run_process`. */
  function Finish(r: Step): State {
    var s1 := if r.raised.Some? then Fail(r.st, SyncErrorPrefix, r.raised.value) else r.st;
    Teardown(s1)
  }

  /** `_run_process`. */
  function Run(st: State, mapping: map<string, string>, env: Env): State {
    Finish(Attempt(st, mapping, env))
  }

  // ---------------------------------------------------------------------
  // Reference conditions for the outcome of a run
  // ---------------------------------------------------------------------

  /** The login step completes. */
  predicate LoginSucceeds(env: Env) {
    env.formError.None? && (env.shortWaitOk || env.longWaitError.None?)
  }

  /** The groups a captured body converts into, or the error that stops it. */
  function Plan(body: Result<Json>, mapping: map<string, string>, env: Env): Result<seq<Convert.Group>> {
    if body.Err? then Err(body.message)
    else
      var list := Response.Normalize(Response.Extract(body.value));
      if Length(list).Err? then Err(Length(list).message)
      else Response.ConvertResponse(list, mapping, env.rate, env.parseAmount)
  }

  /** A token the import can use. */
  predicate TokenUsable(env: Env) {
    env.token.Token? && Truthy(env.token.token)
  }

  /** No import call raises. */
  predicate ImportsSucceed(groups: seq<Convert.Group>, imports: Convert.Group -> ImportOutcome) {
    forall i :: 0 <= i < |groups| ==> !imports(groups[i]).ImportRaised?
  }

  /** The fetch and save steps complete: a body, its groups, a usable token, and no import raising. */
  predicate FetchSucceeds(mapping: map<string, string>, env: Env) {
    && env.capture.Captured?
    && Plan(env.capture.body, mapping, env).Ok?
    && TokenUsable(env)
    && ImportsSucceed(Plan(env.capture.body, mapping, env).value, env.imports)
  }

  /** The fetch step is reached. */
  predicate FetchReached(st: State, env: Env) {
    env.launchError.None? && LoginSucceeds(env) && st.running && !env.stopDuringLogin
  }

  // ---------------------------------------------------------------------
  // Properties of a run
  // ---------------------------------------------------------------------

  /** A step only appends to the log and to the import calls. */
  predicate Extends(st: State, st': State) {
    st.log <= st'.log && st.calls <= st'.calls
  }

  /** A step that keeps the last error and the gate, and only appends. */
  predicate Keeps(st: State, st': State) {
    st'.lastError == st.lastError && st'.running == st.running && Extends(st, st')
  }

  lemma ExtendsTransitive(a: State, b: State, c: State)
    requires Extends(a, b) && Extends(b, c)
    ensures Extends(a, c)
  {
  }

  /** A raise inside the import loop ends it: later groups are not called. */
  lemma {:induction false} ImportsStop(st: State, groups: seq<Convert.Group>, k: nat, imports: Convert.Group -> ImportOutcome)
    requires k <= |groups| && Imports(st, groups[..k], imports).raised.Some?
    ensures Imports(st, groups, imports) == Imports(st, groups[..k], imports)
    decreases |groups| - k
  {
    if k < |groups| {
      assert groups[..|groups| - 1][..k] == groups[..k];
      ImportsStop(st, groups[..|groups| - 1], k, imports);
    } else {
      assert groups[..k] == groups;
    }
  }

  /** One more iteration of a loop that has not raised. */
  lemma ImportsNext(st: State, groups: seq<Convert.Group>, i: nat, imports: Convert.Group -> ImportOutcome)
    requires i < |groups| && Imports(st, groups[..i], imports).raised.None?
    ensures Imports(st, groups[..i + 1], imports) ==
              ImportOne(Imports(st, groups[..i], imports).st, groups[i], imports(groups[i]))
  {
    assert groups[..i + 1][..i] == groups[..i];
  }

  /** The import loop keeps status, error and gate, and issues a prefix of the groups: all of them when it completes. */
  lemma {:induction false} ImportsPrefix(st: State, groups: seq<Convert.Group>, imports: Convert.Group -> ImportOutcome)
    ensures var r := Imports(st, groups, imports);
      && r.st.status == st.status && Keeps(st, r.st)
      && (exists k :: 0 <= k <= |groups| && r.st.calls == st.calls + groups[..k])
      && (r.raised.None? ==> r.st.calls == st.calls + groups)
    decreases |groups|
  {
    var r := Imports(st, groups, imports);
    if groups == [] {
      assert r.st.calls == st.calls + groups[..0];
    } else {
      var n := |groups| - 1;
      var init := groups[..n];
      ImportsPrefix(st, init, imports);
      var p := Imports(st, init, imports);
      var k :| 0 <= k <= n && p.st.calls == st.calls + init[..k];
      assert init[..k] == groups[..k];
      if p.raised.None? {
        ImportOneKeeps(p.st, groups[n], imports(groups[n]));
        assert r == ImportOne(p.st, groups[n], imports(groups[n]));
        KeepsTransitive(st, p.st, r.st);
        assert groups == init + [groups[n]];
        assert r.st.calls == st.calls + groups[..|groups|];
      } else {
        assert r == p;
        assert r.st.calls == st.calls + groups[..k];
      }
    }
  }

  /** One iteration keeps status, error and gate, and records exactly its group. */
  lemma ImportOneKeeps(st: State, g: Convert.Group, outcome: ImportOutcome)
    ensures var r := ImportOne(st, g, outcome);
      r.st.status == st.status && Keeps(st, r.st) && r.st.calls == st.calls + [g]
  {
  }

  lemma KeepsTransitive(a: State, b: State, c: State)
    requires Keeps(a, b) && Keeps(b, c)
    ensures Keeps(a, c)
  {
    ExtendsTransitive(a, b, c);
  }

  /** The import loop completes exactly when no call raises. */
  lemma {:induction false} ImportsComplete(st: State, groups: seq<Convert.Group>, imports: Convert.Group -> ImportOutcome)
    ensures Imports(st, groups, imports).raised.None? <==> ImportsSucceed(groups, imports)
    decreases |groups|
  {
    if groups != [] {
      var n := |groups| - 1;
      var init := groups[..n];
      ImportsComplete(st, init, imports);
      if Imports(st, init, imports).raised.None? {
        if !imports(groups[n]).ImportRaised? {
          forall i | 0 <= i < |groups| ensures !imports(groups[i]).ImportRaised? {
            if i < n {
              assert groups[i] == init[i];
            }
          }
        }
      } else {
        var i :| 0 <= i < |init| && imports(init[i]).ImportRaised?;
        assert imports(groups[i]).ImportRaised?;
      }
    }
  }

  /** The import loop keeps status, error and gate, issues a prefix of the groups, and completes exactly when no call raises. */
  lemma ImportsSpec(st: State, groups: seq<Convert.Group>, imports: Convert.Group -> ImportOutcome)
    ensures var r := Imports(st, groups, imports);
      && r.st.status == st.status && Keeps(st, r.st)
      && (exists k :: 0 <= k <= |groups| && r.st.calls == st.calls + groups[..k])
      && (r.raised.None? ==> r.st.calls == st.calls + groups)
      && (r.raised.None? <==> ImportsSucceed(groups, imports))
  {
    ImportsPrefix(st, groups, imports);
    ImportsComplete(st, groups, imports);
  }

  /** The upload completes exactly with a usable token and no import raising; then it ends in `SUCCESS` with every group called. */
  lemma UploadOutcome(st: State, groups: seq<Convert.Group>, env: Env)
    ensures var r := Upload(st, groups, env);
      && (r.raised.None? <==> TokenUsable(env) && ImportsSucceed(groups, env.imports))
      && (r.raised.None? ==> r.st.status == Success && r.st.calls == st.calls + groups
                             && r.st.log[|r.st.log| - 1] == StatusLine(Success))
      && Keeps(st, r.st)
      && (!TokenUsable(env) ==> r.st.calls == st.calls)
  {
    if TokenUsable(env) {
      var s := WithLine(st, ImportingLine);
      ImportsSpec(s, groups, env.imports);
    }
  }

  lemma ConvertAndSendOutcome(st: State, j: Json, mapping: map<string, string>, env: Env)
    ensures var r := ConvertAndSend(st, j, mapping, env);
      var plan := Plan(Ok(j), mapping, env);
      && (r.raised.None? <==> plan.Ok? && TokenUsable(env) && ImportsSucceed(plan.value, env.imports))
      && (r.raised.None? ==> r.st.status == Success && r.st.calls == st.calls + plan.value
                             && r.st.log[|r.st.log| - 1] == StatusLine(Success))
      && Keeps(st, r.st)
      && (!TokenUsable(env) ==> r.st.calls == st.calls)
  {
    var plan := Plan(Ok(j), mapping, env);
    var list := Response.Normalize(Response.Extract(j));
    var n := Length(list);
    if plan.Ok? {
      var s := WithLine(st, ConvertingLine(n.value));
      var s' := WithLine(s, TokenLine);
      UploadOutcome(s', plan.value, env);
      ExtendsTransitive(st, s', Upload(s', plan.value, env).st);
    }
  }

  /** `_process_save` completes exactly when the body converts, the token is usable and no import raises. */
  lemma SaveOutcome(st: State, body: Result<Json>, mapping: map<string, string>, env: Env)
    ensures var r := Save(st, body, mapping, env);
      var plan := Plan(body, mapping, env);
      && (r.raised.None? <==> plan.Ok? && TokenUsable(env) && ImportsSucceed(plan.value, env.imports))
      && (r.raised.None? ==> r.st.status == Success && r.st.calls == st.calls + plan.value
                             && r.st.log[|r.st.log| - 1] == StatusLine(Success))
      && Keeps(st, r.st)
      && (!TokenUsable(env) ==> r.st.calls == st.calls)
  {
    if body.Ok? {
      var s := Inspect(WithStatus(st, SavingData), body.value);
      ConvertAndSendOutcome(s, body.value, mapping, env);
      ExtendsTransitive(st, s, ConvertAndSend(s, body.value, mapping, env).st);
    }
  }

  /** `_process_fetch` completes exactly when the save does, ending in `SUCCESS` with every group imported. */
  lemma FetchSuccess(st: State, mapping: map<string, string>, env: Env)
    ensures var r := Fetch(st, mapping, env);
      && (r.raised.None? <==> FetchSucceeds(mapping, env))
      && (r.raised.None? ==> r.st.status == Success && r.st.lastError == st.lastError
                             && r.st.calls == st.calls + Plan(env.capture.body, mapping, env).value
                             && r.st.log[|r.st.log| - 1] == StatusLine(Success))
  {
    var s0 := WithLines(WithLine(WithStatus(st, FetchingData), FetchingLine), env.captureLines);
    if env.capture.Captured? {
      SaveOutcome(s0, env.capture.body, mapping, env);
    }
  }

  /** `_process_fetch` leaves the gate alone, only appends to the log and calls, and imports nothing without a token. */
  lemma FetchFrame(st: State, mapping: map<string, string>, env: Env)
    ensures var r := Fetch(st, mapping, env);
      && r.st.running == st.running && Extends(st, r.st)
      && (!TokenUsable(env) ==> r.st.calls == st.calls)
  {
    var s0 := WithLines(WithLine(WithStatus(st, FetchingData), FetchingLine), env.captureLines);
    if env.capture.Captured? {
      SaveOutcome(s0, env.capture.body, mapping, env);
      ExtendsTransitive(st, s0, Save(s0, env.capture.body, mapping, env).st);
    }
  }

  /** When `_process_fetch` raises, its handler has logged the message, recorded it and set `ERROR`. */
  lemma FetchFailure(st: State, mapping: map<string, string>, env: Env)
    requires Fetch(st, mapping, env).raised.Some?
    ensures var r := Fetch(st, mapping, env);
      && r.st.status == Error && r.st.lastError == r.raised.value
      && |r.st.log| >= 2
      && r.st.log[|r.st.log| - 2..] == [FetchFailedPrefix + r.raised.value, StatusLine(Error)]
  {
  }

  /** Login completes exactly when the form goes through and either wait succeeds; it ends in `LOGGING_IN`. */
  lemma LoginOutcome(st: State, env: Env)
    ensures var r := Login(st, env);
      && (r.raised.None? <==> LoginSucceeds(env))
      && (r.raised.None? ==> r.st.status == LoggingIn)
      && (r.raised.Some? ==> r.st.status == (if env.formError.Some? then LoggingIn else WaitingOtp))
      && Keeps(st, r.st) && r.st.calls == st.calls
  {
  }

  /** How login-then-fetch ends: completed in `LOGGING_IN` (no fetch) or `SUCCESS`, or raising. */
  lemma LoginThenFetchOutcome(st: State, mapping: map<string, string>, env: Env)
    ensures var r := LoginThenFetch(st, mapping, env);
      var fetched := LoginSucceeds(env) && st.running && !env.stopDuringLogin;
      && (r.raised.None? ==> r.st.status == (if fetched then Success else LoggingIn))
      && (r.raised.None? <==> LoginSucceeds(env) && (fetched ==> FetchSucceeds(mapping, env)))
      && (r.raised.None? && fetched ==>
            r.st.calls == st.calls + Plan(env.capture.body, mapping, env).value
            && r.st.log[|r.st.log| - 1] == StatusLine(Success))
      && (r.raised.None? ==> r.st.lastError == st.lastError)
      && (!fetched ==> r.st.calls == st.calls)
      && (!TokenUsable(env) ==> r.st.calls == st.calls)
      && Extends(st, r.st)
  {
    LoginOutcome(st, env);
    var l := Login(st, env);
    if l.raised.None? {
      var s := if env.stopDuringLogin then l.st.(running := false) else l.st;
      if s.running {
        FetchSuccess(s, mapping, env);
        FetchFrame(s, mapping, env);
        ExtendsTransitive(st, s, Fetch(s, mapping, env).st);
      }
    }
  }

  /** How the `try` body ends: completed in `LOGGING_IN` (no fetch) or `SUCCESS`, or raising. */
  lemma AttemptOutcome(st: State, mapping: map<string, string>, env: Env)
    ensures var a := Attempt(st, mapping, env);
      && (a.raised.None? <==>
            env.launchError.None? && LoginSucceeds(env) && (FetchReached(st, env) ==> FetchSucceeds(mapping, env)))
      && (a.raised.None? ==> a.st.status == (if FetchReached(st, env) then Success else LoggingIn)
                             && a.st.lastError == st.lastError)
      && (a.raised.None? && FetchReached(st, env) ==>
            a.st.calls == st.calls + Plan(env.capture.body, mapping, env).value
            && a.st.log[|a.st.log| - 1] == StatusLine(Success))
      && (!FetchReached(st, env) ==> a.st.calls == st.calls)
      && (!TokenUsable(env) ==> a.st.calls == st.calls)
      && Extends(st, a.st) && |a.st.log| > |st.log|
  {
    var s0 := WithStatus(st, Starting);
    if env.launchError.None? {
      LoginThenFetchOutcome(s0, mapping, env);
      ExtendsTransitive(st, s0, LoginThenFetch(s0, mapping, env).st);
    }
  }

  /** The handler and the `finally` clause: `ERROR` after a raise, otherwise `SUCCESS` kept or `IDLE` set. */
  lemma FinishSpec(r: Step)
    requires r.raised.None? ==> r.st.status != Error
    requires r.raised.None? && r.st.status == Success ==> |r.st.log| > 0 && r.st.log[|r.st.log| - 1] == StatusLine(Success)
    ensures var f := Finish(r);
      && Terminal(f.status) && !f.running && Extends(r.st, f)
      && |f.log| > 0 && f.log[|f.log| - 1] == StatusLine(f.status)
      && f.status == (if r.raised.Some? then Error else if r.st.status == Success then Success else Idle)
      && f.lastError == (if r.raised.Some? then r.raised.value else r.st.lastError)
      && f.calls == r.st.calls
      && (r.raised.Some? ==> f.log == r.st.log + [SyncErrorPrefix + f.lastError, StatusLine(Error)])
  {
  }

  /** The status, error and calls the handler and the `finally` clause leave. */
  lemma FinishStatus(r: Step)
    requires r.raised.None? ==> r.st.status != Error
    ensures var f := Finish(r);
      && f.status == (if r.raised.Some? then Error else if r.st.status == Success then Success else Idle)
      && f.lastError == (if r.raised.Some? then r.raised.value else r.st.lastError)
      && f.calls == r.st.calls
  {
  }

  /** Every run ends with the gate closed in `IDLE`, `ERROR` or `SUCCESS`, its last line reports that status, and a new start is accepted. */
  lemma RunTerminal(st: State, mapping: map<string, string>, env: Env)
    ensures var r := Run(st, mapping, env);
      && Terminal(r.status) && !r.running
      && Extends(st, r)
      && |r.log| > |st.log| && r.log[|r.log| - 1] == StatusLine(r.status)
      && Start(r).Ok?
  {
    AttemptOutcome(st, mapping, env);
    FinishTerminal(st, Attempt(st, mapping, env));
  }

  /** The `finally` clause after any `try` body that only appended to the state it started from. */
  lemma FinishTerminal(st: State, a: Step)
    requires Extends(st, a.st) && |a.st.log| > |st.log|
    requires a.raised.None? ==> a.st.status != Error
    requires a.raised.None? && a.st.status == Success ==> a.st.log[|a.st.log| - 1] == StatusLine(Success)
    ensures var r := Finish(a);
      && Terminal(r.status) && !r.running
      && Extends(st, r)
      && |r.log| > |st.log| && r.log[|r.log| - 1] == StatusLine(r.status)
      && Start(r).Ok?
  {
    FinishSpec(a);
    ExtendsTransitive(st, a.st, Finish(a));
  }

  /** The run ends in `IDLE` exactly when launch and login complete but the gate was closed before the fetch. */
  lemma RunIdle(st: State, mapping: map<string, string>, env: Env)
    ensures Run(st, mapping, env).status == Idle <==>
              env.launchError.None? && LoginSucceeds(env) && (!st.running || env.stopDuringLogin)
    ensures Run(st, mapping, env).status == Idle ==>
              Run(st, mapping, env).lastError == st.lastError && Run(st, mapping, env).calls == st.calls
  {
    AttemptOutcome(st, mapping, env);
    FinishStatus(Attempt(st, mapping, env));
  }

  /** The run ends in `SUCCESS` exactly when every step completes; then every group was imported once, in order. */
  lemma RunSuccess(st: State, mapping: map<string, string>, env: Env)
    ensures Run(st, mapping, env).status == Success <==> FetchReached(st, env) && FetchSucceeds(mapping, env)
    ensures Run(st, mapping, env).status == Success ==>
              Run(st, mapping, env).calls == st.calls + Plan(env.capture.body, mapping, env).value
              && Run(st, mapping, env).lastError == st.lastError
  {
    AttemptOutcome(st, mapping, env);
    FinishStatus(Attempt(st, mapping, env));
  }

  /** Any failure ends in `ERROR`, with its message recorded and logged just before the final status line. */
  lemma RunError(st: State, mapping: map<string, string>, env: Env)
    ensures Run(st, mapping, env).status == Error <==>
              !(env.launchError.None? && LoginSucceeds(env) && (!st.running || env.stopDuringLogin))
              && !(FetchReached(st, env) && FetchSucceeds(mapping, env))
    ensures var r := Run(st, mapping, env);
      r.status == Error ==> |r.log| >= 2 && r.log[|r.log| - 2..] == [SyncErrorPrefix + r.lastError, StatusLine(Error)]
  {
    var a := Attempt(st, mapping, env);
    AttemptOutcome(st, mapping, env);
    FinishSpec(a);
    if a.raised.Some? {
      var f := Finish(a);
      assert f.log[|f.log| - 2..] == [SyncErrorPrefix + f.lastError, StatusLine(Error)];
    }
  }

  /** A fetch failure is logged and recorded twice: by the fetch step's handler, then by the run's. */
  lemma FetchErrorReportedTwice(st: State, mapping: map<string, string>, env: Env)
    requires FetchReached(st, env) && !FetchSucceeds(mapping, env)
    ensures var r := Run(st, mapping, env);
      && r.status == Error && |r.log| >= 4
      && r.log[|r.log| - 4..] == [FetchFailedPrefix + r.lastError, StatusLine(Error),
                                  SyncErrorPrefix + r.lastError, StatusLine(Error)]
  {
    var l := Login(WithStatus(st, Starting), env);
    AttemptIsFetch(st, mapping, env);
    FetchSuccess(l.st, mapping, env);
    FetchFrame(l.st, mapping, env);
    FetchFailure(l.st, mapping, env);
    FinishAfterFetchFailure(Attempt(st, mapping, env));
  }

  /** When the fetch is reached, the `try` body ends as the fetch step does. */
  lemma AttemptIsFetch(st: State, mapping: map<string, string>, env: Env)
    requires FetchReached(st, env)
    ensures Attempt(st, mapping, env) == Fetch(Login(WithStatus(st, Starting), env).st, mapping, env)
    ensures Login(WithStatus(st, Starting), env).st.running
  {
    LoginOutcome(WithStatus(st, Starting), env);
  }

  /** The run's handler after the fetch step's: the two reports sit at the end of the log. */
  lemma FinishAfterFetchFailure(a: Step)
    requires a.raised.Some? && |a.st.log| >= 2
    requires a.st.log[|a.st.log| - 2..] == [FetchFailedPrefix + a.raised.value, StatusLine(Error)]
    ensures var f := Finish(a);
      && f.status == Error && f.lastError == a.raised.value && |f.log| >= 4
      && f.log[|f.log| - 4..] == [FetchFailedPrefix + f.lastError, StatusLine(Error),
                                  SyncErrorPrefix + f.lastError, StatusLine(Error)]
  {
    var f := Finish(a);
    assert f.log == a.st.log + [SyncErrorPrefix + a.raised.value, StatusLine(Error)];
    assert f.log[|f.log| - 4..] == a.st.log[|a.st.log| - 2..] + [SyncErrorPrefix + a.raised.value, StatusLine(Error)];
  }

  /** Without a usable token no import call is made. */
  lemma NoImportWithoutToken(st: State, mapping: map<string, string>, env: Env)
    requires !TokenUsable(env)
    ensures Run(st, mapping, env).calls == st.calls
  {
    AttemptOutcome(st, mapping, env);
    FinishStatus(Attempt(st, mapping, env));
  }

  /** Logging the lines one at a time. */
  lemma WithLinesNext(st: State, lines: seq<string>, k: nat)
    requires k < |lines|
    ensures WithLine(WithLines(st, lines[..k]), lines[k]) == WithLines(st, lines[..k + 1])
  {
    assert lines[..k + 1] == lines[..k] + [lines[k]];
  }

  // ---------------------------------------------------------------------
  // The service object
  // ---------------------------------------------------------------------

  class BankingService {
    var status: AppStatus
    var lastError: string
    var running: bool
    var config: Option<SyncConfig>
    const logs: LogBuffer.LogDeque
    const handler: LogBuffer.ListHandler
    /** The import calls issued so far. */
    ghost var calls: seq<Convert.Group>

    /** The handler writes into the service's deque, and the deque holds the newest 50 lines emitted. */
    ghost predicate Valid()
      reads this, handler, logs
    {
      && handler.logList == logs
      && logs.maxLen == MaxLogs
      && handler.maxLen == HandlerLimit
      && handler.Valid()
    }

    ghost function Observed(): State
      reads this, handler
    {
      State(status, lastError, running, handler.emitted, calls)
    }

    constructor ()
      ensures Valid() && fresh(logs) && fresh(handler)
      ensures Observed() == State(Idle, "", false, [], []) && config == None
    {
      status := Idle;
      lastError := "";
      running := false;
      config := None;
      calls := [];
      var d := new LogBuffer.LogDeque(MaxLogs);
      logs := d;
      handler := new LogBuffer.ListHandler(d, HandlerLimit);
    }

    /** The `logs` property: the newest lines emitted, at most 50 of them, oldest first. */
    method Logs() returns (r: seq<string>)
      requires Valid()
      ensures r == LogBuffer.LastN(handler.emitted, MaxLogs)
      ensures |r| <= MaxLogs && (|handler.emitted| > 0 ==> |r| > 0 && r[|r| - 1] == handler.emitted[|handler.emitted| - 1])
    {
      r := logs.items;
    }

    /** One `logger` call reaching the handler; the deque's bound is the one that evicts. */
    method Log(msg: string)
      requires Valid()
      modifies handler, logs
      ensures Valid() && Observed() == WithLine(old(Observed()), msg)
      ensures logs.items == LogBuffer.LastN(old(logs.items) + [msg], MaxLogs)
    {
      handler.Emit(msg);
    }

    /** Several lines, in order. */
    method LogAll(lines: seq<string>)
      requires Valid()
      modifies handler, logs
      ensures Valid() && Observed() == WithLines(old(Observed()), lines)
    {
      ghost var st0 := Observed();
      for k := 0 to |lines|
        invariant Valid() && Observed() == WithLines(st0, lines[..k])
      {
        ghost var before := Observed();
        Log(lines[k]);
        WithLinesNext(st0, lines, k);
        assert Observed() == WithLine(before, lines[k]);
      }
      assert lines[..|lines|] == lines;
    }

    /** `_set_status`: one status, one line. */
    method SetStatus(s: AppStatus)
      requires Valid()
      modifies this, handler, logs
      ensures Valid() && Observed() == WithStatus(old(Observed()), s) && config == old(config)
    {
      status := s;
      Log(StatusLine(s));
    }

    /** `start_sync` (the second definition, which replaces the first): refused while running. */
    method StartSync(cfg: SyncConfig) returns (err: Option<string>)
      requires Valid()
      modifies this
      ensures Valid()
      ensures Start(old(Observed())).Err? ==>
                err == Some(AlreadyRunning) && Observed() == old(Observed()) && config == old(config)
      ensures Start(old(Observed())).Ok? ==>
                err == None && Observed() == Start(old(Observed())).value && config == Some(cfg)
    {
      if running {
        return Some(AlreadyRunning);
      }
      running := true;
      config := Some(cfg);
      err := None;
    }

    /** `stop_sync`: closes the gate and nothing else. */
    method StopSync()
      requires Valid()
      modifies this
      ensures Valid()
      ensures Observed() == old(Observed()).(running := false) && config == old(config)
    {
      running := false;
    }

    method FailWith(prefix: string, message: string)
      requires Valid()
      modifies this, handler, logs
      ensures Valid() && Observed() == Fail(old(Observed()), prefix, message) && config == old(config)
    {
      ghost var s1 := WithLine(old(Observed()), prefix + message);
      Log(prefix + message);
      assert Observed() == s1;
      lastError := message;
      assert Observed() == s1.(lastError := message);
      SetStatus(Error);
    }

    /** `_process_login`. */
    method ProcessLogin(env: Env) returns (raised: Option<string>)
      requires Valid()
      modifies this, handler, logs
      ensures Valid() && Step(Observed(), raised) == Login(old(Observed()), env) && config == old(config)
    {
      SetStatus(LoggingIn);
      Log(NavigatingLine);
      if env.formError.Some? {
        return env.formError;
      }
      Log(AwaitingLoginLine);
      if !env.shortWaitOk {
        SetStatus(WaitingOtp);
        if env.longWaitError.Some? {
          return env.longWaitError;
        }
      }
      SetStatus(LoggingIn);
      Log(LoggedInLine);
      raised := None;
    }

    /** One iteration: record the call, then log a network error or report a raise. */
    method ImportGroup(g: Convert.Group, outcome: ImportOutcome) returns (raised: Option<string>)
      requires Valid()
      modifies this, handler, logs
      ensures Valid() && Step(Observed(), raised) == ImportOne(old(Observed()), g, outcome) && config == old(config)
    {
      ghost var s := old(Observed()).(calls := old(Observed()).calls + [g]);
      calls := calls + [g];
      assert Observed() == s;
      raised := None;
      match outcome {
        case Imported =>
        case ImportFailed(e) =>
          Log(NetworkErrorLine(e));
        case ImportRaised(m) =>
          raised := Some(m);
      }
    }

    /** The `for` loop over the converted groups. */
    method ImportAll(groups: seq<Convert.Group>, imports: Convert.Group -> ImportOutcome) returns (raised: Option<string>)
      requires Valid()
      modifies this, handler, logs
      ensures Valid() && Step(Observed(), raised) == Imports(old(Observed()), groups, imports) && config == old(config)
    {
      ghost var st0 := old(Observed());
      var i := 0;
      while i < |groups|
        invariant 0 <= i <= |groups|
        invariant Valid() && config == old(config)
        invariant Step(Observed(), None) == Imports(st0, groups[..i], imports)
      {
        ImportsNext(st0, groups, i, imports);
        raised := ImportGroup(groups[i], imports(groups[i]));
        if raised.Some? {
          ImportsStop(st0, groups, i + 1, imports);
          return;
        }
        i := i + 1;
      }
      assert groups[..i] == groups;
      raised := None;
    }

    /** The token request, the imports and the final `SUCCESS`. */
    method SendToActual(groups: seq<Convert.Group>, env: Env) returns (raised: Option<string>)
      requires Valid()
      modifies this, handler, logs
      ensures Valid() && Step(Observed(), raised) == Upload(old(Observed()), groups, env) && config == old(config)
    {
      match env.token {
        case TokenRaised(m) =>
          return Some(m);
        case NoToken(e) =>
          Log(NetworkErrorLine(e));
          return Some(NoTokenError);
        case Token(t) =>
          if !Truthy(t) {
            return Some(NoTokenError);
          }
      }
      Log(ImportingLine);
      raised := ImportAll(groups, env.imports);
      if raised.None? {
        SetStatus(Success);
      }
    }

    /** `_process_save`. */
    method ProcessSave(body: Result<Json>, mapping: map<string, string>, env: Env) returns (raised: Option<string>)
      requires Valid()
      modifies this, handler, logs
      ensures Valid() && Step(Observed(), raised) == Save(old(Observed()), body, mapping, env) && config == old(config)
    {
      SetStatus(SavingData);
      if body.Err? {
        return Some(body.message);
      }
      var j := body.value;
      Log(DataTypeLine(j));
      if j.JObj? {
        Log(KeysLine(j.fields));
      }
      var extracted := Response.Extract(j);
      if Response.WarnsNoList(extracted) {
        Log(NoListWarning);
      }
      raised := ConvertAndSendAll(j, mapping, env);
    }

    /** `len`, the conversion, then the upload. */
    method ConvertAndSendAll(j: Json, mapping: map<string, string>, env: Env) returns (raised: Option<string>)
      requires Valid()
      modifies this, handler, logs
      ensures Valid() && Step(Observed(), raised) == ConvertAndSend(old(Observed()), j, mapping, env) && config == old(config)
    {
      var list := Response.Normalize(Response.Extract(j));
      var n := Length(list);
      if n.Err? {
        return Some(n.message);
      }
      Log(ConvertingLine(n.value));
      var converted := Response.ConvertResponse(list, mapping, env.rate, env.parseAmount);
      if converted.Err? {
        return Some(converted.message);
      }
      Log(TokenLine);
      raised := SendToActual(converted.value, env);
    }

    /** `_process_fetch`. */
    method ProcessFetch(mapping: map<string, string>, env: Env) returns (raised: Option<string>)
      requires Valid()
      modifies this, handler, logs
      ensures Valid() && Step(Observed(), raised) == Fetch(old(Observed()), mapping, env) && config == old(config)
    {
      SetStatus(FetchingData);
      Log(FetchingLine);
      LogAll(env.captureLines);
      if env.capture.CaptureFailed? {
        raised := Some(env.capture.message);
      } else {
        raised := ProcessSave(env.capture.body, mapping, env);
      }
      if raised.Some? {
        FailWith(FetchFailedPrefix, raised.value);
      }
    }

    /** `_run_process`, started by `start_sync`. */
    method RunProcess(env: Env)
      requires Valid() && config.Some?
      modifies this, handler, logs
      ensures Valid() && config == old(config)
      ensures Observed() == Run(old(Observed()), MappingOf(config.value), env)
    {
      var mapping := MappingOf(config.value);
      SetStatus(Starting);
      var raised: Option<string>;
      if env.launchError.Some? {
        raised := env.launchError;
      } else {
        ghost var before := Observed();
        raised := ProcessLogin(env);
        if raised.None? {
          if env.stopDuringLogin {
            StopSync();
          }
          if running {
            raised := ProcessFetch(mapping, env);
          }
        }
        assert Step(Observed(), raised) == LoginThenFetch(before, mapping, env);
      }
      if raised.Some? {
        FailWith(SyncErrorPrefix, raised.value);
      }
      running := false;
      if status != Error && status != Success {
        SetStatus(Idle);
      }
    }
  }
}
