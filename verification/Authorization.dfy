/** Governed parameters, their digest, and the check that an invocation is the approved one
    (app.py:778-800, 2735-2818). */
module Authorization {
  import opened Basics
  import opened PyText

  /** A JSON value, as request parameters hold it. */
  datatype Json =
    | Null
    | Bool(b: bool)
    | Number(n: real)
    | Text(s: string)
    | Items(items: seq<Json>)
    | Object(fields: map<string, Json>)

  /** A parameter name: the names the handlers mention, and any other one. */
  datatype Key =
    | Command | Workdir | WorkspaceSessionId | Marker
    | ProposalId | RequestId | RunId | SessionId | Source | Context
    | Args | StdinText | TargetPath | WriteMode | StorageScope
    | Other(name: string)

  type Params = map<Key, Json>

  /** Trace keys, which approvals do not cover. `Marker` is "_governance_authorized". */
  predicate IsRuntime(key: Key) {
    key.ProposalId? || key.RequestId? || key.RunId? || key.SessionId? || key.Source? || key.Context?
  }

  /** The parameters an approval covers. */
  function NonRuntime(parameters: Params): Params {
    map key | key in parameters && !IsRuntime(key) :: parameters[key]
  }

  /** What the handlers read from their surroundings. `render` is `str()` on values that are
      not strings; `allows` is the command policy of app.py:293-316. */
  datatype Config = Config(
    workspaceRoot: string,
    maxSnapshotBytes: int,
    render: Json -> string,
    allows: string -> bool)

  predicate Truthy(v: Json) {
    match v
    case Null => false
    case Bool(b) => b
    case Number(n) => n != 0.0
    case Text(s) => s != ""
    case Items(items) => items != []
    case Object(fields) => fields != map[]
  }

  function Get(m: Params, key: Key): Json {
    if key in m then m[key] else Null
  }

  /** `str(v or "")` */
  function TextOf(cfg: Config, v: Json): string {
    if !Truthy(v) then "" else if v.Text? then v.s else cfg.render(v)
  }

  /** The parameters a digest covers: all but the trace keys, with the command trimmed. */
  function Governed(command: string, parameters: Params): Params {
    NonRuntime(parameters)[Command := Text(Strip(command))]
  }

  function InvocationDigest(command: string, parameters: Params): Digest<Params> {
    Sha256(Governed(command, parameters))
  }

  /** What an approval fixes. */
  datatype Approval = Approval(command: string, parameters: Params, digest: Digest<Params>, approved: bool)

  datatype Refusal = UnknownProposal | NotApproved | ParameterMismatch | ActionMismatch

  /** The incoming request overrides, by key, nothing that was approved. */
  predicate Clash(a: Approval, given: Params, key: Key) {
    !IsRuntime(key) && key in a.parameters && key in given && given[key] != a.parameters[key]
  }

  /** Incoming parameters completed by the approved ones. */
  function Completed(a: Approval, given: Params): Params {
    NonRuntime(a.parameters) + given
  }

  function Authorize(cfg: Config, a: Approval, incoming: Params): Result<Params, Refusal> {
    var given := incoming - {Marker};
    if !a.approved then Err(NotApproved)
    else if exists key | key in a.parameters :: Clash(a, given, key) then Err(ParameterMismatch)
    else
      var merged := Completed(a, given);
      var command := Strip(TextOf(cfg, Get(merged, Command)));
      if Strip(a.command) != command || a.digest != InvocationDigest(command, merged) then Err(ActionMismatch)
      else Ok(merged[Marker := Bool(true)])
  }

  function WithDefault(cfg: Config, m: Params, key: Key, value: string): Params {
    if Strip(TextOf(cfg, Get(m, key))) == "" then m[key := Text(value)] else m
  }

  /** Trace keys filled in before the tool runs. */
  function Traced(cfg: Config, m: Params, traceId: string): Params {
    var m1 := WithDefault(cfg, m, RequestId, traceId);
    var requestId := TextOf(cfg, Get(m1, RequestId));
    var m2 := WithDefault(cfg, m1, RunId, if requestId == "" then traceId else requestId);
    WithDefault(cfg, WithDefault(cfg, m2, Source, "api"), Context, "api.tools.sys.invoke")
  }

  /** The session's working directory, used when the request leaves it open. */
  function Located(m: Params, sessionRoot: Option<string>): Params {
    if !Truthy(Get(m, Workdir)) && !Truthy(Get(m, WorkspaceSessionId)) && Truthy(Get(m, SessionId))
       && sessionRoot.Some? && sessionRoot.value != ""
    then m[Workdir := Text(sessionRoot.value)] else m
  }

  /** What the tool is handed for an authorized request. */
  function Finalized(cfg: Config, authorized: Params, traceId: string, sessionRoot: Option<string>): Params {
    Located(Traced(cfg, authorized, traceId), sessionRoot)
  }

  // ---------------------------------------------------------------- what authorization means

  predicate SameAt(a: Params, b: Params, key: Key) {
    (key in a <==> key in b) && (key in a ==> a[key] == b[key])
  }

  /** An execution is the approved action: every key that is not a trace key, the marker, the
      command or the working directory is as approved; the command is as approved up to
      surrounding whitespace; the working directory is as approved, or was left empty there
      and is the session's. */
  ghost predicate Matches(cfg: Config, a: Approval, executed: Params, sessionRoot: Option<string>) {
    && (forall key :: !IsRuntime(key) && key !in {Marker, Command, Workdir} ==> SameAt(a.parameters, executed, key))
    && Strip(TextOf(cfg, Get(executed, Command))) == Strip(a.command)
    && (Command in a.parameters ==> SameAt(a.parameters, executed, Command))
    && (SameAt(a.parameters, executed, Workdir)
        || (!Truthy(Get(a.parameters, Workdir)) && sessionRoot.Some?
            && Get(executed, Workdir) == Text(sessionRoot.value)))
    && Get(executed, Marker) == Bool(true)
  }

  ghost predicate GoodDigest(a: Approval) {
    a.digest == InvocationDigest(a.command, a.parameters)
  }

  /** The request repeats the approved action: it adds no governed key, changes none, and
      names the approved command. */
  ghost predicate Repeats(cfg: Config, a: Approval, incoming: Params) {
    && (forall key :: key in incoming && !IsRuntime(key) && key !in {Marker, Command} ==>
          key in a.parameters && a.parameters[key] == incoming[key])
    && (Command in incoming && Command in a.parameters ==> incoming[Command] == a.parameters[Command])
    && var command := if Command in incoming then incoming[Command] else Get(a.parameters, Command);
       Strip(TextOf(cfg, command)) == Strip(a.command)
  }

  lemma CompletedCommand(a: Approval, given: Params)
    ensures Get(Completed(a, given), Command)
         == if Command in given then given[Command] else Get(a.parameters, Command)
  {
  }

  /** When the digests agree, the completed parameters and the approved ones agree on every
      governed key. */
  lemma DigestFixesKey(a: Approval, command: string, merged: Params, key: Key)
    requires GoodDigest(a) && a.digest == InvocationDigest(command, merged)
    requires !IsRuntime(key) && key != Command
    ensures SameAt(a.parameters, merged, key)
  {
    var l, r := Governed(a.command, a.parameters), Governed(command, merged);
    assert l == r;
    assert key in l <==> key in a.parameters;
    assert key in r <==> key in merged;
    if key in l {
      assert l[key] == a.parameters[key] && r[key] == merged[key];
    }
  }

  /** A request that repeats the approved action passes both checks. */
  lemma RepeatsIsAuthorized(cfg: Config, a: Approval, incoming: Params)
    requires GoodDigest(a) && a.approved && Repeats(cfg, a, incoming)
    ensures Authorize(cfg, a, incoming).Ok?
  {
    var given := incoming - {Marker};
    forall key | key in a.parameters ensures !Clash(a, given, key) {}
    var merged := Completed(a, given);
    CompletedCommand(a, given);
    var command := Strip(TextOf(cfg, Get(merged, Command)));
    assert Command in given <==> Command in incoming;
    assert command == Strip(a.command);
    StripIdempotent(a.command);
    var l, r := Governed(a.command, a.parameters), Governed(command, merged);
    assert l == r by {
      forall key ensures SameAt(l, r, key) {
        if key != Command && !IsRuntime(key) {
          assert key in given ==> key in incoming && key != Marker;
        }
      }
      MapsEqual(l, r);
    }
  }

  lemma MapsEqual(a: Params, b: Params)
    requires forall key :: SameAt(a, b, key)
    ensures a == b
  {
    forall key ensures key in a <==> key in b {
      assert SameAt(a, b, key);
    }
    forall key | key in a ensures a[key] == b[key] {
      assert SameAt(a, b, key);
    }
  }

  /** An authorized request repeats the approved action. */
  lemma AuthorizedRepeats(cfg: Config, a: Approval, incoming: Params)
    requires GoodDigest(a) && Authorize(cfg, a, incoming).Ok?
    ensures a.approved && Repeats(cfg, a, incoming)
  {
    var given := incoming - {Marker};
    var merged := Completed(a, given);
    CompletedCommand(a, given);
    var command := Strip(TextOf(cfg, Get(merged, Command)));
    forall key | key in incoming && !IsRuntime(key) && key !in {Marker, Command}
      ensures key in a.parameters && a.parameters[key] == incoming[key]
    {
      assert key in given && merged[key] == incoming[key];
      DigestFixesKey(a, command, merged, key);
    }
    if Command in incoming && Command in a.parameters {
      assert !Clash(a, given, Command);
    }
  }

  /** Authorization succeeds exactly for an approved proposal whose action the request
      repeats: an extra key, a changed value or another command is always refused. */
  lemma AuthorizedExactly(cfg: Config, a: Approval, incoming: Params)
    requires GoodDigest(a)
    ensures Authorize(cfg, a, incoming).Ok? <==> a.approved && Repeats(cfg, a, incoming)
  {
    if Authorize(cfg, a, incoming).Ok? {
      AuthorizedRepeats(cfg, a, incoming);
    } else if a.approved && Repeats(cfg, a, incoming) {
      RepeatsIsAuthorized(cfg, a, incoming);
    }
  }

  lemma AuthorizedMatches(cfg: Config, a: Approval, incoming: Params)
    requires GoodDigest(a) && Authorize(cfg, a, incoming).Ok?
    ensures Matches(cfg, a, Authorize(cfg, a, incoming).value, None)
  {
    var given := incoming - {Marker};
    var merged := Completed(a, given);
    var command := Strip(TextOf(cfg, Get(merged, Command)));
    var r := merged[Marker := Bool(true)];
    assert Authorize(cfg, a, incoming).value == r;
    forall key | !IsRuntime(key) && key !in {Marker, Command}
      ensures SameAt(a.parameters, r, key)
    {
      DigestFixesKey(a, command, merged, key);
      assert key in r <==> key in merged;
    }
    assert SameAt(a.parameters, r, Workdir);
    assert Get(r, Command) == Get(merged, Command);
    if Command in a.parameters {
      assert !Clash(a, given, Command);
      assert SameAt(a.parameters, r, Command);
    }
  }

  lemma DefaultKeepsMatch(cfg: Config, a: Approval, m: Params, key: Key, value: string)
    requires Matches(cfg, a, m, None) && IsRuntime(key)
    ensures Matches(cfg, a, WithDefault(cfg, m, key, value), None)
  {
    var r := WithDefault(cfg, m, key, value);
    assert Get(r, Command) == Get(m, Command) && Get(r, Workdir) == Get(m, Workdir) && Get(r, Marker) == Get(m, Marker);
    assert SameAt(a.parameters, m, Workdir) ==> SameAt(a.parameters, r, Workdir);
    assert SameAt(a.parameters, m, Command) ==> SameAt(a.parameters, r, Command);
    forall k | !IsRuntime(k) && k !in {Marker, Command, Workdir} ensures SameAt(a.parameters, r, k) {
      assert SameAt(a.parameters, m, k);
    }
  }

  lemma TraceKeepsMatch(cfg: Config, a: Approval, m: Params, traceId: string)
    requires Matches(cfg, a, m, None)
    ensures Matches(cfg, a, Traced(cfg, m, traceId), None)
  {
    DefaultKeepsMatch(cfg, a, m, RequestId, traceId);
    var m1 := WithDefault(cfg, m, RequestId, traceId);
    var requestId := TextOf(cfg, Get(m1, RequestId));
    var runId := if requestId == "" then traceId else requestId;
    DefaultKeepsMatch(cfg, a, m1, RunId, runId);
    var m2 := WithDefault(cfg, m1, RunId, runId);
    DefaultKeepsMatch(cfg, a, m2, Source, "api");
    DefaultKeepsMatch(cfg, a, WithDefault(cfg, m2, Source, "api"), Context, "api.tools.sys.invoke");
  }

  lemma LocationKeepsMatch(cfg: Config, a: Approval, m: Params, sessionRoot: Option<string>)
    requires Matches(cfg, a, m, None)
    ensures Matches(cfg, a, Located(m, sessionRoot), sessionRoot)
  {
    var r := Located(m, sessionRoot);
    if r != m {
      assert !Truthy(Get(a.parameters, Workdir));
      forall k | !IsRuntime(k) && k !in {Marker, Command, Workdir} ensures SameAt(a.parameters, r, k) {
        assert SameAt(a.parameters, m, k);
      }
      assert SameAt(a.parameters, m, Command) ==> SameAt(a.parameters, r, Command);
    }
  }

  /** Every governed execution is the approved action: what reaches the tool after the trace
      keys and the session directory were filled in still matches the approval. */
  lemma ExecutionMatchesApproval(cfg: Config, a: Approval, incoming: Params, traceId: string,
                                 sessionRoot: Option<string>)
    requires GoodDigest(a) && Authorize(cfg, a, incoming).Ok?
    ensures Matches(cfg, a, Finalized(cfg, Authorize(cfg, a, incoming).value, traceId, sessionRoot), sessionRoot)
  {
    var m := Authorize(cfg, a, incoming).value;
    AuthorizedMatches(cfg, a, incoming);
    TraceKeepsMatch(cfg, a, m, traceId);
    LocationKeepsMatch(cfg, a, Traced(cfg, m, traceId), sessionRoot);
  }

  /** What says what is written, where and how, is not a trace: it is as approved. */
  lemma EffectIsApproved(cfg: Config, a: Approval, executed: Params, sessionRoot: Option<string>, key: Key)
    requires Matches(cfg, a, executed, sessionRoot)
    requires key.Args? || key.StdinText? || key.TargetPath? || key.WriteMode? || key.StorageScope? || key.Other?
          || key.WorkspaceSessionId?
    ensures Get(executed, key) == Get(a.parameters, key)
  {
    assert SameAt(a.parameters, executed, key);
  }

  // ---------------------------------------------------------------- what is filled in

  /** The working directory of the session is filled in exactly when the request leaves the
      directory open, uses no temporary session, names a session, and that session has one;
      nothing else changes then. */
  lemma DirectoryIsFilledExactly(m: Params, sessionRoot: Option<string>)
    ensures var open := !Truthy(Get(m, Workdir)); var r := Located(m, sessionRoot);
            && (open && Truthy(Get(r, Workdir))
                <==> && open && !Truthy(Get(m, WorkspaceSessionId)) && Truthy(Get(m, SessionId))
                     && sessionRoot.Some? && sessionRoot.value != "")
            && (open && Truthy(Get(r, Workdir)) ==> Get(r, Workdir) == Text(sessionRoot.value))
            && (!open ==> SameAt(m, r, Workdir))
            && forall key | key != Workdir :: SameAt(m, r, key)
  {
  }

  /** A trace key is kept where it is not blank, and is the given text otherwise. */
  predicate KeptOr(cfg: Config, m: Params, r: Params, key: Key, text: string) {
    if Strip(TextOf(cfg, Get(m, key))) == "" then Get(r, key) == Text(text) else SameAt(m, r, key)
  }

  /** The request id is the one given, or the generated one; the run id the one given, or the
      request id; source and context say that the request came through the API. */
  lemma TraceIsFilled(cfg: Config, m: Params, traceId: string)
    requires traceId != ""
    ensures var r := Traced(cfg, m, traceId);
            && KeptOr(cfg, m, r, RequestId, traceId)
            && KeptOr(cfg, m, r, RunId, TextOf(cfg, Get(r, RequestId)))
            && KeptOr(cfg, m, r, Source, "api") && KeptOr(cfg, m, r, Context, "api.tools.sys.invoke")
            && forall key | key !in {RequestId, RunId, Source, Context} :: SameAt(m, r, key)
  {
    hide Strip;
    BlankIsBlank();
    var m1 := WithDefault(cfg, m, RequestId, traceId);
    assert TextOf(cfg, Get(m1, RequestId)) != "";
    var m2 := WithDefault(cfg, m1, RunId, TextOf(cfg, Get(m1, RequestId)));
    assert SameAt(m, m1, RunId) && SameAt(m1, m2, RequestId);
    var m3 := WithDefault(cfg, m2, Source, "api");
    assert SameAt(m, m2, Source) && SameAt(m2, m3, RequestId) && SameAt(m2, m3, RunId) && SameAt(m, m3, Context);
  }

  lemma BlankIsBlank()
    ensures Strip("") == ""
  {
  }
}
