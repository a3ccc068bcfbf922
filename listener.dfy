/** The tekton listener: a CloudEvents receiver that validates each event,
    and for a successful GitHub check suite submits a PipelineRun built from
    the template of its TektonListener resource. Cluster calls are inputs:
    whether the clients could be built, the TektonListener that Get returns,
    and whether the PipelineRun create call succeeds. */
module Listener {

  import opened Wrappers
  import opened GoStrings

  const CloudEventType := "cloudevent"
  const SupportedSpecVersion := "0.2"
  const CheckSuiteEventType := "com.github.checksuite"
  const RevisionParam := "Revision"
  const SuccessConclusion := "success"

  /** The decoded environment configuration (the fields the listener uses). */
  datatype Config = Config(
    event: string,
    eventType: string,
    namespace: string,
    serviceAccount: string,
    listenerResource: string,
    port: int,
    setBuildSha: bool)

  datatype Param = Param(name: string, value: string)

  /** A PipelineRun spec; only its parameters matter to the listener. */
  datatype PipelineRunSpec = PipelineRunSpec(pipelineRef: string, params: seq<Param>, serviceAccount: string)

  datatype PipelineRun = PipelineRun(name: string, namespace: string, spec: PipelineRunSpec)

  /** The TektonListener resource read at startup; its PipelineRun spec may
      be nil. */
  datatype TektonListenerResource = TektonListenerResource(name: string, pipelineRunSpec: Option<PipelineRunSpec>)

  /** CloudEvents context attributes used by the listener. */
  datatype EventContext = EventContext(specVersion: string, eventType: string)

  datatype CheckSuite = CheckSuite(conclusion: string, headSHA: string)

  datatype CheckSuitePayload = CheckSuitePayload(checkSuite: CheckSuite)

  /** An event body. JSON is not modelled: decoding it as a check-suite
      payload either gives the payload or fails with a reason. */
  datatype EventData = CheckSuiteJson(payload: CheckSuitePayload) | Undecodable(reason: string)

  datatype Event = Event(context: Option<EventContext>, data: EventData)

  datatype HandleError =
    | EmptyContext
    | UnsupportedSpecVersion
    | MismatchedEventType
    | CheckSuiteDecodeFailed(cause: string)
    | PipelineRunCreateFailed

  /** What a handler call comes to: it returns nil or an error, or the
      process halts in `log.Fatalf`. */
  datatype Outcome = Returned(err: Option<HandleError>) | Halted

  /** What createPipelineRun comes to: the created run and an error, or a halt. */
  datatype RunOutcome = RunReturned(run: PipelineRun, err: Option<string>) | RunHalted

  datatype StartupFailure =
    | NamespaceEmpty
    | ClientSetupFailed
    | ListenerGetFailed
    | NilPipelineRunSpec
    | InvalidEvent(event: string)

  /** How `main` ends: with a listener whose receiver starts, or fatally. */
  datatype Startup = Listening(listener: EventListener) | Fatal(reason: StartupFailure)

  /** The name every PipelineRun of a listener gets: the TektonListener's
      name, a dash and the port in decimal. */
  function RunName(listenerName: string, port: int): (name: string)
    ensures |listenerName| < |name| && name[..|listenerName| + 1] == listenerName + "-"
    ensures name[|listenerName| + 1..] == FormatInt(port)
    ensures ParseInt(name[|listenerName| + 1..]) == Some(port)
  {
    var name := listenerName + "-" + FormatInt(port);
    assert name[..|listenerName| + 1] == listenerName + "-";
    assert name[|listenerName| + 1..] == FormatInt(port);
    ParseFormatInt(port);
    name
  }

  /** The run name of a listener tells its port. */
  lemma RunNamePortInjective(listenerName: string, port1: int, port2: int)
    requires RunName(listenerName, port1) == RunName(listenerName, port2)
    ensures port1 == port2
  {
    var n := |listenerName| + 1;
    assert RunName(listenerName, port1)[n..] == RunName(listenerName, port2)[n..];
    FormatIntInjective(port1, port2);
  }

  /** Whether a parameter is the revision parameter (ASCII case-insensitive). */
  predicate IsRevision(p: Param)
  {
    EqualFold(p.name, RevisionParam)
  }

  /** A parameter name matches exactly when it lower-cases to `revision`. */
  lemma IsRevisionIffLower(p: Param)
    ensures IsRevision(p) <==> ToLower(p.name) == "revision"
  {
    EqualFoldIffSameLower(p.name, RevisionParam);
    assert ToLower(RevisionParam) == "revision";
  }

  /** The parameters with every revision parameter's value set to `sha`. */
  function WithRevision(params: seq<Param>, sha: string): (r: seq<Param>)
    ensures |r| == |params|
    ensures forall i :: 0 <= i < |params| && IsRevision(params[i]) ==> r[i] == Param(params[i].name, sha)
    ensures forall i :: 0 <= i < |params| && !IsRevision(params[i]) ==> r[i] == params[i]
  {
    if |params| == 0 then []
    else
      var head := if IsRevision(params[0]) then params[0].(value := sha) else params[0];
      [head] + WithRevision(params[1..], sha)
  }

  class EventListener {
    const event: string
    const eventType: string
    const namespace: string
    const runName: string
    const serviceAccount: string
    const runSpec: PipelineRunSpec
    const port: int
    const setBuildSha: bool

    constructor (cfg: Config, runName: string, runSpec: PipelineRunSpec)
      ensures event == cfg.event && eventType == cfg.eventType && namespace == cfg.namespace
      ensures this.runName == runName && this.runSpec == runSpec
      ensures serviceAccount == cfg.serviceAccount && port == cfg.port && setBuildSha == cfg.setBuildSha
    {
      event := cfg.event;
      eventType := cfg.eventType;
      port := cfg.port;
      namespace := cfg.namespace;
      this.runName := runName;
      this.runSpec := runSpec;
      setBuildSha := cfg.setBuildSha;
      serviceAccount := cfg.serviceAccount;
    }

    /** The checks HandleRequest makes before it dispatches, in order. */
    predicate Validated(ev: Event)
    {
      ev.context.Some?
      && ev.context.value.specVersion == SupportedSpecVersion
      && ev.context.value.eventType == eventType
    }

    /** HandleRequest: rejects an event with no context, then one of another
        CloudEvents version, then one of another type than configured; a
        check-suite event is decoded and handled, any other type ignored. */
    method HandleRequest(ev: Event, submitOk: bool) returns (o: Outcome, submitted: Option<PipelineRun>)
      ensures ev.context.None? ==> o == Returned(Some(EmptyContext)) && submitted.None?
      ensures ev.context.Some? && ev.context.value.specVersion != SupportedSpecVersion ==>
        o == Returned(Some(UnsupportedSpecVersion)) && submitted.None?
      ensures (ev.context.Some? && ev.context.value.specVersion == SupportedSpecVersion
               && ev.context.value.eventType != eventType) ==>
        o == Returned(Some(MismatchedEventType)) && submitted.None?
      ensures Validated(ev) && ev.context.value.eventType != CheckSuiteEventType ==>
        o == Returned(None) && submitted.None?
      ensures (Validated(ev) && ev.context.value.eventType == CheckSuiteEventType
               && ev.data.Undecodable?) ==>
        o == Returned(Some(CheckSuiteDecodeFailed(ev.data.reason))) && submitted.None?
      ensures submitted.Some? <==>
        Validated(ev) && ev.context.value.eventType == CheckSuiteEventType
        && ev.data.CheckSuiteJson? && ev.data.payload.checkSuite.conclusion == SuccessConclusion
      ensures submitted.Some? ==> submitted.value == PipelineRun(runName, namespace, runSpec)
      ensures (Validated(ev) && ev.context.value.eventType == CheckSuiteEventType
               && ev.data.CheckSuiteJson?) ==>
        o == (if submitted.Some? && !submitOk then Halted else Returned(None))
      ensures o.Halted? <==> submitted.Some? && !submitOk
      ensures o.Returned? && o.err.Some? ==> !o.err.value.PipelineRunCreateFailed?
    {
      if ev.context.None? {
        return Returned(Some(EmptyContext)), None;
      }
      if ev.context.value.specVersion != SupportedSpecVersion {
        return Returned(Some(UnsupportedSpecVersion)), None;
      }
      if ev.context.value.eventType != eventType {
        return Returned(Some(MismatchedEventType)), None;
      }
      o, submitted := Returned(None), None;
      if ev.context.value.eventType == CheckSuiteEventType {
        if ev.data.Undecodable? {
          return Returned(Some(CheckSuiteDecodeFailed(ev.data.reason))), None;
        }
        var cs := ev.data.payload;
        o, submitted := HandleCheckSuite(cs, submitOk);
      }
    }

    /** handleCheckSuite: a run is requested exactly for a successful check
        suite; the handler never returns an error, because a failed create
        halts the process instead. The Go handler also takes the event, but
        reads it only for the message of that unreachable error, so the
        model leaves it out. */
    method HandleCheckSuite(cs: CheckSuitePayload, submitOk: bool)
      returns (o: Outcome, submitted: Option<PipelineRun>)
      ensures submitted.Some? <==> cs.checkSuite.conclusion == SuccessConclusion
      ensures submitted.Some? ==> submitted.value == PipelineRun(runName, namespace, runSpec)
      ensures o == (if submitted.Some? && !submitOk then Halted else Returned(None))
    {
      o, submitted := Returned(None), None;
      if cs.checkSuite.conclusion == SuccessConclusion {
        var build, pr := CreatePipelineRun(cs.checkSuite.headSHA, submitOk);
        submitted := Some(pr);
        if build.RunHalted? {
          return Halted, submitted;
        }
        if build.err.Some? {
          // The wrapped PipelineRunCreateFailed error is never returned:
          // createPipelineRun halts rather than return an error.
          assert false;
        }
      }
    }

    /** createPipelineRun as written: the revision loop assigns to a copy of
        each parameter, so the submitted run carries the template's spec
        unchanged whatever `sha` and `setBuildSha` are. A failed create
        halts; no error is ever returned. */
    method CreatePipelineRun(sha: string, submitOk: bool) returns (o: RunOutcome, submitted: PipelineRun)
      ensures submitted.name == runName && submitted.namespace == namespace
      ensures submitted.spec == runSpec
      ensures submitOk ==> o == RunReturned(submitted, None)
      ensures !submitOk ==> o == RunHalted
    {
      var pr := PipelineRun(runName, namespace, PipelineRunSpec("", [], ""));
      pr := pr.(spec := runSpec);
      if setBuildSha {
        for i := 0 to |pr.spec.params| {
          var param := pr.spec.params[i];
          if EqualFold(param.name, RevisionParam) {
            param := param.(value := sha);
          }
        }
      }
      submitted := pr;
      if !submitOk {
        return RunHalted, submitted;
      }
      o := RunReturned(submitted, None);
    }

    /** createPipelineRun as evidently intended: the revision parameters of
        a copy of the template take the value `sha`, other parameters and the
        template itself are left as they are. */
    method CreatePipelineRunCorrected(sha: string, submitOk: bool) returns (o: RunOutcome, submitted: PipelineRun)
      ensures submitted.name == runName && submitted.namespace == namespace
      ensures submitted.spec.params == (if setBuildSha then WithRevision(runSpec.params, sha) else runSpec.params)
      ensures submitted.spec == runSpec.(params := submitted.spec.params)
      ensures submitOk ==> o == RunReturned(submitted, None)
      ensures !submitOk ==> o == RunHalted
    {
      var pr := PipelineRun(runName, namespace, runSpec);
      if setBuildSha {
        var params := pr.spec.params;
        for i := 0 to |params|
          invariant |params| == |runSpec.params|
          invariant forall j :: 0 <= j < i && IsRevision(runSpec.params[j]) ==> params[j] == Param(runSpec.params[j].name, sha)
          invariant forall j :: 0 <= j < i && !IsRevision(runSpec.params[j]) ==> params[j] == runSpec.params[j]
          invariant forall j :: i <= j < |params| ==> params[j] == runSpec.params[j]
        {
          if EqualFold(params[i].name, RevisionParam) {
            params := params[i := params[i].(value := sha)];
          }
        }
        assert params == WithRevision(runSpec.params, sha);
        pr := pr.(spec := pr.spec.(params := params));
      }
      submitted := pr;
      if !submitOk {
        return RunHalted, submitted;
      }
      o := RunReturned(submitted, None);
    }
  }

  /** A template with one parameter `Revision` = `HEAD`, submitted for
      revision `abc123`: as written the value stays `HEAD`, corrected it
      becomes `abc123`. */
  method RevisionExample() returns (asWritten: PipelineRun, corrected: PipelineRun)
    ensures asWritten.spec.params == [Param("Revision", "HEAD")]
    ensures corrected.spec.params == [Param("Revision", "abc123")]
  {
    var cfg := Config(CloudEventType, CheckSuiteEventType, "ci", "", "listener", 8082, true);
    var template := PipelineRunSpec("build", [Param("Revision", "HEAD")], "");
    var e := new EventListener(cfg, RunName("listener", 8082), template);
    var _, a := e.CreatePipelineRun("abc123", true);
    var _, c := e.CreatePipelineRunCorrected("abc123", true);
    assert IsRevision(Param("Revision", "HEAD"));
    asWritten, corrected := a, c;
  }

  /** main: fatal on an empty namespace, on client or TektonListener failure,
      on a nil PipelineRun spec, and on an event kind other than
      `cloudevent`; otherwise a listener built from the configuration. */
  method Start(cfg: Config, clientsOk: bool, resource: Option<TektonListenerResource>) returns (s: Startup)
    ensures cfg.namespace == "" ==> s == Fatal(NamespaceEmpty)
    ensures cfg.namespace != "" && !clientsOk ==> s == Fatal(ClientSetupFailed)
    ensures cfg.namespace != "" && clientsOk && resource.None? ==> s == Fatal(ListenerGetFailed)
    ensures (cfg.namespace != "" && clientsOk && resource.Some?
             && resource.value.pipelineRunSpec.None?) ==> s == Fatal(NilPipelineRunSpec)
    ensures (cfg.namespace != "" && clientsOk && resource.Some? && resource.value.pipelineRunSpec.Some?
             && cfg.event != CloudEventType) ==> s == Fatal(InvalidEvent(cfg.event))
    ensures s.Listening? <==>
      cfg.namespace != "" && clientsOk && resource.Some? && resource.value.pipelineRunSpec.Some?
      && cfg.event == CloudEventType
    ensures s.Listening? ==>
      var e := s.listener;
      e.event == CloudEventType && e.eventType == cfg.eventType && e.namespace == cfg.namespace
      && e.namespace != ""
      && e.runName == RunName(resource.value.name, cfg.port)
      && e.runSpec == resource.value.pipelineRunSpec.value
      && e.serviceAccount == cfg.serviceAccount
      && e.port == cfg.port && e.setBuildSha == cfg.setBuildSha
  {
    if cfg.namespace == "" {
      return Fatal(NamespaceEmpty);
    }
    if !clientsOk {
      return Fatal(ClientSetupFailed);
    }
    if resource.None? {
      return Fatal(ListenerGetFailed);
    }
    var listenerName := RunName(resource.value.name, cfg.port);
    if resource.value.pipelineRunSpec.None? {
      return Fatal(NilPipelineRunSpec);
    }
    var e := new EventListener(cfg, listenerName, resource.value.pipelineRunSpec.value);
    if e.event != CloudEventType {
      return Fatal(InvalidEvent(e.event));
    }
    s := Listening(e);
  }
}
