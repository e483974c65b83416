/**
 * The deploy step of a certificate workflow (`deployNode.Run`): read the
 * node's previous output, decode which earlier node's certificate to deploy,
 * skip when that certificate is already deployed and not newer, otherwise
 * look up the access credential, build and run the deployer, and record a
 * successful output. Repositories, the deployer and the context are given
 * as an `Environment` of outcomes; the procedure records which of them it
 * asked (`Call`) and what it wrote to the node's log.
 */
module NodeProcessor {
  import opened Common
  import GoStrings

  /** A workflow node; `config` holds its string-valued settings. */
  datatype WorkflowNode = WorkflowNode(id: string, name: string, config: map<string, string>)

  /** `node.GetConfigString(key)`: the setting, or "" when it is not set. */
  function ConfigString(node: WorkflowNode, key: string): string
  {
    if key in node.config then node.config[key] else ""
  }

  /** Record identity and timestamps; times are instants as integers, 0 is Go's zero time. */
  datatype Meta = Meta(id: string, created: int, updated: int)

  datatype WorkflowOutput = WorkflowOutput(meta: Meta, workflow: string, nodeId: string, node: WorkflowNode, succeed: bool)

  datatype Certificate = Certificate(
    created: int, san: string, certUrl: string, certStableUrl: string,
    privateKey: string, certificate: string, issuerCertificate: string)

  datatype Access = Access(meta: Meta, name: string, config: string, configType: string, usage: string)

  /** `applicant.Certificate`, the certificate material handed to a deployer. */
  datatype CertificateBundle = CertificateBundle(
    certUrl: string, certStableUrl: string, privateKey: string, certificate: string, issuerCertificate: string)

  datatype DeployConfig = DeployConfig(id: string, access: string, providerType: string, config: map<string, string>)

  datatype DeployerOption = DeployerOption(
    domainId: string, domain: string, access: string, accessRecord: Access,
    certificate: CertificateBundle, deployConfig: DeployConfig)

  /** Errors `Run` can return. */
  datatype Error =
    | ErrRecordNotFound             // domain.ErrRecordNotFound
    | External(reason: string)      // any other error a collaborator returns
    | CertSourceError(source: string)  // "证书来源配置错误: <source>"

  predicate IsRecordNotFound(e: Error) { e == ErrRecordNotFound }

  /**
   * What the collaborators answer when asked: the workflow id carried by the
   * context, the output repository's `Get` and `GetCertificate`, the access
   * repository's `GetById`, and the errors (if any) of
   * `deployer.GetWithTypeAndOption`, `Deploy` and the output repository's `Save`.
   */
  datatype Environment = Environment(
    workflowId: string,
    priorOutput: Result<WorkflowOutput, Error>,
    certificate: Result<Certificate, Error>,
    access: Result<Access, Error>,
    deployerError: Option<Error>,
    deployError: Option<Error>,
    saveError: Option<Error>)

  /** A request `Run` makes of a collaborator, with its arguments. */
  datatype Call =
    | GetOutput(nodeId: string)
    | GetCertificate(sourceNodeId: string)
    | GetAccess(accessId: string)
    | GetDeployer(providerType: string, option: DeployerOption)
    | Deploy
    | Save(output: WorkflowOutput)

  /** The fixed log messages of `Run`. */
  datatype Message =
    | Started | QueryOutputFailed | BadCertSource | GetCertificateFailed | AlreadyDeployed
    | GetAccessFailed | GetDeployerFailed | DeployFailed | DeploySucceeded
    | SaveFailed | SaveSucceeded

  /** The text each message is logged with. */
  function Text(m: Message): string
  {
    match m
    case Started => "开始执行"
    case QueryOutputFailed => "查询部署记录失败"
    case BadCertSource => "证书来源配置错误"
    case GetCertificateFailed => "获取证书失败"
    case AlreadyDeployed => "已部署过且证书未更新"
    case GetAccessFailed => "获取授权配置失败"
    case GetDeployerFailed => "获取部署对象失败"
    case DeployFailed => "部署失败"
    case DeploySucceeded => "部署成功"
    case SaveFailed => "保存部署记录失败"
    case SaveSucceeded => "保存部署记录成功"
  }

  /** Each message has its own text, so a log line tells which step wrote it. */
  lemma MessageTextsDistinct(m1: Message, m2: Message)
    ensures Text(m1) == Text(m2) <==> m1 == m2
  {
  }

  /** The messages logged when `Run` returns an error. */
  predicate IsFailureMessage(m: Message)
  {
    m in {QueryOutputFailed, BadCertSource, GetCertificateFailed, GetAccessFailed,
          GetDeployerFailed, DeployFailed, SaveFailed}
  }

  /** An extra argument of a log line: a raw string, or the text of an error. */
  datatype Detail = Raw(text: string) | ErrorText(error: Error)

  /** One `AddOutput(ctx, node.Name, message, details...)` line. */
  datatype LogEntry = LogEntry(nodeName: string, message: Message, details: seq<Detail>)

  /** How `Run` ended; Go returns nil for both `Skipped` and `Completed`. */
  datatype Status = Skipped | Completed | Aborted(error: Error)

  datatype Trace = Trace(status: Status, log: seq<LogEntry>, calls: seq<Call>)

  /** A certificate source `nodeId#outputName`. */
  datatype CertSource = CertSource(nodeId: string, outputName: string)

  /** Splits the source on `#` as `strings.Split` does; anything but two pieces is malformed. */
  function ParseCertSource(source: string): (r: Option<CertSource>)
    ensures r.Some? <==> GoStrings.Count(source) == 1
    ensures r.Some? ==> '#' !in r.value.nodeId && '#' !in r.value.outputName
    ensures r.Some? ==> source == r.value.nodeId + "#" + r.value.outputName
  {
    GoStrings.SplitLength(source);
    GoStrings.SplitSeparatorFree(source);
    GoStrings.JoinSplit(source);
    var parts := GoStrings.Split(source);
    if |parts| != 2 then None else
      assert GoStrings.Join(parts) == parts[0] + "#" + parts[1];
      Some(CertSource(parts[0], parts[1]))
  }

  /** `deployed(output)`: a previous output exists and records a success. */
  predicate Deployed(output: Option<WorkflowOutput>)
    ensures output.None? ==> !Deployed(output)
    ensures output.Some? ==> (Deployed(output) <==> output.value.succeed)
  {
    output.Some? && output.value.succeed
  }

  /** The previous output as `Run` sees it: a not-found error means none. */
  function Prior(env: Environment): Option<WorkflowOutput>
  {
    if env.priorOutput.Success? then Some(env.priorOutput.value) else None
  }

  /** The skip rule: already deployed, and the certificate was created before that output's last update. */
  predicate UpToDate(prior: Option<WorkflowOutput>, cert: Certificate)
  {
    Deployed(prior) && cert.created < prior.value.meta.updated
  }

  /**
   * The deployer's option: it deploys the fetched certificate for this node,
   * with the fetched access record and the node's provider type and settings.
   */
  function OptionFor(node: WorkflowNode, cert: Certificate, access: Access): (o: DeployerOption)
    ensures o.domainId == node.id && o.domain == cert.san
    ensures o.access == access.config && o.accessRecord == access
    ensures o.certificate.certUrl == cert.certUrl && o.certificate.certStableUrl == cert.certStableUrl
    ensures o.certificate.privateKey == cert.privateKey && o.certificate.certificate == cert.certificate
    ensures o.certificate.issuerCertificate == cert.issuerCertificate
    ensures o.deployConfig.id == node.id && o.deployConfig.access == access.meta.id
    ensures o.deployConfig.providerType == ConfigString(node, "providerType") && o.deployConfig.config == node.config
  {
    DeployerOption(
      node.id, cert.san, access.config, access,
      CertificateBundle(cert.certUrl, cert.certStableUrl, cert.privateKey, cert.certificate, cert.issuerCertificate),
      DeployConfig(node.id, access.meta.id, ConfigString(node, "providerType"), node.config))
  }

  /** The output recorded after a successful deploy, keeping the previous output's id. */
  function OutputRecord(node: WorkflowNode, workflowId: string, prior: Option<WorkflowOutput>): (r: WorkflowOutput)
    ensures r.succeed && r.workflow == workflowId && r.nodeId == node.id && r.node == node
    ensures r.meta.id == (if prior.Some? then prior.value.meta.id else "")
    ensures r.meta.created == 0 && r.meta.updated == 0
  {
    var outputId := if prior.Some? then prior.value.meta.id else "";
    WorkflowOutput(Meta(outputId, 0, 0), workflowId, node.id, node, true)
  }

  /** Whether the run got past the output lookup, the source parse and the certificate fetch. */
  predicate CertificateReady(node: WorkflowNode, env: Environment)
  {
    && (env.priorOutput.Failure? ==> IsRecordNotFound(env.priorOutput.error))
    && ParseCertSource(ConfigString(node, "certificate")).Some?
    && env.certificate.Success?
  }

  /**
   * The part of `Run` after the skip check: the access lookup, the deployer,
   * the deploy and the save, as the log lines and requests they add.
   */
  function DeployStage(node: WorkflowNode, env: Environment, cert: Certificate, prior: Option<WorkflowOutput>): (t: Trace)
    ensures t.status != Skipped
    ensures 1 <= |t.log| <= 2 && t.calls != [] && t.calls[0] == GetAccess(ConfigString(node, "access"))
    ensures forall c :: c in t.calls ==> !c.GetOutput? && !c.GetCertificate?
  {
    var calls := [GetAccess(ConfigString(node, "access"))];
    if env.access.Failure? then
      var e := env.access.error;
      Trace(Aborted(e), [LogEntry(node.name, GetAccessFailed, [ErrorText(e)])], calls)
    else
      var providerType := ConfigString(node, "providerType");
      var calls := calls + [GetDeployer(providerType, OptionFor(node, cert, env.access.value))];
      if env.deployerError.Some? then
        var e := env.deployerError.value;
        Trace(Aborted(e), [LogEntry(node.name, GetDeployerFailed, [ErrorText(e)])], calls)
      else
        var calls := calls + [Deploy];
        if env.deployError.Some? then
          var e := env.deployError.value;
          Trace(Aborted(e), [LogEntry(node.name, DeployFailed, [ErrorText(e)])], calls)
        else
          var deployed := LogEntry(node.name, DeploySucceeded, []);
          var calls := calls + [Save(OutputRecord(node, env.workflowId, prior))];
          if env.saveError.Some? then
            var e := env.saveError.value;
            Trace(Aborted(e), [deployed, LogEntry(node.name, SaveFailed, [ErrorText(e)])], calls)
          else
            Trace(Completed, [deployed, LogEntry(node.name, SaveSucceeded, [])], calls)
  }

  /**
   * The part of `Run` up to the skip check, after the start line: the output
   * lookup, the source parse, the certificate fetch and the skip rule; past
   * the skip check it continues with `DeployStage`.
   */
  function CheckStage(node: WorkflowNode, env: Environment): (t: Trace)
    ensures 1 <= |t.log| <= 2 && t.calls != [] && t.calls[0] == GetOutput(node.id)
    ensures !CertificateReady(node, env) || UpToDate(Prior(env), env.certificate.value) ==>
              |t.log| == 1 && forall c :: c in t.calls ==> c.GetOutput? || c.GetCertificate?
    ensures CertificateReady(node, env) && !UpToDate(Prior(env), env.certificate.value) ==>
              var rest := DeployStage(node, env, env.certificate.value, Prior(env));
              t.status == rest.status && t.log == rest.log &&
              t.calls == [GetOutput(node.id), GetCertificate(ParseCertSource(ConfigString(node, "certificate")).value.nodeId)] + rest.calls
  {
    var calls := [GetOutput(node.id)];
    if env.priorOutput.Failure? && !IsRecordNotFound(env.priorOutput.error) then
      var e := env.priorOutput.error;
      Trace(Aborted(e), [LogEntry(node.name, QueryOutputFailed, [ErrorText(e)])], calls)
    else
      var source := ConfigString(node, "certificate");
      var parsed := ParseCertSource(source);
      if parsed.None? then
        Trace(Aborted(CertSourceError(source)), [LogEntry(node.name, BadCertSource, [Raw(source)])], calls)
      else
        var calls := calls + [GetCertificate(parsed.value.nodeId)];
        if env.certificate.Failure? then
          var e := env.certificate.error;
          Trace(Aborted(e), [LogEntry(node.name, GetCertificateFailed, [ErrorText(e)])], calls)
        else if UpToDate(Prior(env), env.certificate.value) then
          Trace(Skipped, [LogEntry(node.name, AlreadyDeployed, [])], calls)
        else
          var rest := DeployStage(node, env, env.certificate.value, Prior(env));
          Trace(rest.status, rest.log, calls + rest.calls)
  }

  /**
   * `Run` as a function of the node and the collaborators' answers: how it
   * ends, the log lines it appends, and the requests it makes, in order.
   * The log always opens with the start line, and the output lookup comes first.
   */
  function Execute(node: WorkflowNode, env: Environment): (t: Trace)
    ensures 2 <= |t.log| <= 3 && t.log[0] == LogEntry(node.name, Started, [])
    ensures t.calls != [] && t.calls[0] == GetOutput(node.id)
  {
    var checked := CheckStage(node, env);
    Trace(checked.status, [LogEntry(node.name, Started, [])] + checked.log, checked.calls)
  }

  /** A lookup error other than not-found aborts with that error before anything else is asked. */
  lemma LookupErrorAborts(node: WorkflowNode, env: Environment)
    requires env.priorOutput.Failure? && !IsRecordNotFound(env.priorOutput.error)
    ensures Execute(node, env).status == Aborted(env.priorOutput.error)
    ensures Execute(node, env).calls == [GetOutput(node.id)]
    ensures Execute(node, env).log[1..] == [LogEntry(node.name, QueryOutputFailed, [ErrorText(env.priorOutput.error)])]
  {
    assert !CertificateReady(node, env);
  }

  /** A source that is not `nodeId#outputName` aborts with a configuration error, whatever the previous output. */
  lemma MalformedSourceAborts(node: WorkflowNode, env: Environment)
    requires env.priorOutput.Failure? ==> IsRecordNotFound(env.priorOutput.error)
    requires ParseCertSource(ConfigString(node, "certificate")).None?
    ensures Execute(node, env).status == Aborted(CertSourceError(ConfigString(node, "certificate")))
    ensures Execute(node, env).calls == [GetOutput(node.id)]
    ensures Execute(node, env).log[1..] == [LogEntry(node.name, BadCertSource, [Raw(ConfigString(node, "certificate"))])]
  {
    assert !CertificateReady(node, env);
  }

  /** A failed certificate fetch aborts with the repository's error, and the failure line carries it. */
  lemma CertificateFetchFailureAborts(node: WorkflowNode, env: Environment)
    requires env.priorOutput.Failure? ==> IsRecordNotFound(env.priorOutput.error)
    requires ParseCertSource(ConfigString(node, "certificate")).Some? && env.certificate.Failure?
    ensures Execute(node, env).status == Aborted(env.certificate.error)
    ensures Execute(node, env).log[1..] == [LogEntry(node.name, GetCertificateFailed, [ErrorText(env.certificate.error)])]
  {
    assert !CertificateReady(node, env);
  }

  /**
   * Past the skip check, the first step that fails decides the run: it
   * aborts with that step's error, and the last line is that step's failure
   * line carrying the error.
   */
  lemma DeployStepFailureAborts(node: WorkflowNode, env: Environment)
    requires CertificateReady(node, env) && !UpToDate(Prior(env), env.certificate.value)
    ensures var t := Execute(node, env);
            env.access.Failure? ==>
              t.status == Aborted(env.access.error) &&
              t.log[|t.log| - 1] == LogEntry(node.name, GetAccessFailed, [ErrorText(env.access.error)])
    ensures var t := Execute(node, env);
            env.access.Success? && env.deployerError.Some? ==>
              t.status == Aborted(env.deployerError.value) &&
              t.log[|t.log| - 1] == LogEntry(node.name, GetDeployerFailed, [ErrorText(env.deployerError.value)])
    ensures var t := Execute(node, env);
            env.access.Success? && env.deployerError.None? && env.deployError.Some? ==>
              t.status == Aborted(env.deployError.value) &&
              t.log[|t.log| - 1] == LogEntry(node.name, DeployFailed, [ErrorText(env.deployError.value)])
    ensures var t := Execute(node, env);
            env.access.Success? && env.deployerError.None? && env.deployError.None? && env.saveError.Some? ==>
              t.status == Aborted(env.saveError.value) &&
              t.log[|t.log| - 1] == LogEntry(node.name, SaveFailed, [ErrorText(env.saveError.value)])
  {
    var rest := DeployStage(node, env, env.certificate.value, Prior(env));
    var t := Execute(node, env);
    assert t.status == rest.status && t.log == [LogEntry(node.name, Started, [])] + rest.log;
    assert t.log[|t.log| - 1] == rest.log[|rest.log| - 1];
  }

  /**
   * The skip rule: a run skips exactly when the lookup, the parse and the
   * certificate fetch succeed and `deployed(output)` holds with a certificate
   * created before the output's last update; a skip logs one line and deploys nothing.
   */
  lemma SkipsIffUpToDate(node: WorkflowNode, env: Environment)
    ensures Execute(node, env).status == Skipped <==>
              CertificateReady(node, env) && UpToDate(Prior(env), env.certificate.value)
    ensures Execute(node, env).status == Skipped ==>
              Execute(node, env).log[1..] == [LogEntry(node.name, AlreadyDeployed, [])] &&
              Deploy !in Execute(node, env).calls
  {
    var checked := CheckStage(node, env);
    if CertificateReady(node, env) && !UpToDate(Prior(env), env.certificate.value) {
      var rest := DeployStage(node, env, env.certificate.value, Prior(env));
      assert checked.status == rest.status;
    } else if Execute(node, env).status == Skipped {
      assert Execute(node, env).log[1..] == checked.log;
      assert Deploy !in checked.calls;
    }
  }

  /** On every failure path exactly one failure line is logged, and it is the last line. */
  lemma FailureIsLastLine(node: WorkflowNode, env: Environment)
    ensures var t := Execute(node, env);
            forall i :: 0 <= i < |t.log| - 1 ==> !IsFailureMessage(t.log[i].message)
    ensures var t := Execute(node, env);
            t.status.Aborted? <==> IsFailureMessage(t.log[|t.log| - 1].message)
  {
    var t := Execute(node, env);
    var checked := CheckStage(node, env);
    assert t.log == [LogEntry(node.name, Started, [])] + checked.log;
    if CertificateReady(node, env) && !UpToDate(Prior(env), env.certificate.value) {
      var rest := DeployStage(node, env, env.certificate.value, Prior(env));
      DeployStageFailureIsLast(node, env, env.certificate.value, Prior(env));
      assert checked.log == rest.log && checked.status == rest.status;
    }
  }

  /** Within the deploy steps, only the last line can be a failure line, and it is one exactly on an abort. */
  lemma DeployStageFailureIsLast(node: WorkflowNode, env: Environment, cert: Certificate, prior: Option<WorkflowOutput>)
    ensures var t := DeployStage(node, env, cert, prior);
            (|t.log| == 2 ==> !IsFailureMessage(t.log[0].message)) &&
            (t.status.Aborted? <==> IsFailureMessage(t.log[|t.log| - 1].message))
  {
  }

  /**
   * A run completes exactly when every step succeeds: it then deploys,
   * and logs "deploy succeeded" followed by "save succeeded".
   */
  lemma CompletesIffAllStepsSucceed(node: WorkflowNode, env: Environment)
    ensures Execute(node, env).status == Completed <==>
              CertificateReady(node, env) && !UpToDate(Prior(env), env.certificate.value) &&
              env.access.Success? && env.deployerError.None? && env.deployError.None? && env.saveError.None?
    ensures Execute(node, env).status == Completed ==>
              Deploy in Execute(node, env).calls &&
              Execute(node, env).log[1..] == [LogEntry(node.name, DeploySucceeded, []), LogEntry(node.name, SaveSucceeded, [])]
  {
    var checked := CheckStage(node, env);
    if CertificateReady(node, env) && !UpToDate(Prior(env), env.certificate.value) {
      var rest := DeployStage(node, env, env.certificate.value, Prior(env));
      assert Execute(node, env).log[1..] == rest.log;
      if rest.status == Completed {
        assert Deploy in rest.calls;
      }
    }
  }

  /**
   * Past the skip check the later steps are really requested: a found access
   * leads to a deployer request configured from the node, the fetched
   * certificate and that access; a deployer that is built and deploys
   * without error leads to saving the output record.
   */
  lemma DeployStepsRequested(node: WorkflowNode, env: Environment)
    ensures CertificateReady(node, env) && !UpToDate(Prior(env), env.certificate.value) && env.access.Success? ==>
              GetDeployer(ConfigString(node, "providerType"), OptionFor(node, env.certificate.value, env.access.value))
                in Execute(node, env).calls
    ensures CertificateReady(node, env) && !UpToDate(Prior(env), env.certificate.value) && env.access.Success? &&
            env.deployerError.None? && env.deployError.None? ==>
              Deploy in Execute(node, env).calls &&
              Save(OutputRecord(node, env.workflowId, Prior(env))) in Execute(node, env).calls
  {
    if CertificateReady(node, env) && !UpToDate(Prior(env), env.certificate.value) {
      var rest := DeployStage(node, env, env.certificate.value, Prior(env));
      assert Execute(node, env).calls ==
               [GetOutput(node.id), GetCertificate(ParseCertSource(ConfigString(node, "certificate")).value.nodeId)] + rest.calls;
    }
  }

  /** Whether the run got past the skip check: the certificate is ready and not already deployed. */
  predicate PastSkip(node: WorkflowNode, env: Environment)
  {
    CertificateReady(node, env) && !UpToDate(Prior(env), env.certificate.value)
  }

  /**
   * A failed step stops the run: a deployer is requested exactly when the
   * run gets past the skip check and the access is found, the deploy exactly
   * when the deployer is also built, and the output is saved exactly when
   * the deploy also succeeds. So nothing is saved after a failed deploy.
   */
  lemma FailedStepStopsRun(node: WorkflowNode, env: Environment)
    ensures (exists c :: c in Execute(node, env).calls && c.GetDeployer?) <==>
              PastSkip(node, env) && env.access.Success?
    ensures Deploy in Execute(node, env).calls <==>
              PastSkip(node, env) && env.access.Success? && env.deployerError.None?
    ensures (exists c :: c in Execute(node, env).calls && c.Save?) <==>
              PastSkip(node, env) && env.access.Success? && env.deployerError.None? && env.deployError.None?
  {
    var calls := Execute(node, env).calls;
    if PastSkip(node, env) {
      DeployStepsRequested(node, env);
      var rest := DeployStage(node, env, env.certificate.value, Prior(env));
      var prefix := [GetOutput(node.id), GetCertificate(ParseCertSource(ConfigString(node, "certificate")).value.nodeId)];
      assert calls == prefix + rest.calls;
      assert forall c :: c in calls ==> c in prefix || c in rest.calls;
    } else {
      assert forall c :: c in calls ==> c.GetOutput? || c.GetCertificate?;
    }
  }

  /** The certificate is fetched by the source's node id; the output name is never used. */
  lemma CertificateFetchedBySourceNode(node: WorkflowNode, env: Environment, c: Call)
    requires c in Execute(node, env).calls && c.GetCertificate?
    ensures ParseCertSource(ConfigString(node, "certificate")).Some?
    ensures c.sourceNodeId == ParseCertSource(ConfigString(node, "certificate")).value.nodeId
  {
    var checked := CheckStage(node, env);
    assert c in checked.calls;
    if CertificateReady(node, env) && !UpToDate(Prior(env), env.certificate.value) {
      var rest := DeployStage(node, env, env.certificate.value, Prior(env));
      assert c !in rest.calls;
    }
  }

  /** The deployer is chosen by the node's provider type and configured with the fetched access. */
  lemma DeployerConfiguredFromNode(node: WorkflowNode, env: Environment, c: Call)
    requires c in Execute(node, env).calls && c.GetDeployer?
    ensures env.access.Success?
    ensures c.providerType == ConfigString(node, "providerType")
    ensures c.option.deployConfig.providerType == c.providerType
    ensures c.option.deployConfig.access == env.access.value.meta.id
    ensures c.option.deployConfig.id == node.id && c.option.domainId == node.id
  {
    var checked := CheckStage(node, env);
    assert c in checked.calls;
    assert CertificateReady(node, env) && !UpToDate(Prior(env), env.certificate.value);
    var rest := DeployStage(node, env, env.certificate.value, Prior(env));
    assert c in rest.calls;
  }

  /** The saved output is a success of this node that keeps the previous output's id. */
  lemma SavedOutputReusesId(node: WorkflowNode, env: Environment, c: Call)
    requires c in Execute(node, env).calls && c.Save?
    ensures c.output.succeed && c.output.nodeId == node.id && c.output.workflow == env.workflowId
    ensures c.output.meta.id == (if Prior(env).Some? then Prior(env).value.meta.id else "")
  {
    var checked := CheckStage(node, env);
    assert c in checked.calls;
    assert CertificateReady(node, env) && !UpToDate(Prior(env), env.certificate.value);
    var rest := DeployStage(node, env, env.certificate.value, Prior(env));
    assert c in rest.calls;
  }

  /** The `deployNode` object: its node and the lines its embedded logger has collected. */
  class DeployNode {
    const node: WorkflowNode
    var log: seq<LogEntry>

    /** `NewDeployNode(node)` */
    constructor (node: WorkflowNode)
      ensures this.node == node && log == []
    {
      this.node := node;
      log := [];
    }

    /** `AddOutput(ctx, node.Name, message, details...)` */
    method AddOutput(message: Message, details: seq<Detail>)
      modifies this`log
      ensures log == old(log) + [LogEntry(node.name, message, details)]
    {
      log := log + [LogEntry(node.name, message, details)];
    }

    /**
     * `Run(ctx)`: appends to the log exactly the lines `Execute` describes and
     * makes exactly its requests, so every property of `Execute` holds of a run.
     */
    method Run(env: Environment) returns (status: Status, requests: seq<Call>)
      modifies this`log
      ensures status == Execute(node, env).status
      ensures requests == Execute(node, env).calls
      ensures log == old(log) + Execute(node, env).log
    {
      AddOutput(Started, []);
      status, requests := CheckAndDeploy(env);
    }

    /**
     * The body of `Run` after the start line: the output lookup, the source
     * parse, the certificate fetch, the skip rule and then the deploy steps,
     * logging as `CheckStage` says.
     */
    method CheckAndDeploy(env: Environment) returns (status: Status, requests: seq<Call>)
      modifies this`log
      ensures status == CheckStage(node, env).status
      ensures requests == CheckStage(node, env).calls
      ensures log == old(log) + CheckStage(node, env).log
    {
      requests := [GetOutput(node.id)];
      var output: Option<WorkflowOutput> := None;
      match env.priorOutput {
        case Failure(e) =>
          if !IsRecordNotFound(e) {
            AddOutput(QueryOutputFailed, [ErrorText(e)]);
            return Aborted(e), requests;
          }
        case Success(o) =>
          output := Some(o);
      }
      assert output == Prior(env);

      var certSource := ConfigString(node, "certificate");
      var certSourceSlice := GoStrings.Split(certSource);
      if |certSourceSlice| != 2 {
        AddOutput(BadCertSource, [Raw(certSource)]);
        return Aborted(CertSourceError(certSource)), requests;
      }

      requests := requests + [GetCertificate(certSourceSlice[0])];
      if env.certificate.Failure? {
        AddOutput(GetCertificateFailed, [ErrorText(env.certificate.error)]);
        return Aborted(env.certificate.error), requests;
      }
      var cert := env.certificate.value;

      if Deployed(output) && cert.created < output.value.meta.updated {
        AddOutput(AlreadyDeployed, []);
        return Skipped, requests;
      }

      assert CheckStage(node, env) == Trace(DeployStage(node, env, cert, output).status,
        DeployStage(node, env, cert, output).log, requests + DeployStage(node, env, cert, output).calls);
      var more;
      status, more := DeployAndRecord(env, cert, output);
      requests := requests + more;
    }

    /**
     * The rest of `Run` after the skip check: fetch the access, get the
     * deployer, deploy, and save the output record, logging as `DeployStage` says.
     */
    method DeployAndRecord(env: Environment, cert: Certificate, output: Option<WorkflowOutput>)
      returns (status: Status, requests: seq<Call>)
      modifies this`log
      ensures status == DeployStage(node, env, cert, output).status
      ensures requests == DeployStage(node, env, cert, output).calls
      ensures log == old(log) + DeployStage(node, env, cert, output).log
    {
      requests := [GetAccess(ConfigString(node, "access"))];
      if env.access.Failure? {
        AddOutput(GetAccessFailed, [ErrorText(env.access.error)]);
        return Aborted(env.access.error), requests;
      }
      var access := env.access.value;
      var option := DeployerOption(
        node.id, cert.san, access.config, access,
        CertificateBundle(cert.certUrl, cert.certStableUrl, cert.privateKey, cert.certificate, cert.issuerCertificate),
        DeployConfig(node.id, access.meta.id, ConfigString(node, "providerType"), node.config));

      requests := requests + [GetDeployer(ConfigString(node, "providerType"), option)];
      if env.deployerError.Some? {
        AddOutput(GetDeployerFailed, [ErrorText(env.deployerError.value)]);
        return Aborted(env.deployerError.value), requests;
      }

      requests := requests + [Deploy];
      if env.deployError.Some? {
        AddOutput(DeployFailed, [ErrorText(env.deployError.value)]);
        return Aborted(env.deployError.value), requests;
      }

      AddOutput(DeploySucceeded, []);

      var outputId := "";
      if output.Some? {
        outputId := output.value.meta.id;
      }
      var saved := WorkflowOutput(Meta(outputId, 0, 0), env.workflowId, node.id, node, true);

      requests := requests + [Save(saved)];
      if env.saveError.Some? {
        AddOutput(SaveFailed, [ErrorText(env.saveError.value)]);
        return Aborted(env.saveError.value), requests;
      }

      AddOutput(SaveSucceeded, []);
      status := Completed;
    }
  }
}
