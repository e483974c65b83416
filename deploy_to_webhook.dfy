/**
 * The webhook deploy node's settings form: its defaults, its schema, the
 * encoding of a certificate choice as `nodeId#outputName`, and what a submit
 * stores on the node.
 */
module DeployToWebhook {
  import opened Common
  import Zod
  import GoStrings
  import NodeProcessor

  /** One entry of the `variables` list. */
  datatype KV = KV(key: string, value: string)

  /** The node's settings (and the form's values); an unset entry is `None`. */
  datatype WebhookConfig = WebhookConfig(
    certificate: Option<string>, providerType: Option<string>,
    access: Option<string>, variables: Option<seq<KV>>)

  /** An output a workflow node declares. */
  datatype NodeOutput = NodeOutput(name: string, labelText: string)

  /** A workflow node as the editor's store holds it. */
  datatype WorkflowNode = WorkflowNode(
    id: string, name: string, config: Option<WebhookConfig>, validated: bool, output: seq<NodeOutput>)

  /** The settings assumed for a node that has none yet. */
  const DefaultConfig := WebhookConfig(Some(""), Some(""), Some(""), Some([]))

  /**
   * The form's default values: the provider type is always "webhook"; the
   * other fields come from the node's settings, or from the empty defaults.
   */
  function DefaultValues(node: WorkflowNode): (v: WebhookConfig)
    ensures v.providerType == Some("webhook")
    ensures node.config.None? ==> v.access == Some("") && v.certificate == Some("") && v.variables == Some([])
    ensures node.config.Some? ==>
              v.access == node.config.value.access && v.certificate == node.config.value.certificate &&
              v.variables == node.config.value.variables
  {
    var config := node.config.GetOr(DefaultConfig);
    WebhookConfig(config.certificate, Some("webhook"), config.access, config.variables)
  }

  /**
   * The schema: `providerType` a string, `access` and `certificate`
   * non-empty strings (no trimming), `variables` optional.
   */
  function Validate(v: WebhookConfig): (r: Result<WebhookConfig, seq<Zod.FieldIssue>>)
    ensures r.Success? <==>
              v.providerType.Some? && v.access.Some? && |v.access.value| >= 1 &&
              v.certificate.Some? && |v.certificate.value| >= 1
    ensures r.Success? ==> r.value == v
    ensures r.Failure? ==> (Zod.Mentions(r.error, "providerType") <==> v.providerType.None?)
    ensures r.Failure? ==> (Zod.Mentions(r.error, "access") <==> !(v.access.Some? && |v.access.value| >= 1))
    ensures r.Failure? ==> (Zod.Mentions(r.error, "certificate") <==> !(v.certificate.Some? && |v.certificate.value| >= 1))
  {
    var typeIssues := if v.providerType.Some? then [] else Zod.Issue("providerType", Zod.Required);
    var accessIssues := Zod.MinString("access", v.access, 1);
    var certIssues := Zod.MinString("certificate", v.certificate, 1);
    Zod.MentionsAppend(typeIssues, accessIssues, "providerType");
    Zod.MentionsAppend(typeIssues + accessIssues, certIssues, "providerType");
    assert !Zod.Mentions(accessIssues, "providerType") && !Zod.Mentions(certIssues, "providerType");
    Zod.MentionsAppend(typeIssues, accessIssues, "access");
    Zod.MentionsAppend(typeIssues + accessIssues, certIssues, "access");
    Zod.MentionsAppend(typeIssues, accessIssues, "certificate");
    Zod.MentionsAppend(typeIssues + accessIssues, certIssues, "certificate");
    assert !Zod.Mentions(typeIssues, "access") && !Zod.Mentions(typeIssues, "certificate");
    assert !Zod.Mentions(accessIssues, "certificate") && !Zod.Mentions(certIssues, "access");
    var issues := typeIssues + accessIssues + certIssues;
    if issues == [] then Success(v) else Failure(issues)
  }

  /** A node without settings opens with a form that does not validate. */
  lemma UnconfiguredNodeInvalid(node: WorkflowNode)
    requires node.config.None?
    ensures Validate(DefaultValues(node)).Failure?
    ensures Zod.Mentions(Validate(DefaultValues(node)).error, "access")
    ensures Zod.Mentions(Validate(DefaultValues(node)).error, "certificate")
  {
  }

  /** The value of the certificate option for output `outputName` of node `nodeId`. */
  function OptionValue(nodeId: string, outputName: string): (v: string)
    ensures |v| == |nodeId| + 1 + |outputName|
    ensures v[..|nodeId|] == nodeId && v[|nodeId|] == '#' && v[|nodeId| + 1..] == outputName
  {
    nodeId + "#" + outputName
  }

  /** Splitting an option value on `#` gives back its two parts exactly when neither contains `#`. */
  lemma OptionValueSplits(nodeId: string, outputName: string)
    ensures GoStrings.Split(OptionValue(nodeId, outputName)) == [nodeId, outputName] <==>
              '#' !in nodeId && '#' !in outputName
  {
    var parts := [nodeId, outputName];
    assert GoStrings.Join(parts) == OptionValue(nodeId, outputName);
    if '#' !in nodeId && '#' !in outputName {
      GoStrings.SplitJoin(parts);
    }
    if GoStrings.Split(OptionValue(nodeId, outputName)) == parts {
      GoStrings.SplitSeparatorFree(OptionValue(nodeId, outputName));
      assert parts[0] == nodeId && parts[1] == outputName;
    }
  }

  /** The deploy step decodes an option value to the chosen node and output exactly when neither contains `#`. */
  lemma OptionValueDecodes(nodeId: string, outputName: string)
    ensures NodeProcessor.ParseCertSource(OptionValue(nodeId, outputName)) ==
              Some(NodeProcessor.CertSource(nodeId, outputName)) <==>
            '#' !in nodeId && '#' !in outputName
  {
    OptionValueSplits(nodeId, outputName);
  }

  /** The certificate options of one earlier node, one per declared output. */
  function NodeOptions(node: WorkflowNode): (opts: seq<string>)
    ensures |opts| == |node.output|
    ensures forall j :: 0 <= j < |opts| ==> opts[j] == OptionValue(node.id, node.output[j].name)
  {
    seq(|node.output|, j requires 0 <= j < |node.output| => OptionValue(node.id, node.output[j].name))
  }

  /**
   * The certificate select's options, built from the nodes the store
   * returns as the certificate producers before this node, in order.
   */
  function CertificateOptions(before: seq<WorkflowNode>): (opts: seq<string>)
    ensures forall k :: 0 <= k < |opts| ==> '#' in opts[k]
    ensures before != [] ==> |before[0].output| <= |opts| && opts[..|before[0].output|] == NodeOptions(before[0])
  {
    if before == [] then [] else NodeOptions(before[0]) + CertificateOptions(before[1..])
  }

  /** Ids and output names free of `#`. */
  predicate HashFree(before: seq<WorkflowNode>)
  {
    forall i, j :: 0 <= i < |before| && 0 <= j < |before[i].output| ==>
      '#' !in before[i].id && '#' !in before[i].output[j].name
  }

  /**
   * Every certificate option names an output of one of the given earlier
   * nodes, and (when ids and names are free of `#`) the deploy step decodes
   * it back to exactly that node and output.
   */
  lemma {:induction false} OptionsComeFromEarlierOutputs(before: seq<WorkflowNode>, k: nat)
    returns (i: nat, j: nat)
    requires k < |CertificateOptions(before)|
    ensures i < |before| && j < |before[i].output|
    ensures CertificateOptions(before)[k] == OptionValue(before[i].id, before[i].output[j].name)
    ensures HashFree(before) ==>
              NodeProcessor.ParseCertSource(CertificateOptions(before)[k]) ==
              Some(NodeProcessor.CertSource(before[i].id, before[i].output[j].name))
  {
    var head := NodeOptions(before[0]);
    if k < |head| {
      i, j := 0, k;
    } else {
      var i', j' := OptionsComeFromEarlierOutputs(before[1..], k - |head|);
      i, j := i' + 1, j';
      assert before[1..][i'] == before[i];
    }
    if HashFree(before) {
      OptionValueDecodes(before[i].id, before[i].output[j].name);
    }
  }

  /** Every declared output of every given earlier node is offered as an option. */
  lemma {:induction false} EveryEarlierOutputOffered(before: seq<WorkflowNode>, i: nat, j: nat)
    requires i < |before| && j < |before[i].output|
    ensures OptionValue(before[i].id, before[i].output[j].name) in CertificateOptions(before)
  {
    var head := NodeOptions(before[0]);
    if i == 0 {
      assert head[j] == OptionValue(before[i].id, before[i].output[j].name);
      assert CertificateOptions(before)[j] == head[j];
    } else {
      assert before[1..][i - 1] == before[i];
      EveryEarlierOutputOffered(before[1..], i - 1, j);
      assert CertificateOptions(before) == head + CertificateOptions(before[1..]);
    }
  }

  /** `onSubmit(config)`: the node with the submitted values as its settings, marked validated. */
  function Submitted(node: WorkflowNode, values: WebhookConfig): (n: WorkflowNode)
    ensures n.config == Some(values) && n.validated
    ensures n.id == node.id && n.name == node.name && n.output == node.output
  {
    node.(config := Some(values), validated := true)
  }

  /** `form.handleSubmit(onSubmit)`: the node is updated only when the values validate. */
  function HandleSubmit(node: WorkflowNode, values: WebhookConfig): (r: Option<WorkflowNode>)
    ensures r.Some? <==> Validate(values).Success?
    ensures r.Some? ==> r.value == Submitted(node, values)
  {
    if Validate(values).Success? then Some(Submitted(node, values)) else None
  }

  /** Reopening a submitted node shows the submitted values, with the provider type forced to "webhook". */
  lemma ReopenShowsSubmitted(node: WorkflowNode, values: WebhookConfig)
    requires HandleSubmit(node, values).Some?
    ensures DefaultValues(HandleSubmit(node, values).value) == values.(providerType := Some("webhook"))
    ensures Validate(DefaultValues(HandleSubmit(node, values).value)).Success?
  {
  }
}
