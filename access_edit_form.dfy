/**
 * The credential editor: an envelope form (name, provider type, config)
 * composed with a payload form chosen by the provider type. Payload changes
 * reach the editor as form-change events named by the editor's scope name;
 * validation succeeds only when both forms validate.
 */
module AccessEditForm {
  import opened Common
  import JsStrings
  import Zod
  import AliyunConfig
  import PayloadFormProps

  /** The values of `ACCESS_PROVIDER_TYPES`, in the order of the dispatch. */
  datatype ProviderType =
    | ACMEHttpReq | Aliyun | AWS | BaiduCloud | BytePlus | Cloudflare | DogeCloud | GoDaddy
    | HuaweiCloud | Kubernetes | Local | NameSilo | PowerDNS | Qiniu | SSH | TencentCloud
    | VolcEngine | Webhook

  /** A value of the `configType` field: one of the enum's values, or any other string. */
  datatype TypeValue = Listed(provider: ProviderType) | Unlisted(raw: string)

  /** The payload form components, one per provider type. */
  datatype PayloadForm =
    | ACMEHttpReqConfig | AliyunConfigForm | AWSConfig | BaiduCloudConfig | BytePlusConfig
    | CloudflareConfig | DogeCloudConfig | GoDaddyConfig | HuaweiCloudConfig | KubernetesConfig
    | LocalConfig | NameSiloConfig | PowerDNSConfig | QiniuConfig | SSHConfig
    | TencentCloudConfig | VolcEngineConfig | WebhookConfig

  /** The `switch (configType)` arm for a listed provider type. */
  function FormFor(p: ProviderType): (f: PayloadForm)
    ensures f.AliyunConfigForm? <==> p.Aliyun?
    ensures f.WebhookConfig? <==> p.Webhook?
  {
    match p
    case ACMEHttpReq => ACMEHttpReqConfig
    case Aliyun => AliyunConfigForm
    case AWS => AWSConfig
    case BaiduCloud => BaiduCloudConfig
    case BytePlus => BytePlusConfig
    case Cloudflare => CloudflareConfig
    case DogeCloud => DogeCloudConfig
    case GoDaddy => GoDaddyConfig
    case HuaweiCloud => HuaweiCloudConfig
    case Kubernetes => KubernetesConfig
    case Local => LocalConfig
    case NameSilo => NameSiloConfig
    case PowerDNS => PowerDNSConfig
    case Qiniu => QiniuConfig
    case SSH => SSHConfig
    case TencentCloud => TencentCloudConfig
    case VolcEngine => VolcEngineConfig
    case Webhook => WebhookConfig
  }

  /** The provider type a payload form belongs to: the inverse of `FormFor`. */
  function ProviderOf(f: PayloadForm): (p: ProviderType)
    ensures FormFor(p) == f
  {
    match f
    case ACMEHttpReqConfig => ACMEHttpReq
    case AliyunConfigForm => Aliyun
    case AWSConfig => AWS
    case BaiduCloudConfig => BaiduCloud
    case BytePlusConfig => BytePlus
    case CloudflareConfig => Cloudflare
    case DogeCloudConfig => DogeCloud
    case GoDaddyConfig => GoDaddy
    case HuaweiCloudConfig => HuaweiCloud
    case KubernetesConfig => Kubernetes
    case LocalConfig => Local
    case NameSiloConfig => NameSilo
    case PowerDNSConfig => PowerDNS
    case QiniuConfig => Qiniu
    case SSHConfig => SSH
    case TencentCloudConfig => TencentCloud
    case VolcEngineConfig => VolcEngine
    case WebhookConfig => Webhook
  }

  /**
   * The payload form mounted for a `configType` state: exactly one form for
   * each listed type, none for an unlisted or unset type.
   */
  function SelectPayloadForm(configType: Option<TypeValue>): (r: Option<PayloadForm>)
    ensures r.Some? <==> configType.Some? && configType.value.Listed?
    ensures r.Some? ==> ProviderOf(r.value) == configType.value.provider
  {
    match configType
    case Some(Listed(p)) => Some(FormFor(p))
    case _ => None
  }

  /** Distinct provider types select distinct payload forms, and every form is selected by its type. */
  lemma {:induction false} DispatchIsBijective(p: ProviderType, q: ProviderType, f: PayloadForm)
    ensures SelectPayloadForm(Some(Listed(p))) == SelectPayloadForm(Some(Listed(q))) ==> p == q
    ensures SelectPayloadForm(Some(Listed(ProviderOf(f)))) == Some(f)
  {
    if SelectPayloadForm(Some(Listed(p))) == SelectPayloadForm(Some(Listed(q))) {
      assert ProviderOf(FormFor(p)) == p;
    }
  }

  /** Payload values by field name. */
  type Config = map<string, string>

  /** The editor's values: `name`, `configType` and `config`, each possibly unset. */
  datatype Values = Values(name: Option<string>, configType: Option<TypeValue>, config: Option<Config>)

  const Unset := Values(None, None, None)

  /**
   * The values of the envelope's mounted fields, `name` and `configType`:
   * what `onValuesChange` reports and what the envelope's own validation
   * resolves with. `config` has no field of its own; it is only in the store.
   */
  function Mounted(v: Values): (m: Values)
    ensures m.name == v.name && m.configType == v.configType && m.config.None?
  {
    v.(config := None)
  }

  /** The envelope's `name` rule: a string of 1 to 64 characters once trimmed. */
  predicate NameAccepted(name: Option<string>)
  {
    name.Some? && JsStrings.TrimmedLengthIn(name.value, 1, 64)
  }

  /** The envelope's `configType` rule: one of the enum's values. */
  predicate TypeAccepted(configType: Option<TypeValue>)
  {
    configType.Some? && configType.value.Listed?
  }

  /**
   * Validation of the envelope form: resolves with the mounted fields'
   * values when both the name and the type pass (`config` is not
   * constrained), otherwise rejects with issues naming exactly the fields
   * that fail.
   */
  function ValidateEnvelope(v: Values): (r: Result<Values, seq<Zod.FieldIssue>>)
    ensures r.Success? <==> NameAccepted(v.name) && TypeAccepted(v.configType)
    ensures r.Success? ==> r.value == Mounted(v)
    ensures r.Failure? ==> (Zod.Mentions(r.error, "name") <==> !NameAccepted(v.name))
    ensures r.Failure? ==> (Zod.Mentions(r.error, "configType") <==> !TypeAccepted(v.configType))
  {
    var nameIssues := Zod.TrimmedString("name", v.name, 1, 64);
    var typeIssues := if TypeAccepted(v.configType) then [] else Zod.Issue("configType", Zod.NotAnOption);
    Zod.MentionsAppend(nameIssues, typeIssues, "name");
    Zod.MentionsAppend(nameIssues, typeIssues, "configType");
    assert !Zod.Mentions(typeIssues, "name") && !Zod.Mentions(nameIssues, "configType");
    if nameIssues + typeIssues == [] then Success(Mounted(v)) else Failure(nameIssues + typeIssues)
  }

  /** The envelope places no constraint on `config`, and its outcome does not depend on it. */
  lemma EnvelopeIgnoresConfig(v: Values, config: Option<Config>)
    ensures ValidateEnvelope(v) == ValidateEnvelope(v.(config := config))
  {
  }

  /** Which half of a validation rejected first, when both reject. */
  datatype Side = EnvelopeSide | PayloadSide

  /**
   * `validateFields()`: `Promise.all` of the envelope's and the payload's
   * validations, then the envelope's value. It succeeds only when both
   * succeed, and it rejects with the first rejection to settle.
   */
  function AggregateValidation(
    envelope: Result<Values, seq<Zod.FieldIssue>>,
    payload: Result<Config, seq<Zod.FieldIssue>>,
    firstRejected: Side): (r: Result<Values, seq<Zod.FieldIssue>>)
    ensures r.Success? <==> envelope.Success? && payload.Success?
    ensures r.Success? ==> r.value == envelope.value
    ensures r.Failure? ==> (envelope.Failure? && r.error == envelope.error) || (payload.Failure? && r.error == payload.error)
    ensures envelope.Failure? && payload.Success? ==> r == Failure(envelope.error)
    ensures envelope.Success? && payload.Failure? ==> r == Failure(payload.error)
  {
    match (envelope, payload)
    case (Success(v), Success(_)) => Success(v)
    case (Failure(e), Success(_)) => Failure(e)
    case (Success(_), Failure(e)) => Failure(e)
    case (Failure(e1), Failure(e2)) => Failure(if firstRejected == EnvelopeSide then e1 else e2)
  }

  /** An Aliyun payload: the editor reports success only for values both forms accept. */
  lemma AliyunRecordValid(v: Values, payload: Config, firstRejected: Side)
    ensures AggregateValidation(ValidateEnvelope(v), AliyunConfig.Validate(payload), firstRejected).Success? <==>
              NameAccepted(v.name) && TypeAccepted(v.configType) && AliyunConfig.Accepted(payload)
  {
  }

  datatype Mode = Add | Edit

  /** `model?.configType` */
  function ConfigTypeOf(model: Option<Values>): Option<TypeValue>
  {
    if model.Some? then model.value.configType else None
  }

  /** `model?.config` */
  function ConfigOf(model: Option<Values>): Option<Config>
  {
    if model.Some? then model.value.config else None
  }

  /** The editor component while mounted. */
  class Editor {
    const mode: Mode
    /** The payload form's name, fixed at mount; change events carrying it come from this editor's payload form. */
    const scopeName: string
    const disabled: bool
    const loading: bool
    /** The host's `model` prop. */
    var model: Option<Values>
    /** The envelope form's `initialValues`, restored by a reset. */
    var initialValues: Values
    /** The envelope form's store. */
    var values: Values
    /** The `configType` state that selects the payload form. */
    var configType: Option<TypeValue>
    /** Every value passed to `onModelChange`, in order. */
    var notifications: seq<Values>

    constructor (mode: Mode, scopeName: string, disabled: bool, loading: bool, model: Option<Values>)
      ensures this.mode == mode && this.scopeName == scopeName
      ensures this.disabled == disabled && this.loading == loading && this.model == model
      ensures initialValues == model.GetOr(Unset) && values == initialValues
      ensures configType == ConfigTypeOf(model) && notifications == []
    {
      this.mode := mode;
      this.scopeName := scopeName;
      this.disabled := disabled;
      this.loading := loading;
      this.model := model;
      initialValues := model.GetOr(Unset);
      values := model.GetOr(Unset);
      configType := ConfigTypeOf(model);
      notifications := [];
    }

    /** `disabled={loading || disabled}` on the envelope form: its inputs take no user input. */
    predicate Locked()
    {
      disabled || loading
    }

    /** The payload form currently mounted. */
    function PayloadForm(): Option<PayloadForm>
      reads this
    {
      SelectPayloadForm(configType)
    }

    /**
     * The props the mounted payload form receives: always named by the
     * scope name and seeded with `model.config`, whatever type is selected.
     */
    function PayloadProps(): (p: PayloadFormProps.Props)
      reads this
      ensures p.formName == scopeName && p.model == ConfigOf(model)
      ensures AliyunConfig.Mount(p).name == scopeName
    {
      PayloadFormProps.Props(scopeName, disabled, loading, ConfigOf(model))
    }

    /**
     * `handleFormProviderChange(name)`: an event from this editor's payload
     * form copies the payload's values into `config` and reports the full
     * values; an event with any other name changes nothing.
     */
    method HandleFormProviderChange(name: string, payloadValues: Config)
      modifies this`values, this`notifications
      ensures name == scopeName ==>
                values == old(values).(config := Some(payloadValues)) &&
                notifications == old(notifications) + [values]
      ensures name != scopeName ==> values == old(values) && notifications == old(notifications)
    {
      if name == scopeName {
        values := values.(config := Some(payloadValues));
        notifications := notifications + [values];
      }
    }

    /**
     * `handleFormChange(_, fields)`: the `configType` state follows the
     * form's type (set only when it differs), and the values are reported.
     */
    method HandleFormChange(fields: Values)
      modifies this`configType, this`notifications
      ensures configType == fields.configType && PayloadForm() == SelectPayloadForm(fields.configType)
      ensures notifications == old(notifications) + [fields]
    {
      if fields.configType != configType {
        configType := fields.configType;
      }
      notifications := notifications + [fields];
    }

    /**
     * The user picks a type in the type selector. The selector is disabled
     * unless the mode is `Add`, and the whole envelope form while it is
     * locked, so in `Edit` mode or while locked nothing changes. The change
     * is reported with the mounted fields' values.
     */
    method SelectType(choice: Option<TypeValue>)
      modifies this`values, this`configType, this`notifications
      ensures mode == Add && !Locked() ==>
                values == old(values).(configType := choice) && configType == choice &&
                PayloadForm() == SelectPayloadForm(choice) &&
                notifications == old(notifications) + [Mounted(values)]
      ensures mode == Edit || Locked() ==>
                values == old(values) && configType == old(configType) && PayloadForm() == old(PayloadForm()) &&
                notifications == old(notifications)
    {
      if mode == Add && !Locked() {
        values := values.(configType := choice);
        HandleFormChange(Mounted(values));
      }
    }

    /**
     * The user types a name in the envelope form; the change is reported with
     * the mounted fields' values. While the form is locked nothing changes.
     */
    method EditName(name: string)
      modifies this`values, this`configType, this`notifications
      ensures !Locked() ==>
                values == old(values).(name := Some(name)) && configType == values.configType &&
                notifications == old(notifications) + [Mounted(values)]
      ensures Locked() ==>
                values == old(values) && configType == old(configType) && notifications == old(notifications)
    {
      if !Locked() {
        values := values.(name := Some(name));
        HandleFormChange(Mounted(values));
      }
    }

    /** `getFieldsValue()` */
    method GetFieldsValue() returns (v: Values)
      ensures v == values
    {
      v := values;
    }

    /** `resetFields()`: the envelope form returns to its initial values; the selected type and the payload form are untouched. */
    method ResetFields()
      modifies this`values
      ensures values == initialValues
    {
      values := initialValues;
    }

    /**
     * `validateFields()`: the envelope's own validation joined with the
     * payload form's outcome. It succeeds only when the envelope's name and
     * type pass and the payload passes, and it then yields the envelope's
     * mounted fields, without `config`.
     */
    method ValidateFields(payload: Result<Config, seq<Zod.FieldIssue>>, firstRejected: Side)
      returns (r: Result<Values, seq<Zod.FieldIssue>>)
      ensures r == AggregateValidation(ValidateEnvelope(values), payload, firstRejected)
      ensures r.Success? <==> NameAccepted(values.name) && TypeAccepted(values.configType) && payload.Success?
      ensures r.Success? ==> r.value == Mounted(values) && r.value.config.None?
    {
      r := AggregateValidation(ValidateEnvelope(values), payload, firstRejected);
    }

    /**
     * A new `model` prop: it becomes the initial values (used by the next
     * reset); the type state is reset to the model's type only when that
     * type changed, so a type picked since then survives any other change
     * to the model. The form's current values stay.
     */
    method SetModel(model: Option<Values>)
      modifies this`model, this`initialValues, this`configType
      ensures this.model == model && initialValues == model.GetOr(Unset)
      ensures configType ==
                if ConfigTypeOf(model) != ConfigTypeOf(old(this.model)) then ConfigTypeOf(model) else old(configType)
      ensures ConfigTypeOf(model) == ConfigTypeOf(old(this.model)) ==> PayloadForm() == old(PayloadForm())
    {
      if ConfigTypeOf(model) != ConfigTypeOf(this.model) {
        configType := ConfigTypeOf(model);
      }
      this.model := model;
      initialValues := model.GetOr(Unset);
    }
  }

  /** Two editors open at once: an event from one editor's payload form leaves the other as it was. */
  method DeliverToBoth(a: Editor, b: Editor, payloadValues: Config)
    requires a != b && a.scopeName != b.scopeName
    modifies a`values, a`notifications, b`values, b`notifications
    ensures a.values == old(a.values).(config := Some(payloadValues))
    ensures a.notifications == old(a.notifications) + [a.values]
    ensures b.values == old(b.values) && b.notifications == old(b.notifications)
  {
    a.HandleFormProviderChange(a.scopeName, payloadValues);
    b.HandleFormProviderChange(a.scopeName, payloadValues);
  }

  /**
   * A type picked in add mode survives a new model whose type is unchanged:
   * only a change of `model.configType` resets the type state.
   */
  method PickThenUpdateModel(e: Editor, choice: Option<TypeValue>, model: Option<Values>)
    requires e.mode == Add && !e.Locked() && ConfigTypeOf(model) == ConfigTypeOf(e.model)
    modifies e
    ensures e.configType == choice && e.PayloadForm() == SelectPayloadForm(choice)
    ensures e.initialValues == model.GetOr(Unset)
  {
    e.SelectType(choice);
    e.SetModel(model);
  }

  /** Resetting is idempotent: the values after a second reset are those after the first, the initial values. */
  method ResetTwice(e: Editor) returns (once: Values, twice: Values)
    modifies e`values
    ensures once == twice == e.initialValues
  {
    e.ResetFields();
    once := e.GetFieldsValue();
    e.ResetFields();
    twice := e.GetFieldsValue();
  }
}
