/**
 * The Aliyun payload form of a credential: its schema, its default model,
 * and how it is mounted from the editor's props.
 */
module AliyunConfig {
  import opened Common
  import JsStrings
  import Zod
  import PayloadFormProps

  /** Payload values by field name (a partial `AliyunAccessConfig`). */
  type Values = map<string, string>

  const AccessKeyId := "accessKeyId"
  const AccessKeySecret := "accessKeySecret"

  function Field(v: Values, key: string): Option<string>
  {
    if key in v then Some(v[key]) else None
  }

  /** Both keys are present strings of 1 to 64 characters once trimmed. */
  predicate Accepted(v: Values)
  {
    && AccessKeyId in v && JsStrings.TrimmedLengthIn(v[AccessKeyId], 1, 64)
    && AccessKeySecret in v && JsStrings.TrimmedLengthIn(v[AccessKeySecret], 1, 64)
  }

  /**
   * `validateFields()` against the schema: resolves with the values when
   * both keys pass, otherwise rejects with an issue for each key that fails.
   */
  function Validate(v: Values): (r: Result<Values, seq<Zod.FieldIssue>>)
    ensures r.Success? <==> Accepted(v)
    ensures r.Success? ==> r.value == v
    ensures r.Failure? ==>
              (Zod.Mentions(r.error, AccessKeyId) <==>
                 !(AccessKeyId in v && JsStrings.TrimmedLengthIn(v[AccessKeyId], 1, 64)))
    ensures r.Failure? ==>
              (Zod.Mentions(r.error, AccessKeySecret) <==>
                 !(AccessKeySecret in v && JsStrings.TrimmedLengthIn(v[AccessKeySecret], 1, 64)))
  {
    var a := Zod.TrimmedString(AccessKeyId, Field(v, AccessKeyId), 1, 64);
    var b := Zod.TrimmedString(AccessKeySecret, Field(v, AccessKeySecret), 1, 64);
    Zod.MentionsAppend(a, b, AccessKeyId);
    Zod.MentionsAppend(a, b, AccessKeySecret);
    assert !Zod.Mentions(b, AccessKeyId) && !Zod.Mentions(a, AccessKeySecret);
    if a + b == [] then Success(v) else Failure(a + b)
  }

  /** `initModel()`: both keys present and empty, so the default never validates. */
  function InitModel(): (m: Values)
    ensures m.Keys == {AccessKeyId, AccessKeySecret} && m[AccessKeyId] == "" && m[AccessKeySecret] == ""
    ensures Validate(m).Failure? && Zod.Mentions(Validate(m).error, AccessKeyId)
    ensures Zod.Mentions(Validate(m).error, AccessKeySecret)
  {
    map[AccessKeyId := "", AccessKeySecret := ""]
  }

  /** The form as mounted: the name it registers under, whether it is disabled, and its initial values. */
  datatype MountedForm = MountedForm(name: string, disabled: bool, initialValues: Values)

  /**
   * Mounting the form: it registers under the caller's `formName` (so its
   * change events carry the caller's scope), is disabled while loading or
   * disabled, and starts from the supplied model or else the default model.
   */
  function Mount(props: PayloadFormProps.Props): (f: MountedForm)
    ensures f.name == props.formName
    ensures f.disabled <==> props.loading || props.disabled
    ensures props.model.Some? ==> f.initialValues == props.model.value
    ensures props.model.None? ==> f.initialValues == InitModel() && !Accepted(f.initialValues)
  {
    MountedForm(props.formName, props.loading || props.disabled, props.model.GetOr(InitModel()))
  }
}
