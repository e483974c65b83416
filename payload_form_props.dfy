/**
 * The props the credential editor hands to whichever payload form it mounts
 * (`configFormProps`): the same for all of the payload forms.
 */
module PayloadFormProps {
  import opened Common

  /** `{ form, formName, disabled, loading, model: model?.config }`; the form instance is left out. */
  datatype Props = Props(formName: string, disabled: bool, loading: bool, model: Option<map<string, string>>)
}
