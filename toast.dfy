/**
 * The toast payload builders of `lib/toast.ts`: each takes a title and an
 * optional description and tags a variant; only `error` rewrites the
 * description, replacing a missing or empty one by a default text.
 */
module Toast {
  import opened Wrappers
  import JsText

  datatype Variant = SuccessVariant | Destructive | WarningVariant | DefaultVariant

  /** `{ title, description? }` */
  datatype ToastMessage = ToastMessage(title: string, description: Option<string>)

  /** What is handed to `toast(...)`; `variant` is absent when a caller sets none. */
  datatype Toast = Toast(title: string, description: Option<string>, variant: Option<Variant>)

  const DefaultErrorDescription: string := "Une erreur est survenue"

  /** `showToast.success` */
  function Success(m: ToastMessage): Toast {
    Toast(m.title, m.description, Some(SuccessVariant))
  }

  /** `showToast.error` */
  function Error(m: ToastMessage): (t: Toast)
    ensures t.description.Some? && t.description.value != ""
  {
    Toast(m.title, Some(JsText.OptionalOr(m.description, DefaultErrorDescription)), Some(Destructive))
  }

  /** `showToast.warning` */
  function Warning(m: ToastMessage): Toast {
    Toast(m.title, m.description, Some(WarningVariant))
  }

  /** `showToast.info` */
  function Info(m: ToastMessage): Toast {
    Toast(m.title, m.description, Some(DefaultVariant))
  }

  /** Every builder returns the title unchanged, and each tags its own variant. */
  lemma BuildersKeepTitle(m: ToastMessage)
    ensures Success(m).title == Error(m).title == Warning(m).title == Info(m).title == m.title
    ensures Success(m).variant == Some(SuccessVariant) && Error(m).variant == Some(Destructive)
    ensures Warning(m).variant == Some(WarningVariant) && Info(m).variant == Some(DefaultVariant)
  {
  }

  /** `success`, `warning` and `info` pass the description through, whatever it is. */
  lemma OnlyErrorRewritesDescription(m: ToastMessage)
    ensures Success(m).description == Warning(m).description == Info(m).description == m.description
    ensures Error(m).description == m.description <==> (m.description.Some? && m.description.value != "")
  {
  }

  /** `error` keeps a non-empty description and substitutes the default for a missing or empty one. */
  lemma ErrorDescription(m: ToastMessage)
    ensures m.description.Some? && m.description.value != "" ==> Error(m).description == m.description
    ensures m.description.None? || m.description == Some("") ==> Error(m).description == Some(DefaultErrorDescription)
  {
  }
}
