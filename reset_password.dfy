/**
 * `resetPasswordSchema` of `components/users/forms/reset-password-form.tsx`:
 * a new password of 6 to 50 characters, and a confirmation equal to it.
 * The equality rule is an object-level refinement whose issue is reported at
 * `confirmPassword`; zod still runs it when a length rule has already failed,
 * so a form can carry a length issue and a mismatch issue at once.
 */
module ResetPassword {
  import opened Wrappers

  datatype Field = NewPassword | ConfirmPassword

  datatype Issue = Issue(path: Field, message: string)

  /** The values the form submits (`ResetPasswordDto`). */
  datatype ResetPasswordDto = ResetPasswordDto(newPassword: string, confirmPassword: string)

  const MinLength: nat := 6
  const MaxLength: nat := 50
  const TooShort := "Le mot de passe doit contenir au moins 6 caractères"
  const TooLong := "Le mot de passe ne doit pas dépasser 50 caractères"
  const Mismatch := "Les mots de passe ne correspondent pas"

  /** The form's starting values: both fields empty. */
  function Defaults(): ResetPasswordDto {
    ResetPasswordDto("", "")
  }

  /** What the schema accepts. */
  predicate Accepted(dto: ResetPasswordDto) {
    MinLength <= |dto.newPassword| <= MaxLength && dto.confirmPassword == dto.newPassword
  }

  /** Every issue the schema reports, in zod's order: the field rules, then the refinement. */
  function Issues(dto: ResetPasswordDto): (r: seq<Issue>)
    ensures r == [] <==> Accepted(dto)
    ensures forall i :: i in r ==> (i.path == NewPassword <==> i.message != Mismatch)
  {
    (if |dto.newPassword| < MinLength then [Issue(NewPassword, TooShort)] else [])
    + (if |dto.newPassword| > MaxLength then [Issue(NewPassword, TooLong)] else [])
    + (if dto.newPassword != dto.confirmPassword then [Issue(ConfirmPassword, Mismatch)] else [])
  }

  /** `resetPasswordSchema.safeParse`: the values, or every issue found. */
  function Validate(dto: ResetPasswordDto): (r: Result<ResetPasswordDto, seq<Issue>>)
    ensures r.Success? <==> Accepted(dto)
    ensures r.Success? ==> r.value == dto
    ensures r.Failure? ==> r.error != []
  {
    var issues := Issues(dto);
    if issues == [] then Success(dto) else Failure(issues)
  }

  /** An issue is reported at a field with a message exactly when the matching rule fails. */
  lemma IssueFor(dto: ResetPasswordDto)
    ensures Issue(NewPassword, TooShort) in Issues(dto) <==> |dto.newPassword| < MinLength
    ensures Issue(NewPassword, TooLong) in Issues(dto) <==> |dto.newPassword| > MaxLength
    ensures Issue(ConfirmPassword, Mismatch) in Issues(dto) <==> dto.confirmPassword != dto.newPassword
    ensures forall i :: i in Issues(dto) && i.path == ConfirmPassword ==> i.message == Mismatch
  {
  }

  /** A mismatch is reported at `confirmPassword` even when the new password is also out of bounds. */
  lemma MismatchReportedBesideLength(newPassword: string, confirmPassword: string)
    requires |newPassword| < MinLength && confirmPassword != newPassword
    ensures Issues(ResetPasswordDto(newPassword, confirmPassword))
      == [Issue(NewPassword, TooShort), Issue(ConfirmPassword, Mismatch)]
  {
  }

  /** The confirmation has no length rule: any length is accepted once it equals a valid new password. */
  lemma ConfirmHasNoLengthRule(dto: ResetPasswordDto)
    requires MinLength <= |dto.newPassword| <= MaxLength
    ensures Validate(ResetPasswordDto(dto.newPassword, dto.newPassword)).Success?
    ensures Validate(dto).Failure? ==> dto.confirmPassword != dto.newPassword
  {
  }

  /** The starting form is rejected, for its empty new password only. */
  lemma DefaultsRejected()
    ensures Issues(Defaults()) == [Issue(NewPassword, TooShort)]
    ensures Validate(Defaults()).Failure?
  {
  }
}
