/** The creator sign-up form: three checks, then the auth sign-up, then the
    creator row. The two backend calls are given by their outcomes. */
module Signup {
  import opened Wrappers
  import opened Text
  import opened Backend

  datatype SignupForm = SignupForm(name: string, email: string, password: string, voucherCode: string)

  /** The user record `signUp` returns; `identities` is the length of its
      identities list, None when the list is absent. */
  datatype AuthUser = AuthUser(id: string, identities: Option<nat>)

  datatype AuthOutcome = AuthError(message: string) | AuthOk(user: Option<AuthUser>)

  /** The creator row the form inserts. */
  datatype CreatorRow = CreatorRow(id: string, email: string, name: string, voucher_code: string)

  /** Which backend calls the submit made. */
  datatype Calls = NoCalls | AuthOnly | AuthAndInsert(row: CreatorRow)

  /** What the form shows afterwards and what it sent. */
  datatype SignupResult = SignupResult(error: string, success: bool, calls: Calls)

  const NameMissing := "Please enter your name."
  const VoucherMissing := "Please enter your voucher code."
  const PasswordShort := "Password must be at least 6 characters."
  const AccountExists := "An account with this email already exists."
  const DuplicateProfile := "This email or voucher code is already registered. Try logging in instead."

  /** The checks run before any call, in order; the password length is
      counted in UTF-16 code units. */
  function ValidateSignup(f: SignupForm): (r: Option<string>)
    ensures r.None? <==> !IsBlank(f.name) && !IsBlank(f.voucherCode) && Utf16Length(f.password) >= 6
    ensures IsBlank(f.name) ==> r == Some(NameMissing)
    ensures !IsBlank(f.name) && IsBlank(f.voucherCode) ==> r == Some(VoucherMissing)
    ensures r == Some(PasswordShort) <==> !IsBlank(f.name) && !IsBlank(f.voucherCode) && Utf16Length(f.password) < 6
  {
    if IsBlank(f.name) then Some(NameMissing)
    else if IsBlank(f.voucherCode) then Some(VoucherMissing)
    else if Utf16Length(f.password) < 6 then Some(PasswordShort)
    else None
  }

  /** The sign-up did not create a new user: no user came back, or it came
      back with an empty identities list (the address is taken). */
  predicate NoNewUser(auth: AuthOutcome) {
    auth.AuthOk? && (auth.user.None? || auth.user.value.identities == Some(0))
  }

  /** The creator row: the auth user's id, the trimmed name, the email as
      typed and the voucher code trimmed and upper-cased. */
  function NewCreatorRow(f: SignupForm, user: AuthUser): (row: CreatorRow)
    ensures row.id == user.id && row.email == f.email && row.name == Trim(f.name)
    ensures |row.voucher_code| == |Trim(f.voucherCode)|
    ensures forall i :: 0 <= i < |row.voucher_code| ==> row.voucher_code[i] == UpperChar(Trim(f.voucherCode)[i])
  {
    CreatorRow(user.id, f.email, Trim(f.name), ToUpper(Trim(f.voucherCode)))
  }

  /** `handleSubmit`. */
  function Submit(f: SignupForm, auth: AuthOutcome, insert: WriteOutcome): (r: SignupResult)
    ensures ValidateSignup(f).Some? ==> r == SignupResult(ValidateSignup(f).value, false, NoCalls)
    ensures ValidateSignup(f).None? && auth.AuthError? ==> r == SignupResult(auth.message, false, AuthOnly)
    ensures ValidateSignup(f).None? && NoNewUser(auth) ==> r == SignupResult(AccountExists, false, AuthOnly)
    ensures r.calls.AuthAndInsert? <==> ValidateSignup(f).None? && auth.AuthOk? && !NoNewUser(auth)
    ensures r.calls.AuthAndInsert? ==> r.calls.row == NewCreatorRow(f, auth.user.value)
    ensures r.calls.AuthAndInsert? && insert.WriteFailed? ==>
      r.error == (if insert.code == "23505" then DuplicateProfile else "Failed to create profile: " + insert.message)
    ensures r.success <==> r.calls.AuthAndInsert? && insert.Written?
    ensures r.success ==> r.error == ""
  {
    var check := ValidateSignup(f);
    if check.Some? then SignupResult(check.value, false, NoCalls)
    else if auth.AuthError? then SignupResult(auth.message, false, AuthOnly)
    else if auth.user.None? || auth.user.value.identities == Some(0) then SignupResult(AccountExists, false, AuthOnly)
    else
      var row := NewCreatorRow(f, auth.user.value);
      match insert
      case WriteFailed(code, message) =>
        SignupResult(if code == "23505" then DuplicateProfile else "Failed to create profile: " + message, false, AuthAndInsert(row))
      case Written => SignupResult("", true, AuthAndInsert(row))
  }

  /** A user whose identities list is missing (rather than empty) is taken
      as new. */
  lemma MissingIdentitiesIsNewUser(f: SignupForm, id: string, insert: WriteOutcome)
    requires ValidateSignup(f).None?
    ensures Submit(f, AuthOk(Some(AuthUser(id, None))), insert).calls.AuthAndInsert?
  {
  }
}
