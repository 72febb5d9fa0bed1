/**
 * The enabling rules of the three account forms: signing in, creating an account and resetting a
 * password. Every field is read trimmed of whitespace and newlines; lengths count Unicode scalars.
 */
module LoginForms {
  import opened Wrappers
  import opened Text

  /** `LoginMode`. */
  datatype LoginMode = Sms | Password

  const CodeLength: nat := 6
  const MinPasswordLength: nat := 6

  /** `LoginView.isPrimaryDisabled`. */
  function PrimaryDisabled(mode: LoginMode, phone: string, password: string, code: string): bool {
    if mode == Password then TrimWhite(phone) == [] || TrimWhite(password) == []
    else TrimWhite(phone) == [] || |TrimWhite(code)| != CodeLength
  }

  /**
   * Signing in by password needs a phone and a password that are not blank; signing in by code
   * needs a phone that is not blank and a code of six characters once trimmed. The other mode's
   * field plays no part.
   */
  lemma PrimaryDisabledMeaning(mode: LoginMode, phone: string, password: string, code: string)
    ensures mode == Password ==> (PrimaryDisabled(mode, phone, password, code) <==> AllWhite(phone) || AllWhite(password))
    ensures mode == Sms ==> (PrimaryDisabled(mode, phone, password, code) <==> AllWhite(phone) || |TrimWhite(code)| != CodeLength)
    ensures forall other: string :: PrimaryDisabled(Password, phone, password, other) == PrimaryDisabled(Password, phone, password, code)
    ensures forall other: string :: PrimaryDisabled(Sms, phone, other, code) == PrimaryDisabled(Sms, phone, password, code)
  {
    TrimWhiteEmpty(phone);
    TrimWhiteEmpty(password);
  }

  /** `CreateAccountView.resolvedPhone`: the phone handed in when there is one, else the typed one. */
  function ResolvedPhone(phone: Option<string>, phoneInput: string): string {
    if phone.Some? && phone.value != [] then phone.value else TrimWhite(phoneInput)
  }

  /** `CreateAccountView.canCreateAccount`. */
  function CanCreateAccount(nickname: string, password: string, confirmPassword: string,
                            phone: Option<string>, phoneInput: string): bool
  {
    var trimmedPassword := TrimWhite(password);
    && TrimWhite(nickname) != []
    && |trimmedPassword| >= MinPasswordLength
    && trimmedPassword == TrimWhite(confirmPassword)
    && TrimWhite(ResolvedPhone(phone, phoneInput)) != []
  }

  /**
   * An account can be created exactly when the nickname is not blank, the trimmed password has at
   * least six characters and matches the trimmed confirmation, and the phone in use is not blank:
   * a handed-in phone wins over the typed one whenever it is not empty.
   */
  lemma CanCreateAccountMeaning(nickname: string, password: string, confirmPassword: string,
                                phone: Option<string>, phoneInput: string)
    ensures CanCreateAccount(nickname, password, confirmPassword, phone, phoneInput) <==>
      && !AllWhite(nickname)
      && |TrimWhite(password)| >= MinPasswordLength
      && TrimWhite(password) == TrimWhite(confirmPassword)
      && (if phone.Some? && phone.value != [] then !AllWhite(phone.value) else !AllWhite(phoneInput))
  {
    TrimWhiteEmpty(nickname);
    TrimWhiteEmpty(phoneInput);
    if phone.Some? {
      TrimWhiteEmpty(phone.value);
    }
    TrimByIdempotent(phoneInput, IsWhite);
  }

  /** `ForgotPasswordView.canSubmit`. */
  function CanSubmit(phone: string, code: string, password: string, confirmPassword: string): bool {
    var trimmedPassword := TrimWhite(password);
    && TrimWhite(phone) != []
    && |TrimWhite(code)| == CodeLength
    && |trimmedPassword| >= MinPasswordLength
    && trimmedPassword == TrimWhite(confirmPassword)
  }

  /**
   * A reset can be sent exactly when the phone is not blank, the code has six characters, and the
   * password has at least six and matches its confirmation, all once trimmed; then the code and the
   * password as typed are at least that long too.
   */
  lemma CanSubmitMeaning(phone: string, code: string, password: string, confirmPassword: string)
    ensures CanSubmit(phone, code, password, confirmPassword) <==>
      && !AllWhite(phone)
      && |TrimWhite(code)| == CodeLength
      && |TrimWhite(password)| >= MinPasswordLength
      && TrimWhite(password) == TrimWhite(confirmPassword)
    ensures CanSubmit(phone, code, password, confirmPassword) ==>
      |code| >= CodeLength && |password| >= MinPasswordLength && |confirmPassword| >= MinPasswordLength
  {
    TrimWhiteEmpty(phone);
    TrimWhiteEmpty(code);
    TrimWhiteEmpty(password);
    TrimWhiteEmpty(confirmPassword);
  }
}
