/**
 * The request schemas of the account endpoints (signupSchema and
 * resendOtpSchema), with the syntax check of an e-mail address left as a
 * parameter `isEmail`.
 */
module AuthValidation {
  import opened Js

  /** The fields of a signup request body the schema looks at. */
  datatype SignupBody = SignupBody(name: Json, password: Json, email: Json, phone: Json)

  /** `z.string().min(n)`: a string of at least `n` characters. */
  predicate MinLength(v: Json, n: nat) {
    v.Str? && |v.s| >= n
  }

  /** `z.string().email()`. */
  predicate Email(v: Json, isEmail: string -> bool) {
    v.Str? && isEmail(v.s)
  }

  /** signupSchema, its `refine` included: either email or phone must be truthy. */
  predicate SignupAccepts(b: SignupBody, isEmail: string -> bool) {
    && MinLength(b.name, 2)
    && MinLength(b.password, 6)
    && (b.email.Undefined? || Email(b.email, isEmail))
    && (b.phone.Undefined? || MinLength(b.phone, 10))
    && (Truthy(b.email) || Truthy(b.phone))
  }

  /** resendOtpSchema: a required e-mail address. */
  predicate ResendAccepts(email: Json, isEmail: string -> bool) {
    Email(email, isEmail)
  }

  /**
   * An accepted signup carries a contact: a non-empty address that passes
   * the e-mail check, or a phone number of at least 10 characters.
   */
  lemma SignupHasContact(b: SignupBody, isEmail: string -> bool)
    requires SignupAccepts(b, isEmail)
    ensures (b.email.Str? && b.email.s != "" && isEmail(b.email.s)) || MinLength(b.phone, 10)
  {
  }

  /** The address of an accepted signup is one the resend endpoint accepts too. */
  lemma SignupEmailResendable(b: SignupBody, isEmail: string -> bool)
    requires SignupAccepts(b, isEmail) && !b.email.Undefined?
    ensures ResendAccepts(b.email, isEmail)
  {
  }
}

/** The one rule of the signup controller: who starts out verified. */
module AuthController {
  import opened Js
  import opened AuthValidation

  /** `isVerified` of a new account: only an account without an e-mail address. */
  function InitiallyVerified(email: Json): bool {
    !Truthy(email)
  }

  /**
   * Of accepted signups, one with an e-mail address starts unverified, and
   * one without starts verified and has a phone number of at least 10
   * characters.
   */
  lemma VerifiedIffPhoneOnly(b: SignupBody, isEmail: string -> bool)
    requires SignupAccepts(b, isEmail)
    ensures b.email.Str? && b.email.s != "" ==> !InitiallyVerified(b.email)
    ensures b.email.Undefined? ==> InitiallyVerified(b.email) && MinLength(b.phone, 10)
    ensures InitiallyVerified(b.email) ==> MinLength(b.phone, 10)
  {
  }
}
