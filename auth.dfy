/**
 * Sign-up with e-mail verification, login with role selection, refresh
 * tokens, logout and the password flows. Hashing is a perfect hash
 * (`Accounts.Digest`); signed tokens, generated codes and the clock are
 * parameters.
 */
module Auth {

  import opened Outcomes
  import opened Tables
  import opened Accounts
  import Profiles
  import Applications

  // ---------------------------------------------------------------------------
  // One-time codes on the user row

  /**
   * The checks verifyEmail and resetPassword make on a stored code: present
   * (an empty code is falsy), equal to the one given, and not expired. A
   * code is expired only once its expiry is strictly before `now`.
   */
  function CodeCheck(code: Option<string>, expiresAt: Option<int>, otp: string, now: int): (err: Option<string>)
    ensures err.None? <==> code == Some(otp) && otp != "" && expiresAt.Some? && now <= expiresAt.value
    ensures (code.None? || code == Some("") || expiresAt.None?) ==> err == Some("No OTP found")
    ensures (code.Some? && code.value != "" && expiresAt.Some? && code.value != otp) ==> err == Some("Invalid OTP")
    ensures (code == Some(otp) && otp != "" && expiresAt.Some? && expiresAt.value < now) ==> err == Some("OTP expired")
  {
    if code.None? || code.value == "" || expiresAt.None? then Some("No OTP found")
    else if code.value != otp then Some("Invalid OTP")
    else if expiresAt.value < now then Some("OTP expired")
    else None
  }

  // ---------------------------------------------------------------------------
  // Sign-up

  datatype SignupDto = SignupDto(
    username: string,
    email: string,
    password: string,
    preference: Option<string>,
    profileType: Profiles.ProfileType,
    payloads: Profiles.Payloads,
    bio: Option<string>,
    imageUrl: Option<string>,
    instagramHandler: Option<string>,
    accountType: Option<string>)

  /** The body's fields signup copies into the new profile. */
  function ProfileFields(dto: SignupDto): (f: Profiles.SignupFields)
    ensures f.preference == dto.preference && f.bio == dto.bio && f.imageUrl == dto.imageUrl
    ensures f.instagramHandler == dto.instagramHandler && f.accountType == dto.accountType
  {
    Profiles.SignupFields(dto.preference, dto.bio, dto.imageUrl, dto.instagramHandler, dto.accountType)
  }

  datatype SignupResult = SignupResult(message: string, userId: Id)

  const OtpResent := "Email not verified. OTP resent."
  const SignupDone := "Signup successful. OTP sent to email."

  /**
   * signup's refusals: a verified account with the e-mail, or, for a new
   * account, the profile type's missing required fields (which roll the
   * whole transaction back).
   */
  function SignupCheck(db: Db, dto: SignupDto): (err: Option<Outcome<SignupResult>>)
    ensures err.Some? ==> err.value.BadRequest?
    ensures err.None? <==> ((FindByEmail(db, dto.email).Some? && !db.accounts[FindByEmail(db, dto.email).value].isEmailVerified)
      || (FindByEmail(db, dto.email).None? && Profiles.RequiredCheck(dto.profileType, dto.payloads).None?))
    ensures (FindByEmail(db, dto.email).Some? && db.accounts[FindByEmail(db, dto.email).value].isEmailVerified)
      ==> err == Some(BadRequest("Email already exists"))
  {
    var k := FindByEmail(db, dto.email);
    if k.Some? then
      if db.accounts[k.value].isEmailVerified then Some(BadRequest("Email already exists")) else None
    else
      var e := Profiles.RequiredCheck(dto.profileType, dto.payloads);
      if e.Some? then Some(BadRequest(e.value)) else None
  }

  /** A new account: unverified, role `USER`, holding the e-mail code and its profile. */
  function NewAccount(dto: SignupDto, otp: string, expires: int, profileId: Id): (a: Account)
    ensures !a.isEmailVerified && a.role == User && a.emailOtp == Some(otp) && a.emailOtpExpiresAt == Some(expires)
    ensures a.email == dto.email && Matches(dto.password, a.password) && a.refreshTokenHash.None?
  {
    Account(dto.username, dto.email, Digest(dto.password), false, Some(otp), Some(expires), None, None,
            User, None, None, Some(profileId))
  }

  /**
   * The state after a sign-up that passed its checks: an unverified account
   * only gets a fresh code; otherwise the account, its profile and the
   * profile's sub-profile are created together.
   */
  function SignedUp(db: Db, dto: SignupDto, otp: string, expires: int): Db
    requires SignupCheck(db, dto).None?
  {
    var k := FindByEmail(db, dto.email);
    if k.Some? then
      db.(accounts := db.accounts[k.value := db.accounts[k.value].(emailOtp := Some(otp), emailOtpExpiresAt := Some(expires))])
    else
      var pid := db.profiles.nextId;
      db.(accounts := db.accounts[db.nextId := NewAccount(dto, otp, expires, pid)],
          profiles := Profiles.SignedUp(db.profiles, db.nextId, ProfileFields(dto), dto.profileType, dto.payloads),
          nextId := db.nextId + 1)
  }

  function SignupReply(db: Db, dto: SignupDto): (r: SignupResult)
    ensures FindByEmail(db, dto.email).Some? ==> r == SignupResult(OtpResent, FindByEmail(db, dto.email).value)
    ensures FindByEmail(db, dto.email).None? ==> r == SignupResult(SignupDone, db.nextId)
  {
    var k := FindByEmail(db, dto.email);
    if k.Some? then SignupResult(OtpResent, k.value) else SignupResult(SignupDone, db.nextId)
  }

  lemma SignupKeepsOk(db: Db, dto: SignupDto, otp: string, expires: int)
    requires DbOk(db) && SignupCheck(db, dto).None?
    ensures DbOk(SignedUp(db, dto, otp, expires))
  {
    if FindByEmail(db, dto.email).None? {
      Profiles.SignupKeepsOk(db.profiles, db.nextId, ProfileFields(dto), dto.profileType, dto.payloads);
    }
  }

  /** Signing up again with an unverified e-mail replaces only that account's code and expiry. */
  lemma ResignupOnlyResendsCode(db: Db, dto: SignupDto, otp: string, expires: int)
    requires DbOk(db) && FindByEmail(db, dto.email).Some? && SignupCheck(db, dto).None?
    ensures var k := FindByEmail(db, dto.email).value; var db' := SignedUp(db, dto, otp, expires);
      db'.accounts[k] == db.accounts[k].(emailOtp := Some(otp), emailOtpExpiresAt := Some(expires))
      && db'.accounts.Keys == db.accounts.Keys && db'.profiles == db.profiles && db'.nextId == db.nextId
  {
  }

  /** After sign-up the e-mail belongs to exactly one account, which is unverified. */
  lemma SignupThenFind(db: Db, dto: SignupDto, otp: string, expires: int)
    requires DbOk(db) && SignupCheck(db, dto).None?
    ensures var db' := SignedUp(db, dto, otp, expires);
      FindByEmail(db', dto.email) == Some(SignupReply(db, dto).userId)
      && !db'.accounts[SignupReply(db, dto).userId].isEmailVerified
  {
    var db' := SignedUp(db, dto, otp, expires);
    SignupKeepsOk(db, dto, otp, expires);
    FindByEmailUnique(db', dto.email, SignupReply(db, dto).userId);
  }

  // ---------------------------------------------------------------------------
  // E-mail verification

  const AlreadyVerified := "Email already verified"
  const Verified := "Email verified successfully"

  /** verifyEmail's early answers: an unknown e-mail, an account already verified, or a bad code. */
  function VerifyCheck(db: Db, email: string, otp: string, now: int): (early: Option<Outcome<string>>)
    ensures FindByEmail(db, email).None? ==> early == Some(BadRequest("User not found"))
    ensures (FindByEmail(db, email).Some? && db.accounts[FindByEmail(db, email).value].isEmailVerified)
      ==> early == Some(Ok(AlreadyVerified))
    ensures early.None? <==> (FindByEmail(db, email).Some? && !db.accounts[FindByEmail(db, email).value].isEmailVerified
      && CodeCheck(db.accounts[FindByEmail(db, email).value].emailOtp,
                   db.accounts[FindByEmail(db, email).value].emailOtpExpiresAt, otp, now).None?)
  {
    var k := FindByEmail(db, email);
    if k.None? then Some(BadRequest("User not found"))
    else
      var a := db.accounts[k.value];
      if a.isEmailVerified then Some(Ok(AlreadyVerified))
      else
        var e := CodeCheck(a.emailOtp, a.emailOtpExpiresAt, otp, now);
        if e.Some? then Some(BadRequest(e.value)) else None
  }

  function EmailVerified(db: Db, k: Id): Db
    requires k in db.accounts
  {
    db.(accounts := db.accounts[k := db.accounts[k].(isEmailVerified := true, emailOtp := None, emailOtpExpiresAt := None)])
  }

  /** A successful verification is final: verifying again answers that the e-mail is already verified. */
  lemma VerifyThenVerify(db: Db, email: string, otp: string, otp': string, now: int, later: int)
    requires DbOk(db) && VerifyCheck(db, email, otp, now).None?
    ensures var k := FindByEmail(db, email).value; var db' := EmailVerified(db, k);
      db'.accounts[k].isEmailVerified && db'.accounts[k].emailOtp.None? && db'.accounts[k].emailOtpExpiresAt.None?
      && VerifyCheck(db', email, otp', later) == Some(Ok(AlreadyVerified))
  {
    var k := FindByEmail(db, email).value;
    var db' := EmailVerified(db, k);
    assert EmailsUnique(db'.accounts);
    FindByEmailUnique(db', email, k);
  }

  lemma VerifyKeepsOk(db: Db, k: Id)
    requires DbOk(db) && k in db.accounts
    ensures DbOk(EmailVerified(db, k))
  {
  }

  // ---------------------------------------------------------------------------
  // Login

  /** The user's application in program `p` has been approved. */
  predicate ApprovedIn(db: Db, p: Program, u: Id)
  {
    var k := FindApplication(db, p, u);
    k.Some? && db.applications[k.value].status == Approved
  }

  /** login's refusals, in order: credentials, verification, then the requested program role. */
  function LoginCheck(db: Db, email: string, password: string, loginAs: Option<Role>): (err: Option<Outcome<Id>>)
    ensures err.Some? ==> err.value.IsFailure()
    ensures err.None? <==> (FindByEmail(db, email).Some?
      && Matches(password, db.accounts[FindByEmail(db, email).value].password)
      && db.accounts[FindByEmail(db, email).value].isEmailVerified
      && (loginAs == Some(Ambassador) ==> ApprovedIn(db, AmbassadorProgram, FindByEmail(db, email).value))
      && (loginAs == Some(OfficialPartner) ==> ApprovedIn(db, PartnerProgram, FindByEmail(db, email).value)))
    ensures (FindByEmail(db, email).None? || !Matches(password, db.accounts[FindByEmail(db, email).value].password))
      ==> err == Some(Unauthorized("Invalid credentials"))
  {
    var k := FindByEmail(db, email);
    if k.None? || !Matches(password, db.accounts[k.value].password) then Some(Unauthorized("Invalid credentials"))
    else if !db.accounts[k.value].isEmailVerified then Some(Forbidden("Email not verified"))
    else if loginAs == Some(Ambassador) && !ApprovedIn(db, AmbassadorProgram, k.value) then Some(Forbidden("Ambassador not approved"))
    else if loginAs == Some(OfficialPartner) && !ApprovedIn(db, PartnerProgram, k.value) then
      Some(Forbidden("Official Partner not approved"))
    else None
  }

  /** The session's role: a program role when asked for, otherwise the stored role. */
  function SelectedRole(db: Db, k: Id, loginAs: Option<Role>): Role
    requires k in db.accounts
  {
    if loginAs == Some(Ambassador) then Ambassador
    else if loginAs == Some(OfficialPartner) then OfficialPartner
    else db.accounts[k].role
  }

  /** A login records the selected role and the new refresh token's hash. */
  function LoggedIn(db: Db, k: Id, role: Role, refreshToken: string): Db
    requires k in db.accounts
  {
    db.(accounts := db.accounts[k := db.accounts[k].(activeRole := Some(role), refreshTokenHash := Some(Digest(refreshToken)))])
  }

  datatype LoginResult = LoginResult(userId: Id, email: string, role: Role, accessToken: string, refreshToken: string)

  /**
   * A login never grants more than the user holds: the session's role is
   * the stored one, or a program role whose application is approved.
   */
  lemma LoginRoleEarned(db: Db, email: string, password: string, loginAs: Option<Role>)
    requires LoginCheck(db, email, password, loginAs).None?
    ensures var k := FindByEmail(db, email).value; var r := SelectedRole(db, k, loginAs);
      r == db.accounts[k].role
      || (r == Ambassador && ApprovedIn(db, AmbassadorProgram, k))
      || (r == OfficialPartner && ApprovedIn(db, PartnerProgram, k))
  {
  }

  /** Once an admin approves the application, its owner can log in with the program's role. */
  lemma ApproveThenLogin(db: Db, k: Id, password: string)
    requires DbOk(db) && k in db.applications
    requires var u := db.applications[k].userId;
      Matches(password, db.accounts[u].password) && db.accounts[u].isEmailVerified
    ensures var a := db.applications[k]; var db' := Applications.Reviewed(db, k, Approved);
      var role := Applications.GrantedRole(a.program);
      LoginCheck(db', db.accounts[a.userId].email, password, Some(role)).None?
      && SelectedRole(db', a.userId, Some(role)) == role
  {
    var a := db.applications[k];
    var db' := Applications.Reviewed(db, k, Approved);
    Applications.ReviewKeepsOk(db, k, Approved);
    FindByEmailUnique(db', db.accounts[a.userId].email, a.userId);
    FindApplicationUnique(db', a.program, a.userId, k);
  }

  lemma LoginKeepsOk(db: Db, k: Id, role: Role, refreshToken: string)
    requires DbOk(db) && k in db.accounts
    ensures DbOk(LoggedIn(db, k, role, refreshToken))
  {
  }

  // ---------------------------------------------------------------------------
  // Sessions

  /** refreshTokens: the token must match the stored hash. */
  function RefreshCheck(db: Db, u: Id, refreshToken: string): (err: Option<Outcome<Id>>)
    ensures err.None? <==> (u in db.accounts && db.accounts[u].refreshTokenHash.Some?
      && Matches(refreshToken, db.accounts[u].refreshTokenHash.value))
    ensures err.Some? ==> err == Some(Unauthorized("Access denied"))
  {
    if u !in db.accounts || db.accounts[u].refreshTokenHash.None? then Some(Unauthorized("Access denied"))
    else if !Matches(refreshToken, db.accounts[u].refreshTokenHash.value) then Some(Unauthorized("Access denied"))
    else None
  }

  /** A refresh stores the new token's hash in place of the old. */
  function Refreshed(db: Db, u: Id, newToken: string): Db
    requires u in db.accounts
  {
    db.(accounts := db.accounts[u := db.accounts[u].(refreshTokenHash := Some(Digest(newToken)))])
  }

  /** Refresh tokens rotate: after a refresh only the new token is accepted. */
  lemma RefreshRotates(db: Db, u: Id, token: string, newToken: string)
    requires RefreshCheck(db, u, token).None? && token != newToken
    ensures RefreshCheck(Refreshed(db, u, newToken), u, newToken).None?
    ensures RefreshCheck(Refreshed(db, u, newToken), u, token) == Some(Unauthorized("Access denied"))
  {
  }

  /** logout: an unknown id fails the update; otherwise the stored hash is cleared. */
  function LogoutCheck(db: Db, u: Id): (err: Option<Outcome<string>>)
    ensures err.None? <==> u in db.accounts
    ensures err.Some? ==> err == Some(Internal("Record to update not found"))
  {
    if u !in db.accounts then Some(Internal("Record to update not found")) else None
  }

  function SessionCleared(db: Db, u: Id): Db
    requires u in db.accounts
  {
    db.(accounts := db.accounts[u := db.accounts[u].(refreshTokenHash := None)])
  }

  /** After logout no refresh token is accepted until the next login. */
  lemma LogoutEndsRefresh(db: Db, u: Id, token: string)
    requires u in db.accounts
    ensures RefreshCheck(SessionCleared(db, u), u, token) == Some(Unauthorized("Access denied"))
  {
  }

  // ---------------------------------------------------------------------------
  // Passwords

  /** forgotPassword answers the same whether or not the e-mail has an account. */
  const ForgotReply := "If email exists, OTP sent."

  function ResetCodeSent(db: Db, email: string, otp: string, expires: int): Db
  {
    var k := FindByEmail(db, email);
    if k.None? then db
    else db.(accounts := db.accounts[k.value := db.accounts[k.value].(resetOtp := Some(otp), resetOtpExpiresAt := Some(expires))])
  }

  /** An unknown e-mail changes nothing; a known one gets the reset code and nothing else. */
  lemma ForgotChangesOnlyCode(db: Db, email: string, otp: string, expires: int)
    ensures FindByEmail(db, email).None? ==> ResetCodeSent(db, email, otp, expires) == db
    ensures FindByEmail(db, email).Some? ==>
      var k := FindByEmail(db, email).value;
      ResetCodeSent(db, email, otp, expires).accounts[k] == db.accounts[k].(resetOtp := Some(otp), resetOtpExpiresAt := Some(expires))
  {
  }

  /** resetPassword's refusals: an unknown e-mail, then the reset code's checks. */
  function ResetCheck(db: Db, email: string, otp: string, now: int): (err: Option<Outcome<string>>)
    ensures err.Some? ==> err.value.BadRequest?
    ensures err.None? <==> (FindByEmail(db, email).Some?
      && CodeCheck(db.accounts[FindByEmail(db, email).value].resetOtp,
                   db.accounts[FindByEmail(db, email).value].resetOtpExpiresAt, otp, now).None?)
    ensures FindByEmail(db, email).None? ==> err == Some(BadRequest("Invalid request"))
  {
    var k := FindByEmail(db, email);
    if k.None? then Some(BadRequest("Invalid request"))
    else
      var a := db.accounts[k.value];
      var e := CodeCheck(a.resetOtp, a.resetOtpExpiresAt, otp, now);
      if e.Some? then Some(BadRequest(e.value)) else None
  }

  /** The new password, the reset code used up, and every session ended. */
  function PasswordReset(db: Db, k: Id, newPassword: string): Db
    requires k in db.accounts
  {
    db.(accounts := db.accounts[k := db.accounts[k].(password := Digest(newPassword), resetOtp := None,
                                                     resetOtpExpiresAt := None, refreshTokenHash := None)])
  }

  /**
   * After a reset the new password logs in, no refresh token is accepted,
   * and the same code cannot reset the password again.
   */
  lemma ResetThenLogin(db: Db, email: string, otp: string, now: int, newPassword: string, token: string, later: int)
    requires DbOk(db) && ResetCheck(db, email, otp, now).None?
    ensures var k := FindByEmail(db, email).value; var db' := PasswordReset(db, k, newPassword);
      Matches(newPassword, db'.accounts[k].password)
      && RefreshCheck(db', k, token).Some?
      && ResetCheck(db', email, otp, later) == Some(BadRequest("No OTP found"))
  {
    var k := FindByEmail(db, email).value;
    var db' := PasswordReset(db, k, newPassword);
    assert EmailsUnique(db'.accounts);
    FindByEmailUnique(db', email, k);
  }

  /** changePassword: the caller must exist and know the current password. */
  function ChangeCheck(db: Db, u: Id, current: string): (err: Option<Outcome<string>>)
    ensures err.None? <==> u in db.accounts && Matches(current, db.accounts[u].password)
    ensures u !in db.accounts ==> err == Some(Unauthorized("Access denied"))
    ensures u in db.accounts && !Matches(current, db.accounts[u].password) ==> err == Some(BadRequest("Current password incorrect"))
  {
    if u !in db.accounts then Some(Unauthorized("Access denied"))
    else if !Matches(current, db.accounts[u].password) then Some(BadRequest("Current password incorrect"))
    else None
  }

  function PasswordChanged(db: Db, u: Id, newPassword: string): Db
    requires u in db.accounts
  {
    db.(accounts := db.accounts[u := db.accounts[u].(password := Digest(newPassword), refreshTokenHash := None)])
  }

  /** After a change only the new password is accepted, and every session is ended. */
  lemma ChangeThenLogin(db: Db, u: Id, current: string, newPassword: string, token: string)
    requires ChangeCheck(db, u, current).None? && current != newPassword
    ensures var db' := PasswordChanged(db, u, newPassword);
      ChangeCheck(db', u, newPassword).None? && ChangeCheck(db', u, current) == Some(BadRequest("Current password incorrect"))
      && RefreshCheck(db', u, token).Some?
  {
  }

  lemma PasswordKeepsOk(db: Db, k: Id, newPassword: string)
    requires DbOk(db) && k in db.accounts
    ensures DbOk(PasswordReset(db, k, newPassword)) && DbOk(PasswordChanged(db, k, newPassword))
    ensures DbOk(SessionCleared(db, k)) && DbOk(Refreshed(db, k, newPassword))
  {
  }

  lemma ForgotKeepsOk(db: Db, email: string, otp: string, expires: int)
    requires DbOk(db)
    ensures DbOk(ResetCodeSent(db, email, otp, expires))
  {
  }

  /** getMe. */
  function Me(db: Db, u: Id): (r: Outcome<Account>)
    ensures r.Ok? <==> u in db.accounts
    ensures r.Ok? ==> r.value == db.accounts[u]
    ensures !r.Ok? ==> r == NotFound("User is Not Found")
  {
    if u in db.accounts then Ok(db.accounts[u]) else NotFound("User is Not Found")
  }

  /**
   * The columns getUserById selects among those modelled: the password hash,
   * the one-time codes and the refresh-token hash are never read back.
   */
  datatype PublicAccount = PublicAccount(username: string, email: string, role: Role, isEmailVerified: bool)

  /** getUserById: the selected columns of the account. */
  function UserById(db: Db, u: Id): (r: Outcome<PublicAccount>)
    ensures r.Ok? <==> u in db.accounts
    ensures r.Ok? ==> (r.value.username == db.accounts[u].username && r.value.email == db.accounts[u].email
                       && r.value.role == db.accounts[u].role && r.value.isEmailVerified == db.accounts[u].isEmailVerified)
    ensures !r.Ok? ==> r == NotFound("User not found")
  {
    if u in db.accounts then
      var a := db.accounts[u];
      Ok(PublicAccount(a.username, a.email, a.role, a.isEmailVerified))
    else NotFound("User not found")
  }
}
