/**
 * The user, application and profile tables as one mutable store, with the
 * auth, program and profile services' operations as methods. A refused
 * operation leaves every table as it was.
 */
module AccountStore {

  import opened Outcomes
  import opened Tables
  import opened Accounts
  import Profiles
  import Applications
  import Auth

  datatype Tokens = Tokens(accessToken: string, refreshToken: string)

  class Store {
    var accounts: map<Id, Account>
    var applications: map<Id, Application>
    var profiles: Profiles.ProfileDb
    var nextId: Id

    function State(): Db
      reads this
    {
      Db(accounts, applications, profiles, nextId)
    }

    ghost predicate Valid()
      reads this
    {
      DbOk(State())
    }

    constructor ()
      ensures Valid()
      ensures State() == Db(map[], map[], Profiles.ProfileDb(map[], {}, {}, map[], map[], map[], map[], 0), 0)
    {
      accounts, applications, nextId := map[], map[], 0;
      profiles := Profiles.ProfileDb(map[], {}, {}, map[], map[], map[], map[], 0);
    }

    method Commit(db: Db)
      requires DbOk(db)
      modifies this
      ensures State() == db && Valid()
    {
      accounts, applications, profiles, nextId := db.accounts, db.applications, db.profiles, db.nextId;
    }

    // -------------------------------------------------------------------------
    // Auth

    /** signup. */
    method Signup(dto: Auth.SignupDto, otp: string, expires: int) returns (r: Outcome<Auth.SignupResult>)
      requires Valid()
      modifies this
      ensures Valid()
      ensures var db := old(State()); var e := Auth.SignupCheck(db, dto);
        if e.Some? then r == e.value && State() == db
        else r == Ok(Auth.SignupReply(db, dto)) && State() == Auth.SignedUp(db, dto, otp, expires)
    {
      var db := State();
      var e := Auth.SignupCheck(db, dto);
      if e.Some? {
        return e.value;
      }
      Auth.SignupKeepsOk(db, dto, otp, expires);
      r := Ok(Auth.SignupReply(db, dto));
      Commit(Auth.SignedUp(db, dto, otp, expires));
    }

    /** verifyEmail. */
    method VerifyEmail(email: string, otp: string, now: int) returns (r: Outcome<string>)
      requires Valid()
      modifies this
      ensures Valid()
      ensures var db := old(State()); var e := Auth.VerifyCheck(db, email, otp, now);
        if e.Some? then r == e.value && State() == db
        else r == Ok(Auth.Verified) && State() == Auth.EmailVerified(db, FindByEmail(db, email).value)
    {
      var db := State();
      var e := Auth.VerifyCheck(db, email, otp, now);
      if e.Some? {
        return e.value;
      }
      var k := FindByEmail(db, email).value;
      Auth.VerifyKeepsOk(db, k);
      r := Ok(Auth.Verified);
      Commit(Auth.EmailVerified(db, k));
    }

    /** login: the signed tokens are given. */
    method Login(email: string, password: string, loginAs: Option<Role>, accessToken: string, refreshToken: string)
      returns (r: Outcome<Auth.LoginResult>)
      requires Valid()
      modifies this
      ensures Valid()
      ensures var db := old(State()); var e := Auth.LoginCheck(db, email, password, loginAs);
        if e.Some? then r == e.value.PropagateFailure() && State() == db
        else
          var k := FindByEmail(db, email).value; var role := Auth.SelectedRole(db, k, loginAs);
          r == Ok(Auth.LoginResult(k, email, role, accessToken, refreshToken))
          && State() == Auth.LoggedIn(db, k, role, refreshToken)
    {
      var db := State();
      var e := Auth.LoginCheck(db, email, password, loginAs);
      if e.Some? {
        return e.value.PropagateFailure();
      }
      var k := FindByEmail(db, email).value;
      var role := Auth.SelectedRole(db, k, loginAs);
      Auth.LoginKeepsOk(db, k, role, refreshToken);
      r := Ok(Auth.LoginResult(k, email, role, accessToken, refreshToken));
      Commit(Auth.LoggedIn(db, k, role, refreshToken));
    }

    /** refreshTokens: the newly signed tokens are given. */
    method RefreshTokens(u: Id, refreshToken: string, issued: Tokens) returns (r: Outcome<Tokens>)
      requires Valid()
      modifies this
      ensures Valid()
      ensures var db := old(State()); var e := Auth.RefreshCheck(db, u, refreshToken);
        if e.Some? then r == e.value.PropagateFailure() && State() == db
        else r == Ok(issued) && State() == Auth.Refreshed(db, u, issued.refreshToken)
    {
      var db := State();
      var e := Auth.RefreshCheck(db, u, refreshToken);
      if e.Some? {
        return e.value.PropagateFailure();
      }
      Auth.PasswordKeepsOk(db, u, issued.refreshToken);
      r := Ok(issued);
      Commit(Auth.Refreshed(db, u, issued.refreshToken));
    }

    /** logout. */
    method Logout(u: Id) returns (r: Outcome<string>)
      requires Valid()
      modifies this
      ensures Valid()
      ensures var db := old(State()); var e := Auth.LogoutCheck(db, u);
        if e.Some? then r == e.value && State() == db
        else r == Ok("Logged out") && State() == Auth.SessionCleared(db, u)
    {
      var db := State();
      var e := Auth.LogoutCheck(db, u);
      if e.Some? {
        return e.value;
      }
      Auth.PasswordKeepsOk(db, u, "");
      r := Ok("Logged out");
      Commit(Auth.SessionCleared(db, u));
    }

    /** forgotPassword: the same answer for every e-mail. */
    method ForgotPassword(email: string, otp: string, expires: int) returns (r: string)
      requires Valid()
      modifies this
      ensures Valid()
      ensures r == Auth.ForgotReply
      ensures State() == Auth.ResetCodeSent(old(State()), email, otp, expires)
    {
      var db := State();
      Auth.ForgotKeepsOk(db, email, otp, expires);
      r := Auth.ForgotReply;
      Commit(Auth.ResetCodeSent(db, email, otp, expires));
    }

    /** resetPassword. */
    method ResetPassword(email: string, otp: string, newPassword: string, now: int) returns (r: Outcome<string>)
      requires Valid()
      modifies this
      ensures Valid()
      ensures var db := old(State()); var e := Auth.ResetCheck(db, email, otp, now);
        if e.Some? then r == e.value && State() == db
        else (r == Ok("Password reset successful")
          && State() == Auth.PasswordReset(db, FindByEmail(db, email).value, newPassword))
    {
      var db := State();
      var e := Auth.ResetCheck(db, email, otp, now);
      if e.Some? {
        return e.value;
      }
      var k := FindByEmail(db, email).value;
      Auth.PasswordKeepsOk(db, k, newPassword);
      r := Ok("Password reset successful");
      Commit(Auth.PasswordReset(db, k, newPassword));
    }

    /** changePassword. */
    method ChangePassword(u: Id, current: string, newPassword: string) returns (r: Outcome<string>)
      requires Valid()
      modifies this
      ensures Valid()
      ensures var db := old(State()); var e := Auth.ChangeCheck(db, u, current);
        if e.Some? then r == e.value && State() == db
        else r == Ok("Password changed successfully") && State() == Auth.PasswordChanged(db, u, newPassword)
    {
      var db := State();
      var e := Auth.ChangeCheck(db, u, current);
      if e.Some? {
        return e.value;
      }
      Auth.PasswordKeepsOk(db, u, newPassword);
      r := Ok("Password changed successfully");
      Commit(Auth.PasswordChanged(db, u, newPassword));
    }

    // -------------------------------------------------------------------------
    // Ambassador and official-partner programs

    /** apply / createRequest: the form is the program's own kind. */
    method Apply(p: Program, u: Id, form: Form, now: int) returns (r: Outcome<Id>)
      requires Valid() && FormFits(p, form)
      modifies this
      ensures Valid()
      ensures var db := old(State()); var e := Applications.ApplyCheck(db, p, u);
        if e.Some? then r == e.value && State() == db
        else r == Ok(db.nextId) && State() == Applications.Applied(db, p, u, form, now)
    {
      var db := State();
      var e := Applications.ApplyCheck(db, p, u);
      if e.Some? {
        return e.value;
      }
      Applications.ApplyKeepsOk(db, p, u, form, now);
      r := Ok(db.nextId);
      Commit(Applications.Applied(db, p, u, form, now));
    }

    /** updateMine / updateMyRequest: returns the edited row. */
    method UpdateApplication(p: Program, u: Id, e: Applications.Patch) returns (r: Outcome<Application>)
      requires Valid()
      modifies this
      ensures Valid()
      ensures var db := old(State()); var err := Applications.UpdateCheck(db, p, u);
        if err.Some? then r == err.value && State() == db
        else
          var k := FindApplication(db, p, u).value;
          r == Ok(Applications.Updated(db, k, e).applications[k]) && State() == Applications.Updated(db, k, e)
    {
      var db := State();
      var err := Applications.UpdateCheck(db, p, u);
      if err.Some? {
        return err.value;
      }
      var k := FindApplication(db, p, u).value;
      Applications.UpdateKeepsOk(db, k, e);
      r := Ok(Applications.Updated(db, k, e).applications[k]);
      Commit(Applications.Updated(db, k, e));
    }

    /** deleteMine / deleteMyRequest. */
    method DeleteApplication(p: Program, u: Id) returns (r: Outcome<bool>)
      requires Valid()
      modifies this
      ensures Valid()
      ensures var db := old(State()); var e := Applications.DeleteCheck(db, p, u);
        if e.Some? then r == e.value && State() == db
        else r == Ok(true) && State() == Applications.Deleted(db, FindApplication(db, p, u).value)
    {
      var db := State();
      var e := Applications.DeleteCheck(db, p, u);
      if e.Some? {
        return e.value;
      }
      var k := FindApplication(db, p, u).value;
      Applications.DeleteKeepsOk(db, k);
      r := Ok(true);
      Commit(Applications.Deleted(db, k));
    }

    /** updateStatus: returns the row with its new status. */
    method Review(p: Program, k: Id, s: Review) returns (r: Outcome<Application>)
      requires Valid()
      modifies this
      ensures Valid()
      ensures var db := old(State()); var found := Applications.ById(db, p, k);
        if !found.Ok? then r == found && State() == db
        else r == Ok(db.applications[k].(status := s)) && State() == Applications.Reviewed(db, k, s)
    {
      var db := State();
      var found := Applications.ById(db, p, k);
      if !found.Ok? {
        return found;
      }
      Applications.ReviewKeepsOk(db, k, s);
      r := Ok(db.applications[k].(status := s));
      Commit(Applications.Reviewed(db, k, s));
    }

    // -------------------------------------------------------------------------
    // Profiles

    /** createProfile: returns the new profile's id. */
    method CreateProfile(u: Id, dto: Profiles.CreateProfileDto) returns (r: Outcome<Id>)
      requires Valid()
      modifies this
      ensures Valid()
      ensures var db := old(State()); var t := Profiles.CreateCheck(db.profiles, db.accounts.Keys, u, dto);
        if !t.Ok? then r == t.PropagateFailure() && State() == db
        else (r == Ok(db.profiles.nextId)
          && State() == db.(profiles := Profiles.Created(db.profiles, u, dto, t.value)))
    {
      var db := State();
      var t := Profiles.CreateCheck(db.profiles, db.accounts.Keys, u, dto);
      if !t.Ok? {
        return t.PropagateFailure();
      }
      Profiles.CreateGivesSub(db.profiles, db.accounts.Keys, u, dto);
      r := Ok(db.profiles.nextId);
      Commit(db.(profiles := Profiles.Created(db.profiles, u, dto, t.value)));
    }

    /** updateProfileBase: returns the updated row. */
    method UpdateProfileBase(k: Id, u: Id, dto: Profiles.BaseDto) returns (r: Outcome<Profiles.Profile>)
      requires Valid()
      modifies this
      ensures Valid()
      ensures var db := old(State()); var e := Profiles.AccessCheck(db.profiles, k, u);
        if e.Some? then r == e.value && State() == db
        else (r == Ok(Profiles.ApplyBase(db.profiles.profiles[k], dto))
          && State() == db.(profiles := Profiles.BaseUpdated(db.profiles, k, dto)))
    {
      var db := State();
      var e := Profiles.AccessCheck(db.profiles, k, u);
      if e.Some? {
        return e.value;
      }
      r := Ok(Profiles.ApplyBase(db.profiles.profiles[k], dto));
      Commit(db.(profiles := Profiles.BaseUpdated(db.profiles, k, dto)));
    }

    /** changeProfileType: returns the profile with its new type. */
    method ChangeProfileType(k: Id, u: Id, dto: Profiles.ChangeTypeDto) returns (r: Outcome<Profiles.Profile>)
      requires Valid()
      modifies this
      ensures Valid()
      ensures var db := old(State()); var t := Profiles.ChangeCheck(db.profiles, k, u, dto);
        if !t.Ok? then r == t.PropagateFailure() && State() == db
        else
          var p' := Profiles.TypeChanged(db.profiles, k, t.value, dto.payloads);
          r == Ok(p'.profiles[k]) && State() == db.(profiles := p')
    {
      var db := State();
      var t := Profiles.ChangeCheck(db.profiles, k, u, dto);
      if !t.Ok? {
        return t.PropagateFailure();
      }
      Profiles.ChangeGivesSub(db.profiles, k, u, dto);
      var p' := Profiles.TypeChanged(db.profiles, k, t.value, dto.payloads);
      r := Ok(p'.profiles[k]);
      Commit(db.(profiles := p'));
    }
  }
}
