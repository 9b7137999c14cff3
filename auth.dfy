/**
 * `BloomyAuth`: the storefront's client-side user directory, login session,
 * password-reset tokens and order ledger.
 *
 * The source keeps users and orders as JSON arrays in `localStorage` and
 * the session in either `sessionStorage` (for this tab) or `localStorage`
 * (durable, "remember me"); here they are the four fields of one object.
 * The clock and the random parts of generated ids are parameters.
 */
module Auth {
  import opened Optional
  import opened Text
  import opened Password
  import opened Validation
  import opened Records

  /**
   * The `{success, message | error, ...}` record every operation returns;
   * `Thrown` stands for the TypeError the source raises when the signed-in
   * user is missing from the directory and it dereferences `users[-1]`.
   */
  datatype Reply<T> = Success(message: String, payload: T) | Failure(error: String) | Thrown

  const ERR_CREDENTIALS_REQUIRED: String := "Email et mot de passe requis."
  const ERR_BAD_CREDENTIALS: String := "Email ou mot de passe incorrect."
  const ERR_RESET_INVALID: String := "Lien de réinitialisation invalide."
  const ERR_RESET_EXPIRED: String := "Le lien de réinitialisation a expiré."
  const ERR_NOT_LOGGED_IN: String := "Non connecté."
  const ERR_USER_NOT_FOUND: String := "Utilisateur non trouvé."
  const ERR_CURRENT_PASSWORD_WRONG: String := "Mot de passe actuel incorrect."
  const ERR_NEW_PASSWORD_TOO_SHORT: String := "Le nouveau mot de passe doit contenir au moins 8 caractères."
  const ERR_EMAIL_IN_USE: String := "Cet email est déjà utilisé."
  const ERR_PASSWORD_WRONG: String := "Mot de passe incorrect."
  const ERR_ADDRESS_NOT_FOUND: String := "Adresse non trouvée."

  const MSG_REGISTERED: String := "Compte créé avec succès !"
  const MSG_LOGGED_IN: String := "Connexion réussie !"
  const MSG_LOGGED_OUT: String := "Déconnexion réussie."
  const MSG_RESET_SENT: String := "Si un compte existe avec cet email, vous recevrez un lien de réinitialisation."
  const MSG_PASSWORD_RESET: String := "Mot de passe mis à jour avec succès !"
  const MSG_PROFILE_UPDATED: String := "Profil mis à jour !"
  const MSG_PASSWORD_CHANGED: String := "Mot de passe modifié avec succès !"
  const MSG_EMAIL_CHANGED: String := "Email modifié avec succès !"
  const MSG_ADDRESS_ADDED: String := "Adresse ajoutée !"
  const MSG_ADDRESS_UPDATED: String := "Adresse mise à jour !"
  const MSG_ADDRESS_DELETED: String := "Adresse supprimée !"
  const MSG_DEFAULT_ADDRESS: String := "Adresse par défaut mise à jour !"
  const MSG_ACCOUNT_DELETED: String := "Compte supprimé."

  /** One hour in milliseconds. */
  const RESET_TTL_MS: int := 3600000

  /** The keys of an `updateProfile` call the source accepts; others are ignored. */
  datatype ProfilePatch = ProfilePatch(
    firstName: Option<String>, lastName: Option<String>,
    phone: Option<String>, preferences: Option<Preferences>)

  function ApplyProfile(u: User, p: ProfilePatch, now: int): User {
    u.(firstName := Or(p.firstName, u.firstName),
       lastName := Or(p.lastName, u.lastName),
       phone := if p.phone.Some? then p.phone else u.phone,
       preferences := Or(p.preferences, u.preferences),
       updatedAt := now)
  }

  /** `new Date(user.resetTokenExpires)`: a cleared (null) expiry reads as the epoch. */
  function ResetExpiry(u: User): int {
    if u.resetTokenExpires.Some? then u.resetTokenExpires.value else 0
  }

  /** The session record `getSession` reads: the tab-scoped one first, then the durable one. */
  function StoredSession(ephemeral: Option<Session>, durable: Option<Session>): (s: Option<Session>)
    ensures s.Some? <==> ephemeral.Some? || durable.Some?
    ensures ephemeral.Some? ==> s == ephemeral
  {
    if ephemeral.Some? then ephemeral else durable
  }

  /** What `getSession` returns at time now: the stored session unless it has expired. */
  function LiveSession(ephemeral: Option<Session>, durable: Option<Session>, now: int): (s: Option<Session>)
    ensures s.Some? ==> s == StoredSession(ephemeral, durable) && now <= s.value.expiresAt
    ensures s.None? ==> StoredSession(ephemeral, durable).None? || StoredSession(ephemeral, durable).value.expiresAt < now
  {
    var found := StoredSession(ephemeral, durable);
    if found.Some? && found.value.expiresAt < now then None else found
  }

  /** The two session scopes after `getSession`: an expired session clears both. */
  function ScopesAfterRead(ephemeral: Option<Session>, durable: Option<Session>, now: int)
    : (r: (Option<Session>, Option<Session>))
    ensures LiveSession(ephemeral, durable, now).Some? ==> r == (ephemeral, durable)
    ensures StoredSession(ephemeral, durable).Some? && LiveSession(ephemeral, durable, now).None? ==> r == (None, None)
  {
    var found := StoredSession(ephemeral, durable);
    if found.Some? && found.value.expiresAt < now then (None, None) else (ephemeral, durable)
  }

  /**
   * The two scopes after `createSession(user, !!localStorage.getItem(...))`:
   * the durable scope is rewritten when it holds a session, the tab scope otherwise.
   */
  function RefreshedScopes(ephemeral: Option<Session>, durable: Option<Session>, u: User, now: int)
    : (Option<Session>, Option<Session>)
  {
    if durable.Some? then (ephemeral, Some(SessionFor(u, now))) else (Some(SessionFor(u, now)), durable)
  }

  /** A session made now stays live for exactly seven days. */
  lemma NewSessionLivesSevenDays(u: User, now: int, later: int, other: Option<Session>)
    ensures LiveSession(Some(SessionFor(u, now)), other, later).Some? <==> later <= now + SESSION_TTL_MS
    ensures LiveSession(None, Some(SessionFor(u, now)), later).Some? <==> later <= now + SESSION_TTL_MS
  {
  }

  class BloomyAuth {
    /** `localStorage['bloomy_users']` */
    var users: seq<User>
    /** `localStorage['bloomy_orders']` */
    var orders: seq<Order>
    /** `sessionStorage['bloomy_session']` */
    var ephemeralSession: Option<Session>
    /** `localStorage['bloomy_session']` */
    var durableSession: Option<Session>

    ghost predicate Valid()
      reads this
    {
      DirectoryValid(users)
    }

    /** A first visit: `init` creates the empty user and order collections. */
    constructor ()
      ensures Valid()
      ensures users == [] && orders == [] && ephemeralSession.None? && durableSession.None?
    {
      users := [];
      orders := [];
      ephemeralSession := None;
      durableSession := None;
    }

    /** A later visit: the collections and sessions already in storage. */
    constructor Reopen(users: seq<User>, orders: seq<Order>, ephemeral: Option<Session>, durable: Option<Session>)
      ensures this.users == users && this.orders == orders
      ensures ephemeralSession == ephemeral && durableSession == durable
    {
      this.users := users;
      this.orders := orders;
      ephemeralSession := ephemeral;
      durableSession := durable;
    }

    // ---------------------------------------------------------------
    // Sessions
    // ---------------------------------------------------------------

    /** `logout`: both scopes are cleared, whatever they held. */
    method Logout() returns (r: Reply<()>)
      modifies this`ephemeralSession, this`durableSession
      ensures ephemeralSession.None? && durableSession.None?
      ensures r == Success(MSG_LOGGED_OUT, ())
    {
      ephemeralSession := None;
      durableSession := None;
      r := Success(MSG_LOGGED_OUT, ());
    }

    /** `createSession`: a seven-day session in the durable scope iff `persistent`. */
    method CreateSession(u: User, persistent: bool, now: int)
      modifies this`ephemeralSession, this`durableSession
      ensures persistent ==> durableSession == Some(SessionFor(u, now)) && ephemeralSession == old(ephemeralSession)
      ensures !persistent ==> ephemeralSession == Some(SessionFor(u, now)) && durableSession == old(durableSession)
      ensures StoredSession(ephemeralSession, durableSession).Some?
    {
      var session := Session(u.id, u.email, u.firstName, u.lastName, now, now + SESSION_TTL_MS);
      if persistent {
        durableSession := Some(session);
      } else {
        ephemeralSession := Some(session);
      }
    }

    /**
     * `getSession`: the tab-scoped session, else the durable one; reading an
     * expired session logs out as a side effect.
     */
    method GetSession(now: int) returns (s: Option<Session>)
      modifies this`ephemeralSession, this`durableSession
      ensures s == LiveSession(old(ephemeralSession), old(durableSession), now)
      ensures (ephemeralSession, durableSession) == ScopesAfterRead(old(ephemeralSession), old(durableSession), now)
    {
      s := ephemeralSession;
      if s.None? {
        s := durableSession;
      }
      if s.None? {
        return None;
      }
      if s.value.expiresAt < now {
        var _ := Logout();
        return None;
      }
    }

    /** `isLoggedIn` */
    method IsLoggedIn(now: int) returns (b: bool)
      modifies this`ephemeralSession, this`durableSession
      ensures b <==> LiveSession(old(ephemeralSession), old(durableSession), now).Some?
      ensures (ephemeralSession, durableSession) == ScopesAfterRead(old(ephemeralSession), old(durableSession), now)
    {
      var s := GetSession(now);
      b := s.Some?;
    }

    /**
     * `getCurrentUser`: the signed-in user without secrets; a session whose
     * user has left the directory yields None and is not cleared.
     */
    method GetCurrentUser(now: int) returns (u: Option<PublicUser>)
      modifies this`ephemeralSession, this`durableSession
      ensures (ephemeralSession, durableSession) == ScopesAfterRead(old(ephemeralSession), old(durableSession), now)
      ensures var s := LiveSession(old(ephemeralSession), old(durableSession), now);
        u == if s.Some? && FindUserById(users, s.value.userId).Some?
             then Some(Sanitize(FindUserById(users, s.value.userId).value))
             else None
    {
      var s := GetSession(now);
      if s.None? {
        return None;
      }
      var found := FindUserById(users, s.value.userId);
      if found.None? {
        return None;
      }
      u := Some(Sanitize(found.value));
    }

    // ---------------------------------------------------------------
    // Registration and login
    // ---------------------------------------------------------------

    /**
     * `register`: the rules are checked in order and the first failure is
     * reported; on success one user is appended and a tab-scoped session opened.
     */
    method Register(email: String, password: String, firstName: String, lastName: String,
                    now: nat, random: String) returns (r: Reply<PublicUser>)
      modifies this`users, this`ephemeralSession, this`durableSession
      ensures durableSession == old(durableSession)
      ensures var failure := RegistrationFailure(email, password, firstName, lastName,
                                                 FindUserByEmail(old(users), email).Some?);
        failure.Some? ==>
          r == Failure(failure.value) && users == old(users) && ephemeralSession == old(ephemeralSession)
      ensures RegistrationFailure(email, password, firstName, lastName, FindUserByEmail(old(users), email).Some?).None? ==>
        && |users| == |old(users)| + 1
        && users[..|old(users)|] == old(users)
        && var u := users[|old(users)|];
          && u.id == "user_" + Decimal(now) + "_" + random
          && u.email == ToLower(email)
          && u.password == Hash(password)
          && u.firstName == firstName && u.lastName == lastName
          && u.addresses == [] && u.savedCards == [] && u.preferences == DEFAULT_PREFERENCES
          && u.phone.None? && u.resetToken.None? && u.resetTokenExpires.None?
          && u.createdAt == now && u.updatedAt == now
          && ephemeralSession == Some(SessionFor(u, now))
          && r == Success(MSG_REGISTERED, Sanitize(u))
      ensures old(Valid()) ==> Valid()
    {
      if email == [] || password == [] || firstName == [] || lastName == [] {
        return Failure(ERR_FIELDS_REQUIRED);
      }
      if !IsValidEmail(email) {
        return Failure(ERR_INVALID_EMAIL);
      }
      if JsLength(password) < MIN_PASSWORD_LENGTH {
        return Failure(ERR_PASSWORD_TOO_SHORT);
      }
      if !HasUppercase(password) {
        return Failure(ERR_PASSWORD_NO_UPPERCASE);
      }
      if !HasDigit(password) {
        return Failure(ERR_PASSWORD_NO_DIGIT);
      }
      if FindUserByEmail(users, email).Some? {
        return Failure(ERR_EMAIL_TAKEN);
      }

      var hash := HashPassword(password);
      var u := User("user_" + Decimal(now) + "_" + random, ToLower(email), hash, firstName, lastName,
                    None, now, now, [], [], DEFAULT_PREFERENCES, None, None);
      if DirectoryValid(users) {
        AppendKeepsDirectoryValid(users, u, email);
      }
      users := users + [u];
      CreateSession(u, false, now);
      r := Success(MSG_REGISTERED, Sanitize(u));
    }

    /**
     * `login`: an unknown e-mail and a wrong password give the same error;
     * only a success opens a session, durable iff `rememberMe`.
     */
    method Login(email: String, password: String, rememberMe: bool, now: int) returns (r: Reply<PublicUser>)
      modifies this`ephemeralSession, this`durableSession
      ensures email == [] || password == [] ==> r == Failure(ERR_CREDENTIALS_REQUIRED)
      ensures email != [] && password != [] ==>
        var found := FindUserByEmail(users, email);
        if found.Some? && VerifyPassword(password, found.value.password) then
          && r == Success(MSG_LOGGED_IN, Sanitize(found.value))
          && (rememberMe ==> durableSession == Some(SessionFor(found.value, now)) && ephemeralSession == old(ephemeralSession))
          && (!rememberMe ==> ephemeralSession == Some(SessionFor(found.value, now)) && durableSession == old(durableSession))
        else
          r == Failure(ERR_BAD_CREDENTIALS)
      ensures !r.Success? ==> ephemeralSession == old(ephemeralSession) && durableSession == old(durableSession)
    {
      if email == [] || password == [] {
        return Failure(ERR_CREDENTIALS_REQUIRED);
      }
      var found := FindUserByEmail(users, email);
      if found.None? {
        return Failure(ERR_BAD_CREDENTIALS);
      }
      if !VerifyPassword(password, found.value.password) {
        return Failure(ERR_BAD_CREDENTIALS);
      }
      CreateSession(found.value, rememberMe, now);
      r := Success(MSG_LOGGED_IN, Sanitize(found.value));
    }

    // ---------------------------------------------------------------
    // Password reset
    // ---------------------------------------------------------------

    /**
     * `requestPasswordReset`: the same reply whether or not the e-mail is
     * known; a known user's token is overwritten and expires in one hour.
     * The payload is the source's demo-only `_demoToken`.
     */
    method RequestPasswordReset(email: String, now: nat, random: String) returns (r: Reply<Option<String>>)
      modifies this`users
      ensures r.Success? && r.message == MSG_RESET_SENT
      ensures var found := FindUserByEmail(old(users), email);
        if found.None? then
          users == old(users) && r.payload.None?
        else
          var token := "reset_" + Decimal(now) + "_" + random;
          var i := IndexOfUser(old(users), found.value.id);
          && 0 <= i < |old(users)|
          && users == old(users)[i := old(users)[i].(resetToken := Some(token),
                                                      resetTokenExpires := Some(now + RESET_TTL_MS))]
          && r.payload == Some(token)
      ensures old(Valid()) ==> Valid()
    {
      var found := FindUserByEmail(users, email);
      if found.None? {
        return Success(MSG_RESET_SENT, None);
      }
      var token := "reset_" + Decimal(now) + "_" + random;
      var i := IndexOfUser(users, found.value.id);
      var updated := users[i].(resetToken := Some(token), resetTokenExpires := Some(now + RESET_TTL_MS));
      if DirectoryValid(users) {
        ReplaceKeepsDirectoryValid(users, i, updated, email);
      }
      users := users[i := updated];
      r := Success(MSG_RESET_SENT, Some(token));
    }

    /**
     * `resetPassword`: an unknown token, then an expired one, then a short
     * password are refused; a success replaces the credential and clears the token.
     */
    method ResetPassword(token: String, newPassword: String, now: int) returns (r: Reply<()>)
      modifies this`users
      ensures var holder := FindUserByResetToken(old(users), token);
        && (holder.None? ==> r == Failure(ERR_RESET_INVALID))
        && (holder.Some? && ResetExpiry(holder.value) < now ==> r == Failure(ERR_RESET_EXPIRED))
        && (holder.Some? && now <= ResetExpiry(holder.value) && JsLength(newPassword) < MIN_PASSWORD_LENGTH ==>
              r == Failure(ERR_PASSWORD_TOO_SHORT))
        && (holder.Some? && now <= ResetExpiry(holder.value) && JsLength(newPassword) >= MIN_PASSWORD_LENGTH ==>
              var i := IndexOfUser(old(users), holder.value.id);
              && 0 <= i < |old(users)|
              && users == old(users)[i := old(users)[i].(password := Hash(newPassword), resetToken := None,
                                                          resetTokenExpires := None, updatedAt := now)]
              && r == Success(MSG_PASSWORD_RESET, ()))
      ensures !r.Success? ==> users == old(users)
      ensures old(Valid()) ==> Valid()
    {
      var holder := FindUserByResetToken(users, token);
      if holder.None? {
        return Failure(ERR_RESET_INVALID);
      }
      if ResetExpiry(holder.value) < now {
        return Failure(ERR_RESET_EXPIRED);
      }
      if JsLength(newPassword) < MIN_PASSWORD_LENGTH {
        return Failure(ERR_PASSWORD_TOO_SHORT);
      }
      var hash := HashPassword(newPassword);
      var i := IndexOfUser(users, holder.value.id);
      var updated := users[i].(password := hash, resetToken := None, resetTokenExpires := None, updatedAt := now);
      if DirectoryValid(users) {
        ReplaceKeepsDirectoryValid(users, i, updated, token);
      }
      users := users[i := updated];
      r := Success(MSG_PASSWORD_RESET, ());
    }

    // ---------------------------------------------------------------
    // Profile and credentials
    // ---------------------------------------------------------------

    /**
     * `updateProfile`: only first name, last name, phone and preferences
     * change; the session is rewritten from the updated record.
     */
    method UpdateProfile(patch: ProfilePatch, now: int) returns (r: Reply<PublicUser>)
      modifies this`users, this`ephemeralSession, this`durableSession
      ensures var s := LiveSession(old(ephemeralSession), old(durableSession), now);
        && (s.None? ==>
              && r == Failure(ERR_NOT_LOGGED_IN) && users == old(users)
              && (ephemeralSession, durableSession) == ScopesAfterRead(old(ephemeralSession), old(durableSession), now))
        && (s.Some? && IndexOfUser(old(users), s.value.userId) == -1 ==>
              && r == Failure(ERR_USER_NOT_FOUND) && users == old(users)
              && ephemeralSession == old(ephemeralSession) && durableSession == old(durableSession))
        && (s.Some? && IndexOfUser(old(users), s.value.userId) >= 0 ==>
              var i := IndexOfUser(old(users), s.value.userId);
              var u := ApplyProfile(old(users)[i], patch, now);
              && users == old(users)[i := u]
              && r == Success(MSG_PROFILE_UPDATED, Sanitize(u))
              && (ephemeralSession, durableSession) == RefreshedScopes(old(ephemeralSession), old(durableSession), u, now))
      ensures old(Valid()) ==> Valid()
    {
      var s := GetSession(now);
      if s.None? {
        return Failure(ERR_NOT_LOGGED_IN);
      }
      var i := IndexOfUser(users, s.value.userId);
      if i == -1 {
        return Failure(ERR_USER_NOT_FOUND);
      }
      var u := ApplyProfile(users[i], patch, now);
      if DirectoryValid(users) {
        ReplaceKeepsDirectoryValid(users, i, u, u.email);
      }
      users := users[i := u];
      CreateSession(u, durableSession.Some?, now);
      r := Success(MSG_PROFILE_UPDATED, Sanitize(u));
    }

    /**
     * `changePassword`: the current password must verify and the new one be
     * long enough; only the signed-in user's credential changes.
     */
    method ChangePassword(currentPassword: String, newPassword: String, now: int) returns (r: Reply<()>)
      modifies this`users, this`ephemeralSession, this`durableSession
      ensures (ephemeralSession, durableSession) == ScopesAfterRead(old(ephemeralSession), old(durableSession), now)
      ensures var s := LiveSession(old(ephemeralSession), old(durableSession), now);
        && (s.None? ==> r == Failure(ERR_NOT_LOGGED_IN))
        && (s.Some? && IndexOfUser(old(users), s.value.userId) == -1 ==> r == Thrown)
        && (s.Some? && IndexOfUser(old(users), s.value.userId) >= 0 ==>
              var i := IndexOfUser(old(users), s.value.userId);
              && (!VerifyPassword(currentPassword, old(users)[i].password) ==> r == Failure(ERR_CURRENT_PASSWORD_WRONG))
              && (VerifyPassword(currentPassword, old(users)[i].password) && JsLength(newPassword) < MIN_PASSWORD_LENGTH ==>
                    r == Failure(ERR_NEW_PASSWORD_TOO_SHORT))
              && (VerifyPassword(currentPassword, old(users)[i].password) && JsLength(newPassword) >= MIN_PASSWORD_LENGTH ==>
                    && users == old(users)[i := old(users)[i].(password := Hash(newPassword), updatedAt := now)]
                    && r == Success(MSG_PASSWORD_CHANGED, ())))
      ensures !r.Success? ==> users == old(users)
      ensures old(Valid()) ==> Valid()
    {
      var s := GetSession(now);
      if s.None? {
        return Failure(ERR_NOT_LOGGED_IN);
      }
      var i := IndexOfUser(users, s.value.userId);
      if i == -1 {
        return Thrown;
      }
      if !VerifyPassword(currentPassword, users[i].password) {
        return Failure(ERR_CURRENT_PASSWORD_WRONG);
      }
      if JsLength(newPassword) < MIN_PASSWORD_LENGTH {
        return Failure(ERR_NEW_PASSWORD_TOO_SHORT);
      }
      var hash := HashPassword(newPassword);
      var updated := users[i].(password := hash, updatedAt := now);
      if DirectoryValid(users) {
        ReplaceKeepsDirectoryValid(users, i, updated, updated.email);
      }
      users := users[i := updated];
      r := Success(MSG_PASSWORD_CHANGED, ());
    }

    /**
     * `changeEmail`: format, then availability, then the password; the new
     * address is stored lower-cased and the session rewritten.
     */
    method ChangeEmail(newEmail: String, password: String, now: int) returns (r: Reply<()>)
      modifies this`users, this`ephemeralSession, this`durableSession
      ensures var s := LiveSession(old(ephemeralSession), old(durableSession), now);
        && (s.None? ==> r == Failure(ERR_NOT_LOGGED_IN))
        && (s.Some? && !IsValidEmail(newEmail) ==> r == Failure(ERR_INVALID_EMAIL))
        && (s.Some? && IsValidEmail(newEmail) && FindUserByEmail(old(users), newEmail).Some? ==>
              r == Failure(ERR_EMAIL_IN_USE))
        && (s.Some? && IsValidEmail(newEmail) && FindUserByEmail(old(users), newEmail).None? ==>
              var i := IndexOfUser(old(users), s.value.userId);
              && (i == -1 ==> r == Thrown)
              && (i >= 0 && !VerifyPassword(password, old(users)[i].password) ==> r == Failure(ERR_PASSWORD_WRONG))
              && (i >= 0 && VerifyPassword(password, old(users)[i].password) ==>
                    var u := old(users)[i].(email := ToLower(newEmail), updatedAt := now);
                    && users == old(users)[i := u]
                    && r == Success(MSG_EMAIL_CHANGED, ())
                    && (ephemeralSession, durableSession) ==
                         RefreshedScopes(old(ephemeralSession), old(durableSession), u, now)))
      ensures !r.Success? ==>
        && users == old(users)
        && (ephemeralSession, durableSession) == ScopesAfterRead(old(ephemeralSession), old(durableSession), now)
      ensures old(Valid()) ==> Valid()
    {
      var s := GetSession(now);
      if s.None? {
        return Failure(ERR_NOT_LOGGED_IN);
      }
      if !IsValidEmail(newEmail) {
        return Failure(ERR_INVALID_EMAIL);
      }
      if FindUserByEmail(users, newEmail).Some? {
        return Failure(ERR_EMAIL_IN_USE);
      }
      var i := IndexOfUser(users, s.value.userId);
      if i == -1 {
        return Thrown;
      }
      if !VerifyPassword(password, users[i].password) {
        return Failure(ERR_PASSWORD_WRONG);
      }
      var u := users[i].(email := ToLower(newEmail), updatedAt := now);
      if DirectoryValid(users) {
        ReplaceKeepsDirectoryValid(users, i, u, newEmail);
      }
      users := users[i := u];
      CreateSession(u, durableSession.Some?, now);
      r := Success(MSG_EMAIL_CHANGED, ());
    }

    // ---------------------------------------------------------------
    // Addresses
    // ---------------------------------------------------------------

    /** `addAddress`: append one address, the default iff the list was empty. */
    method AddAddress(form: AddressForm, now: nat) returns (r: Reply<Address>)
      modifies this`users, this`ephemeralSession, this`durableSession
      ensures (ephemeralSession, durableSession) == ScopesAfterRead(old(ephemeralSession), old(durableSession), now)
      ensures var s := LiveSession(old(ephemeralSession), old(durableSession), now);
        && (s.None? ==> r == Failure(ERR_NOT_LOGGED_IN))
        && (s.Some? && IndexOfUser(old(users), s.value.userId) == -1 ==> r == Thrown)
        && (s.Some? && IndexOfUser(old(users), s.value.userId) >= 0 ==>
              var i := IndexOfUser(old(users), s.value.userId);
              var before := old(users)[i].addresses;
              var a := NewAddress("addr_" + Decimal(now), form, before, now);
              && a.isDefault == (before == [])
              && users == old(users)[i := old(users)[i].(addresses := before + [a], updatedAt := now)]
              && r == Success(MSG_ADDRESS_ADDED, a))
      ensures !r.Success? ==> users == old(users)
      ensures old(Valid()) ==> Valid()
    {
      var s := GetSession(now);
      if s.None? {
        return Failure(ERR_NOT_LOGGED_IN);
      }
      var i := IndexOfUser(users, s.value.userId);
      if i == -1 {
        return Thrown;
      }
      var a := NewAddress("addr_" + Decimal(now), form, users[i].addresses, now);
      var updated := users[i].(addresses := users[i].addresses + [a], updatedAt := now);
      if DirectoryValid(users) {
        ReplaceKeepsDirectoryValid(users, i, updated, updated.email);
      }
      users := users[i := updated];
      r := Success(MSG_ADDRESS_ADDED, a);
    }

    /** `updateAddress`: merge the supplied keys into the address with that id. */
    method UpdateAddress(addressId: String, patch: AddressPatch, now: int) returns (r: Reply<()>)
      modifies this`users, this`ephemeralSession, this`durableSession
      ensures (ephemeralSession, durableSession) == ScopesAfterRead(old(ephemeralSession), old(durableSession), now)
      ensures var s := LiveSession(old(ephemeralSession), old(durableSession), now);
        && (s.None? ==> r == Failure(ERR_NOT_LOGGED_IN))
        && (s.Some? && IndexOfUser(old(users), s.value.userId) == -1 ==> r == Thrown)
        && (s.Some? && IndexOfUser(old(users), s.value.userId) >= 0 ==>
              var i := IndexOfUser(old(users), s.value.userId);
              var before := old(users)[i].addresses;
              var j := IndexOfAddress(before, addressId);
              && (j == -1 ==> r == Failure(ERR_ADDRESS_NOT_FOUND))
              && (j >= 0 ==>
                    && users == old(users)[i := old(users)[i].(addresses := before[j := PatchAddress(before[j], patch, now)],
                                                                updatedAt := now)]
                    && r == Success(MSG_ADDRESS_UPDATED, ())))
      ensures !r.Success? ==> users == old(users)
      ensures old(Valid()) ==> Valid()
    {
      var s := GetSession(now);
      if s.None? {
        return Failure(ERR_NOT_LOGGED_IN);
      }
      var i := IndexOfUser(users, s.value.userId);
      if i == -1 {
        return Thrown;
      }
      var j := IndexOfAddress(users[i].addresses, addressId);
      if j == -1 {
        return Failure(ERR_ADDRESS_NOT_FOUND);
      }
      var addresses := users[i].addresses[j := PatchAddress(users[i].addresses[j], patch, now)];
      var updated := users[i].(addresses := addresses, updatedAt := now);
      if DirectoryValid(users) {
        ReplaceKeepsDirectoryValid(users, i, updated, updated.email);
      }
      users := users[i := updated];
      r := Success(MSG_ADDRESS_UPDATED, ());
    }

    /** `deleteAddress`: drop every address with that id; succeeds even if there is none. */
    method DeleteAddress(addressId: String, now: int) returns (r: Reply<()>)
      modifies this`users, this`ephemeralSession, this`durableSession
      ensures (ephemeralSession, durableSession) == ScopesAfterRead(old(ephemeralSession), old(durableSession), now)
      ensures var s := LiveSession(old(ephemeralSession), old(durableSession), now);
        && (s.None? ==> r == Failure(ERR_NOT_LOGGED_IN))
        && (s.Some? && IndexOfUser(old(users), s.value.userId) == -1 ==> r == Thrown)
        && (s.Some? && IndexOfUser(old(users), s.value.userId) >= 0 ==>
              var i := IndexOfUser(old(users), s.value.userId);
              && users == old(users)[i := old(users)[i].(addresses := WithoutAddress(old(users)[i].addresses, addressId),
                                                          updatedAt := now)]
              && r == Success(MSG_ADDRESS_DELETED, ()))
      ensures !r.Success? ==> users == old(users)
      ensures old(Valid()) ==> Valid()
    {
      var s := GetSession(now);
      if s.None? {
        return Failure(ERR_NOT_LOGGED_IN);
      }
      var i := IndexOfUser(users, s.value.userId);
      if i == -1 {
        return Thrown;
      }
      var updated := users[i].(addresses := WithoutAddress(users[i].addresses, addressId), updatedAt := now);
      if DirectoryValid(users) {
        ReplaceKeepsDirectoryValid(users, i, updated, updated.email);
      }
      users := users[i := updated];
      r := Success(MSG_ADDRESS_DELETED, ());
    }

    /** `setDefaultAddress`: an address is the default afterwards iff it has that id. */
    method SetDefaultAddress(addressId: String, now: int) returns (r: Reply<()>)
      modifies this`users, this`ephemeralSession, this`durableSession
      ensures (ephemeralSession, durableSession) == ScopesAfterRead(old(ephemeralSession), old(durableSession), now)
      ensures var s := LiveSession(old(ephemeralSession), old(durableSession), now);
        && (s.None? ==> r == Failure(ERR_NOT_LOGGED_IN))
        && (s.Some? && IndexOfUser(old(users), s.value.userId) == -1 ==> r == Thrown)
        && (s.Some? && IndexOfUser(old(users), s.value.userId) >= 0 ==>
              var i := IndexOfUser(old(users), s.value.userId);
              && users == old(users)[i := old(users)[i].(addresses := WithDefault(old(users)[i].addresses, addressId),
                                                          updatedAt := now)]
              && r == Success(MSG_DEFAULT_ADDRESS, ()))
      ensures !r.Success? ==> users == old(users)
      ensures old(Valid()) ==> Valid()
    {
      var s := GetSession(now);
      if s.None? {
        return Failure(ERR_NOT_LOGGED_IN);
      }
      var i := IndexOfUser(users, s.value.userId);
      if i == -1 {
        return Thrown;
      }
      var updated := users[i].(addresses := WithDefault(users[i].addresses, addressId), updatedAt := now);
      if DirectoryValid(users) {
        ReplaceKeepsDirectoryValid(users, i, updated, updated.email);
      }
      users := users[i := updated];
      r := Success(MSG_DEFAULT_ADDRESS, ());
    }

    // ---------------------------------------------------------------
    // Orders
    // ---------------------------------------------------------------

    /** `getOrders`: the signed-in user's orders, newest first; nothing when signed out. */
    method GetOrders(now: int) returns (r: seq<Order>)
      modifies this`ephemeralSession, this`durableSession
      ensures (ephemeralSession, durableSession) == ScopesAfterRead(old(ephemeralSession), old(durableSession), now)
      ensures var s := LiveSession(old(ephemeralSession), old(durableSession), now);
        r == if s.None? then [] else OrderHistory(orders, s.value.userId)
    {
      var s := GetSession(now);
      if s.None? {
        return [];
      }
      r := OrderHistory(orders, s.value.userId);
    }

    /**
     * `createOrder`: append one pending order whose history holds the single
     * "received" entry; a guest order has no user id.
     */
    method CreateOrder(request: OrderRequest, now: int, year: nat, suffix: String) returns (o: Order)
      modifies this`orders, this`ephemeralSession, this`durableSession
      ensures (ephemeralSession, durableSession) == ScopesAfterRead(old(ephemeralSession), old(durableSession), now)
      ensures orders == old(orders) + [o]
      ensures o.id == "BLM-" + Decimal(year) + "-" + ToUpper(suffix)
      ensures var s := LiveSession(old(ephemeralSession), old(durableSession), now);
        o.userId == if s.Some? then Some(s.value.userId) else None
      ensures o.status == Pending && o.statusHistory == [StatusEntry(Pending, now, ORDER_RECEIVED)]
      ensures StatusLogConsistent(o)
      ensures o.email == request.email && o.items == request.items && o.total == request.total
      ensures o.shipping == request.shipping && o.billing == request.billing
      ensures o.trackingNumber.None? && o.createdAt == now && o.updatedAt == now
    {
      var s := GetSession(now);
      o := Order("BLM-" + Decimal(year) + "-" + ToUpper(suffix),
                 if s.Some? then Some(s.value.userId) else None,
                 request.email, request.items, request.shipping, request.billing, request.total,
                 Pending, [StatusEntry(Pending, now, ORDER_RECEIVED)], None, now, now);
      orders := orders + [o];
    }

    // ---------------------------------------------------------------
    // Account deletion
    // ---------------------------------------------------------------

    /**
     * `deleteAccount`: with the right password, remove the user and log out;
     * the user's orders stay in the ledger.
     */
    method DeleteAccount(password: String, now: int) returns (r: Reply<()>)
      modifies this`users, this`ephemeralSession, this`durableSession
      ensures orders == old(orders)
      ensures var s := LiveSession(old(ephemeralSession), old(durableSession), now);
        && (s.None? ==> r == Failure(ERR_NOT_LOGGED_IN))
        && (s.Some? && FindUserById(old(users), s.value.userId).None? ==> r == Thrown)
        && (s.Some? && FindUserById(old(users), s.value.userId).Some? ==>
              var u := FindUserById(old(users), s.value.userId).value;
              && (!VerifyPassword(password, u.password) ==> r == Failure(ERR_PASSWORD_WRONG))
              && (VerifyPassword(password, u.password) ==>
                    && users == WithoutUser(old(users), s.value.userId)
                    && ephemeralSession.None? && durableSession.None?
                    && r == Success(MSG_ACCOUNT_DELETED, ())))
      ensures !r.Success? ==>
        && users == old(users)
        && (ephemeralSession, durableSession) == ScopesAfterRead(old(ephemeralSession), old(durableSession), now)
      ensures old(Valid()) ==> Valid()
    {
      var s := GetSession(now);
      if s.None? {
        return Failure(ERR_NOT_LOGGED_IN);
      }
      var found := FindUserById(users, s.value.userId);
      if found.None? {
        return Thrown;
      }
      if !VerifyPassword(password, found.value.password) {
        return Failure(ERR_PASSWORD_WRONG);
      }
      if DirectoryValid(users) {
        FilterKeepsDirectoryValid(users, (u: User) => u.id != s.value.userId);
      }
      users := WithoutUser(users, s.value.userId);
      var _ := Logout();
      r := Success(MSG_ACCOUNT_DELETED, ());
    }
  }
}
