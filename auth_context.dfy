/** The session provider: the signed-in user and session, kept up to date by the initial
    session lookup and by auth events, plus the sign-out, account-deletion and
    profile-update actions it offers to every page. */
module AuthContext {
  import opened Wrappers
  import opened Remote

  const NoUserMessage: string := "No user logged in"
  const PasswordFailurePrefix: string := "Password update failed: "
  /** The lookup error code for "no rows", which means the profile does not exist yet. */
  const NoRowsCode: string := "PGRST116"
  const LoginPath: string := "/login"

  datatype User = User(id: string, email: Option<string>, metadata: ProfileFields)
  datatype Session = Session(user: User, accessToken: string)

  /** The auth events the service reports; the last three are ones the handler ignores. */
  datatype AuthEvent =
    | SignedIn | SignedOut | TokenRefreshed | UserUpdated | UserDeleted
    | PasswordRecovery | InitialSession | MfaChallengeVerified

  /** The profile properties `updateProfile` accepts (`None`: not given). */
  datatype ProfileFields = ProfileFields(
    fullName: Option<string>, avatarUrl: Option<string>, gender: Option<string>,
    mobileNumber: Option<string>, city: Option<string>, country: Option<string>)

  datatype ProfileInput = ProfileInput(fields: ProfileFields, currentPassword: Option<string>, newPassword: Option<string>)

  /** The side effects of the provider, in the order they happen. */
  datatype Effect =
    | RemoveStaleTokens
    | ClearLocalStorage
    | Redirect(path: string)
    | AuthSignOut
    | UpdatePassword(password: string)
    | DeleteProfile(userId: string)
    | SelectProfile(userId: string)
    | UpdateProfileRow(userId: string, fields: ProfileFields, updatedAt: string)
    | InsertProfileRow(userId: string, fields: ProfileFields, updatedAt: string)
    | UpdateMetadata(fields: ProfileFields)

  /** The profile lookup's reply: whether a row came back, and the error code and
      message when the lookup failed. */
  datatype Lookup = Lookup(existing: bool, errorCode: Option<string>, errorMessage: string)

  /** The metadata update's reply: its error message, or the updated user if any. */
  datatype MetadataReply = MetadataReply(error: Option<string>, user: Option<User>)

  /** The outcome of `updateProfile`: the calls it made, the error it returns, and the
      user it stores (`None`: the user is left as it was). */
  datatype ProfilePlan = ProfilePlan(effects: seq<Effect>, error: Option<string>, newUser: Option<User>)

  /** JavaScript truthiness of an optional string. */
  predicate Given(s: Option<string>) { s.Some? && s.value != "" }

  /** A password change is attempted only when both passwords are non-empty. */
  predicate PasswordAttempted(input: ProfileInput)
  {
    Given(input.currentPassword) && Given(input.newPassword)
  }

  predicate IsWrite(e: Effect) { e.UpdateProfileRow? || e.InsertProfileRow? }

  /** The password update call, when one is made. */
  function PasswordPart(input: ProfileInput): seq<Effect>
  {
    if PasswordAttempted(input) then [UpdatePassword(input.newPassword.value)] else []
  }

  /** The password change was attempted and refused. */
  predicate PasswordFailed(input: ProfileInput, passwordError: Option<string>)
  {
    PasswordAttempted(input) && passwordError.Some?
  }

  /** The lookup failed with something other than "no rows". */
  predicate LookupFailed(lookup: Lookup)
  {
    lookup.errorCode.Some? && lookup.errorCode.value != NoRowsCode
  }

  /** The steps of `updateProfile` for a signed-in user, given the replies of the calls
      it makes: optional password change, profile lookup, update or insert, then the
      metadata update. Each failure stops the sequence. */
  function ProfileSteps(userId: string, input: ProfileInput, now: string, passwordError: Option<string>,
                        lookup: Lookup, writeError: Option<string>, metadata: MetadataReply): (plan: ProfilePlan)
    ensures (exists e :: e in plan.effects && e.UpdatePassword?) <==> PasswordAttempted(input)
    ensures PasswordAttempted(input) && passwordError.Some? ==>
      plan.error == Some(PasswordFailurePrefix + passwordError.value) && |plan.effects| == 1
    ensures plan.error.None? ==> |plan.effects| >= 3 && plan.effects[|plan.effects| - 1] == UpdateMetadata(input.fields)
    ensures !PasswordFailed(input, passwordError) && LookupFailed(lookup) ==>
      plan.error == Some(lookup.errorMessage) && plan.effects == PasswordPart(input) + [SelectProfile(userId)]
      && forall e :: e in plan.effects ==> !IsWrite(e)
    ensures forall e :: e in plan.effects && IsWrite(e) ==>
      e == (if lookup.existing then UpdateProfileRow(userId, input.fields, now)
            else InsertProfileRow(userId, input.fields, now))
    ensures plan.newUser.Some? <==> plan.error.None? && metadata.user.Some?
    ensures plan.error.None? ==> plan.newUser == metadata.user
    ensures !PasswordFailed(input, passwordError) && !LookupFailed(lookup) && writeError.Some? ==>
      plan.error == writeError && UpdateMetadata(input.fields) !in plan.effects
    ensures !PasswordFailed(input, passwordError) && !LookupFailed(lookup) && writeError.None? ==>
      plan.error == metadata.error && UpdateMetadata(input.fields) in plan.effects
  {
    var password := PasswordPart(input);
    assert PasswordAttempted(input) ==> password[0] in password;
    if PasswordAttempted(input) && passwordError.Some? then
      ProfilePlan(password, Some(PasswordFailurePrefix + passwordError.value), None)
    else
      var looked := password + [SelectProfile(userId)];
      assert PasswordAttempted(input) ==> looked[0] in looked && looked[0].UpdatePassword?;
      if lookup.errorCode.Some? && lookup.errorCode.value != NoRowsCode then
        ProfilePlan(looked, Some(lookup.errorMessage), None)
      else
        var write := if lookup.existing then UpdateProfileRow(userId, input.fields, now)
                     else InsertProfileRow(userId, input.fields, now);
        var written := looked + [write];
        assert PasswordAttempted(input) ==> written[0] in written && written[0].UpdatePassword?;
        if writeError.Some? then ProfilePlan(written, writeError, None)
        else
          var updated := written + [UpdateMetadata(input.fields)];
          assert PasswordAttempted(input) ==> updated[0] in updated && updated[0].UpdatePassword?;
          if metadata.error.Some? then ProfilePlan(updated, metadata.error, None)
          else ProfilePlan(updated, None, metadata.user)
  }

  /** Past the password step, the lookup comes right after the password call, and past
      the lookup, the write comes right after it. */
  lemma ProfileStepsOrder(userId: string, input: ProfileInput, now: string, passwordError: Option<string>,
                          lookup: Lookup, writeError: Option<string>, metadata: MetadataReply)
    requires !PasswordFailed(input, passwordError)
    ensures var plan := ProfileSteps(userId, input, now, passwordError, lookup, writeError, metadata);
            |plan.effects| > |PasswordPart(input)|
            && plan.effects[..|PasswordPart(input)| + 1] == PasswordPart(input) + [SelectProfile(userId)]
            && (!LookupFailed(lookup) ==>
                  |plan.effects| > |PasswordPart(input)| + 1
                  && plan.effects[|PasswordPart(input)| + 1]
                     == (if lookup.existing then UpdateProfileRow(userId, input.fields, now)
                         else InsertProfileRow(userId, input.fields, now)))
  {
    var plan := ProfileSteps(userId, input, now, passwordError, lookup, writeError, metadata);
    var looked := PasswordPart(input) + [SelectProfile(userId)];
    assert plan.effects[..|looked|] == looked;
  }

  /** A missing profile (the "no rows" code, or no row and no error) gets an insert that
      carries the user id; an existing one gets an update. */
  lemma UpsertBranch(userId: string, input: ProfileInput, now: string, passwordError: Option<string>,
                     lookup: Lookup, writeError: Option<string>, metadata: MetadataReply)
    requires !(PasswordAttempted(input) && passwordError.Some?)
    requires lookup.errorCode.None? || lookup.errorCode == Some(NoRowsCode)
    ensures var plan := ProfileSteps(userId, input, now, passwordError, lookup, writeError, metadata);
            (lookup.existing ==> UpdateProfileRow(userId, input.fields, now) in plan.effects) &&
            (!lookup.existing ==> InsertProfileRow(userId, input.fields, now) in plan.effects)
  {
  }

  /** The navigation target after an initial lookup that found no session. */
  predicate RedirectsWithoutSession(path: string)
  {
    path != "/login" && path != "/signup" && path != "/"
  }

  /** The provider's state. */
  class AuthProvider {
    var user: Option<User>
    var session: Option<Session>
    var isLoading: bool
    var effects: seq<Effect>

    /** A user is present exactly when a session is. */
    ghost predicate Valid()
      reads this
    {
      user.Some? <==> session.Some?
    }

    constructor ()
      ensures Valid() && user == None && session == None && isLoading && effects == []
    {
      user := None;
      session := None;
      isLoading := true;
      effects := [];
    }

    /** `initializeSession`: adopts the stored session, or (when there is none) clears
        stale tokens and sends the visitor to the login page unless they are on a
        public page. A thrown lookup only clears stale tokens. */
    method InitializeSession(path: string, initial: Outcome<Option<Session>>)
      requires Valid()
      modifies this
      ensures Valid() && !isLoading
      ensures initial.Failed? ==>
        user == old(user) && session == old(session) && effects == old(effects) + [RemoveStaleTokens]
      ensures initial.Success? && initial.data.None? ==>
        user == old(user) && session == old(session)
        && effects == old(effects) + [RemoveStaleTokens] + (if RedirectsWithoutSession(path) then [Redirect(LoginPath)] else [])
      ensures initial.Success? && initial.data.Some? ==>
        session == initial.data && user == Some(initial.data.value.user) && effects == old(effects)
    {
      match initial {
        case Failed(_) =>
          effects := effects + [RemoveStaleTokens];
        case Success(found) =>
          if found.None? {
            effects := effects + [RemoveStaleTokens];
            if path != "/login" && path != "/signup" && path != "/" {
              effects := effects + [Redirect(LoginPath)];
            }
          } else {
            session := found;
            user := Some(found.value.user);
          }
      }
      isLoading := false;
    }

    /** The `onAuthStateChange` callback. */
    method OnAuthStateChange(event: AuthEvent, current: Option<Session>)
      requires Valid()
      modifies this
      ensures Valid() && !isLoading
      ensures event.SignedOut? || event.UserDeleted? ==>
        user == None && session == None && effects == old(effects) + [RemoveStaleTokens, Redirect(LoginPath)]
      ensures event.SignedIn? || event.TokenRefreshed? ==>
        session == current && user == (if current.Some? then Some(current.value.user) else None)
        && effects == old(effects)
      ensures event.UserUpdated? && current.Some? ==>
        session == current && user == Some(current.value.user) && effects == old(effects)
      ensures (event.UserUpdated? && current.None?) || event.PasswordRecovery? || event.InitialSession?
              || event.MfaChallengeVerified? ==>
        user == old(user) && session == old(session) && effects == old(effects)
    {
      if event == SignedOut || event == UserDeleted {
        effects := effects + [RemoveStaleTokens];
        user := None;
        session := None;
        effects := effects + [Redirect(LoginPath)];
      } else if event == SignedIn || event == TokenRefreshed {
        session := current;
        user := if current.Some? then Some(current.value.user) else None;
      } else if event == UserUpdated {
        if current.Some? {
          session := current;
          user := Some(current.value.user);
        }
      }
      isLoading := false;
    }

    /** `signOut`: once the auth service has signed out, the state is cleared, local
        storage emptied and the login page loaded; a thrown sign-out changes nothing. */
    method SignOut(outcome: Outcome<()>)
      requires Valid()
      modifies this
      ensures Valid() && isLoading == old(isLoading)
      ensures outcome.Success? ==>
        user == None && session == None
        && effects == old(effects) + [AuthSignOut, ClearLocalStorage, Redirect(LoginPath)]
      ensures outcome.Failed? ==> user == old(user) && session == old(session) && effects == old(effects) + [AuthSignOut]
    {
      effects := effects + [AuthSignOut];
      if outcome.Success? {
        user := None;
        session := None;
        effects := effects + [ClearLocalStorage];
        effects := effects + [Redirect(LoginPath)];
      }
    }

    /** `deleteAccount`: without a user nothing is called; otherwise the profile row is
        deleted and, on success, the user is signed out. */
    method DeleteAccount(deleteError: Option<string>, signOut: Outcome<()>) returns (err: Option<string>)
      requires Valid()
      modifies this
      ensures Valid() && isLoading == old(isLoading)
      ensures old(user).None? ==> err == Some(NoUserMessage) && effects == old(effects) && user == old(user)
      ensures old(user).Some? && deleteError.Some? ==>
        err == deleteError && effects == old(effects) + [DeleteProfile(old(user).value.id)]
        && user == old(user) && session == old(session)
      ensures old(user).Some? && deleteError.None? ==>
        err == None
        && effects == old(effects) + [DeleteProfile(old(user).value.id), AuthSignOut]
                      + (if signOut.Success? then [ClearLocalStorage, Redirect(LoginPath)] else [])
        && (signOut.Success? ==> user == None && session == None)
        && (signOut.Failed? ==> user == old(user) && session == old(session))
    {
      if user.None? {
        return Some(NoUserMessage);
      }
      effects := effects + [DeleteProfile(user.value.id)];
      if deleteError.Some? {
        return deleteError;
      }
      SignOut(signOut);
      err := None;
    }

    /** `updateProfile`, with the replies of the calls it makes given. */
    method UpdateProfile(input: ProfileInput, now: string, passwordError: Option<string>, lookup: Lookup,
                         writeError: Option<string>, metadata: MetadataReply) returns (err: Option<string>)
      requires Valid()
      modifies this
      ensures Valid() && session == old(session) && isLoading == old(isLoading)
      ensures old(user).None? ==> err == Some(NoUserMessage) && effects == old(effects) && user == old(user)
      ensures old(user).Some? ==>
        var plan := ProfileSteps(old(user).value.id, input, now, passwordError, lookup, writeError, metadata);
        effects == old(effects) + plan.effects && err == plan.error
        && user == (if plan.newUser.Some? then plan.newUser else old(user))
    {
      if user.None? {
        return Some(NoUserMessage);
      }
      var id := user.value.id;
      ghost var start := effects;
      ghost var password := if PasswordAttempted(input) then [UpdatePassword(input.newPassword.value)] else [];
      var attempted := Given(input.currentPassword) && Given(input.newPassword);
      if attempted {
        effects := effects + [UpdatePassword(input.newPassword.value)];
        if passwordError.Some? {
          return Some(PasswordFailurePrefix + passwordError.value);
        }
      }
      assert effects == start + password;
      effects := effects + [SelectProfile(id)];
      ghost var looked := password + [SelectProfile(id)];
      assert effects == start + looked;
      if lookup.errorCode.Some? && lookup.errorCode.value != NoRowsCode {
        return Some(lookup.errorMessage);
      }
      var write := if lookup.existing then UpdateProfileRow(id, input.fields, now) else InsertProfileRow(id, input.fields, now);
      effects := effects + [write];
      assert effects == start + (looked + [write]);
      if writeError.Some? {
        return writeError;
      }
      effects := effects + [UpdateMetadata(input.fields)];
      assert effects == start + (looked + [write] + [UpdateMetadata(input.fields)]);
      if metadata.error.Some? {
        return metadata.error;
      }
      if metadata.user.Some? {
        user := metadata.user;
      }
      err := None;
    }
  }
}
