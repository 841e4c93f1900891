/** The navigation bar's role resolution: once the user directory is loaded, the
    signed-in user's role is looked up by email and written into the user store;
    on sign-out the role is reset; the role badge reflects the stored role. */
module Navbar {
  import opened Wrappers
  import opened UserStore
  import JsArray

  /** The signed-in identity as the sign-in provider reports it (`useUser().user`). */
  datatype Identity = Identity(emailAddresses: seq<string>)

  /** `storeUser.properties?.email?.email === email` */
  predicate HasEmail(email: string, u: NotionUser) {
    UserEmail(u) == Some(email)
  }

  /** `users.find(...)`: the first user whose stored email is exactly `email`;
      the comparison is case-sensitive. */
  function FindUserByEmail(users: seq<NotionUser>, email: string): (r: Option<NotionUser>)
    ensures r.Some? ==> UserEmail(r.value) == Some(email)
    ensures r.None? <==> forall i :: 0 <= i < |users| ==> UserEmail(users[i]) != Some(email)
    ensures r.Some? ==>
      exists i :: 0 <= i < |users| && users[i] == r.value && forall j :: 0 <= j < i ==> UserEmail(users[j]) != Some(email)
  {
    JsArray.Find(users, u => HasEmail(email, u))
  }

  /** When several users share the email, the first of them is the match. */
  lemma FirstMatchWins(users: seq<NotionUser>, email: string, i: nat)
    requires i < |users| && UserEmail(users[i]) == Some(email)
    requires forall j :: 0 <= j < i ==> UserEmail(users[j]) != Some(email)
    ensures FindUserByEmail(users, email) == Some(users[i])
  {
    JsArray.FindIsFirst(users, u => HasEmail(email, u), i);
  }

  /** `role || 'basic'` for the matched user, or `'basic'` without a match. */
  function ResolvedRole(matched: Option<NotionUser>): (r: string)
    ensures r != ""
    ensures matched.Some? && UserRoleName(matched.value).Some? && UserRoleName(matched.value).value != "" ==>
      r == UserRoleName(matched.value).value
    ensures matched.None? || UserRoleName(matched.value).None? || UserRoleName(matched.value).value == "" ==>
      r == DefaultRole
  {
    if matched.Some? && UserRoleName(matched.value).Some? && UserRoleName(matched.value).value != "" then
      UserRoleName(matched.value).value
    else DefaultRole
  }

  /** The role-resolution effect. It does nothing until the directory holds at
      least one user and the identity has at least one email address; then the
      role becomes the first match's role (or basic) and is marked loaded. */
  method ResolveRole(store: Store, user: Option<Identity>)
    modifies store
    ensures store.users == old(store.users) && store.isLoading == old(store.isLoading)
    ensures store.error == old(store.error)
    ensures |store.users| > 0 && user.Some? && |user.value.emailAddresses| > 0 ==>
      && store.currentUserRole == ResolvedRole(FindUserByEmail(store.users, user.value.emailAddresses[0]))
      && store.isRoleLoaded
    ensures !(|store.users| > 0 && user.Some? && |user.value.emailAddresses| > 0) ==>
      store.currentUserRole == old(store.currentUserRole) && store.isRoleLoaded == old(store.isRoleLoaded)
  {
    if |store.users| > 0 {
      if user.Some? && |user.value.emailAddresses| > 0 {
        var email := user.value.emailAddresses[0];
        var matched := FindUserByEmail(store.users, email);
        if matched.Some? {
          var role := UserRoleName(matched.value);
          store.SetCurrentUserRole(if role.Some? && role.value != "" then role.value else DefaultRole);
          store.SetRoleLoaded(true);
        } else {
          store.SetCurrentUserRole(DefaultRole);
          store.SetRoleLoaded(true);
        }
      }
    }
  }

  /** The sign-out effect: when signed out the role is basic and not loaded;
      while signed in nothing changes. */
  method SignOutReset(store: Store, isSignedIn: bool)
    modifies store
    ensures store.users == old(store.users) && store.isLoading == old(store.isLoading)
    ensures store.error == old(store.error)
    ensures !isSignedIn ==> store.currentUserRole == DefaultRole && !store.isRoleLoaded
    ensures isSignedIn ==>
      store.currentUserRole == old(store.currentUserRole) && store.isRoleLoaded == old(store.isRoleLoaded)
  {
    if !isSignedIn {
      store.SetRoleLoaded(false);
      store.ClearCurrentUser();
      store.SetCurrentUserRole(DefaultRole);
    }
  }

  /** What the role tag in the bar shows. */
  datatype Badge = NoBadge | ProBadge | BasicBadge

  /** The role tag: shown only to a signed-in user whose role is loaded; it
      reads Pro exactly for the role `pro` and Basic for every other role. */
  function RoleBadge(isSignedIn: bool, isRoleLoaded: bool, role: string): (b: Badge)
    ensures b.NoBadge? <==> !(isSignedIn && isRoleLoaded)
    ensures b.ProBadge? <==> isSignedIn && isRoleLoaded && role == "pro"
    ensures b.BasicBadge? <==> isSignedIn && isRoleLoaded && role != "pro"
  {
    if !(isSignedIn && isRoleLoaded) then NoBadge
    else if role == "pro" then ProBadge
    else BasicBadge
  }

  /** Email lookup is exact: a user stored as `A@x.com` with the role `pro` is
      not found for the identity `a@x.com`, who therefore resolves to basic. */
  lemma EmailMatchIsCaseSensitive()
    ensures
      var stored := NotionUser("u1", UserProperties(None, Some(NotionProps.EmailProp(Some("A@x.com"))),
                                                    Some(NotionProps.SelectProp(Some(NotionProps.SelectOption("pro")))), None));
      FindUserByEmail([stored], "a@x.com") == None
      && ResolvedRole(FindUserByEmail([stored], "a@x.com")) == DefaultRole
      && ResolvedRole(FindUserByEmail([stored], "A@x.com")) == "pro"
  {
    var stored := NotionUser("u1", UserProperties(None, Some(NotionProps.EmailProp(Some("A@x.com"))),
                                                  Some(NotionProps.SelectProp(Some(NotionProps.SelectOption("pro")))), None));
    assert UserEmail(stored) == Some("A@x.com");
    assert "A@x.com"[0] != "a@x.com"[0];
    FirstMatchWins([stored], "A@x.com", 0);
  }
}
