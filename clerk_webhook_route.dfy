/** The sign-up webhook of the sign-in provider: on a `user.created` event it
    writes a user page with a display name, an email and the default role and
    chef flag; every event is acknowledged. The page write is not modelled;
    whether it succeeds is a parameter. */
module ClerkWebhookRoute {
  import opened Wrappers
  import opened JsString
  import opened NotionProps
  import UserStore
  import Navbar
  import JsNumber

  /** One entry of the new user's `email_addresses`. */
  datatype EmailAddress = EmailAddress(email_address: Option<string>)

  /** The `data` of the event: the new user as the provider describes it. */
  datatype ClerkUser = ClerkUser(
    first_name: Option<string>, last_name: Option<string>, username: Option<string>,
    email_addresses: Option<seq<EmailAddress>>)

  /** The event: its `type` and its `data`, which may be absent. */
  datatype WebhookEvent = WebhookEvent(eventType: string, data: Option<ClerkUser>)

  const CreatedEvent := "user.created"
  const UnnamedUser := "Unnamed User"
  const NoEmail := "no-email"

  /** `v || ""` */
  function OrEmpty(v: Option<string>): (r: string)
    ensures Present(v) ==> r == v.value
    ensures !Present(v) ==> r == ""
  {
    if v.Some? then v.value else ""
  }

  /** The first and last name joined by a space, trimmed. */
  function FullName(u: ClerkUser): string {
    Trim(OrEmpty(u.first_name) + " " + OrEmpty(u.last_name))
  }

  /** The display name written for a new user: the trimmed full name, else the
      username, else a fixed placeholder; it is never empty. */
  function DisplayName(u: ClerkUser): (name: string)
    ensures name != ""
    ensures FullName(u) != "" ==> name == FullName(u)
    ensures FullName(u) == "" && Present(u.username) ==> name == u.username.value
    ensures FullName(u) == "" && !Present(u.username) ==> name == UnnamedUser
  {
    if FullName(u) != "" then FullName(u)
    else if Present(u.username) then u.username.value
    else UnnamedUser
  }

  /** A first and a last name without surrounding white space give exactly
      "first last". */
  lemma DisplayNameOfFullName(u: ClerkUser, first: string, last: string)
    requires u.first_name == Some(first) && u.last_name == Some(last)
    requires first != [] && !IsJsWhitespace(first[0])
    requires last != [] && !IsJsWhitespace(last[|last| - 1])
    ensures DisplayName(u) == first + " " + last
  {
    var s := first + " " + last;
    assert s[0] == first[0] && s[|s| - 1] == last[|last| - 1];
    JsNumber.TrimOfUnpadded(s);
  }

  /** Without either name the username is used, and without that the
      placeholder. */
  lemma DisplayNameWithoutNames(u: ClerkUser)
    requires !Present(u.first_name) && !Present(u.last_name)
    ensures DisplayName(u) == if Present(u.username) then u.username.value else UnnamedUser
  {
    assert OrEmpty(u.first_name) + " " + OrEmpty(u.last_name) == " ";
    assert AllWhitespace(" ");
    TrimEmptyIffBlank(" ");
  }

  /** `email_addresses?.[0]?.email_address || "no-email"`: the first address,
      or a placeholder; never empty. */
  function PrimaryEmail(u: ClerkUser): (email: string)
    ensures email != ""
    ensures u.email_addresses.Some? && |u.email_addresses.value| > 0 && Present(u.email_addresses.value[0].email_address) ==>
      email == u.email_addresses.value[0].email_address.value
    ensures !(u.email_addresses.Some? && |u.email_addresses.value| > 0 && Present(u.email_addresses.value[0].email_address)) ==>
      email == NoEmail
  {
    if u.email_addresses.Some? && |u.email_addresses.value| > 0 && Present(u.email_addresses.value[0].email_address) then
      u.email_addresses.value[0].email_address.value
    else NoEmail
  }

  /** The user page the webhook writes: the title fragment's content, the
      email, and the role and chef options. */
  datatype NewUserPage = NewUserPage(name: string, email: string, role: string, chef: string)

  const DefaultRole := "basic"
  const DefaultChef := "no"

  /** The page written for a new user. */
  function NewUser(u: ClerkUser): (p: NewUserPage)
    ensures p.name != "" && p.email != ""
    ensures p.role == DefaultRole && p.chef == DefaultChef
    ensures p.name == DisplayName(u) && p.email == PrimaryEmail(u)
  {
    NewUserPage(DisplayName(u), PrimaryEmail(u), DefaultRole, DefaultChef)
  }

  /** `{ ok: true }` with status 200, or `{ error: "Webhook failed" }` with 500. */
  datatype WebhookResponse = Acknowledged | WebhookFailed

  datatype WebhookResult = WebhookResult(response: WebhookResponse, created: Option<NewUserPage>)

  /** `POST /api/clerk-webhook`: `event` is `None` when the body cannot be
      read; `writeSucceeds` says whether the page write succeeds. A created
      event without `data` throws when its fields are read. */
  function HandleWebhook(event: Option<WebhookEvent>, writeSucceeds: bool): (r: WebhookResult)
    ensures r.response == Acknowledged <==>
      event.Some? && (event.value.eventType != CreatedEvent || (event.value.data.Some? && writeSucceeds))
    ensures r.created.Some? <==> event.Some? && event.value.eventType == CreatedEvent && event.value.data.Some?
    ensures r.created.Some? ==> r.created.value == NewUser(event.value.data.value)
  {
    if event.None? then WebhookResult(WebhookFailed, None)
    else if event.value.eventType != CreatedEvent then WebhookResult(Acknowledged, None)
    else if event.value.data.None? then WebhookResult(WebhookFailed, None)
    else
      var page := NewUser(event.value.data.value);
      WebhookResult(if writeSucceeds then Acknowledged else WebhookFailed, Some(page))
  }

  /** The user page as the user endpoint reads it back. Two assumptions that
      are not in the code stand behind it: the database returns the title
      fragment with `plain_text` equal to the written `content`; and the
      database the webhook writes to (setting `NOTION_RESUMEDB_ID`) is the one
      the user endpoint lists (setting `NOTION_USERDB_ID`), which holds only
      when the two settings name the same database. */
  function StoredUser(id: string, p: NewUserPage): UserStore.NotionUser {
    UserStore.NotionUser(id, UserStore.UserProperties(
      Some(TitleProp(Some([RichTextItem(p.name)]))),
      Some(EmailProp(Some(p.email))),
      Some(SelectProp(Some(SelectOption(p.role)))),
      Some(SelectProp(Some(SelectOption(p.chef))))))
  }

  /** A user created by the webhook is found by the email it was created with
      and gets the basic role in the navigation bar, provided the user list
      holds the written page as `StoredUser` reads it back; `others` are the
      users listed before it. */
  lemma CreatedUserResolvesToBasic(u: ClerkUser, id: string, others: seq<UserStore.NotionUser>)
    requires forall i :: 0 <= i < |others| ==> UserStore.UserEmail(others[i]) != Some(PrimaryEmail(u))
    ensures var stored := StoredUser(id, NewUser(u));
      && Navbar.FindUserByEmail(others + [stored], PrimaryEmail(u)) == Some(stored)
      && Navbar.ResolvedRole(Some(stored)) == UserStore.DefaultRole
  {
    var stored := StoredUser(id, NewUser(u));
    var users := others + [stored];
    assert users[|others|] == stored;
    assert forall j :: 0 <= j < |others| ==> UserStore.UserEmail(users[j]) != Some(PrimaryEmail(u));
    Navbar.FirstMatchWins(users, PrimaryEmail(u), |others|);
  }
}
