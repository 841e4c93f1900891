/** The user directory store (`useUserStore`): the list of user pages, loading
    and error flags, and the signed-in user's resolved role. */
module UserStore {
  import opened Wrappers
  import opened NotionProps
  import opened Remote

  /** The properties of a user page that the application reads. */
  datatype UserProperties = UserProperties(
    name: Option<TitleProp>,
    email: Option<EmailProp>,
    role: Option<SelectProp>,
    chef: Option<SelectProp>)

  /** One user page as the user endpoint returns it. */
  datatype NotionUser = NotionUser(id: string, properties: UserProperties)

  /** `properties?.email?.email`: the stored email, when there is one. */
  function UserEmail(u: NotionUser): (r: Option<string>)
    ensures r.Some? <==> u.properties.email.Some? && u.properties.email.value.email.Some?
    ensures r.Some? ==> r.value == u.properties.email.value.email.value
  {
    if u.properties.email.Some? then u.properties.email.value.email else None
  }

  /** `properties?.role?.select?.name`: the stored role name, when there is one. */
  function UserRoleName(u: NotionUser): (r: Option<string>)
    ensures r.Some? <==> u.properties.role.Some? && u.properties.role.value.select.Some?
    ensures r.Some? ==> r.value == u.properties.role.value.select.value.name
  {
    if u.properties.role.Some? && u.properties.role.value.select.Some? then Some(u.properties.role.value.select.value.name)
    else None
  }

  /** The role every user has until a stored role says otherwise. */
  const DefaultRole := "basic"

  /** The endpoint every fetch of users reads. */
  const FetchUrl := "/api/user"

  /** The message the store records when the fetch fails. */
  const FetchFailedMessage := "Failed to fetch users"

  class Store {
    var users: seq<NotionUser>
    var isLoading: bool
    var error: Option<string>
    var currentUserRole: string
    var isRoleLoaded: bool

    /** The store's initial state: no users, basic role, role not yet loaded. */
    constructor ()
      ensures users == [] && !isLoading && error == None
      ensures currentUserRole == DefaultRole && !isRoleLoaded
    {
      users := [];
      isLoading := false;
      error := None;
      currentUserRole := DefaultRole;
      isRoleLoaded := false;
    }

    /** `fetchUsers()`, with the response to its request given as `outcome`:
        the list is replaced wholesale on success and kept on failure; the role
        fields are never touched. */
    method FetchUsers(outcome: HttpOutcome<seq<NotionUser>>) returns (url: string)
      modifies this
      ensures url == FetchUrl && !isLoading
      ensures currentUserRole == old(currentUserRole) && isRoleLoaded == old(isRoleLoaded)
      ensures outcome.Ok? ==> users == outcome.body && error == None
      ensures outcome.NotOk? ==> users == old(users) && error == Some(FetchFailedMessage)
      ensures outcome.Threw? ==> users == old(users)
      ensures outcome.Threw? ==> error == Some(CaughtMessage(outcome.thrown, CaughtFallback))
    {
      isLoading := true;
      error := None;
      url := FetchUrl;
      if outcome.Ok? {
        users := outcome.body;
        isLoading := false;
      } else {
        error := Some(FailureMessage(outcome, FetchFailedMessage, CaughtFallback));
        isLoading := false;
      }
    }

    /** `setCurrentUserRole(role)` */
    method SetCurrentUserRole(role: string)
      modifies this
      ensures currentUserRole == role
      ensures users == old(users) && isLoading == old(isLoading) && error == old(error)
      ensures isRoleLoaded == old(isRoleLoaded)
    {
      currentUserRole := role;
    }

    /** `setRoleLoaded(loaded)` */
    method SetRoleLoaded(loaded: bool)
      modifies this
      ensures isRoleLoaded == loaded
      ensures users == old(users) && isLoading == old(isLoading) && error == old(error)
      ensures currentUserRole == old(currentUserRole)
    {
      isRoleLoaded := loaded;
    }

    /** `clearError()` */
    method ClearError()
      modifies this
      ensures error == None
      ensures users == old(users) && isLoading == old(isLoading)
      ensures currentUserRole == old(currentUserRole) && isRoleLoaded == old(isRoleLoaded)
    {
      error := None;
    }

    /** `clearUsers()` */
    method ClearUsers()
      modifies this
      ensures users == []
      ensures error == old(error) && isLoading == old(isLoading)
      ensures currentUserRole == old(currentUserRole) && isRoleLoaded == old(isRoleLoaded)
    {
      users := [];
    }

    /** `clearCurrentUser()`: back to the basic role, not loaded; the user list
        and error are kept. */
    method ClearCurrentUser()
      modifies this
      ensures currentUserRole == DefaultRole && !isRoleLoaded
      ensures users == old(users) && isLoading == old(isLoading) && error == old(error)
    {
      currentUserRole := DefaultRole;
      isRoleLoaded := false;
    }
  }
}
