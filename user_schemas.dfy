/** The request bodies of the account endpoints: their fields, defaults and length bounds. A
    request that breaks a bound is refused before any endpoint runs, with the failing fields
    named. Lengths count characters. */
module UserSchemas {
  import opened Wrappers

  const UsernameMin: nat := 3
  const UsernameMax: nat := 50
  const PasswordMin: nat := 8
  const PasswordMax: nat := 72
  const DefaultTheme: string := "dark"

  datatype UserCreate = UserCreate(email: string, username: string, password: string,
                                   isActive: bool, isSuperuser: bool,
                                   favoriteTeam: Option<string>, favoriteDriver: Option<string>,
                                   theme: string)

  datatype UserUpdate = UserUpdate(email: Option<string>, username: Option<string>, password: Option<string>,
                                   isActive: Option<bool>, favoriteTeam: Option<string>,
                                   favoriteDriver: Option<string>, theme: Option<string>)

  datatype UserPreferences = UserPreferences(favoriteTeam: Option<string>, favoriteDriver: Option<string>,
                                             theme: string)

  predicate UsernameInBounds(username: string)
  {
    UsernameMin <= |username| <= UsernameMax
  }

  predicate PasswordInBounds(password: string)
  {
    PasswordMin <= |password| <= PasswordMax
  }

  /** A registration body holding only the required fields: every optional field at its default. */
  function NewUserCreate(email: string, username: string, password: string): (u: UserCreate)
    ensures u.email == email && u.username == username && u.password == password
    ensures u.isActive && !u.isSuperuser
    ensures u.favoriteTeam.None? && u.favoriteDriver.None? && u.theme == "dark"
  {
    UserCreate(email, username, password, true, false, None, None, DefaultTheme)
  }

  /** An update body with nothing set. */
  function EmptyUserUpdate(): (u: UserUpdate)
    ensures u.email.None? && u.username.None? && u.password.None? && u.isActive.None?
    ensures u.favoriteTeam.None? && u.favoriteDriver.None? && u.theme.None?
  {
    UserUpdate(None, None, None, None, None, None, None)
  }

  /** A preferences body with nothing set. */
  function DefaultPreferences(): (p: UserPreferences)
    ensures p.favoriteTeam.None? && p.favoriteDriver.None? && p.theme == "dark"
  {
    UserPreferences(None, None, DefaultTheme)
  }

  /** The fields of a registration body that break their bounds, in declaration order. */
  function CreateErrors(u: UserCreate): (r: seq<string>)
    ensures "username" in r <==> !UsernameInBounds(u.username)
    ensures "password" in r <==> !PasswordInBounds(u.password)
    ensures |r| <= 2
  {
    (if UsernameInBounds(u.username) then [] else ["username"]) +
    (if PasswordInBounds(u.password) then [] else ["password"])
  }

  /** Validation of a registration body: accepted unchanged exactly when both bounds hold. */
  function ValidateCreate(u: UserCreate): (r: Result<UserCreate, seq<string>>)
    ensures r.Ok? <==> UsernameInBounds(u.username) && PasswordInBounds(u.password)
    ensures r.Ok? ==> r.value == u
    ensures r.Err? ==> r.error != [] && r.error == CreateErrors(u)
  {
    var errors := CreateErrors(u);
    if errors == [] then Ok(u) else Err(errors)
  }

  /** The fields of an update body that are present and break their bounds; absent fields are
      never checked. */
  function UpdateErrors(u: UserUpdate): (r: seq<string>)
    ensures "username" in r <==> u.username.Some? && !UsernameInBounds(u.username.value)
    ensures "password" in r <==> u.password.Some? && !PasswordInBounds(u.password.value)
  {
    (if u.username.None? || UsernameInBounds(u.username.value) then [] else ["username"]) +
    (if u.password.None? || PasswordInBounds(u.password.value) then [] else ["password"])
  }

  function ValidateUpdate(u: UserUpdate): (r: Result<UserUpdate, seq<string>>)
    ensures r.Ok? <==> (u.username.None? || UsernameInBounds(u.username.value)) &&
                       (u.password.None? || PasswordInBounds(u.password.value))
    ensures r.Ok? ==> r.value == u
    ensures r.Err? ==> r.error != [] && r.error == UpdateErrors(u)
  {
    var errors := UpdateErrors(u);
    if errors == [] then Ok(u) else Err(errors)
  }

  /** The empty update is always accepted. */
  lemma EmptyUpdateValid()
    ensures ValidateUpdate(EmptyUserUpdate()) == Ok(EmptyUserUpdate())
  {
  }
}
