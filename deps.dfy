/** The stored user row and the request guards that resolve a bearer token to a user. The user
    table is a sequence of rows; token decoding is the parameter `decode`, which yields the user
    id a valid token carries. The database model module is not part of this model: the row
    holds the columns the endpoints read and write. */
module Deps {
  import opened Wrappers

  datatype UserRecord = UserRecord(id: int, email: string, username: string, hashedPassword: string,
                                   isActive: bool, isSuperuser: bool,
                                   favoriteTeam: Option<string>, favoriteDriver: Option<string>,
                                   theme: string)

  /** An `HTTPException`: status code and detail. */
  datatype HttpError = HttpError(status: int, detail: string)

  /** `select(User).where(...).scalar_one_or_none()`: the first row meeting the condition. */
  function FindRow(rows: seq<UserRecord>, matches: UserRecord -> bool): (r: Option<UserRecord>)
    ensures r.None? <==> forall i :: 0 <= i < |rows| ==> !matches(rows[i])
    ensures r.Some? ==> exists i :: 0 <= i < |rows| && rows[i] == r.value && matches(r.value) &&
                          forall j :: 0 <= j < i ==> !matches(rows[j])
  {
    if rows == [] then None
    else if matches(rows[0]) then Some(rows[0])
    else
      var r := FindRow(rows[1..], matches);
      assert forall i :: 1 <= i < |rows| ==> rows[1..][i - 1] == rows[i];
      r
  }

  function FindById(rows: seq<UserRecord>, id: int): Option<UserRecord>
  {
    FindRow(rows, (u: UserRecord) => u.id == id)
  }

  /** `get_current_user`: 401 for a token without a user id, 401 for an id no row has, 400 for
      an inactive user, otherwise the user. */
  function CurrentUser(token: string, decode: string -> Option<int>, rows: seq<UserRecord>)
    : (r: Result<UserRecord, HttpError>)
    ensures decode(token).None? ==> r == Err(HttpError(401, "Could not validate credentials"))
    ensures decode(token).Some? && (forall i :: 0 <= i < |rows| ==> rows[i].id != decode(token).value) ==>
              r == Err(HttpError(401, "User not found"))
    ensures r.Ok? <==> decode(token).Some? && FindById(rows, decode(token).value).Some? &&
                       FindById(rows, decode(token).value).value.isActive
    ensures r.Ok? ==> r.value in rows && r.value.id == decode(token).value && r.value.isActive
    ensures r.Err? && r.error.status == 400 ==> r.error.detail == "Inactive user"
  {
    var userId := decode(token);
    if userId.None? then Err(HttpError(401, "Could not validate credentials"))
    else
      var user := FindById(rows, userId.value);
      if user.None? then Err(HttpError(401, "User not found"))
      else if !user.value.isActive then Err(HttpError(400, "Inactive user"))
      else Ok(user.value)
  }

  /** `get_current_active_superuser`: 403 exactly for a user who is not a superuser. */
  function ActiveSuperuser(user: UserRecord): (r: Result<UserRecord, HttpError>)
    ensures r.Err? <==> !user.isSuperuser
    ensures r.Ok? ==> r.value == user
    ensures r.Err? ==> r.error == HttpError(403, "The user doesn't have enough privileges")
  {
    if !user.isSuperuser then Err(HttpError(403, "The user doesn't have enough privileges"))
    else Ok(user)
  }

  /** `get_optional_user`: never fails; none for missing credentials, an undecodable token, an
      unknown user or an inactive one. */
  function OptionalUser(credentials: Option<string>, decode: string -> Option<int>, rows: seq<UserRecord>)
    : (r: Option<UserRecord>)
    ensures credentials.None? ==> r.None?
    ensures r.Some? ==> r.value in rows && r.value.isActive
  {
    if credentials.None? then None
    else
      var userId := decode(credentials.value);
      if userId.None? then None
      else
        var user := FindById(rows, userId.value);
        if user.Some? && user.value.isActive then user else None
  }

  /** With credentials, the optional guard yields a user exactly when the strict guard would
      accept the same token, and then the same user. */
  lemma OptionalAgreesWithCurrent(token: string, decode: string -> Option<int>, rows: seq<UserRecord>)
    ensures OptionalUser(Some(token), decode, rows).Some? <==> CurrentUser(token, decode, rows).Ok?
    ensures CurrentUser(token, decode, rows).Ok? ==>
              OptionalUser(Some(token), decode, rows) == Some(CurrentUser(token, decode, rows).value)
  {
  }
}
