/** The account endpoints as operations on an in-memory user table: registration, login, profile
    update and preference update. Password hashing, its check and token creation are the
    parameters `hash`, `verify` and `createToken`. An operation that fails leaves the table as it
    was (nothing is committed). */
module Auth {
  import opened Wrappers
  import opened UserSchemas
  import opened Deps

  /** The login response. */
  datatype Token = Token(accessToken: string, tokenType: string)

  /** Some row other than the excluded id uses the email. */
  predicate EmailClash(rows: seq<UserRecord>, email: string, self: Option<int>)
  {
    exists i :: 0 <= i < |rows| && rows[i].email == email && (self.None? || rows[i].id != self.value)
  }

  /** Some row other than the excluded id uses the username. */
  predicate UsernameClash(rows: seq<UserRecord>, username: string, self: Option<int>)
  {
    exists i :: 0 <= i < |rows| && rows[i].username == username && (self.None? || rows[i].id != self.value)
  }

  /** No two rows share an id, an email or a username. */
  predicate UniqueRows(rows: seq<UserRecord>)
  {
    forall i, j :: 0 <= i < j < |rows| ==>
      rows[i].id != rows[j].id && rows[i].email != rows[j].email && rows[i].username != rows[j].username
  }

  /** The row `register` inserts: the body's fields copied, including both flags, and the
      password stored only as its hash. */
  function NewRecord(id: int, userIn: UserCreate, hash: string -> string): (u: UserRecord)
    ensures u.id == id && u.email == userIn.email && u.username == userIn.username
    ensures u.hashedPassword == hash(userIn.password)
    ensures u.isActive == userIn.isActive && u.isSuperuser == userIn.isSuperuser
    ensures u.favoriteTeam == userIn.favoriteTeam && u.favoriteDriver == userIn.favoriteDriver
    ensures u.theme == userIn.theme
  {
    UserRecord(id, userIn.email, userIn.username, hash(userIn.password), userIn.isActive,
               userIn.isSuperuser, userIn.favoriteTeam, userIn.favoriteDriver, userIn.theme)
  }

  /** The row after a successful `update_me`: each field present in the body replaces the stored
      one; the id and both flags never change, even when the body carries `is_active`. */
  function Updated(u: UserRecord, userIn: UserUpdate, hash: string -> string): (r: UserRecord)
    ensures r.id == u.id && r.isActive == u.isActive && r.isSuperuser == u.isSuperuser
    ensures r.email == (if userIn.email.Some? then userIn.email.value else u.email)
    ensures r.username == (if userIn.username.Some? then userIn.username.value else u.username)
    ensures r.hashedPassword == (if userIn.password.Some? then hash(userIn.password.value) else u.hashedPassword)
    ensures r.favoriteTeam == (if userIn.favoriteTeam.Some? then userIn.favoriteTeam else u.favoriteTeam)
    ensures r.favoriteDriver == (if userIn.favoriteDriver.Some? then userIn.favoriteDriver else u.favoriteDriver)
    ensures r.theme == (if userIn.theme.Some? then userIn.theme.value else u.theme)
  {
    var withEmail := if userIn.email.Some? then u.(email := userIn.email.value) else u;
    var withName := if userIn.username.Some? then withEmail.(username := userIn.username.value) else withEmail;
    var withPassword := if userIn.password.Some? then withName.(hashedPassword := hash(userIn.password.value))
                        else withName;
    var withTeam := if userIn.favoriteTeam.Some? then withPassword.(favoriteTeam := userIn.favoriteTeam)
                    else withPassword;
    var withDriver := if userIn.favoriteDriver.Some? then withTeam.(favoriteDriver := userIn.favoriteDriver)
                      else withTeam;
    if userIn.theme.Some? then withDriver.(theme := userIn.theme.value) else withDriver
  }

  /** Re-submitting one's own email or username never clashes. */
  lemma OwnDetailsNoClash(rows: seq<UserRecord>, k: nat)
    requires UniqueRows(rows) && k < |rows|
    ensures !EmailClash(rows, rows[k].email, Some(rows[k].id))
    ensures !UsernameClash(rows, rows[k].username, Some(rows[k].id))
  {
    forall i | 0 <= i < |rows| && rows[i].id != rows[k].id
      ensures rows[i].email != rows[k].email && rows[i].username != rows[k].username
    {
      if i < k {
        assert rows[i].email != rows[k].email;
      } else if k < i {
        assert rows[k].email != rows[i].email;
      }
    }
  }

  class UserTable {
    var rows: seq<UserRecord>
    /** The id the next inserted row receives. */
    var nextId: int

    ghost predicate Valid()
      reads this
    {
      UniqueRows(rows) && forall i :: 0 <= i < |rows| ==> rows[i].id < nextId
    }

    constructor()
      ensures rows == [] && nextId == 1 && Valid()
    {
      rows := [];
      nextId := 1;
    }

    /** `register`: a used email is refused first, then a used username; otherwise the new row is
        appended with a fresh id. */
    method Register(userIn: UserCreate, hash: string -> string) returns (r: Result<UserRecord, HttpError>)
      requires Valid()
      modifies this
      ensures Valid()
      ensures EmailClash(old(rows), userIn.email, None) ==>
                r == Err(HttpError(400, "Email already registered")) && rows == old(rows) && nextId == old(nextId)
      ensures !EmailClash(old(rows), userIn.email, None) && UsernameClash(old(rows), userIn.username, None) ==>
                r == Err(HttpError(400, "Username already taken")) && rows == old(rows) && nextId == old(nextId)
      ensures !EmailClash(old(rows), userIn.email, None) && !UsernameClash(old(rows), userIn.username, None) ==>
                r == Ok(NewRecord(old(nextId), userIn, hash)) && rows == old(rows) + [r.value] &&
                nextId == old(nextId) + 1
    {
      var byEmail := FindRow(rows, (u: UserRecord) => u.email == userIn.email);
      if byEmail.Some? {
        return Err(HttpError(400, "Email already registered"));
      }
      var byName := FindRow(rows, (u: UserRecord) => u.username == userIn.username);
      if byName.Some? {
        return Err(HttpError(400, "Username already taken"));
      }
      var user := NewRecord(nextId, userIn, hash);
      rows := rows + [user];
      nextId := nextId + 1;
      r := Ok(user);
    }

    /** `login`: 401 unless a row has the email and the password verifies against its hash; then
        400 for an inactive user; otherwise a bearer token for that user's id. */
    method Login(email: string, password: string, verify: (string, string) -> bool, createToken: int -> string)
      returns (r: Result<Token, HttpError>)
      requires Valid()
      ensures r.Err? ==> r.error == HttpError(401, "Incorrect email or password") ||
                         r.error == HttpError(400, "Inactive user")
      ensures r.Err? && r.error.status == 401 <==>
                !exists i :: 0 <= i < |rows| && rows[i].email == email && verify(password, rows[i].hashedPassword)
      ensures r.Err? && r.error.status == 400 <==>
                exists i :: 0 <= i < |rows| && rows[i].email == email && verify(password, rows[i].hashedPassword) &&
                            !rows[i].isActive
      ensures r.Ok? ==> r.value.tokenType == "bearer" &&
                        exists i :: 0 <= i < |rows| && rows[i].email == email && rows[i].isActive &&
                                    verify(password, rows[i].hashedPassword) &&
                                    r.value.accessToken == createToken(rows[i].id)
    {
      var user := FindRow(rows, (u: UserRecord) => u.email == email);
      if user.None? || !verify(password, user.value.hashedPassword) {
        r := Err(HttpError(401, "Incorrect email or password"));
        UniqueEmail(email);
        return;
      }
      UniqueEmail(email);
      if !user.value.isActive {
        return Err(HttpError(400, "Inactive user"));
      }
      r := Ok(Token(createToken(user.value.id), "bearer"));
    }

    /** At most one row holds an email, so it is the one the query finds. */
    lemma UniqueEmail(email: string)
      requires Valid()
      ensures forall i :: 0 <= i < |rows| && rows[i].email == email ==>
                FindRow(rows, (u: UserRecord) => u.email == email) == Some(rows[i])
    {
      forall i | 0 <= i < |rows| && rows[i].email == email
        ensures FindRow(rows, (u: UserRecord) => u.email == email) == Some(rows[i])
      {
        var found := FindRow(rows, (u: UserRecord) => u.email == email);
        var k :| 0 <= k < |rows| && rows[k] == found.value && found.value.email == email;
        SameEmailSameRow(rows, k, i);
      }
    }

    /** `update_me` for the user in row `current`: an email or username that another user holds is
        refused (email first) and nothing changes; otherwise the row becomes `Updated`. */
    method UpdateMe(current: nat, userIn: UserUpdate, hash: string -> string) returns (r: Result<UserRecord, HttpError>)
      requires Valid() && current < |rows|
      modifies this
      ensures Valid() && nextId == old(nextId)
      ensures var me := old(rows)[current];
              var emailClash := userIn.email.Some? && EmailClash(old(rows), userIn.email.value, Some(me.id));
              var nameClash := userIn.username.Some? && UsernameClash(old(rows), userIn.username.value, Some(me.id));
              (emailClash ==> r == Err(HttpError(400, "Email already registered")) && rows == old(rows)) &&
              (!emailClash && nameClash ==> r == Err(HttpError(400, "Username already taken")) && rows == old(rows)) &&
              (!emailClash && !nameClash ==> r == Ok(Updated(me, userIn, hash)) && rows == old(rows)[current := r.value])
    {
      var me := rows[current];
      if userIn.email.Some? {
        var other := FindRow(rows, (u: UserRecord) => u.email == userIn.email.value && u.id != me.id);
        if other.Some? {
          return Err(HttpError(400, "Email already registered"));
        }
      }
      if userIn.username.Some? {
        var other := FindRow(rows, (u: UserRecord) => u.username == userIn.username.value && u.id != me.id);
        if other.Some? {
          return Err(HttpError(400, "Username already taken"));
        }
      }
      var user := Updated(me, userIn, hash);
      UpdatedStaysUnique(rows, current, user);
      rows := rows[current := user];
      r := Ok(user);
    }

    /** `update_preferences`: all three fields are overwritten, absent favourites included. */
    method UpdatePreferences(current: nat, preferences: UserPreferences) returns (user: UserRecord)
      requires Valid() && current < |rows|
      modifies this
      ensures Valid() && nextId == old(nextId)
      ensures user == old(rows)[current].(favoriteTeam := preferences.favoriteTeam,
                                          favoriteDriver := preferences.favoriteDriver,
                                          theme := preferences.theme)
      ensures rows == old(rows)[current := user]
    {
      user := rows[current];
      user := user.(favoriteTeam := preferences.favoriteTeam);
      user := user.(favoriteDriver := preferences.favoriteDriver);
      user := user.(theme := preferences.theme);
      UpdatedStaysUnique(rows, current, user);
      rows := rows[current := user];
    }
  }

  /** Two rows of a duplicate-free table with the same email are the same row. */
  lemma SameEmailSameRow(rows: seq<UserRecord>, a: nat, b: nat)
    requires UniqueRows(rows) && a < |rows| && b < |rows|
    ensures rows[a].email == rows[b].email ==> a == b
  {
    if a < b {
      assert rows[a].email != rows[b].email;
    } else if b < a {
      assert rows[b].email != rows[a].email;
    }
  }

  /** Replacing a row by one with the same id and an email and username no other row holds keeps
      the table free of duplicates. */
  lemma UpdatedStaysUnique(rows: seq<UserRecord>, k: nat, user: UserRecord)
    requires UniqueRows(rows) && k < |rows| && user.id == rows[k].id
    requires !EmailClash(rows, user.email, Some(user.id)) && !UsernameClash(rows, user.username, Some(user.id))
    ensures UniqueRows(rows[k := user])
  {
    var updated := rows[k := user];
    forall i, j | 0 <= i < j < |updated|
      ensures updated[i].id != updated[j].id && updated[i].email != updated[j].email &&
              updated[i].username != updated[j].username
    {
      if i == k {
        assert rows[j].id != rows[k].id;
      } else if j == k {
        assert rows[i].id != rows[k].id;
      }
    }
  }
}
