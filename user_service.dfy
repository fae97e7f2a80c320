/** UserService: registration, login and user lookups. The password encoder
    and the token generator are opaque: they arrive as function parameters. */
module UserService {
  import opened Errors
  import opened Roles
  import opened Entities
  import opened Validation
  import opened Authorization
  import opened Repositories

  datatype RegisterRequest = RegisterRequest(name: Option<string>, email: Option<string>, password: Option<string>)
  /** UserLoginDto; the login endpoint does not validate it, so either field
      may be null. */
  datatype LoginRequest = LoginRequest(email: Option<string>, password: Option<string>)

  /** UserResponseDto. */
  datatype UserView = UserView(id: int, name: string, email: string, role: string)

  /** AuthResponseDto. */
  datatype AuthResponse = AuthResponse(token: string, tokenType: string, id: int, email: string, name: string, role: string)

  /** `mapToUserResponseDto`. */
  function MapToUserView(id: int, user: User): (v: UserView)
    ensures v.id == id && v.name == user.name && v.email == user.email
    ensures v.role == Name(user.role)
    ensures FromString(Some(v.role)) == Some(user.role)
  {
    NameRoundTrip(user.role);
    UserView(id, user.name, user.email, Name(user.role))
  }

  /** `existsByEmail`. */
  predicate ExistsByEmail(users: map<int, User>, email: string) {
    exists id :: id in users && users[id].email == email
  }

  /** `findByEmail`: the one user with that address, if any. */
  function FindByEmail(users: map<int, User>, email: string): (r: Option<int>)
    requires EmailsUnique(users)
    ensures r.Some? <==> ExistsByEmail(users, email)
    ensures r.Some? ==> r.value in users && users[r.value].email == email
  {
    if ExistsByEmail(users, email) then
      Some(var id :| id in users && users[id].email == email; id)
    else None
  }

  /** The user that `registerUser` saves, or the first check that fails:
      name, then e-mail shape, then password, then e-mail uniqueness. */
  function Registration(users: map<int, User>, dto: RegisterRequest, encode: string -> string): (r: Result<User>)
    ensures ValidateNotEmpty(dto.name, "name").Fail? ==> r == Err(BadRequest("name"))
    ensures ValidateNotEmpty(dto.name, "name").Pass? && !ValidateEmail(dto.email).Pass? ==> r == Err(BadRequest("email"))
    ensures (ValidateNotEmpty(dto.name, "name").Pass? && ValidateEmail(dto.email).Pass?
             && ValidatePassword(dto.password).Fail?) ==> r == Err(BadRequest("password"))
    ensures r.Ok? <==> ValidateNotEmpty(dto.name, "name").Pass? && ValidateEmail(dto.email).Pass?
                       && ValidatePassword(dto.password).Pass? && !ExistsByEmail(users, dto.email.value)
    ensures (ValidateNotEmpty(dto.name, "name").Pass? && ValidateEmail(dto.email).Pass?
             && ValidatePassword(dto.password).Pass? && ExistsByEmail(users, dto.email.value)) ==> r == Err(BadRequest("email"))
    ensures r.Err? ==> r.error.BadRequest?
    ensures r.Ok? ==> r.value == User(dto.name.value, dto.email.value, encode(dto.password.value), CUSTOMER)
  {
    var nameCheck := ValidateNotEmpty(dto.name, "name");
    if nameCheck.Fail? then Err(nameCheck.error)
    else
      var emailCheck := ValidateEmail(dto.email);
      if emailCheck.Fail? then Err(emailCheck.error)
      else
        var passwordCheck := ValidatePassword(dto.password);
        if passwordCheck.Fail? then Err(passwordCheck.error)
        else if ExistsByEmail(users, dto.email.value) then Err(BadRequest("email"))
        else Ok(User(dto.name.value, dto.email.value, encode(dto.password.value), CUSTOMER))
  }

  /** A user saved by a successful registration keeps e-mails unique. */
  lemma RegistrationKeepsEmailsUnique(users: map<int, User>, dto: RegisterRequest, encode: string -> string, id: int)
    requires EmailsUnique(users) && id !in users
    requires Registration(users, dto, encode).Ok?
    ensures EmailsUnique(users[id := Registration(users, dto, encode).value])
  {
    var u := Registration(users, dto, encode).value;
    forall i | i in users ensures users[i].email != u.email {
      assert !ExistsByEmail(users, dto.email.value);
    }
  }

  /** `registerUser`: validates, refuses a taken e-mail, saves a CUSTOMER
      with the encoded password under a fresh id. */
  method RegisterUser(db: Store, dto: RegisterRequest, encode: string -> string) returns (r: Result<UserView>)
    requires db.Valid()
    modifies db`users, db`nextUserId
    ensures db.Valid()
    ensures Registration(old(db.users), dto, encode).Err? ==>
              r == Err(Registration(old(db.users), dto, encode).error)
              && db.users == old(db.users) && db.nextUserId == old(db.nextUserId)
    ensures Registration(old(db.users), dto, encode).Ok? ==>
              var u := Registration(old(db.users), dto, encode).value;
              && db.users == old(db.users)[old(db.nextUserId) := u]
              && db.nextUserId == old(db.nextUserId) + 1
              && r == Ok(MapToUserView(old(db.nextUserId), u))
  {
    var registered := Registration(db.users, dto, encode);
    if registered.Err? {
      return Err(registered.error);
    }
    var id := db.nextUserId;
    RegistrationKeepsEmailsUnique(db.users, dto, encode, id);
    db.users := db.users[id := registered.value];
    db.nextUserId := id + 1;
    r := Ok(MapToUserView(id, registered.value));
  }

  /** `loginUser`: an unknown address and a wrong password give the same
      Unauthorized error. A null address finds no user (every stored user has
      one); a null password is handed to the matcher as it is. */
  function LoginUser(users: map<int, User>, dto: LoginRequest,
                     matches: (Option<string>, string) -> bool,
                     generateToken: (string, int, Role) -> string): (r: Result<AuthResponse>)
    requires EmailsUnique(users)
    ensures r.Err? ==> r.error == Unauthorized
    ensures dto.email.None? ==> r == Err(Unauthorized)
    ensures r.Ok? <==> dto.email.Some? && exists id :: id in users && users[id].email == dto.email.value
                                                       && matches(dto.password, users[id].password)
    ensures r.Ok? ==> exists id :: id in users && Some(users[id].email) == dto.email
                        && r.value == AuthResponse(generateToken(users[id].email, id, users[id].role), "Bearer",
                                                   id, users[id].email, users[id].name, Name(users[id].role))
  {
    if dto.email.None? then Err(Unauthorized)
    else match FindByEmail(users, dto.email.value)
    case None => Err(Unauthorized)
    case Some(id) =>
      var user := users[id];
      if !matches(dto.password, user.password) then Err(Unauthorized)
      else Ok(AuthResponse(generateToken(user.email, id, user.role), "Bearer", id, user.email, user.name, Name(user.role)))
  }

  /** `getUserById`: the self-or-admin guard runs before the lookup, so a
      customer asking for another id is told Forbidden whether or not it
      exists. */
  function GetUserById(users: map<int, User>, userId: int, userRole: Role, targetUserId: int): (r: Result<UserView>)
    ensures CheckUserOrAdmin(userRole, userId, targetUserId).Fail? ==> r == Err(Forbidden)
    ensures r.Ok? <==> (userId == targetUserId || userRole == ADMIN) && targetUserId in users
    ensures r.Ok? ==> r.value == MapToUserView(targetUserId, users[targetUserId])
    ensures r.Err? && (userId == targetUserId || userRole == ADMIN) ==> r.error == NotFound("User")
  {
    var guard := CheckUserOrAdmin(userRole, userId, targetUserId);
    if guard.Fail? then Err(guard.error)
    else if targetUserId !in users then Err(NotFound("User"))
    else Ok(MapToUserView(targetUserId, users[targetUserId]))
  }

  /** `getUserEntityById`. */
  function GetUserEntityById(users: map<int, User>, id: int): (r: Result<User>)
    ensures r.Ok? <==> id in users
    ensures r.Ok? ==> r.value == users[id]
    ensures r.Err? ==> r.error == NotFound("User")
  {
    if id in users then Ok(users[id]) else Err(NotFound("User"))
  }

  /** `getUserByEmail`: the id and the user, or NotFound. */
  function GetUserByEmail(users: map<int, User>, email: string): (r: Result<(int, User)>)
    requires EmailsUnique(users)
    ensures r.Ok? <==> ExistsByEmail(users, email)
    ensures r.Ok? ==> r.value.0 in users && users[r.value.0] == r.value.1 && r.value.1.email == email
    ensures r.Err? ==> r.error == NotFound("User")
  {
    match FindByEmail(users, email)
    case None => Err(NotFound("User"))
    case Some(id) => Ok((id, users[id]))
  }
}
