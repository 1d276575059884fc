/** The users service (src/users/users.service.ts): registration with email/phone
    uniqueness and password hashing, the two lookups, and the field-merging update. */
module Users {
  import opened Common
  import opened UserEntity

  const UserExists: string := "User with this email or phone already exists"
  const UserNotFound: string := "User not found"

  datatype CreateUserDto = CreateUserDto(
    email: string,
    phone: string,
    password: string,
    role: Role,
    business_verification: Option<string>)

  /** Every property of the creation body may be supplied on update. */
  datatype UpdateUserDto = UpdateUserDto(
    email: Option<string>,
    phone: Option<string>,
    password: Option<string>,
    role: Option<Role>,
    business_verification: Option<string>)

  /** `Object.assign` of the body onto the stored user, as `save` then stores it. `password`
      is not a property of the user schema, so it is dropped and `password_hash` is kept. */
  function Merge(u: User, dto: UpdateUserDto): (r: User)
    ensures r.password_hash == u.password_hash
    ensures dto.email.Some? ==> r.email == dto.email.value
    ensures dto.email.None? ==> r.email == u.email
    ensures dto.phone.Some? ==> r.phone == dto.phone.value
    ensures dto.phone.None? ==> r.phone == u.phone
    ensures dto.role.Some? ==> r.role == dto.role.value
    ensures dto.role.None? ==> r.role == u.role
    ensures dto.business_verification.Some? ==> r.business_verification == dto.business_verification
    ensures dto.business_verification.None? ==> r.business_verification == u.business_verification
  {
    User(
      dto.email.GetOr(u.email),
      dto.phone.GetOr(u.phone),
      u.password_hash,
      dto.role.GetOr(u.role),
      if dto.business_verification.Some? then dto.business_verification else u.business_verification)
  }

  class UsersService {
    var users: map<Id, User>
    /** bcrypt's `hash(password, 10)`, kept abstract. */
    const hash: string -> string

    constructor (hash: string -> string)
      ensures users == map[] && this.hash == hash
    {
      users := map[];
      this.hash := hash;
    }

    /** `create`: Conflict when any stored user has the email or the phone; otherwise one
        new user holding the hash of the password. */
    method Create(dto: CreateUserDto) returns (r: Result<Doc<User>>)
      modifies this
      ensures ContactTaken(old(users), dto.email, dto.phone) ==>
        r == Err(Conflict(UserExists)) && users == old(users)
      ensures !ContactTaken(old(users), dto.email, dto.phone) ==>
        && r.Ok?
        && r.value.body == User(dto.email, dto.phone, hash(dto.password), dto.role, dto.business_verification)
        && r.value.id !in old(users)
        && users == old(users)[r.value.id := r.value.body]
      ensures UniqueContacts(old(users)) ==> UniqueContacts(users)
    {
      if exists id :: id in users && (users[id].email == dto.email || users[id].phone == dto.phone) {
        return Err(Conflict(UserExists));
      }
      var hashed := hash(dto.password);
      var user := User(dto.email, dto.phone, hashed, dto.role, dto.business_verification);
      var id := FreshId(users.Keys);
      if UniqueContacts(users) {
        InsertKeepsContactsUnique(users, id, user);
      }
      users := users[id := user];
      r := Ok(Doc(id, user));
    }

    /** `findOne`: the user with that id, or NotFound. */
    function FindOne(id: Id): (r: Result<User>)
      reads this
      ensures r.Ok? <==> id in users
      ensures r.Ok? ==> r.value == users[id]
      ensures r.Err? ==> r.error == NotFound(UserNotFound)
    {
      if id in users then Ok(users[id]) else Err(NotFound(UserNotFound))
    }

    /** `findOneByEmail`: a user with that email, or NotFound when there is none; under the
        unique email index it is the only one. */
    method FindOneByEmail(email: string) returns (r: Result<Doc<User>>)
      ensures r.Ok? ==> r.value.id in users && users[r.value.id] == r.value.body && r.value.body.email == email
      ensures r.Err? <==> forall id :: id in users ==> users[id].email != email
      ensures r.Err? ==> r.error == NotFound(UserNotFound)
      ensures r.Ok? && UniqueContacts(users) ==>
        forall id :: id in users && users[id].email == email ==> id == r.value.id
    {
      if id :| id in users && users[id].email == email {
        r := Ok(Doc(id, users[id]));
        if UniqueContacts(users) {
          forall other | other in users && users[other].email == email
            ensures other == id
          {
            EmailIdentifiesUser(users, other, id);
          }
        }
      } else {
        r := Err(NotFound(UserNotFound));
      }
    }

    /** `update`: NotFound when absent, otherwise the merge; there is no Conflict check of
        its own. */
    method Update(id: Id, dto: UpdateUserDto) returns (r: Result<User>)
      modifies this
      ensures id !in old(users) ==> r == Err(NotFound(UserNotFound)) && users == old(users)
      ensures id in old(users) ==>
        r == Ok(Merge(old(users)[id], dto)) && users == old(users)[id := r.value]
    {
      var found := FindOne(id);
      if found.Err? {
        return Err(found.error);
      }
      var merged := Merge(found.value, dto);
      users := users[id := merged];
      r := Ok(merged);
    }
  }
}
