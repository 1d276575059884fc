/** The stored user (src/users/entities/user.entity.ts). */
module UserEntity {
  import opened Common

  /** The `enum` of the `role` property. */
  datatype Role = Buyer | Seller | Admin

  /** The string the database stores for a role. */
  function RoleName(role: Role): (s: string)
    ensures s in {"buyer", "seller", "admin"}
    ensures s == "seller" <==> role == Seller
    ensures s == "buyer" <==> role == Buyer
  {
    match role
    case Buyer => "buyer"
    case Seller => "seller"
    case Admin => "admin"
  }

  /** `email`, `phone`, `password_hash` and `role` are required; `business_verification`
      is the one optional property. */
  datatype User = User(
    email: string,
    phone: string,
    password_hash: string,
    role: Role,
    business_verification: Option<string>)

  /** The two `unique` indexes: no two stored users share an email or a phone. */
  predicate UniqueContacts(users: map<Id, User>) {
    forall a, b :: a in users && b in users && a != b ==>
      users[a].email != users[b].email && users[a].phone != users[b].phone
  }

  /** Some stored user already has this email or this phone. */
  predicate ContactTaken(users: map<Id, User>, email: string, phone: string) {
    exists id :: id in users && (users[id].email == email || users[id].phone == phone)
  }

  /** Adding a user whose email and phone are both unused keeps the tables' uniqueness. */
  lemma InsertKeepsContactsUnique(users: map<Id, User>, id: Id, user: User)
    requires UniqueContacts(users)
    requires id !in users
    requires !ContactTaken(users, user.email, user.phone)
    ensures UniqueContacts(users[id := user])
  {
    var after := users[id := user];
    forall a, b | a in after && b in after && a != b
      ensures after[a].email != after[b].email && after[a].phone != after[b].phone
    {
      if a == id {
        assert b in users;
      } else if b == id {
        assert a in users;
      }
    }
  }

  /** Under uniqueness an email names at most one user. */
  lemma EmailIdentifiesUser(users: map<Id, User>, a: Id, b: Id)
    requires UniqueContacts(users)
    requires a in users && b in users
    requires users[a].email == users[b].email
    ensures a == b
  {
  }
}
