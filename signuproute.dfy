/**
 * The signup endpoint (app/api/auth/signup/route.ts) over an abstract user
 * table: users keyed by id, with the e-mail uniqueness the database
 * enforces.  The password hash, the generated id and the clock are
 * parameters.  `malformedBody` says that `request.json()` threw (the body
 * is not JSON), and `failure` stands for an exception from the database or
 * the hash; the handler turns either into a 500.
 */
module SignupRoute {

  import opened Wrappers
  import opened Types
  import opened AuthConfig

  datatype Body =
    | ErrorBody(error: string)
    | CreatedBody(id: string, email: string, name: Option<string>)

  datatype Response = Response(status: int, body: Body)

  const MissingFields := "Email y contraseña son requeridos"
  const AlreadyRegistered := "El email ya está registrado"
  const CreateFailed := "Error al crear usuario"

  /** Whether some user has this e-mail (`findUnique({ where: { email } })`). */
  predicate Registered(users: map<string, DbUser>, email: string) {
    exists id :: id in users && users[id].email == Some(email)
  }

  /** No two users share an e-mail, and each user sits under its own id. */
  predicate UniqueEmails(users: map<string, DbUser>) {
    && (forall id :: id in users ==> users[id].id == id)
    && (forall a, b :: a in users && b in users && users[a].email.Some? && users[a].email == users[b].email ==> a == b)
  }

  /** The row the handler creates: status Activo, the hash stored, no admin or doctor relation. */
  function NewUser(id: string, name: Option<string>, email: string, hashed: string): (u: DbUser)
    ensures u.id == id && u.email == Some(email) && u.name == name
    ensures u.password == Some(hashed) && u.status == UserActivo
    ensures RoleOf(u) == PatientUser
  {
    DbUser(id, Some(email), name, Some(hashed), UserActivo, None, None)
  }

  class UserTable {
    var users: map<string, DbUser>

    predicate Valid()
      reads this
    {
      UniqueEmails(users)
    }

    constructor ()
      ensures Valid() && users == map[]
    {
      users := map[];
    }

    /**
     * `POST`: the request's `name`, `email` and `password` (each possibly
     * missing), read only when the body parses (`!malformedBody`);
     * `freshId` is `crypto.randomUUID()`.  A clash with an existing id is one
     * of the exceptions that give 500.
     */
    method Post(malformedBody: bool, name: Option<string>, email: Option<string>, password: Option<string>,
                freshId: string, hash: string -> string, failure: bool) returns (r: Response)
      requires Valid()
      modifies this
      ensures Valid()
      ensures malformedBody ==> r == Response(500, ErrorBody(CreateFailed)) && users == old(users)
      ensures !malformedBody && (!Present(email) || !Present(password)) ==>
        r == Response(400, ErrorBody(MissingFields)) && users == old(users)
      ensures !malformedBody && Present(email) && Present(password) && !failure && Registered(old(users), email.value) ==>
        r == Response(400, ErrorBody(AlreadyRegistered)) && users == old(users)
      ensures r.status == 500 <==>
        || malformedBody
        || (Present(email) && Present(password) && !(!failure && Registered(old(users), email.value))
            && (failure || freshId in old(users)))
      ensures r.status == 500 ==> r.body == ErrorBody(CreateFailed) && users == old(users)
      ensures r.status == 200 <==>
        && !malformedBody
        && Present(email) && Present(password) && !failure && !Registered(old(users), email.value) && freshId !in old(users)
      ensures r.status == 200 ==>
        && users == old(users)[freshId := NewUser(freshId, name, email.value, hash(password.value))]
        && r.body == CreatedBody(freshId, email.value, name)
    {
      if malformedBody {
        return Response(500, ErrorBody(CreateFailed));
      }
      if !Present(email) || !Present(password) {
        return Response(400, ErrorBody(MissingFields));
      }
      if failure {
        return Response(500, ErrorBody(CreateFailed));
      }
      if Registered(users, email.value) {
        return Response(400, ErrorBody(AlreadyRegistered));
      }
      if freshId in users {
        return Response(500, ErrorBody(CreateFailed));
      }
      var u := NewUser(freshId, name, email.value, hash(password.value));
      users := users[freshId := u];
      r := Response(200, CreatedBody(u.id, email.value, u.name));
    }
  }

  /** An insert keeps e-mails unique when the e-mail is new and the id unused. */
  lemma InsertKeepsUnique(users: map<string, DbUser>, u: DbUser)
    requires UniqueEmails(users)
    requires u.email.Some? && !Registered(users, u.email.value) && u.id !in users
    ensures UniqueEmails(users[u.id := u])
  {
  }

  /** Once a user is created, the same e-mail is seen as registered by every later request. */
  lemma CreatedIsRegistered(users: map<string, DbUser>, id: string, name: Option<string>, email: string, hashed: string)
    ensures Registered(users[id := NewUser(id, name, email, hashed)], email)
  {
    assert users[id := NewUser(id, name, email, hashed)][id].email == Some(email);
  }

  /** The stored password is the hash, so it differs from the plaintext whenever the hash does. */
  lemma StoresHashNotPlaintext(id: string, name: Option<string>, email: string, password: string, hash: string -> string)
    requires hash(password) != password
    ensures NewUser(id, name, email, hash(password)).password != Some(password)
  {
  }
}
