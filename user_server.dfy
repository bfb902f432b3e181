/**
 * The `/signup` and `/login` handlers of server/index.js over the user
 * collection of server/models/User.js, held here as an in-memory table.
 * Requests are handled one after another.
 */
module UserServer {
  import opened Wrappers

  /** A stored user; the optional avatar fields are never set by these handlers. */
  datatype User = User(accountName: string, email: string, password: string,
                       avatarId: Option<int>, avatarColor: Option<string>)

  datatype Response = Response(status: nat, message: string, accountName: Option<string>)

  const EmailTaken := "An account associated with this email already exists"
  const NameTaken := "This user name already exists"
  const Created := "User created successfully!"
  const ServerError := "Server error"
  const NotFound := "User not found"
  const WrongPassword := "Incorrect password"
  const LoggedIn := "Login successful"

  /** `findOne({ email })`: the first user with that email. */
  function FindByEmail(users: seq<User>, email: string): (u: Option<User>)
    ensures u.Some? ==> u.value in users && u.value.email == email
    ensures u.None? <==> forall i :: 0 <= i < |users| ==> users[i].email != email
  {
    if users == [] then None
    else if users[0].email == email then Some(users[0])
    else FindByEmail(users[1..], email)
  }

  /** `findOne({ accountName })`: the first user with that account name. */
  function FindByName(users: seq<User>, accountName: string): (u: Option<User>)
    ensures u.Some? ==> u.value in users && u.value.accountName == accountName
    ensures u.None? <==> forall i :: 0 <= i < |users| ==> users[i].accountName != accountName
  {
    if users == [] then None
    else if users[0].accountName == accountName then Some(users[0])
    else FindByName(users[1..], accountName)
  }

  /** No two users share an email or an account name. */
  predicate Unique(users: seq<User>)
  {
    forall i, j :: 0 <= i < j < |users| ==>
      users[i].email != users[j].email && users[i].accountName != users[j].accountName
  }

  /** The schema's required string fields are present; an empty string fails `required`. */
  predicate Complete(u: User)
  {
    u.accountName != "" && u.email != "" && u.password != ""
  }

  /** With unique emails, the user found by email is the only one with it. */
  lemma FoundUserIsTheOne(users: seq<User>, email: string, k: nat)
    requires Unique(users) && k < |users| && users[k].email == email
    ensures FindByEmail(users, email) == Some(users[k])
  {
    if users[0].email != email {
      FoundUserIsTheOne(users[1..], email, k - 1);
    }
  }

  class Server {
    var users: seq<User>

    ghost predicate Valid()
      reads this
    {
      Unique(users) && forall i :: 0 <= i < |users| ==> Complete(users[i])
    }

    constructor (initial: seq<User>)
      requires Unique(initial) && forall i :: 0 <= i < |initial| ==> Complete(initial[i])
      ensures Valid() && users == initial
    {
      users := initial;
    }

    /**
     * `POST /signup`: the email check comes first, then the account name;
     * saving a user with an empty required field fails with a server error.
     */
    method Signup(accountName: string, email: string, password: string) returns (r: Response)
      requires Valid()
      modifies this
      ensures Valid()
      ensures FindByEmail(old(users), email).Some? ==>
                r == Response(400, EmailTaken, None) && users == old(users)
      ensures FindByEmail(old(users), email).None? && FindByName(old(users), accountName).Some? ==>
                r == Response(400, NameTaken, None) && users == old(users)
      ensures FindByEmail(old(users), email).None? && FindByName(old(users), accountName).None? ==>
                if Complete(User(accountName, email, password, None, None)) then
                  r == Response(201, Created, None) &&
                  users == old(users) + [User(accountName, email, password, None, None)]
                else
                  r == Response(500, ServerError, None) && users == old(users)
    {
      var existingEmail := FindByEmail(users, email);
      var existingAccount := FindByName(users, accountName);
      if existingEmail.Some? {
        return Response(400, EmailTaken, None);
      }
      if existingAccount.Some? {
        return Response(400, NameTaken, None);
      }
      var newUser := User(accountName, email, password, None, None);
      if !Complete(newUser) {
        return Response(500, ServerError, None);
      }
      users := users + [newUser];
      return Response(201, Created, None);
    }

    /** `POST /login`: it reads the table and never changes it. */
    method Login(email: string, password: string) returns (r: Response)
      ensures (forall i :: 0 <= i < |users| ==> users[i].email != email) <==> r == Response(400, NotFound, None)
      ensures r == Response(400, NotFound, None) || r == Response(400, WrongPassword, None) || r.status == 200
      ensures r.status == 200 ==>
                r.message == LoggedIn &&
                exists i :: 0 <= i < |users| && users[i].email == email && users[i].password == password &&
                            r.accountName == Some(users[i].accountName)
      ensures Valid() ==>
                (r.status == 200 <==> exists i :: 0 <= i < |users| && users[i].email == email && users[i].password == password)
    {
      var user := FindByEmail(users, email);
      if user.None? {
        return Response(400, NotFound, None);
      }
      if user.value.password != password {
        if Valid() {
          forall i | 0 <= i < |users| && users[i].email == email
            ensures users[i].password != password
          {
            FoundUserIsTheOne(users, email, i);
          }
        }
        return Response(400, WrongPassword, None);
      }
      return Response(200, LoggedIn, Some(user.value.accountName));
    }
  }

  /** Signing up and then logging in with the same credentials succeeds. */
  method SignupThenLogin(server: Server, accountName: string, email: string, password: string)
    requires server.Valid()
    requires FindByEmail(server.users, email).None? && FindByName(server.users, accountName).None?
    requires accountName != "" && email != "" && password != ""
    modifies server
  {
    var created := server.Signup(accountName, email, password);
    assert created.status == 201;
    assert FindByEmail(server.users, email).Some? by {
      assert server.users[|server.users| - 1].email == email;
    }
    var again := server.Signup(accountName, email, password);
    assert again == Response(400, EmailTaken, None);
    var login := server.Login(email, password);
    FoundUserIsTheOne(server.users, email, |server.users| - 1);
    assert login == Response(200, LoggedIn, Some(accountName));
  }
}
