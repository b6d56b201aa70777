/**
 * The account helpers of src/utils/auth.js: a users list and a session
 * slot in localStorage. Passwords are compared as stored; only the list
 * and session logic is modelled.
 */
module Auth {
  import opened Js
  import opened Seqs
  import opened Storage

  /** The fields copied from a user into the session. */
  const SessionFields: seq<string> := ["email", "role", "state", "district"]

  const ExistsMsg: string := "User already exists"
  const InvalidMsg: string := "Invalid credentials"

  /** The session object `{ email, role, state, district }` of a user as
      `JSON.stringify` writes it: a field the user lacks is left out. */
  function SessionOf(u: Json): (s: Json)
    requires u != Null
    ensures s.Obj?
    ensures forall k | k in SessionFields :: Chain(Some(s), k) == Prop(u, k).value
    ensures forall k | k in s.fields :: k in SessionFields
  {
    Obj(map k | k in SessionFields && Prop(u, k).value.Some? :: Prop(u, k).value.value)
  }

  /** `readJSON(StorageKeys.Users, []) || []`. */
  function Users(items: map<string, Stored>): Json {
    ReadOr(items, UsersKey, Arr([]))
  }

  /** `getSession()`: the stored session, or null. */
  function GetSession(items: map<string, Stored>): Json {
    ReadJSON(items, SessionKey, Null)
  }

  /** A user's email, undefined for a user without one. */
  function EmailOf(u: Json): Option<Json> {
    Chain(Some(u), "email")
  }

  /** The `some` callback of `signup`: `u.email === user.email`. */
  function SameEmail(user: Json, u: Json): Result<bool> {
    var a :- Prop(u, "email");
    var b :- Prop(user, "email");
    Ok(StrictEq(a, b))
  }

  function SameEmailOf(user: Json): Json -> Result<bool> {
    u => SameEmail(user, u)
  }

  /** Whether the email is already taken: `users.some(...)` (only an array
      has `some`). */
  function Taken(users: Json, user: Json): Result<Option<nat>> {
    if users.Arr? then FindR(SameEmailOf(user), users.items) else Err(TypeError)
  }

  /** `signup(user)`. A taken email throws before anything is written.
      Otherwise the users list with the new user appended is written first;
      building the session then reads the user's fields, which throws for a
      null user after the list was already saved. */
  method Signup(ls: LocalStorage, user: Json) returns (r: Result<Json>)
    modifies ls
    ensures var users := Users(old(ls.items));
      var taken := Taken(users, user);
      && (taken.Err? ==> r == Err(taken.error) && ls.items == old(ls.items))
      && (taken.Ok? && taken.value.Some? ==> r == Err(Thrown(ExistsMsg)) && ls.items == old(ls.items))
      && (taken == Ok(None) ==>
            var written := old(ls.items)[UsersKey := Encoded(Arr(users.items + [user]))];
            && (user == Null ==> r == Err(TypeError) && ls.items == written)
            && (user != Null ==>
                  && r == Ok(user)
                  && ls.items == written[SessionKey := Encoded(SessionOf(user))]
                  && GetSession(ls.items) == SessionOf(user)))
  {
    var users := Users(ls.items);
    if !users.Arr? {
      return Err(TypeError);
    }
    var taken := FindR(SameEmailOf(user), users.items);
    if taken.Err? {
      return Err(taken.error);
    }
    if taken.value.Some? {
      return Err(Thrown(ExistsMsg));
    }
    ls.WriteJSON(UsersKey, Arr(users.items + [user]));
    if user == Null {
      return Err(TypeError);
    }
    ls.WriteJSON(SessionKey, SessionOf(user));
    r := Ok(user);
  }

  /** No two users share an email. */
  predicate EmailsUnique(xs: seq<Json>) {
    forall i, j | 0 <= i < j < |xs| :: !StrictEq(EmailOf(xs[i]), EmailOf(xs[j]))
  }

  /** A successful signup appends a user whose email nobody has, so a list
      of unique emails stays unique. */
  lemma SignupKeepsEmailsUnique(users: seq<Json>, user: Json)
    requires EmailsUnique(users)
    requires Taken(Arr(users), user) == Ok(None) && user != Null
    ensures EmailsUnique(users + [user])
  {
    FindRSpec(SameEmailOf(user), users);
    var xs := users + [user];
    forall i, j | 0 <= i < j < |xs|
      ensures !StrictEq(EmailOf(xs[i]), EmailOf(xs[j]))
    {
      if j == |users| {
        assert SameEmailOf(user)(users[i]) == Ok(false);
        assert xs[i] == users[i];
      }
    }
  }

  /** The `find` callback of `login`: `u.email === email && u.password ===
      password`. */
  function Credentials(email: Option<Json>, password: Option<Json>, u: Json): Result<bool> {
    var e :- Prop(u, "email");
    if !StrictEq(e, email) then Ok(false)
    else
      var p :- Prop(u, "password");
      Ok(StrictEq(p, password))
  }

  function CredentialsOf(email: Option<Json>, password: Option<Json>): Json -> Result<bool> {
    u => Credentials(email, password, u)
  }

  /** `users.find(...)` as an index (only an array has `find`). */
  function Match(users: Json, email: Option<Json>, password: Option<Json>): Result<Option<nat>> {
    if users.Arr? then FindR(CredentialsOf(email, password), users.items) else Err(TypeError)
  }

  /** `login(email, password)`: the first user with both fields equal
      becomes the session; no match (or a falsy match) throws and leaves the
      session alone. */
  method Login(ls: LocalStorage, email: Option<Json>, password: Option<Json>) returns (r: Result<Json>)
    modifies ls
    ensures var users := Users(old(ls.items));
      var found := Match(users, email, password);
      && (r.Err? ==> ls.items == old(ls.items))
      && (found.Err? ==> r == Err(found.error))
      && (found == Ok(None) ==> r == Err(Thrown(InvalidMsg)))
      && (found.Ok? && found.value.Some? ==>
            var k := found.value.value;
            var u := users.items[k];
            && Credentials(email, password, u) == Ok(true)
            && (forall j | 0 <= j < k :: Credentials(email, password, users.items[j]) == Ok(false))
            && (!Truthy(Some(u)) ==> r == Err(Thrown(InvalidMsg)))
            && (Truthy(Some(u)) ==>
                  && r == Ok(u)
                  && ls.items == old(ls.items)[SessionKey := Encoded(SessionOf(u))]
                  && EmailOf(GetSession(ls.items)) == email))
  {
    var users := Users(ls.items);
    if !users.Arr? {
      return Err(TypeError);
    }
    var found := FindR(CredentialsOf(email, password), users.items);
    FindRSpec(CredentialsOf(email, password), users.items);
    if found.Err? {
      return Err(found.error);
    }
    if found.value.None? {
      return Err(Thrown(InvalidMsg));
    }
    var u := users.items[found.value.value];
    if !Truthy(Some(u)) {
      return Err(Thrown(InvalidMsg));
    }
    ls.WriteJSON(SessionKey, SessionOf(u));
    r := Ok(u);
  }

  /** `logout()`: the session slot holds null, which `getSession` returns. */
  method Logout(ls: LocalStorage)
    modifies ls
    ensures ls.items == old(ls.items)[SessionKey := Encoded(Null)]
    ensures GetSession(ls.items) == Null
  {
    ls.WriteJSON(SessionKey, Null);
  }
}
