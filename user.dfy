/** The signed-in account (Models/User.swift) and its tolerant JSON decoding. */
module UserModel {
  import opened Wrappers
  import opened Json

  datatype User = User(
    id: int,
    username: string,
    email: Option<string>,
    isAdmin: Option<bool>,
    lastLogin: Option<string>)

  /** How `is_admin` is read: a Boolean as it is, an integer as "non-zero", anything else as absent. */
  function AdminFlag(o: Object): (r: Option<bool>)
    ensures "is_admin" in o && o["is_admin"].JBool? ==> r == Some(o["is_admin"].b)
    ensures "is_admin" in o && o["is_admin"].JInt? ==> r == Some(o["is_admin"].i != 0)
    ensures r.None? <==> "is_admin" !in o || !(o["is_admin"].JBool? || o["is_admin"].JInt?)
  {
    match TryBool(o, "is_admin")
    case Some(b) => Some(b)
    case None =>
      match TryInt(o, "is_admin")
      case Some(n) => Some(n != 0)
      case None => None
  }

  /** `User.init(from:)`: `id` and `username` are required; `email` and `last_login` must be strings when present. */
  function DecodeUser(j: Json): (r: Result<User>)
    ensures j.JObject? && !(("id" in j.fields) && j.fields["id"].JInt?) ==> r.Err?
    ensures j.JObject? && !(("username" in j.fields) && j.fields["username"].JString?) ==> r.Err?
    ensures r.Ok? ==>
              && j.JObject? && r.value.isAdmin == AdminFlag(j.fields)
              && j.fields["id"] == JInt(r.value.id) && j.fields["username"] == JString(r.value.username)
  {
    if !j.JObject? then Err(NotAnObject)
    else
      var o := j.fields;
      var id :- DecodeInt(o, "id");
      var username :- DecodeString(o, "username");
      var email :- DecodeStringIfPresent(o, "email");
      var lastLogin :- DecodeStringIfPresent(o, "last_login");
      Ok(User(id, username, email, AdminFlag(o), lastLogin))
  }

  const UserKeys: set<string> := {"id", "username", "email", "is_admin", "last_login"}

  /** What `User.encode(to:)` writes under `key`; `is_admin` always as a Boolean. */
  function UserField(u: User, key: string): Option<Json> {
    if key == "id" then Some(JInt(u.id))
    else if key == "username" then Some(JString(u.username))
    else if key == "email" then StringValue(u.email)
    else if key == "is_admin" then BoolValue(u.isAdmin)
    else if key == "last_login" then StringValue(u.lastLogin)
    else None
  }

  /** `User.encode(to:)`. */
  function EncodeUser(u: User): (j: Json)
    ensures j.JObject? && ("is_admin" in j.fields <==> u.isAdmin.Some?)
    ensures "is_admin" in j.fields ==> j.fields["is_admin"].JBool?
  {
    JObject(map k | k in UserKeys && UserField(u, k).Some? :: UserField(u, k).value)
  }

  /** Decoding what the encoder writes gives back every field. */
  lemma UserRoundTrip(u: User)
    ensures DecodeUser(EncodeUser(u)) == Ok(u)
  {
  }

  /** The server's integer flags: 0 is not an administrator, any other integer is. */
  lemma IntegerAdminFlags(n: int)
    ensures DecodeUser(JObject(map["id" := JInt(1), "username" := JString("a"), "is_admin" := JInt(n)])).value.isAdmin
            == Some(n != 0)
  {
  }
}
