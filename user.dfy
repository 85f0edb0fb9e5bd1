/** The user routes: sign-up by mobile number (returning the existing user when
    the number is known), reading a user and updating a user's name and e-mail. */
module UserRoutes {
  import opened Wrappers
  import opened Strings
  import opened Table
  import opened Records
  import opened Store

  /** The body checks: `validatorsOk` stands for the library predicates (an Indian
      mobile number, an e-mail address); a supplied name needs two characters. */
  predicate SignupValid(name: Option<string>, validatorsOk: bool) {
    validatorsOk && (name.Some? ==> |name.value| >= 2)
  }

  /** The inserted row: a missing name or e-mail is stored as ''. */
  function NewUser(id: Id, mobile: string, name: Option<string>, email: Option<string>, now: nat): User {
    User(id, mobile, OrElse(name, ""), OrElse(email, ""), now, now)
  }

  datatype SignupReply = SignupReply(status: int, message: string, user: Option<User>, isExisting: bool)

  /** POST /api/user/signup. */
  method Signup(db: Db, mobile: string, name: Option<string>, email: Option<string>, validatorsOk: bool,
                newId: Id, now: nat, insertOk: bool)
    returns (r: SignupReply)
    requires db.Valid()
    modifies db`users
    ensures db.Valid()
    ensures !SignupValid(name, validatorsOk) ==> r.status == 400 && unchanged(db)
    // a known mobile number: the stored user, nothing written
    ensures SignupValid(name, validatorsOk) && Single(old(db.users), UserMobile, mobile).Some? ==>
      && r.status == 200 && r.isExisting && unchanged(db)
      && r.user == Some(old(db.users)[Single(old(db.users), UserMobile, mobile).value])
    // a new one: a row is inserted unless the write fails
    ensures SignupValid(name, validatorsOk) && Single(old(db.users), UserMobile, mobile).None? ==>
      if insertOk && !HasKey(old(db.users), UserKey, newId) then
        && r.status == 201 && !r.isExisting
        && db.users == old(db.users) + [NewUser(newId, mobile, name, email, now)]
        && r.user == Some(NewUser(newId, mobile, name, email, now))
      else
        r.status == 500 && unchanged(db)
  {
    if !SignupValid(name, validatorsOk) {
      return SignupReply(400, "Validation failed", None, false);
    }
    var existing := Single(db.users, UserMobile, mobile);
    if existing.Some? {
      return SignupReply(200, "User already exists", Some(db.users[existing.value]), true);
    }
    var user := NewUser(newId, mobile, name, email, now);
    if !insertOk || HasKey(db.users, UserKey, newId) {
      return SignupReply(500, "Failed to create user", None, false);
    }
    SingleOfDistinct(db.users, UserMobile, mobile);
    AppendKeepsDistinct(db.users, UserKey, user);
    AppendKeepsDistinct(db.users, UserMobile, user);
    db.users := db.users + [user];
    r := SignupReply(201, "User created successfully", Some(user), false);
  }

  /** Once a mobile number is stored, signing up with it again finds that user:
      sign-up is idempotent per mobile number. */
  lemma SignupAgainFindsUser(users: seq<User>, u: User)
    requires DistinctKeys(users + [u], UserMobile)
    ensures Single(users + [u], UserMobile, u.mobile) == Some(|users|)
  {
    var t := users + [u];
    assert UserMobile(t[|users|]) == u.mobile;
    SingleOfDistinct(t, UserMobile, u.mobile);
  }

  datatype UserReply = UserReply(status: int, message: string, user: Option<User>)

  /** GET /api/user/:id. */
  function GetUser(users: seq<User>, id: Id, idIsUuid: bool): (r: UserReply)
    ensures !idIsUuid ==> r.status == 400
    ensures idIsUuid ==> (r.status == 200 <==> Single(users, UserKey, id).Some?)
    ensures r.status == 200 ==> r.user.Some? && r.user.value in users && r.user.value.id == id
    ensures idIsUuid && r.status != 200 ==> r.status == 404 && r.message == "User not found" && r.user.None?
  {
    if !idIsUuid then UserReply(400, "Validation failed", None)
    else
      match Single(users, UserKey, id)
      case None => UserReply(404, "User not found", None)
      case Some(k) => UserReply(200, "", Some(users[k]))
  }

  /** The update: a supplied name or e-mail replaces the stored one (even when
      empty), and updated_at is set. */
  function PatchUser(u: User, name: Option<string>, email: Option<string>, now: nat): (p: User)
    ensures p.id == u.id && p.mobile == u.mobile && p.createdAt == u.createdAt && p.updatedAt == now
    ensures p.name == (if name.Some? then name.value else u.name)
    ensures p.email == (if email.Some? then email.value else u.email)
  {
    u.(name := if name.Some? then name.value else u.name,
       email := if email.Some? then email.value else u.email,
       updatedAt := now)
  }

  /** `.update(patch).eq('id', id)`. */
  function PatchUsers(users: seq<User>, id: Id, name: Option<string>, email: Option<string>, now: nat): (r: seq<User>)
    ensures |r| == |users|
    ensures forall k :: 0 <= k < |users| ==> r[k] == if users[k].id == id then PatchUser(users[k], name, email, now) else users[k]
  {
    seq(|users|, k requires 0 <= k < |users| => if users[k].id == id then PatchUser(users[k], name, email, now) else users[k])
  }

  /** The update keeps ids and mobile numbers in place, so both stay unique. */
  lemma PatchKeepsKeys(users: seq<User>, id: Id, name: Option<string>, email: Option<string>, now: nat)
    requires DistinctKeys(users, UserKey) && DistinctKeys(users, UserMobile)
    ensures DistinctKeys(PatchUsers(users, id, name, email, now), UserKey)
    ensures DistinctKeys(PatchUsers(users, id, name, email, now), UserMobile)
  {
  }

  /** PUT /api/user/:id. */
  method UpdateUser(db: Db, id: Id, idIsUuid: bool, name: Option<string>, email: Option<string>, validatorsOk: bool,
                    now: nat, writeOk: bool)
    returns (r: UserReply)
    requires db.Valid()
    modifies db`users
    ensures db.Valid()
    ensures !(idIsUuid && SignupValid(name, validatorsOk)) ==> r.status == 400 && unchanged(db)
    ensures idIsUuid && SignupValid(name, validatorsOk) && Single(old(db.users), UserKey, id).None? ==>
      r.status == 404 && r.message == "User not found" && unchanged(db)
    ensures idIsUuid && SignupValid(name, validatorsOk) && Single(old(db.users), UserKey, id).Some? ==>
      if writeOk then
        && r.status == 200
        && db.users == PatchUsers(old(db.users), id, name, email, now)
        && r.user == Some(PatchUser(old(db.users)[Single(old(db.users), UserKey, id).value], name, email, now))
      else
        r.status == 500 && unchanged(db)
  {
    if !idIsUuid || !SignupValid(name, validatorsOk) {
      return UserReply(400, "Validation failed", None);
    }
    var found := Single(db.users, UserKey, id);
    if found.None? {
      return UserReply(404, "User not found", None);
    }
    if !writeOk {
      return UserReply(500, "Failed to update user", None);
    }
    var before := db.users;
    PatchKeepsKeys(db.users, id, name, email, now);
    db.users := PatchUsers(db.users, id, name, email, now);
    r := UserReply(200, "User updated successfully", Some(PatchUser(before[found.value], name, email, now)));
  }
}
