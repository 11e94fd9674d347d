/**
 * identity-service/src/controllers/identity-controller.js: registration,
 * login, refresh-token rotation and logout over the User and RefreshToken
 * collections. The Joi validators and `generateToken` live in files that
 * are not part of this model: a validator's verdict is a parameter, and so
 * is the token pair `generateToken` signs; its one effect on the
 * collections, storing the refresh token, is modelled.
 */
module Identity {
  import opened Wrappers
  import opened Json
  import opened Http
  import opened RefreshTokens

  /** A User document; `password` is whatever the model's save hook stores (hashing is not modelled). */
  datatype User = User(id: string, username: string, email: string, password: string)

  datatype TokenPair = TokenPair(accessToken: string, refreshToken: string)

  /** No two users share an id, an email or a username. */
  predicate UsersUnique(users: seq<User>) {
    forall i, j :: 0 <= i < j < |users| ==>
      users[i].id != users[j].id && users[i].email != users[j].email && users[i].username != users[j].username
  }

  /** `User.findOne({$or: [{email}, {username}]})`. */
  function FindClash(users: seq<User>, email: string, username: string): (r: Option<nat>)
    ensures r.Some? ==> r.value < |users| && (users[r.value].email == email || users[r.value].username == username)
    ensures r.None? <==> forall i :: 0 <= i < |users| ==> users[i].email != email && users[i].username != username
  {
    if users == [] then None
    else if users[0].email == email || users[0].username == username then Some(0)
    else
      var rest := FindClash(users[1..], email, username);
      if rest.Some? then Some(rest.value + 1) else None
  }

  /** `User.findOne({email})`: the lookup of login, by email only. */
  function FindByEmail(users: seq<User>, email: string): (r: Option<nat>)
    ensures r.Some? ==> r.value < |users| && users[r.value].email == email
    ensures r.None? <==> forall i :: 0 <= i < |users| ==> users[i].email != email
  {
    if users == [] then None
    else if users[0].email == email then Some(0)
    else
      var rest := FindByEmail(users[1..], email);
      if rest.Some? then Some(rest.value + 1) else None
  }

  /** `User.findById(id)`. */
  function FindById(users: seq<User>, id: string): (r: Option<nat>)
    ensures r.Some? ==> r.value < |users| && users[r.value].id == id
    ensures r.None? <==> forall i :: 0 <= i < |users| ==> users[i].id != id
  {
    if users == [] then None
    else if users[0].id == id then Some(0)
    else
      var rest := FindById(users[1..], id);
      if rest.Some? then Some(rest.value + 1) else None
  }

  /** `!refreshToken`: an absent or empty token is missing. */
  predicate Missing(token: Option<string>) {
    token.None? || token.value == ""
  }

  /**
   * A successful refresh replaces the presented token by the new one: the
   * presented token is found no more, the new one is.
   */
  lemma RotationReplaces(ts: seq<RefreshToken>, i: nat, issued: string, user: string, expiresAt: Option<int>, now: int)
    requires TableValid(ts) && NoExpiry(ts) && i < |ts|
    requires Create(ts, issued, user, expiresAt, now).Success?
    ensures var ts' := RemoveAt(Create(ts, issued, user, expiresAt, now).value, i);
            && TableValid(ts') && NoExpiry(ts')
            && Find(ts', ts[i].token).None? && Find(ts', issued).Some?
  {
    var created := Create(ts, issued, user, expiresAt, now).value;
    CreateKeepsTable(ts, issued, user, expiresAt, now);
    assert created[i] == ts[i];
    RemoveAtKeepsTable(created, i);
    var ts' := RemoveAt(created, i);
    assert ts'[|ts'| - 1] == created[|created| - 1];
    assert ts'[|ts'| - 1].token == issued;
  }

  class IdentityService {
    var users: seq<User>
    var tokens: seq<RefreshToken>

    ghost predicate Valid()
      reads this
    {
      UsersUnique(users) && TableValid(tokens) && NoExpiry(tokens)
    }

    constructor ()
      ensures Valid() && users == [] && tokens == []
    {
      users, tokens := [], [];
    }

    /** The store effect of `generateToken(user)`: `RefreshToken.create` of the new refresh token. */
    method GenerateToken(user: User, pair: TokenPair, expiresAt: Option<int>, now: int) returns (r: Outcome<StoreError>)
      requires Valid()
      modifies this`tokens
      ensures Valid()
      ensures var created := Create(old(tokens), pair.refreshToken, user.id, expiresAt, now);
              if created.Success? then r == Pass && tokens == created.value
              else r == Fail(created.error) && tokens == old(tokens)
    {
      var created := Create(tokens, pair.refreshToken, user.id, expiresAt, now);
      if created.Failure? {
        return Fail(created.error);
      }
      CreateKeepsTable(tokens, pair.refreshToken, user.id, expiresAt, now);
      tokens := created.value;
      r := Pass;
    }

    /**
     * `registerUser`: a failed validation or a clash on email or username is
     * a 400 that creates nothing; otherwise exactly one user is added and the
     * 201 carries the token pair. A failure after the save is a 500 that
     * leaves the user saved.
     */
    method Register(verdict: Outcome<string>, username: string, email: string, password: string,
                    newId: string, pair: TokenPair, expiresAt: Option<int>, now: int)
      returns (res: Response)
      requires Valid()
      modifies this
      ensures Valid()
      ensures verdict.Fail? ==>
                res == Reply(400, false, verdict.error) && users == old(users) && tokens == old(tokens)
      ensures verdict.Pass? && FindClash(old(users), email, username).Some? ==>
                res == Reply(400, false, "User already exists") && users == old(users) && tokens == old(tokens)
      ensures verdict.Pass? && FindClash(old(users), email, username).None? && FindById(old(users), newId).None? ==>
                && users == old(users) + [User(newId, username, email, password)]
                && var created := Create(old(tokens), pair.refreshToken, newId, expiresAt, now);
                   if created.Success? then
                     tokens == created.value
                     && res == Response(201, Obj(map["success" := Bool(true), "message" := Str("User registered successfully"),
                                                     "accessToken" := Str(pair.accessToken), "refreshToken" := Str(pair.refreshToken)]))
                   else
                     tokens == old(tokens) && res == Reply(500, false, "Problem in registrating the user")
      ensures verdict.Pass? && FindClash(old(users), email, username).None? && FindById(old(users), newId).Some? ==>
                res == Reply(500, false, "Problem in registrating the user") && users == old(users) && tokens == old(tokens)
    {
      if verdict.Fail? {
        return Reply(400, false, verdict.error);
      }
      if FindClash(users, email, username).Some? {
        return Reply(400, false, "User already exists");
      }
      if FindById(users, newId).Some? {
        // save() is refused by the unique _id index
        return Reply(500, false, "Problem in registrating the user");
      }
      var user := User(newId, username, email, password);
      users := users + [user];
      var stored := GenerateToken(user, pair, expiresAt, now);
      if stored.Fail? {
        return Reply(500, false, "Problem in registrating the user");
      }
      res := Response(201, Obj(map["success" := Bool(true), "message" := Str("User registered successfully"),
                                   "accessToken" := Str(pair.accessToken), "refreshToken" := Str(pair.refreshToken)]));
    }

    /**
     * `loginUser`: users are looked up by email only; an unknown email and a
     * wrong password are both a 400 that issues no token.
     */
    method Login(verdict: Outcome<string>, email: string, password: string, passwordMatches: (string, string) -> bool,
                 pair: TokenPair, expiresAt: Option<int>, now: int)
      returns (res: Response)
      requires Valid()
      modifies this`tokens
      ensures Valid()
      ensures verdict.Fail? ==> res == Reply(400, false, verdict.error) && tokens == old(tokens)
      ensures verdict.Pass? && FindByEmail(users, email).None? ==>
                res == Reply(400, false, "Invalid credentials") && tokens == old(tokens)
      ensures verdict.Pass? && FindByEmail(users, email).Some? ==>
                var user := users[FindByEmail(users, email).value];
                if !passwordMatches(user.password, password) then
                  res == Reply(400, false, "Invalid Credentials") && tokens == old(tokens)
                else
                  var created := Create(old(tokens), pair.refreshToken, user.id, expiresAt, now);
                  if created.Success? then
                    tokens == created.value
                    && res == Response(200, Obj(map["accessToken" := Str(pair.accessToken),
                                                    "refreshToken" := Str(pair.refreshToken), "userId" := Str(user.id)]))
                  else
                    tokens == old(tokens) && res == Reply(500, false, "Internal server error")
    {
      if verdict.Fail? {
        return Reply(400, false, verdict.error);
      }
      var found := FindByEmail(users, email);
      if found.None? {
        return Reply(400, false, "Invalid credentials");
      }
      var user := users[found.value];
      if !passwordMatches(user.password, password) {
        return Reply(400, false, "Invalid Credentials");
      }
      var stored := GenerateToken(user, pair, expiresAt, now);
      if stored.Fail? {
        return Reply(500, false, "Internal server error");
      }
      res := Response(200, Obj(map["accessToken" := Str(pair.accessToken),
                                   "refreshToken" := Str(pair.refreshToken), "userId" := Str(user.id)]));
    }

    /**
     * `refreshTokenUser`: 400 for a missing token; 401 for an unknown or
     * expired one, and for one whose user is gone (that token is kept);
     * otherwise a new pair is issued and then the presented record deleted.
     */
    method Refresh(presented: Option<string>, pair: TokenPair, expiresAt: Option<int>, now: int)
      returns (res: Response)
      requires Valid()
      modifies this`tokens
      ensures Valid()
      ensures Missing(presented) ==> res == Reply(400, false, "Refresh token missing") && tokens == old(tokens)
      ensures !Missing(presented) && Find(old(tokens), presented.value).None? ==>
                res == Reply(401, false, "Invalid or expired refresh Token") && tokens == old(tokens)
      ensures !Missing(presented) && Find(old(tokens), presented.value).Some? ==>
                var i := Find(old(tokens), presented.value).value;
                if Expired(old(tokens)[i], now) then
                  res == Reply(401, false, "Invalid or expired refresh Token") && tokens == old(tokens)
                else if FindById(users, old(tokens)[i].user).None? then
                  res == Reply(401, false, "User not found") && tokens == old(tokens)
                else
                  var user := users[FindById(users, old(tokens)[i].user).value];
                  var created := Create(old(tokens), pair.refreshToken, user.id, expiresAt, now);
                  if created.Success? then
                    tokens == RemoveAt(created.value, i)
                    && res == Response(200, Obj(map["accessToken" := Str(pair.accessToken), "refreshToken" := Str(pair.refreshToken)]))
                  else
                    tokens == old(tokens) && res == Reply(500, false, "Internal server error")
    {
      if Missing(presented) {
        return Reply(400, false, "Refresh token missing");
      }
      var i := Find(tokens, presented.value);
      if i.None? || Expired(tokens[i.value], now) {
        return Reply(401, false, "Invalid or expired refresh Token");
      }
      var owner := FindById(users, tokens[i.value].user);
      if owner.None? {
        return Reply(401, false, "User not found");
      }
      var stored := GenerateToken(users[owner.value], pair, expiresAt, now);
      if stored.Fail? {
        return Reply(500, false, "Internal server error");
      }
      // deleteOne({_id: storedToken._id}): the new record went to the end, so position i is unchanged
      RemoveAtKeepsTable(tokens, i.value);
      tokens := RemoveAt(tokens, i.value);
      res := Response(200, Obj(map["accessToken" := Str(pair.accessToken), "refreshToken" := Str(pair.refreshToken)]));
    }

    /** `logoutUser`: 400 for a missing token; otherwise delete it if stored, and succeed either way. */
    method Logout(presented: Option<string>) returns (res: Response)
      requires Valid()
      modifies this`tokens
      ensures Valid()
      ensures Missing(presented) ==> res == Reply(400, false, "Refresh token missing") && tokens == old(tokens)
      ensures !Missing(presented) ==>
                res == Reply(200, true, "logout successful") && tokens == Delete(old(tokens), presented.value)
                && Find(tokens, presented.value).None?
    {
      if Missing(presented) {
        return Reply(400, false, "Refresh token missing");
      }
      DeleteForgets(tokens, presented.value);
      if Find(tokens, presented.value).Some? {
        RemoveAtKeepsTable(tokens, Find(tokens, presented.value).value);
      }
      tokens := Delete(tokens, presented.value);
      res := Reply(200, true, "logout successful");
    }
  }
}
