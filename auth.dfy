/**
 * The account handlers of app/api/auth/route.ts: signup and login (POST,
 * dispatched on the request's `type`) and email verification (GET), over
 * the users table, which is keyed by email.
 */
module Auth {
  import opened Options
  import Hex
  import opened Credentials

  /** A row of the users table. The password column holds a digest, never the password. */
  datatype User = User(
    id: nat,
    name: string,
    email: string,
    password: Digest,
    avatar: string,
    emailVerified: bool,
    verificationToken: Option<string>)

  /** What a successful login hands back: no digest, no token, no verification flag. */
  datatype Profile = Profile(email: string, name: string, avatar: string)

  datatype Body =
    | Error(error: string)
    | Sent(message: string)
    | LoggedIn(user: Profile)

  datatype Response =
    | Json(status: nat, body: Body)
      /**
       * An exception escaping the handler, which the framework answers with
       * a 500: a failed mail delivery, or the redirect after a successful
       * verification, whose relative target `NextResponse.redirect` refuses.
       */
    | ServerError

  /** The parsed JSON body of a POST. */
  datatype AuthRequest = AuthRequest(kind: string, email: string, password: string, name: string, avatar: string)

  const EmailTaken: string := "ایمیل قبلاً ثبت شده است."
  const VerificationSent: string := "ایمیل تأیید ارسال شد."
  const BadCredentials: string := "ایمیل یا رمز عبور اشتباه است."
  const NotVerified: string := "ایمیل شما تأیید نشده است. لطفاً ایمیل خود را تأیید کنید."
  const InvalidRequest: string := "درخواست نامعتبر"
  const TokenMissing: string := "توکن ارسال نشده است."
  const TokenInvalid: string := "توکن نامعتبر است."

  function ProfileOf(user: User): Profile
  {
    Profile(user.email, user.name, user.avatar)
  }

  /**
   * The login branch of POST. It only reads the table, and checks in a fixed
   * order: a known email, then a verified one, then the password.
   */
  function Login(users: map<string, User>, email: string, password: string): (r: Response)
    ensures r.Json?
    ensures r.status == 200 <==>
      email in users && users[email].emailVerified && Matches(password, users[email].password)
    ensures r.status == 200 ==> r.body == LoggedIn(ProfileOf(users[email]))
    ensures r.status == 403 <==> email in users && !users[email].emailVerified
    ensures r.status == 403 ==> r == Json(403, Error(NotVerified))
    ensures r.status != 200 && r.status != 403 ==> r == Json(401, Error(BadCredentials))
  {
    if email !in users then
      Json(401, Error(BadCredentials))
    else
      var user := users[email];
      if !user.emailVerified then Json(403, Error(NotVerified))
      else if !Matches(password, user.password) then Json(401, Error(BadCredentials))
      else Json(200, LoggedIn(ProfileOf(user)))
  }

  /** The emails whose row currently holds `token`. */
  function Holders(users: map<string, User>, token: string): (h: set<string>)
    ensures h <= users.Keys
    ensures forall e :: e in users ==> (e in h <==> users[e].verificationToken == Some(token))
  {
    set e | e in users && users[e].verificationToken == Some(token)
  }

  /** The update of a successful verification: verified, token cleared, nothing else touched. */
  function Consume(users: map<string, User>, email: string): (after: map<string, User>)
    requires email in users
    ensures after.Keys == users.Keys
    ensures after[email].emailVerified && after[email].verificationToken == None
    ensures after[email] == users[email].(emailVerified := after[email].emailVerified,
                                           verificationToken := after[email].verificationToken)
    ensures forall e :: e in users && e != email ==> after[e] == users[e]
  {
    users[email := users[email].(emailVerified := true, verificationToken := None)]
  }

  /** Consuming a token removes exactly the consumed row from its holders. */
  lemma ConsumeRemovesHolder(users: map<string, User>, email: string, token: string)
    requires email in Holders(users, token)
    ensures Holders(Consume(users, email), token) == Holders(users, token) - {email}
    ensures Consume(users, email).Keys == users.Keys
  {
  }

  /** The row signup leaves behind: unverified, hashed password, the generated token. */
  function Registered(id: nat, req: AuthRequest, salt: seq<Hex.Byte>, token: string): User
  {
    User(id, req.name, req.email, Hash(req.password, Rounds, salt), req.avatar, false, Some(token))
  }

  /**
   * The account lifecycle: a freshly signed-up row refuses its own correct
   * password with 403, and after its token is consumed the same password
   * logs in and returns the row's public profile.
   */
  lemma LoginAcrossVerification(users: map<string, User>, id: nat, req: AuthRequest, salt: seq<Hex.Byte>, token: string)
    requires req.email in users && users[req.email] == Registered(id, req, salt, token)
    ensures Login(users, req.email, req.password) == Json(403, Error(NotVerified))
    ensures Login(Consume(users, req.email), req.email, req.password)
         == Json(200, LoggedIn(Profile(req.email, req.name, req.avatar)))
  {
  }

  class UserStore {
    var users: map<string, User>
    /** The id the table assigns to the next row it creates. */
    var nextId: nat

    ghost predicate Valid()
      reads this
    {
      && (forall e :: e in users ==> users[e].email == e && users[e].id < nextId)
      && (forall e1, e2 :: e1 in users && e2 in users && users[e1].id == users[e2].id ==> e1 == e2)
      // A row holds a token only while it is unverified.
      && (forall e :: e in users && users[e].verificationToken.Some? ==> !users[e].emailVerified)
    }

    constructor ()
      ensures Valid() && users == map[] && nextId == 0
    {
      users := map[];
      nextId := 0;
    }

    /** `createUser`: hash the password and insert an unverified row without a token. */
    method CreateUser(name: string, email: string, password: string, avatar: string, salt: seq<Hex.Byte>)
      returns (user: User)
      requires Valid() && email !in users
      modifies this
      ensures Valid()
      ensures user == User(old(nextId), name, email, Hash(password, Rounds, salt), avatar, false, None)
      ensures users == old(users)[email := user] && nextId == old(nextId) + 1
    {
      user := User(nextId, name, email, Hash(password, Rounds, salt), avatar, false, None);
      users := users[email := user];
      nextId := nextId + 1;
    }

    /** `prisma.user.update({where: {email}, data: {verificationToken}})` */
    method SetVerificationToken(email: string, token: string)
      requires Valid() && email in users && !users[email].emailVerified
      modifies this
      ensures Valid() && nextId == old(nextId)
      ensures users == old(users)[email := old(users)[email].(verificationToken := Some(token))]
    {
      users := users[email := users[email].(verificationToken := Some(token))];
    }

    /**
     * The outcome of signup, relative to the table before it: a known email
     * is refused and nothing changes; otherwise exactly one row is added,
     * holding the digest of the password and the token made from `entropy`,
     * and every other row stays as it was. A failed mail delivery does not
     * undo the insert.
     */
    ghost predicate SignedUp(before: map<string, User>, beforeNext: nat, req: AuthRequest,
                             entropy: seq<Hex.Byte>, salt: seq<Hex.Byte>, mailDelivered: bool, r: Response)
      requires |entropy| == Hex.TokenBytes
      reads this
    {
      if req.email in before then
        r == Json(400, Error(EmailTaken)) && users == before && nextId == beforeNext
      else
        && users.Keys == before.Keys + {req.email}
        && (forall e :: e in before ==> users[e] == before[e])
        && users[req.email] == Registered(beforeNext, req, salt, Hex.NewToken(entropy))
        && nextId == beforeNext + 1
        && r == (if mailDelivered then Json(200, Sent(VerificationSent)) else ServerError)
    }

    /**
     * The signup branch of POST. `entropy` stands for `crypto.randomBytes(32)`,
     * `salt` for bcrypt's salt, `mailDelivered` for whether sending the
     * verification mail succeeded.
     */
    method Signup(req: AuthRequest, entropy: seq<Hex.Byte>, salt: seq<Hex.Byte>, mailDelivered: bool)
      returns (r: Response)
      requires Valid() && |entropy| == Hex.TokenBytes
      modifies this
      ensures Valid()
      ensures SignedUp(old(users), old(nextId), req, entropy, salt, mailDelivered, r)
    {
      if req.email in users {
        return Json(400, Error(EmailTaken));
      }
      var token := Hex.NewToken(entropy);
      var _ := CreateUser(req.name, req.email, req.password, req.avatar, salt);
      SetVerificationToken(req.email, token);
      if !mailDelivered {
        return ServerError;
      }
      r := Json(200, Sent(VerificationSent));
    }

    /** POST: dispatch on `type`; anything but signup and login is a bad request. */
    method Post(req: AuthRequest, entropy: seq<Hex.Byte>, salt: seq<Hex.Byte>, mailDelivered: bool)
      returns (r: Response)
      requires Valid() && |entropy| == Hex.TokenBytes
      modifies this
      ensures Valid()
      ensures req.kind == "signup" ==> SignedUp(old(users), old(nextId), req, entropy, salt, mailDelivered, r)
      ensures req.kind == "login" ==>
        r == Login(old(users), req.email, req.password) && users == old(users) && nextId == old(nextId)
      ensures req.kind != "signup" && req.kind != "login" ==>
        r == Json(400, Error(InvalidRequest)) && users == old(users) && nextId == old(nextId)
    {
      if req.kind == "signup" {
        r := Signup(req, entropy, salt, mailDelivered);
      } else if req.kind == "login" {
        r := Login(users, req.email, req.password);
      } else {
        r := Json(400, Error(InvalidRequest));
      }
    }

    /**
     * GET: consume a verification token. Which row a token shared by several
     * rows resolves to is the table's choice, so it is left open here. The
     * update is committed before the redirect is built, and building it
     * throws, so a successful verification answers with a server error.
     */
    method Verify(token: Option<string>) returns (r: Response)
      requires Valid()
      modifies this
      ensures Valid() && nextId == old(nextId)
      ensures IsBlank(token) ==> r == Json(400, Error(TokenMissing)) && users == old(users)
      ensures !IsBlank(token) && Holders(old(users), token.value) == {} ==>
        r == Json(400, Error(TokenInvalid)) && users == old(users)
      ensures !IsBlank(token) && Holders(old(users), token.value) != {} ==>
        && r == ServerError
        && exists e :: e in Holders(old(users), token.value) && !old(users)[e].emailVerified
             && users == Consume(old(users), e)
    {
      if IsBlank(token) {
        return Json(400, Error(TokenMissing));
      }
      if Holders(users, token.value) == {} {
        return Json(400, Error(TokenInvalid));
      }
      var email :| email in Holders(users, token.value);
      users := Consume(users, email);
      r := ServerError;
    }
  }

  /**
   * A token is single-use: replaying the link of a row that alone held the
   * token is refused, and that row is left verified with no token.
   */
  method VerifyTwice(store: UserStore, email: string, token: string) returns (first: Response, second: Response)
    requires store.Valid() && token != ""
    requires Holders(store.users, token) == {email}
    modifies store
    ensures store.Valid()
    ensures first == ServerError
    ensures second == Json(400, Error(TokenInvalid))
    ensures store.users == Consume(old(store.users), email)
    ensures store.users[email].emailVerified && store.users[email].verificationToken == None
  {
    ConsumeRemovesHolder(store.users, email, token);
    first := store.Verify(Some(token));
    second := store.Verify(Some(token));
  }
}
