/**
 * The user controller: registration, login, the admin listing and CRUD
 * handlers, password reset and admin promotion, over an in-memory stand-in
 * for the `users` collection.
 *
 * Each Express handler is a method of `Controller` returning the JSON
 * envelope `{ success, message, ... }` as a `Response`. The values the
 * handlers draw from outside (bcrypt salts, `crypto.randomBytes`,
 * `Date.now()`, the outcome of sending mail) are parameters.
 */
module UserController {
  import opened Wrappers
  import opened JsText
  import opened HexEncoding
  import opened Credentials
  import opened UserModel

  /** The body fields read by register, admin create and update. */
  datatype UserInput = UserInput(
    firstName: Field, lastName: Field, name: Field,
    email: Field, password: Field, phone: Field)

  // ---------------------------------------------------------------------
  // Display name
  // ---------------------------------------------------------------------

  /**
   * `name || ((firstName || lastName) ? `${firstName || ''} ${lastName || ''}`.trim() : '')`
   */
  function DisplayName(firstName: Field, lastName: Field, name: Field): (r: string)
    ensures Truthy(name) ==> Some(r) == name
    ensures !Truthy(name) ==> Unpadded(r) && |r| <= |OrEmpty(firstName)| + 1 + |OrEmpty(lastName)|
  {
    if Truthy(name) then name.value
    else if Truthy(firstName) || Truthy(lastName) then Trim(OrEmpty(firstName) + " " + OrEmpty(lastName))
    else ""
  }

  /**
   * The display name is empty exactly when `name` is not given and the name
   * parts given are white space only.
   */
  lemma DisplayNameEmptyIff(firstName: Field, lastName: Field, name: Field)
    ensures DisplayName(firstName, lastName, name) == ""
        <==> !Truthy(name) && AllWhiteSpace(OrEmpty(firstName)) && AllWhiteSpace(OrEmpty(lastName))
  {
    var f, l := OrEmpty(firstName), OrEmpty(lastName);
    AllWhiteSpaceConcat(f, " ");
    AllWhiteSpaceConcat(f + " ", l);
  }

  /**
   * Without `name`, two parts with no surrounding white space are joined by
   * one space.
   */
  lemma DisplayNameJoinsParts(first: string, last: string, name: Field)
    requires !Truthy(name)
    requires first != "" && last != "" && Unpadded(first) && Unpadded(last)
    ensures DisplayName(Some(first), Some(last), name) == first + " " + last
  {
    var joined := first + " " + last;
    assert joined[0] == first[0];
    assert joined[|joined| - 1] == last[|last| - 1];
    assert Unpadded(joined);
    assert "" + joined + "" == joined;
    TrimStripsPadding("", joined, "");
  }

  /**
   * Registration's required-field rule, checked after the duplicate check:
   * a name with some non-white-space character, an email and a password.
   */
  predicate RegistrationComplete(req: UserInput)
    ensures RegistrationComplete(req) <==>
      && (Truthy(req.name) || !AllWhiteSpace(OrEmpty(req.firstName)) || !AllWhiteSpace(OrEmpty(req.lastName)))
      && Truthy(req.email) && Truthy(req.password)
  {
    DisplayNameEmptyIff(req.firstName, req.lastName, req.name);
    DisplayName(req.firstName, req.lastName, req.name) != "" && Truthy(req.email) && Truthy(req.password)
  }

  /** The document registration and admin create save. */
  function NewAccount(req: UserInput, hashed: PasswordHash): (a: Account)
    ensures ResetFieldsPaired(a)
    ensures a.resetPasswordToken.None? && a.resetPasswordExpires.None?
    ensures !a.isAdmin && a.passwordHash == hashed
    ensures a.email == req.email && a.phone == req.phone
    ensures a.firstName == req.firstName && a.lastName == req.lastName
    ensures a.name == DisplayName(req.firstName, req.lastName, req.name)
  {
    Account(req.firstName, req.lastName, DisplayName(req.firstName, req.lastName, req.name),
            req.email, req.phone, hashed, false, None, None)
  }

  // ---------------------------------------------------------------------
  // Shared-key gate of promote and the debug listing
  // ---------------------------------------------------------------------

  /** The fallback of `process.env.ADMIN_PROMOTE_KEY`. */
  const DefaultPromoteKey := "dev_promote_key"

  /** Process-wide configuration read by the handlers. */
  datatype Config = Config(adminPromoteKey: Field)

  /** `process.env.ADMIN_PROMOTE_KEY || 'dev_promote_key'` */
  function ExpectedKey(config: Config): (k: string)
    ensures k != ""
    ensures Truthy(config.adminPromoteKey) ==> k == config.adminPromoteKey.value
    ensures !Truthy(config.adminPromoteKey) ==> k == DefaultPromoteKey
  {
    if Truthy(config.adminPromoteKey) then config.adminPromoteKey.value else DefaultPromoteKey
  }

  /** `req.headers['x-admin-key'] || fallback`; the fallback is a body or query field. */
  function PresentedKey(header: Field, fallback: Field): (k: Field)
    ensures k == header || k == fallback
    ensures Truthy(header) ==> k == header
    ensures !Truthy(header) ==> k == fallback
  {
    if Truthy(header) then header else fallback
  }

  /** `adminKey === expected`; an accepted key is never empty. */
  predicate Authorized(config: Config, header: Field, fallback: Field)
    ensures Authorized(config, header, fallback) ==> Truthy(PresentedKey(header, fallback))
  {
    PresentedKey(header, fallback) == Some(ExpectedKey(config))
  }

  /** A request that presents no key is never authorized. */
  lemma MissingKeyUnauthorized(config: Config, header: Field, fallback: Field)
    requires !Truthy(header) && !Truthy(fallback)
    ensures !Authorized(config, header, fallback)
  {
  }

  /** The header, when given, decides alone: the fallback field is then ignored. */
  lemma HeaderKeyDecides(config: Config, header: Field, fallback: Field, other: Field)
    requires Truthy(header)
    ensures Authorized(config, header, fallback) <==> Authorized(config, header, other)
    ensures Authorized(config, header, fallback) <==> header.value == ExpectedKey(config)
  {
  }

  /** Without a header, the body or query key alone is compared with the expected key. */
  lemma FallbackKeyDecides(config: Config, header: Field, fallback: Field)
    requires !Truthy(header)
    ensures Authorized(config, header, fallback) <==> fallback == Some(ExpectedKey(config))
  {
  }

  // ---------------------------------------------------------------------
  // Reset tokens and other per-document changes
  // ---------------------------------------------------------------------

  /** `crypto.randomBytes(20)` */
  const ResetTokenBytes: nat := 20

  /** `1000 * 60 * 60`: a reset token lives one hour, in milliseconds. */
  const ResetWindow: nat := 1000 * 60 * 60

  /** The stored token matches `token` and has strictly not expired at `now`. */
  predicate Live(a: Account, token: string, now: nat) {
    Matches(a, ByLiveResetToken(token, now))
  }

  /** Lines 162-163 of forgotPassword: any earlier token is overwritten. */
  function IssueReset(a: Account, token: string, now: nat): (r: Account)
    ensures ResetFieldsPaired(r)
    ensures r.(resetPasswordToken := a.resetPasswordToken, resetPasswordExpires := a.resetPasswordExpires) == a
  {
    a.(resetPasswordToken := Some(token), resetPasswordExpires := Some(now + ResetWindow))
  }

  /** Lines 228-230 of resetPassword: new hash, token and expiry cleared. */
  function ConsumeReset(a: Account, hashed: PasswordHash): (r: Account)
    ensures ResetFieldsPaired(r)
    ensures r.passwordHash == hashed && r.resetPasswordToken.None? && r.resetPasswordExpires.None?
    ensures r.(passwordHash := a.passwordHash, resetPasswordToken := a.resetPasswordToken,
               resetPasswordExpires := a.resetPasswordExpires) == a
  {
    a.(passwordHash := hashed, resetPasswordToken := None, resetPasswordExpires := None)
  }

  /** Line 255 of promoteUser. */
  function Promote(a: Account): (r: Account)
    ensures r.isAdmin && r.(isAdmin := a.isAdmin) == a
  {
    a.(isAdmin := true)
  }

  /**
   * A token issued at `issuedAt` is accepted at `now` exactly when it is the
   * token presented and `now` is strictly before one hour later; an earlier
   * token of the same account is no longer accepted.
   */
  lemma IssuedTokenWindow(a: Account, token: string, issuedAt: nat, presented: string, now: nat)
    ensures Live(IssueReset(a, token, issuedAt), presented, now)
        <==> presented == token && now < issuedAt + ResetWindow
  {
  }

  /** After a reset no token of the account is accepted, at any time. */
  lemma ConsumedTokenDead(a: Account, hashed: PasswordHash, token: string, now: nat)
    ensures !Live(ConsumeReset(a, hashed), token, now)
  {
  }

  /** A token accepted at some time was accepted at every earlier time. */
  lemma LiveEarlier(a: Account, token: string, earlier: nat, now: nat)
    requires earlier <= now && Live(a, token, now)
    ensures Live(a, token, earlier)
  {
  }

  lemma PromoteIdempotent(a: Account)
    ensures Promote(Promote(a)) == Promote(a)
    ensures a.isAdmin ==> Promote(a) == a
  {
  }

  /** `updateData` of updateUser: None means the key is absent. */
  datatype UpdateData = UpdateData(
    firstName: Field, lastName: Field, name: Field, email: Field, phone: Field,
    password: Option<PasswordHash>)

  /**
   * Lines 119-128: a key is set only when the request field is truthy, and a
   * password only as its hash.
   */
  method BuildUpdateData(req: UserInput, salt: Salt) returns (u: UpdateData)
    ensures Truthy(req.firstName) ==> u.firstName == req.firstName
    ensures !Truthy(req.firstName) ==> u.firstName.None?
    ensures Truthy(req.lastName) ==> u.lastName == req.lastName
    ensures !Truthy(req.lastName) ==> u.lastName.None?
    ensures Truthy(req.name) ==> u.name == req.name
    ensures !Truthy(req.name) ==> u.name.None?
    ensures Truthy(req.email) ==> u.email == req.email
    ensures !Truthy(req.email) ==> u.email.None?
    ensures Truthy(req.phone) ==> u.phone == req.phone
    ensures !Truthy(req.phone) ==> u.phone.None?
    ensures Truthy(req.password) ==> u.password == Some(Hash(req.password.value, salt))
    ensures !Truthy(req.password) ==> u.password.None?
  {
    u := UpdateData(None, None, None, None, None, None);
    if Truthy(req.firstName) { u := u.(firstName := req.firstName); }
    if Truthy(req.lastName) { u := u.(lastName := req.lastName); }
    if Truthy(req.name) { u := u.(name := req.name); }
    if Truthy(req.email) { u := u.(email := req.email); }
    if Truthy(req.phone) { u := u.(phone := req.phone); }
    if Truthy(req.password) {
      var hashed := Hash(req.password.value, salt);
      u := u.(password := Some(hashed));
    }
  }

  /** `findByIdAndUpdate(id, updateData)`: a `$set` of the keys present. */
  function ApplyUpdate(a: Account, u: UpdateData): (r: Account)
    ensures ResetFieldsPaired(a) ==> ResetFieldsPaired(r)
  {
    a.(firstName := if u.firstName.Some? then u.firstName else a.firstName,
       lastName := if u.lastName.Some? then u.lastName else a.lastName,
       name := if u.name.Some? then u.name.value else a.name,
       email := if u.email.Some? then u.email else a.email,
       phone := if u.phone.Some? then u.phone else a.phone,
       passwordHash := if u.password.Some? then u.password.value else a.passwordHash)
  }

  /**
   * What updateUser promises of the document it changes: each field the
   * request supplies with a truthy value is replaced (the password by its
   * hash), every other field, the admin flag and the reset fields included,
   * is kept.
   */
  ghost predicate UpdatedAsRequested(before: Account, after: Account, req: UserInput, salt: Salt) {
    && after.firstName == (if Truthy(req.firstName) then req.firstName else before.firstName)
    && after.lastName == (if Truthy(req.lastName) then req.lastName else before.lastName)
    && after.name == (if Truthy(req.name) then req.name.value else before.name)
    && after.email == (if Truthy(req.email) then req.email else before.email)
    && after.phone == (if Truthy(req.phone) then req.phone else before.phone)
    && after.passwordHash == (if Truthy(req.password) then Hash(req.password.value, salt) else before.passwordHash)
    && after.isAdmin == before.isAdmin
    && after.resetPasswordToken == before.resetPasswordToken
    && after.resetPasswordExpires == before.resetPasswordExpires
  }

  // ---------------------------------------------------------------------
  // Projections returned to callers
  // ---------------------------------------------------------------------

  /** The `user` object of the login response. */
  datatype UserSummary = UserSummary(
    id: AccountId, firstName: Field, lastName: Field, name: string,
    email: Field, phone: Field, isAdmin: bool)

  function Summary(id: AccountId, a: Account): (s: UserSummary)
    ensures s.id == id && s.isAdmin == a.isAdmin && s.email == a.email
  {
    UserSummary(id, a.firstName, a.lastName, a.name, a.email, a.phone, a.isAdmin)
  }

  /** One entry of getAllUsers: `{ firstName, lastName, name, email, phone, _id }`. */
  datatype ListedUser = ListedUser(
    id: AccountId, firstName: Field, lastName: Field, name: string, email: Field, phone: Field)

  function Listed(id: AccountId, a: Account): (u: ListedUser)
    ensures u.id == id && u.email == a.email
  {
    ListedUser(id, a.firstName, a.lastName, a.name, a.email, a.phone)
  }

  /** One entry of listUsersDebug: the document with `password: 0`. */
  datatype DebugUser = DebugUser(
    id: AccountId, firstName: Field, lastName: Field, name: string, email: Field, phone: Field,
    isAdmin: bool, resetPasswordToken: Option<string>, resetPasswordExpires: Option<nat>)

  function DebugView(id: AccountId, a: Account): (d: DebugUser)
    ensures d.id == id && d.email == a.email
  {
    DebugUser(id, a.firstName, a.lastName, a.name, a.email, a.phone,
              a.isAdmin, a.resetPasswordToken, a.resetPasswordExpires)
  }

  /** The document a debug entry and a password hash describe. */
  function WithPassword(d: DebugUser, hashed: PasswordHash): Account {
    Account(d.firstName, d.lastName, d.name, d.email, d.phone, hashed,
            d.isAdmin, d.resetPasswordToken, d.resetPasswordExpires)
  }

  /** The debug listing leaves out the password and nothing else. */
  lemma DebugViewOmitsOnlyPassword(id: AccountId, a: Account)
    ensures WithPassword(DebugView(id, a), a.passwordHash) == a
    ensures forall h :: DebugView(id, a.(passwordHash := h)) == DebugView(id, a)
  {
  }

  /**
   * The login summary does not depend on the password hash or the reset
   * fields: they are not revealed through it.
   */
  lemma SummaryHidesSecrets(id: AccountId, a: Account, h: PasswordHash, t: Option<string>, e: Option<nat>)
    ensures Summary(id, a.(passwordHash := h, resetPasswordToken := t, resetPasswordExpires := e)) == Summary(id, a)
  {
  }

  /**
   * The admin listing does not depend on the password hash, the admin flag
   * or the reset fields.
   */
  lemma ListedHidesSecrets(id: AccountId, a: Account, h: PasswordHash, admin: bool, t: Option<string>, e: Option<nat>)
    ensures Listed(id, a.(passwordHash := h, isAdmin := admin, resetPasswordToken := t, resetPasswordExpires := e))
         == Listed(id, a)
  {
  }

  // ---------------------------------------------------------------------
  // Responses
  // ---------------------------------------------------------------------

  datatype Data =
    | NoData
    | LoggedIn(token: SessionToken, user: UserSummary)
    | Users(users: seq<ListedUser>)
    | DebugUsers(debugUsers: seq<DebugUser>)
      // `data: updated`: the whole updated document
    | UpdatedUser(id: AccountId, account: Account)

  /** The JSON envelope `{ success, message?, token?, user?, data? }`. */
  datatype Response = Response(success: bool, message: Option<string>, data: Data)

  function Fail(message: string): Response {
    Response(false, Some(message), NoData)
  }

  function Done(message: string): Response {
    Response(true, Some(message), NoData)
  }

  // ---------------------------------------------------------------------
  // The controller over the users collection
  // ---------------------------------------------------------------------

  class Controller {
    const config: Config
    /** The documents of the collection, by `_id`. */
    var accounts: map<AccountId, Account>
    /** The collection's natural order: the ids in insertion order. */
    var order: seq<AccountId>
    /** The next `_id` the store hands out. */
    var nextId: AccountId

    ghost predicate Valid()
      reads this
    {
      && Distinct(order)
      && (forall id :: id in accounts <==> id in order)
      && (forall id :: id in accounts ==> id < nextId && ResetFieldsPaired(accounts[id]))
    }

    /** No two documents share an email. */
    ghost predicate EmailsUnique()
      reads this
    {
      forall i, j :: i in accounts && j in accounts && accounts[i].email == accounts[j].email ==> i == j
    }

    /** The accounts on which `token` is accepted at `now`. */
    ghost function Holders(token: string, now: nat): set<AccountId>
      reads this
    {
      set id | id in accounts && Live(accounts[id], token, now)
    }

    /** The state is the old one with `a` appended under a fresh id. */
    ghost predicate AddedTo(accounts0: map<AccountId, Account>, order0: seq<AccountId>, nextId0: AccountId, a: Account)
      reads this
    {
      && nextId0 !in accounts0
      && accounts == accounts0[nextId0 := a]
      && order == order0 + [nextId0]
      && nextId == nextId0 + 1
    }

    /** The state is the old one with document `id` replaced by `a`. */
    ghost predicate ReplacedIn(accounts0: map<AccountId, Account>, order0: seq<AccountId>, nextId0: AccountId,
                               id: AccountId, a: Account)
      reads this
    {
      && id in accounts0
      && accounts == accounts0[id := a]
      && order == order0
      && nextId == nextId0
    }

    constructor (config: Config)
      ensures Valid()
      ensures this.config == config && accounts == map[] && order == [] && nextId == 0
    {
      this.config := config;
      accounts := map[];
      order := [];
      nextId := 0;
    }

    /** `userModel.findOne(filter)`: the id of the first matching document. */
    function FindOne(f: Filter): (r: Option<AccountId>)
      reads this
      requires Valid()
      ensures r.Some? ==> r.value in accounts && Matches(accounts[r.value], f)
      ensures r.None? <==> forall id :: id in accounts ==> !Matches(accounts[id], f)
    {
      match FindFirst(order, accounts, f)
      case None => None
      case Some(k) => Some(order[k])
    }

    /** `new userModel(a).save()` */
    method Insert(a: Account)
      requires Valid() && ResetFieldsPaired(a)
      modifies this
      ensures Valid()
      ensures AddedTo(old(accounts), old(order), old(nextId), a)
    {
      var id := nextId;
      assert id !in order;
      accounts := accounts[id := a];
      order := order + [id];
      nextId := nextId + 1;
    }

    /** POST /register */
    method RegisterUser(req: UserInput, salt: Salt) returns (r: Response)
      requires Valid()
      modifies this
      ensures Valid()
      ensures old(FindOne(ByEmail(req.email))).Some? ==>
        r == Fail("User already exists") && unchanged(this)
      ensures old(FindOne(ByEmail(req.email))).None? && !RegistrationComplete(req) ==>
        r == Fail("All fields are required") && unchanged(this)
      ensures old(FindOne(ByEmail(req.email))).None? && RegistrationComplete(req) ==>
        && r == Done("User registered successfully")
        && AddedTo(old(accounts), old(order), old(nextId), NewAccount(req, Hash(req.password.value, salt)))
        && Compare(req.password.value, accounts[old(nextId)].passwordHash)
      ensures old(EmailsUnique()) ==> EmailsUnique()
    {
      var finalName := DisplayName(req.firstName, req.lastName, req.name);
      var existing := FindOne(ByEmail(req.email));
      if existing.Some? {
        return Fail("User already exists");
      }
      if finalName == "" || !Truthy(req.email) || !Truthy(req.password) {
        return Fail("All fields are required");
      }
      var hashed := Hash(req.password.value, salt);
      Insert(NewAccount(req, hashed));
      r := Done("User registered successfully");
    }

    /** POST /login; the store is not modified. */
    method LoginUser(email: Field, password: Field, now: nat) returns (r: Response)
      requires Valid()
      ensures FindOne(ByEmail(email)).None? ==> r == Fail("User not found")
      ensures FindOne(ByEmail(email)).Some? && password.None? ==> r == Fail("Error logging in")
      ensures FindOne(ByEmail(email)).Some? && password.Some? ==>
        var id := FindOne(ByEmail(email)).value;
        var a := accounts[id];
        if Compare(password.value, a.passwordHash) then
          r == Response(true, Some("Login successful"), LoggedIn(Sign(id, a.isAdmin, now), Summary(id, a)))
        else
          r == Fail("Incorrect password")
      ensures EmailsUnique() ==>
        (r.success <==>
           (password.Some? &&
            exists id :: id in accounts && accounts[id].email == email && Compare(password.value, accounts[id].passwordHash)))
    {
      var user := FindOne(ByEmail(email));
      if user.None? {
        return Fail("User not found");
      }
      if password.None? {
        // bcrypt.compare(undefined, hash) throws
        return Fail("Error logging in");
      }
      var id := user.value;
      var a := accounts[id];
      if !Compare(password.value, a.passwordHash) {
        return Fail("Incorrect password");
      }
      var token := Sign(id, a.isAdmin, now);
      r := Response(true, Some("Login successful"), LoggedIn(token, Summary(id, a)));
    }

    /** GET /list: every document, once each, as its public projection. */
    method GetAllUsers() returns (r: Response)
      requires Valid()
      ensures r.success && r.message.None? && r.data.Users?
      ensures forall k :: 0 <= k < |r.data.users| ==>
        r.data.users[k].id in accounts && r.data.users[k] == Listed(r.data.users[k].id, accounts[r.data.users[k].id])
      ensures forall id :: id in accounts ==> exists k :: 0 <= k < |r.data.users| && r.data.users[k].id == id
      ensures forall i, j :: 0 <= i < j < |r.data.users| ==> r.data.users[i].id != r.data.users[j].id
    {
      var ids, docs := order, accounts;
      var users := seq(|ids|, k requires 0 <= k < |ids| && ids[k] in docs => Listed(ids[k], docs[ids[k]]));
      r := Response(true, None, Users(users));
      forall id | id in accounts
        ensures exists k :: 0 <= k < |users| && users[k].id == id
      {
        var k :| 0 <= k < |ids| && ids[k] == id;
        assert users[k].id == id;
      }
    }

    /** POST / (admin create): the duplicate check only, no required-field check. */
    method CreateUserByAdmin(req: UserInput, salt: Salt) returns (r: Response)
      requires Valid()
      modifies this
      ensures Valid()
      ensures old(FindOne(ByEmail(req.email))).Some? ==>
        r == Fail("User already exists") && unchanged(this)
      ensures old(FindOne(ByEmail(req.email))).None? && req.password.None? ==>
        r == Fail("Error adding user") && unchanged(this)
      ensures old(FindOne(ByEmail(req.email))).None? && req.password.Some? ==>
        && r == Done("User added")
        && AddedTo(old(accounts), old(order), old(nextId), NewAccount(req, Hash(req.password.value, salt)))
        && Compare(req.password.value, accounts[old(nextId)].passwordHash)
      ensures old(EmailsUnique()) ==> EmailsUnique()
    {
      var existing := FindOne(ByEmail(req.email));
      if existing.Some? {
        return Fail("User already exists");
      }
      if req.password.None? {
        // bcrypt.hash(undefined, salt) throws
        return Fail("Error adding user");
      }
      var hashed := Hash(req.password.value, salt);
      Insert(NewAccount(req, hashed));
      r := Done("User added");
    }

    /** DELETE /:id */
    method DeleteUser(id: AccountId) returns (r: Response)
      requires Valid()
      modifies this
      ensures Valid()
      ensures id !in old(accounts) ==> r == Fail("User not found") && unchanged(this)
      ensures id in old(accounts) ==>
        && r == Done("User deleted successfully")
        && accounts == old(accounts) - {id}
        && order == RemoveId(old(order), id)
        && nextId == old(nextId)
    {
      if id !in accounts {
        return Fail("User not found");
      }
      accounts := accounts - {id};
      order := RemoveId(order, id);
      r := Done("User deleted successfully");
    }

    /** PUT /:id: a partial update; the response carries the updated document. */
    method UpdateUser(id: AccountId, req: UserInput, salt: Salt) returns (r: Response)
      requires Valid()
      modifies this
      ensures Valid()
      ensures id !in old(accounts) ==> r == Fail("User not found") && unchanged(this)
      ensures id in old(accounts) ==>
        && id in accounts
        && ReplacedIn(old(accounts), old(order), old(nextId), id, accounts[id])
        && UpdatedAsRequested(old(accounts)[id], accounts[id], req, salt)
        && r == Response(true, Some("User updated successfully"), UpdatedUser(id, accounts[id]))
    {
      var updateData := BuildUpdateData(req, salt);
      if id !in accounts {
        return Fail("User not found");
      }
      var updated := ApplyUpdate(accounts[id], updateData);
      accounts := accounts[id := updated];
      r := Response(true, Some("User updated successfully"), UpdatedUser(id, updated));
    }

    /**
     * POST /forgot-password. The token is saved before the mail is sent, so
     * it stays issued when sending fails.
     */
    method ForgotPassword(email: Field, random: seq<byte>, now: nat, mailSent: bool) returns (r: Response)
      requires Valid()
      requires |random| == ResetTokenBytes
      modifies this
      ensures Valid()
      ensures !Truthy(email) ==> r == Fail("Email required") && unchanged(this)
      ensures Truthy(email) && old(FindOne(ByEmail(email))).None? ==>
        r == Fail("User not found") && unchanged(this)
      ensures Truthy(email) && old(FindOne(ByEmail(email))).Some? ==>
        var id := old(FindOne(ByEmail(email))).value;
        && ReplacedIn(old(accounts), old(order), old(nextId), id, IssueReset(old(accounts)[id], HexEncode(random), now))
        && id in Holders(HexEncode(random), now)
        && r == (if mailSent then Done("Reset token created and emailed if the account exists")
                 else Fail("Error creating reset token"))
    {
      if !Truthy(email) {
        return Fail("Email required");
      }
      var user := FindOne(ByEmail(email));
      if user.None? {
        return Fail("User not found");
      }
      var id := user.value;
      var token := HexEncode(random);
      accounts := accounts[id := IssueReset(accounts[id], token, now)];
      if !mailSent {
        // transporter.sendMail rejected
        return Fail("Error creating reset token");
      }
      r := Done("Reset token created and emailed if the account exists");
    }

    /**
     * POST /reset-password/:token. Wrong, expired and already used tokens
     * get the same answer; a success takes the account out of the token's
     * holders, so replaying it fails once no other account holds it.
     */
    method ResetPassword(token: string, password: Field, now: nat, salt: Salt) returns (r: Response)
      requires Valid()
      modifies this
      ensures Valid()
      ensures r.success <==> token != "" && Truthy(password) && old(Holders(token, now)) != {}
      ensures (token == "" || !Truthy(password)) ==>
        r == Fail("Token and password required") && unchanged(this)
      ensures token != "" && Truthy(password) && old(FindOne(ByLiveResetToken(token, now))).None? ==>
        r == Fail("Token invalid or expired") && unchanged(this)
      ensures token != "" && Truthy(password) && old(FindOne(ByLiveResetToken(token, now))).Some? ==>
        var id := old(FindOne(ByLiveResetToken(token, now))).value;
        && r == Done("Password reset successful")
        && ReplacedIn(old(accounts), old(order), old(nextId), id,
                      ConsumeReset(old(accounts)[id], Hash(password.value, salt)))
        && Holders(token, now) == old(Holders(token, now)) - {id}
    {
      if token == "" || !Truthy(password) {
        return Fail("Token and password required");
      }
      var user := FindOne(ByLiveResetToken(token, now));
      if user.None? {
        assert forall id :: id in accounts ==> !Live(accounts[id], token, now);
        return Fail("Token invalid or expired");
      }
      var id := user.value;
      assert id in Holders(token, now);
      var hashed := Hash(password.value, salt);
      accounts := accounts[id := ConsumeReset(accounts[id], hashed)];
      r := Done("Password reset successful");
    }

    /** POST /promote: the key check comes before any lookup. */
    method PromoteUser(headerKey: Field, bodyKey: Field, email: Field) returns (r: Response)
      requires Valid()
      modifies this
      ensures Valid()
      ensures !Authorized(config, headerKey, bodyKey) ==> r == Fail("Unauthorized") && unchanged(this)
      ensures Authorized(config, headerKey, bodyKey) && !Truthy(email) ==>
        r == Fail("Email required") && unchanged(this)
      ensures Authorized(config, headerKey, bodyKey) && Truthy(email) && old(FindOne(ByEmail(email))).None? ==>
        r == Fail("User not found") && unchanged(this)
      ensures Authorized(config, headerKey, bodyKey) && Truthy(email) && old(FindOne(ByEmail(email))).Some? ==>
        var id := old(FindOne(ByEmail(email))).value;
        && r == Done("User promoted to admin")
        && ReplacedIn(old(accounts), old(order), old(nextId), id, Promote(old(accounts)[id]))
        && (old(accounts)[id].isAdmin ==> accounts == old(accounts))
    {
      var adminKey := PresentedKey(headerKey, bodyKey);
      if adminKey != Some(ExpectedKey(config)) {
        return Fail("Unauthorized");
      }
      if !Truthy(email) {
        return Fail("Email required");
      }
      var user := FindOne(ByEmail(email));
      if user.None? {
        return Fail("User not found");
      }
      var id := user.value;
      accounts := accounts[id := Promote(accounts[id])];
      r := Done("User promoted to admin");
    }

    /** GET /debug/list: gated by the same key; every document without its password. */
    method ListUsersDebug(headerKey: Field, queryKey: Field) returns (r: Response)
      requires Valid()
      ensures !Authorized(config, headerKey, queryKey) ==> r == Fail("Unauthorized")
      ensures Authorized(config, headerKey, queryKey) ==>
        && r.success && r.message.None? && r.data.DebugUsers?
        && (forall k :: 0 <= k < |r.data.debugUsers| ==>
              r.data.debugUsers[k].id in accounts
              && r.data.debugUsers[k] == DebugView(r.data.debugUsers[k].id, accounts[r.data.debugUsers[k].id]))
        && (forall id :: id in accounts ==>
              exists k :: 0 <= k < |r.data.debugUsers| && r.data.debugUsers[k].id == id)
        && (forall i, j :: 0 <= i < j < |r.data.debugUsers| ==> r.data.debugUsers[i].id != r.data.debugUsers[j].id)
    {
      var adminKey := PresentedKey(headerKey, queryKey);
      if adminKey != Some(ExpectedKey(config)) {
        return Fail("Unauthorized");
      }
      var ids, docs := order, accounts;
      var users := seq(|ids|, k requires 0 <= k < |ids| && ids[k] in docs => DebugView(ids[k], docs[ids[k]]));
      r := Response(true, None, DebugUsers(users));
      forall id | id in accounts
        ensures exists k :: 0 <= k < |users| && users[k].id == id
      {
        var k :| 0 <= k < |ids| && ids[k] == id;
        assert users[k].id == id;
      }
    }
  }
}
