/** The administration routes and the activation-aware account routes
    registered beside them: who may use the admin routes, the paging of the
    user list, the fields an administrator may change, account activation,
    the one-time creation of the first administrator, and login and
    registration with the activation flags. The `users` collection is a map
    from the lower-case text of each document's ObjectId to the document,
    with the collection's natural order as a sequence. The JWT identity, the
    clock, the ids the database assigns and the `REQUIRES_ADMIN_ACTIVATION`
    setting are parameters. */
module Admin {
  import opened Base
  import opened Text
  import opened Records
  import opened Ledger
  import M = MongoBackend

  /** A JSON value a request can put into a profile field. */
  datatype Json = JNull | JBool(b: bool) | JNumber(n: int) | JText(s: string)

  /** Python's truth value of such a value. */
  predicate IsTruthy(v: Json) {
    match v
    case JNull => false
    case JBool(b) => b
    case JNumber(n) => n != 0
    case JText(s) => s != ""
  }

  /** A user document as these routes see it. The names, the role and the two
      activation flags live in `profile`, where a missing key is a missing
      field: documents written by the main server's own registration carry
      no role and no flags. */
  datatype Account = Account(email: string, passwordHash: Credential, createdAt: int,
                             profile: map<string, Json>, subscription: Subscription, usage: Usage)

  /** `user.get(key, default)` for a profile field. */
  function Field(acc: Account, key: string, default: Json): Json {
    if key in acc.profile then acc.profile[key] else default
  }

  /** The collection's invariant: the order lists exactly the stored
      documents, and no two documents share an e-mail (every route that
      inserts checks for the address first, and no route changes it). */
  ghost predicate Directory(users: map<string, Account>, order: seq<string>) {
    && (forall id | id in users :: id in order)
    && (forall i | 0 <= i < |order| :: order[i] in users)
    && (forall a, b | a in users && b in users && users[a].email == users[b].email :: a == b)
  }

  /** Some document has this e-mail. */
  predicate HasAccount(users: map<string, Account>, email: string) {
    exists id | id in users :: users[id].email == email
  }

  /** `find_one({'email': email})`: the first document in natural order with
      the e-mail. */
  function FirstWith(order: seq<string>, users: map<string, Account>, email: string): (r: Option<string>)
    ensures r.Some? ==> r.value in order && r.value in users && users[r.value].email == email
    ensures r.None? ==> forall i | 0 <= i < |order| && order[i] in users :: users[order[i]].email != email
  {
    if order == [] then None
    else if order[0] in users && users[order[0]].email == email then Some(order[0])
    else
      var r := FirstWith(order[1..], users, email);
      assert forall i | 1 <= i < |order| :: order[i] == order[1..][i - 1];
      r
  }

  /** In a well-formed collection the lookup finds the one document with the
      e-mail, and finds nothing exactly when no document has it. */
  lemma FirstWithExact(users: map<string, Account>, order: seq<string>, email: string)
    requires Directory(users, order)
    ensures FirstWith(order, users, email).None? <==> !HasAccount(users, email)
    ensures forall id | id in users && users[id].email == email :: FirstWith(order, users, email) == Some(id)
  {
    var r := FirstWith(order, users, email);
    if HasAccount(users, email) {
      var id :| id in users && users[id].email == email;
      var i :| 0 <= i < |order| && order[i] == id;
      assert r.Some?;
    }
  }

  // ----- admin_required -----

  /** `admin_required`: the caller's document exists and its role is
      `admin`; every other caller gets 403. */
  predicate IsAdmin(users: map<string, Account>, order: seq<string>, caller: string) {
    var id := FirstWith(order, users, caller);
    id.Some? && Field(users[id.value], "role", JNull) == JText("admin")
  }

  /** The gate admits exactly the callers whose own document says `admin`. */
  lemma AdminRequiredExact(users: map<string, Account>, order: seq<string>, caller: string)
    requires Directory(users, order)
    ensures IsAdmin(users, order, caller) <==>
      exists id | id in users :: users[id].email == caller && Field(users[id], "role", JNull) == JText("admin")
  {
    FirstWithExact(users, order, caller);
  }

  // ----- get_all_users: filtering and pagination -----

  /** Python's `//`: the floor of the quotient, for divisors of either sign. */
  function FloorDiv(a: int, b: int): (q: int)
    requires b != 0
    ensures b > 0 ==> q * b <= a < q * b + b
    ensures b < 0 ==> q * b + b < a <= q * b
  {
    if b > 0 || a % b == 0 then a / b else a / b - 1
  }

  /** `(total_users + per_page - 1) // per_page`. */
  function TotalPages(total: int, perPage: int): int
    requires perPage != 0
  {
    FloorDiv(total + perPage - 1, perPage)
  }

  /** For a positive page size the page count is the ceiling of
      `total / per_page`: the pages hold every document, the last page is
      not empty, and there are no pages exactly when there are no
      documents. */
  lemma TotalPagesIsCeiling(total: nat, perPage: int)
    requires perPage > 0
    ensures var p := TotalPages(total, perPage);
            && p >= 0
            && total <= p * perPage
            && (p - 1) * perPage < total
            && (p == 0 <==> total == 0)
  {
    var p := TotalPages(total, perPage);
    assert p * perPage <= total + perPage - 1 < p * perPage + perPage;
  }

  /** `(page - 1) * per_page`, the number of matching documents skipped. */
  function Skip(page: int, perPage: int): int {
    (page - 1) * perPage
  }

  /** The query `get_all_users` builds from its `status` and `role`
      parameters: `active` and `inactive` ask for a stored `is_active` of
      true or false, `pending` for a stored `pending_activation` of true; any
      other status adds nothing. */
  predicate Matches(acc: Account, status: Option<string>, role: Option<string>) {
    && (Truthy(status) && status.value == "active" ==>
          "is_active" in acc.profile && acc.profile["is_active"] == JBool(true))
    && (Truthy(status) && status.value == "inactive" ==>
          "is_active" in acc.profile && acc.profile["is_active"] == JBool(false))
    && (Truthy(status) && status.value == "pending" ==>
          "pending_activation" in acc.profile && acc.profile["pending_activation"] == JBool(true))
    && (Truthy(role) ==> "role" in acc.profile && acc.profile["role"] == JText(role.value))
  }

  /** A user document made ready for JSON: the password hash dropped, the id
      and the datetimes as text, the nested subscription and usage as maps. */
  datatype UserDict = UserDict(id: string, email: string, createdAt: M.Value, profile: map<string, Json>,
                               subscription: map<string, M.Value>, usage: map<string, M.Value>)

  /** The conversion at routes.py lines 127-139 as written: the usage's
      `last_reset` is copied into the subscription, and the usage keeps the
      raw datetime. */
  function UserDictAsWritten(id: string, acc: Account): UserDict {
    var s := acc.subscription;
    UserDict(id, acc.email, M.Text(M.IsoFormat(acc.createdAt)), acc.profile,
             map["tier" := M.Text(s.tier), "started_at" := M.Text(M.IsoFormat(s.startedAt)),
                 "next_billing_date" := M.Text(M.IsoFormat(s.nextBillingDate)),
                 "last_reset" := M.Text(M.IsoFormat(acc.usage.lastReset))],
             map["images_generated" := M.Number(acc.usage.imagesGenerated),
                 "last_reset" := M.DateTime(acc.usage.lastReset)])
  }

  /** As written, every listed user's subscription gains a `last_reset` it
      does not have, and the usage's `last_reset` is left unconverted. */
  lemma LastResetMisplaced(id: string, acc: Account)
    ensures var d := UserDictAsWritten(id, acc);
            && d.subscription.Keys != {"tier", "started_at", "next_billing_date"}
            && !d.usage["last_reset"].Text?
  {
    assert "last_reset" in UserDictAsWritten(id, acc).subscription;
  }

  /** The conversion the code evidently intends: the usage's `last_reset`
      becomes text inside the usage. */
  function ToUserDict(id: string, acc: Account): UserDict {
    var s := acc.subscription;
    UserDict(id, acc.email, M.Text(M.IsoFormat(acc.createdAt)), acc.profile,
             map["tier" := M.Text(s.tier), "started_at" := M.Text(M.IsoFormat(s.startedAt)),
                 "next_billing_date" := M.Text(M.IsoFormat(s.nextBillingDate))],
             map["images_generated" := M.Number(acc.usage.imagesGenerated),
                 "last_reset" := M.Text(M.IsoFormat(acc.usage.lastReset))])
  }

  /** Every datetime of the corrected conversion is serialised where it is
      stored, and the subscription keeps exactly its own three fields. */
  lemma UserDictSerialised(id: string, acc: Account)
    ensures var d := ToUserDict(id, acc);
            && d.subscription.Keys == {"tier", "started_at", "next_billing_date"}
            && d.usage.Keys == {"images_generated", "last_reset"}
            && (forall k | k in d.subscription :: d.subscription[k].Text?)
            && d.usage["last_reset"] == M.ToJsonSerializable(M.DateTime(acc.usage.lastReset))
            && d.createdAt == M.ToJsonSerializable(M.DateTime(acc.createdAt))
  {
  }

  datatype UserPage = UserPage(users: seq<UserDict>, total: nat, page: int, perPage: int, totalPages: int)

  const ServerError := "Internal Server Error"

  function Abs(a: int): nat { if a < 0 then -a else a }

  /** `get_all_users`. `ranked` is what the database's sorted query
      returns: every matching document once. A negative skip makes the
      driver raise and a zero page size makes line 149 divide by zero, both
      ending in a server error; a negative page size returns as many
      documents as its absolute value. Each listed user is converted as
      lines 127-139 are written (`UserDictAsWritten`), so every listed
      subscription carries the misplaced `last_reset`. */
  method ListUsers(users: map<string, Account>, order: seq<string>, caller: string,
                   status: Option<string>, role: Option<string>, page: int, perPage: int,
                   ranked: seq<string>) returns (r: Response<UserPage>)
    requires forall i | 0 <= i < |ranked| :: ranked[i] in users && Matches(users[ranked[i]], status, role)
    requires forall id | id in users && Matches(users[id], status, role) :: id in ranked
    requires Distinct(ranked)
    ensures !IsAdmin(users, order, caller) ==> r == Err(403, "Admin privileges required")
    ensures IsAdmin(users, order, caller) && (Skip(page, perPage) < 0 || perPage == 0) ==> r == Err(500, ServerError)
    ensures IsAdmin(users, order, caller) && Skip(page, perPage) >= 0 && perPage != 0 ==> r.Ok?
    ensures r.Ok? ==>
      var lo := Min(Skip(page, perPage), |ranked|);
      var hi := Min(Skip(page, perPage) + Abs(perPage), |ranked|);
      && r.status == 200
      && r.body.total == |ranked| && r.body.page == page && r.body.perPage == perPage
      && r.body.totalPages == TotalPages(|ranked|, perPage)
      && |r.body.users| == hi - lo
      && forall j | 0 <= j < hi - lo :: r.body.users[j] == UserDictAsWritten(ranked[lo + j], users[ranked[lo + j]])
  {
    if !IsAdmin(users, order, caller) {
      return Err(403, "Admin privileges required");
    }
    var skip := Skip(page, perPage);
    if skip < 0 || perPage == 0 {
      return Err(500, ServerError);
    }
    var lo := Min(skip, |ranked|);
    var hi := Min(skip + Abs(perPage), |ranked|);
    var dicts: seq<UserDict> := [];
    var i := lo;
    while i < hi
      invariant lo <= i <= hi
      invariant |dicts| == i - lo
      invariant forall j | 0 <= j < i - lo :: dicts[j] == UserDictAsWritten(ranked[lo + j], users[ranked[lo + j]])
    {
      dicts := dicts + [UserDictAsWritten(ranked[i], users[ranked[i]])];
      i := i + 1;
    }
    r := Ok(200, UserPage(dicts, |ranked|, page, perPage, TotalPages(|ranked|, perPage)));
  }

  // ----- update_user and set_user_activation -----

  /** `allowed_fields`: what an administrator may change. */
  const AllowedFields: set<string> :=
    {"first_name", "last_name", "company_name", "role", "is_active", "pending_activation"}

  /** `{k: v for k, v in data.items() if k in allowed_fields}`. */
  function Whitelist(data: map<string, Json>): (u: map<string, Json>)
    ensures u.Keys <= AllowedFields && u.Keys <= data.Keys
    ensures forall k | k in data && k in AllowedFields :: k in u && u[k] == data[k]
  {
    map k | k in data && k in AllowedFields :: data[k]
  }

  predicate ValidRole(v: Json) {
    v == JText("admin") || v == JText("user")
  }

  /** Why `update_user` refuses a request before touching the collection. */
  function UpdateRefusal(userId: string, data: map<string, Json>): (m: Option<string>)
    ensures m.None? <==>
      && IsObjectId(userId)
      && Whitelist(data) != map[]
      && ("role" in data ==> ValidRole(data["role"]))
  {
    var update := Whitelist(data);
    if !IsObjectId(userId) then Some("Invalid user ID format")
    else if "role" in update && !ValidRole(update["role"]) then Some("Invalid role value")
    else if update == map[] then Some("No valid fields to update")
    else None
  }

  /** An update that passes the checks leaves a role that is the old one or
      one of the two valid roles, and changes no field outside the
      whitelist. */
  lemma UpdateKeepsRoles(acc: Account, userId: string, data: map<string, Json>)
    requires UpdateRefusal(userId, data).None?
    ensures var p := acc.profile + Whitelist(data);
            && (Field(acc.(profile := p), "role", JNull) == Field(acc, "role", JNull)
                || ValidRole(p["role"]))
            && forall k | k !in AllowedFields :: (k in p <==> k in acc.profile) && (k in p ==> p[k] == acc.profile[k])
  {
  }

  /** The document after `set_user_activation`: `is_active` takes the
      request's value as it is, and the account is no longer pending. */
  function Activated(acc: Account, activate: Json): Account {
    acc.(profile := acc.profile["is_active" := activate]["pending_activation" := JBool(false)])
  }

  // ----- admin_setup, login and register -----

  /** `count_documents({'role': 'admin'}) > 0`. */
  predicate AnyAdmin(users: map<string, Account>) {
    exists id | id in users :: "role" in users[id].profile && users[id].profile["role"] == JText("admin")
  }

  predicate LocalChar(c: char) {
    IsLetter(c) || IsDigit(c) || c == '.' || c == '_' || c == '%' || c == '+' || c == '-'
  }

  predicate DomainChar(c: char) {
    IsLetter(c) || IsDigit(c) || c == '.' || c == '-'
  }

  /** The text `$` is matched against: without a MULTILINE flag it also
      matches just before one final newline. */
  function Line(s: string): string {
    if s != [] && s[|s| - 1] == '\n' then s[..|s| - 1] else s
  }

  /** The pattern `^[a-zA-Z0-9._%+-]+@[a-zA-Z0-9.-]+\.[a-zA-Z]{2,}$` matched
      with the `@` at `a` and the dot before the final letters at `d`: a
      local part, `@`, a domain part, a dot and at least two letters. */
  predicate PatternAt(t: string, a: int, d: int) {
    && 0 < a && a + 1 < d && d + 2 < |t|
    && t[a] == '@' && t[d] == '.'
    && (forall k | 0 <= k < a :: LocalChar(t[k]))
    && (forall k | a < k < d :: DomainChar(t[k]))
    && (forall k | d < k < |t| :: IsLetter(t[k]))
  }

  /** What `re.match` of the address pattern accepts. */
  ghost predicate EmailPattern(s: string) {
    exists a, d :: PatternAt(Line(s), a, d)
  }

  /** The address check on the text `$` is matched against, computed by
      splitting at the first `@` and at the domain's last dot. */
  predicate IsAddress(t: string) {
    var local := BeforeFirst(t, '@');
    && 0 < |local| < |t|
    && (forall k | 0 <= k < |local| :: LocalChar(local[k]))
    && var domain := t[|local| + 1..];
       var tld := AfterLast(domain, '.');
       && 2 <= |tld| && |tld| + 2 <= |domain|
       && (forall k | 0 <= k < |domain| :: DomainChar(domain[k]))
       && (forall k | 0 <= k < |tld| :: IsLetter(tld[k]))
  }

  /** The address check `admin_setup` applies. */
  predicate IsEmail(s: string) {
    IsAddress(Line(s))
  }

  /** An address the computed check accepts matches the pattern at its first
      `@` and its last dot. */
  lemma AddressMatches(t: string)
    requires IsAddress(t)
    ensures PatternAt(t, |BeforeFirst(t, '@')|, |t| - |AfterLast(t[|BeforeFirst(t, '@')| + 1..], '.')| - 1)
  {
    var local := BeforeFirst(t, '@');
    var a := |local|;
    var domain := t[a + 1..];
    var tld := AfterLast(domain, '.');
    AfterLastSegment(domain, '.');
    var d := |t| - |tld| - 1;
    assert t[d] == domain[|domain| - |tld| - 1];
    forall k | 0 <= k < a ensures LocalChar(t[k]) {
      assert t[k] == local[k];
    }
    forall k | a < k < d ensures DomainChar(t[k]) {
      assert t[k] == domain[k - a - 1];
    }
    forall k | d < k < |t| ensures IsLetter(t[k]) {
      assert t[k] == tld[k - d - 1];
    }
  }

  /** The domain part of a match: a dot at `e` followed only by letters. */
  lemma DomainMatches(domain: string, e: nat)
    requires 0 < e && e + 2 < |domain| && domain[e] == '.'
    requires forall k | 0 <= k < e :: DomainChar(domain[k])
    requires forall k | e < k < |domain| :: IsLetter(domain[k])
    ensures var tld := AfterLast(domain, '.');
            && 2 <= |tld| && |tld| + 2 <= |domain|
            && (forall k | 0 <= k < |domain| :: DomainChar(domain[k]))
            && (forall k | 0 <= k < |tld| :: IsLetter(tld[k]))
  {
    AfterLastAt(domain, '.', e);
  }

  /** A match of the pattern passes the computed check. */
  lemma MatchIsAddress(t: string, a: int, d: int)
    requires PatternAt(t, a, d)
    ensures IsAddress(t)
  {
    forall k | 0 <= k < a ensures t[k] != '@' {
      assert LocalChar(t[k]);
    }
    BeforeFirstAt(t, '@', a);
    var domain := t[a + 1..];
    forall k | 0 <= k < d - a - 1 ensures DomainChar(domain[k]) {
      assert domain[k] == t[k + a + 1];
    }
    forall k | d - a - 1 < k < |domain| ensures IsLetter(domain[k]) {
      assert domain[k] == t[k + a + 1];
    }
    DomainMatches(domain, d - a - 1);
  }

  /** The computed check accepts exactly the addresses the pattern matches. */
  lemma EmailCheckIsPattern(s: string)
    ensures IsEmail(s) <==> EmailPattern(s)
  {
    var t := Line(s);
    if IsEmail(s) {
      AddressMatches(t);
    }
    if EmailPattern(s) {
      var a, d :| PatternAt(t, a, d);
      MatchIsAddress(t, a, d);
    }
  }

  /** The strength rule: at least eight characters, with an upper-case
      letter, a lower-case letter and a digit. */
  predicate StrongPassword(p: string) {
    && |p| >= 8
    && (exists k | 0 <= k < |p| :: IsUpper(p[k]))
    && (exists k | 0 <= k < |p| :: IsLower(p[k]))
    && (exists k | 0 <= k < |p| :: IsDigit(p[k]))
  }

  const WeakPasswordMessage :=
    "Password must be at least 8 characters and include uppercase, lowercase, and numbers"

  /** Why `admin_setup` refuses, checked in the route's order. */
  function SetupRefusal(users: map<string, Account>, email: Option<string>, password: Option<string>): (m: Option<string>)
    ensures AnyAdmin(users) ==> m == Some("Admin users already exist")
    ensures !AnyAdmin(users) && (!Truthy(email) || !Truthy(password)) ==> m == Some("Email and password are required")
    ensures m.None? <==>
      && !AnyAdmin(users) && Truthy(email) && Truthy(password)
      && IsEmail(email.value) && !HasAccount(users, email.value) && StrongPassword(password.value)
  {
    if AnyAdmin(users) then Some("Admin users already exist")
    else if !Truthy(email) || !Truthy(password) then Some("Email and password are required")
    else if !IsEmail(email.value) then Some("Invalid email format")
    else if HasAccount(users, email.value) then Some("Email already exists")
    else if !StrongPassword(password.value) then Some(WeakPasswordMessage)
    else None
  }

  /** The six profile fields of a document the routes create. */
  function Profile(firstName: string, lastName: string, companyName: string, role: string,
                   active: bool, pending: bool): (p: map<string, Json>)
    ensures p.Keys == AllowedFields
    ensures p["role"] == JText(role) && p["is_active"] == JBool(active) && p["pending_activation"] == JBool(pending)
  {
    map["first_name" := JText(firstName), "last_name" := JText(lastName), "company_name" := JText(companyName),
        "role" := JText(role), "is_active" := JBool(active), "pending_activation" := JBool(pending)]
  }

  /** The document `admin_setup` inserts. */
  function FirstAdmin(email: string, password: string, firstName: Option<string>, lastName: Option<string>,
                      companyName: Option<string>, now: int): Account {
    Account(email, HashOf(password), now, Profile(OrDefault(firstName, "Admin"), OrDefault(lastName, "User"),
                                                  OrDefault(companyName, "Admin Company"), "admin", true, false),
            Subscription("enterprise", now, now + Days(365)), Usage(0, now))
  }

  /** The document `register` inserts: a free-tier user, active only when no
      activation is required and pending otherwise. */
  function Member(email: string, password: string, firstName: Option<string>, lastName: Option<string>,
                  companyName: Option<string>, requiresActivation: bool, now: int): Account {
    Account(email, HashOf(password), now, Profile(OrDefault(firstName, ""), OrDefault(lastName, ""),
                                                  OrDefault(companyName, ""), "user", !requiresActivation,
                                                  requiresActivation),
            Subscription("free", now, now + Days(30)), Usage(0, now))
  }

  datatype Session = Session(token: AccessToken, role: Json)

  const PendingMessage := "Your account is pending activation by an administrator"
  const InactiveMessage := "Your account has been deactivated"

  /** `login`: the credentials, then the pending flag, then the active flag
      (a missing `is_active` counts as false); the token carries the role,
      `user` when the document has none. The 403 answers carry the status
      `pending` and `inactive` with the two messages. */
  function Login(users: map<string, Account>, order: seq<string>, email: Option<string>,
                 password: Option<string>): (r: Response<Session>)
  {
    if !Truthy(email) || !Truthy(password) then Err(400, "Email and password are required")
    else
      var id := FirstWith(order, users, email.value);
      if id.None? || users[id.value].passwordHash != HashOf(password.value) then Err(401, "Invalid credentials")
      else
        var acc := users[id.value];
        if IsTruthy(Field(acc, "pending_activation", JNull)) then Err(403, PendingMessage)
        else if !IsTruthy(Field(acc, "is_active", JBool(false))) then Err(403, InactiveMessage)
        else Ok(200, Session(TokenFor(email.value), Field(acc, "role", JText("user"))))
  }

  /** A login succeeds exactly when the address belongs to a document whose
      hash matches, which is not pending and which is active; a pending
      document is refused as pending whatever its active flag says. */
  lemma LoginGrantedExactly(users: map<string, Account>, order: seq<string>, email: string, password: string)
    requires Directory(users, order)
    requires email != "" && password != ""
    ensures var r := Login(users, order, Some(email), Some(password));
            && (r.Ok? <==>
                  exists id | id in users :: users[id].email == email && users[id].passwordHash == HashOf(password)
                    && !IsTruthy(Field(users[id], "pending_activation", JNull))
                    && IsTruthy(Field(users[id], "is_active", JBool(false))))
            && (r.Ok? ==> r == Ok(200, Session(TokenFor(email), r.body.role)))
            && forall id | id in users && users[id].email == email && users[id].passwordHash == HashOf(password)
                 && IsTruthy(Field(users[id], "pending_activation", JNull)) :: r == Err(403, PendingMessage)
  {
    FirstWithExact(users, order, email);
  }

  /** Inserting a document with a new id and an unused e-mail keeps the
      collection well formed. */
  lemma InsertKeeps(users: map<string, Account>, order: seq<string>, id: string, acc: Account)
    requires Directory(users, order)
    requires id !in users && !HasAccount(users, acc.email)
    ensures Directory(users[id := acc], order + [id])
  {
    var users', order' := users[id := acc], order + [id];
    forall i | 0 <= i < |order'| ensures order'[i] in users' {
      if i < |order| {
        assert order'[i] == order[i];
      }
    }
  }

  /** Changing a document without changing its e-mail keeps the collection
      well formed. */
  lemma ReplaceKeeps(users: map<string, Account>, order: seq<string>, id: string, acc: Account)
    requires Directory(users, order)
    requires id in users && acc.email == users[id].email
    ensures Directory(users[id := acc], order)
  {
  }

  /** A member registered while activation is required cannot log in: the
      account is pending. Registered without that requirement, it logs in at
      once as a `user`. */
  lemma RegisteredLogin(users: map<string, Account>, order: seq<string>, id: string, email: string,
                        password: string, firstName: Option<string>, lastName: Option<string>,
                        companyName: Option<string>, requiresActivation: bool, now: int)
    requires Directory(users, order)
    requires id !in users && !HasAccount(users, email)
    requires email != "" && password != ""
    ensures var acc := Member(email, password, firstName, lastName, companyName, requiresActivation, now);
            Login(users[id := acc], order + [id], Some(email), Some(password)) ==
              if requiresActivation then Err(403, PendingMessage)
              else Ok(200, Session(TokenFor(email), JText("user")))
  {
    var acc := Member(email, password, firstName, lastName, companyName, requiresActivation, now);
    var users' := users[id := acc];
    InsertKeeps(users, order, id, acc);
    FirstWithExact(users', order + [id], email);
    assert users'[id] == acc;
    assert FirstWith(order + [id], users', email) == Some(id);
    assert Field(acc, "pending_activation", JNull) == JBool(requiresActivation);
    assert Field(acc, "is_active", JBool(false)) == JBool(!requiresActivation);
    assert Field(acc, "role", JText("user")) == JText("user");
  }

  /** After `set_user_activation` the pending flag no longer matters: the
      owner logs in when the request's `activate` was truthy and is refused
      as deactivated otherwise. */
  lemma ActivatedLogin(users: map<string, Account>, order: seq<string>, id: string, activate: Json,
                       password: string)
    requires Directory(users, order)
    requires id in users && users[id].email != "" && password != ""
    requires users[id].passwordHash == HashOf(password)
    ensures var acc := users[id];
            Login(users[id := Activated(acc, activate)], order, Some(acc.email), Some(password)) ==
              if IsTruthy(activate) then Ok(200, Session(TokenFor(acc.email), Field(acc, "role", JText("user"))))
              else Err(403, InactiveMessage)
  {
    var acc := users[id];
    ReplaceKeeps(users, order, id, Activated(acc, activate));
    FirstWithExact(users[id := Activated(acc, activate)], order, acc.email);
  }

  /** The first administrator can log in at once, with the `admin` role, and
      passes the admin gate; no second setup is accepted afterwards. */
  lemma FirstAdminLogin(users: map<string, Account>, order: seq<string>, id: string, email: string,
                        password: string, firstName: Option<string>, lastName: Option<string>,
                        companyName: Option<string>, now: int, email2: Option<string>, password2: Option<string>)
    requires Directory(users, order)
    requires id !in users
    requires SetupRefusal(users, Some(email), Some(password)).None?
    ensures var users' := users[id := FirstAdmin(email, password, firstName, lastName, companyName, now)];
            && Login(users', order + [id], Some(email), Some(password)) == Ok(200, Session(TokenFor(email), JText("admin")))
            && IsAdmin(users', order + [id], email)
            && SetupRefusal(users', email2, password2) == Some("Admin users already exist")
  {
    var acc := FirstAdmin(email, password, firstName, lastName, companyName, now);
    InsertKeeps(users, order, id, acc);
    FirstWithExact(users[id := acc], order + [id], email);
    assert "role" in acc.profile && acc.profile["role"] == JText("admin");
    assert users[id := acc][id] == acc;
  }

  datatype Registration = Registration(message: string, token: Option<AccessToken>)

  /** `current_app.config.get('REQUIRES_ADMIN_ACTIVATION', True)`. */
  function OrTrue(setting: Option<bool>): bool {
    if setting.Some? then setting.value else true
  }

  /** Why `register` refuses: missing credentials, then a taken address. */
  function RegisterRefusal(users: map<string, Account>, email: Option<string>, password: Option<string>): (m: Option<string>)
    ensures !Truthy(email) || !Truthy(password) ==> m == Some("Email and password are required")
    ensures m.None? <==> Truthy(email) && Truthy(password) && !HasAccount(users, email.value)
  {
    if !Truthy(email) || !Truthy(password) then Some("Email and password are required")
    else if HasAccount(users, email.value) then Some("User already exists")
    else None
  }

  /** `register`'s answer to a new member: a token only when no activation is
      required, and otherwise the `pending` notice without one. */
  function Welcome(email: string, requiresActivation: bool): (w: Registration)
    ensures w.token.Some? <==> !requiresActivation
    ensures w.token.Some? ==> w.token.value == TokenFor(email)
  {
    if !requiresActivation then Registration("Account created with free subscription (10 images)", Some(TokenFor(email)))
    else Registration("Account created. An administrator will review and activate your account.", None)
  }

  /** The `users` collection as the admin routes change it. */
  class Store {
    var users: map<string, Account>
    /** The collection's natural order. */
    var order: seq<string>

    ghost predicate Valid()
      reads this
    {
      Directory(users, order)
    }

    constructor ()
      ensures Valid()
      ensures users == map[] && order == []
    {
      users := map[];
      order := [];
    }

    /** `insert_one` of a document with a new id and an unused e-mail. */
    method Insert(newId: string, acc: Account)
      requires Valid() && newId !in users && !HasAccount(users, acc.email)
      modifies this
      ensures Valid()
      ensures users == old(users)[newId := acc] && order == old(order) + [newId]
    {
      InsertKeeps(users, order, newId, acc);
      users := users[newId := acc];
      order := order + [newId];
    }

    /** `update_user`: the gate, the id format, the role value and the empty
        update are checked before the database is asked; an id no document
        has gives 404. A successful update `$set`s the whitelisted fields and
        nothing else. */
    method UpdateUser(caller: string, userId: string, data: map<string, Json>) returns (r: Response<string>)
      requires Valid()
      modifies this
      ensures Valid() && order == old(order)
      ensures !IsAdmin(old(users), order, caller) ==>
        r == Err(403, "Admin privileges required") && users == old(users)
      ensures IsAdmin(old(users), order, caller) && UpdateRefusal(userId, data).Some? ==>
        r == Err(400, UpdateRefusal(userId, data).value) && users == old(users)
      ensures IsAdmin(old(users), order, caller) && UpdateRefusal(userId, data).None? ==>
        var key := ObjectIdKey(userId);
        if key !in old(users) then r == Err(404, "User not found") && users == old(users)
        else
          && r == Ok(200, "User updated successfully")
          && users == old(users)[key := old(users)[key].(profile := old(users)[key].profile + Whitelist(data))]
    {
      if !IsAdmin(users, order, caller) {
        return Err(403, "Admin privileges required");
      }
      var refusal := UpdateRefusal(userId, data);
      if refusal.Some? {
        return Err(400, refusal.value);
      }
      var key := ObjectIdKey(userId);
      if key !in users {
        return Err(404, "User not found");
      }
      var acc := users[key].(profile := users[key].profile + Whitelist(data));
      ReplaceKeeps(users, order, key, acc);
      users := users[key := acc];
      r := Ok(200, "User updated successfully");
    }

    /** `set_user_activation`: `activate` defaults to false; the document
        becomes active or not as the request says and stops being pending. */
    method SetActivation(caller: string, userId: string, activate: Option<Json>) returns (r: Response<string>)
      requires Valid()
      modifies this
      ensures Valid() && order == old(order)
      ensures !IsAdmin(old(users), order, caller) ==>
        r == Err(403, "Admin privileges required") && users == old(users)
      ensures IsAdmin(old(users), order, caller) && !IsObjectId(userId) ==>
        r == Err(400, "Invalid user ID format") && users == old(users)
      ensures IsAdmin(old(users), order, caller) && IsObjectId(userId) ==>
        var key := ObjectIdKey(userId);
        var a := if activate.Some? then activate.value else JBool(false);
        if key !in old(users) then r == Err(404, "User not found") && users == old(users)
        else
          && users == old(users)[key := Activated(old(users)[key], a)]
          && r == Ok(200, "User " + old(users)[key].email + " "
                          + (if IsTruthy(a) then "activated" else "deactivated") + " successfully")
    {
      if !IsAdmin(users, order, caller) {
        return Err(403, "Admin privileges required");
      }
      if !IsObjectId(userId) {
        return Err(400, "Invalid user ID format");
      }
      var key := ObjectIdKey(userId);
      var a := if activate.Some? then activate.value else JBool(false);
      if key !in users {
        return Err(404, "User not found");
      }
      var acc := Activated(users[key], a);
      ReplaceKeeps(users, order, key, acc);
      users := users[key := acc];
      var action := if IsTruthy(a) then "activated" else "deactivated";
      r := Ok(200, "User " + acc.email + " " + action + " successfully");
    }

    /** `admin_setup`: only while no administrator exists, and only for a
        well-formed, unused address and a strong password. `newId` is the id
        the database assigns. */
    method AdminSetup(email: Option<string>, password: Option<string>, firstName: Option<string>,
                      lastName: Option<string>, companyName: Option<string>, newId: string, now: int)
      returns (r: Response<AccessToken>)
      requires Valid() && newId !in users
      modifies this
      ensures Valid()
      ensures SetupRefusal(old(users), email, password).Some? ==>
        && r == Err(400, SetupRefusal(old(users), email, password).value)
        && users == old(users) && order == old(order)
      ensures SetupRefusal(old(users), email, password).None? ==>
        && r == Ok(201, TokenFor(email.value))
        && users == old(users)[newId := FirstAdmin(email.value, password.value, firstName, lastName, companyName, now)]
        && order == old(order) + [newId]
    {
      var refusal := SetupRefusal(users, email, password);
      if refusal.Some? {
        return Err(400, refusal.value);
      }
      Insert(newId, FirstAdmin(email.value, password.value, firstName, lastName, companyName, now));
      r := Ok(201, TokenFor(email.value));
    }

    /** `register` beside the admin routes: `requiresActivation` is the
        configured `REQUIRES_ADMIN_ACTIVATION`, true when unset. A token is
        issued only when no activation is required. */
    method Register(email: Option<string>, password: Option<string>, firstName: Option<string>,
                    lastName: Option<string>, companyName: Option<string>, requiresActivation: Option<bool>,
                    newId: string, now: int) returns (r: Response<Registration>)
      requires Valid() && newId !in users
      modifies this
      ensures Valid()
      ensures RegisterRefusal(old(users), email, password).Some? ==>
        && r == Err(400, RegisterRefusal(old(users), email, password).value)
        && users == old(users) && order == old(order)
      ensures RegisterRefusal(old(users), email, password).None? ==>
        var ra := OrTrue(requiresActivation);
        && users == old(users)[newId := Member(email.value, password.value, firstName, lastName, companyName, ra, now)]
        && order == old(order) + [newId]
        && r == Ok(201, Welcome(email.value, ra))
    {
      var refusal := RegisterRefusal(users, email, password);
      if refusal.Some? {
        return Err(400, refusal.value);
      }
      var ra := OrTrue(requiresActivation);
      Insert(newId, Member(email.value, password.value, firstName, lastName, companyName, ra, now));
      r := Ok(201, Welcome(email.value, ra));
    }
  }
}
