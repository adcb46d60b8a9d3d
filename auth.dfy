/** Signup and login. Password hashing and token signing are foreign: the hash
    is an input and the password check is a given predicate, and a token is
    represented by the claims it would carry. */
module Auth {
  import opened Common

  datatype AuthUser = AuthUser(
    id: string,
    name: string,
    email: string,
    phone: string,
    password: string,
    role: string,
    status: Option<string>,
    shopCategory: Option<string>,
    shopCategories: Option<seq<string>>,
    shopLocation: Option<string>,
    shopImage: Option<string>,
    createdAt: int)

  /** The body of a signup request. `shopCategories` is None unless it is an
      array; `shopLocation` is None when falsy. */
  datatype SignupRequest = SignupRequest(
    name: Option<string>,
    email: Option<string>,
    password: Option<string>,
    phone: Option<string>,
    role: Option<string>,
    shopCategory: Option<string>,
    shopCategories: Option<seq<string>>,
    shopLocation: Option<string>,
    shopImage: Option<string>)

  datatype Claims = Claims(id: string, email: string, role: string)

  /** What signup answers: a token and an 'Active' user view for a customer,
      the approval message for every other role. */
  datatype SignupReply = Token(claims: Claims, shownStatus: string) | AwaitApproval

  datatype LoginReply = LoginReply(claims: Claims, shopCategories: seq<string>)

  predicate HasEmail(users: seq<AuthUser>, email: string) {
    exists u :: u in users && u.email == email
  }

  /** The user document signup inserts: role defaulted to 'vendor', status
      always 'Pending', and the category fields as the request gives them. */
  function NewUser(req: SignupRequest, hashed: string, id: string, now: int): AuthUser
    requires Filled(req.name) && Filled(req.email) && Filled(req.password) && Filled(req.phone)
  {
    var categories :=
      if req.shopCategories.Some? then
        (if |req.shopCategories.value| > 0 then Some(req.shopCategories.value[0]) else None, req.shopCategories)
      else if Filled(req.shopCategory) then (req.shopCategory, Some([req.shopCategory.value]))
      else (None, None);
    AuthUser(id, req.name.value, req.email.value, req.phone.value, hashed, OrElse(req.role, "vendor"), Some("Pending"),
             categories.0, categories.1,
             req.shopLocation, if Filled(req.shopImage) then req.shopImage else None, now)
  }

  /** The signup rules on the stored document. */
  lemma NewUserRules(req: SignupRequest, hashed: string, id: string, now: int)
    requires Filled(req.name) && Filled(req.email) && Filled(req.password) && Filled(req.phone)
    ensures NewUser(req, hashed, id, now).status == Some("Pending")
    ensures Filled(req.role) ==> NewUser(req, hashed, id, now).role == req.role.value
    ensures !Filled(req.role) ==> NewUser(req, hashed, id, now).role == "vendor"
    ensures NewUser(req, hashed, id, now).email == req.email.value && NewUser(req, hashed, id, now).password == hashed
    // an array of categories is stored, and its first element, if any, is the primary category
    ensures req.shopCategories.Some? ==>
      NewUser(req, hashed, id, now).shopCategories == req.shopCategories &&
      (req.shopCategories.value != [] ==> NewUser(req, hashed, id, now).shopCategory == Some(req.shopCategories.value[0])) &&
      (req.shopCategories.value == [] ==> NewUser(req, hashed, id, now).shopCategory.None?)
    // otherwise a single category becomes both fields
    ensures req.shopCategories.None? && Filled(req.shopCategory) ==>
      NewUser(req, hashed, id, now).shopCategory == req.shopCategory &&
      NewUser(req, hashed, id, now).shopCategories == Some([req.shopCategory.value])
    ensures req.shopCategories.None? && !Filled(req.shopCategory) ==>
      NewUser(req, hashed, id, now).shopCategory.None? && NewUser(req, hashed, id, now).shopCategories.None?
  {
  }

  /** The `newUser` object built field by field, as the handler does. */
  method BuildUser(req: SignupRequest, hashed: string, id: string, now: int) returns (u: AuthUser)
    requires Filled(req.name) && Filled(req.email) && Filled(req.password) && Filled(req.phone)
    ensures u == NewUser(req, hashed, id, now)
  {
    u := AuthUser(id, req.name.value, req.email.value, req.phone.value, hashed, OrElse(req.role, "vendor"),
                  Some("Pending"), None, None, None, None, now);
    if req.shopCategories.Some? {
      u := u.(shopCategories := req.shopCategories);
      if |req.shopCategories.value| > 0 {
        u := u.(shopCategory := Some(req.shopCategories.value[0]));
      }
    } else if Filled(req.shopCategory) {
      u := u.(shopCategory := req.shopCategory, shopCategories := Some([req.shopCategory.value]));
    }
    if req.shopLocation.Some? {
      u := u.(shopLocation := req.shopLocation);
    }
    if Filled(req.shopImage) {
      u := u.(shopImage := req.shopImage);
    }
  }

  /** `findOne({email})`: the first user with that email. */
  function FindByEmail(users: seq<AuthUser>, email: string): (r: Option<nat>)
    ensures r.Some? ==> r.value < |users| && users[r.value].email == email
    ensures r.None? <==> !HasEmail(users, email)
  {
    if users == [] then None
    else if users[0].email == email then Some(0)
    else match FindByEmail(users[1..], email)
      case None =>
        assert forall u :: u in users ==> u == users[0] || u in users[1..];
        None
      case Some(k) => Some(k + 1)
  }

  /** POST /login: missing fields are 400; an unknown email or a wrong password
      is 401; a matching password on a Pending, Blocked or Rejected account is
      403; otherwise a token. `matches` stands for `bcrypt.compare`. */
  function Login(users: seq<AuthUser>, email: Option<string>, password: Option<string>,
                 matches: (string, string) -> bool): (r: Result<LoginReply>)
    ensures !Filled(email) || !Filled(password) ==> r == Err(BadRequest("email and password are required"))
    ensures Filled(email) && Filled(password) && !HasEmail(users, email.value) ==> r == Err(Unauthorized)
    ensures r.Ok? ==> exists u :: u in users && u.email == email.value && matches(password.value, u.password) &&
                                 u.status !in {Some("Pending"), Some("Blocked"), Some("Rejected")}
    // the token carries the id, email and role of the first user with that email, and the
    // reply carries that user's categories or []
    ensures r.Ok? ==>
      (Filled(email) && FindByEmail(users, email.value).Some? &&
       var u := users[FindByEmail(users, email.value).value];
       r.value == LoginReply(Claims(u.id, u.email, u.role), if u.shopCategories.Some? then u.shopCategories.value else []))
  {
    if !Filled(email) || !Filled(password) then Err(BadRequest("email and password are required"))
    else match FindByEmail(users, email.value)
      case None => Err(Unauthorized)
      case Some(k) =>
        var u := users[k];
        if !matches(password.value, u.password) then Err(Unauthorized)
        else if u.status == Some("Pending") then Err(Forbidden("pending approval"))
        else if u.status == Some("Blocked") || u.status == Some("Rejected") then Err(Forbidden("blocked or rejected"))
        else
          assert u in users;
          Ok(LoginReply(Claims(u.id, u.email, u.role), if u.shopCategories.Some? then u.shopCategories.value else []))
  }

  /** The gate once the first user with the email is found: a wrong password is
      401, and with the right one 'Pending' and 'Blocked' or 'Rejected' are 403. */
  lemma LoginGate(users: seq<AuthUser>, email: string, password: string, matches: (string, string) -> bool)
    returns (k: nat)
    requires email != "" && password != "" && HasEmail(users, email)
    ensures k < |users| && users[k].email == email
    ensures forall j :: 0 <= j < k ==> users[j].email != email
    ensures !matches(password, users[k].password) ==> Login(users, Some(email), Some(password), matches) == Err(Unauthorized)
    ensures matches(password, users[k].password) && users[k].status == Some("Pending") ==>
      Login(users, Some(email), Some(password), matches) == Err(Forbidden("pending approval"))
    ensures matches(password, users[k].password) && users[k].status in {Some("Blocked"), Some("Rejected")} ==>
      Login(users, Some(email), Some(password), matches) == Err(Forbidden("blocked or rejected"))
    ensures Login(users, Some(email), Some(password), matches).Ok? <==>
      matches(password, users[k].password) && users[k].status !in {Some("Pending"), Some("Blocked"), Some("Rejected")}
  {
    k := FindByEmail(users, email).value;
    FirstByEmail(users, email);
  }

  lemma {:induction false} FirstByEmail(users: seq<AuthUser>, email: string)
    requires FindByEmail(users, email).Some?
    ensures forall j :: 0 <= j < FindByEmail(users, email).value ==> users[j].email != email
  {
    if users[0].email != email {
      FirstByEmail(users[1..], email);
    }
  }

  /** A user who has just signed up, of any role and customers included, is
      refused at login: 401 with a wrong password, 403 with the right one. */
  lemma FreshSignupRefused(users: seq<AuthUser>, req: SignupRequest, hashed: string, id: string, now: int,
                           password: string, matches: (string, string) -> bool)
    requires Filled(req.name) && Filled(req.email) && Filled(req.password) && Filled(req.phone)
    requires !HasEmail(users, req.email.value)
    requires password != ""
    ensures Login(users + [NewUser(req, hashed, id, now)], req.email, Some(password), matches).Err?
    ensures matches(password, hashed) ==>
      Login(users + [NewUser(req, hashed, id, now)], req.email, Some(password), matches) == Err(Forbidden("pending approval"))
  {
    var u := NewUser(req, hashed, id, now);
    var all := users + [u];
    assert u in all;
    var k := LoginGate(all, req.email.value, password, matches);
  }

  class UserStore {
    var users: seq<AuthUser>

    constructor(users0: seq<AuthUser>)
      ensures users == users0
    {
      users := users0;
    }

    /** POST /signup: name, email, password and phone are required; an email
        already registered is 400; otherwise the document is inserted and only a
        customer is handed a token. `hashed` is the bcrypt hash of the password
        and `id` the inserted id. */
    method Signup(req: SignupRequest, hashed: string, id: string, now: int) returns (r: Result<SignupReply>)
      modifies this
      ensures !(Filled(req.name) && Filled(req.email) && Filled(req.password) && Filled(req.phone)) ==>
        r == Err(BadRequest("all fields are required")) && users == old(users)
      ensures (Filled(req.name) && Filled(req.email) && Filled(req.password) && Filled(req.phone) &&
               HasEmail(old(users), req.email.value)) ==>
        r == Err(BadRequest("user already exists")) && users == old(users)
      ensures (Filled(req.name) && Filled(req.email) && Filled(req.password) && Filled(req.phone) &&
               !HasEmail(old(users), req.email.value)) ==> r.Ok?
      ensures r.Ok? ==> users == old(users) + [NewUser(req, hashed, id, now)]
      ensures r.Ok? ==> (r.value.Token? <==> OrElse(req.role, "vendor") == "customer")
      ensures r.Ok? && r.value.Token? ==> r.value == Token(Claims(id, req.email.value, "customer"), "Active")
      ensures r.Err? ==> users == old(users)
    {
      if !Filled(req.name) || !Filled(req.email) || !Filled(req.password) || !Filled(req.phone) {
        return Err(BadRequest("all fields are required"));
      }
      if FindByEmail(users, req.email.value).Some? {
        return Err(BadRequest("user already exists"));
      }
      var userRole := OrElse(req.role, "vendor");
      var u := BuildUser(req, hashed, id, now);
      users := users + [u];
      if userRole == "customer" {
        r := Ok(Token(Claims(id, req.email.value, userRole), "Active"));
      } else {
        r := Ok(AwaitApproval);
      }
    }
  }
}
