/**
 The account service: the `/signup` and `/login` handlers of the creche
 application's server and the users collection behind them.

 A request body field is either absent (or null) or a string. The collection is
 a sequence of `Account` documents in insertion order. bcrypt is an abstract
 pair of functions. The random salt that `bcrypt.hash` draws is a parameter of
 the signup handler, and so is the outcome of `save()`.
 */
module Accounts {
  import opened Regex

  datatype Option<+T> = None | Some(value: T)

  /** A stored user document (`userSchema`); `password` holds the bcrypt hash. */
  datatype Account = Account(
    username: string,
    email: string,
    password: string,
    aadharCard: string,
    phoneNumber: string)

  /** One field of a JSON request body: `None` when absent or null. */
  type Field = Option<string>

  /** JavaScript truthiness of a body field: `!x` holds for a missing field and for `""`. */
  predicate Present(f: Field) {
    f.Some? && f.value != ""
  }

  datatype SignupRequest = SignupRequest(
    username: Field,
    email: Field,
    password: Field,
    aadharCard: Field,
    phoneNumber: Field)

  datatype LoginRequest = LoginRequest(email: Field, password: Field)

  /** An HTTP status with the `message` of its JSON body. */
  datatype Response = Response(status: nat, message: string)

  const FieldsRequired := Response(400, "All fields are required.")
  const InvalidAadhar := Response(400, "Invalid Aadhar Card number. It should be a 12-digit number.")
  const InvalidPhone := Response(400, "Invalid Phone Number. It should be a 10-digit number starting with 6-9.")
  const AlreadyExists := Response(409, "User with this email, Aadhar Card, or phone number already exists.")
  const Registered := Response(201, "User registered successfully!")
  const InternalError := Response(500, "Internal Server Error")
  const CredentialsRequired := Response(400, "Email and password are required.")
  const InvalidCredentials := Response(401, "Invalid email or password.")
  const LoginSuccessful := Response(200, "Login successful!")

  /**
   bcryptjs as the handlers see it: `hash(salt, password)` where `salt` is the
   random salt the library draws, and `compare(password, hashed)`.
   */
  datatype Bcrypt = Bcrypt(hash: (nat, string) -> string, compare: (string, string) -> bool)

  /** The one property of bcrypt the model relies on: a password matches its own hash. */
  ghost predicate ComparesOwnHash(b: Bcrypt) {
    forall salt: nat, p: string :: b.compare(p, b.hash(salt, p))
  }

  /** The two query filters the handlers pass to `User.findOne`. */
  datatype Filter =
    | ByEmail(email: string)
    | AnyOf(email: string, aadharCard: string, phoneNumber: string)

  predicate Matches(a: Account, f: Filter) {
    match f
    case ByEmail(e) => a.email == e
    case AnyOf(e, aadhar, phone) => a.email == e || a.aadharCard == aadhar || a.phoneNumber == phone
  }

  /** `findOne`: the position of the first stored document the filter matches, if any. */
  function FindOne(accounts: seq<Account>, f: Filter): (r: Option<nat>)
    ensures r.Some? ==> r.value < |accounts| && Matches(accounts[r.value], f)
    ensures r.Some? ==> forall j :: 0 <= j < r.value ==> !Matches(accounts[j], f)
    ensures r.None? <==> forall j :: 0 <= j < |accounts| ==> !Matches(accounts[j], f)
  {
    if accounts == [] then None
    else if Matches(accounts[0], f) then Some(0)
    else match FindOne(accounts[1..], f)
      case None => None
      case Some(i) => Some(i + 1)
  }

  /** Appending a document leaves earlier matches in place and is found only when nothing earlier matches. */
  lemma {:induction false} FindOneAppend(accounts: seq<Account>, a: Account, f: Filter)
    ensures FindOne(accounts + [a], f) ==
      if FindOne(accounts, f).Some? then FindOne(accounts, f)
      else if Matches(a, f) then Some(|accounts|)
      else None
  {
    if accounts != [] {
      assert (accounts + [a])[1..] == accounts[1..] + [a];
      FindOneAppend(accounts[1..], a, f);
    }
  }

  /** No two stored accounts share an email, an Aadhar card or a phone number. */
  ghost predicate UniqueKeys(accounts: seq<Account>) {
    forall i, j :: 0 <= i < j < |accounts| ==>
      && accounts[i].email != accounts[j].email
      && accounts[i].aadharCard != accounts[j].aadharCard
      && accounts[i].phoneNumber != accounts[j].phoneNumber
  }

  predicate AllPresent(req: SignupRequest) {
    Present(req.username) && Present(req.email) && Present(req.password)
    && Present(req.aadharCard) && Present(req.phoneNumber)
  }

  /**
   The 400 guards of `/signup`, in source order: presence of all five fields,
   then the Aadhar pattern, then the phone pattern. The first failing guard
   gives the response; `None` means every guard passed.
   */
  function CheckSignupFields(req: SignupRequest): (r: Option<Response>)
    ensures r.Some? ==> r.value.status == 400
    ensures !AllPresent(req) ==> r == Some(FieldsRequired)
    ensures AllPresent(req) && !IsAadharNumber(req.aadharCard.value) ==> r == Some(InvalidAadhar)
    ensures AllPresent(req) && IsAadharNumber(req.aadharCard.value) && !IsPhoneNumber(req.phoneNumber.value) ==>
              r == Some(InvalidPhone)
    ensures r.None? <==>
              AllPresent(req) && IsAadharNumber(req.aadharCard.value) && IsPhoneNumber(req.phoneNumber.value)
  {
    if !AllPresent(req) then Some(FieldsRequired)
    else
      AadharPatternMeaning(req.aadharCard.value);
      PhonePatternMeaning(req.phoneNumber.value);
      if !Test(AadharPattern, req.aadharCard.value) then Some(InvalidAadhar)
      else if !Test(PhonePattern, req.phoneNumber.value) then Some(InvalidPhone)
      else None
  }

  /** The `$or` filter of the signup pre-check; `username` is not part of it. */
  function ConflictFilter(req: SignupRequest): Filter
    requires AllPresent(req)
  {
    AnyOf(req.email.value, req.aadharCard.value, req.phoneNumber.value)
  }

  /** Some stored account shares the request's email, Aadhar card or phone number. */
  ghost predicate Taken(accounts: seq<Account>, req: SignupRequest)
    requires AllPresent(req)
  {
    exists i :: 0 <= i < |accounts| &&
      (accounts[i].email == req.email.value
       || accounts[i].aadharCard == req.aadharCard.value
       || accounts[i].phoneNumber == req.phoneNumber.value)
  }

  /** A short Aadhar number and a phone number starting with 5 are turned away before any lookup. */
  lemma MalformedExamples(req: SignupRequest)
    requires AllPresent(req)
    ensures req.aadharCard.value == "12345" ==> CheckSignupFields(req) == Some(InvalidAadhar)
    ensures req.aadharCard.value == "123456789012" && req.phoneNumber.value == "5123456789" ==>
              CheckSignupFields(req) == Some(InvalidPhone)
  {
  }

  /** A stored username equal to the request's never makes the pre-check fire on its own. */
  lemma UsernameIsNotChecked(accounts: seq<Account>, req: SignupRequest)
    requires AllPresent(req)
    requires forall i :: 0 <= i < |accounts| ==>
      && accounts[i].email != req.email.value
      && accounts[i].aadharCard != req.aadharCard.value
      && accounts[i].phoneNumber != req.phoneNumber.value
    ensures FindOne(accounts, ConflictFilter(req)) == None
    ensures !Taken(accounts, req)
  {
  }

  class UserStore {
    /** The users collection, in insertion order. */
    var accounts: seq<Account>
    const bcrypt: Bcrypt

    /** The collection invariant the signup pre-check maintains. */
    ghost predicate Valid()
      reads this
    {
      UniqueKeys(accounts)
    }

    constructor (bcrypt: Bcrypt)
      ensures Valid()
      ensures this.bcrypt == bcrypt && accounts == []
    {
      this.bcrypt := bcrypt;
      accounts := [];
    }

    /**
     `POST /signup`. `salt` is the salt `bcrypt.hash` draws; `saveFails` is
     whether `newUser.save()` throws (a storage-level unique index or an I/O
     error), which the handler turns into a 500.
     */
    method Signup(req: SignupRequest, salt: nat, saveFails: bool) returns (resp: Response)
      modifies this
      ensures CheckSignupFields(req).Some? ==>
                resp == CheckSignupFields(req).value && accounts == old(accounts)
      ensures CheckSignupFields(req).None? && Taken(old(accounts), req) ==>
                resp == AlreadyExists && accounts == old(accounts)
      ensures CheckSignupFields(req).None? && !Taken(old(accounts), req) && saveFails ==>
                resp == InternalError && accounts == old(accounts)
      ensures CheckSignupFields(req).None? && !Taken(old(accounts), req) && !saveFails ==>
                && resp == Registered
                && accounts == old(accounts) + [Account(req.username.value, req.email.value,
                                                        bcrypt.hash(salt, req.password.value),
                                                        req.aadharCard.value, req.phoneNumber.value)]
      ensures resp.status == 201 || accounts == old(accounts)
      ensures old(Valid()) ==> Valid()
    {
      var invalid := CheckSignupFields(req);
      if invalid.Some? {
        return invalid.value;
      }
      var existing := FindOne(accounts, ConflictFilter(req));
      if existing.Some? {
        return AlreadyExists;
      }
      var hashed := bcrypt.hash(salt, req.password.value);
      if saveFails {
        return InternalError;
      }
      var created := Account(req.username.value, req.email.value, hashed,
                             req.aadharCard.value, req.phoneNumber.value);
      accounts := accounts + [created];
      resp := Registered;
    }

    /** `POST /login`: a read-only lookup by email followed by a password comparison. */
    method Login(req: LoginRequest) returns (resp: Response)
      ensures !(Present(req.email) && Present(req.password)) ==> resp == CredentialsRequired
      ensures Present(req.email) && Present(req.password) ==>
                (resp == LoginSuccessful <==>
                   exists i :: 0 <= i < |accounts|
                     && accounts[i].email == req.email.value
                     && (forall j :: 0 <= j < i ==> accounts[j].email != req.email.value)
                     && bcrypt.compare(req.password.value, accounts[i].password))
      ensures Present(req.email) && Present(req.password) ==>
                resp == LoginSuccessful || resp == InvalidCredentials
      ensures Present(req.email) && (forall i :: 0 <= i < |accounts| ==> accounts[i].email != req.email.value) ==>
                resp != LoginSuccessful
      ensures resp.status == 401 ==> resp == InvalidCredentials
      ensures Valid() && Present(req.email) && Present(req.password) ==>
                (resp == LoginSuccessful <==>
                   exists i :: 0 <= i < |accounts|
                     && accounts[i].email == req.email.value
                     && bcrypt.compare(req.password.value, accounts[i].password))
    {
      if !Present(req.email) || !Present(req.password) {
        return CredentialsRequired;
      }
      var user := FindOne(accounts, ByEmail(req.email.value));
      if user.None? {
        return InvalidCredentials;
      }
      var isMatch := bcrypt.compare(req.password.value, accounts[user.value].password);
      if !isMatch {
        return InvalidCredentials;
      }
      resp := LoginSuccessful;
    }
  }

  /** In a table with unique keys, the lookup by email finds the one account holding that email. */
  lemma FindByUniqueEmail(accounts: seq<Account>, email: string, k: nat)
    requires UniqueKeys(accounts)
    requires k < |accounts| && accounts[k].email == email
    ensures FindOne(accounts, ByEmail(email)) == Some(k)
  {
  }

  /**
   Registering and then logging in with the same email and password succeeds,
   given only that bcrypt accepts a password against its own hash.
   */
  method RegisterThenLogin(store: UserStore, req: SignupRequest, salt: nat)
      returns (signedUp: Response, loggedIn: Response)
    requires ComparesOwnHash(store.bcrypt)
    modifies store
    ensures signedUp == Registered ==> loggedIn == LoginSuccessful
    ensures CheckSignupFields(req).None? && !Taken(old(store.accounts), req) ==> signedUp == Registered
  {
    signedUp := store.Signup(req, salt, false);
    if signedUp == Registered {
      ghost var before := old(store.accounts);
      ghost var created := store.accounts[|before|];
      FindOneAppend(before, created, ByEmail(req.email.value));
      assert FindOne(before, ByEmail(req.email.value)).None?;
    }
    loggedIn := store.Login(LoginRequest(req.email, req.password));
  }
}
