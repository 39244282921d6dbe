# Creche application account service, in Dafny

This project models the account service of an online creche application. It
covers two parts:

- the Express server's `POST /signup` and `POST /login` handlers, with the
  MongoDB `users` collection behind them;
- the validation schema of the React signup form.

Signup runs a fixed sequence of guards, and the first one that fails decides
the response:

1. all five fields must be present;
2. the Aadhar card number must match `^\d{12}$`;
3. the phone number must match `^[6-9]\d{9}$`;
4. no stored account may share the email, the Aadhar card or the phone number.

If every guard passes, the handler hashes the password and stores one new
account. Login looks the account up by email and compares the password with
the stored hash. Both failure cases return the same 401 response.

Files:

- `regex.dfy`, module `Regex`. The two anchored patterns are data: a sequence
  of counted character classes. `Test` is `RegExp.prototype.test` for that
  shape. Lemmas show that each pattern accepts exactly the strings its comment
  describes.
- `accounts.dfy`, module `Accounts`. This covers the `Account` document, the
  request bodies and the exact responses (status and message). It also has
  `findOne` as the first match in insertion order, and the signup 400 guards as
  `CheckSignupFields`.
  - Class `UserStore` holds the collection as a `seq<Account>` field.
  - `Signup` appends to that field.
  - `Login` only reads it.
  - bcrypt is a pair of function values. The only assumption about them is
    `ComparesOwnHash`: `compare(p, hash(salt, p))`.
- `signup_schema.dfy`, module `SignupSchema`. The Yup chain is written as a
  list of rules per field. Lemmas give what each field accepts, and relate the
  form to the server's guards.

Two things the code does not do, and the model does not do either:

- The server does not check the email's shape or the password's length. Only
  the form does.
- The signup pre-check does not look at `username`, even though the schema
  marks it unique.

## Model

| member | source | states |
|---|---|---|
| `Regex.TestWidth` | src/server.js:50-51 | an anchored pattern only matches strings exactly as long as its total repetition count (`^` and `$` leave nothing unmatched) |
| `Regex.AadharPatternMeaning` | src/server.js:50 | `/^\d{12}$/` accepts a string if and only if it is exactly twelve ASCII digits |
| `Regex.PhonePatternMeaning` | src/server.js:51 | `/^[6-9]\d{9}$/` accepts a string if and only if it is ten ASCII digits whose first digit is 6 to 9 |
| `Accounts.FindOne` | src/server.js:62-68 | `findOne` returns a stored document the filter matches, and no earlier document matches; it returns nothing exactly when no stored document matches |
| `Accounts.FindOneAppend` | src/server.js:87 | after a document is saved, lookups that matched before still give the same result; a lookup that matched nothing before finds the new document exactly when it matches |
| `Accounts.CheckSignupFields` | src/server.js:45-59 | a missing or empty field gives 400 "All fields are required."; otherwise a bad Aadhar number gives the Aadhar 400; otherwise a bad phone number gives the phone 400; no 400 at all exactly when all five fields are present, the Aadhar number is 12 digits and the phone number is 10 digits starting with 6 to 9 |
| `Accounts.MalformedExamples` | src/server.js:53-59 | Aadhar "12345" is rejected with the Aadhar message; with a valid Aadhar number, phone "5123456789" is rejected with the phone message |
| `Accounts.UsernameIsNotChecked` | src/server.js:62-68 | when no stored account shares the email, Aadhar card or phone number, the pre-check finds nothing, even if a stored account has the same username |
| `Accounts.UserStore.Signup` | src/server.js:39-95 | a failed 400 guard returns that guard's response and leaves the collection unchanged; a stored account sharing the email, Aadhar card or phone number gives 409 and no write; a failed save gives 500 and no write; otherwise 201 and exactly one account is appended, holding the given username, email, Aadhar card, phone number and the bcrypt hash of the password, with earlier accounts unchanged; a collection with unique emails, Aadhar cards and phone numbers keeps them unique (`Valid`, which the empty collection of the constructor also satisfies) |
| `Accounts.UserStore.Login` | src/server.js:96-127 | a missing or empty email or password gives 400; otherwise 200 exactly when the first account with that email accepts the password under bcrypt compare, and 401 "Invalid email or password." in every other case; an unknown email never logs in; every 401 is the same response; when the collection's keys are unique, 200 exactly when the one account holding that email accepts the password; the collection is not modified |
| `Accounts.FindByUniqueEmail` | src/server.js:104 | in a collection with unique emails, the lookup by email finds the one account that holds it |
| `Accounts.RegisterThenLogin` | src/server.js:75-122 | if bcrypt accepts a password against its own hash, a signup answered with 201 followed by a login with the same email and password is answered with 200; a request that passes the guards and clashes with no account is answered with 201 when the save succeeds |
| `SignupSchema.UsernameRule` | src/Signup.jsx:22-24 | the username is accepted if and only if it has at least 3 characters |
| `SignupSchema.EmailRule` | src/Signup.jsx:25-27 | the email is accepted if and only if it is non-empty and has Yup's email shape |
| `SignupSchema.PasswordRule` | src/Signup.jsx:28-30 | the password is accepted if and only if it has at least 6 characters |
| `SignupSchema.AadharRule` | src/Signup.jsx:31-33 | the Aadhar card number is accepted if and only if it is exactly 12 ASCII digits |
| `SignupSchema.PhoneRule` | src/Signup.jsx:34-36 | the phone number is accepted if and only if it is 10 ASCII digits whose first digit is 6 to 9 |
| `SignupSchema.ValidMeaning` | src/Signup.jsx:21-37 | the whole form is valid if and only if all five per-field conditions hold together |
| `SignupSchema.EmptyFieldIsInvalid` | src/Signup.jsx:22-36 | an empty value in any of the five fields makes the form invalid |
| `SignupSchema.ValidPassesServerChecks` | src/Signup.jsx:21-37 | a payload the form accepts passes every 400 guard of `/signup` at src/server.js:45-59, so the server can only answer 409, 201 or 500 |
| `SignupSchema.ShortCredentialsFailForm` | src/Signup.jsx:23-29 | a username under 3 or a password under 6 characters fails the form whatever the other fields hold; the server has no such rule |
| `SignupSchema.ShortCredentialsExample` | src/Signup.jsx:22-30 | a concrete payload with a 2-character username and a 5-character password passes the server's 400 guards and fails the form, so the form is strictly stricter |

## Left out

- Express setup, CORS, JSON body parsing and `app.listen` (src/server.js:9-13, 130-134): I/O plumbing.
- The MongoDB connection and `process.exit` (src/server.js:16-24): I/O and process control.
- bcrypt's algorithm and its cost factor of 12: a foreign library. `hash` and `compare` are abstract. The salt it draws is a parameter. Only `compare(p, hash(salt, p))` is assumed, and only where a property needs it. Nothing is claimed about a hash differing from the plaintext, or about injectivity.
- Mongoose's `trim` setters, its storage-level unique indexes and its timestamps (src/server.js:28-33). Stored values and query values are compared exactly as sent.
- A unique-index violation on `save` is one of the causes covered by the `saveFails` parameter (500, no write). Because the index is not modelled, username uniqueness is not an invariant of the model. A second account with a taken username is stored when `saveFails` is false.
- Failures of `findOne` or of `bcrypt.hash` (each would give 500 with no write) are not modelled. Only a failing `save` is.
- Concurrent requests, including the race between the pre-check and `save`: each handler runs atomically here.
- MongoDB's natural order is modelled as insertion order. `findOne` returns the first match in that order.
- Body fields that are JSON values other than strings (numbers, booleans, objects) are not modelled. A field is a string or absent/null.
- Lengths are counted in Unicode characters. JavaScript's `.length` counts UTF-16 code units, which differs for characters outside the Basic Multilingual Plane.
- Yup's `.email()` pattern: an unseen library regex. It is the parameter `isEmail`.
- The form's error messages, and which one Yup reports first, are not modelled. Only whether each field passes is.
- React rendering, formik state, the `serverMessage`/`isSubmitting` state, the axios post and styles (src/Signup.jsx:38-213): UI and network I/O.
- src/Login.jsx, src/Dashboard.jsx, src/App.jsx and src/main.jsx are not part of this model. They are rendering, routing and a login form that only requires its fields.
- Session or token issuance after login: the source has none.
