/** The account routes: registration into the users table, login, and the
    profile update. Hashing and token signing are parameters: `hash` stands for
    `bcrypt.hash` and `matches(password, hash)` for `bcrypt.compare`. */
module Accounts {
  import opened Common
  import AuthGate

  const CustomerRole: string := "customer"
  const MinPasswordLength: nat := 6

  const FieldsRequiredMessage: string := "All fields are required"
  const PasswordTooShortMessage: string := "Password must be at least 6 characters"
  const EmailTakenMessage: string := "User with this email already exists"
  const LoginFieldsMessage: string := "Email and password are required"
  const BadCredentialsMessage: string := "Invalid email or password"

  /** A row of `users`. */
  datatype UserRow = UserRow(id: int, fullName: string, email: string, phone: string, passwordHash: string, role: string)

  /** The three 400 answers of registration, in the order they are checked. */
  datatype RegisterError = FieldsRequired | PasswordTooShort | EmailTaken

  datatype RegisterOutcome =
    | Registered(id: int, fullName: string, email: string, role: string)
    | RegisterRejected(error: RegisterError)

  datatype LoginOutcome = LoggedIn(user: AuthGate.User) | LoginRejected(status: int, message: string)

  datatype ProfileOutcome = ProfileUpdated | ProfileRejected

  /** `SELECT ... FROM users WHERE email = ?` finds a row. */
  predicate EmailRegistered(rows: seq<UserRow>, email: string) {
    exists i :: 0 <= i < |rows| && rows[i].email == email
  }

  /** The position of the first row with this email. */
  function FindByEmail(rows: seq<UserRow>, email: string): (r: Option<nat>)
    ensures r.Some? <==> EmailRegistered(rows, email)
    ensures r.Some? ==> r.value < |rows| && rows[r.value].email == email &&
                        forall j :: 0 <= j < r.value ==> rows[j].email != email
  {
    FirstIndex(rows, (u: UserRow) => u.email == email)
  }

  /** The checks of POST `/register`, in their order; None when all pass. */
  function CheckRegistration(rows: seq<UserRow>, fullName: Field, email: Field, phone: Field, password: Field): (r: Option<RegisterError>)
    ensures r == Some(PasswordTooShort) ==> password.Some? && |password.value| < MinPasswordLength
    ensures r == Some(EmailTaken) ==> email.Some? && EmailRegistered(rows, email.value)
    ensures r.None? ==> email.Some? && password.Some? && |password.value| >= MinPasswordLength &&
                        !EmailRegistered(rows, email.value)
  {
    if !Truthy(fullName) || !Truthy(email) || !Truthy(phone) || !Truthy(password) then Some(FieldsRequired)
    else if |password.value| < MinPasswordLength then Some(PasswordTooShort)
    else if FindByEmail(rows, email.value).Some? then Some(EmailTaken)
    else None
  }

  /** Registration goes through exactly when all four fields are present, the
      password has at least six characters and the email is not yet taken;
      a taken email is always refused, by that check or an earlier one. */
  lemma RegistrationAccepted(rows: seq<UserRow>, fullName: Field, email: Field, phone: Field, password: Field)
    ensures CheckRegistration(rows, fullName, email, phone, password).None? <==>
              Truthy(fullName) && Truthy(email) && Truthy(phone) && Truthy(password) &&
              |password.value| >= MinPasswordLength && !EmailRegistered(rows, email.value)
    ensures email.Some? && EmailRegistered(rows, email.value) ==>
              CheckRegistration(rows, fullName, email, phone, password).Some?
    ensures Truthy(password) && |password.value| < MinPasswordLength ==>
              CheckRegistration(rows, fullName, email, phone, password) != None &&
              CheckRegistration(rows, fullName, email, phone, password) != Some(EmailTaken)
  {
  }

  /** POST `/login`: 400 for a missing field, then one 401 for both an unknown
      email and a wrong password; otherwise the first row with that email. */
  function Login(rows: seq<UserRow>, email: Field, password: Field, matches: (string, string) -> bool): (r: LoginOutcome)
    ensures r.LoggedIn? <==>
              Truthy(email) && Truthy(password) && EmailRegistered(rows, email.value) &&
              matches(password.value, rows[FindByEmail(rows, email.value).value].passwordHash)
    ensures r.LoggedIn? ==>
              var row := rows[FindByEmail(rows, email.value).value];
              r.user == AuthGate.User(row.id, row.fullName, row.email, row.role)
    ensures (!Truthy(email) || !Truthy(password)) ==> r == LoginRejected(400, LoginFieldsMessage)
  {
    if !Truthy(email) || !Truthy(password) then LoginRejected(400, LoginFieldsMessage)
    else match FindByEmail(rows, email.value)
      case None => LoginRejected(401, BadCredentialsMessage)
      case Some(k) =>
        var row := rows[k];
        if !matches(password.value, row.passwordHash) then LoginRejected(401, BadCredentialsMessage)
        else LoggedIn(AuthGate.User(row.id, row.fullName, row.email, row.role))
  }

  /** Every refused login with both fields present gets one and the same 401
      answer, whether the email is unknown or the password is wrong, so the
      answer does not reveal which emails are registered. */
  lemma LoginFailuresIndistinguishable(rows: seq<UserRow>, email: string, password: string, matches: (string, string) -> bool)
    requires email != "" && password != ""
    ensures !EmailRegistered(rows, email) ==>
              Login(rows, Some(email), Some(password), matches) == LoginRejected(401, BadCredentialsMessage)
    ensures Login(rows, Some(email), Some(password), matches).LoginRejected? ==>
              Login(rows, Some(email), Some(password), matches) == LoginRejected(401, BadCredentialsMessage)
  {
  }

  /** The users table after `UPDATE users SET fullName = ?, phone = ? WHERE id = ?`. */
  function WithProfile(rows: seq<UserRow>, id: int, fullName: string, phone: string): (r: seq<UserRow>)
    ensures |r| == |rows|
    ensures forall i :: 0 <= i < |rows| ==>
              r[i] == if rows[i].id == id then rows[i].(fullName := fullName, phone := phone) else rows[i]
  {
    seq(|rows|, i requires 0 <= i < |rows| =>
      if rows[i].id == id then rows[i].(fullName := fullName, phone := phone) else rows[i])
  }

  /** A profile update changes the name and phone of the caller's own row and
      nothing else: ids, emails, hashes and roles stay, other rows stay. */
  lemma ProfileChangesOnlyOwnNameAndPhone(rows: seq<UserRow>, id: int, fullName: string, phone: string)
    ensures var r := WithProfile(rows, id, fullName, phone);
            forall i :: 0 <= i < |rows| ==>
              r[i].(fullName := rows[i].fullName, phone := rows[i].phone) == rows[i] &&
              (rows[i].id == id ==> r[i].fullName == fullName && r[i].phone == phone) &&
              (rows[i].id != id ==> r[i] == rows[i])
  {
  }

  /** The table invariant: ids are assigned increasingly below `nextId` and
      no email is registered twice. */
  predicate TableValid(rows: seq<UserRow>, nextId: int) {
    && 1 <= nextId
    && (forall i :: 0 <= i < |rows| ==> rows[i].id < nextId)
    && (forall i, j :: 0 <= i < j < |rows| ==> rows[i].id < rows[j].id)
    && (forall i, j :: 0 <= i < j < |rows| ==> rows[i].email != rows[j].email)
  }

  /** Appending a row with the next id and an unregistered email keeps the invariant. */
  lemma AppendKeepsTableValid(rows: seq<UserRow>, nextId: int, row: UserRow)
    requires TableValid(rows, nextId)
    requires row.id == nextId && !EmailRegistered(rows, row.email)
    ensures TableValid(rows + [row], nextId + 1)
  {
    var rows' := rows + [row];
    forall i, j | 0 <= i < j < |rows'| ensures rows'[i].email != rows'[j].email {
      if j == |rows| {
        assert rows'[i] == rows[i];
      } else {
        assert rows'[i] == rows[i] && rows'[j] == rows[j];
      }
    }
  }

  /** A profile update keeps the invariant: it touches neither ids nor emails. */
  lemma ProfileKeepsTableValid(rows: seq<UserRow>, nextId: int, id: int, fullName: string, phone: string)
    requires TableValid(rows, nextId)
    ensures TableValid(WithProfile(rows, id, fullName, phone), nextId)
  {
    var r := WithProfile(rows, id, fullName, phone);
    assert forall i :: 0 <= i < |rows| ==> r[i].id == rows[i].id && r[i].email == rows[i].email;
  }

  /** The users table. */
  class UserTable {
    var rows: seq<UserRow>
    var nextId: int

    ghost predicate Valid()
      reads this
    {
      TableValid(rows, nextId)
    }

    constructor ()
      ensures Valid() && rows == [] && nextId == 1
    {
      rows := [];
      nextId := 1;
    }

    /** The signed-in principals `verifyToken` can load from this table. */
    function Principals(): (r: seq<AuthGate.User>)
      reads this
      ensures |r| == |rows|
      ensures forall i :: 0 <= i < |rows| ==>
                r[i] == AuthGate.User(rows[i].id, rows[i].fullName, rows[i].email, rows[i].role)
    {
      seq(|rows|, i reads this requires 0 <= i < |rows| =>
        AuthGate.User(rows[i].id, rows[i].fullName, rows[i].email, rows[i].role))
    }

    /** POST `/register`: on success one row is appended with the next id,
        the hashed password and the role `customer`; on any refusal nothing
        is written. */
    method Register(fullName: Field, email: Field, phone: Field, password: Field, hash: string -> string)
      returns (out: RegisterOutcome)
      requires Valid()
      modifies this
      ensures Valid()
      ensures CheckRegistration(old(rows), fullName, email, phone, password).Some? ==>
                out == RegisterRejected(CheckRegistration(old(rows), fullName, email, phone, password).value) &&
                rows == old(rows) && nextId == old(nextId)
      ensures CheckRegistration(old(rows), fullName, email, phone, password).None? ==>
                out == Registered(old(nextId), fullName.value, email.value, CustomerRole) &&
                rows == old(rows) + [UserRow(old(nextId), fullName.value, email.value, phone.value,
                                             hash(password.value), CustomerRole)] &&
                nextId == old(nextId) + 1
    {
      if !Truthy(fullName) || !Truthy(email) || !Truthy(phone) || !Truthy(password) {
        return RegisterRejected(FieldsRequired);
      }
      if |password.value| < MinPasswordLength {
        return RegisterRejected(PasswordTooShort);
      }
      var existing := FindByEmail(rows, email.value);
      if existing.Some? {
        return RegisterRejected(EmailTaken);
      }
      var hashed := hash(password.value);
      var row := UserRow(nextId, fullName.value, email.value, phone.value, hashed, CustomerRole);
      AppendKeepsTableValid(rows, nextId, row);
      rows := rows + [row];
      out := Registered(nextId, fullName.value, email.value, CustomerRole);
      nextId := nextId + 1;
    }

    /** PUT `/profile`, behind `verifyToken`: both fields are required; the
        update rewrites them on the caller's own row. */
    method UpdateProfile(caller: AuthGate.User, fullName: Field, phone: Field) returns (out: ProfileOutcome)
      requires Valid()
      modifies this`rows
      ensures Valid()
      ensures (!Truthy(fullName) || !Truthy(phone)) ==> out == ProfileRejected && rows == old(rows)
      ensures Truthy(fullName) && Truthy(phone) ==>
                out == ProfileUpdated && rows == WithProfile(old(rows), caller.id, fullName.value, phone.value)
    {
      if !Truthy(fullName) || !Truthy(phone) {
        return ProfileRejected;
      }
      ProfileKeepsTableValid(rows, nextId, caller.id, fullName.value, phone.value);
      rows := WithProfile(rows, caller.id, fullName.value, phone.value);
      out := ProfileUpdated;
    }
  }

  /** A freshly registered account signs in as a customer under its own id. */
  lemma NewAccountIsCustomer(rows: seq<UserRow>, nextId: int, fullName: string, email: string, phone: string,
                             password: string, hash: string -> string, matches: (string, string) -> bool)
    requires TableValid(rows, nextId) && !EmailRegistered(rows, email)
    requires email != "" && password != "" && matches(password, hash(password))
    ensures var row := UserRow(nextId, fullName, email, phone, hash(password), CustomerRole);
            Login(rows + [row], Some(email), Some(password), matches) ==
              LoggedIn(AuthGate.User(nextId, fullName, email, CustomerRole))
  {
    var row := UserRow(nextId, fullName, email, phone, hash(password), CustomerRole);
    var rows' := rows + [row];
    assert rows'[|rows|] == row;
    assert forall j :: 0 <= j < |rows| ==> rows'[j].email != email;
    assert FindByEmail(rows', email) == Some(|rows|);
  }
}
