/** Registration and login over the user accounts. Accounts are kept in a
    map keyed by their stored e-mail address. Password hashing, password
    comparison, token signing and the account schema's own validators are
    not modelled; they are parameters (`hash`, `matches`, `sign`,
    `accepts`). */
module Auth {
  import opened Common

  datatype User = User(id: Id, name: string, email: string, passwordHash: string, role: Role)

  /** The `data` of a successful register or login response. It has no
      password field. */
  datatype Session = Session(id: Id, name: string, email: string, role: Role, token: string)

  datatype RegisterBody = RegisterBody(name: Field<string>, email: Field<string>, password: Field<string>)
  datatype LoginBody = LoginBody(email: Field<string>, password: Field<string>)

  const IncompleteRegistrationMessage := "Vui lòng điền đầy đủ thông tin"
  const EmailTakenMessage := "Email đã được sử dụng"
  const IncompleteLoginMessage := "Vui lòng nhập email và mật khẩu"
  const BadCredentialsMessage := "Email hoặc mật khẩu không đúng"
  /** The joined messages of the account schema's validators, whose text is
      not modelled. */
  const AccountRejectedMessage := "User validation failed"

  /** The address an account is stored under: lower-cased, then trimmed. */
  function StoredEmail(email: string): (r: string)
    ensures IsLower(r) && IsTrimmed(r)
  {
    LowerIsLower(email);
    TrimIsSlice(Lower(email));
    var r := Trim(Lower(email));
    assert forall k :: 0 <= k < |r| ==> r[k] in Lower(email) by {
      var i, j :| TrimCutsAt(Lower(email), i, j);
      forall k | 0 <= k < |r| ensures r[k] in Lower(email) {
        assert r[k] == Lower(email)[i + k];
      }
    }
    r
  }

  function SessionOf(u: User, sign: Id -> string): Session {
    Session(u.id, u.name, u.email, u.role, sign(u.id))
  }

  /** Every account sits under its own stored address, which is lower-case
      and trimmed. */
  ghost predicate KeysNormalised(users: map<string, User>) {
    forall e :: e in users ==> users[e].email == e && IsLower(e) && IsTrimmed(e)
  }

  /** POST /auth/register, decided on the current accounts: the new account,
      or the error response. The first lookup uses the lower-cased address
      without trimming; the store's unique index on the address then catches
      a clash that only shows once it is trimmed, with the same message. */
  function RegisterDecision(users: map<string, User>, id: Id, body: RegisterBody,
                            hash: string -> string, accepts: (string, string, string) -> bool)
    : (r: Outcome<User>)
    ensures r.Ok? <==> TruthyText(body.name) && TruthyText(body.email) && TruthyText(body.password)
                       && Lower(body.email.v) !in users && StoredEmail(body.email.v) !in users
                       && accepts(Trim(body.name.v), StoredEmail(body.email.v), body.password.v)
    ensures !r.Ok? ==> r.BadRequest?
    ensures r.Ok? ==> r.value == User(id, Trim(body.name.v), StoredEmail(body.email.v),
                                      hash(body.password.v), Customer)
    ensures !(TruthyText(body.name) && TruthyText(body.email) && TruthyText(body.password))
            ==> r == BadRequest(IncompleteRegistrationMessage)
  {
    if !TruthyText(body.name) || !TruthyText(body.email) || !TruthyText(body.password) then
      BadRequest(IncompleteRegistrationMessage)
    else if Lower(body.email.v) in users then BadRequest(EmailTakenMessage)
    else if !accepts(Trim(body.name.v), StoredEmail(body.email.v), body.password.v) then
      BadRequest(AccountRejectedMessage)
    else if StoredEmail(body.email.v) in users then BadRequest(EmailTakenMessage)
    else Ok(User(id, Trim(body.name.v), StoredEmail(body.email.v), hash(body.password.v), Customer))
  }

  /** With every field present, an address whose lower-cased form is stored
      is refused with the email-taken message before any validator runs. A
      form that is taken only once trimmed is refused with that message when
      the account validators accept the account, and with their message
      otherwise. */
  lemma RegisterRefusesTakenEmail(users: map<string, User>, id: Id, body: RegisterBody,
                                  hash: string -> string, accepts: (string, string, string) -> bool)
    requires TruthyText(body.name) && TruthyText(body.email) && TruthyText(body.password)
    ensures Lower(body.email.v) in users ==>
              RegisterDecision(users, id, body, hash, accepts) == BadRequest(EmailTakenMessage)
    ensures StoredEmail(body.email.v) in users
            && accepts(Trim(body.name.v), StoredEmail(body.email.v), body.password.v) ==>
              RegisterDecision(users, id, body, hash, accepts) == BadRequest(EmailTakenMessage)
    ensures Lower(body.email.v) !in users && StoredEmail(body.email.v) in users
            && !accepts(Trim(body.name.v), StoredEmail(body.email.v), body.password.v) ==>
              RegisterDecision(users, id, body, hash, accepts) == BadRequest(AccountRejectedMessage)
    ensures RegisterDecision(users, id, body, hash, accepts) == BadRequest(EmailTakenMessage)
            <==> Lower(body.email.v) in users
                 || (StoredEmail(body.email.v) in users
                     && accepts(Trim(body.name.v), StoredEmail(body.email.v), body.password.v))
  {
  }

  /** Two registrations that differ only in the password get the same
      response apart from the token's input, which is the same identifier:
      the response never carries the password. */
  lemma RegisterResponseOmitsPassword(users: map<string, User>, id: Id, body: RegisterBody, other: string,
                                      hash: string -> string, accepts: (string, string, string) -> bool,
                                      sign: Id -> string)
    requires RegisterDecision(users, id, body, hash, accepts).Ok?
    requires RegisterDecision(users, id, body.(password := Value(other)), hash, accepts).Ok?
    ensures SessionOf(RegisterDecision(users, id, body, hash, accepts).value, sign)
            == SessionOf(RegisterDecision(users, id, body.(password := Value(other)), hash, accepts).value, sign)
  {
  }

  /** The lower-cased address looked up at login, with no trimming. */
  function LoginKey(email: string): string {
    Lower(email)
  }

  /** An address with white space at either end never finds an account, so
      a user who registered with a padded address cannot log in by typing it
      the same way. */
  lemma PaddedEmailNeverFound(users: map<string, User>, email: string)
    requires KeysNormalised(users)
    requires !IsTrimmed(email)
    ensures LoginKey(email) !in users
  {
    var k := LoginKey(email);
    LowerIsLower(email);
    assert |email| > 0;
    assert k[0] == LowerChar(email[0]) && k[|k| - 1] == LowerChar(email[|email| - 1]);
    assert !IsTrimmed(k);
  }

  class UserStore {
    var users: map<string, User>
    var nextId: nat

    ghost predicate Valid()
      reads this
    {
      && KeysNormalised(users)
      && (forall e :: e in users ==> users[e].id < nextId)
    }

    constructor ()
      ensures Valid() && users == map[] && nextId == 0
    {
      users := map[];
      nextId := 0;
    }

    /** POST /auth/register: a new customer account and a session for it, or
        a refusal that creates no account. */
    method Register(body: RegisterBody, hash: string -> string, accepts: (string, string, string) -> bool,
                    sign: Id -> string)
      returns (r: Outcome<Session>)
      requires Valid()
      modifies this
      ensures Valid()
      ensures var d := RegisterDecision(old(users), old(nextId), body, hash, accepts);
              && (d.Ok? ==> r == Ok(SessionOf(d.value, sign)) && d.value.email !in old(users)
                            && users == old(users)[d.value.email := d.value]
                            && nextId == old(nextId) + 1)
              && (!d.Ok? ==> r == BadRequest(d.message) && users == old(users) && nextId == old(nextId))
    {
      var d := RegisterDecision(users, nextId, body, hash, accepts);
      if d.Ok? {
        users := users[d.value.email := d.value];
        nextId := nextId + 1;
        r := Ok(SessionOf(d.value, sign));
      } else {
        r := BadRequest(d.message);
      }
    }

    /** POST /auth/login. An unknown address and a wrong password give the
        same response. */
    method Login(body: LoginBody, matches: (string, string) -> bool, sign: Id -> string)
      returns (r: Outcome<Session>)
      ensures !(TruthyText(body.email) && TruthyText(body.password)) ==> r == BadRequest(IncompleteLoginMessage)
      ensures TruthyText(body.email) && TruthyText(body.password) ==>
                (r.Ok? <==> LoginKey(body.email.v) in users
                            && matches(body.password.v, users[LoginKey(body.email.v)].passwordHash))
      ensures TruthyText(body.email) && TruthyText(body.password) && !r.Ok? ==>
                r == Unauthorized(BadCredentialsMessage)
      ensures r.Ok? ==> LoginKey(body.email.v) in users
                        && r.value == SessionOf(users[LoginKey(body.email.v)], sign)
    {
      if !TruthyText(body.email) || !TruthyText(body.password) {
        r := BadRequest(IncompleteLoginMessage);
        return;
      }
      var key := LoginKey(body.email.v);
      if key !in users {
        r := Unauthorized(BadCredentialsMessage);
      } else if !matches(body.password.v, users[key].passwordHash) {
        r := Unauthorized(BadCredentialsMessage);
      } else {
        r := Ok(SessionOf(users[key], sign));
      }
    }
  }
}
