/** The two access middlewares: `protect`, which authenticates the caller
    from the Authorization header, and `admin`, which admits administrators
    only. Token verification and the account lookup are parameters:
    `verify` gives the account identifier a valid, unexpired token carries,
    and `findUser` the account stored under an identifier. */
module Access {
  import opened Common
  import opened Auth

  const LoginRequiredMessage := "Vui lòng đăng nhập để tiếp tục"
  const InvalidTokenMessage := "Token không hợp lệ hoặc đã hết hạn"
  const UserNotFoundMessage := "Không tìm thấy người dùng"
  const AdminOnlyMessage := "Chỉ admin mới có quyền truy cập"
  /** Reading the role of a missing account throws; its text is not modelled. */
  const NoUserMessage := "Cannot read properties of undefined"

  const Scheme := "Bearer"

  /** `s.split(sep)`: the pieces hold no separator, and joining them with
      the separator gives back `s`. */
  function Split(s: string, sep: char): (r: seq<string>)
    ensures |r| >= 1
    ensures forall i :: 0 <= i < |r| ==> sep !in r[i]
    ensures Join(r, [sep]) == s
    ensures |r| >= 2 <==> sep in s
  {
    if |s| == 0 then [""]
    else
      var rest := Split(s[1..], sep);
      if s[0] == sep then
        assert ([""] + rest)[1..] == rest;
        assert [sep] + s[1..] == s;
        [""] + rest
      else
        var r := [[s[0]] + rest[0]] + rest[1..];
        assert Join(r, [sep]) == s by {
          if |rest| == 1 {
            assert [s[0]] + s[1..] == s;
          } else {
            assert r[1..] == rest[1..];
            assert Join(rest, [sep]) == rest[0] + [sep] + Join(rest[1..], [sep]);
            assert [s[0]] + s[1..] == s;
          }
        }
        r
  }

  /** `split(' ')[1]`: the second space-separated piece, if there is one. */
  function TokenOf(header: string): (r: Option<string>)
    ensures r.Some? <==> ' ' in header
    ensures r.Some? ==> ' ' !in r.value
  {
    var pieces := Split(header, ' ');
    if |pieces| >= 2 then Some(pieces[1]) else None
  }

  lemma {:induction false} SplitNoSeparator(t: string, sep: char)
    requires sep !in t
    ensures Split(t, sep) == [t]
  {
    if |t| > 0 {
      SplitNoSeparator(t[1..], sep);
      assert [t[0]] + t[1..] == t;
    }
  }

  lemma {:induction false} SplitPrefix(w: string, t: string, sep: char)
    requires sep !in w && sep !in t
    ensures Split(w + [sep] + t, sep) == [w, t]
  {
    if |w| == 0 {
      assert w + [sep] + t == [sep] + t;
      assert ([sep] + t)[1..] == t;
      SplitNoSeparator(t, sep);
    } else {
      SplitPrefix(w[1..], t, sep);
      assert (w + [sep] + t)[1..] == w[1..] + [sep] + t;
      assert [w[0]] + w[1..] == w;
    }
  }

  /** The header the client sends, `Bearer <token>`, gives back the token. */
  lemma BearerHeaderRoundTrip(token: string)
    requires ' ' !in token
    ensures StartsWith(Scheme + " " + token, Scheme)
    ensures TokenOf(Scheme + " " + token) == Some(token)
  {
    SplitPrefix(Scheme, token, ' ');
    assert Scheme + " " + token == Scheme + [' '] + token;
  }

  /** `protect`, decided: the account the route handler will see, or the
      401 response. A token that is empty or missing never verifies. */
  function ProtectDecision(header: Option<string>, verify: string -> Option<Id>,
                           findUser: Id -> Option<User>): (r: Outcome<User>)
    ensures r.Ok? || r.Unauthorized?
    ensures !(TruthyParam(header) && StartsWith(header.value, Scheme)) ==> r == Unauthorized(LoginRequiredMessage)
    ensures r.Ok? <==> && TruthyParam(header) && StartsWith(header.value, Scheme)
                       && TokenOf(header.value).Some? && TokenOf(header.value).value != ""
                       && verify(TokenOf(header.value).value).Some?
                       && findUser(verify(TokenOf(header.value).value).value).Some?
    ensures r.Ok? ==> r.value == findUser(verify(TokenOf(header.value).value).value).value
    ensures (&& TruthyParam(header) && StartsWith(header.value, Scheme)
             && (TokenOf(header.value).None? || TokenOf(header.value).value == ""
                 || verify(TokenOf(header.value).value).None?))
            ==> r == Unauthorized(InvalidTokenMessage)
  {
    if !TruthyParam(header) || !StartsWith(header.value, Scheme) then Unauthorized(LoginRequiredMessage)
    else
      var token := TokenOf(header.value);
      if token.None? || token.value == "" then Unauthorized(InvalidTokenMessage)
      else match verify(token.value)
        case None => Unauthorized(InvalidTokenMessage)
        case Some(id) =>
          match findUser(id)
          case None => Unauthorized(UserNotFoundMessage)
          case Some(u) => Ok(u)
  }

  /** `admin`, decided on the account `protect` attached. */
  function AdminDecision(user: Option<User>): (r: Outcome<()>)
    ensures r.Ok? <==> user.Some? && user.value.role == Admin
    ensures user.Some? && user.value.role != Admin ==> r == Forbidden(AdminOnlyMessage)
    ensures user.None? ==> r.ServerError?
  {
    if user.None? then ServerError(NoUserMessage)
    else if user.value.role == Admin then Ok(())
    else Forbidden(AdminOnlyMessage)
  }

  /** An administrator-only route is reached exactly for a verified token of
      an existing administrator account. */
  lemma AdminRouteReachedIff(header: Option<string>, verify: string -> Option<Id>,
                             findUser: Id -> Option<User>)
    ensures var p := ProtectDecision(header, verify, findUser);
            (p.Ok? && AdminDecision(Some(p.value)).Ok?)
            <==> (p.Ok? && p.value.role == Admin)
  {
  }

  /** One request passing through the middlewares: the account attached to
      it, and how many times the next handler has been called. */
  class Request {
    var user: Option<User>
    var nextCalls: nat
    var response: Option<Outcome<()>>

    constructor ()
      ensures user == None && nextCalls == 0 && response == None
    {
      user := None;
      nextCalls := 0;
      response := None;
    }

    /** `protect`: on success the next handler is called once, otherwise the
        401 response is sent and the next handler is not called. The lookup
        result is attached whenever a token verifies, even when it is
        empty. */
    method Protect(header: Option<string>, verify: string -> Option<Id>, findUser: Id -> Option<User>)
      returns (r: Outcome<User>)
      modifies this
      ensures r == ProtectDecision(header, verify, findUser)
      ensures r.Ok? ==> nextCalls == old(nextCalls) + 1 && user == Some(r.value) && response == old(response)
      ensures !r.Ok? ==> nextCalls == old(nextCalls) && response == Some(Unauthorized(r.message))
      ensures r == Unauthorized(UserNotFoundMessage) ==> user == None
      ensures r != Unauthorized(UserNotFoundMessage) && !r.Ok? ==> user == old(user)
    {
      r := ProtectDecision(header, verify, findUser);
      if r.Ok? {
        user := Some(r.value);
        nextCalls := nextCalls + 1;
      } else {
        if r == Unauthorized(UserNotFoundMessage) {
          user := None;
        }
        response := Some(Unauthorized(r.message));
      }
    }

    /** `admin`: the next handler is called once for an administrator;
        anyone else gets 403. */
    method RequireAdmin() returns (r: Outcome<()>)
      modifies this
      ensures r == AdminDecision(old(user))
      ensures user == old(user)
      ensures r.Ok? ==> nextCalls == old(nextCalls) + 1 && response == old(response)
      ensures !r.Ok? ==> nextCalls == old(nextCalls) && response == Some(r)
    {
      r := AdminDecision(user);
      if r.Ok? {
        nextCalls := nextCalls + 1;
      } else {
        response := Some(r);
      }
    }
  }
}
