/** The request guards of middleware/auth.js: `protect` takes the token from a
    `Bearer` authorization header, checks it, loads the user and attaches it to the
    request; `authorize` admits only the listed roles. Token verification is a
    parameter: it yields the user id the token was issued for, or nothing. */
module Guard {
  import opened Store
  import Profile

  /** `s.split(' ')`: the pieces between spaces, empty pieces included. */
  function Split(s: string): (r: seq<string>)
    ensures |r| >= 1
    decreases |s|
  {
    if s == [] then [""]
    else
      var rest := Split(s[1..]);
      if s[0] == ' ' then [""] + rest else [[s[0]] + rest[0]] + rest[1..]
  }

  /** The pieces put back together with one space between neighbours. */
  function Join(parts: seq<string>): string
    requires |parts| >= 1
  {
    if |parts| == 1 then parts[0] else parts[0] + " " + Join(parts[1..])
  }

  /** Splitting loses nothing: joining the pieces again gives the header back, and no
      piece holds a space. */
  lemma {:induction false} SplitJoin(s: string)
    ensures Join(Split(s)) == s
    ensures forall i :: 0 <= i < |Split(s)| ==> ' ' !in Split(s)[i]
    decreases |s|
  {
    if s != [] {
      var rest := Split(s[1..]);
      SplitJoin(s[1..]);
      if s[0] == ' ' {
        assert Split(s) == [""] + rest;
        assert ([""] + rest)[1..] == rest;
        assert s == [' '] + s[1..];
      } else {
        var r := [[s[0]] + rest[0]] + rest[1..];
        assert Split(s) == r;
        if |rest| == 1 {
          assert s == [s[0]] + s[1..];
        } else {
          assert r[1..] == rest[1..];
          assert Join(rest) == rest[0] + " " + Join(rest[1..]);
          assert s == [s[0]] + s[1..];
        }
        forall i | 0 <= i < |r| ensures ' ' !in r[i] {
          if i > 0 {
            assert r[i] == rest[i];
          }
        }
      }
    }
  }

  lemma {:induction false} SplitWord(w: string)
    requires ' ' !in w
    ensures Split(w) == [w]
    decreases |w|
  {
    if w != [] {
      SplitWord(w[1..]);
      assert [w[0]] + w[1..] == w;
    }
  }

  /** A word followed by a space splits into that word and the pieces of the rest. */
  lemma {:induction false} SplitAfterWord(w: string, t: string)
    requires ' ' !in w
    ensures Split(w + " " + t) == [w] + Split(t)
    decreases |w|
  {
    if w == [] {
      assert w + " " + t == [' '] + t;
      assert (w + " " + t)[1..] == t;
    } else {
      SplitAfterWord(w[1..], t);
      assert (w + " " + t)[1..] == w[1..] + " " + t;
      assert [w[0]] + w[1..] == w;
    }
  }

  predicate StartsWith(s: string, prefix: string)
  {
    |prefix| <= |s| && s[..|prefix|] == prefix
  }

  /** The token `protect` reads: the second space-separated piece of a truthy header
      that starts with `Bearer`; nothing otherwise. */
  function ExtractToken(header: Option<string>): (token: Option<string>)
    ensures token.Some? ==> Truthy(header) && StartsWith(header.value, "Bearer")
    ensures token.Some? ==> ' ' !in token.value
  {
    if Truthy(header) && StartsWith(header.value, "Bearer") then
      var pieces := Split(header.value);
      SplitJoin(header.value);
      if |pieces| > 1 then Some(pieces[1]) else None
    else None
  }

  /** The header the client sends, `Bearer <token>`, yields the token back. */
  lemma BearerRoundTrip(token: string)
    requires ' ' !in token
    ensures ExtractToken(Some("Bearer " + token)) == Some(token)
  {
    SplitAfterWord("Bearer", token);
    SplitWord(token);
    assert "Bearer " + token == "Bearer" + " " + token;
    assert Split("Bearer " + token) == ["Bearer", token];
    assert ("Bearer " + token)[..6] == "Bearer";
  }

  /** A header with another scheme never yields a token. */
  lemma OtherSchemeRejected(scheme: string, token: string)
    requires |scheme| >= 6 && scheme[..6] != "Bearer"
    ensures ExtractToken(Some(scheme + " " + token)) == None
  {
    assert (scheme + " " + token)[..6] == scheme[..6];
  }

  /** jwt verification: the user id a token was issued for, or nothing for a bad or expired token. */
  type Verifier = string -> Option<int>

  /** A request as the guards see it. */
  class Request {
    var authorization: Option<string>
    var user: Option<Profile.ProfileView>

    constructor (authorization: Option<string>)
      ensures this.authorization == authorization && user.None?
    {
      this.authorization := authorization;
      user := None;
    }
  }

  datatype Outcome = Next | Reject(status: int, message: string)

  const NoTokenMessage := "Không có quyền truy cập. Vui lòng đăng nhập."
  const BadTokenMessage := "Token không hợp lệ hoặc đã hết hạn."
  const UnknownUserMessage := "Người dùng không tồn tại."

  /** True when the request carries a token that verifies to a user that exists. */
  predicate Authenticates(header: Option<string>, users: map<int, User>, verify: Verifier)
  {
    Truthy(ExtractToken(header)) && verify(ExtractToken(header).value).Some? &&
    verify(ExtractToken(header).value).value in users
  }

  /** protect: 401 for a missing token, a token that does not verify, or an unknown
      user, without touching the request; otherwise the user, role in its frontend
      form, is attached to the request and the handler runs. */
  method Protect(req: Request, users: map<int, User>, verify: Verifier) returns (outcome: Outcome)
    modifies req
    ensures outcome.Next? <==> Authenticates(old(req.authorization), users, verify)
    ensures !Truthy(ExtractToken(old(req.authorization))) ==> outcome == Reject(401, NoTokenMessage)
    ensures var token := ExtractToken(old(req.authorization));
      Truthy(token) && verify(token.value).None? ==> outcome == Reject(401, BadTokenMessage)
    ensures var token := ExtractToken(old(req.authorization));
      Truthy(token) && verify(token.value).Some? && verify(token.value).value !in users ==> outcome == Reject(401, UnknownUserMessage)
    ensures outcome.Reject? ==> outcome.status == 401 && unchanged(req)
    ensures outcome.Next? ==>
      var id := verify(ExtractToken(old(req.authorization)).value).value;
      req.user == Some(Profile.ProfileOf(id, users[id])) && req.user.value.role == FrontendRole(users[id].role) &&
      req.authorization == old(req.authorization)
  {
    var token := ExtractToken(req.authorization);
    if !Truthy(token) {
      return Reject(401, NoTokenMessage);
    }
    var decoded := verify(token.value);
    if decoded.None? {
      return Reject(401, BadTokenMessage);
    }
    if decoded.value !in users {
      return Reject(401, UnknownUserMessage);
    }
    req.user := Some(Profile.ProfileOf(decoded.value, users[decoded.value]));
    return Next;
  }

  /** authorize(...roles): the handler runs iff the attached role is listed; 403 otherwise. */
  function Authorize(roles: seq<string>, user: Profile.ProfileView): (outcome: Outcome)
    ensures outcome.Next? <==> user.role in roles
    ensures outcome.Reject? ==> outcome.status == 403
  {
    if user.role in roles then Next
    else Reject(403, "Role '" + user.role + "' không có quyền truy cập tài nguyên này.")
  }

  /** What the routes' role lists admit, in terms of the stored role: `authorize('seller')`
      admits exactly stored sellers, `authorize('buyer')` exactly stored customers (and
      stored 'buyer'), and the cart's `authorize('buyer', 'seller', 'customer')` the same
      plus sellers; its 'customer' never matches, since protect reports customers as
      buyers. */
  lemma RouteRoles(id: int, u: User)
    ensures Authorize(["seller"], Profile.ProfileOf(id, u)).Next? <==> u.role == "seller"
    ensures Authorize(["buyer"], Profile.ProfileOf(id, u)).Next? <==> u.role == "customer" || u.role == "buyer"
    ensures Authorize(["buyer", "seller", "customer"], Profile.ProfileOf(id, u)).Next? <==>
      u.role == "customer" || u.role == "buyer" || u.role == "seller"
    ensures Profile.ProfileOf(id, u).role != "customer"
  {
  }
}
