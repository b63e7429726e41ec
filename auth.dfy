/** The `protect` and `adminOnly` middleware: the bearer token is taken from
    the Authorization header, decoded by the token verifier (a parameter of
    the model: signature checking is not modelled), and the caller's id is
    derived from the decoded claims. */
module Auth {
  import opened Common

  /** The decoded token payload: its `id`, `_id` and `role` claims. */
  datatype Claims = Claims(id: Option<string>, mongoId: Option<string>, role: Option<string>)

  /** What `protect` leaves on the request: `req.user` and `req.userId`. */
  datatype Caller = Caller(claims: Claims, userId: Id)

  /** A middleware decision: call `next` with a value, or reply with an error. */
  datatype Gate<T> = Pass(value: T) | Deny(code: int, message: string)

  /** The position of the first `c` in `s`, if any. */
  function IndexOf(s: string, c: char): (r: Option<nat>)
    ensures r.Some? ==> r.value < |s| && s[r.value] == c && c !in s[..r.value]
    ensures r.None? ==> c !in s
  {
    if |s| == 0 then None
    else if s[0] == c then Some(0)
    else match IndexOf(s[1..], c)
      case None => None
      case Some(k) => Some(k + 1)
  }

  /** `s.split(sep)`: the maximal pieces of `s` between occurrences of `sep`. */
  function Split(s: string, sep: char): (parts: seq<string>)
    ensures |parts| >= 1
    ensures forall i :: 0 <= i < |parts| ==> sep !in parts[i]
    decreases |s|
  {
    match IndexOf(s, sep)
    case None => [s]
    case Some(i) => [s[..i]] + Split(s[i + 1..], sep)
  }

  /** `parts.join(sep)`. */
  function Join(parts: seq<string>, sep: char): string
    requires |parts| >= 1
  {
    if |parts| == 1 then parts[0] else parts[0] + [sep] + Join(parts[1..], sep)
  }

  /** Splitting and joining again on the same separator gives back the string. */
  lemma {:induction false} JoinSplit(s: string, sep: char)
    ensures Join(Split(s, sep), sep) == s
    decreases |s|
  {
    var k := IndexOf(s, sep);
    if k.Some? {
      var i := k.value;
      var rest := s[i + 1..];
      var parts := Split(s, sep);
      assert parts == [s[..i]] + Split(rest, sep);
      assert parts[1..] == Split(rest, sep);
      JoinSplit(rest, sep);
      assert Join(parts, sep) == s[..i] + [sep] + rest;
      assert s == s[..i] + [sep] + rest;
    }
  }

  /** The first occurrence is found wherever it is. */
  lemma {:induction false} IndexOfFirst(s: string, c: char, k: nat)
    requires k < |s| && s[k] == c && c !in s[..k]
    ensures IndexOf(s, c) == Some(k)
    decreases k
  {
    if k > 0 {
      assert s[0] != c by { assert s[0] == s[..k][0]; }
      assert s[1..][..k - 1] == s[..k][1..];
      IndexOfFirst(s[1..], c, k - 1);
    }
  }

  /** The token `protect` reads: the second space-separated field of a
      header that starts with "Bearer". */
  function BearerToken(header: Option<string>): (token: Option<string>)
    ensures token.Some? ==> header.Some? && "Bearer" <= header.value
    ensures token.Some? ==> ' ' !in token.value
  {
    if header.Some? && "Bearer" <= header.value then
      var parts := Split(header.value, ' ');
      if |parts| > 1 then Some(parts[1]) else None
    else None
  }

  /** The header a client builds, "Bearer " followed by a token without
      spaces, yields exactly that token. */
  lemma BearerTokenOfHeader(t: string)
    requires ' ' !in t
    ensures BearerToken(Some("Bearer " + t)) == Some(t)
  {
    var h := "Bearer " + t;
    assert "Bearer" <= h;
    assert h[..6] == "Bearer";
    IndexOfFirst(h, ' ', 6);
    assert h[7..] == t;
    assert IndexOf(t, ' ').None?;
    assert Split(t, ' ') == [t];
    assert Split(h, ' ') == ["Bearer", t];
  }

  /** `protect`: 401 without a usable token, 401 when the verifier rejects
      it, 401 when the claims carry no id; otherwise the caller, whose id is
      the `id` claim or, failing that, the `_id` claim. */
  function Protect(header: Option<string>, verify: string -> Option<Claims>): (g: Gate<Caller>)
    ensures !Truthy(BearerToken(header)) ==> g == Deny(401, "Not authorized, no token")
    ensures Truthy(BearerToken(header)) && verify(BearerToken(header).value).None? ==> g == Deny(401, "Token invalid")
    ensures g.Pass? <==> Truthy(BearerToken(header)) && verify(BearerToken(header).value).Some?
                         && (Truthy(verify(BearerToken(header).value).value.id)
                             || Truthy(verify(BearerToken(header).value).value.mongoId))
    ensures g.Pass? ==> g.value.userId != "" && Some(g.value.claims) == verify(BearerToken(header).value)
    ensures g.Pass? ==> g.value.userId == OrElse(g.value.claims.id, OrElse(g.value.claims.mongoId, ""))
    ensures g.Deny? ==> g.code == 401
  {
    var token := BearerToken(header);
    if !Truthy(token) then Deny(401, "Not authorized, no token")
    else match verify(token.value)
      case None => Deny(401, "Token invalid")
      case Some(claims) =>
        var userId := OrElse(claims.id, OrElse(claims.mongoId, ""));
        if userId == "" then Deny(401, "Token invalid (missing user id)")
        else Pass(Caller(claims, userId))
  }

  /** `adminOnly`: the request goes on exactly when the role claim is "admin". */
  function AdminOnly(claims: Claims): (g: Gate<()>)
    ensures g.Pass? <==> claims.role == Some("admin")
    ensures g.Deny? ==> g == Deny(403, "Access denied. Admin only.")
  {
    if claims.role == Some("admin") then Pass(()) else Deny(403, "Access denied. Admin only.")
  }

  /** The staff routes' own gate, `req.user.role !== "staff"`. */
  predicate IsStaff(claims: Claims) {
    claims.role == Some("staff")
  }
}
