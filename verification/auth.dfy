/** The request guards: the strict one, which takes a bearer token apart and
    checks its claims, and the optional one, which reads a user id straight
    off the token. Token decoding is an environment function; signatures are
    never checked. */
module Auth {
  import opened Common

  /** The claims of a decoded token that the guard reads; `None` is a claim
      that is absent. */
  datatype Claims = Claims(sub: Option<string>, userId: Option<string>, id: Option<string>,
                           iss: Option<string>, email: Option<string>)

  /** What `jwt.decode` does with a token: throws, gives nothing, or gives claims. */
  datatype Decoded = DecodeThrew | NothingDecoded | Decoded(claims: Claims)

  /** The user the strict guard attaches to the request. */
  datatype User = User(id: string, email: Option<string>, token: string, claims: Claims)

  /** How the strict guard ends: the request goes on with a user, or is
      answered with an HTTP status, a message and an error code. */
  datatype Verdict = Admitted(user: User) | Rejected(status: int, message: string, code: string)

  const BearerPrefix := "Bearer "

  /** The token in an Authorization header: what follows an exact leading
      "Bearer ", otherwise the whole header. */
  function TokenOf(header: string): string {
    if StartsWith(header, BearerPrefix) then header[|BearerPrefix|..] else header
  }

  /** The token is what is left of the header once "Bearer " is taken off;
      it is empty only for a header that is empty or exactly "Bearer ". */
  lemma TokenOfProperties(header: string)
    ensures StartsWith(header, BearerPrefix) ==> BearerPrefix + TokenOf(header) == header
    ensures !StartsWith(header, BearerPrefix) ==> TokenOf(header) == header
    ensures TokenOf(header) == "" <==> header == "" || header == BearerPrefix
  {
    if StartsWith(header, BearerPrefix) {
      assert header == header[..|BearerPrefix|] + header[|BearerPrefix|..];
    }
  }

  /** `x || y` on optional text: the first one that is present and non-empty. */
  function FirstTruthy(x: Option<string>, y: Option<string>): Option<string> {
    if x.Some? && x.value != "" then x else y
  }

  /** `decoded.sub || decoded.userId || decoded.id`, when any is truthy. */
  function UserIdOf(c: Claims): Option<string> {
    var r := FirstTruthy(FirstTruthy(c.sub, c.userId), c.id);
    if r.Some? && r.value != "" then r else None
  }

  /** The claimed user id is the first non-empty one of sub, userId and id,
      in that order, and there is one exactly when one of them is non-empty. */
  lemma UserIdOfProperties(c: Claims)
    ensures UserIdOf(c).Some? <==> (c.sub.Some? && c.sub.value != "") || (c.userId.Some? && c.userId.value != "")
                                   || (c.id.Some? && c.id.value != "")
    ensures UserIdOf(c).Some? ==> UserIdOf(c).value != ""
    ensures c.sub.Some? && c.sub.value != "" ==> UserIdOf(c) == c.sub
    ensures !(c.sub.Some? && c.sub.value != "") && c.userId.Some? && c.userId.value != "" ==> UserIdOf(c) == c.userId
    ensures !(c.sub.Some? && c.sub.value != "") && !(c.userId.Some? && c.userId.value != "") ==>
      (UserIdOf(c).Some? ==> UserIdOf(c) == c.id)
  {
  }

  /** A present, non-empty issuer must mention "supabase"; an absent one passes. */
  predicate IssuerAccepted(iss: Option<string>) {
    iss.None? || iss.value == "" || Contains(iss.value, "supabase")
  }

  /** `authenticateAndAuthorize` on the Authorization header `header`, with
      `decode` standing for `jwt.decode`. */
  function Authenticate(header: Option<string>, decode: string -> Decoded): Verdict {
    if header.None? || header.value == "" then
      Rejected(401, "Authorization header is required", "MISSING_AUTH_HEADER")
    else
      var token := TokenOf(header.value);
      if token == "" then Rejected(401, "Token is required", "MISSING_TOKEN")
      else match decode(token)
        case DecodeThrew => Rejected(401, "Invalid token format", "INVALID_TOKEN_FORMAT")
        case NothingDecoded => Rejected(401, "Could not decode token", "TOKEN_DECODE_ERROR")
        case Decoded(c) =>
          var userId := UserIdOf(c);
          if userId.None? then Rejected(401, "User ID not found in token", "INVALID_TOKEN_PAYLOAD")
          else if !IssuerAccepted(c.iss) then Rejected(401, "Token not issued by Supabase", "INVALID_ISSUER")
          else Admitted(User(userId.value, c.email, token, c))
  }

  /** Every refusal is a 401, and each guard has its own code: no header;
      a header that leaves no token; a token the decoder throws on or gives
      nothing for; claims without a user id; a foreign issuer. A request is
      let through exactly when all the guards pass, and then the user's id
      is the claimed id and the token is the bearer token. */
  lemma AuthenticateProperties(header: Option<string>, decode: string -> Decoded)
    ensures Authenticate(header, decode).Rejected? ==> Authenticate(header, decode).status == 401
    ensures (header.None? || header.value == "") ==> Authenticate(header, decode).code == "MISSING_AUTH_HEADER"
    ensures header == Some(BearerPrefix) ==> Authenticate(header, decode).code == "MISSING_TOKEN"
    ensures header.Some? && TokenOf(header.value) != "" ==>
      var token := TokenOf(header.value);
      && (decode(token).DecodeThrew? ==> Authenticate(header, decode).code == "INVALID_TOKEN_FORMAT")
      && (decode(token).NothingDecoded? ==> Authenticate(header, decode).code == "TOKEN_DECODE_ERROR")
      && (decode(token).Decoded? && UserIdOf(decode(token).claims).None? ==>
            Authenticate(header, decode).code == "INVALID_TOKEN_PAYLOAD")
      && (decode(token).Decoded? && UserIdOf(decode(token).claims).Some? && !IssuerAccepted(decode(token).claims.iss) ==>
            Authenticate(header, decode).code == "INVALID_ISSUER")
    ensures Authenticate(header, decode).Admitted? <==>
      && header.Some? && TokenOf(header.value) != ""
      && decode(TokenOf(header.value)).Decoded?
      && UserIdOf(decode(TokenOf(header.value)).claims).Some?
      && IssuerAccepted(decode(TokenOf(header.value)).claims.iss)
    ensures Authenticate(header, decode).Admitted? ==>
      var user := Authenticate(header, decode).user;
      && user.token == TokenOf(header.value)
      && decode(user.token) == Decoded(user.claims)
      && Some(user.id) == UserIdOf(user.claims)
      && user.email == user.claims.email
  {
    if header == Some(BearerPrefix) {
      TokenOfProperties(BearerPrefix);
    }
  }

  /** The user `optionalAuth` attaches: an id and the token it came from. */
  datatype Guest = Guest(id: string, token: string)

  /** `optionalAuth`: never refuses; the user is the text of the token
      before its first "_" (the whole token when it has none), or nobody
      when there is no header, no token, or nothing before the "_". */
  function OptionalAuth(header: Option<string>): Option<Guest> {
    if header.None? || header.value == "" then None
    else
      var token := TokenOf(header.value);
      if token == "" then None
      else
        var userId := if Contains(token, "_") then Split(token, '_')[0] else token;
        if userId == "" then None else Some(Guest(userId, token))
  }

  /** `s.includes(c)` for a one-character c is membership. */
  lemma ContainsChar(s: string, c: char)
    ensures Contains(s, [c]) <==> c in s
  {
    if c in s {
      var i :| 0 <= i < |s| && s[i] == c;
      assert s[i..i + 1] == [c];
      OccursAtContains(s, [c], i);
    }
    if Contains(s, [c]) {
      var i := ContainsOccurs(s, [c]);
      assert s[i] == s[i..i + 1][0];
    }
  }

  /** The first piece of a split is the text before the first separator. */
  lemma SplitFirst(s: string, c: char)
    ensures Split(s, c)[0] == s[..IndexOf(s, c)]
  {
  }

  /** The optional user's id is a non-empty prefix of the token with no "_"
      in it, which runs up to the token's first "_" or to its end. */
  lemma OptionalAuthProperties(header: Option<string>)
    ensures (header.None? || TokenOf(header.value) == "") ==> OptionalAuth(header).None?
    ensures OptionalAuth(header).Some? ==>
      var g := OptionalAuth(header).value;
      && g.token == TokenOf(header.value)
      && g.id != "" && '_' !in g.id && StartsWith(g.token, g.id)
      && (|g.id| < |g.token| ==> g.token[|g.id|] == '_')
    ensures header.Some? && TokenOf(header.value) != "" ==>
      var token := TokenOf(header.value);
      (OptionalAuth(header).None? <==> token[0] == '_')
  {
    if header.Some? && header.value != "" {
      var token := TokenOf(header.value);
      if token != "" {
        ContainsChar(token, '_');
        SplitFirst(token, '_');
        IndexOfFirst(token, '_');
        var k := IndexOf(token, '_');
        if '_' in token {
          assert k == 0 <==> token[0] == '_';
        } else {
          assert token[0] != '_';
        }
      }
    }
  }
}
