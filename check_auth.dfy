/** backend/middleware/check-auth.js: the token check in front of the
    protected place routes. Its only effect, the `req.userData` it attaches,
    is returned as part of the decision. */
module CheckAuth {
  import opened Wrappers
  import opened HttpErrors
  import opened Crypto
  import opened Routing

  /** `s.split(" ")`: the pieces between single spaces, empty ones included. */
  function Split(s: string): (r: seq<string>)
    ensures |r| >= 1
    // no piece holds a space, and there is more than one piece exactly when s has a space
    ensures forall i :: 0 <= i < |r| ==> ' ' !in r[i]
    ensures |r| >= 2 <==> ' ' in s
    decreases |s|
  {
    if s == [] then [""]
    else if s[0] == ' ' then [""] + Split(s[1..])
    else
      var rest := Split(s[1..]);
      [[s[0]] + rest[0]] + rest[1..]
  }

  /** `ws.join(" ")`. */
  function Join(ws: seq<string>): string
    requires |ws| >= 1
  {
    if |ws| == 1 then ws[0] else ws[0] + " " + Join(ws[1..])
  }

  lemma {:induction false} SplitWord(w: string)
    requires ' ' !in w
    ensures Split(w) == [w]
  {
    if w != [] {
      SplitWord(w[1..]);
      assert [w[0]] + w[1..] == w;
    }
  }

  lemma {:induction false} SplitFirstWord(w: string, rest: string)
    requires ' ' !in w
    ensures Split(w + " " + rest) == [w] + Split(rest)
  {
    if w == [] {
      assert w + " " + rest == [' '] + rest;
    } else {
      SplitFirstWord(w[1..], rest);
      assert (w + " " + rest)[1..] == w[1..] + " " + rest;
      assert [w[0]] + w[1..] == w;
    }
  }

  /** Splitting undoes joining, for words without spaces. */
  lemma {:induction false} SplitJoin(ws: seq<string>)
    requires |ws| >= 1
    requires forall i :: 0 <= i < |ws| ==> ' ' !in ws[i]
    ensures Split(Join(ws)) == ws
  {
    if |ws| == 1 {
      SplitWord(ws[0]);
    } else {
      SplitFirstWord(ws[0], Join(ws[1..]));
      SplitJoin(ws[1..]);
    }
  }

  /** `authorization.split(" ")[1]`; `None` is JavaScript's `undefined`. */
  function BearerToken(authorization: string): (token: Option<string>)
    // a header without a space has no second piece
    ensures token.None? <==> ' ' !in authorization
    // the token is the single word after the first space
    ensures token.Some? ==> ' ' !in token.value && token.value == Split(authorization)[1]
  {
    var words := Split(authorization);
    if |words| >= 2 then Some(words[1]) else None
  }

  /** `req.userData`. */
  datatype UserData = UserData(userId: string)

  /** `next()`, `next()` after setting `req.userData`, or `next(error)`. */
  datatype Decision = Proceed | Authenticated(userData: UserData) | Rejected(error: HttpError)

  /** The one error every failure path produces. */
  const AUTH_FAILED := HttpError("Authentication failed!", 403)

  /** The middleware, for a request with the given method and Authorization
      header, against the token library and the signing key. */
  function Authenticate(verb: Verb, authorization: Option<string>, jwt: Jwt, secret: string): (r: Decision)
    // a pre-flight request passes untouched, without user data
    ensures verb == Options <==> r == Proceed
    // every failure is the same error
    ensures r.Rejected? ==> r.error == AUTH_FAILED
    ensures verb != Options && authorization == None ==> r == Rejected(AUTH_FAILED)
    // success exactly when the second word is present, non-empty and verifies;
    // the first word is never looked at
    ensures r.Authenticated? <==>
      && verb != Options
      && authorization.Some?
      && BearerToken(authorization.value).Some?
      && BearerToken(authorization.value).value != ""
      && jwt.verify(BearerToken(authorization.value).value, secret).Some?
    ensures r.Authenticated? ==>
      r.userData.userId == jwt.verify(BearerToken(authorization.value).value, secret).value.userId
  {
    if verb == Options then Proceed
    else if authorization.None? then Rejected(AUTH_FAILED)
    else
      match BearerToken(authorization.value)
      case None => Rejected(AUTH_FAILED)
      case Some(token) =>
        if token == "" then Rejected(AUTH_FAILED)
        else
          match jwt.verify(token, secret)
          case None => Rejected(AUTH_FAILED)
          case Some(claims) => Authenticated(UserData(claims.userId))
  }

  /** Any scheme word followed by a verifying token is accepted: the word
      `Bearer` is not required. */
  lemma AnySchemeAccepted(verb: Verb, scheme: string, token: string, jwt: Jwt, secret: string)
    requires verb != Options
    requires ' ' !in scheme && ' ' !in token && token != ""
    requires jwt.verify(token, secret).Some?
    ensures Authenticate(verb, Some(scheme + " " + token), jwt, secret)
      == Authenticated(UserData(jwt.verify(token, secret).value.userId))
  {
    SplitJoin([scheme, token]);
  }

  /** A header that is a single word, `Bearer` alone say, is refused. */
  lemma SingleWordRejected(verb: Verb, word: string, jwt: Jwt, secret: string)
    requires verb != Options && ' ' !in word
    ensures Authenticate(verb, Some(word), jwt, secret) == Rejected(AUTH_FAILED)
  {
    SplitWord(word);
  }

  /** A token signed over `{ userId, email }` with the signing key is accepted
      under `Bearer`, and the request then carries that user id. */
  lemma IssuedTokenAccepted(verb: Verb, jwt: Jwt, secret: string, claims: Claims)
    requires verb != Options && Sound(jwt)
    requires var token := jwt.sign(claims, secret, TOKEN_LIFETIME); token != "" && ' ' !in token
    ensures Authenticate(verb, Some("Bearer " + jwt.sign(claims, secret, TOKEN_LIFETIME)), jwt, secret)
      == Authenticated(UserData(claims.userId))
  {
    var token := jwt.sign(claims, secret, TOKEN_LIFETIME);
    assert jwt.verify(token, secret) == Some(claims);
    assert "Bearer " + token == "Bearer" + " " + token;
    AnySchemeAccepted(verb, "Bearer", token, jwt, secret);
  }
}
