/**
  * Authentication of a caller: reading the bearer token out of the `Authorization`
  * header, choosing the signing key by its key identifier (`kid`), and resolving the
  * caller's groups. Every failure of group resolution is reported as a 401.
  */
module Auth {
  import opened Results
  import opened PyStr
  import opened Jwt
  import opened Cognito

  /** The scheme prefix the header must start with, compared case-sensitively. */
  const BearerPrefix := "Bearer "

  const InvalidTokenFormat := HttpError(401, "Invalid token format")
  const InvalidToken := HttpError(401, "Invalid token")
  const NoTokenProvided := HttpError(401, "No token provided")
  const InvalidTokenOrUser := HttpError(401, "Invalid token or user not found")

  /** What `decode_token` raises: an `HTTPException` of its own, or another exception. */
  datatype Failure =
    | Http(error: HttpError)
    | Raised(cause: Cause)

  /** The exceptions other than `HTTPException` that `decode_token` can raise. */
  datatype Cause =
    | MalformedToken      // the token header cannot be parsed
    | MissingKid          // the token header has no `kid`
    | KeyWithoutKid       // a key without `kid` is met before the matching one
    | VerificationFailed  // bad signature, expired token, or unusable key

  /** The token: the second space-separated field of the header. */
  function ExtractToken(authorization: string): (token: string)
    requires StartsWith(authorization, BearerPrefix)
    ensures token <= authorization[|BearerPrefix|..]
    ensures ' ' !in token
    ensures |BearerPrefix| + |token| == |authorization| || authorization[|BearerPrefix| + |token|] == ' '
  {
    var rest := authorization[|BearerPrefix|..];
    assert authorization == "Bearer" + [' '] + rest;
    SplitFirstField("Bearer", ' ', rest);
    Split(authorization, ' ')[1]
  }

  /** `"Bearer x"` passes on `x`; whatever follows a further space is dropped. */
  lemma ExtractTokenOf(token: string, more: string)
    requires ' ' !in token
    ensures ExtractToken(BearerPrefix + token) == token
    ensures ExtractToken(BearerPrefix + token + " " + more) == token
  {
    var h1 := BearerPrefix + token;
    assert h1[|BearerPrefix|..] == token;
    var h2 := BearerPrefix + token + " " + more;
    assert h2[|BearerPrefix|..] == token + " " + more;
    assert h2[|BearerPrefix| + |token|] == ' ';
    forall k | |BearerPrefix| <= k < |BearerPrefix| + |token| ensures h2[k] != ' ' {
      assert h2[k] == token[k - |BearerPrefix|];
    }
  }

  /** Every key in `keys[lo..hi]` has a `kid`, and none of them is `kid`. */
  ghost predicate AllMismatch(keys: seq<Jwk>, kid: string, lo: nat, hi: nat)
    requires hi <= |keys|
  {
    forall j :: lo <= j < hi ==> "kid" in keys[j] && keys[j]["kid"] != kid
  }

  /** `keys[i]` is the key the first-match search returns for `kid`. */
  ghost predicate SelectedKey(keys: seq<Jwk>, kid: string, i: int) {
    0 <= i < |keys| && "kid" in keys[i] && keys[i]["kid"] == kid && AllMismatch(keys, kid, 0, i)
  }

  /** The outcome of the first-match search through the key list. */
  datatype KeySearch =
    | Found(index: nat)       // the first key whose `kid` equals the token's
    | NotFound                // no key has that `kid`
    | KidMissing(index: nat)  // reading `kid` of this key raised before any match

  /** The search of `keys[start..]`, in list order. */
  function FindKeyFrom(keys: seq<Jwk>, kid: string, start: nat): (r: KeySearch)
    requires start <= |keys|
    ensures r.Found? ==> start <= r.index < |keys| && "kid" in keys[r.index] && keys[r.index]["kid"] == kid
    ensures r.KidMissing? ==> start <= r.index < |keys| && "kid" !in keys[r.index]
    ensures AllMismatch(keys, kid, start, if r.NotFound? then |keys| else r.index)
    decreases |keys| - start
  {
    if start == |keys| then NotFound
    else if "kid" !in keys[start] then KidMissing(start)
    else if keys[start]["kid"] == kid then Found(start)
    else FindKeyFrom(keys, kid, start + 1)
  }

  /** The signing-key selection: the first key of the list whose `kid` is `kid`. */
  function FindKey(keys: seq<Jwk>, kid: string): (r: KeySearch)
    ensures r.Found? ==> SelectedKey(keys, kid, r.index)
    ensures r.KidMissing? ==> r.index < |keys| && "kid" !in keys[r.index] && AllMismatch(keys, kid, 0, r.index)
    ensures r.NotFound? <==> AllMismatch(keys, kid, 0, |keys|)
  {
    FindKeyFrom(keys, kid, 0)
  }

  /** At most one position of the key list is the selected one. */
  lemma SelectedKeyUnique(keys: seq<Jwk>, kid: string, i: int, j: int)
    requires SelectedKey(keys, kid, i) && SelectedKey(keys, kid, j)
    ensures i == j
  {
  }

  /**
    * `claims` is what a successful `decode_token` may return: the header is a bearer
    * header, its token names a `kid`, the first key with that `kid` exists, and the
    * token verifies against it with these claims.
    */
  ghost predicate Verified(authorization: string, keys: seq<Jwk>, jwt: JwtLib, claims: Claims) {
    StartsWith(authorization, BearerPrefix) &&
    var token := ExtractToken(authorization);
    var header := jwt.unverifiedHeader(token);
    header.Some? && "kid" in header.value &&
    exists i :: SelectedKey(keys, header.value["kid"], i) && jwt.decode(token, keys[i]) == Some(claims)
  }

  /** The token's header parses and names a `kid`, which the key search gives `outcome` for. */
  ghost predicate KeyLookup(authorization: string, keys: seq<Jwk>, jwt: JwtLib, outcome: KeySearch -> bool) {
    StartsWith(authorization, BearerPrefix) &&
    var header := jwt.unverifiedHeader(ExtractToken(authorization));
    header.Some? && "kid" in header.value && outcome(FindKey(keys, header.value["kid"]))
  }

  /**
    * `decode_token`: the claims of the bearer token in `authorization`, verified
    * against the first key of `keys` whose `kid` is the token's.
    */
  function DecodeToken(authorization: string, keys: seq<Jwk>, jwt: JwtLib): (r: Result<Claims, Failure>)
    // Anything that is not a bearer header is refused before any key is looked at.
    ensures r == Err(Http(InvalidTokenFormat)) <==> !StartsWith(authorization, BearerPrefix)
    ensures r == Err(Raised(MalformedToken)) <==>
      StartsWith(authorization, BearerPrefix) && jwt.unverifiedHeader(ExtractToken(authorization)).None?
    ensures r == Err(Raised(MissingKid)) <==>
      StartsWith(authorization, BearerPrefix) &&
      (var header := jwt.unverifiedHeader(ExtractToken(authorization)); header.Some? && "kid" !in header.value)
    // An unknown `kid` is refused with a 401 and no verification is attempted.
    ensures r == Err(Http(InvalidToken)) <==> KeyLookup(authorization, keys, jwt, (s: KeySearch) => s.NotFound?)
    ensures r == Err(Raised(KeyWithoutKid)) <==> KeyLookup(authorization, keys, jwt, (s: KeySearch) => s.KidMissing?)
    // Every error is one of these six; with the iffs above, a selected key the token does
    // not verify against gives `Raised(VerificationFailed)`.
    ensures r.Err? ==>
      || r.error == Http(InvalidTokenFormat) || r.error == Http(InvalidToken)
      || r.error == Raised(MalformedToken) || r.error == Raised(MissingKid)
      || r.error == Raised(KeyWithoutKid) || r.error == Raised(VerificationFailed)
    ensures r.Ok? ==> Verified(authorization, keys, jwt, r.value)
    ensures forall claims :: Verified(authorization, keys, jwt, claims) ==> r == Ok(claims)
  {
    if !StartsWith(authorization, BearerPrefix) then Err(Http(InvalidTokenFormat))
    else
      var token := ExtractToken(authorization);
      match jwt.unverifiedHeader(token)
      case None => Err(Raised(MalformedToken))
      case Some(header) =>
        if "kid" !in header then Err(Raised(MissingKid))
        else
          var search := FindKey(keys, header["kid"]);
          match search
          case KidMissing(_) => Err(Raised(KeyWithoutKid))
          case NotFound => Err(Http(InvalidToken))
          case Found(i) =>
            match jwt.decode(token, keys[i])
            case None => Err(Raised(VerificationFailed))
            case Some(claims) => Ok(claims)
  }

  /** The group names of a directory group list, in the directory's order. */
  function GroupNames(groups: seq<Group>): (names: seq<string>)
    ensures |names| == |groups|
    ensures forall i :: 0 <= i < |groups| ==> names[i] == groups[i].groupName
  {
    if |groups| == 0 then [] else [groups[0].groupName] + GroupNames(groups[1..])
  }

  /** The caller is authenticated by `claims` and the directory lists `groups` for its `username`. */
  ghost predicate CallerGroups(authorization: string, keys: seq<Jwk>, jwt: JwtLib, dir: Directory,
                               claims: Claims, groups: seq<Group>) {
    Verified(authorization, keys, jwt, claims) && "username" in claims &&
    dir.adminListGroupsForUser(claims["username"]) == Some(groups)
  }

  /**
    * `get_user_groups`: the caller's group names. A missing or empty header is refused
    * as such; every other failure, including those `decode_token` reports with its own
    * 401, becomes the one 401 "Invalid token or user not found".
    */
  function GetUserGroups(authorization: Option<string>, keys: seq<Jwk>, jwt: JwtLib, dir: Directory)
    : (r: Result<seq<string>, HttpError>)
    ensures r.Err? ==> r.error.status == 401
    ensures r == Err(NoTokenProvided) <==> authorization == None || authorization == Some("")
    ensures r.Err? ==> r.error == NoTokenProvided || r.error == InvalidTokenOrUser
    ensures r.Ok? ==>
      && authorization.Some?
      && exists claims, groups ::
           CallerGroups(authorization.value, keys, jwt, dir, claims, groups) && r.value == GroupNames(groups)
    ensures forall claims, groups ::
      (authorization.Some? && CallerGroups(authorization.value, keys, jwt, dir, claims, groups))
      ==> r == Ok(GroupNames(groups))
  {
    if authorization == None || authorization == Some("") then Err(NoTokenProvided)
    else
      match DecodeToken(authorization.value, keys, jwt)
      case Err(_) => Err(InvalidTokenOrUser)
      case Ok(claims) =>
        if "username" !in claims then Err(InvalidTokenOrUser)
        else
          match dir.adminListGroupsForUser(claims["username"])
          case None => Err(InvalidTokenOrUser)
          case Some(groups) =>
            assert CallerGroups(authorization.value, keys, jwt, dir, claims, groups);
            Ok(GroupNames(groups))
  }
}
