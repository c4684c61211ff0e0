# People service: token and group authorization, modelled in Dafny

This project models the decision logic of the people router of a small HTTP service
(`app/routers/people.py`). The service sits in front of a Cognito user directory. The
model covers:

- reading the bearer token out of the `Authorization` header;
- choosing the signing key from the JSON Web Key Set by the token's key identifier
  (`kid`, section 4.5 of RFC 7517 and section 4.1.4 of RFC 7515);
- resolving the caller's groups, where every failure becomes a 401;
- the `proposers` group gate on the jury listing;
- projecting directory records into the `UserBasic` and `User` response models.

Each step is a pure function over datatypes. The one `for` statement of the source,
in the jury listing, is a method with a `for` loop. The collaborators are inputs:

- `Jwt.JwtLib` is the JWT library. It parses a token's unverified header and decodes
  the token against a key. Signature, expiry and key conversion are one opaque
  verification result supplied by the caller.
- `Cognito.Directory` is the directory client: `admin_get_user`,
  `admin_list_groups_for_user` and `list_users_in_group`. Each answers or fails.
- The key list `public_keys` is an immutable `seq<Jwk>`. The service fetches it once,
  at start-up.

Python exceptions are modelled as `Err` values. `decode_token` distinguishes the
`HTTPException`s it raises itself (`Auth.Failure.Http`) from every other exception
(`Auth.Failure.Raised`, with a `Cause`). The endpoints return `Result<_, HttpError>`,
where `HttpError` is the status and detail FastAPI would send.

Files: `results.dfy` (Option, Result, HttpError), `pystr.dfy` (Python's
`str.startswith` and `str.split`), `schemas.dfy` (response models), `jwt.dfy` and
`cognito.dfy` (the collaborators), `auth.dfy` (`decode_token`, key selection,
`get_user_groups`), `people.dfy` (attribute maps, the jury listing, `get_user`).

Behaviour of the code worth knowing:

- The code reports every token and group-resolution failure as the single 401
  "Invalid token or user not found", so a caller cannot tell an unknown key from an
  expired token or a bad signature.
- `get_user` reports every failure as 500 "User not found". This includes a user who
  does not exist.
- The jury endpoint's docstring names a `proposals` group. The code checks
  `proposers`, and so does the model.
- The `Bearer ` prefix test is case-sensitive. `bearer x` is refused, although
  RFC 6750 (section 2.1) and RFC 7235 treat the scheme name case-insensitively.
- `split(' ')[1]` takes the text up to the next space. `Bearer  x` (two spaces) yields
  the empty token.
- While searching for the key, a key without a `kid` member raises `KeyError` if it
  comes before the matching key. The caller then gets a 401 even if a later key
  matches. RFC 7517 makes `kid` optional.
- A matched key always has a `kid` member, so it is never an empty (falsy) dict. The
  `if not public_key` test therefore fires exactly when no key matched.

## Model

| member | source | states |
|---|---|---|
| `PyStr.StartsWith` | app/routers/people.py:20 | `startswith` holds iff the prefix fits and agrees with the string character by character, so the test is exact and case-sensitive |
| `People.Get` | app/routers/people.py:112-113 | `dict.get(key, default)`: the mapped value when the key is present, the default otherwise |
| `PyStr.Split` | app/routers/people.py:23 | `split(' ')` always yields at least one field; no field contains the separator; the first field is the longest separator-free prefix of the string |
| `PyStr.JoinSplit` | app/routers/people.py:23 | joining the fields of a split with the separator restores the string |
| `PyStr.SplitJoin` | app/routers/people.py:23 | splitting a join of separator-free fields restores the fields, so split and join are inverse |
| `PyStr.SplitFirstField` | app/routers/people.py:23 | a separator-free field followed by the separator is split off as the first field |
| `Auth.ExtractToken` | app/routers/people.py:20-23 | for a header starting with `Bearer `, the token is the text after the prefix up to the next space or the end |
| `Auth.ExtractTokenOf` | app/routers/people.py:23 | `Bearer x` yields `x`; `Bearer x more` also yields `x`, dropping everything after the further space |
| `Auth.FindKeyFrom` | app/routers/people.py:27 | the first-match search over the key list: a found key has the wanted `kid`, a key without `kid` stops the search with an error, and every key passed over has a different `kid` |
| `Auth.FindKey` | app/routers/people.py:26-30 | the selected key is the first key whose `kid` equals the token's; "no key" exactly when every key has a `kid` and none matches; a `kid`-less key before any match is a lookup error |
| `Auth.SelectedKeyUnique` | app/routers/people.py:27 | at most one key position is the first match |
| `Auth.DecodeToken` | app/routers/people.py:19-39 | full decision table: 401 "Invalid token format" iff no exact `Bearer ` prefix, with no key lookup; unparsable header and missing `kid` raise; unknown `kid` gives 401 "Invalid token" with no verification; a selected key the token does not verify against raises; success iff the token verifies against the first matching key, returning its claims |
| `Auth.GroupNames` | app/routers/people.py:54 | the group names have the same length and order as the directory's group list |
| `Auth.GetUserGroups` | app/routers/people.py:41-56 | every failure is a 401; "No token provided" iff the header is absent or empty; otherwise any failure is "Invalid token or user not found"; the only success is the group names of the verified caller's `username` |
| `People.AttributeMap` | app/routers/people.py:100-103 | the map's keys are exactly the attribute names of the list |
| `People.AttributeMapLastWins` | app/routers/people.py:78-81 | for a duplicated name, the map holds the value of the last attribute with that name |
| `People.LastNamedExists` | app/routers/people.py:100-103 | a name that occurs in the attribute list has a last occurrence |
| `People.GetAttribute` | app/routers/people.py:112-113 | `attributes.get(key, default)` is the value of the last attribute named `key`, or `default` when no attribute has that name |
| `People.AttributeOrUnique` | app/routers/people.py:112-113 | the fallback lookup determines a single value |
| `People.GetJuryMembers` | app/routers/people.py:60-90 | 403 iff `proposers` is not among the caller's groups, whatever the directory holds; 500 iff the jury listing fails; otherwise exactly one entry per listed user, in listing order, with `id` the username and `name` the `name` attribute or the username |
| `People.JuryMembersRoute` | app/routers/people.py:59-67 | group resolution runs first and its failure, with its own detail ("No token provided" or "Invalid token or user not found"), is the route's answer unchanged; all failures are 401, 403 or 500; a jury list is returned only to a caller whose token verified against a selected key and whose groups include `proposers`; an authenticated caller gets exactly the jury endpoint's answer for its groups (the projection, 403 or 500) |
| `People.GetUser` | app/routers/people.py:92-117 | 500 "User not found" on any directory failure; otherwise `id` is the directory's username, `name` falls back to the username, `email` falls back to `''`, and the groups match the directory's list in order |

## Left out

- Signature verification, expiry checking and JWK-to-PEM conversion
  (app/routers/people.py:25, 32-37): these are library internals. They are the opaque
  `JwtLib.unverifiedHeader` and `JwtLib.decode`, which also cover PyJWT's other claim
  checks, such as audience.
- The JWKS fetch over HTTP at import time and the URL built from the environment
  (app/routers/people.py:13-17): network I/O. The key list is an input.
- The Cognito calls themselves (app/aws_client.py, and the calls in
  app/routers/people.py): they are the `Directory` input, answering `None` when the
  call raises. Pagination of `list_users_in_group` is not modelled. The code reads only
  the first page of the response, and the model's listing is that page.
- JSON values other than strings in token headers, claims, keys and attributes:
  every member is modelled as a string.
- Which exception escapes from malformed directory responses, in the jury loop, in
  `get_user` and in `get_user_groups` (a `KeyError` on `Groups` or `GroupName`, which
  the code turns into a 401): the model's directory records are well-formed, so the
  only failure there is the directory call's.
- The bulk user endpoint: only its request schema exists (app/schemas/schemas.py:13-14).
  No handler is part of this model.
- FastAPI application setup, CORS, router mounting, the database lifespan
  (app/main.py) and settings loading (app/core/config.py): framework plumbing.
- Concurrency and any key-cache refresh: the code holds a static key list and caches
  nothing.
- Logging: the code logs nothing when it swallows an exception.
