/**
  * The people endpoints: the jury listing, gated on the caller's `proposers` group,
  * and the internal single-user lookup. Both project directory records through a
  * name-to-value map built from the record's attribute list.
  */
module People {
  import opened Results
  import opened Jwt
  import opened Cognito
  import opened Schemas
  import opened Auth

  /** The group a caller must belong to in order to list the jury. */
  const ProposersGroup := "proposers"

  /** The directory group whose members are listed. */
  const JuryGroup := "jury"

  const NotProposer := HttpError(403, "Only users in the proposers group can access this endpoint")
  const JuryFetchError := HttpError(500, "Error fetching jury members")
  const UserNotFound := HttpError(500, "User not found")

  /** The attribute list as a map; an entry later in the list overwrites an earlier one. */
  function AttributeMap(attrs: seq<Attribute>): (m: map<string, string>)
    ensures m.Keys == set a | a in attrs :: a.name
  {
    if |attrs| == 0 then map[]
    else
      var last := attrs[|attrs| - 1];
      assert attrs == attrs[..|attrs| - 1] + [last];
      AttributeMap(attrs[..|attrs| - 1])[last.name := last.value]
  }

  /** `m.get(key, default)`. */
  function Get(m: map<string, string>, key: string, default: string): (v: string)
    ensures key in m ==> v == m[key]
    ensures key !in m ==> v == default
  {
    if key in m then m[key] else default
  }

  /** `attrs[i]` is the last attribute named `key`. */
  ghost predicate IsLastNamed(attrs: seq<Attribute>, key: string, i: int) {
    0 <= i < |attrs| && attrs[i].name == key && forall j :: i < j < |attrs| ==> attrs[j].name != key
  }

  /**
    * `v` is the value of the attribute `key` with `default` as fallback: the value of
    * the last attribute so named, or `default` when there is none.
    */
  ghost predicate AttributeOr(attrs: seq<Attribute>, key: string, default: string, v: string) {
    || (exists i :: IsLastNamed(attrs, key, i) && v == attrs[i].value)
    || ((forall j :: 0 <= j < |attrs| ==> attrs[j].name != key) && v == default)
  }

  /** The map holds, for a name, the value of the last attribute with that name. */
  lemma {:induction false} AttributeMapLastWins(attrs: seq<Attribute>, key: string, i: int)
    requires IsLastNamed(attrs, key, i)
    ensures key in AttributeMap(attrs) && AttributeMap(attrs)[key] == attrs[i].value
  {
    var n := |attrs|;
    if i < n - 1 {
      assert attrs[n - 1].name != key;
      AttributeMapLastWins(attrs[..n - 1], key, i);
    }
  }

  /** A name that occurs in the list occurs a last time. */
  lemma {:induction false} LastNamedExists(attrs: seq<Attribute>, key: string, j: int)
    requires 0 <= j < |attrs| && attrs[j].name == key
    ensures exists i :: IsLastNamed(attrs, key, i)
    decreases |attrs| - j
  {
    if !IsLastNamed(attrs, key, j) {
      var k :| j < k < |attrs| && attrs[k].name == key;
      LastNamedExists(attrs, key, k);
    }
  }

  /** Looking a name up in the attribute map, with a fallback, gives `AttributeOr`. */
  lemma GetAttribute(attrs: seq<Attribute>, key: string, default: string)
    ensures AttributeOr(attrs, key, default, Get(AttributeMap(attrs), key, default))
  {
    if j :| 0 <= j < |attrs| && attrs[j].name == key {
      LastNamedExists(attrs, key, j);
      var i :| IsLastNamed(attrs, key, i);
      AttributeMapLastWins(attrs, key, i);
    } else {
      assert key !in AttributeMap(attrs);
    }
  }

  /** A fallback lookup has only one possible value. */
  lemma AttributeOrUnique(attrs: seq<Attribute>, key: string, default: string, v: string, w: string)
    requires AttributeOr(attrs, key, default, v) && AttributeOr(attrs, key, default, w)
    ensures v == w
  {
  }

  /** One jury member as listed: `id` is the username, `name` the `name` attribute or the username. */
  ghost predicate ListedAs(user: DirectoryUser, member: UserBasic) {
    member.id == user.username && AttributeOr(user.attributes, "name", user.username, member.name)
  }

  /**
    * What `get_jury_members` answers a caller with `groups`: a 403 unless `proposers` is
    * one of them, whatever the directory holds; otherwise one entry per member of the
    * `jury` group, in the directory's order, or a 500 if the listing fails.
    */
  ghost predicate JuryOutcome(groups: seq<string>, dir: Directory, r: Result<seq<UserBasic>, HttpError>) {
    && (r.Err? ==> r.error == NotProposer || r.error == JuryFetchError)
    && (r == Err(NotProposer) <==> ProposersGroup !in groups)
    && (r == Err(JuryFetchError) <==> ProposersGroup in groups && dir.listUsersInGroup(JuryGroup).None?)
    && (r.Ok? ==>
          && ProposersGroup in groups
          && dir.listUsersInGroup(JuryGroup).Some?
          && var users := dir.listUsersInGroup(JuryGroup).value;
             |r.value| == |users| && forall i :: 0 <= i < |users| ==> ListedAs(users[i], r.value[i]))
  }

  /** `get_jury_members`, given the caller's groups: builds the listing one user at a time. */
  method GetJuryMembers(groups: seq<string>, dir: Directory) returns (r: Result<seq<UserBasic>, HttpError>)
    ensures JuryOutcome(groups, dir, r)
  {
    if ProposersGroup !in groups {
      return Err(NotProposer);
    }
    match dir.listUsersInGroup(JuryGroup)
    case None =>
      r := Err(JuryFetchError);
    case Some(users) =>
      var juryMembers: seq<UserBasic> := [];
      for k := 0 to |users|
        invariant |juryMembers| == k
        invariant forall i :: 0 <= i < k ==> ListedAs(users[i], juryMembers[i])
      {
        var user := users[k];
        var attributes := AttributeMap(user.attributes);
        GetAttribute(user.attributes, "name", user.username);
        juryMembers := juryMembers + [UserBasic(user.username, Get(attributes, "name", user.username))];
      }
      r := Ok(juryMembers);
  }

  /**
    * The jury route: the caller's groups are resolved first, and their failure is the
    * route's; then `GetJuryMembers` runs. A jury list is returned only to a caller
    * whose token verified and whose groups include `proposers`.
    */
  method JuryMembersRoute(authorization: Option<string>, keys: seq<Jwk>, jwt: JwtLib, dir: Directory)
    returns (r: Result<seq<UserBasic>, HttpError>)
    ensures r.Err? ==> r.error.status == 401 || r.error.status == 403 || r.error.status == 500
    ensures (r.Err? && r.error.status == 401) <==> GetUserGroups(authorization, keys, jwt, dir).Err?
    ensures r.Ok? ==>
      && authorization.Some?
      && exists claims, groups ::
           && CallerGroups(authorization.value, keys, jwt, dir, claims, groups)
           && ProposersGroup in GroupNames(groups)
    // A failure to resolve the caller's groups is passed through unchanged.
    ensures GetUserGroups(authorization, keys, jwt, dir).Err? ==>
      r == Err(GetUserGroups(authorization, keys, jwt, dir).error)
    // An authenticated caller gets exactly what `get_jury_members` answers for its groups.
    ensures GetUserGroups(authorization, keys, jwt, dir).Ok? ==>
      JuryOutcome(GetUserGroups(authorization, keys, jwt, dir).value, dir, r)
  {
    var caller := GetUserGroups(authorization, keys, jwt, dir);
    if caller.Err? {
      return Err(caller.error);
    }
    r := GetJuryMembers(caller.value, dir);
    if r.Ok? {
      ghost var claims, groups :| CallerGroups(authorization.value, keys, jwt, dir, claims, groups) &&
        caller.value == GroupNames(groups);
      assert ProposersGroup in GroupNames(groups);
    }
  }

  /**
    * `get_user`: the record of `userId`, with `id` the username the directory returns,
    * `name` falling back to that username, `email` falling back to the empty string,
    * and the user's groups in the directory's order. Any failure is a 500.
    */
  function GetUser(userId: string, dir: Directory): (r: Result<User, HttpError>)
    ensures r.Err? ==> r.error == UserNotFound
    ensures r.Ok? <==> dir.adminGetUser(userId).Some? && dir.adminListGroupsForUser(userId).Some?
    ensures r.Ok? ==>
      var record := dir.adminGetUser(userId).value;
      var groups := dir.adminListGroupsForUser(userId).value;
      && r.value.id == record.username
      && AttributeOr(record.attributes, "name", record.username, r.value.name)
      && AttributeOr(record.attributes, "email", "", r.value.email)
      && |r.value.groups| == |groups|
      && forall i :: 0 <= i < |groups| ==> r.value.groups[i] == groups[i].groupName
  {
    match dir.adminGetUser(userId)
    case None => Err(UserNotFound)
    case Some(record) =>
      var attributes := AttributeMap(record.attributes);
      match dir.adminListGroupsForUser(userId)
      case None => Err(UserNotFound)
      case Some(groups) =>
        GetAttribute(record.attributes, "name", record.username);
        GetAttribute(record.attributes, "email", "");
        Ok(User(record.username, Get(attributes, "name", record.username), Get(attributes, "email", ""),
                GroupNames(groups)))
  }
}
