/** The authenticated principal handed to the web layer: the user's roles,
    as the strings of their granted authorities, and the user's id. The
    security framework's user details are abstracted as an id and a
    sequence of authorities. */
module Authentication {
  import opened Wrappers
  import opened JavaTypes

  /** A granted authority, known by its authority string. */
  datatype GrantedAuthority = GrantedAuthority(authority: string)

  /** The user details the principal is built from (MyUserDetails). */
  datatype UserDetails = UserDetails(userId: Option<int64>, authorities: seq<GrantedAuthority>)

  /** getAllRoles: appends the authority string of every authority, in
      iteration order and without removing duplicates. */
  method GetAllRoles(authorities: seq<GrantedAuthority>) returns (role: seq<string>)
    ensures |role| == |authorities|
    ensures forall i :: 0 <= i < |authorities| ==> role[i] == authorities[i].authority
  {
    role := [];
    for i := 0 to |authorities|
      invariant |role| == i
      invariant forall j :: 0 <= j < i ==> role[j] == authorities[j].authority
    {
      role := role + [authorities[i].authority];
    }
  }

  class AuthenticatedUser {
    var role: Option<seq<string>>
    var userId: Option<int64>

    constructor (user: UserDetails)
      ensures role.Some? && |role.value| == |user.authorities|
      ensures forall i :: 0 <= i < |user.authorities| ==> role.value[i] == user.authorities[i].authority
      ensures userId == user.userId
    {
      var r := GetAllRoles(user.authorities);
      role := Some(r);
      userId := user.userId;
    }

    function GetRole(): Option<seq<string>>
      reads this
    {
      role
    }

    method SetRole(role: Option<seq<string>>)
      modifies this
      ensures GetRole() == role
      ensures userId == old(userId)
    {
      this.role := role;
    }

    function GetUserId(): Option<int64>
      reads this
    {
      userId
    }

    method SetUserId(userId: Option<int64>)
      modifies this
      ensures GetUserId() == userId
      ensures role == old(role)
    {
      this.userId := userId;
    }
  }
}
