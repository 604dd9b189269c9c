/**
 * The signed-in user as derived from the database: the role list, the
 * one primary role the screens go by, and the verified flag.
 */
module UseAuth {
  import opened Wrappers
  import opened DbTypes

  /** The role rows as queried; a failed query (no rows object at all) counts as a single buyer role. */
  function UserRoles(rows: Option<seq<DbRole>>): (r: seq<DbRole>)
    ensures rows.None? ==> r == [Buyer]
    ensures rows.Some? ==> r == rows.value
  {
    if rows.None? then [Buyer] else rows.value
  }

  /** The precedence of the roles: administrator over agent over seller over buyer. */
  function Rank(r: DbRole): nat {
    match r
    case Admin => 3
    case Agent => 2
    case Seller => 1
    case Buyer => 0
  }

  /** The primary role: the most senior role held, and buyer when none is held. */
  function PrimaryRole(roles: seq<DbRole>): (p: DbRole)
    ensures p in roles || p == Buyer
    ensures forall r :: r in roles ==> Rank(r) <= Rank(p)
    ensures Admin in roles ==> p == Admin
  {
    if Admin in roles then Admin
    else if Agent in roles then Agent
    else if Seller in roles then Seller
    else Buyer
  }

  /**
   * The primary role is determined by the set of roles held, not by their
   * order or repetition, and any role list containing the chosen role
   * and nothing more senior yields the same choice.
   */
  lemma PrimaryRoleBySeniority(roles: seq<DbRole>, p: DbRole)
    requires p in roles || p == Buyer
    requires forall r :: r in roles ==> Rank(r) <= Rank(p)
    ensures PrimaryRole(roles) == p
  {
    var q := PrimaryRole(roles);
    assert Rank(q) <= Rank(p) && Rank(p) <= Rank(q) by {
      if p in roles { assert Rank(p) <= Rank(q); } else { assert Rank(p) == 0; }
      if q in roles { assert Rank(q) <= Rank(p); } else { assert Rank(q) == 0 || q == Buyer; }
    }
  }

  /** An empty role list, and a failed role query, both make a buyer. */
  lemma NoRolesMeansBuyer()
    ensures PrimaryRole([]) == Buyer
    ensures PrimaryRole(UserRoles(None)) == Buyer
  {
  }

  /** Verified exactly when a profile was found and its status is the verified one. */
  function IsVerified(profile: Option<Profile>): (b: bool)
    ensures b <==> profile.Some? && profile.value.verificationStatus == Verified
  {
    profile.Some? && profile.value.verificationStatus.Verified?
  }

  /** The signed-in user the hook publishes. */
  datatype AuthUser = AuthUser(
    id: string,
    email: Option<string>,
    profile: Option<Profile>,
    roles: seq<DbRole>,
    primaryRole: DbRole,
    isVerified: bool)

  function BuildAuthUser(id: string, email: Option<string>, profile: Option<Profile>, rows: Option<seq<DbRole>>)
    : (u: AuthUser)
    ensures u.roles == UserRoles(rows) && u.primaryRole == PrimaryRole(u.roles)
    ensures u.isVerified <==> profile.Some? && profile.value.verificationStatus == Verified
  {
    var roles := UserRoles(rows);
    AuthUser(id, email, profile, roles, PrimaryRole(roles), IsVerified(profile))
  }
}
