/** The role hook: which kind of account is signed in, read from the
    `profiles` row of the current user. */
module UserRole {
  import opened Common

  /** The two profile columns the role is read from; either may be null. */
  datatype Profile = Profile(userRole: Option<string>, kind: Option<string>)

  datatype Role = Admin | Cuidador | Cliente

  /** The role of a profile: `user_role` "admin" wins over everything;
      otherwise `type` "cuidador" makes a caregiver; anything else, a missing
      type included, is a client. */
  function RoleOf(p: Profile): (r: Role)
    ensures r == Admin <==> p.userRole == Some("admin")
    ensures r == Cuidador <==> p.userRole != Some("admin") && p.kind == Some("cuidador")
    ensures r == Cliente <==> p.userRole != Some("admin") && p.kind != Some("cuidador")
  {
    if p.userRole == Some("admin") then Admin
    else if p.kind == Some("cuidador") then Cuidador
    else Cliente
  }

  /** The admin flag decides alone: the type column is not looked at. */
  lemma AdminIgnoresType(p: Profile, kind: Option<string>)
    requires p.userRole == Some("admin")
    ensures RoleOf(p.(kind := kind)) == Admin
  {
  }

  /** Outside the admin case, `user_role` plays no part. */
  lemma NonAdminIgnoresUserRole(p: Profile, userRole: Option<string>)
    requires p.userRole != Some("admin") && userRole != Some("admin")
    ensures RoleOf(p.(userRole := userRole)) == RoleOf(p)
  {
  }

  /** What `getUser` produced: no signed-in user, a user, or an exception. */
  datatype UserLookup = NoUser | SignedIn(id: string) | LookupThrew

  /** The answer of the profile query for that user. */
  datatype ProfileAnswer = Found(profile: Profile) | QueryError

  class RoleHook {
    var userRole: Option<Role>
    var loading: bool

    /** The hook's initial state: no role yet, loading. */
    constructor ()
      ensures userRole == None && loading
    {
      userRole := None;
      loading := true;
    }

    /** `fetchUserRole`: the role is set only when a user is signed in and
        the profile could be read; an absent user, a failed lookup and a
        query error all leave it as it was. Loading ends in every case. */
    method FetchUserRole(user: UserLookup, answer: ProfileAnswer)
      modifies this
      ensures !loading
      ensures user.SignedIn? && answer.Found? ==> userRole == Some(RoleOf(answer.profile))
      ensures !(user.SignedIn? && answer.Found?) ==> userRole == old(userRole)
    {
      loading := true;
      if user.SignedIn? {
        if answer.Found? {
          userRole := Some(RoleOf(answer.profile));
        }
      }
      loading := false;
    }
  }

  /** On a fresh hook, no user or an error leaves the role null. */
  method FreshHookWithoutProfile(user: UserLookup, answer: ProfileAnswer) returns (role: Option<Role>, loading: bool)
    requires !(user.SignedIn? && answer.Found?)
    ensures role == None && !loading
  {
    var hook := new RoleHook();
    hook.FetchUserRole(user, answer);
    role, loading := hook.userRole, hook.loading;
  }
}
