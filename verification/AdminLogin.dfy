/** The admin login page: it first checks whether a stored session already
    belongs to someone and redirects them, otherwise it signs in with email
    and password and routes by role. */
module AdminLogin {
  import opened Common
  import opened UserRole

  /** Where the pre-check sends an already signed-in account; no redirect for
      a profile it does not recognise or a missing profile. */
  function PreCheckRedirect(profile: Option<Profile>): (r: Option<string>)
    ensures profile.None? ==> r.None?
    ensures r.Some? ==> r.value in ["/admin", "/caregiver-dashboard", "/client-dashboard"]
  {
    if profile.None? then None
    else if profile.value.userRole == Some("admin") then Some("/admin")
    else if profile.value.kind == Some("cuidador") then Some("/caregiver-dashboard")
    else if profile.value.kind == Some("cliente") then Some("/client-dashboard")
    else None
  }

  /** Where a successful sign-in navigates: the same choice, with "/" for
      everything the pre-check leaves alone. */
  function PostLoginRoute(profile: Option<Profile>): (r: string)
    ensures r in ["/admin", "/caregiver-dashboard", "/client-dashboard", "/"]
  {
    if profile.Some? && profile.value.userRole == Some("admin") then "/admin"
    else if profile.Some? && profile.value.kind == Some("cuidador") then "/caregiver-dashboard"
    else if profile.Some? && profile.value.kind == Some("cliente") then "/client-dashboard"
    else "/"
  }

  /** The two mappings agree wherever the pre-check redirects, and the
      post-login route falls back to "/" exactly where it does not. */
  lemma MappingsAgree(profile: Option<Profile>)
    ensures PostLoginRoute(profile) == PreCheckRedirect(profile).GetOr("/")
    ensures PostLoginRoute(profile) == "/" <==> PreCheckRedirect(profile).None?
  {
  }

  /** The routes follow the role the rest of the site derives, admin first;
      a client profile is routed to its dashboard only when its type says
      "cliente", so a profile without a type is a client with no redirect. */
  lemma RoutesFollowRole(p: Profile)
    ensures PreCheckRedirect(Some(p)) == Some("/admin") <==> RoleOf(p) == Admin
    ensures PreCheckRedirect(Some(p)) == Some("/caregiver-dashboard") <==> RoleOf(p) == Cuidador
    ensures PreCheckRedirect(Some(p)) == Some("/client-dashboard") <==> RoleOf(p) == Cliente && p.kind == Some("cliente")
    ensures PreCheckRedirect(Some(p)).None? <==> RoleOf(p) == Cliente && p.kind != Some("cliente")
  {
  }

  /** What the sign-in call returned: an error, no session, or a session
      with its access token. */
  datatype SignInAnswer = SignInError | NoSession | Session(accessToken: string)

  /** What the page shows. */
  datatype Screen = Checking | Redirect(to: string) | Form

  /** The stored `admin-token` is truthy: present and not empty. */
  predicate Authenticated(stored: Option<string>)
  {
    stored.Some? && stored.value != ""
  }

  class LoginPage {
    /** The `admin-token` entry of local storage. */
    var token: Option<string>
    var isLoading: bool
    var isCheckingAuth: bool
    var shouldRedirect: Option<string>
    /** The last route `navigate` was called with. */
    var navigatedTo: Option<string>

    /** The page as it first renders, over whatever local storage holds. */
    constructor (stored: Option<string>)
      ensures token == stored && !isLoading && isCheckingAuth
      ensures shouldRedirect == None && navigatedTo == None
    {
      token := stored;
      isLoading := false;
      isCheckingAuth := true;
      shouldRedirect := None;
      navigatedTo := None;
    }

    /** The spinner while checking, then the redirect if one was chosen,
        otherwise the form. */
    function Render(): (s: Screen)
      reads this
      ensures s == Checking <==> isCheckingAuth
      ensures s == Form <==> !isCheckingAuth && shouldRedirect.None?
      ensures s.Redirect? ==> shouldRedirect == Some(s.to)
    {
      if isCheckingAuth then Checking
      else if shouldRedirect.Some? then Redirect(shouldRedirect.value)
      else Form
    }

    /** `checkAuthentication`. Without a token (none stored, or an empty
        one) nothing is looked up. With one, a signed-in user's profile may
        choose a redirect; a failed user lookup removes the token. Checking
        ends in every case. */
    method CheckAuthentication(user: UserLookup, profile: Option<Profile>)
      modifies this`token, this`shouldRedirect, this`isCheckingAuth
      ensures !isCheckingAuth
      ensures !Authenticated(old(token)) ==> token == old(token) && shouldRedirect == old(shouldRedirect)
      ensures Authenticated(old(token)) && user == LookupThrew ==> token == None && shouldRedirect == old(shouldRedirect)
      ensures Authenticated(old(token)) && user.SignedIn? ==>
                token == old(token)
                && shouldRedirect == (if PreCheckRedirect(profile).Some? then PreCheckRedirect(profile) else old(shouldRedirect))
      ensures Authenticated(old(token)) && user == NoUser ==> token == old(token) && shouldRedirect == old(shouldRedirect)
    {
      if Authenticated(token) {
        match user {
          case LookupThrew =>
            token := None;
          case NoUser =>
          case SignedIn(_) =>
            var target := PreCheckRedirect(profile);
            if target.Some? {
              shouldRedirect := target;
            }
        }
      }
      isCheckingAuth := false;
    }

    /** `handleSubmit`. A returned session stores its token and navigates
        by the profile; an error or a missing session stores nothing and
        does not navigate. Loading ends in every case. */
    method Submit(answer: SignInAnswer, profile: Option<Profile>)
      modifies this`token, this`isLoading, this`navigatedTo
      ensures !isLoading
      ensures answer.Session? ==> token == Some(answer.accessToken) && navigatedTo == Some(PostLoginRoute(profile))
      ensures !answer.Session? ==> token == old(token) && navigatedTo == old(navigatedTo)
    {
      isLoading := true;
      if answer.Session? {
        token := Some(answer.accessToken);
        navigatedTo := Some(PostLoginRoute(profile));
      }
      isLoading := false;
    }
  }

  /** With no token stored, or an empty one, the first check ends on the
      form whoever is signed in. */
  method NoTokenShowsForm(stored: Option<string>, user: UserLookup, profile: Option<Profile>) returns (screen: Screen)
    requires !Authenticated(stored)
    ensures screen == Form
  {
    var page := new LoginPage(stored);
    page.CheckAuthentication(user, profile);
    screen := page.Render();
  }
}
