/**
 * The `Layout` component: the state the shell keeps across route changes
 * (the parsed session user, the branding and its loading flag, the sidebar's
 * image-error flag) together with the persisted store it reads and clears.
 */
module Shell {
  import opened Wrappers
  import opened Session
  import opened NavPolicy
  import opened PathResolver
  import opened BrandingResolver

  /** The logged-out landing route that logout navigates to. */
  const LoginRoute: string := "/login"

  class Layout {
    /** `window.localStorage`. */
    var storage: Storage
    /** The user parsed from the store on the last route change (`null` before the first). */
    var user: Option<User>
    var branding: Branding
    var brandingLoading: bool
    /** The sidebar's flag that the logo image failed to load. */
    var logoError: bool
    /** Branding requests issued and not yet settled (kept by the network, not by the component). */
    ghost var inFlight: nat

    /** Mounting: no user yet, the default branding, loading shown, no image error. */
    constructor (initialStorage: Storage)
      ensures storage == initialStorage && user == None
      ensures branding == DefaultBranding && brandingLoading && !logoError
      ensures inFlight == 0
    {
      storage := initialStorage;
      user := None;
      branding := DefaultBranding;
      brandingLoading := true;
      logoError := false;
      inFlight := 0;
    }

    /** The brand panel for the current state. */
    function Panel(): BrandPanel
      reads this
    {
      RenderBranding(brandingLoading, branding, logoError)
    }

    /** `setBranding` followed by the sidebar's effect keyed on the logo reference. */
    method SetBranding(b: Branding)
      modifies this`branding, this`logoError
      ensures branding == b
      ensures logoError == LogoErrorAfter(old(branding.companyLogo), b.companyLogo, old(logoError))
    {
      var previousLogo := branding.companyLogo;
      branding := b;
      if b.companyLogo != previousLogo {
        logoError := false;
      }
    }

    /**
     * The start of the route-change effect: the user is re-read from the store,
     * loading is shown, and a branding request is issued exactly when a token is
     * stored. Without one the `finally` block runs at once and the branding is
     * left as it was.
     */
    method RouteChange(parsedUser: Option<User>) returns (requested: bool)
      requires ParsedFrom(storage, parsedUser)
      modifies this
      ensures user == parsedUser
      ensures requested <==> AuthHeaders(storage).headers.Some?
      ensures brandingLoading == requested
      ensures Panel().Placeholder? <==> requested
      ensures storage == old(storage) && branding == old(branding) && logoError == old(logoError)
      ensures inFlight == old(inFlight) + (if requested then 1 else 0)
    {
      user := parsedUser;
      brandingLoading := true;
      var config := AuthHeaders(storage);
      requested := config.headers.Some?;
      if requested {
        inFlight := inFlight + 1;
      } else {
        brandingLoading := false;
      }
    }

    /**
     * A branding request settles: the body replaces the branding, or a failure
     * installs the default, and loading ends either way. Any pending request
     * may settle; nothing checks that it belongs to the latest route.
     */
    method FetchSettled(outcome: FetchOutcome)
      requires inFlight > 0
      modifies this
      ensures branding == SettledBranding(outcome)
      ensures logoError == LogoErrorAfter(old(branding.companyLogo), branding.companyLogo, old(logoError))
      ensures !brandingLoading && !Panel().Placeholder?
      ensures outcome.FetchFailed? ==> Panel() == CompanyName("MessageMaster")
      ensures storage == old(storage) && user == old(user) && inFlight == old(inFlight) - 1
    {
      match outcome {
        case Fetched(payload) => SetBranding(payload);
        case FetchFailed => SetBranding(DefaultBranding);
      }
      brandingLoading := false;
      inFlight := inFlight - 1;
    }

    /** A route change whose branding request, if any, settles before the next one. */
    method OnRouteChange(parsedUser: Option<User>, outcome: FetchOutcome)
      requires ParsedFrom(storage, parsedUser)
      modifies this
      ensures user == parsedUser && storage == old(storage) && inFlight == old(inFlight)
      ensures !brandingLoading && !Panel().Placeholder?
      ensures AuthHeaders(storage).headers.Some? ==> branding == SettledBranding(outcome)
      ensures AuthHeaders(storage).headers.Some? ==>
                logoError == LogoErrorAfter(old(branding.companyLogo), branding.companyLogo, old(logoError))
      ensures AuthHeaders(storage).headers.None? ==> branding == old(branding) && logoError == old(logoError)
    {
      var requested := RouteChange(parsedUser);
      if requested {
        FetchSettled(outcome);
      }
    }

    /** The logo image failed to load: the panel falls back to the company name. */
    method OnLogoError()
      requires Panel().LogoImage?
      modifies this`logoError
      ensures logoError
      ensures Panel() == CompanyName(branding.companyName)
    {
      logoError := true;
    }

    /** `handleLogout`: remove the token, then the user record, then go to the login route. */
    method Logout() returns (target: string)
      modifies this`storage
      ensures storage == ClearSession(old(storage))
      ensures target == LoginRoute
      ensures AuthHeaders(storage).headers.None? && UserKey !in storage
    {
      storage := RemoveItem(storage, TokenKey);
      storage := RemoveItem(storage, UserKey);
      target := LoginRoute;
    }
  }

  /**
   * Two quick route changes whose requests settle out of order: the response
   * for the earlier route arrives last and is the branding that stays.
   */
  method StaleResponseWins(s: Storage, parsedUser: Option<User>, earlier: Branding, later: Branding)
    returns (shell: Layout)
    requires AuthHeaders(s).headers.Some? && ParsedFrom(s, parsedUser)
    ensures shell.branding == earlier && !shell.brandingLoading
  {
    shell := new Layout(s);
    var first := shell.RouteChange(parsedUser);
    var second := shell.RouteChange(parsedUser);
    shell.FetchSettled(Fetched(later));
    assert !shell.brandingLoading && shell.inFlight == 1;
    shell.FetchSettled(Fetched(earlier));
  }

  /** Logging out twice leaves the store as logging out once does. */
  method LogoutTwice(s: Storage) returns (shell: Layout)
    ensures shell.storage == ClearSession(s)
  {
    shell := new Layout(s);
    var target := shell.Logout();
    target := shell.Logout();
    ClearSessionIdempotent(s);
  }
}
