/** The dashboard page: the loading view, the role switch and the redirect to the login page. */
module Dashboard {
  import opened Wrappers

  /** What the page shows. */
  datatype View = LoadingView | DonorDashboard | InstituteDashboard | SupplierDashboard

  /** `renderDashboard`: the dashboard of the user's role; an unknown or missing role gets the donor dashboard. */
  function SelectDashboard(userType: Option<string>): (v: View)
    ensures v != LoadingView
    ensures v == InstituteDashboard <==> userType == Some("institute")
    ensures v == SupplierDashboard <==> userType == Some("supplier")
    ensures v == DonorDashboard <==> userType != Some("institute") && userType != Some("supplier")
  {
    match userType
    case Some("donor") => DonorDashboard
    case Some("institute") => InstituteDashboard
    case Some("supplier") => SupplierDashboard
    case _ => DonorDashboard
  }

  /** The page: the loading view while authentication is loading, whatever the role; the role's dashboard afterwards. */
  function RenderPage(loading: bool, userType: Option<string>): (v: View)
    ensures loading ==> v == LoadingView
    ensures !loading ==> v == SelectDashboard(userType)
    ensures v == LoadingView <==> loading
  {
    if loading then LoadingView else SelectDashboard(userType)
  }

  /** The authentication effect navigates to `/login` exactly when loading has finished without a profile. */
  predicate RedirectToLogin(loading: bool, profilePresent: bool) {
    !loading && !profilePresent
  }

  /** A redirect never happens while the loading view is shown, and a signed-in user is never redirected. */
  lemma RedirectOnlyAfterLoading(loading: bool, profilePresent: bool, userType: Option<string>)
    ensures RedirectToLogin(loading, profilePresent) ==> RenderPage(loading, userType) != LoadingView
    ensures profilePresent ==> !RedirectToLogin(loading, profilePresent)
  {
  }
}
