/** The dashboard page: which screen a signed-in session sees. */
module DashboardPage {
  import opened Schema

  /** What the page renders: a spinner, nothing (while it redirects to the sign-in page), one
      role's dashboard, or the "Role tidak dikenali" notice. */
  datatype Screen = Spinner | RedirectToAuth | RoleDashboard(role: UserRole) | RoleNotRecognised

  /** The loading guard, the missing-profile guard, then the `switch` on the role string. */
  function Route(loading: bool, profile: Option<Profile>): (s: Screen)
    ensures loading ==> s == Spinner
    ensures s == RedirectToAuth <==> !loading && profile.None?
    ensures forall u :: s == RoleDashboard(u) <==> !loading && profile.Some? && profile.value.role == RoleName(u)
    ensures s == RoleNotRecognised <==>
              !loading && profile.Some? && forall u :: RoleName(u) != profile.value.role
  {
    if loading then Spinner
    else if profile.None? then RedirectToAuth
    else
      var role := profile.value.role;
      if role == "pasien" then RoleDashboard(Pasien)
      else if role == "dokter" then RoleDashboard(Dokter)
      else if role == "petugas_administrasi" then RoleDashboard(PetugasAdministrasi)
      else if role == "petugas_apotek" then RoleDashboard(PetugasApotek)
      else if role == "pemilik_klinik" then RoleDashboard(PemilikKlinik)
      else RoleNotRecognised
  }
}
