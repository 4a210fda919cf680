/** The frame around every dashboard; only its role label is modelled. */
module DashboardLayout {
  import opened Schema

  /** The display label of each role in the `labels` record; no label is itself the
      spelling of a role. */
  function Label(u: UserRole): (l: string)
    ensures ParseRole(l).None?
  {
    match u
    case Pasien => "Pasien"
    case Dokter => "Dokter"
    case PetugasAdministrasi => "Petugas Administrasi"
    case PetugasApotek => "Petugas Apotek"
    case PemilikKlinik => "Pemilik Klinik"
  }

  /** `getRoleLabel`: a known role gets its label, any other string is shown as it is. */
  function RoleLabel(role: string): (shownAs: string)
    ensures forall u :: role == RoleName(u) ==> shownAs == Label(u)
    ensures (forall u :: RoleName(u) != role) ==> shownAs == role
  {
    match ParseRole(role)
    case Some(u) => Label(u)
    case None => role
  }

  /** Known roles never share a label, so the label tells the role. */
  lemma LabelsDistinct(a: string, b: string)
    requires ParseRole(a).Some? && ParseRole(b).Some?
    requires RoleLabel(a) == RoleLabel(b)
    ensures a == b
  {
    assert RoleName(ParseRole(a).value) == a && RoleName(ParseRole(b).value) == b;
  }

  /** Outside the enumeration the lookup is not injective: the string "Pasien" is shown
      exactly like the role "pasien". */
  lemma UnknownRoleMayShareLabel()
    ensures RoleLabel("Pasien") == RoleLabel("pasien") && "Pasien" != "pasien"
  {
    assert RoleLabel("pasien") == Label(Pasien);
  }

  /** `profile?.role && getRoleLabel(profile.role)`: a label is shown only for a profile
      whose role is not empty. */
  function HeaderRoleLabel(profile: Option<Profile>): (shown: Option<string>)
    ensures shown.Some? <==> profile.Some? && profile.value.role != ""
    ensures shown.Some? ==> shown.value == RoleLabel(profile.value.role)
  {
    if profile.Some? && profile.value.role != "" then Some(RoleLabel(profile.value.role)) else None
  }
}
