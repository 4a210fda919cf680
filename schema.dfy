/** Row shapes of the clinic database, after the generated table types.
    Only the columns the dashboards read or write are kept. */
module Schema {

  /** A uuid primary key; the store hands them out. */
  type Id = nat

  /** A `timestamptz` value; only its order matters. */
  type Timestamp = int

  /** A calendar date "YYYY-MM-DD"; only compared for equality. */
  type Date = string

  datatype Option<T> = None | Some(value: T)

  /** Every table has an `id` and a `created_at` that the database fills in. */
  datatype Row<T> = Row(id: Id, createdAt: Timestamp, data: T)

  /** `patients`: the demographic columns are never touched by the dashboards. */
  datatype Patient = Patient(profileId: Id)

  /** `patient_queue`. */
  datatype QueueEntry = QueueEntry(
    patientId: Id,
    queueNumber: int,
    queueDate: Date,
    complaint: string,
    status: string)

  /** `examinations`. */
  datatype Examination = Examination(
    patientId: Id,
    doctorId: Id,
    queueId: Option<Id>,
    chiefComplaint: string,
    physicalExamination: Option<string>,
    diagnosis: string,
    notes: Option<string>,
    examinationDate: Timestamp)

  /** `prescriptions`. */
  datatype Prescription = Prescription(
    examinationId: Id,
    patientId: Id,
    doctorId: Id,
    status: string,
    notes: Option<string>)

  /** `prescription_items`. */
  datatype PrescriptionItem = PrescriptionItem(
    prescriptionId: Id,
    medicineName: string,
    dosage: string,
    frequency: string,
    duration: string,
    instructions: Option<string>)

  /** `payments`; `amount` is a non-null column. */
  datatype Payment = Payment(
    patientId: Id,
    examinationId: Option<Id>,
    amount: int,
    paymentMethod: string,
    status: string,
    paidAt: Option<Timestamp>)

  /** `medicine_stock`. */
  datatype MedicineStock = MedicineStock(
    medicineName: string,
    quantity: int,
    unit: string,
    price: Option<int>,
    supplier: Option<string>,
    expiryDate: Option<Date>)

  /** `patient_feedback`. */
  datatype Feedback = Feedback(patientId: Id, rating: int, feedbackText: Option<string>)

  /** `profiles`; the role is kept as the raw string the session delivers. */
  datatype Profile = Profile(id: Id, fullName: string, email: string, role: string, phone: Option<string>)

  // Status values written and compared by the dashboards.
  const Waiting := "waiting"
  const InProgress := "in_progress"
  const Completed := "completed"
  const Cancelled := "cancelled"
  const Pending := "pending"
  const Filled := "filled"

  /** The `user_role` enumeration. */
  datatype UserRole = Pasien | PetugasAdministrasi | PemilikKlinik | Dokter | PetugasApotek

  /** The enumeration's wire spelling. */
  function RoleName(r: UserRole): string
  {
    match r
    case Pasien => "pasien"
    case PetugasAdministrasi => "petugas_administrasi"
    case PemilikKlinik => "pemilik_klinik"
    case Dokter => "dokter"
    case PetugasApotek => "petugas_apotek"
  }

  /** Reads a role string back; `None` for anything outside the enumeration. */
  function ParseRole(s: string): (r: Option<UserRole>)
    ensures r.Some? ==> RoleName(r.value) == s
    ensures r.None? ==> forall u: UserRole :: RoleName(u) != s
  {
    if s == "pasien" then Some(Pasien)
    else if s == "petugas_administrasi" then Some(PetugasAdministrasi)
    else if s == "pemilik_klinik" then Some(PemilikKlinik)
    else if s == "dokter" then Some(Dokter)
    else if s == "petugas_apotek" then Some(PetugasApotek)
    else None
  }

  /** The spelling round-trips, so distinct roles have distinct names. */
  lemma RoleNameRoundTrip(u: UserRole)
    ensures ParseRole(RoleName(u)) == Some(u)
  {
  }
}
