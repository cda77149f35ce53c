/**
  The appointment document of backend/models/Appointment.js.

  The schema's two enumerations (gender, status) are datatypes, each with the
  parser that the schema's `enum` check amounts to: a string outside the
  enumeration is rejected when the document is saved. Object ids are
  strings, dates are instants in milliseconds, and optional paths are
  `Option`s.
 */
module AppointmentModel {
  import opened Wrappers

  datatype Gender = Male | Female | Other

  function GenderName(g: Gender): string
  {
    match g
    case Male => "male"
    case Female => "female"
    case Other => "other"
  }

  /** The schema's `enum: ['male', 'female', 'other']`. */
  function ParseGender(s: string): (r: Option<Gender>)
    ensures r.Some? <==> s in ["male", "female", "other"]
    ensures r.Some? ==> GenderName(r.value) == s
  {
    if s == "male" then Some(Male)
    else if s == "female" then Some(Female)
    else if s == "other" then Some(Other)
    else None
  }

  datatype Status = Scheduled | Completed | Cancelled

  function StatusName(st: Status): string
  {
    match st
    case Scheduled => "scheduled"
    case Completed => "completed"
    case Cancelled => "cancelled"
  }

  /** The schema's `enum: ['scheduled', 'completed', 'cancelled']`. */
  function ParseStatus(s: string): (r: Option<Status>)
    ensures r.Some? <==> s in ["scheduled", "completed", "cancelled"]
    ensures r.Some? ==> StatusName(r.value) == s
  {
    if s == "scheduled" then Some(Scheduled)
    else if s == "completed" then Some(Completed)
    else if s == "cancelled" then Some(Cancelled)
    else None
  }

  /** Every status is stored under a name the enumeration accepts, and read back as itself. */
  lemma StatusNamesParse(st: Status)
    ensures ParseStatus(StatusName(st)) == Some(st)
  {
  }

  /** Every gender is stored under a name the enumeration accepts, and read back as itself. */
  lemma GenderNamesParse(g: Gender)
    ensures ParseGender(GenderName(g)) == Some(g)
  {
  }

  datatype Medicine = Medicine(
    name: Option<string>,
    dosage: Option<string>,
    schedule: Option<string>,
    duration: Option<string>)

  datatype Prescription = Prescription(
    medicines: seq<Medicine>,
    notes: Option<string>,
    dietRecommendations: Option<string>,
    lifestyleAdvice: Option<string>)

  datatype Consultation = Consultation(
    diagnosis: Option<string>,
    doctorNotes: Option<string>,
    followUpDate: Option<int>)

  /** A stored appointment; `doctorId`, `prescription` and `consultation` are the schema's optional paths. */
  datatype Appointment = Appointment(
    patientId: string,
    patientName: string,
    patientAge: int,
    patientGender: Gender,
    patientPhone: string,
    patientEmail: string,
    hospitalId: string,
    doctorId: Option<string>,
    symptoms: string,
    appointmentDate: int,
    appointmentTime: string,
    status: Status,
    prescription: Option<Prescription>,
    consultation: Option<Consultation>)
}
