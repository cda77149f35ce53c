/**
  Properties of the appointment routes that relate several of their
  decisions: the token guard against the header it reads, the validation
  chain against what the document's schema accepts, listing against
  reading, and update and cancel against the records they leave.
 */
module AppointmentProperties {
  import opened Wrappers
  import opened Strings
  import opened AppointmentModel
  import opened Appointments

  /** `Bearer <token>`, with or without further words, yields the token. */
  lemma BearerTokenOfHeader(scheme: string, token: string, rest: string)
    requires ' ' !in scheme && ' ' !in token && token != ""
    ensures BearerToken(Some(scheme + " " + token)) == Some(token)
    ensures BearerToken(Some(scheme + " " + token + " " + rest)) == Some(token)
  {
    SplitWhole(token, ' ');
    SplitFirst(scheme, ' ', token);
    assert scheme + " " + token == scheme + [' '] + token;
    SplitFirst(token, ' ', rest);
    SplitFirst(scheme, ' ', token + " " + rest);
    assert scheme + " " + token + " " + rest == scheme + [' '] + (token + [' '] + rest);
  }

  /** A missing header, or one without a space, is refused before any verification. */
  lemma NoTokenWithoutSpace(header: Option<string>, verify: string -> Option<Claims>)
    requires header.None? || ' ' !in header.value
    ensures Authenticate(header, verify) == NoToken
  {
    if header.Some? {
      SplitWhole(header.value, ' ');
    }
  }

  /** A header whose second word is empty, such as `Bearer `, is refused too. */
  lemma NoTokenWhenSecondWordEmpty(scheme: string, rest: string, verify: string -> Option<Claims>)
    requires ' ' !in scheme
    ensures Authenticate(Some(scheme + " " + " " + rest), verify) == NoToken
  {
    SplitFirst([], ' ', rest);
    assert [] + [' '] + rest == " " + rest;
    SplitFirst(scheme, ' ', " " + rest);
    assert scheme + " " + " " + rest == scheme + [' '] + (" " + rest);
  }

  /**
    After the validation chain accepts a request, saving it can fail only
    on a status outside the enumeration or a date that does not parse
    (given that the email check refuses the empty string).
   */
  lemma ValidatedRequestSaves(req: BookingRequest, isEmail: string -> bool, isIso8601: string -> bool,
                              parseDate: string -> Option<int>)
    requires ValidationErrors(req, isEmail, isIso8601) == [] && !isEmail("")
    ensures Storable(req, parseDate) <==>
      parseDate(Text(req.appointmentDate)).Some? && (req.status.Some? ==> ParseStatus(req.status.value).Some?)
  {
    assert Text(req.patientEmail) != "";
  }

  /** An age outside 1..120 is refused, whatever else the request holds. */
  lemma AgeOutOfRangeRefused(req: BookingRequest, isEmail: string -> bool, isIso8601: string -> bool)
    requires req.patientAge.WholeNumber? && (req.patientAge.n < 1 || req.patientAge.n > 120)
    ensures ValidationErrors(req, isEmail, isIso8601) != []
  {
  }

  /** The patient of a new record comes from the token: the body's `patientId` is never read. */
  lemma PatientIdFromToken(userId: string, req: BookingRequest, claimed: string, parseDate: string -> Option<int>)
    ensures NewAppointment(userId, req.(patientId := Some(claimed)), parseDate) == NewAppointment(userId, req, parseDate)
    ensures NewAppointment(userId, req.(patientId := Some(claimed)), parseDate).Some? ==>
      NewAppointment(userId, req.(patientId := Some(claimed)), parseDate).value.patientId == userId
  {
    var other := req.(patientId := Some(claimed));
    assert Storable(other, parseDate) == Storable(req, parseDate);
  }

  /** Under the intended read rule, patients and doctors list only records they may also open one by one. */
  lemma ListedIsReadable(claims: Claims, a: Appointment)
    requires claims.role == "patient" || claims.role == "doctor"
    requires Listed(claims, a)
    ensures MayRead(claims.userId, a)
  {
  }

  /** As written, this holds for patients only: a patient may open every record they list. */
  lemma PatientListedIsReadable(claims: Claims, a: Appointment)
    requires claims.role == "patient" && Listed(claims, a)
    ensures MayReadAsWritten(claims.userId, a)
  {
  }

  /**
    As written, an assigned doctor who is not the record's patient lists the
    record but is refused it one by one, although the intended rule lets
    them read it.
   */
  lemma AssignedDoctorRefused(claims: Claims, a: Appointment)
    requires claims.role == "doctor" && a.doctorId == Some(claims.userId) && a.patientId != claims.userId
    ensures Listed(claims, a) && MayRead(claims.userId, a)
    ensures !MayReadAsWritten(claims.userId, a)
  {
  }

  /** The same gap through the handlers: my-appointments lists the record and get-by-id answers 403. */
  method AssignedDoctorListsButCannotOpen(service: AppointmentService, id: nat, doctor: string)
      returns (listCode: nat, listing: seq<(nat, Appointment)>, readCode: nat)
    requires id in service.appointments
    requires service.appointments[id].doctorId == Some(doctor) && service.appointments[id].patientId != doctor
    ensures listCode == 200 && (exists i :: 0 <= i < |listing| && listing[i].0 == id)
    ensures readCode == 403
  {
    var auth := Authenticated(Claims(doctor, "doctor"));
    assert Listed(auth.claims, service.appointments[id]);
    listCode, listing := service.MyAppointments(auth);
    var record;
    readCode, record := service.GetById(auth, id);
  }

  /** Any other role lists every record, including ones that get-by-id refuses it. */
  lemma OtherRolesListEverything(claims: Claims, a: Appointment)
    requires claims.role != "patient" && claims.role != "doctor"
    ensures Listed(claims, a)
  {
  }

  /** A patient lists exactly their own records; a doctor exactly those assigned to them. */
  lemma ListedByRole(claims: Claims, a: Appointment)
    ensures claims.role == "patient" ==> (Listed(claims, a) <==> a.patientId == claims.userId)
    ensures claims.role == "doctor" ==> (Listed(claims, a) <==> a.doctorId == Some(claims.userId))
  {
  }

  /** Whoever may cancel a record may also read it, under both the written and the intended rule. */
  lemma CancelImpliesRead(userId: string, a: Appointment)
    requires MayCancel(userId, a)
    ensures MayReadAsWritten(userId, a) && MayRead(userId, a)
  {
  }

  /** An update that supplies nothing (or only an empty status) leaves the record as it was. */
  lemma EmptyPatchChangesNothing(a: Appointment, status: Option<string>)
    requires status.None? || status == Some("")
    ensures ApplyPatch(a, Patch(None, None, status)) == Some(a)
  {
  }

  /** Applying the same update twice is the same as applying it once. */
  lemma PatchIdempotent(a: Appointment, p: Patch)
    requires ApplyPatch(a, p).Some?
    ensures ApplyPatch(ApplyPatch(a, p).value, p) == ApplyPatch(a, p)
  {
    var b := ApplyPatch(a, p).value;
    var c := ApplyPatch(b, p);
    assert c.Some?;
    if StatusGiven(p) {
      assert StatusName(c.value.status) == StatusName(b.status);
      StatusNamesParse(c.value.status);
      StatusNamesParse(b.status);
    }
    assert c.value.(prescription := b.prescription, consultation := b.consultation, status := b.status) == b;
  }

  /** Cancelling twice is cancelling once. */
  lemma CancelIdempotent(a: Appointment)
    ensures CancelledRecord(CancelledRecord(a)) == CancelledRecord(a)
  {
  }

  /** Cancelling does not look at the current status: completed and cancelled records cancel alike. */
  lemma CancelIgnoresStatus(a: Appointment, st: Status)
    ensures CancelledRecord(a.(status := st)) == CancelledRecord(a)
  {
  }

  /** A doctor's update may move a cancelled record back to scheduled: status carries no lifecycle order. */
  lemma UpdateReopensCancelled(a: Appointment)
    ensures ApplyPatch(CancelledRecord(a), Patch(None, None, Some("scheduled"))) == Some(a.(status := Scheduled))
  {
  }
}
