/**
  The appointment routes of backend/routes/appointments.js: the bearer-token
  guard, the booking validation chain, and the create, list, read, update
  and cancel handlers over a store of appointments.

  The decisions each handler takes are pure functions and predicates here
  (`Authenticate`, `ValidationErrors`, `NewAppointment`, `Listed`,
  `MayReadAsWritten`, `ApplyPatch`, `CancelledRecord`); the class `AppointmentService`
  holds the store as a map and its methods are the handlers, returning the
  HTTP status code they answer with.
 */
module Appointments {
  import opened Wrappers
  import opened Strings
  import opened AppointmentModel

  /** What a verified token carries. */
  datatype Claims = Claims(userId: string, role: string)

  /** The outcome of the token guard. */
  datatype Auth = NoToken | InvalidToken | Authenticated(claims: Claims)

  /**
    `authorization?.split(' ')[1]`, kept only when it is a non-empty string:
    the guard answers 401 for an absent header, a header without a space
    and a header whose second word is empty.
   */
  function BearerToken(header: Option<string>): (token: Option<string>)
    ensures token.Some? <==> header.Some? && |Split(header.value, ' ')| >= 2 && Split(header.value, ' ')[1] != ""
    ensures token.Some? ==> token.value != "" && ' ' !in token.value
  {
    match header
    case None => None
    case Some(h) =>
      var parts := Split(h, ' ');
      if |parts| >= 2 && parts[1] != "" then Some(parts[1]) else None
  }

  /**
    `authMiddleware`. Token verification is a parameter: `verify` gives the
    token's claims, or `None` where `jwt.verify` throws.
   */
  function Authenticate(header: Option<string>, verify: string -> Option<Claims>): (auth: Auth)
    ensures auth == NoToken <==> BearerToken(header).None?
    ensures auth == InvalidToken <==> BearerToken(header).Some? && verify(BearerToken(header).value).None?
    ensures auth.Authenticated? ==> Some(auth.claims) == verify(BearerToken(header).value)
  {
    match BearerToken(header)
    case None => NoToken
    case Some(token) =>
      match verify(token)
      case None => InvalidToken
      case Some(claims) => Authenticated(claims)
  }

  /** The age as the request carries it: absent, a whole number, or anything else. */
  datatype Age = NoAge | WholeNumber(n: int) | NotWholeNumber

  /** The fields of a booking request's body that the create handler reads. */
  datatype BookingRequest = BookingRequest(
    patientName: Option<string>,
    patientAge: Age,
    patientGender: Option<string>,
    patientPhone: Option<string>,
    patientEmail: Option<string>,
    hospitalId: Option<string>,
    symptoms: Option<string>,
    appointmentDate: Option<string>,
    appointmentTime: Option<string>,
    patientId: Option<string>,
    doctorId: Option<string>,
    status: Option<string>,
    prescription: Option<Prescription>,
    consultation: Option<Consultation>)

  /** A field as the validators read it: an absent field reads as the empty string. */
  function Text(field: Option<string>): (s: string)
    ensures field.None? ==> s == ""
    ensures field.Some? ==> s == field.value
  {
    field.GetOr("")
  }

  /** The patient's name after the `trim()` sanitizer, which is also what is stored. */
  function TrimmedName(req: BookingRequest): string
  {
    Trim(Text(req.patientName))
  }

  function AgeInRange(age: Age): bool
  {
    age.WholeNumber? && 1 <= age.n <= 120
  }

  /** The nine rules of `appointmentValidation`, in order, each with its verdict. */
  function ValidationChain(req: BookingRequest, isEmail: string -> bool, isIso8601: string -> bool): (chain: seq<(string, bool)>)
    ensures |chain| == 9
    ensures (forall i :: 0 <= i < |chain| ==> chain[i].1) <==> Acceptable(req, isEmail, isIso8601)
  {
    var chain :=
      [ ("patientName", TrimmedName(req) != ""),
        ("patientAge", AgeInRange(req.patientAge)),
        ("patientGender", Text(req.patientGender) in ["male", "female", "other"]),
        ("patientPhone", Text(req.patientPhone) != ""),
        ("patientEmail", isEmail(Text(req.patientEmail))),
        ("hospitalId", Text(req.hospitalId) != ""),
        ("symptoms", Text(req.symptoms) != ""),
        ("appointmentDate", isIso8601(Text(req.appointmentDate))),
        ("appointmentTime", Text(req.appointmentTime) != "") ];
    assert (forall i :: 0 <= i < |chain| ==> chain[i].1) <==> Acceptable(req, isEmail, isIso8601) by {
      assert chain[0].1 == (TrimmedName(req) != "");
      assert chain[1].1 == AgeInRange(req.patientAge);
      assert chain[2].1 == (Text(req.patientGender) in ["male", "female", "other"]);
      assert chain[3].1 == (Text(req.patientPhone) != "");
      assert chain[4].1 == isEmail(Text(req.patientEmail));
      assert chain[5].1 == (Text(req.hospitalId) != "");
      assert chain[6].1 == (Text(req.symptoms) != "");
      assert chain[7].1 == isIso8601(Text(req.appointmentDate));
      assert chain[8].1 == (Text(req.appointmentTime) != "");
    }
    chain
  }

  /** The names of the rules that failed, in chain order. */
  function Failed(chain: seq<(string, bool)>): (names: seq<string>)
    ensures |names| <= |chain|
    ensures forall x :: x in names <==> exists i :: 0 <= i < |chain| && chain[i].0 == x && !chain[i].1
    ensures names == [] <==> forall i :: 0 <= i < |chain| ==> chain[i].1
  {
    if chain == [] then []
    else
      var rest := Failed(chain[1..]);
      assert forall i :: 1 <= i < |chain| ==> chain[i] == chain[1..][i - 1];
      if chain[0].1 then rest else [chain[0].0] + rest
  }

  /** Every rule of `appointmentValidation` holds of the request. */
  predicate Acceptable(req: BookingRequest, isEmail: string -> bool, isIso8601: string -> bool)
  {
    && TrimmedName(req) != ""
    && req.patientAge.WholeNumber? && 1 <= req.patientAge.n <= 120
    && Text(req.patientGender) in ["male", "female", "other"]
    && Text(req.patientPhone) != ""
    && isEmail(Text(req.patientEmail))
    && Text(req.hospitalId) != ""
    && Text(req.symptoms) != ""
    && isIso8601(Text(req.appointmentDate))
    && Text(req.appointmentTime) != ""
  }

  /**
    `validationResult(req)`: the names of the failed rules. It is empty
    exactly when every rule holds, and names only fields of the chain.
   */
  function ValidationErrors(req: BookingRequest, isEmail: string -> bool, isIso8601: string -> bool): (errors: seq<string>)
    ensures errors == [] <==> Acceptable(req, isEmail, isIso8601)
    ensures |errors| <= 9
  {
    var chain := ValidationChain(req, isEmail, isIso8601);
    Failed(chain)
  }

  /**
    What saving a booking stores, or `None` where the document's own
    validation rejects it: a required string that is empty, an age that is
    not a number, a gender or status outside its enumeration, or a date
    that does not parse. `parseDate` stands for the `Date` cast.
   */
  predicate Storable(req: BookingRequest, parseDate: string -> Option<int>)
    ensures Storable(req, parseDate) ==> Text(req.patientName) != ""
    ensures Storable(req, parseDate) ==> Text(req.patientGender) in ["male", "female", "other"]
  {
    && TrimmedName(req) != ""
    && req.patientAge.WholeNumber?
    && ParseGender(Text(req.patientGender)).Some?
    && Text(req.patientPhone) != ""
    && Text(req.patientEmail) != ""
    && Text(req.hospitalId) != ""
    && Text(req.symptoms) != ""
    && parseDate(Text(req.appointmentDate)).Some?
    && Text(req.appointmentTime) != ""
    && (req.status.Some? ==> ParseStatus(req.status.value).Some?)
  }

  /**
    `new Appointment({...req.body, patientId: req.userId})`: the stored
    record takes the authenticated user as its patient whatever the body
    says, the trimmed name, and status `scheduled` unless the body gives one.
   */
  function NewAppointment(userId: string, req: BookingRequest, parseDate: string -> Option<int>): (r: Option<Appointment>)
    ensures r.Some? <==> Storable(req, parseDate)
    ensures r.Some? ==> r.value.patientId == userId
    ensures r.Some? ==> r.value.patientName == TrimmedName(req)
    ensures r.Some? ==> r.value.patientAge == req.patientAge.n
    ensures r.Some? ==> r.value.patientPhone == Text(req.patientPhone) && r.value.patientEmail == Text(req.patientEmail)
    ensures r.Some? ==> r.value.hospitalId == Text(req.hospitalId) && r.value.symptoms == Text(req.symptoms)
    ensures r.Some? ==> r.value.appointmentTime == Text(req.appointmentTime)
    ensures r.Some? ==> GenderName(r.value.patientGender) == Text(req.patientGender)
    ensures r.Some? ==> Some(r.value.appointmentDate) == parseDate(Text(req.appointmentDate))
    ensures r.Some? && req.status.None? ==> r.value.status == Scheduled
    ensures r.Some? && req.status.Some? ==> StatusName(r.value.status) == req.status.value
    ensures r.Some? ==> r.value.doctorId == req.doctorId
    ensures r.Some? ==> r.value.prescription == req.prescription && r.value.consultation == req.consultation
  {
    if !Storable(req, parseDate) then None
    else
      var status := if req.status.Some? then ParseStatus(req.status.value).value else Scheduled;
      Some(Appointment(
        userId, TrimmedName(req), req.patientAge.n,
        ParseGender(Text(req.patientGender)).value,
        Text(req.patientPhone), Text(req.patientEmail), Text(req.hospitalId), req.doctorId,
        Text(req.symptoms), parseDate(Text(req.appointmentDate)).value, Text(req.appointmentTime),
        status, req.prescription, req.consultation))
  }

  /** The filter that my-appointments builds from the caller's role. */
  datatype Query = ByPatient(patient: string) | ByDoctor(doctor: string) | Everything

  function QueryFor(claims: Claims): (q: Query)
    ensures q.ByPatient? ==> q.patient == claims.userId
    ensures q.ByDoctor? ==> q.doctor == claims.userId
    ensures q.Everything? <==> claims.role != "patient" && claims.role != "doctor"
  {
    if claims.role == "patient" then ByPatient(claims.userId)
    else if claims.role == "doctor" then ByDoctor(claims.userId)
    else Everything
  }

  predicate Selects(q: Query, a: Appointment)
    ensures q.ByPatient? && Selects(q, a) ==> MayRead(q.patient, a)
    ensures q.ByDoctor? && Selects(q, a) ==> MayRead(q.doctor, a)
  {
    match q
    case ByPatient(p) => a.patientId == p
    case ByDoctor(d) => a.doctorId == Some(d)
    case Everything => true
  }

  /** The records my-appointments lists for the caller. */
  predicate Listed(claims: Claims, a: Appointment)
  {
    Selects(QueryFor(claims), a)
  }

  /**
    Get-by-id's check as written. Its second half compares
    `appointment.doctorId?.toString()` with the caller's id, but the handler
    has already run `populate('doctorId', ...)`, so `doctorId` is the
    doctor's document (or null) and its `toString()` is the document's
    printed form, never an id. Only the record's patient gets through.
   */
  predicate MayReadAsWritten(userId: string, a: Appointment)
    ensures MayReadAsWritten(userId, a) ==> MayRead(userId, a)
  {
    a.patientId == userId
  }

  /** The evidently intended check: the record's patient or its assigned doctor. */
  predicate MayRead(userId: string, a: Appointment)
    ensures a.doctorId == Some(userId) ==> MayRead(userId, a)
    ensures MayRead(userId, a) && a.doctorId != Some(userId) ==> a.patientId == userId
  {
    a.patientId == userId || a.doctorId == Some(userId)
  }

  /** Update is open to every doctor. */
  predicate MayUpdate(claims: Claims)
    ensures MayUpdate(claims) <==> QueryFor(claims).ByDoctor?
  {
    claims.role == "doctor"
  }

  /** Cancel is open to the record's patient only. */
  predicate MayCancel(userId: string, a: Appointment)
    ensures MayCancel(userId, a) <==> MayReadAsWritten(userId, a)
  {
    a.patientId == userId
  }

  /** The body of an update request. */
  datatype Patch = Patch(prescription: Option<Prescription>, consultation: Option<Consultation>, status: Option<string>)

  /** A status was supplied; the empty string is falsy and counts as not supplied. */
  predicate StatusGiven(p: Patch)
  {
    p.status.Some? && p.status.value != ""
  }

  /**
    The update handler's three guarded assignments followed by `save`:
    `None` when a supplied status is outside the enumeration, otherwise the
    record with exactly the supplied parts replaced.
   */
  function ApplyPatch(a: Appointment, p: Patch): (r: Option<Appointment>)
    ensures r.None? <==> StatusGiven(p) && ParseStatus(p.status.value).None?
    ensures r.Some? ==> r.value.(prescription := a.prescription, consultation := a.consultation, status := a.status) == a
    ensures r.Some? ==> r.value.prescription == (if p.prescription.Some? then p.prescription else a.prescription)
    ensures r.Some? ==> r.value.consultation == (if p.consultation.Some? then p.consultation else a.consultation)
    ensures r.Some? && StatusGiven(p) ==> StatusName(r.value.status) == p.status.value
    ensures r.Some? && !StatusGiven(p) ==> r.value.status == a.status
  {
    var b := a.(prescription := if p.prescription.Some? then p.prescription else a.prescription);
    var c := b.(consultation := if p.consultation.Some? then p.consultation else b.consultation);
    if !StatusGiven(p) then Some(c)
    else match ParseStatus(p.status.value)
      case None => None
      case Some(st) => Some(c.(status := st))
  }

  /** `appointment.status = 'cancelled'`; nothing else changes. */
  function CancelledRecord(a: Appointment): (r: Appointment)
    ensures r.status == Cancelled
    ensures r.(status := a.status) == a
  {
    a.(status := Cancelled)
  }

  /** Every entry's date is no earlier than the next one's: `sort({ appointmentDate: -1 })`. */
  predicate SortedByDate(s: seq<(nat, Appointment)>)
  {
    forall i, j :: 0 <= i < j < |s| ==> s[i].1.appointmentDate >= s[j].1.appointmentDate
  }

  predicate DistinctKeys(s: seq<(nat, Appointment)>)
  {
    forall i, j :: 0 <= i < j < |s| ==> s[i].0 != s[j].0
  }

  /** Where an entry dated `date` goes: after every leading entry dated no earlier. */
  function InsertionPoint(s: seq<(nat, Appointment)>, date: int): (k: nat)
    ensures k <= |s|
    ensures forall i :: 0 <= i < k ==> s[i].1.appointmentDate >= date
    ensures k < |s| ==> s[k].1.appointmentDate < date
  {
    if s == [] || s[0].1.appointmentDate < date then 0 else 1 + InsertionPoint(s[1..], date)
  }

  /** `e` placed at its insertion point; sorted input stays sorted. */
  function InsertByDate(s: seq<(nat, Appointment)>, e: (nat, Appointment)): (r: seq<(nat, Appointment)>)
    ensures |r| == |s| + 1
    ensures var k := InsertionPoint(s, e.1.appointmentDate);
      && r[k] == e
      && (forall i :: 0 <= i < k ==> r[i] == s[i])
      && (forall i :: k < i < |r| ==> r[i] == s[i - 1])
  {
    var k := InsertionPoint(s, e.1.appointmentDate);
    s[..k] + [e] + s[k..]
  }

  /** Inserting adds `e` and loses nothing. */
  lemma InsertedMembers(s: seq<(nat, Appointment)>, e: (nat, Appointment))
    ensures forall x :: x in InsertByDate(s, e) <==> x in s || x == e
  {
    var k := InsertionPoint(s, e.1.appointmentDate);
    assert s == s[..k] + s[k..];
  }

  /** Inserting into a listing sorted latest first keeps it so. */
  lemma InsertKeepsSorted(s: seq<(nat, Appointment)>, e: (nat, Appointment))
    requires SortedByDate(s)
    ensures SortedByDate(InsertByDate(s, e))
  {
    var r := InsertByDate(s, e);
    var k := InsertionPoint(s, e.1.appointmentDate);
    forall i, j | 0 <= i < j < |r| ensures r[i].1.appointmentDate >= r[j].1.appointmentDate {
      if j < k {
      } else if j == k {
      } else if i < k {
        assert r[j] == s[j - 1];
      } else if i == k {
        assert r[j] == s[j - 1];
      } else {
        assert r[i] == s[i - 1] && r[j] == s[j - 1];
      }
    }
  }

  /** A key not yet listed stays unique once inserted. */
  lemma InsertKeepsDistinct(s: seq<(nat, Appointment)>, e: (nat, Appointment))
    requires DistinctKeys(s) && forall i :: 0 <= i < |s| ==> s[i].0 != e.0
    ensures DistinctKeys(InsertByDate(s, e))
  {
    var r := InsertByDate(s, e);
    var k := InsertionPoint(s, e.1.appointmentDate);
    forall i, j | 0 <= i < j < |r| ensures r[i].0 != r[j].0 {
      if i < k && j < k {
      } else if i < k && j == k {
      } else if i < k {
        assert r[j] == s[j - 1];
      } else if i == k {
        assert r[j] == s[j - 1];
      } else {
        assert r[i] == s[i - 1] && r[j] == s[j - 1];
      }
    }
  }

  /** The appointment collection and the handlers that read and change it. */
  class AppointmentService {
    var appointments: map<nat, Appointment>
    /** Key for the next record; `Valid` keeps it above every key in use, as fresh ids are. */
    var nextKey: nat

    ghost predicate Valid()
      reads this
    {
      forall k :: k in appointments ==> k < nextKey
    }

    constructor ()
      ensures Valid() && appointments == map[]
    {
      appointments := map[];
      nextKey := 0;
    }

    /** POST `/`: 401 before validation, 400 on a failed rule, 500 when saving fails, otherwise 201. */
    method Create(auth: Auth, req: BookingRequest, isEmail: string -> bool, isIso8601: string -> bool,
                  parseDate: string -> Option<int>) returns (code: nat, key: Option<nat>)
      requires Valid()
      modifies this
      ensures Valid()
      ensures !auth.Authenticated? ==> code == 401
      ensures auth.Authenticated? && !Acceptable(req, isEmail, isIso8601) ==> code == 400
      ensures auth.Authenticated? && Acceptable(req, isEmail, isIso8601) && !Storable(req, parseDate) ==> code == 500
      ensures auth.Authenticated? && Acceptable(req, isEmail, isIso8601) && Storable(req, parseDate) ==> code == 201
      ensures code == 201 ==> (key.Some? && key.value !in old(appointments)
        && appointments == old(appointments)[key.value := NewAppointment(auth.claims.userId, req, parseDate).value])
      ensures code != 201 ==> key.None? && appointments == old(appointments)
    {
      key := None;
      if !auth.Authenticated? {
        return 401, key;
      }
      if ValidationErrors(req, isEmail, isIso8601) != [] {
        return 400, key;
      }
      var record := NewAppointment(auth.claims.userId, req, parseDate);
      if record.None? {
        return 500, key;
      }
      key := Some(nextKey);
      appointments := appointments[nextKey := record.value];
      nextKey := nextKey + 1;
      code := 201;
    }

    /**
      GET `/my-appointments`: every record the caller's query selects, each
      once, latest date first.
     */
    method MyAppointments(auth: Auth) returns (code: nat, listing: seq<(nat, Appointment)>)
      ensures !auth.Authenticated? ==> code == 401 && listing == []
      ensures auth.Authenticated? ==> code == 200
      ensures forall i :: 0 <= i < |listing| ==>
        listing[i].0 in appointments && appointments[listing[i].0] == listing[i].1 && Listed(auth.claims, listing[i].1)
      ensures auth.Authenticated? ==> forall k :: k in appointments && Listed(auth.claims, appointments[k]) ==>
        exists i :: 0 <= i < |listing| && listing[i].0 == k
      ensures DistinctKeys(listing) && SortedByDate(listing)
    {
      listing := [];
      if !auth.Authenticated? {
        return 401, listing;
      }
      var claims := auth.claims;
      var pending := appointments.Keys;
      ghost var done: set<nat> := {};
      while pending != {}
        invariant pending + done == appointments.Keys && pending !! done
        invariant ListingFrom(listing, appointments, done, claims)
        invariant DistinctKeys(listing) && SortedByDate(listing)
        decreases |pending|
      {
        var k :| k in pending;
        if Listed(claims, appointments[k]) {
          ListingGrows(listing, appointments, done, claims, k);
          listing := InsertByDate(listing, (k, appointments[k]));
        }
        pending := pending - {k};
        done := done + {k};
      }
      code := 200;
    }

    /** GET `/:id`: 404 for an unknown id, then 403 unless the check as written lets the caller through. */
    method GetById(auth: Auth, id: nat) returns (code: nat, appointment: Option<Appointment>)
      ensures !auth.Authenticated? ==> code == 401
      ensures auth.Authenticated? && id !in appointments ==> code == 404
      ensures auth.Authenticated? && id in appointments && !MayReadAsWritten(auth.claims.userId, appointments[id]) ==> code == 403
      ensures auth.Authenticated? && id in appointments && MayReadAsWritten(auth.claims.userId, appointments[id]) ==> code == 200
      ensures appointment.Some? <==> code == 200
      ensures code == 200 ==> id in appointments && appointment == Some(appointments[id])
    {
      appointment := None;
      if !auth.Authenticated? {
        return 401, appointment;
      }
      if id !in appointments {
        return 404, appointment;
      }
      if !MayReadAsWritten(auth.claims.userId, appointments[id]) {
        return 403, appointment;
      }
      appointment := Some(appointments[id]);
      code := 200;
    }

    /** PUT `/:id`: 404 is checked before the role, then 403 for a non-doctor, then 500 for a bad status. */
    method Update(auth: Auth, id: nat, patch: Patch) returns (code: nat)
      requires Valid()
      modifies this`appointments
      ensures Valid()
      ensures !auth.Authenticated? ==> code == 401
      ensures auth.Authenticated? && id !in old(appointments) ==> code == 404
      ensures auth.Authenticated? && id in old(appointments) && !MayUpdate(auth.claims) ==> code == 403
      ensures auth.Authenticated? && id in old(appointments) && MayUpdate(auth.claims) ==>
        code == (if ApplyPatch(old(appointments)[id], patch).None? then 500 else 200)
      ensures code == 200 ==> (id in old(appointments)
        && appointments == old(appointments)[id := ApplyPatch(old(appointments)[id], patch).value])
      ensures code != 200 ==> appointments == old(appointments)
    {
      if !auth.Authenticated? {
        return 401;
      }
      if id !in appointments {
        return 404;
      }
      if !MayUpdate(auth.claims) {
        return 403;
      }
      var updated := ApplyPatch(appointments[id], patch);
      if updated.None? {
        return 500;
      }
      appointments := appointments[id := updated.value];
      code := 200;
    }

    /** DELETE `/:id`: 404, then 403 unless the caller is the record's patient; the record stays, cancelled. */
    method Cancel(auth: Auth, id: nat) returns (code: nat)
      requires Valid()
      modifies this`appointments
      ensures Valid()
      ensures !auth.Authenticated? ==> code == 401
      ensures auth.Authenticated? && id !in old(appointments) ==> code == 404
      ensures auth.Authenticated? && id in old(appointments) && !MayCancel(auth.claims.userId, old(appointments)[id]) ==> code == 403
      ensures auth.Authenticated? && id in old(appointments) && MayCancel(auth.claims.userId, old(appointments)[id]) ==> code == 200
      ensures code == 200 ==> id in old(appointments) && appointments == old(appointments)[id := CancelledRecord(old(appointments)[id])]
      ensures code != 200 ==> appointments == old(appointments)
    {
      if !auth.Authenticated? {
        return 401;
      }
      if id !in appointments {
        return 404;
      }
      if !MayCancel(auth.claims.userId, appointments[id]) {
        return 403;
      }
      appointments := appointments[id := CancelledRecord(appointments[id])];
      code := 200;
    }
  }

  /**
    `listing` holds, each under its key, exactly the records among `keys`
    that `claims` selects.
   */
  ghost predicate ListingFrom(listing: seq<(nat, Appointment)>, db: map<nat, Appointment>, keys: set<nat>, claims: Claims)
  {
    && (forall i :: 0 <= i < |listing| ==>
          listing[i].0 in keys && listing[i].0 in db && db[listing[i].0] == listing[i].1 && Listed(claims, listing[i].1))
    && (forall k :: k in keys && k in db && Listed(claims, db[k]) ==> exists i :: 0 <= i < |listing| && listing[i].0 == k)
  }

  /** Inserting a selected record under a new key extends the listing by that key, keeping it sorted and keyed once. */
  lemma ListingGrows(listing: seq<(nat, Appointment)>, db: map<nat, Appointment>, keys: set<nat>, claims: Claims, k: nat)
    requires ListingFrom(listing, db, keys, claims) && DistinctKeys(listing) && SortedByDate(listing)
    requires k in db && k !in keys && Listed(claims, db[k])
    ensures var r := InsertByDate(listing, (k, db[k]));
      ListingFrom(r, db, keys + {k}, claims) && DistinctKeys(r) && SortedByDate(r)
  {
    var e := (k, db[k]);
    var r := InsertByDate(listing, e);
    InsertKeepsDistinct(listing, e);
    InsertKeepsSorted(listing, e);
    InsertedMembers(listing, e);
    forall i | 0 <= i < |r|
      ensures r[i].0 in keys + {k} && r[i].0 in db && db[r[i].0] == r[i].1 && Listed(claims, r[i].1)
    {
      assert r[i] in r;
      if r[i] != e {
        var j :| 0 <= j < |listing| && listing[j] == r[i];
      }
    }
    ListingCovers(listing, db, keys, claims, k);
  }

  lemma ListingCovers(listing: seq<(nat, Appointment)>, db: map<nat, Appointment>, keys: set<nat>, claims: Claims, k: nat)
    requires forall j :: j in keys && j in db && Listed(claims, db[j]) ==> exists i :: 0 <= i < |listing| && listing[i].0 == j
    requires k in db
    ensures var r := InsertByDate(listing, (k, db[k]));
      forall j :: j in keys + {k} && j in db && Listed(claims, db[j]) ==> exists i :: 0 <= i < |r| && r[i].0 == j
  {
    var r := InsertByDate(listing, (k, db[k]));
    InsertedMembers(listing, (k, db[k]));
    forall j | j in keys + {k} && j in db && Listed(claims, db[j])
      ensures exists i :: 0 <= i < |r| && r[i].0 == j
    {
      if j == k {
        assert (k, db[k]) in r;
      } else {
        var i := EntryOf(listing, j);
        assert listing[i] in r;
      }
    }
  }

  /** The position of key `k` in a listing that holds it. */
  ghost function EntryOf(s: seq<(nat, Appointment)>, k: nat): (i: nat)
    requires exists i :: 0 <= i < |s| && s[i].0 == k
    ensures i < |s| && s[i].0 == k
  {
    var i :| 0 <= i < |s| && s[i].0 == k; i
  }
}
