/** The doctor's dashboard: the patient search, the patient selection, the lab-test
    selection inside the request modal, the medication form and the appointment counts.
    The list logic is given as functions; class `Dashboard` holds the component's state,
    which the handlers replace through their setters. Remote calls are inputs (results)
    or outputs (the request issued). */
module DoctorDashboard {
  import opened Outcomes
  import opened Lists
  import opened Text
  import AuthContext

  /** A row of the `patients` table. */
  datatype Patient = Patient(id: string, displayName: string, phone: string, dob: string, gender: string)

  /** A row of the `appointments` table. */
  datatype Appointment = Appointment(id: string, patientId: string, scheduledAt: string, problemSummary: string, status: string)

  /** The lab request the confirm button sends. */
  datatype LabRequestDraft = LabRequestDraft(patientId: string, requestedBy: string, tests: seq<string>)

  /** The medication form's inputs. */
  datatype MedicationForm = MedicationForm(
    medicineName: string, dosage: string, frequency: string,
    prescribedBy: string, startDate: string, endDate: string)

  /** The medication record the add button sends; an absent end date means "ongoing". */
  datatype MedicationDraft = MedicationDraft(
    patientId: string, prescribedBy: string, name: string, dose: string,
    frequency: string, startDate: string, endDate: Option<string>)

  // ---------------------------------------------------------------------------
  // Lab-test selection

  /** `handleTestSelection`'s update: a selected test is removed (every copy of it), an
      unselected one is appended. */
  function Toggle(selected: seq<string>, test: string): (r: seq<string>)
    ensures (test in r) <==> (test !in selected)
    ensures forall x :: x != test ==> (x in r <==> x in selected)
    ensures test in selected ==> IsSubseq(r, selected)
    ensures test !in selected ==> r == selected + [test]
  {
    if test in selected then
      FilterIsSubseq(Unequal(test), selected);
      RemoveAll(selected, test)
    else
      selected + [test]
  }

  /** Toggling keeps every copy of every other test, as `filter` does. */
  lemma ToggleKeepsOtherCopies(selected: seq<string>, test: string)
    ensures forall x :: x != test ==> multiset(Toggle(selected, test))[x] == multiset(selected)[x]
  {
    FilterCounts(Unequal(test), selected);
  }

  /** Toggling never introduces a duplicate. */
  lemma ToggleKeepsNoDup(selected: seq<string>, test: string)
    requires NoDup(selected)
    ensures NoDup(Toggle(selected, test))
  {
    if test in selected {
      FilterNoDup(Unequal(test), selected);
    } else {
      NoDupSnoc(selected, test);
    }
  }

  /** Toggling an unselected test twice restores the selection exactly. */
  lemma ToggleTwiceUnselected(selected: seq<string>, test: string)
    requires test !in selected
    ensures Toggle(Toggle(selected, test), test) == selected
  {
    var f := Unequal(test);
    FilterConcat(f, selected, [test]);
    FilterKeepsAll(f, selected);
    assert Filter(f, [test]) == [];
    assert Toggle(selected + [test], test) == Filter(f, selected + [test]);
  }

  /** Toggling a selected test twice keeps the same tests but moves it to the end; in a
      selection without duplicates the result is a permutation of the original. */
  lemma ToggleTwiceSelected(selected: seq<string>, test: string)
    requires test in selected
    ensures Toggle(Toggle(selected, test), test) == RemoveAll(selected, test) + [test]
    ensures forall x :: x in Toggle(Toggle(selected, test), test) <==> x in selected
    ensures NoDup(selected) ==> multiset(Toggle(Toggle(selected, test), test)) == multiset(selected)
  {
    if NoDup(selected) {
      RemoveAllOnce(selected, test);
    }
  }

  // ---------------------------------------------------------------------------
  // Patient search

  /** The search matches the lower-cased name or id against the lower-cased term. */
  predicate PatientMatches(p: Patient, term: string) {
    Contains(Lower(p.displayName), Lower(term)) || Contains(Lower(p.id), Lower(term))
  }

  function MatchesTerm(term: string): Patient -> bool {
    (p: Patient) => PatientMatches(p, term)
  }

  /** `filteredPatients`: the patients that match the term, in their original order. */
  function FilteredPatients(patients: seq<Patient>, term: string): (r: seq<Patient>)
    ensures forall p :: p in r <==> p in patients && PatientMatches(p, term)
    ensures forall p :: multiset(r)[p] == if PatientMatches(p, term) then multiset(patients)[p] else 0
    ensures IsSubseq(r, patients)
  {
    FilterIsSubseq(MatchesTerm(term), patients);
    FilterCounts(MatchesTerm(term), patients);
    Filter(MatchesTerm(term), patients)
  }

  /** An empty search term keeps every patient, in order. */
  lemma EmptySearchKeepsAll(patients: seq<Patient>)
    ensures FilteredPatients(patients, "") == patients
  {
    forall p | p in patients ensures MatchesTerm("")(p) {
      assert Lower("") == "";
      assert Contains(Lower(p.displayName), "");
    }
    FilterKeepsAll(MatchesTerm(""), patients);
  }

  /** The search ignores the case of the term: terms that lower-case alike find the same
      patients (in particular a term and its lower-cased form). */
  lemma SearchIgnoresTermCase(patients: seq<Patient>, a: string, b: string)
    requires Lower(a) == Lower(b)
    ensures FilteredPatients(patients, a) == FilteredPatients(patients, b)
    ensures FilteredPatients(patients, a) == FilteredPatients(patients, Lower(a))
  {
    FilterExtensional(MatchesTerm(a), MatchesTerm(b), patients);
    LowerIdempotent(a);
    FilterExtensional(MatchesTerm(a), MatchesTerm(Lower(a)), patients);
  }

  /** Any piece of a patient's name, typed in any case, finds that patient. */
  lemma {:induction false} SearchFindsNamePiece(patients: seq<Patient>, p: Patient, term: string, k: nat)
    requires p in patients
    requires k + |term| <= |p.displayName| && Lower(p.displayName[k..k + |term|]) == Lower(term)
    ensures p in FilteredPatients(patients, term)
  {
    var name := Lower(p.displayName);
    assert name[k..k + |term|] == Lower(p.displayName[k..k + |term|]);
    ContainsAt(name, Lower(term), k);
  }

  /** `patients.find(p => p.id === id)`: the first patient with that id. */
  function FindPatient(patients: seq<Patient>, id: string): (r: Option<Patient>)
    ensures r.Some? ==> r.value in patients && r.value.id == id
    ensures r.None? <==> forall p :: p in patients ==> p.id != id
    ensures r.Some? ==> exists i :: 0 <= i < |patients| && patients[i] == r.value &&
                          forall j :: 0 <= j < i ==> patients[j].id != id
  {
    if patients == [] then None
    else if patients[0].id == id then Some(patients[0])
    else
      var r := FindPatient(patients[1..], id);
      assert forall p :: p in patients <==> p == patients[0] || p in patients[1..];
      if r.Some? then
        ghost var i :| 0 <= i < |patients[1..]| && patients[1..][i] == r.value &&
                       forall j :: 0 <= j < i ==> patients[1..][j].id != id;
        assert patients[i + 1] == r.value;
        r
      else r
  }

  // ---------------------------------------------------------------------------
  // Appointment counts

  function HasStatus(status: string): Appointment -> bool {
    (a: Appointment) => a.status == status
  }

  /** `appointments.filter(a => a.status === status).length`. */
  function StatusCount(appointments: seq<Appointment>, status: string): (n: nat)
    ensures n <= |appointments|
    ensures n == 0 <==> forall a :: a in appointments ==> a.status != status
    ensures |appointments| == 1 ==> n == if appointments[0].status == status then 1 else 0
  {
    var matching := Filter(HasStatus(status), appointments);
    assert matching == [] <==> forall a :: a in appointments ==> a.status != status by {
      if matching != [] {
        assert matching[0] in matching;
      }
    }
    |matching|
  }

  /** Counts add up over any split of the list; with the one-appointment case of
      `StatusCount`, this makes the count the number of appointments with the status. */
  lemma StatusCountSplit(a: seq<Appointment>, b: seq<Appointment>, status: string)
    ensures StatusCount(a + b, status) == StatusCount(a, status) + StatusCount(b, status)
  {
    FilterConcat(HasStatus(status), a, b);
  }

  /** The completed and the pending counts together never exceed the total. */
  lemma CompletedAndPendingWithinTotal(appointments: seq<Appointment>)
    ensures StatusCount(appointments, "completed") + StatusCount(appointments, "waiting") <= |appointments|
  {
    FilterDisjointLength(HasStatus("completed"), HasStatus("waiting"), appointments);
  }

  // ---------------------------------------------------------------------------
  // Medication form

  /** The prescriber name pre-filled into the form: the doctor's full name, or empty. */
  function PrescriberName(doctor: Option<AuthContext.Profile>): string {
    if doctor.Some? then doctor.value.fullName else ""
  }

  function BlankMedicationForm(prescribedBy: string, today: string): MedicationForm {
    MedicationForm("", "", "", prescribedBy, today, "")
  }

  /** `data || []`: a null result is an empty list. */
  function OrEmpty<T>(data: Option<seq<T>>): seq<T> {
    if data.Some? then data.value else []
  }

  /** The dashboard component's state. `doctor` is the signed-in profile, read from the
      session provider and never changed here. */
  class Dashboard {
    const doctor: Option<AuthContext.Profile>
    var appointments: seq<Appointment>
    var patients: seq<Patient>
    var loading: bool
    var searchTerm: string
    var selectedPatient: Option<Patient>
    var activeTab: string
    var showActionModal: Option<string>
    var selectedTests: seq<string>
    var showMedicationModal: bool
    var medicationForm: MedicationForm

    /** The selected tests never contain a duplicate. */
    ghost predicate Valid()
      reads this`selectedTests
    {
      NoDup(selectedTests)
    }

    /** The state on mount; `today` is the date that pre-fills the start date. */
    constructor (doctor: Option<AuthContext.Profile>, today: string)
      ensures Valid()
      ensures this.doctor == doctor
      ensures appointments == [] && patients == [] && loading
      ensures searchTerm == "" && selectedPatient.None? && activeTab == "overview"
      ensures showActionModal.None? && selectedTests == []
      ensures !showMedicationModal && medicationForm == BlankMedicationForm(PrescriberName(doctor), today)
    {
      this.doctor := doctor;
      appointments, patients := [], [];
      loading := true;
      searchTerm := "";
      selectedPatient := None;
      activeTab := "overview";
      showActionModal := None;
      selectedTests := [];
      showMedicationModal := false;
      medicationForm := BlankMedicationForm(PrescriberName(doctor), today);
    }

    /** `loadDashboardData`, run when a profile is present: the doctor's appointments,
        then every patient; a rejection stops the sequence, and `loading` ends false. */
    method LoadDashboardData(appointmentsResult: Remote<seq<Appointment>>, patientsResult: Remote<seq<Patient>>)
      modifies this`appointments, this`patients, this`loading
      ensures doctor.None? ==> appointments == old(appointments) && patients == old(patients) && loading == old(loading)
      ensures doctor.Some? ==> !loading
      ensures doctor.Some? ==>
                appointments == (if appointmentsResult.Resolved? then OrEmpty(appointmentsResult.result) else old(appointments))
      ensures doctor.Some? ==>
                patients == (if appointmentsResult.Resolved? && patientsResult.Resolved? then OrEmpty(patientsResult.result)
                             else old(patients))
    {
      if doctor.None? {
        return;
      }
      loading := true;
      match appointmentsResult {
        case Resolved(data) =>
          appointments := OrEmpty(data);
          match patientsResult {
            case Resolved(rows) => patients := OrEmpty(rows);
            case Rejected(_) =>
          }
        case Rejected(_) =>
      }
      loading := false;
    }

    /** Typing into the search box. */
    method SetSearchTerm(term: string)
      modifies this`searchTerm
      ensures searchTerm == term
    {
      searchTerm := term;
    }

    /** `handlePatientSelect`: select the patient, show its overview, clear the search. */
    method SelectPatient(p: Patient)
      modifies this`selectedPatient, this`activeTab, this`searchTerm
      ensures selectedPatient == Some(p) && activeTab == "overview" && searchTerm == ""
    {
      selectedPatient := Some(p);
      activeTab := "overview";
      searchTerm := "";
    }

    /** Clicking an appointment selects its patient, when the patient list holds one with
        that id. */
    method SelectAppointment(a: Appointment)
      modifies this`selectedPatient, this`activeTab, this`searchTerm
      ensures var found := FindPatient(patients, a.patientId);
              if found.Some? then selectedPatient == found && activeTab == "overview" && searchTerm == ""
              else selectedPatient == old(selectedPatient) && activeTab == old(activeTab) && searchTerm == old(searchTerm)
    {
      var found := FindPatient(patients, a.patientId);
      if found.Some? {
        SelectPatient(found.value);
      }
    }

    /** A quick-action button opens its modal; the selection is left as it was. */
    method OpenActionModal(actionId: string)
      modifies this`showActionModal
      ensures showActionModal == Some(actionId)
    {
      showActionModal := Some(actionId);
    }

    /** `handleTestSelection`. */
    method ToggleTest(test: string)
      requires Valid()
      modifies this`selectedTests
      ensures Valid()
      ensures selectedTests == Toggle(old(selectedTests), test)
    {
      ToggleKeepsNoDup(selectedTests, test);
      if test in selectedTests {
        selectedTests := RemoveAll(selectedTests, test);
      } else {
        selectedTests := selectedTests + [test];
      }
    }

    /** `handleConfirmTests`: with a non-empty selection and a selected patient, send the
        request (for the tests selected at that moment), clear the selection and close the
        modal; otherwise do nothing. The request is not sent when there is no signed-in
        profile to name as requester (reading its id throws inside the guarded call). */
    method ConfirmTests() returns (request: Option<LabRequestDraft>)
      requires Valid()
      modifies this`selectedTests, this`showActionModal
      ensures Valid()
      ensures old(selectedTests) != [] && selectedPatient.Some? ==>
                selectedTests == [] && showActionModal.None? &&
                request == (if doctor.Some?
                            then Some(LabRequestDraft(selectedPatient.value.id, doctor.value.id, old(selectedTests)))
                            else None)
      ensures !(old(selectedTests) != [] && selectedPatient.Some?) ==>
                request.None? && selectedTests == old(selectedTests) && showActionModal == old(showActionModal)
    {
      request := None;
      if |selectedTests| > 0 && selectedPatient.Some? {
        if doctor.Some? {
          request := Some(LabRequestDraft(selectedPatient.value.id, doctor.value.id, selectedTests));
        }
        selectedTests := [];
        showActionModal := None;
      }
    }

    /** `handleCloseModal`: the cancel button always empties the selection and closes the modal. */
    method CloseModal()
      modifies this`selectedTests, this`showActionModal
      ensures Valid()
      ensures selectedTests == [] && showActionModal.None?
    {
      selectedTests := [];
      showActionModal := None;
    }

    /** `handleAddMedication`: nothing happens without a selected patient. Otherwise the
        form is sent with an empty end date sent as null; when the insert succeeds the modal
        closes and the form is reset (with `today` as start date). The record is not sent
        when there is no signed-in profile to name as prescriber. */
    method AddMedication(addResult: Outcome, today: string) returns (request: Option<MedicationDraft>)
      modifies this`showMedicationModal, this`medicationForm
      ensures selectedPatient.None? ==>
                request.None? && showMedicationModal == old(showMedicationModal) && medicationForm == old(medicationForm)
      ensures request.Some? <==> selectedPatient.Some? && doctor.Some?
      ensures request.Some? ==>
                var form := old(medicationForm);
                request.value == MedicationDraft(selectedPatient.value.id, doctor.value.id, form.medicineName, form.dosage,
                                                 form.frequency, form.startDate,
                                                 if form.endDate == "" then None else Some(form.endDate))
      ensures request.Some? && addResult.Succeeded? ==>
                !showMedicationModal && medicationForm == BlankMedicationForm(PrescriberName(doctor), today)
      ensures !(request.Some? && addResult.Succeeded?) ==>
                showMedicationModal == old(showMedicationModal) && medicationForm == old(medicationForm)
    {
      request := None;
      if selectedPatient.None? {
        return;
      }
      if doctor.Some? {
        var form := medicationForm;
        var endDate := if form.endDate == "" then None else Some(form.endDate);
        request := Some(MedicationDraft(selectedPatient.value.id, doctor.value.id, form.medicineName, form.dosage,
                                        form.frequency, form.startDate, endDate));
        if addResult.Succeeded? {
          showMedicationModal := false;
          medicationForm := BlankMedicationForm(PrescriberName(doctor), today);
        }
      }
    }
  }
}

/** Clients of the dashboard: selecting a patient, choosing two blood tests (one of them
    chosen and unchosen on the way) and confirming sends one request for exactly those two
    tests; a medication added from a blank form has no end date and is sent as ongoing. */
module DashboardScenario {
  import opened Outcomes
  import opened Lists
  import opened DoctorDashboard
  import AuthContext

  /** Unchoosing the middle of three tests leaves the other two in order. */
  lemma TogglesOffMiddle()
    ensures Toggle(["CBC", "Lipid Profile", "Blood Sugar"], "Lipid Profile") == ["CBC", "Blood Sugar"]
  {
    var three := ["CBC", "Lipid Profile", "Blood Sugar"];
    var keep := Unequal("Lipid Profile");
    assert three[1..] == ["Lipid Profile", "Blood Sugar"] && three[1..][1..] == ["Blood Sugar"];
    assert Filter(keep, ["Blood Sugar"]) == ["Blood Sugar"] by {
      assert ["Blood Sugar"][1..] == [];
    }
    assert Filter(keep, three[1..]) == ["Blood Sugar"];
  }

  method RequestTests(doctor: AuthContext.Profile, p: Patient, today: string)
  {
    var board := new Dashboard(Some(doctor), today);
    board.SelectPatient(p);
    board.OpenActionModal("blood_test");
    board.ToggleTest("CBC");
    assert board.selectedTests == ["CBC"];
    board.ToggleTest("Lipid Profile");
    assert board.selectedTests == ["CBC", "Lipid Profile"];
    board.ToggleTest("Blood Sugar");
    assert board.selectedTests == ["CBC", "Lipid Profile", "Blood Sugar"];
    TogglesOffMiddle();
    board.ToggleTest("Lipid Profile");
    assert board.selectedTests == ["CBC", "Blood Sugar"];
    var lab := board.ConfirmTests();
    assert lab == Some(LabRequestDraft(p.id, doctor.id, ["CBC", "Blood Sugar"]));
    assert board.selectedTests == [] && board.showActionModal.None?;
  }

  method AddOngoingMedication(doctor: AuthContext.Profile, p: Patient, today: string)
  {
    var board := new Dashboard(Some(doctor), today);
    board.SelectPatient(p);
    var medication := board.AddMedication(Succeeded, today);
    assert medication.Some? && medication.value.endDate.None?;
    assert medication.value.patientId == p.id;
  }
}
