/** The last wizard step: the draft is turned into a registration record and
    submitted; then one program application is created per selected program,
    each provided document is uploaded, and the submitted application is kept
    in storage. The database calls are outcomes passed in; an insert or upload
    that fails is logged and skipped, so only its attempt is modelled. */
module Confirmation {
  import opened Wrappers
  import opened Strings
  import opened Dicts
  import opened Lists
  import opened JsonValues
  import opened Storage
  import opened RegistrationDraft

  /** `draft.step?.key`. */
  function StepField(draft: Json, step: string, key: string): Json {
    Get(Get(draft, step), key)
  }

  /** The record sent to the registrations table: every field is present, a
      falsy draft value falls back to its default. */
  function SubmissionData(draft: Json): (r: Json)
    ensures r.JObj? && |r.fields| == |SubmissionKeys|
    ensures forall j | 0 <= j < |SubmissionKeys| :: r.fields[j].0 == SubmissionKeys[j]
  {
    JObj([
      ("full_name", Or(StepField(draft, "step1", "fullName"), JStr(""))),
      ("email", Or(StepField(draft, "step1", "emailAddress"), JStr(""))),
      ("mobile_number", Or(StepField(draft, "step1", "mobileNumber"), JStr(""))),
      ("business_name", Or(StepField(draft, "step2", "businessName"), JStr(""))),
      ("business_category", Or(StepField(draft, "step2", "businessCategory"), JStr(""))),
      ("business_location", Or(StepField(draft, "step2", "businessLocation"), JStr(""))),
      ("business_type", Or(StepField(draft, "step2", "businessType"), JStr("informal"))),
      ("number_of_employees", Or(StepField(draft, "step2", "numberOfEmployees"), JStr(""))),
      ("monthly_revenue", Or(StepField(draft, "step2", "monthlyRevenue"), JStr(""))),
      ("years_in_operation", JNum(ParseIntOrZeroOf(StepField(draft, "step2", "yearsInOperation")))),
      ("beee_level", Or(StepField(draft, "step2", "beeeLevel"), JStr("not_certified"))),
      ("selected_services", Or(StepField(draft, "step4", "selectedTypes"), JArr([]))),
      ("description", Or(StepField(draft, "step4", "description"), JStr("")))])
  }

  const SubmissionKeys: seq<string> := [
    "full_name", "email", "mobile_number", "business_name", "business_category",
    "business_location", "business_type", "number_of_employees", "monthly_revenue",
    "years_in_operation", "beee_level", "selected_services", "description"]

  /** Whatever the draft holds, the record has the same thirteen keys. */
  lemma SubmissionTotal(draft: Json)
    ensures SubmissionData(draft).JObj? && Keys(SubmissionData(draft).fields) == SubmissionKeys
  {
  }

  /** An empty draft gives the all-default record. */
  lemma SubmissionOfEmptyDraft()
    ensures SubmissionData(JObj([])) == JObj([
      ("full_name", JStr("")), ("email", JStr("")), ("mobile_number", JStr("")),
      ("business_name", JStr("")), ("business_category", JStr("")), ("business_location", JStr("")),
      ("business_type", JStr("informal")), ("number_of_employees", JStr("")), ("monthly_revenue", JStr("")),
      ("years_in_operation", JNum(0)), ("beee_level", JStr("not_certified")),
      ("selected_services", JArr([])), ("description", JStr(""))])
  {
    forall s, k ensures StepField(JObj([]), s, k) == JNull {
      assert Get(JObj([]), s) == JNull;
    }
  }

  /** The years field is `parseInt` of the draft value, or 0. */
  lemma SubmissionYearsField(draft: Json)
    ensures Get(SubmissionData(draft), "years_in_operation")
            == JNum(ParseIntOrZeroOf(StepField(draft, "step2", "yearsInOperation")))
  {
    var d := SubmissionData(draft).fields;
    forall j | 0 <= j < 9 ensures d[j].0 != "years_in_operation" {
      assert d[j].0 == SubmissionKeys[j];
      assert |d[j].0| != |"years_in_operation"|;
    }
    LookupFirst(d, 9);
  }

  /** The thirteen submission keys are distinct. */
  lemma SubmissionKeysDistinct()
    ensures forall i, j | 0 <= i < j < |SubmissionKeys| :: SubmissionKeys[i] != SubmissionKeys[j]
  {
  }

  /** Field by field, the record carries the draft's value when it is truthy
      and the field's default (`''`, `informal`, `not_certified`, `[]`) when
      the value is missing or falsy, whatever the other steps hold. */
  lemma SubmissionFieldValues(draft: Json)
    ensures var r, v := SubmissionData(draft), StepField(draft, "step1", "fullName");
            Get(r, "full_name") == if Truthy(v) then v else JStr("")
    ensures var r, v := SubmissionData(draft), StepField(draft, "step1", "emailAddress");
            Get(r, "email") == if Truthy(v) then v else JStr("")
    ensures var r, v := SubmissionData(draft), StepField(draft, "step1", "mobileNumber");
            Get(r, "mobile_number") == if Truthy(v) then v else JStr("")
    ensures var r, v := SubmissionData(draft), StepField(draft, "step2", "businessName");
            Get(r, "business_name") == if Truthy(v) then v else JStr("")
    ensures var r, v := SubmissionData(draft), StepField(draft, "step2", "businessCategory");
            Get(r, "business_category") == if Truthy(v) then v else JStr("")
    ensures var r, v := SubmissionData(draft), StepField(draft, "step2", "businessLocation");
            Get(r, "business_location") == if Truthy(v) then v else JStr("")
    ensures var r, v := SubmissionData(draft), StepField(draft, "step2", "businessType");
            Get(r, "business_type") == if Truthy(v) then v else JStr("informal")
    ensures var r, v := SubmissionData(draft), StepField(draft, "step2", "numberOfEmployees");
            Get(r, "number_of_employees") == if Truthy(v) then v else JStr("")
    ensures var r, v := SubmissionData(draft), StepField(draft, "step2", "monthlyRevenue");
            Get(r, "monthly_revenue") == if Truthy(v) then v else JStr("")
    ensures var r, v := SubmissionData(draft), StepField(draft, "step2", "beeeLevel");
            Get(r, "beee_level") == if Truthy(v) then v else JStr("not_certified")
    ensures var r, v := SubmissionData(draft), StepField(draft, "step4", "selectedTypes");
            Get(r, "selected_services") == if Truthy(v) then v else JArr([])
    ensures var r, v := SubmissionData(draft), StepField(draft, "step4", "description");
            Get(r, "description") == if Truthy(v) then v else JStr("")
  {
    var r := SubmissionData(draft);
    SubmissionFieldAt(draft, 0);
    SubmissionFieldAt(draft, 1);
    SubmissionFieldAt(draft, 2);
    SubmissionFieldAt(draft, 3);
    SubmissionFieldAt(draft, 4);
    SubmissionFieldAt(draft, 5);
    SubmissionFieldAt(draft, 6);
    SubmissionFieldAt(draft, 7);
    SubmissionFieldAt(draft, 8);
    SubmissionFieldAt(draft, 10);
    SubmissionFieldAt(draft, 11);
    SubmissionFieldAt(draft, 12);
  }

  /** The record read at its j-th key gives its j-th entry. */
  lemma SubmissionFieldAt(draft: Json, j: nat)
    requires j < |SubmissionKeys|
    ensures Get(SubmissionData(draft), SubmissionKeys[j]) == SubmissionData(draft).fields[j].1
  {
    var d := SubmissionData(draft).fields;
    SubmissionKeysDistinct();
    assert forall i | 0 <= i < |d| :: d[i].0 == SubmissionKeys[i];
    LookupFirst(d, j);
  }

  /** A years value typed as digits is submitted as that number; text that
      is not a number is submitted as 0. */
  lemma SubmissionYears(draft: Json, n: nat)
    ensures StepField(draft, "step2", "yearsInOperation") == JStr(NatToString(n)) ==>
              Get(SubmissionData(draft), "years_in_operation") == JNum(n)
    ensures StepField(draft, "step2", "yearsInOperation") == JStr("abc") ==>
              Get(SubmissionData(draft), "years_in_operation") == JNum(0)
  {
    SubmissionYearsField(draft);
    ParseIntOfNatToString(n);
    assert Scan("abc", 0, 0, false, 10, 0, false) == None;
  }

  datatype SubmitResult = SubmitResult(id: string, referenceNumber: string, submittedAt: string)

  /** An attempted insert into the program applications table. */
  datatype ProgramInsert = ProgramInsert(programId: Json, applicantId: string, applicationData: Json, status: string)

  /** The application row for one selected program: the registration record
      plus the program name and the source tag, under the registration id. */
  function ProgramApplication(program: Json, submission: Json, registrationId: string): ProgramInsert {
    ProgramInsert(
      Get(program, "id"), registrationId,
      With(With(submission, "program_name", Get(program, "name")), "application_source", JStr("business_registration")),
      "submitted")
  }

  /** One insert per program, in order. */
  function Inserts(programs: seq<Json>, submission: Json, registrationId: string): (r: seq<ProgramInsert>)
    ensures |r| == |programs|
    ensures forall i :: 0 <= i < |programs| ==> r[i] == ProgramApplication(programs[i], submission, registrationId)
  {
    seq(|programs|, i requires 0 <= i < |programs| => ProgramApplication(programs[i], submission, registrationId))
  }

  /** The `for` loop over the selected programs. A failed insert is caught
      inside the loop, so every program gets its attempt. */
  method CreateProgramApplications(programs: seq<Json>, submission: Json, registrationId: string)
    returns (attempts: seq<ProgramInsert>)
    ensures attempts == Inserts(programs, submission, registrationId)
  {
    attempts := [];
    var i := 0;
    while i < |programs|
      invariant 0 <= i <= |programs|
      invariant attempts == Inserts(programs[..i], submission, registrationId)
    {
      attempts := attempts + [ProgramApplication(programs[i], submission, registrationId)];
      i := i + 1;
    }
    assert programs[..i] == programs;
  }

  /** `Object.entries(j)`: an object's own properties; an array's or a
      string's elements under their index; nothing for other values. */
  function Entries(j: Json): Dict<Json> {
    match j
    case JObj(fields) => fields
    case JArr(items) => seq(|items|, i requires 0 <= i < |items| => (NatToString(i), items[i]))
    case JStr(s) => seq(|s|, i requires 0 <= i < |s| => (NatToString(i), JStr([s[i]])))
    case _ => []
  }

  function DocumentEntries(draft: Json): Dict<Json> {
    var docs := Get(draft, "step3");
    if Truthy(docs) then Entries(docs) else []
  }

  /** The uploads attempted: exactly the truthy entries, in order. */
  function Uploads(entries: Dict<Json>): seq<(string, Json)> {
    Filter(entries, (e: (string, Json)) => Truthy(e.1))
  }

  /** The `for` loop over the document entries. A failed upload is caught
      inside the loop, so every provided document gets its attempt. */
  method UploadDocuments(entries: Dict<Json>) returns (attempts: seq<(string, Json)>)
    ensures attempts == Uploads(entries)
  {
    attempts := [];
    var i := 0;
    while i < |entries|
      invariant 0 <= i <= |entries|
      invariant attempts == Uploads(entries[..i])
    {
      FilterConcat(entries[..i], [entries[i]], (e: (string, Json)) => Truthy(e.1));
      assert entries[..i + 1] == entries[..i] + [entries[i]];
      if Truthy(entries[i].1) {
        attempts := attempts + [entries[i]];
      }
      i := i + 1;
    }
    assert entries[..i] == entries;
  }

  /** An entry is uploaded exactly when it is truthy, and the uploads keep
      the entry order. */
  lemma UploadsExact(entries: Dict<Json>, e: (string, Json))
    ensures e in Uploads(entries) <==> e in entries && Truthy(e.1)
    ensures IsSubsequence(Uploads(entries), entries)
  {
    FilterMember(entries, (x: (string, Json)) => Truthy(x.1), e);
    FilterIsSubsequence(entries, (x: (string, Json)) => Truthy(x.1));
  }

  const ApplicationKey := "applicationData"
  const SubmitError := "Error submitting registration. Please try again."

  /** The stored application: the draft plus its number, status and time. */
  function ApplicationData(draft: Json, result: SubmitResult): (j: Json)
    ensures Get(j, "applicationNumber") == JStr(result.referenceNumber)
    ensures Get(j, "status") == JStr("Pending Review")
    ensures Get(j, "submittedAt") == JStr(result.submittedAt)
    ensures forall k | k !in {"applicationNumber", "status", "submittedAt"} :: Get(j, k) == Get(draft, k)
  {
    Merged(Merged(Merged(draft, "applicationNumber", JStr(result.referenceNumber)),
                  "status", JStr("Pending Review")),
           "submittedAt", JStr(result.submittedAt))
  }

  function SelectedProgramsOf(draft: Json): Json {
    StepField(draft, "step4", "selectedPrograms")
  }

  /** `for (const p of x)` throws unless `x` is iterable; the draft's program
      list is an array when present. */
  predicate ProgramsIterable(programs: Json) {
    !Truthy(programs) || programs.JArr?
  }

  function ProgramList(programs: Json): seq<Json> {
    if programs.JArr? then programs.items else []
  }

  /** Everything after the registration insert succeeded: the program loop
      (which throws when the program list is not iterable), the document
      loop, and storing the application. */
  method CompleteSubmission(store: LocalStorage, draft: Json, result: SubmitResult)
    returns (inserts: seq<ProgramInsert>, uploads: seq<(string, Json)>, alert: Option<string>)
    modifies store
    ensures !ProgramsIterable(SelectedProgramsOf(draft)) ==>
              inserts == [] && uploads == [] && alert == Some(SubmitError) && store.items == old(store.items)
    ensures ProgramsIterable(SelectedProgramsOf(draft)) ==>
              && inserts == Inserts(ProgramList(SelectedProgramsOf(draft)), SubmissionData(draft), result.id)
              && uploads == Uploads(DocumentEntries(draft))
              && alert == None
              && store.items == old(store.items)[ApplicationKey := Encoded(ApplicationData(draft, result))]
  {
    inserts, uploads := [], [];
    var programs := SelectedProgramsOf(draft);
    if Truthy(programs) {
      if !programs.JArr? {
        return [], [], Some(SubmitError);
      }
      inserts := CreateProgramApplications(programs.items, SubmissionData(draft), result.id);
    } else {
      assert ProgramList(programs) == [];
    }
    uploads := UploadDocuments(DocumentEntries(draft));
    store.SetItem(ApplicationKey, Encoded(ApplicationData(draft, result)));
    alert := None;
  }

  class ConfirmationPage {
    var applicationNumber: string
    var isSubmitting: bool

    constructor ()
      ensures applicationNumber == "" && !isSubmitting
    {
      applicationNumber := "";
      isSubmitting := false;
    }

    /** `submitRegistration`, run once when the page opens. `outcome` is what
        the registration insert returned (`None`: nothing). Any throw ends in
        the alert, and by then the steps already done stay done. */
    method SubmitRegistration(store: LocalStorage, outcome: Option<SubmitResult>)
      returns (inserts: seq<ProgramInsert>, uploads: seq<(string, Json)>, alert: Option<string>)
      modifies this, store
      ensures !isSubmitting
      ensures ItemAt(store.items, DraftKey) == ItemAt(old(store.items), DraftKey)
      ensures Draft(old(store.items)).Err? || outcome.None? ==>
                inserts == [] && uploads == [] && alert == Some(SubmitError)
                && store.items == old(store.items) && applicationNumber == old(applicationNumber)
      ensures Draft(old(store.items)).Ok? && outcome.Some? ==>
                var draft := Draft(old(store.items)).value;
                && applicationNumber == outcome.value.referenceNumber
                && (!ProgramsIterable(SelectedProgramsOf(draft)) ==>
                      inserts == [] && uploads == [] && alert == Some(SubmitError)
                      && store.items == old(store.items))
                && (ProgramsIterable(SelectedProgramsOf(draft)) ==>
                      && inserts == Inserts(ProgramList(SelectedProgramsOf(draft)), SubmissionData(draft), outcome.value.id)
                      && uploads == Uploads(DocumentEntries(draft))
                      && alert == None
                      && store.items == old(store.items)[ApplicationKey := Encoded(ApplicationData(draft, outcome.value))])
    {
      isSubmitting := true;
      var stored := store.GetItem(DraftKey);
      var parsed := ParseStored(stored, JObj([]));
      if parsed.Err? || outcome.None? {
        inserts, uploads, alert := [], [], Some(SubmitError);
      } else {
        applicationNumber := outcome.value.referenceNumber;
        inserts, uploads, alert := CompleteSubmission(store, parsed.value, outcome.value);
      }
      isSubmitting := false;
    }

    /** `goToDashboard`: the only place the draft is removed. */
    method GoToDashboard(store: LocalStorage) returns (navigateTo: string)
      modifies store
      ensures store.items == old(store.items) - {DraftKey}
      ensures navigateTo == "/login"
    {
      store.RemoveItem(DraftKey);
      navigateTo := "/login";
    }
  }
}
