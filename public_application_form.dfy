/** The public application form reached through a program's share link: the
    form state, the field renderer's type dispatch, and the submission, which
    creates an account, a business, the uploads and the application one step
    after another and stops at the first failure. */
module PublicApplicationForm {
  import opened Wrappers
  import opened Dicts
  import opened Strings
  import opened JsonValues
  import SupportingDocuments
  import AuthContext

  type File = SupportingDocuments.File

  // ---------------------------------------------------------------------------
  // Form state

  /** `handleInputChange`: `{ ...prev, [fieldId]: value }`. */
  function InputChange(formData: Json, fieldId: string, value: Json): (r: Json)
    ensures Get(r, fieldId) == value
  {
    WithGetSame(formData, fieldId, value);
    With(formData, fieldId, value)
  }

  /** The edited field reads the new value, every other field reads as before,
      and the field order is kept (a new field comes last). */
  lemma InputChangeScope(formData: Json, fieldId: string, value: Json)
    ensures Get(InputChange(formData, fieldId, value), fieldId) == value
    ensures forall other | other != fieldId ::
              Get(InputChange(formData, fieldId, value), other) == Get(formData, other)
    ensures Keys(Fields(InputChange(formData, fieldId, value))) ==
              if HasKey(Fields(formData), fieldId) then Keys(Fields(formData))
              else Keys(Fields(formData)) + [fieldId]
  {
    WithGetSame(formData, fieldId, value);
    forall other | other != fieldId
      ensures Get(InputChange(formData, fieldId, value), other) == Get(formData, other)
    {
      WithGetOther(formData, fieldId, value, other);
    }
    PutKeys(Fields(formData), fieldId, value);
  }

  /** `handleFileChange`: a chosen file replaces the field's entry; no file
      (`null`) changes nothing. */
  function FileChange(files: Dict<File>, fieldId: string, file: Option<File>): (r: Dict<File>)
    ensures file.None? ==> r == files
    ensures file.Some? ==> Lookup(r, fieldId) == file
  {
    if file.Some? then PutLookupSame(files, fieldId, file.value); Put(files, fieldId, file.value) else files
  }

  lemma FileChangeScope(files: Dict<File>, fieldId: string, file: Option<File>)
    ensures file.None? ==> FileChange(files, fieldId, file) == files
    ensures file.Some? ==> Lookup(FileChange(files, fieldId, file), fieldId) == file
    ensures forall other | other != fieldId ::
              Lookup(FileChange(files, fieldId, file), other) == Lookup(files, other)
    ensures UniqueKeys(files) ==> UniqueKeys(FileChange(files, fieldId, file))
  {
    if file.Some? {
      PutLookup(files, fieldId, file.value);
      if UniqueKeys(files) {
        PutUnique(files, fieldId, file.value);
      }
    }
  }

  // ---------------------------------------------------------------------------
  // Rendering a field

  /** A field of the program's application form. */
  datatype Field = Field(
    id: string, kind: string, text: string, required: bool,
    options: Option<seq<string>>, placeholder: Json)

  /** Text as `renderField` uses it; a value that is not text reads as empty. */
  function TextOf(j: Json): string {
    if j.JStr? then j.s else ""
  }

  /** A descriptor of `form_config.fields` as `renderField` destructures it:
      `required` counts when truthy, and `options` only when it is an array. */
  function FieldOf(j: Json): (f: Field)
    ensures f.required <==> Truthy(Get(j, "required"))
    ensures Get(j, "type").JStr? ==> f.kind == Get(j, "type").s
  {
    var options := Get(j, "options");
    Field(TextOf(Get(j, "id")), TextOf(Get(j, "type")), TextOf(Get(j, "label")),
          Truthy(Get(j, "required")),
          if options.JArr? then Some(seq(|options.items|, i requires 0 <= i < |options.items| => TextOf(options.items[i])))
          else None,
          Get(j, "placeholder"))
  }

  /** The fields the page draws: `applicationForm.form_config.fields`. */
  function FormFields(applicationForm: Json): (r: seq<Field>)
    ensures var fs := Get(Get(applicationForm, "form_config"), "fields");
            && (fs.JArr? ==> |r| == |fs.items| && forall i | 0 <= i < |r| :: r[i] == FieldOf(fs.items[i]))
            && (!fs.JArr? ==> r == [])
  {
    var fs := Get(Get(applicationForm, "form_config"), "fields");
    if fs.JArr? then seq(|fs.items|, i requires 0 <= i < |fs.items| => FieldOf(fs.items[i])) else []
  }

  /** What `renderField` draws. */
  datatype Control =
    | TextInput(id: string, inputType: string, text: string, required: bool, value: Json, placeholder: Json)
    | TextArea(id: string, text: string, required: bool, value: Json, placeholder: Json)
    | SelectInput(id: string, text: string, required: bool, value: Json, choices: seq<(string, string)>)
    | FileInput(id: string, text: string, required: bool, prompt: string, chosen: Option<string>)

  /** `formData[id] || ''`. */
  function Shown(formData: Json, id: string): Json {
    Or(Get(formData, id), JStr(""))
  }

  /** The select's options: a blank `Select <label>` entry, then the field's
      options, each its own value. */
  function Choices(text: string, options: Option<seq<string>>): (r: seq<(string, string)>)
    ensures |r| >= 1 && r[0] == ("", "Select " + text)
    ensures options.None? ==> |r| == 1
    ensures options.Some? ==> |r| == |options.value| + 1
    ensures options.Some? ==> forall i | 0 <= i < |options.value| :: r[i + 1] == (options.value[i], options.value[i])
  {
    var opts := options.GetOr([]);
    [("", "Select " + text)] + seq(|opts|, i requires 0 <= i < |opts| => (opts[i], opts[i]))
  }

  /** `files[id]?.name`. */
  function ChosenName(files: Dict<File>, id: string): Option<string> {
    match Lookup(files, id)
    case None => None
    case Some(f) => Some(f.name)
  }

  /** `renderField`: one branch for `text`, `email` and `tel`, and one each for
      `textarea`, `select` and `file`; any other type draws nothing. */
  function RenderField(field: Field, formData: Json, files: Dict<File>): (r: Option<Control>)
    ensures r.None? <==> field.kind !in ["text", "email", "tel", "textarea", "select", "file"]
    ensures r.Some? ==> r.value.id == field.id && r.value.text == field.text && r.value.required == field.required
  {
    if field.kind == "text" || field.kind == "email" || field.kind == "tel" then
      Some(TextInput(field.id, field.kind, field.text, field.required, Shown(formData, field.id), field.placeholder))
    else if field.kind == "textarea" then
      Some(TextArea(field.id, field.text, field.required, Shown(formData, field.id), field.placeholder))
    else if field.kind == "select" then
      Some(SelectInput(field.id, field.text, field.required, Shown(formData, field.id), Choices(field.text, field.options)))
    else if field.kind == "file" then
      Some(FileInput(field.id, field.text, field.required, "Click to upload " + field.text, ChosenName(files, field.id)))
    else None
  }

  /** Exactly the six known types draw a control, and each draws its own kind. */
  lemma RenderFieldDispatch(field: Field, formData: Json, files: Dict<File>)
    ensures RenderField(field, formData, files).None? <==>
              field.kind !in {"text", "email", "tel", "textarea", "select", "file"}
    ensures RenderField(field, formData, files).Some? ==> RenderField(field, formData, files).value.id == field.id
    ensures RenderField(field, formData, files).Some? ==> RenderField(field, formData, files).value.text == field.text
    ensures RenderField(field, formData, files).Some? ==> RenderField(field, formData, files).value.required == field.required
    ensures field.kind in {"text", "email", "tel"} <==> RenderField(field, formData, files).Some? && RenderField(field, formData, files).value.TextInput?
    ensures field.kind == "textarea" <==> RenderField(field, formData, files).Some? && RenderField(field, formData, files).value.TextArea?
    ensures field.kind == "select" <==> RenderField(field, formData, files).Some? && RenderField(field, formData, files).value.SelectInput?
    ensures field.kind == "file" <==> RenderField(field, formData, files).Some? && RenderField(field, formData, files).value.FileInput?
  {
  }

  /** `text`, `email` and `tel` share one branch: two fields that differ only
      in which of those types they have draw the same input but for its `type`. */
  lemma SharedTextBranch(field: Field, kind: string, formData: Json, files: Dict<File>)
    requires field.kind in {"text", "email", "tel"} && kind in {"text", "email", "tel"}
    ensures var a := RenderField(field, formData, files).value;
            a.TextInput? && RenderField(field.(kind := kind), formData, files) == Some(a.(inputType := kind))
  {
  }

  /** After typing `value` into a text, textarea or select field, the control
      shows it, or `''` when it is falsy. */
  lemma EditedFieldShows(field: Field, formData: Json, files: Dict<File>, value: Json)
    requires field.kind in {"text", "email", "tel", "textarea", "select"}
    ensures RenderField(field, InputChange(formData, field.id, value), files).value.value ==
              if Truthy(value) then value else JStr("")
  {
    InputChangeScope(formData, field.id, value);
  }

  /** After choosing a file for a file field, the control names it. */
  lemma ChosenFileShows(field: Field, formData: Json, files: Dict<File>, file: File)
    requires field.kind == "file"
    ensures RenderField(field, formData, FileChange(files, field.id, Some(file))).value.chosen == Some(file.name)
  {
    FileChangeScope(files, field.id, Some(file));
  }

  // ---------------------------------------------------------------------------
  // The browser's checks before `onSubmit`

  predicate AlnumChar(c: char) {
    'a' <= c <= 'z' || 'A' <= c <= 'Z' || '0' <= c <= '9'
  }

  const EmailSymbols: set<char> :=
    {'.', '!', '#', '$', '%', '&', '\'', '*', '+', '/', '=', '?', '^', '_', '`', '{', '|', '}', '~', '-'}

  /** The characters allowed before the `@` of a valid e-mail address. */
  predicate EmailLocalChar(c: char) {
    AlnumChar(c) || c in EmailSymbols
  }

  /** One dot-separated part of the domain: 1 to 63 letters, digits and
      hyphens, starting and ending with a letter or digit. */
  predicate DomainLabel(s: string) {
    && 1 <= |s| <= 63 && AlnumChar(s[0]) && AlnumChar(s[|s| - 1])
    && forall k :: 0 <= k < |s| ==> AlnumChar(s[k]) || s[k] == '-'
  }

  /** A valid e-mail address in the sense of the HTML standard, which an
      `<input type="email">` must hold unless it is empty. */
  predicate ValidEmailAddress(s: string) {
    var at := IndexOf(s, '@');
    at < |s| && EmailParts(s[..at], s[at + 1..])
  }

  /** The text before the first `@` and the text after it form a valid
      address: a non-empty local part and a domain of labels. */
  predicate EmailParts(local: string, domain: string) {
    && local != []
    && (forall k :: 0 <= k < |local| ==> EmailLocalChar(local[k]))
    && (forall part | part in Split(domain, '.') :: DomainLabel(part))
  }

  /** Whether a drawn control lets the form submit: a required control must
      show a value (a file input must have a file chosen), and an email input
      that shows a value must show a valid e-mail address. */
  predicate ControlValid(c: Control) {
    match c
    case TextInput(_, inputType, _, required, value, _) =>
      && (!required || Truthy(value))
      && (inputType != "email" || !Truthy(value) || (value.JStr? && ValidEmailAddress(value.s)))
    case TextArea(_, _, required, value, _) => !required || Truthy(value)
    case SelectInput(_, _, required, value, _) => !required || Truthy(value)
    case FileInput(_, _, required, _, chosen) => !required || chosen.Some?
  }

  /** Whether the browser runs the form's `onSubmit`: every control the
      fields draw passes its checks. */
  predicate Submittable(fields: seq<Field>, formData: Json, files: Dict<File>) {
    forall i | 0 <= i < |fields| ::
      RenderField(fields[i], formData, files).None? || ControlValid(RenderField(fields[i], formData, files).value)
  }

  /** A required text, email, tel, textarea or select field left empty keeps
      the form from submitting. */
  lemma EmptyRequiredFieldBlocks(fields: seq<Field>, formData: Json, files: Dict<File>, i: nat)
    requires i < |fields| && fields[i].required
    requires fields[i].kind in {"text", "email", "tel", "textarea", "select"}
    requires !Truthy(Get(formData, fields[i].id))
    ensures !Submittable(fields, formData, files)
  {
    assert !ControlValid(RenderField(fields[i], formData, files).value);
  }

  /** A required file field with no file chosen keeps the form from submitting. */
  lemma MissingRequiredFileBlocks(fields: seq<Field>, formData: Json, files: Dict<File>, i: nat)
    requires i < |fields| && fields[i].required && fields[i].kind == "file"
    requires Lookup(files, fields[i].id).None?
    ensures !Submittable(fields, formData, files)
  {
    assert !ControlValid(RenderField(fields[i], formData, files).value);
  }

  /** Text in an email field that is not a valid address keeps the form from
      submitting, required or not. */
  lemma MalformedEmailBlocks(fields: seq<Field>, formData: Json, files: Dict<File>, i: nat, text: string)
    requires i < |fields| && fields[i].kind == "email"
    requires Get(formData, fields[i].id) == JStr(text) && text != "" && !ValidEmailAddress(text)
    ensures !Submittable(fields, formData, files)
  {
    assert !ControlValid(RenderField(fields[i], formData, files).value);
  }

  /** A form whose fields are all optional and none of them an email field
      always submits. */
  lemma OptionalFormSubmits(fields: seq<Field>, formData: Json, files: Dict<File>)
    requires forall i | 0 <= i < |fields| :: !fields[i].required && fields[i].kind != "email"
    ensures Submittable(fields, formData, files)
  {
  }

  /** An address written as a local part, `@` and dot-joined domain parts is
      valid exactly when the local part is not empty and every domain part is
      a label. */
  lemma ValidEmailOfParts(local: string, labels: seq<string>)
    requires forall k :: 0 <= k < |local| ==> EmailLocalChar(local[k])
    requires |labels| >= 1 && forall k :: 0 <= k < |labels| ==> '.' !in labels[k]
    ensures ValidEmailAddress(local + "@" + Join(".", labels)) <==>
              local != [] && forall k :: 0 <= k < |labels| ==> DomainLabel(labels[k])
  {
    var d := Join(".", labels);
    LocalPartHasNoAt(local);
    ValidEmailAt(local, d);
    SplitJoin(labels, '.');
    assert (forall part | part in Split(d, '.') :: DomainLabel(part)) <==>
           (forall k :: 0 <= k < |labels| ==> DomainLabel(labels[k]));
  }

  /** An address is judged by the text on either side of its first `@`. */
  lemma ValidEmailAt(local: string, domain: string)
    requires '@' !in local
    ensures ValidEmailAddress(local + "@" + domain) <==> EmailParts(local, domain)
  {
    var s := local + "@" + domain;
    IndexOfAfterPart(local, '@', domain);
    assert s[..|local|] == local && s[|local| + 1..] == domain;
  }

  lemma LocalPartHasNoAt(local: string)
    requires forall k :: 0 <= k < |local| ==> EmailLocalChar(local[k])
    ensures '@' !in local
  {
    assert !EmailLocalChar('@');
  }

  /** The email check needs no dot in the domain: `a@b` passes, where
      `validateEmail` of the admin helpers asks for one. */
  lemma DotlessDomainAccepted()
    ensures ValidEmailAddress("a@b")
  {
    assert IndexOf("a@b", '@') == 1 && "a@b"[2..] == "b";
    assert Split("b", '.') == ["b"];
  }

  /** A domain part may not start with a hyphen: `a@-b` is refused. */
  lemma HyphenLabelRefused()
    ensures !ValidEmailAddress("a@-b")
  {
    assert IndexOf("a@-b", '@') == 1 && "a@-b"[2..] == "-b";
    assert Split("-b", '.') == ["-b"];
    assert !DomainLabel("-b");
  }

  // ---------------------------------------------------------------------------
  // Submitting

  /** What `signUp` answers: an error, or a user that may lack an id. */
  datatype SignUpAnswer = SignUpAnswer(userId: Option<string>, error: Option<string>)

  /** The `businesses` row the form inserts. */
  datatype BusinessInsert = BusinessInsert(
    ownerId: string, businessName: Json, businessCategory: Json, businessLocation: Json,
    businessType: Json, numberOfEmployees: Json, monthlyRevenue: Json,
    yearsInOperation: int, beeeLevel: Json)

  /** What `signUp` is sent. */
  datatype SignUpRequest = SignUpRequest(email: Json, password: Json, fullName: Json, mobileNumber: Json)

  /** The remote calls the submission makes, in order. The sign-up, the
      business insert and the application are recorded by the values they are
      built from; `SignUpSent`, `BusinessRow` and `ApplicationSent` give what
      they send. */
  datatype Call =
    | SignUpCall(formData: Json, now: nat)
    | InsertBusinessCall(ownerId: string, formData: Json)
    | UploadCall(path: string)
    | SubmitApplicationCall(programId: Json, applicantId: string, businessRow: Json, formData: Json, uploaded: Dict<Json>)

  datatype Outcome = Submitted | Failed(reason: string)

  datatype Run = Run(calls: seq<Call>, outcome: Outcome)

  const SuccessAlert := "Application submitted successfully! You will receive an email confirmation shortly."
  const FailureAlert := "Error submitting application. Please try again."

  /** The alert and the page navigated to after a submission. */
  function AfterSubmit(outcome: Outcome): (r: (string, Option<string>))
    ensures outcome.Submitted? <==> r.1 == Some("/login")
    ensures outcome.Failed? <==> r.1.None?
  {
    if outcome.Submitted? then (SuccessAlert, Some("/login")) else (FailureAlert, None)
  }

  /** The password sent to `signUp`: the typed one, or `temp_<time>`. */
  function Password(formData: Json, now: nat): Json {
    Or(Get(formData, "password"), JStr("temp_" + NatToString(now)))
  }

  function SignUpSent(formData: Json, now: nat): SignUpRequest {
    SignUpRequest(Get(formData, "email"), Password(formData, now),
                  Get(formData, "full_name"), Get(formData, "mobile_number"))
  }

  /** What the context's `signUp` answers the form for a text email and
      password: the error of `AuthContext.SignUp`, and the id of the user it
      created. */
  function ContextSignUp(email: string, password: string, profileEmails: seq<string>,
                         outcome: AuthContext.SignUpOutcome): (a: SignUpAnswer)
    ensures a.error == AuthContext.SignUp(email, password, profileEmails, outcome).error
    ensures a.userId.Some? <==> AuthContext.SignUp(email, password, profileEmails, outcome).user.Some?
    ensures a.userId.Some? ==> a.userId.value == AuthContext.SignUp(email, password, profileEmails, outcome).user.value.id
  {
    var r := AuthContext.SignUp(email, password, profileEmails, outcome);
    SignUpAnswer(if r.user.Some? then Some(r.user.value.id) else None, r.error)
  }

  /** A typed password under six code units fails the context's pre-check:
      the submission ends after the sign-up call with that message, whatever
      the service would have answered. */
  lemma ShortPasswordStopsSubmission(formData: Json, files: Dict<File>, programId: Json, clock: nat -> nat,
                                     email: string, password: string, profileEmails: seq<string>,
                                     outcome: AuthContext.SignUpOutcome, business: Result<Json, string>,
                                     storage: string -> Result<string, string>, submitError: Option<string>)
    requires Get(formData, "email") == JStr(email) && Get(formData, "password") == JStr(password)
    requires password != "" && JsLength(password) < 6
    requires '@' in email && ToLower(Trim(email)) !in profileEmails
    ensures SignUpSent(formData, clock(0)).password == JStr(password)
    ensures var run := SubmitRun(formData, files, programId, clock,
                                 ContextSignUp(email, password, profileEmails, outcome), business, storage, submitError);
            run.calls == [SignUpCall(formData, clock(0))] && run.outcome == Failed(AuthContext.ShortPassword)
  {
  }

  /** Without a typed password the temporary one is long enough for the
      context's six-unit minimum, so the pre-check never fails on it. */
  lemma TempPasswordLongEnough(formData: Json, now: nat)
    requires !Truthy(Get(formData, "password"))
    ensures SignUpSent(formData, now).password.JStr?
    ensures JsLength(SignUpSent(formData, now).password.s) >= 6
  {
  }

  /** A typed password is sent as typed; without one the account gets
      `temp_` followed by the time. */
  lemma SignUpPassword(formData: Json, now: nat)
    ensures Truthy(Get(formData, "password")) ==> SignUpSent(formData, now).password == Get(formData, "password")
    ensures !Truthy(Get(formData, "password")) ==>
              SignUpSent(formData, now).password.JStr? &&
              StartsWith(SignUpSent(formData, now).password.s, "temp_") &&
              JsParseInt(SignUpSent(formData, now).password.s[5..]) == Some(now)
  {
    if !Truthy(Get(formData, "password")) {
      var p := "temp_" + NatToString(now);
      assert p[5..] == NatToString(now);
      ParseIntOfNatToString(now);
    }
  }

  /** The business row: `parseInt(years) || 0`, and `beee_level` defaulting to
      `not_certified`. */
  function BusinessRow(userId: string, formData: Json): (r: BusinessInsert)
    ensures r.ownerId == userId
    ensures !Truthy(Get(formData, "beee_level")) ==> r.beeeLevel == JStr("not_certified")
  {
    BusinessInsert(
      userId, Get(formData, "business_name"), Get(formData, "business_category"),
      Get(formData, "business_location"), Get(formData, "business_type"),
      Get(formData, "number_of_employees"), Get(formData, "monthly_revenue"),
      ParseIntOrZeroOf(Get(formData, "years_in_operation")),
      Or(Get(formData, "beee_level"), JStr("not_certified")))
  }

  lemma BusinessRowFields(userId: string, formData: Json, n: nat, s: string)
    ensures BusinessRow(userId, formData).ownerId == userId
    ensures Get(formData, "years_in_operation") == JStr(NatToString(n)) ==>
              BusinessRow(userId, formData).yearsInOperation == n
    ensures Get(formData, "years_in_operation") == JStr(s) && JsParseInt(s).None? ==>
              BusinessRow(userId, formData).yearsInOperation == 0
    ensures Get(formData, "years_in_operation") == JNull ==> BusinessRow(userId, formData).yearsInOperation == 0
    ensures !Truthy(Get(formData, "beee_level")) ==> BusinessRow(userId, formData).beeeLevel == JStr("not_certified")
    ensures Truthy(Get(formData, "beee_level")) ==> BusinessRow(userId, formData).beeeLevel == Get(formData, "beee_level")
  {
    ParseIntOfNatToString(n);
  }

  /** The storage path of an upload: `<userId>/<fieldId>_<time>_<file name>`. */
  function UploadPath(userId: string, fieldId: string, now: nat, fileName: string): (r: string)
  {
    userId + "/" + fieldId + "_" + NatToString(now) + "_" + fileName
  }

  /** An upload lands in the user's folder and keeps the file's name at the end,
      after a field id and a run of digits. */
  lemma UploadPathShape(userId: string, fieldId: string, now: nat, fileName: string)
    ensures StartsWith(UploadPath(userId, fieldId, now, fileName), userId + "/" + fieldId + "_")
    ensures EndsWith(UploadPath(userId, fieldId, now, fileName), "_" + fileName)
    ensures var p := UploadPath(userId, fieldId, now, fileName);
            var d := |userId| + |fieldId| + 2;
            d < |p| && IsDigit(p[d]) && p[..|userId| + 1] == userId + "/"
  {
    var p := UploadPath(userId, fieldId, now, fileName);
    var stamp := NatToString(now);
    assert p == (userId + "/" + fieldId + "_") + stamp + ("_" + fileName);
    assert p[|userId| + |fieldId| + 2] == stamp[0];
  }

  /** Two users without `/` in their ids never share an upload path. */
  lemma {:induction false} UploadFoldersSeparate(u1: string, u2: string, f1: string, f2: string, t1: nat, t2: nat, n1: string, n2: string)
    requires '/' !in u1 && '/' !in u2 && u1 != u2
    ensures UploadPath(u1, f1, t1, n1) != UploadPath(u2, f2, t2, n2)
  {
    var p1, p2 := UploadPath(u1, f1, t1, n1), UploadPath(u2, f2, t2, n2);
    assert p1 == u1 + ("/" + f1 + "_" + NatToString(t1) + "_" + n1);
    assert p2 == u2 + ("/" + f2 + "_" + NatToString(t2) + "_" + n2);
    if |u1| < |u2| {
      assert p1[|u1|] == '/' && p2[|u1|] == u2[|u1|];
    } else if |u2| < |u1| {
      assert p2[|u2|] == '/' && p1[|u2|] == u1[|u2|];
    } else {
      var j :| 0 <= j < |u1| && u1[j] != u2[j];
      assert p1[j] == u1[j] && p2[j] == u2[j];
    }
  }

  /** The `i`-th upload: the `i`-th file entry, at the `i + 1`-th clock reading.
      Reading 0 belongs to the temporary password; when a password is typed
      the source reads no clock there, and reading 0 goes unused. */
  function PathOf(userId: string, files: Dict<File>, clock: nat -> nat, i: nat): string
    requires i < |files|
  {
    UploadPath(userId, files[i].0, clock(i + 1), files[i].1.name)
  }

  datatype Uploads = Uploads(calls: seq<Call>, uploaded: Dict<Json>, error: Option<string>)

  /** The upload loop over `Object.entries(files)`: each file is uploaded in
      turn and its stored path recorded under its field; the first error
      ends the loop. `storage` answers each upload. */
  function UploadAll(userId: string, files: Dict<File>, clock: nat -> nat,
                     storage: string -> Result<string, string>): (u: Uploads)
    ensures |u.calls| <= |files|
    ensures u.error.None? ==> |u.calls| == |files|
  {
    if files == [] then Uploads([], [], None)
    else
      var prev := UploadAll(userId, files[..|files| - 1], clock, storage);
      if prev.error.Some? then prev
      else
        var path := UploadPath(userId, files[|files| - 1].0, clock(|files|), files[|files| - 1].1.name);
        match storage(path)
        case Err(e) => Uploads(prev.calls + [UploadCall(path)], prev.uploaded, Some(e))
        case Ok(stored) => Uploads(prev.calls + [UploadCall(path)], Put(prev.uploaded, files[|files| - 1].0, JStr(stored)), None)
  }

  /** The first `n` uploads succeed. */
  predicate UploadsOk(userId: string, files: Dict<File>, clock: nat -> nat,
                      storage: string -> Result<string, string>, n: nat)
    requires n <= |files|
  {
    forall i | 0 <= i < n :: storage(PathOf(userId, files, clock, i)).Ok?
  }

  /** The paths of a prefix of the entries are the entries' own paths. */
  lemma PathOfPrefix(userId: string, files: Dict<File>, clock: nat -> nat, n: nat)
    requires n <= |files|
    ensures forall i | 0 <= i < n :: PathOf(userId, files[..n], clock, i) == PathOf(userId, files, clock, i)
  {
  }

  /** The uploads tried are the first entries, in entry order. */
  lemma {:induction false} UploadCalls(userId: string, files: Dict<File>, clock: nat -> nat,
                                       storage: string -> Result<string, string>)
    ensures |UploadAll(userId, files, clock, storage).calls| <= |files|
    ensures UploadAll(userId, files, clock, storage).error.None? ==> |UploadAll(userId, files, clock, storage).calls| == |files|
    ensures forall i | 0 <= i < |UploadAll(userId, files, clock, storage).calls| ::
              UploadAll(userId, files, clock, storage).calls[i] == UploadCall(PathOf(userId, files, clock, i))
  {
    if files != [] {
      var n := |files| - 1;
      UploadCalls(userId, files[..n], clock, storage);
      PathOfPrefix(userId, files, clock, n);
      var prev := UploadAll(userId, files[..n], clock, storage);
      var u := UploadAll(userId, files, clock, storage);
      if prev.error.None? {
        assert u.calls == prev.calls + [UploadCall(PathOf(userId, files, clock, n))];
      }
    }
  }

  /** The uploads stop at the first failure: every upload before the last one
      tried succeeded, and the loop either tried them all, all succeeding, or
      ended on the failing one. */
  lemma {:induction false} UploadsStopAtFirstError(userId: string, files: Dict<File>, clock: nat -> nat,
                                                   storage: string -> Result<string, string>)
    ensures var u := UploadAll(userId, files, clock, storage);
            u.error.None? ==> |u.calls| == |files| && UploadsOk(userId, files, clock, storage, |files|)
    ensures var u := UploadAll(userId, files, clock, storage);
            u.error.Some? ==> 1 <= |u.calls| <= |files| &&
                              UploadsOk(userId, files, clock, storage, |u.calls| - 1) &&
                              storage(PathOf(userId, files, clock, |u.calls| - 1)) == Err(u.error.value)
  {
    if files != [] {
      var n := |files| - 1;
      var init := files[..n];
      UploadsStopAtFirstError(userId, init, clock, storage);
      UploadCalls(userId, init, clock, storage);
      PathOfPrefix(userId, files, clock, n);
      var prev := UploadAll(userId, init, clock, storage);
      if prev.error.Some? {
        assert UploadsOk(userId, init, clock, storage, |prev.calls| - 1);
      } else {
        assert UploadsOk(userId, init, clock, storage, n);
      }
    }
  }

  /** Which upload fails decides how the loop ends: with no failure it
      completes, and with the first failure at `k` it ends after `k + 1` tries. */
  lemma UploadsEnd(userId: string, files: Dict<File>, clock: nat -> nat,
                   storage: string -> Result<string, string>, k: nat)
    requires k <= |files| && UploadsOk(userId, files, clock, storage, k)
    ensures k == |files| ==> UploadAll(userId, files, clock, storage).error.None?
    ensures k < |files| && storage(PathOf(userId, files, clock, k)).Err? ==>
              |UploadAll(userId, files, clock, storage).calls| == k + 1 &&
              UploadAll(userId, files, clock, storage).error == Some(storage(PathOf(userId, files, clock, k)).error)
  {
    UploadsStopAtFirstError(userId, files, clock, storage);
    var u := UploadAll(userId, files, clock, storage);
    if u.error.Some? {
      assert |u.calls| - 1 >= k;
    }
  }

  /** When every upload succeeds, the recorded paths are keyed by the file
      fields, in the same order, each holding the path storage returned. */
  lemma {:induction false} UploadedFiles(userId: string, files: Dict<File>, clock: nat -> nat,
                                         storage: string -> Result<string, string>)
    requires UniqueKeys(files)
    requires forall i | 0 <= i < |files| :: storage(PathOf(userId, files, clock, i)).Ok?
    ensures var u := UploadAll(userId, files, clock, storage);
            u.error.None? && |u.uploaded| == |files| &&
            forall i | 0 <= i < |files| ::
              u.uploaded[i] == (files[i].0, JStr(storage(PathOf(userId, files, clock, i)).value))
  {
    if files != [] {
      var n := |files| - 1;
      var init := files[..n];
      assert forall i | 0 <= i < |init| :: PathOf(userId, init, clock, i) == PathOf(userId, files, clock, i);
      UploadedFiles(userId, init, clock, storage);
      var prev := UploadAll(userId, init, clock, storage);
      var v := JStr(storage(PathOf(userId, files, clock, n)).value);
      assert forall i | 0 <= i < |prev.uploaded| :: prev.uploaded[i].0 == files[i].0 != files[n].0;
      PutAppends(prev.uploaded, files[n].0, v);
      var u := UploadAll(userId, files, clock, storage);
      assert u.uploaded == prev.uploaded + [(files[n].0, v)];
      forall i | 0 <= i < |files|
        ensures u.uploaded[i] == (files[i].0, JStr(storage(PathOf(userId, files, clock, i)).value))
      {
        if i < n {
          assert u.uploaded[i] == prev.uploaded[i];
        }
      }
    }
  }

  /** `Put` of a new key appends it. */
  lemma {:induction false} PutAppends<V>(d: Dict<V>, k: string, v: V)
    requires !HasKey(d, k)
    ensures Put(d, k, v) == d + [(k, v)]
  {
    if d != [] {
      HasKeyTail(d, k);
      PutAppends(d[1..], k, v);
      assert d == [d[0]] + d[1..];
    }
  }

  /** `{ ...formData, uploaded_files }`. */
  function ApplicationData(formData: Json, uploaded: Dict<Json>): Json {
    With(formData, "uploaded_files", JObj(uploaded))
  }

  /** What `submitProgramApplication` is sent: the program, the applicant, the
      new business's id and the application data. */
  datatype ApplicationRequest = ApplicationRequest(programId: Json, applicantId: string, businessId: Json, applicationData: Json)

  function ApplicationSent(programId: Json, applicantId: string, businessRow: Json, formData: Json, uploaded: Dict<Json>): ApplicationRequest {
    ApplicationRequest(programId, applicantId, Get(businessRow, "id"), ApplicationData(formData, uploaded))
  }

  lemma ApplicationDataShape(formData: Json, uploaded: Dict<Json>)
    ensures Get(ApplicationData(formData, uploaded), "uploaded_files") == JObj(uploaded)
    ensures forall k | k != "uploaded_files" :: Get(ApplicationData(formData, uploaded), k) == Get(formData, k)
  {
    WithGetSame(formData, "uploaded_files", JObj(uploaded));
    forall k | k != "uploaded_files"
      ensures Get(ApplicationData(formData, uploaded), k) == Get(formData, k)
    {
      WithGetOther(formData, "uploaded_files", JObj(uploaded), k);
    }
  }

  /** `handleSubmit`, as the calls it makes and how it ends. The remote answers
      are parameters: `clock` is the sequence of `Date.now()` readings, `auth`
      the sign-up answer, `business` the inserted row or an error, `storage`
      each upload's answer, `submitError` whether the application insert
      threw. No step is undone when a later one fails. */
  function SubmitRun(formData: Json, files: Dict<File>, programId: Json, clock: nat -> nat,
                     auth: SignUpAnswer, business: Result<Json, string>,
                     storage: string -> Result<string, string>, submitError: Option<string>): (r: Run)
    ensures |r.calls| >= 1 && r.calls[0] == SignUpCall(formData, clock(0))
    ensures r.outcome.Submitted? ==>
              auth.error.None? && auth.userId.Some? && auth.userId.value != "" && business.Ok? && submitError.None?
              && |r.calls| == |files| + 3 && r.calls[|files| + 2].SubmitApplicationCall?
  {
    if auth.error.Some? then Run([SignUpCall(formData, clock(0))], Failed(auth.error.value))
    else if auth.userId.None? || auth.userId.value == "" then
      Run([SignUpCall(formData, clock(0))], Failed("Failed to create user account"))
    else AfterSignUp(formData, files, programId, clock, auth.userId.value, business, storage, submitError)
  }

  /** The steps after a sign-up that answered `userId`. */
  function AfterSignUp(formData: Json, files: Dict<File>, programId: Json, clock: nat -> nat,
                       userId: string, business: Result<Json, string>,
                       storage: string -> Result<string, string>, submitError: Option<string>): Run
  {
    var done := [SignUpCall(formData, clock(0)), InsertBusinessCall(userId, formData)];
    if business.Err? then Run(done, Failed(business.error))
    else AfterUploads(done, formData, programId, userId, business.value,
                      UploadAll(userId, files, clock, storage), submitError)
  }

  /** The steps after the upload loop, given the calls made so far. */
  function AfterUploads(done: seq<Call>, formData: Json, programId: Json, userId: string,
                        businessRow: Json, u: Uploads, submitError: Option<string>): Run
  {
    if u.error.Some? then Run(done + u.calls, Failed(u.error.value))
    else
      Run(done + u.calls + [SubmitApplicationCall(programId, userId, businessRow, formData, u.uploaded)],
          if submitError.Some? then Failed(submitError.value) else Submitted)
  }

  /** A sign-up error, or a user without an id, ends the submission after the
      sign-up call alone. */
  lemma SignUpFailureStops(formData: Json, files: Dict<File>, programId: Json, clock: nat -> nat,
                           auth: SignUpAnswer, business: Result<Json, string>,
                           storage: string -> Result<string, string>, submitError: Option<string>)
    requires auth.error.Some? || auth.userId.None? || auth.userId == Some("")
    ensures SubmitRun(formData, files, programId, clock, auth, business, storage, submitError).calls ==
              [SignUpCall(formData, clock(0))]
    ensures SubmitRun(formData, files, programId, clock, auth, business, storage, submitError).outcome ==
              Failed(if auth.error.Some? then auth.error.value else "Failed to create user account")
  {
  }

  /** A failed business insert ends the submission: the account created by
      the first call stays, and nothing is uploaded. */
  lemma BusinessFailureStops(formData: Json, files: Dict<File>, programId: Json, clock: nat -> nat,
                             userId: string, business: Result<Json, string>,
                             storage: string -> Result<string, string>, submitError: Option<string>)
    requires userId != "" && business.Err?
    ensures SubmitRun(formData, files, programId, clock, SignUpAnswer(Some(userId), None), business, storage, submitError) ==
              Run([SignUpCall(formData, clock(0)), InsertBusinessCall(userId, formData)], Failed(business.error))
  {
  }

  /** A failed upload ends the submission right after it: the account, the
      business and the earlier uploads stay, no later file is uploaded and no
      application is submitted. */
  lemma UploadFailureStops(formData: Json, files: Dict<File>, programId: Json, clock: nat -> nat,
                           userId: string, businessRow: Json,
                           storage: string -> Result<string, string>, submitError: Option<string>, k: nat)
    requires userId != "" && k < |files|
    requires forall i | 0 <= i < k :: storage(PathOf(userId, files, clock, i)).Ok?
    requires storage(PathOf(userId, files, clock, k)).Err?
    ensures |AfterSignUp(formData, files, programId, clock, userId, Ok(businessRow), storage, submitError).calls| == k + 3
    ensures AfterSignUp(formData, files, programId, clock, userId, Ok(businessRow), storage, submitError).calls[..2] ==
              [SignUpCall(formData, clock(0)), InsertBusinessCall(userId, formData)]
    ensures forall i | 0 <= i <= k ::
              AfterSignUp(formData, files, programId, clock, userId, Ok(businessRow), storage, submitError).calls[i + 2] ==
              UploadCall(PathOf(userId, files, clock, i))
    ensures AfterSignUp(formData, files, programId, clock, userId, Ok(businessRow), storage, submitError).outcome ==
              Failed(storage(PathOf(userId, files, clock, k)).error)
  {
    assert UploadsOk(userId, files, clock, storage, k);
    UploadsEnd(userId, files, clock, storage, k);
    UploadCalls(userId, files, clock, storage);
    var u := UploadAll(userId, files, clock, storage);
    var c1 := [SignUpCall(formData, clock(0)), InsertBusinessCall(userId, formData)];
    assert AfterSignUp(formData, files, programId, clock, userId, Ok(businessRow), storage, submitError) ==
           Run(c1 + u.calls, Failed(u.error.value));
  }

  /** When every step succeeds, the calls are the sign-up, the business insert,
      one upload per file in entry order, and the application carrying the
      form data plus the stored paths keyed by field. */
  lemma AllStepsSucceed(formData: Json, files: Dict<File>, programId: Json, clock: nat -> nat,
                        userId: string, businessRow: Json, storage: string -> Result<string, string>)
    requires userId != "" && UniqueKeys(files)
    requires forall i | 0 <= i < |files| :: storage(PathOf(userId, files, clock, i)).Ok?
    ensures var run := AfterSignUp(formData, files, programId, clock, userId, Ok(businessRow), storage, None);
            var u := UploadAll(userId, files, clock, storage);
            && run.outcome == Submitted && |run.calls| == |files| + 3
            && run.calls[..2] == [SignUpCall(formData, clock(0)), InsertBusinessCall(userId, formData)]
            && (forall i | 0 <= i < |files| :: run.calls[i + 2] == UploadCall(PathOf(userId, files, clock, i)))
            && run.calls[|files| + 2] == SubmitApplicationCall(programId, userId, businessRow, formData, u.uploaded)
            && Keys(u.uploaded) == Keys(files)
  {
    assert UploadsOk(userId, files, clock, storage, |files|);
    UploadsEnd(userId, files, clock, storage, |files|);
    UploadCalls(userId, files, clock, storage);
    UploadedFiles(userId, files, clock, storage);
    var u := UploadAll(userId, files, clock, storage);
    var c1 := [SignUpCall(formData, clock(0)), InsertBusinessCall(userId, formData)];
    var last := SubmitApplicationCall(programId, userId, businessRow, formData, u.uploaded);
    assert AfterSignUp(formData, files, programId, clock, userId, Ok(businessRow), storage, None) ==
           AfterUploads(c1, formData, programId, userId, businessRow, u, None);
    CallsLayout(c1, u.calls, last);
  }

  /** The calls of a run: two first, then the uploads, then one more. */
  lemma CallsLayout(c1: seq<Call>, uc: seq<Call>, last: Call)
    requires |c1| == 2
    ensures var calls := c1 + uc + [last];
            && |calls| == |uc| + 3 && calls[..2] == c1 && calls[|uc| + 2] == last
            && forall i | 0 <= i < |uc| :: calls[i + 2] == uc[i]
  {
  }

  /** The upload loop of `handleSubmit`. */
  method UploadFiles(userId: string, files: Dict<File>, clock: nat -> nat,
                     storage: string -> Result<string, string>)
    returns (u: Uploads)
    ensures u == UploadAll(userId, files, clock, storage)
  {
    var done: seq<Call> := [];
    var uploaded: Dict<Json> := [];
    var i := 0;
    while i < |files|
      invariant 0 <= i <= |files|
      invariant UploadAll(userId, files[..i], clock, storage) == Uploads(done, uploaded, None)
    {
      var path := UploadPath(userId, files[i].0, clock(i + 1), files[i].1.name);
      assert files[..i + 1][..i] == files[..i];
      done := done + [UploadCall(path)];
      match storage(path) {
        case Err(e) =>
          u := Uploads(done, uploaded, Some(e));
          UploadFailureEnds(userId, files, clock, storage, i + 1);
          return;
        case Ok(stored) =>
          uploaded := Put(uploaded, files[i].0, JStr(stored));
      }
      i := i + 1;
    }
    assert files[..i] == files;
    u := Uploads(done, uploaded, None);
  }

  /** `handleSubmit`'s steps. */
  method SubmitApplication(formData: Json, files: Dict<File>, programId: Json, clock: nat -> nat,
                           auth: SignUpAnswer, business: Result<Json, string>,
                           storage: string -> Result<string, string>, submitError: Option<string>)
    returns (calls: seq<Call>, outcome: Outcome)
    ensures calls == SubmitRun(formData, files, programId, clock, auth, business, storage, submitError).calls
    ensures outcome == SubmitRun(formData, files, programId, clock, auth, business, storage, submitError).outcome
  {
    calls := [SignUpCall(formData, clock(0))];
    if auth.error.Some? {
      outcome := Failed(auth.error.value);
      return;
    }
    if auth.userId.None? || auth.userId.value == "" {
      outcome := Failed("Failed to create user account");
      return;
    }
    var userId := auth.userId.value;
    calls := [SignUpCall(formData, clock(0)), InsertBusinessCall(userId, formData)];
    if business.Err? {
      outcome := Failed(business.error);
      return;
    }
    var u := UploadFiles(userId, files, clock, storage);
    calls := calls + u.calls;
    if u.error.Some? {
      outcome := Failed(u.error.value);
      return;
    }
    calls := calls + [SubmitApplicationCall(programId, userId, business.value, formData, u.uploaded)];
    outcome := if submitError.Some? then Failed(submitError.value) else Submitted;
  }

  /** Once an upload fails, the later entries do not change the loop's result. */
  lemma {:induction false} UploadFailureEnds(userId: string, files: Dict<File>, clock: nat -> nat,
                                             storage: string -> Result<string, string>, n: nat)
    requires n <= |files| && UploadAll(userId, files[..n], clock, storage).error.Some?
    ensures UploadAll(userId, files, clock, storage) == UploadAll(userId, files[..n], clock, storage)
    decreases |files| - n
  {
    if n < |files| {
      assert files[..|files| - 1][..n] == files[..n];
      UploadFailureEnds(userId, files[..|files| - 1], clock, storage, n);
    } else {
      assert files[..n] == files;
    }
  }

  // ---------------------------------------------------------------------------
  // The page

  class PublicApplicationFormPage {
    var program: Json
    var applicationForm: Json
    var loading: bool
    var submitting: bool
    var formData: Json
    var files: Dict<File>

    constructor ()
      ensures program == JNull && applicationForm == JNull && loading && !submitting
      ensures formData == JObj([]) && files == []
    {
      program := JNull;
      applicationForm := JNull;
      loading := true;
      submitting := false;
      formData := JObj([]);
      files := [];
    }

    /** `loadProgramAndForm`: the program found by its link, then its active
        form; either failure alerts and returns home. The program stays set
        when only the form lookup fails. */
    method LoadProgramAndForm(programAnswer: Result<Json, string>, formFor: Json -> Result<Json, string>)
      returns (alert: Option<string>, navigateTo: Option<string>)
      modifies this
      ensures !loading && submitting == old(submitting) && formData == old(formData) && files == old(files)
      ensures programAnswer.Err? ==> program == old(program) && applicationForm == old(applicationForm)
      ensures programAnswer.Ok? ==> program == programAnswer.value
      ensures programAnswer.Ok? && formFor(Get(programAnswer.value, "id")).Ok? ==>
                applicationForm == formFor(Get(programAnswer.value, "id")).value && alert.None? && navigateTo.None?
      ensures programAnswer.Ok? && formFor(Get(programAnswer.value, "id")).Err? ==> applicationForm == old(applicationForm)
      ensures programAnswer.Err? || formFor(Get(programAnswer.value, "id")).Err? ==>
                alert == Some("Program not found or no longer accepting applications.") && navigateTo == Some("/")
    {
      loading := true;
      alert, navigateTo := None, None;
      if programAnswer.Ok? {
        program := programAnswer.value;
        var form := formFor(Get(programAnswer.value, "id"));
        if form.Ok? {
          applicationForm := form.value;
        } else {
          alert, navigateTo := Some("Program not found or no longer accepting applications."), Some("/");
        }
      } else {
        alert, navigateTo := Some("Program not found or no longer accepting applications."), Some("/");
      }
      loading := false;
    }

    method HandleInputChange(fieldId: string, value: Json)
      modifies this
      ensures formData == InputChange(old(formData), fieldId, value)
      ensures files == old(files) && program == old(program) && applicationForm == old(applicationForm)
      ensures loading == old(loading) && submitting == old(submitting)
    {
      formData := InputChange(formData, fieldId, value);
    }

    method HandleFileChange(fieldId: string, file: Option<File>)
      modifies this
      ensures files == FileChange(old(files), fieldId, file)
      ensures formData == old(formData) && program == old(program) && applicationForm == old(applicationForm)
      ensures loading == old(loading) && submitting == old(submitting)
    {
      files := FileChange(files, fieldId, file);
    }

    /** Submitting the form: the browser runs `handleSubmit` only when the
        drawn fields pass their checks. `handleSubmit` runs the steps, then
        alerts and, on success, goes to the login page; the form state is left
        as it was. */
    method HandleSubmit(clock: nat -> nat, auth: SignUpAnswer, business: Result<Json, string>,
                        storage: string -> Result<string, string>, submitError: Option<string>)
      returns (calls: seq<Call>, alert: Option<string>, navigateTo: Option<string>)
      modifies this
      ensures !Submittable(FormFields(applicationForm), formData, files) ==>
                calls == [] && alert.None? && navigateTo.None? && submitting == old(submitting)
      ensures Submittable(FormFields(applicationForm), formData, files) ==>
                var r := SubmitRun(formData, files, Get(program, "id"), clock, auth, business, storage, submitError);
                calls == r.calls && alert == Some(AfterSubmit(r.outcome).0) && navigateTo == AfterSubmit(r.outcome).1
                && !submitting
      ensures formData == old(formData) && files == old(files)
      ensures program == old(program) && applicationForm == old(applicationForm) && loading == old(loading)
    {
      if !Submittable(FormFields(applicationForm), formData, files) {
        return [], None, None;
      }
      submitting := true;
      var outcome;
      calls, outcome := SubmitApplication(formData, files, Get(program, "id"), clock, auth, business, storage, submitError);
      alert, navigateTo := Some(AfterSubmit(outcome).0), AfterSubmit(outcome).1;
      submitting := false;
    }
  }
}
