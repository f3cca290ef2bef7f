/** The second wizard step: eight text fields describing the business, saved
    into the draft as `step2`. */
module BusinessInformation {
  import opened Strings
  import opened JsonValues
  import opened Storage
  import opened RegistrationDraft

  datatype Field =
    | BusinessName | BusinessCategory | BusinessLocation | BusinessType
    | NumberOfEmployees | MonthlyRevenue | YearsInOperation | BeeeLevel

  /** The property name each field has in the form object. */
  function FieldName(f: Field): string {
    match f
    case BusinessName => "businessName"
    case BusinessCategory => "businessCategory"
    case BusinessLocation => "businessLocation"
    case BusinessType => "businessType"
    case NumberOfEmployees => "numberOfEmployees"
    case MonthlyRevenue => "monthlyRevenue"
    case YearsInOperation => "yearsInOperation"
    case BeeeLevel => "beeeLevel"
  }

  datatype Form = Form(
    businessName: string, businessCategory: string, businessLocation: string, businessType: string,
    numberOfEmployees: string, monthlyRevenue: string, yearsInOperation: string, beeeLevel: string)

  function Value(form: Form, f: Field): string {
    match f
    case BusinessName => form.businessName
    case BusinessCategory => form.businessCategory
    case BusinessLocation => form.businessLocation
    case BusinessType => form.businessType
    case NumberOfEmployees => form.numberOfEmployees
    case MonthlyRevenue => form.monthlyRevenue
    case YearsInOperation => form.yearsInOperation
    case BeeeLevel => form.beeeLevel
  }

  /** The form as the page first shows it. */
  const InitialForm := Form("", "", "", "", "", "", "", "")

  lemma InitialFormEmpty()
    ensures forall f: Field :: Value(InitialForm, f) == ""
  {
    forall f: Field ensures Value(InitialForm, f) == "" {
      match f
      case BusinessName => case BusinessCategory => case BusinessLocation => case BusinessType =>
      case NumberOfEmployees => case MonthlyRevenue => case YearsInOperation => case BeeeLevel =>
    }
  }

  /** `handleInputChange(field, value)`: `{ ...prev, [field]: value }`. */
  function SetField(form: Form, field: Field, value: string): (r: Form)
    ensures Value(r, field) == value
    ensures forall f: Field | f != field :: Value(r, f) == Value(form, f)
  {
    match field
    case BusinessName => form.(businessName := value)
    case BusinessCategory => form.(businessCategory := value)
    case BusinessLocation => form.(businessLocation := value)
    case BusinessType => form.(businessType := value)
    case NumberOfEmployees => form.(numberOfEmployees := value)
    case MonthlyRevenue => form.(monthlyRevenue := value)
    case YearsInOperation => form.(yearsInOperation := value)
    case BeeeLevel => form.(beeeLevel := value)
  }

  /** Writing a field twice keeps only the second value. */
  lemma SetFieldTwice(form: Form, field: Field, a: string, b: string)
    ensures SetField(SetField(form, field, a), field, b) == SetField(form, field, b)
  {
  }

  /** The form object as `JSON.stringify` writes it, keys in declaration order. */
  function FormJson(form: Form): Json {
    JObj([("businessName", JStr(form.businessName)),
          ("businessCategory", JStr(form.businessCategory)),
          ("businessLocation", JStr(form.businessLocation)),
          ("businessType", JStr(form.businessType)),
          ("numberOfEmployees", JStr(form.numberOfEmployees)),
          ("monthlyRevenue", JStr(form.monthlyRevenue)),
          ("yearsInOperation", JStr(form.yearsInOperation)),
          ("beeeLevel", JStr(form.beeeLevel))])
  }

  /** Reading a field back from the stored form gives its value. */
  lemma FormJsonGet(form: Form, f: Field)
    ensures Get(FormJson(form), FieldName(f)) == JStr(Value(form, f))
  {
    var d := FormJson(form).fields;
    var i := match f
      case BusinessName => 0 case BusinessCategory => 1 case BusinessLocation => 2
      case BusinessType => 3 case NumberOfEmployees => 4 case MonthlyRevenue => 5
      case YearsInOperation => 6 case BeeeLevel => 7;
    assert d[i] == (FieldName(f), JStr(Value(form, f)));
    forall j | 0 <= j < i ensures d[j].0 != d[i].0 {
      var a, b := d[j].0, d[i].0;
      assert |a| != |b| || a[0] != b[0] || a[8] != b[8];
    }
    Dicts.LookupFirst(d, i);
  }

  /** The fields the page marks `required`; the business type and the B-BBEE
      level are optional. */
  const RequiredFields: seq<Field> :=
    [BusinessName, BusinessCategory, BusinessLocation, NumberOfEmployees, MonthlyRevenue, YearsInOperation]

  /** Whether the browser lets the form submit: no required field is empty. */
  predicate RequiredFilled(form: Form) {
    forall f | f in RequiredFields :: Value(form, f) != ""
  }

  /** The form submits exactly when the six required fields are all filled,
      whatever the business type and B-BBEE level; the empty form does not. */
  lemma RequiredFilledIff(form: Form, businessType: string, beeeLevel: string)
    ensures RequiredFilled(form) <==>
              && form.businessName != "" && form.businessCategory != "" && form.businessLocation != ""
              && form.numberOfEmployees != "" && form.monthlyRevenue != "" && form.yearsInOperation != ""
    ensures RequiredFilled(form) <==> RequiredFilled(form.(businessType := businessType, beeeLevel := beeeLevel))
    ensures !RequiredFilled(InitialForm)
  {
    forall g: Form | RequiredFilled(g)
      ensures && g.businessName != "" && g.businessCategory != "" && g.businessLocation != ""
              && g.numberOfEmployees != "" && g.monthlyRevenue != "" && g.yearsInOperation != ""
    {
      assert Value(g, RequiredFields[0]) != "" && Value(g, RequiredFields[1]) != "";
      assert Value(g, RequiredFields[2]) != "" && Value(g, RequiredFields[3]) != "";
      assert Value(g, RequiredFields[4]) != "" && Value(g, RequiredFields[5]) != "";
    }
    forall g: Form | && g.businessName != "" && g.businessCategory != "" && g.businessLocation != ""
                     && g.numberOfEmployees != "" && g.monthlyRevenue != "" && g.yearsInOperation != ""
      ensures RequiredFilled(g)
    {
      forall f | f in RequiredFields ensures Value(g, f) != "" {
        var i :| 0 <= i < |RequiredFields| && RequiredFields[i] == f;
      }
    }
  }

  /** The B-BBEE dropdown: the empty value means Not Certified, then levels 1 to 8. */
  const BeeeLevels: seq<(string, string)> := [
    ("", "Not Certified"),
    ("1", "Level 1 (≥100 points)"), ("2", "Level 2 (≥95 points)"), ("3", "Level 3 (≥90 points)"),
    ("4", "Level 4 (≥80 points)"), ("5", "Level 5 (≥75 points)"), ("6", "Level 6 (≥70 points)"),
    ("7", "Level 7 (≥55 points)"), ("8", "Level 8 (≥40 points)")]

  lemma BeeeLevelValues()
    ensures |BeeeLevels| == 9 && BeeeLevels[0] == ("", "Not Certified")
    ensures forall i :: 1 <= i < 9 ==> BeeeLevels[i].0 == [DigitChar(i)]
  {
  }

  class BusinessInformationPage {
    var formData: Form

    constructor ()
      ensures formData == InitialForm
    {
      formData := InitialForm;
    }

    method HandleInputChange(field: Field, value: string)
      modifies this
      ensures formData == SetField(old(formData), field, value)
    {
      formData := SetField(formData, field, value);
    }

    /** Submitting the form: the browser runs `handleNext` only when every
        required field is filled. `handleNext` merges the form into the draft
        as `step2`, then goes to the documents step; when the stored draft does
        not parse, the handler throws before writing or navigating. */
    method HandleNext(store: LocalStorage) returns (navigateTo: Wrappers.Option<string>)
      modifies store
      ensures !RequiredFilled(formData) ==> store.items == old(store.items) && navigateTo == Wrappers.None
      ensures RequiredFilled(formData) && Draft(old(store.items)).Ok? ==>
                store.items == old(store.items)[DraftKey := Encoded(Merged(Draft(old(store.items)).value, "step2", FormJson(formData)))]
                && navigateTo == Wrappers.Some("/register/documents")
      ensures Draft(old(store.items)).Err? ==> store.items == old(store.items) && navigateTo == Wrappers.None
    {
      if !RequiredFilled(formData) {
        return Wrappers.None;
      }
      var r := MergeStep(store, "step2", FormJson(formData));
      navigateTo := if r.Ok? then Wrappers.Some("/register/documents") else Wrappers.None;
    }
  }
}
