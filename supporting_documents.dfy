/** The third wizard step: four optional document slots, saved into the draft
    as `step3`, or skipped. */
module SupportingDocuments {
  import opened Wrappers
  import opened Dicts
  import opened JsonValues
  import opened Storage
  import opened RegistrationDraft

  /** A chosen browser file. */
  datatype File = File(name: string, size: nat)

  datatype Slot = CompanyRegistration | IdDocument | BankConfirmation | BeeeCertificate

  function SlotName(t: Slot): string {
    match t
    case CompanyRegistration => "companyRegistration"
    case IdDocument => "idDocument"
    case BankConfirmation => "bankConfirmation"
    case BeeeCertificate => "beeeCertificate"
  }

  datatype Slots = Slots(
    companyRegistration: Option<File>, idDocument: Option<File>,
    bankConfirmation: Option<File>, beeeCertificate: Option<File>)

  function SlotFile(s: Slots, t: Slot): Option<File> {
    match t
    case CompanyRegistration => s.companyRegistration
    case IdDocument => s.idDocument
    case BankConfirmation => s.bankConfirmation
    case BeeeCertificate => s.beeeCertificate
  }

  /** Every slot starts empty. */
  const InitialSlots := Slots(None, None, None, None)

  lemma InitialSlotsEmpty()
    ensures forall t: Slot :: SlotFile(InitialSlots, t) == None
  {
    forall t: Slot ensures SlotFile(InitialSlots, t) == None {
      match t
      case CompanyRegistration => case IdDocument => case BankConfirmation => case BeeeCertificate =>
    }
  }

  /** `handleFileUpload(type, file)`: `{ ...prev, [type]: file }`; clearing a
      slot passes `None`. */
  function Upload(s: Slots, t: Slot, f: Option<File>): (r: Slots)
    ensures SlotFile(r, t) == f
    ensures forall u: Slot | u != t :: SlotFile(r, u) == SlotFile(s, u)
  {
    match t
    case CompanyRegistration => s.(companyRegistration := f)
    case IdDocument => s.(idDocument := f)
    case BankConfirmation => s.(bankConfirmation := f)
    case BeeeCertificate => s.(beeeCertificate := f)
  }

  /** `JSON.stringify` of a slot: a `File` has no own enumerable properties
      and becomes `{}`; an empty slot is `null`. */
  function FileJson(f: Option<File>): (j: Json)
    ensures Truthy(j) <==> f.Some?
  {
    if f.Some? then JObj([]) else JNull
  }

  /** The slot object in declaration order. */
  function SlotsJson(s: Slots): Json {
    JObj([(SlotName(CompanyRegistration), FileJson(s.companyRegistration)),
          (SlotName(IdDocument), FileJson(s.idDocument)),
          (SlotName(BankConfirmation), FileJson(s.bankConfirmation)),
          (SlotName(BeeeCertificate), FileJson(s.beeeCertificate))])
  }

  /** The stored slot object has the four slot keys, in order, and an entry is
      truthy exactly when its slot holds a file. */
  lemma SlotsJsonShape(s: Slots)
    ensures var d := Fields(SlotsJson(s));
            && Keys(d) == ["companyRegistration", "idDocument", "bankConfirmation", "beeeCertificate"]
            && (Truthy(d[0].1) <==> s.companyRegistration.Some?)
            && (Truthy(d[1].1) <==> s.idDocument.Some?)
            && (Truthy(d[2].1) <==> s.bankConfirmation.Some?)
            && (Truthy(d[3].1) <==> s.beeeCertificate.Some?)
  {
  }

  class SupportingDocumentsPage {
    var uploadedFiles: Slots

    constructor ()
      ensures uploadedFiles == InitialSlots
    {
      uploadedFiles := InitialSlots;
    }

    method HandleFileUpload(t: Slot, f: Option<File>)
      modifies this
      ensures uploadedFiles == Upload(old(uploadedFiles), t, f)
    {
      uploadedFiles := Upload(uploadedFiles, t, f);
    }

    /** `handleNext`: merge the slots into the draft as `step3`, then go on;
        a draft that does not parse makes the handler throw first. */
    method HandleNext(store: LocalStorage) returns (navigateTo: Option<string>)
      modifies store
      ensures Draft(old(store.items)).Ok? ==>
                store.items == old(store.items)[DraftKey := Encoded(Merged(Draft(old(store.items)).value, "step3", SlotsJson(uploadedFiles)))]
                && navigateTo == Some("/register/application-type")
      ensures Draft(old(store.items)).Err? ==> store.items == old(store.items) && navigateTo == None
    {
      var r := MergeStep(store, "step3", SlotsJson(uploadedFiles));
      navigateTo := if r.Ok? then Some("/register/application-type") else None;
    }

    /** `handleSkip`: go on without touching the draft. */
    method HandleSkip(store: LocalStorage) returns (navigateTo: string)
      ensures navigateTo == "/register/application-type"
      ensures store.items == old(store.items)
    {
      navigateTo := "/register/application-type";
    }
  }
}
