/** The fourth wizard step: the applicant picks programs to apply for and adds
    a description; submitting merges them into the draft as `step4`. */
module ApplicationType {
  import opened Wrappers
  import opened Strings
  import opened Lists
  import opened JsonValues
  import opened Storage
  import opened RegistrationDraft

  /** A `programs` row as the page fetches it; an optional column the row
      leaves empty is `None`. */
  datatype Program = Program(
    id: string, name: string, description: string, status: string,
    startDate: Option<string>, applicationDeadline: Option<string>, maxParticipants: Option<int>,
    createdAt: string)

  function OptText(v: Option<string>): Json {
    if v.Some? then JStr(v.value) else JNull
  }

  /** The whole row as the wizard stores it, an empty optional column as `null`. */
  function ProgramJson(p: Program): Json {
    JObj([("id", JStr(p.id)), ("name", JStr(p.name)), ("description", JStr(p.description)),
          ("status", JStr(p.status)), ("start_date", OptText(p.startDate)),
          ("application_deadline", OptText(p.applicationDeadline)),
          ("max_participants", if p.maxParticipants.Some? then JNum(p.maxParticipants.value) else JNull),
          ("created_at", JStr(p.createdAt))])
  }

  function ProgramsJson(ps: seq<Program>): (r: seq<Json>)
    ensures |r| == |ps| && forall i :: 0 <= i < |ps| ==> r[i] == ProgramJson(ps[i])
  {
    seq(|ps|, i requires 0 <= i < |ps| => ProgramJson(ps[i]))
  }

  // ---------------------------------------------------------------------------
  // Icons and colours
  // ---------------------------------------------------------------------------

  datatype Icon = Wrench | DollarSign | ShoppingBag | Users | Calendar

  predicate IsToolName(n: string) { Contains(n, "toolkit") || Contains(n, "tool") }
  predicate IsFundingName(n: string) { Contains(n, "funding") || Contains(n, "grant") || Contains(n, "finance") }
  predicate IsMarketName(n: string) { Contains(n, "marketplace") || Contains(n, "market") || Contains(n, "sell") }
  predicate IsMentorName(n: string) { Contains(n, "mentor") || Contains(n, "coach") || Contains(n, "support") }

  /** `getIconForProgram`: the keyword groups are tried in a fixed order on the
      lower-cased name and the first that matches decides. */
  function IconForProgram(programName: string): (icon: Icon)
    ensures var n := ToLower(programName);
            && (icon == Wrench <==> IsToolName(n))
            && (icon == DollarSign <==> !IsToolName(n) && IsFundingName(n))
            && (icon == ShoppingBag <==> !IsToolName(n) && !IsFundingName(n) && IsMarketName(n))
            && (icon == Users <==> !IsToolName(n) && !IsFundingName(n) && !IsMarketName(n) && IsMentorName(n))
  {
    var name := ToLower(programName);
    if Contains(name, "toolkit") || Contains(name, "tool") then Wrench
    else if Contains(name, "funding") || Contains(name, "grant") || Contains(name, "finance") then DollarSign
    else if Contains(name, "marketplace") || Contains(name, "market") || Contains(name, "sell") then ShoppingBag
    else if Contains(name, "mentor") || Contains(name, "coach") || Contains(name, "support") then Users
    else Calendar
  }

  /** A name in two groups gets the earlier group's icon: `Tool Funding`
      shows the wrench. */
  lemma ToolBeatsFunding()
    ensures IconForProgram("Tool Funding") == Wrench
  {
    var n := ToLower("Tool Funding");
    assert n[0..4] == "tool";
    assert OccursAt(n, "tool", 0);
  }

  /** Upper and lower case give the same icon. */
  lemma IconIgnoresCase(programName: string)
    ensures IconForProgram(ToLower(programName)) == IconForProgram(programName)
  {
    ToLowerIdempotent(programName);
  }

  const ProgramColors: seq<string> :=
    ["text-blue-600", "text-green-600", "text-purple-600", "text-orange-600", "text-red-600", "text-indigo-600"]

  /** `getColorForProgram(index)`: the six colours repeat. */
  function ColorForProgram(index: nat): (c: string)
    ensures c in ProgramColors
  {
    ProgramColors[index % |ProgramColors|]
  }

  /** Programs six places apart share a colour; neighbours never do. */
  lemma ColorPeriod(index: nat)
    ensures ColorForProgram(index + 6) == ColorForProgram(index)
    ensures ColorForProgram(index + 1) != ColorForProgram(index)
  {
    assert (index + 6) % 6 == index % 6;
    assert (index + 1) % 6 == if index % 6 == 5 then 0 else index % 6 + 1;
  }

  // ---------------------------------------------------------------------------
  // Selection
  // ---------------------------------------------------------------------------

  /** `handleTypeToggle`: a selected id is removed (every copy), an unselected
      one is appended. */
  function ToggleType(prev: seq<string>, typeId: string): (r: seq<string>)
    ensures typeId in r <==> typeId !in prev
    ensures forall x | x != typeId :: x in r <==> x in prev
  {
    if typeId in prev then
      FilterMember(prev, (id: string) => id != typeId, typeId);
      forall x | x != typeId ensures x in Filter(prev, (id: string) => id != typeId) <==> x in prev {
        FilterMember(prev, (id: string) => id != typeId, x);
      }
      Filter(prev, (id: string) => id != typeId)
    else
      prev + [typeId]
  }

  /** Toggling an unselected id twice restores the selection exactly. */
  lemma ToggleTwice(prev: seq<string>, typeId: string)
    requires typeId !in prev
    ensures ToggleType(ToggleType(prev, typeId), typeId) == prev
  {
    var keep := (id: string) => id != typeId;
    FilterConcat(prev, [typeId], keep);
    FilterAll(prev, keep);
    assert Filter([typeId], keep) == [];
  }

  /** `availablePrograms.filter(p => selectedTypes.includes(p.id))`. */
  function SelectedPrograms(available: seq<Program>, selected: seq<string>): (r: seq<Program>)
    ensures IsSubsequence(r, available)
    ensures forall p | p in r :: p in available && p.id in selected
  {
    FilterIsSubsequence(available, (p: Program) => p.id in selected);
    FilterAllPass(available, (p: Program) => p.id in selected);
    Filter(available, (p: Program) => p.id in selected)
  }

  /** A program is recorded exactly when it is available and its id is
      selected, and the records keep the available-list order. */
  lemma SelectedProgramsExact(available: seq<Program>, selected: seq<string>, p: Program)
    ensures p in SelectedPrograms(available, selected) <==> p in available && p.id in selected
    ensures IsSubsequence(SelectedPrograms(available, selected), available)
  {
    FilterMember(available, (q: Program) => q.id in selected, p);
    FilterIsSubsequence(available, (q: Program) => q.id in selected);
  }

  /** The `step4` record. */
  function Step4(selectedTypes: seq<string>, description: string, available: seq<Program>): Json {
    JObj([("selectedTypes", JArr(StrList(selectedTypes))),
          ("description", JStr(description)),
          ("selectedPrograms", JArr(ProgramsJson(SelectedPrograms(available, selectedTypes))))])
  }

  datatype SubmitOutcome =
    | NeedSelection(alert: string)
    | Navigate(path: string)
    | ParseFailed(error: string)

  const LoadError := "Failed to load available programs. Please try again."

  class ApplicationTypePage {
    var selectedTypes: seq<string>
    var description: string
    var availablePrograms: seq<Program>
    var loading: bool
    var error: Option<string>

    constructor ()
      ensures selectedTypes == [] && description == "" && availablePrograms == []
      ensures loading && error == None
    {
      selectedTypes := [];
      description := "";
      availablePrograms := [];
      loading := true;
      error := None;
    }

    /** `loadAvailablePrograms`: `fetched` is the active programs, or the
        failure of the query. */
    method LoadAvailablePrograms(fetched: Result<seq<Program>, string>)
      modifies this
      ensures fetched.Ok? ==> availablePrograms == fetched.value && error == None
      ensures fetched.Err? ==> availablePrograms == old(availablePrograms) && error == Some(LoadError)
      ensures !loading && selectedTypes == old(selectedTypes) && description == old(description)
    {
      loading := true;
      error := None;
      if fetched.Ok? {
        availablePrograms := fetched.value;
      } else {
        error := Some(LoadError);
      }
      loading := false;
    }

    method HandleTypeToggle(typeId: string)
      modifies this
      ensures selectedTypes == ToggleType(old(selectedTypes), typeId)
      ensures description == old(description) && availablePrograms == old(availablePrograms)
      ensures loading == old(loading) && error == old(error)
    {
      selectedTypes := ToggleType(selectedTypes, typeId);
    }

    method SetDescription(text: string)
      modifies this
      ensures description == text
      ensures selectedTypes == old(selectedTypes) && availablePrograms == old(availablePrograms)
      ensures loading == old(loading) && error == old(error)
    {
      description := text;
    }

    /** `handleSubmit`: with nothing selected, alert and stop; otherwise merge
        `step4` into the draft and go to the confirmation page. */
    method HandleSubmit(store: LocalStorage) returns (outcome: SubmitOutcome)
      modifies store
      ensures selectedTypes == [] ==> outcome == NeedSelection("Please select at least one application type")
      ensures selectedTypes == [] ==> store.items == old(store.items)
      ensures selectedTypes != [] && Draft(old(store.items)).Ok? ==>
                outcome == Navigate("/register/confirmation") &&
                store.items == old(store.items)[DraftKey := Encoded(Merged(Draft(old(store.items)).value, "step4",
                                                  Step4(selectedTypes, description, availablePrograms)))]
      ensures selectedTypes != [] && Draft(old(store.items)).Err? ==>
                outcome.ParseFailed? && store.items == old(store.items)
    {
      if |selectedTypes| == 0 {
        return NeedSelection("Please select at least one application type");
      }
      var r := MergeStep(store, "step4", Step4(selectedTypes, description, availablePrograms));
      if r.Err? {
        return ParseFailed(r.error);
      }
      outcome := Navigate("/register/confirmation");
    }
  }
}
