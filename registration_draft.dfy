/** The registration wizard keeps its draft under one storage key,
    `registrationData`: an object with one key per step (`step1` … `step4`).
    Each step screen reads the draft, spreads it into a new object with its
    own step key replaced, and writes the result back. */
module RegistrationDraft {
  import opened Wrappers
  import opened Dicts
  import opened JsonValues
  import opened Storage

  const DraftKey := "registrationData"

  /** `JSON.parse(localStorage.getItem('registrationData') || '{}')`. */
  function Draft(items: map<string, Item>): Result<Json, string> {
    ParseStored(ItemAt(items, DraftKey), JObj([]))
  }

  /** `{ ...existing, [step]: value }`. */
  function Merged(existing: Json, step: string, value: Json): (r: Json)
    ensures Get(r, step) == value
    ensures forall k | k != step :: Get(r, k) == Get(existing, k)
  {
    WithGetSame(existing, step, value);
    forall k | k != step ensures Get(With(existing, step, value), k) == Get(existing, k) {
      WithGetOther(existing, step, value, k);
    }
    With(existing, step, value)
  }

  /** Read the draft, replace one step, write it back. When the stored text
      does not parse, `JSON.parse` throws and nothing is written. */
  method MergeStep(store: LocalStorage, step: string, value: Json) returns (r: Result<Json, string>)
    modifies store
    ensures r == Draft(old(store.items))
    ensures r.Ok? ==> store.items == old(store.items)[DraftKey := Encoded(Merged(r.value, step, value))]
    ensures r.Err? ==> store.items == old(store.items)
  {
    var stored := store.GetItem(DraftKey);
    r := ParseStored(stored, JObj([]));
    if r.Ok? {
      store.SetItem(DraftKey, Encoded(Merged(r.value, step, value)));
    }
  }

  /** After a step is merged, reading the draft again gives that step's value
      and every other step as it was. */
  lemma MergeThenRead(items: map<string, Item>, step: string, value: Json, k: string)
    requires Draft(items).Ok?
    ensures var after := items[DraftKey := Encoded(Merged(Draft(items).value, step, value))];
            && Draft(after).Ok?
            && Get(Draft(after).value, step) == value
            && (k != step ==> Get(Draft(after).value, k) == Get(Draft(items).value, k))
  {
  }
}
