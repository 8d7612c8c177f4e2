/** The application state: the form, the current results, the loading flag,
    the error message and the bounded history of past batches, which is
    written whole to one storage key whenever it changes. Each handler is one
    atomic step. */
module AdCraftApp {
  import opened Wrappers
  import opened AdTypes
  import opened AdForm
  import opened GeminiService
  import opened History

  const StorageKey: string := "adcraft_history_v1"

  /** The error shown when a thrown error carries an empty message. */
  const FallbackError: string := "Something went wrong."

  /** The form as the app starts and as Reset leaves it. */
  const InitialForm: AdFormData := AdFormData("", "", "", Instagram, Friendly, ShopNow, true)

  /** The label of the result card at `index`: "Variant " and the letter
      whose character code is 65 + index. */
  function VariantLabel(index: nat): string
    requires index < 0xD800 - 65
  {
    "Variant " + [(65 + index) as char]
  }

  /** The first three cards read Variant A, B and C, and no two cards share a label. */
  lemma VariantLabels(i: nat, j: nat)
    requires i < 0xD800 - 65 && j < 0xD800 - 65
    ensures VariantLabel(0) == "Variant A" && VariantLabel(1) == "Variant B" && VariantLabel(2) == "Variant C"
    ensures i != j ==> VariantLabel(i) != VariantLabel(j)
  {
    if i != j {
      assert VariantLabel(i)[8] != VariantLabel(j)[8];
    }
  }

  /** The reset form cannot be submitted. */
  lemma InitialFormInvalid()
    ensures !IsFormValid(InitialForm) && SubmitDisabled(InitialForm, false)
  {
  }

  /** The error the app shows for a thrown error's message. */
  function ShownError(message: string): (shown: string)
    ensures shown != ""
    ensures message != "" ==> shown == message
    ensures message == "" ==> shown == FallbackError
  {
    if message == "" then FallbackError else message
  }

  class App {
    var formData: AdFormData
    var results: Batch
    var isLoading: bool
    var error: Option<string>
    var history: seq<Batch>
    /** The browser's key-value storage, holding histories. */
    var storage: map<string, seq<Batch>>

    /** The persistence effect has run: the storage key holds the whole current history. */
    ghost predicate Valid()
      reads this
    {
      StorageKey in storage && storage[StorageKey] == history
    }

    /** Start-up: the history is what the key holds, or empty when it holds
        nothing; the persistence effect then writes it back. */
    constructor (stored: map<string, seq<Batch>>)
      ensures Valid()
      ensures formData == InitialForm && results == [] && !isLoading && error == None
      ensures history == if StorageKey in stored then stored[StorageKey] else []
      ensures storage == stored[StorageKey := history]
    {
      formData := InitialForm;
      results := [];
      isLoading := false;
      error := None;
      var loaded := if StorageKey in stored then stored[StorageKey] else [];
      history := loaded;
      storage := stored[StorageKey := loaded];
    }

    /** The persistence effect: the whole history under the one key. */
    method PersistHistory()
      modifies this
      ensures Valid()
      ensures storage == old(storage)[StorageKey := history]
      ensures formData == old(formData) && results == old(results) && isLoading == old(isLoading)
      ensures error == old(error) && history == old(history)
    {
      storage := storage[StorageKey := history];
    }

    /** What happens before the external call: loading on, error and results cleared. */
    method StartGeneration()
      requires Valid()
      modifies this
      ensures Valid()
      ensures isLoading && error == None && results == []
      ensures formData == old(formData) && history == old(history) && storage == old(storage)
    {
      isLoading := true;
      error := None;
      results := [];
    }

    /** What happens after the external call: the batch becomes the results
        and the front of the history, or the error message is shown; loading
        ends either way. */
    method CompleteGeneration(outcome: Result<Batch, string>)
      requires Valid()
      modifies this
      ensures Valid() && !isLoading && formData == old(formData)
      ensures outcome.Success? ==>
        && results == outcome.value
        && error == old(error)
        && history == PushHistory(outcome.value, old(history))
        && storage == old(storage)[StorageKey := history]
      ensures outcome.Failure? ==>
        && results == old(results)
        && error == Some(ShownError(outcome.error))
        && history == old(history)
        && storage == old(storage)
    {
      match outcome {
        case Success(batch) =>
          results := batch;
          history := PushHistory(batch, history);
          PersistHistory();
        case Failure(message) =>
          error := Some(ShownError(message));
      }
      isLoading := false;
    }

    /** `handleGenerate`: one generation for the current form, the external
        model, the JSON parser, the id source and the clock given as oracles. */
    method HandleGenerate(call: Request -> Reply, parse: string -> Option<seq<RawItem>>,
                          ids: nat -> string, clock: nat -> int)
      requires Valid()
      modifies this
      ensures Valid() && !isLoading && formData == old(formData)
      ensures var r := GenerateAdCopy(old(formData), call, parse, ids, clock);
        && (r.Success? ==>
              && results == r.value && error == None
              && (forall k :: 0 <= k < |results| ==> results[k].metadata == formData)
              && history == PushHistory(r.value, old(history))
              && storage == old(storage)[StorageKey := history])
        && (r.Failure? ==>
              && results == [] && error == Some(FailureMessage)
              && history == old(history) && storage == old(storage))
    {
      StartGeneration();
      var outcome := GenerateAdCopy(formData, call, parse, ids, clock);
      CompleteGeneration(outcome);
    }

    /** A click on the submit button: it starts a generation only while
        enabled, and nothing happens while it is disabled. */
    method ClickSubmit(call: Request -> Reply, parse: string -> Option<seq<RawItem>>,
                       ids: nat -> string, clock: nat -> int) returns (fired: bool)
      requires Valid()
      modifies this
      ensures Valid()
      ensures fired == !old(SubmitDisabled(formData, isLoading))
      ensures fired ==> !isLoading && formData == old(formData)
      ensures var r := GenerateAdCopy(old(formData), call, parse, ids, clock);
        && (fired && r.Success? ==>
              && results == r.value && error == None
              && (forall k :: 0 <= k < |results| ==> results[k].metadata == formData)
              && history == PushHistory(r.value, old(history))
              && storage == old(storage)[StorageKey := history])
        && (fired && r.Failure? ==>
              && results == [] && error == Some(FailureMessage)
              && history == old(history) && storage == old(storage))
      ensures !fired ==>
        && formData == old(formData) && results == old(results) && isLoading == old(isLoading)
        && error == old(error) && history == old(history) && storage == old(storage)
    {
      fired := !SubmitDisabled(formData, isLoading);
      if fired {
        HandleGenerate(call, parse, ids, clock);
      }
    }

    /** `handleClear`: the default form, no results, no error; the history stays. */
    method HandleClear()
      requires Valid()
      modifies this
      ensures Valid()
      ensures formData == InitialForm && results == [] && error == None
      ensures isLoading == old(isLoading) && history == old(history) && storage == old(storage)
    {
      formData := InitialForm;
      results := [];
      error := None;
    }

    /** `restoreFromHistory`: replays a batch, and the form of its first ad
        when it has one. History, error and loading are untouched. */
    method RestoreFromHistory(group: Batch)
      requires Valid()
      modifies this
      ensures Valid()
      ensures results == group
      ensures formData == if |group| > 0 then group[0].metadata else old(formData)
      ensures isLoading == old(isLoading) && error == old(error)
      ensures history == old(history) && storage == old(storage)
    {
      results := group;
      if |group| > 0 {
        formData := group[0].metadata;
      }
    }

    /** The form's change handler, for an event one of the form's inputs produces. */
    method HandleChange(e: ChangeEvent)
      requires Valid()
      requires ApplyChange(formData, e).Some?
      modifies this
      ensures Valid()
      ensures formData == ApplyChange(old(formData), e).value
      ensures results == old(results) && isLoading == old(isLoading) && error == old(error)
      ensures history == old(history) && storage == old(storage)
    {
      formData := ApplyChange(formData, e).value;
    }
  }
}
