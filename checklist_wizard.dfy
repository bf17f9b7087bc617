/**
 * The new-checklist wizard: a step counter and a nested form record.
 * Step 1 shows the date and the checklist type, step 2 the three people
 * responsible, and later steps show no inputs. "Next" (labelled "Terminer"
 * on step 4) always advances; "Previous" is offered from step 2 on.
 * Nothing is validated or saved.
 */
module ChecklistWizard {
  import opened Text

  datatype Responsables = Responsables(electrical: string, workshop: string, inspector: string)

  datatype EngineInfo = EngineInfo(serialNumber: string, ecmNumber: string, hmCurrent: string)

  datatype FormData = FormData(
    date: string,
    checklistType: string,
    responsables: Responsables,
    engineInfo: EngineInfo)

  const EMPTY_FORM: FormData :=
    FormData("", "", Responsables("", "", ""), EngineInfo("", "", ""))

  /** The values the checklist-type radio group offers. */
  const CHECKLIST_TYPES: seq<string> := ["reception", "expedition"]

  const LAST_STEP := 4

  /** Every leaf of the form. */
  datatype Field = Date | ChecklistType | Electrical | Workshop | Inspector
                 | SerialNumber | EcmNumber | HmCurrent

  function FieldValue(f: FormData, k: Field): string
  {
    match k
    case Date => f.date
    case ChecklistType => f.checklistType
    case Electrical => f.responsables.electrical
    case Workshop => f.responsables.workshop
    case Inspector => f.responsables.inspector
    case SerialNumber => f.engineInfo.serialNumber
    case EcmNumber => f.engineInfo.ecmNumber
    case HmCurrent => f.engineInfo.hmCurrent
  }

  /** The spread update an input's change handler performs: the one leaf
      takes the new value and every other leaf keeps its own. */
  function SetField(f: FormData, k: Field, v: string): (r: FormData)
    ensures FieldValue(r, k) == v
    ensures forall j :: j != k ==> FieldValue(r, j) == FieldValue(f, j)
  {
    match k
    case Date => f.(date := v)
    case ChecklistType => f.(checklistType := v)
    case Electrical => f.(responsables := f.responsables.(electrical := v))
    case Workshop => f.(responsables := f.responsables.(workshop := v))
    case Inspector => f.(responsables := f.responsables.(inspector := v))
    case SerialNumber => f.(engineInfo := f.engineInfo.(serialNumber := v))
    case EcmNumber => f.(engineInfo := f.engineInfo.(ecmNumber := v))
    case HmCurrent => f.(engineInfo := f.engineInfo.(hmCurrent := v))
  }

  /** The inputs rendered at a step. No step renders the engine fields. */
  function FieldsShownAt(step: int): (r: set<Field>)
    ensures SerialNumber !in r && EcmNumber !in r && HmCurrent !in r
    ensures step == 1 ==> r == {Date, ChecklistType}
    ensures step == 2 ==> r == {Electrical, Workshop, Inspector}
    ensures step != 1 && step != 2 ==> r == {}
  {
    if step == 1 then {Date, ChecklistType}
    else if step == 2 then {Electrical, Workshop, Inspector}
    else {}
  }

  predicate PreviousOffered(step: int)
  {
    step > 1
  }

  /** The caption of the forward button. */
  function NextLabel(step: int): (r: string)
    ensures r == "Terminer" <==> step == LAST_STEP
    ensures r != "Terminer" ==> r == "Suivant"
  {
    if step == 4 then "Terminer" else "Suivant"
  }

  function StepTitle(step: int): string
  {
    "Nouvelle Checklist - Étape " + IntToString(step) + "/4"
  }

  /** What the user can do on the page. */
  datatype Event = Change(field: Field, value: string) | ClickNext | ClickPrevious

  datatype WizardState = WizardState(step: int, form: FormData)

  const INITIAL: WizardState := WizardState(1, EMPTY_FORM)

  /** One user action. A change can only come from an input on screen and
      "Previous" can only be clicked where it is offered; anything else has
      no effect. */
  function AfterEvent(s: WizardState, ev: Event): (r: WizardState)
    ensures ev.Change? && ev.field in FieldsShownAt(s.step) ==>
      r.step == s.step && FieldValue(r.form, ev.field) == ev.value
      && forall j :: j != ev.field ==> FieldValue(r.form, j) == FieldValue(s.form, j)
    ensures ev.Change? && ev.field !in FieldsShownAt(s.step) ==> r == s
    ensures ev.ClickNext? ==> r == WizardState(s.step + 1, s.form)
    ensures ev.ClickPrevious? ==>
      r == if PreviousOffered(s.step) then WizardState(s.step - 1, s.form) else s
  {
    match ev
    case Change(k, v) => if k in FieldsShownAt(s.step) then WizardState(s.step, SetField(s.form, k, v)) else s
    case ClickNext => WizardState(s.step + 1, s.form)
    case ClickPrevious => if s.step > 1 then WizardState(s.step - 1, s.form) else s
  }

  function AfterEvents(s: WizardState, evs: seq<Event>): WizardState
    decreases |evs|
  {
    if evs == [] then s else AfterEvents(AfterEvent(s, evs[0]), evs[1..])
  }

  /** Picking either radio value on step 1 stores exactly that value as the
      checklist type and stays on the step; the two values differ. */
  lemma PickChecklistType(s: WizardState, i: nat)
    requires s.step == 1 && i < |CHECKLIST_TYPES|
    ensures CHECKLIST_TYPES[0] != CHECKLIST_TYPES[1]
    ensures var r := AfterEvent(s, Change(ChecklistType, CHECKLIST_TYPES[i]));
      r.step == 1 && r.form.checklistType == CHECKLIST_TYPES[i]
      && r.form.date == s.form.date && r.form.responsables == s.form.responsables
      && r.form.engineInfo == s.form.engineInfo
  {
    var r := AfterEvent(s, Change(ChecklistType, CHECKLIST_TYPES[i]));
    assert FieldValue(r.form, Electrical) == FieldValue(s.form, Electrical);
    assert FieldValue(r.form, Workshop) == FieldValue(s.form, Workshop);
    assert FieldValue(r.form, Inspector) == FieldValue(s.form, Inspector);
    assert FieldValue(r.form, SerialNumber) == FieldValue(s.form, SerialNumber);
    assert FieldValue(r.form, EcmNumber) == FieldValue(s.form, EcmNumber);
    assert FieldValue(r.form, HmCurrent) == FieldValue(s.form, HmCurrent);
  }

  /** Whatever the user does, the step never drops below 1. */
  lemma {:induction false} StepStaysPositive(s: WizardState, evs: seq<Event>)
    requires s.step >= 1
    ensures AfterEvents(s, evs).step >= 1
    decreases |evs|
  {
    if evs != [] {
      StepStaysPositive(AfterEvent(s, evs[0]), evs[1..]);
    }
  }

  /** The engine information is never edited: no step shows its inputs. */
  lemma {:induction false} EngineInfoUntouched(s: WizardState, evs: seq<Event>)
    ensures AfterEvents(s, evs).form.engineInfo == s.form.engineInfo
    decreases |evs|
  {
    if evs != [] {
      var t := AfterEvent(s, evs[0]);
      assert t.form.engineInfo == s.form.engineInfo by {
        assert FieldValue(t.form, SerialNumber) == FieldValue(s.form, SerialNumber);
        assert FieldValue(t.form, EcmNumber) == FieldValue(s.form, EcmNumber);
        assert FieldValue(t.form, HmCurrent) == FieldValue(s.form, HmCurrent);
      }
      EngineInfoUntouched(t, evs[1..]);
    }
  }

  /** Going forward and then back returns to the same state. */
  lemma NextThenPrevious(s: WizardState)
    requires s.step >= 1
    ensures AfterEvents(s, [ClickNext, ClickPrevious]) == s
  {
    assert AfterEvents(s, [ClickNext, ClickPrevious])
      == AfterEvents(WizardState(s.step + 1, s.form), [ClickPrevious]);
  }

  function Nexts(n: nat): (r: seq<Event>)
    ensures |r| == n && forall i :: 0 <= i < n ==> r[i] == ClickNext
  {
    if n == 0 then [] else [ClickNext] + Nexts(n - 1)
  }

  /** n forward clicks from any state land n steps further, with the form
      as it was. */
  lemma {:induction false} ForwardClicks(s: WizardState, n: nat)
    ensures AfterEvents(s, Nexts(n)) == WizardState(s.step + n, s.form)
    decreases n
  {
    if n > 0 {
      assert Nexts(n)[1..] == Nexts(n - 1);
      ForwardClicks(WizardState(s.step + 1, s.form), n - 1);
    }
  }

  /** The step counter has no upper bound: "Terminer" on step 4 leads to a
      step 5 that shows no input and is titled "Étape 5/4". */
  lemma FinishGoesPastLastStep()
    ensures NextLabel(AfterEvents(INITIAL, Nexts(3)).step) == "Terminer"
    ensures AfterEvents(INITIAL, Nexts(4)).step == 5
    ensures FieldsShownAt(AfterEvents(INITIAL, Nexts(4)).step) == {}
    ensures StepTitle(5) == "Nouvelle Checklist - Étape 5/4"
  {
    ForwardClicks(INITIAL, 3);
    ForwardClicks(INITIAL, 4);
  }

  class WizardPage {
    var step: int
    var formData: FormData

    function State(): WizardState
      reads this
    {
      WizardState(step, formData)
    }

    constructor()
      ensures State() == INITIAL
    {
      step := 1;
      formData := EMPTY_FORM;
    }

    /** `handleNext`. */
    method HandleNext()
      modifies this
      ensures step == old(step) + 1 && formData == old(formData)
    {
      step := step + 1;
    }

    /** `handlePrevious`; it does not check the step itself. */
    method HandlePrevious()
      modifies this
      ensures step == old(step) - 1 && formData == old(formData)
    {
      step := step - 1;
    }

    /** The change handler of one input. */
    method ChangeField(k: Field, v: string)
      modifies this
      ensures formData == SetField(old(formData), k, v) && step == old(step)
    {
      formData := SetField(formData, k, v);
    }

    /** One user action on the rendered page. */
    method Dispatch(ev: Event)
      modifies this
      ensures State() == AfterEvent(old(State()), ev)
    {
      match ev {
        case Change(k, v) =>
          if k in FieldsShownAt(step) {
            ChangeField(k, v);
          }
        case ClickNext =>
          HandleNext();
        case ClickPrevious =>
          if PreviousOffered(step) {
            HandlePrevious();
          }
      }
    }
  }
}
