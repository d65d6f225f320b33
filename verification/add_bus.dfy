/** The owner's add-bus wizard (owner-portal/pages/AddBus.tsx): a three-step
    form with a feature picker and a generated description. */
module AddBus {
  import opened Common

  /** The wizard's form fields. */
  datatype BusForm = BusForm(
    name: string,
    regNumber: string,
    capacity: string,
    busType: string,
    price: string,
    city: string,
    description: string,
    features: seq<string>)

  const FirstStep := 1
  const LastStep := 3
  const MissingDetailsAlert := "Please enter bus name and type first!"

  /** The empty form; the bus type starts as `'Normal'`. */
  const EmptyForm := BusForm("", "", "", "Normal", "", "", "", [])

  /** The features the picker offers. */
  const FeatureChoices: seq<string> := ["DJ System", "LED Lights", "AC", "Sleeper", "Sound System", "TV", "USB Charging"]

  /** The description request is sent only when both name and type are
      filled in. */
  predicate ReadyToDescribe(form: BusForm) {
    form.name != "" && form.busType != ""
  }

  class Wizard {
    var step: int
    var isGenerating: bool
    var form: BusForm
    /** The last alert shown. */
    var alert: Option<string>

    /** The step counter stays within the three steps. */
    predicate Valid()
      reads this
    {
      FirstStep <= step <= LastStep
    }

    constructor ()
      ensures Valid() && step == FirstStep
      ensures form == EmptyForm && !isGenerating && alert.None?
    {
      step := FirstStep;
      isGenerating := false;
      form := EmptyForm;
      alert := None;
    }

    /** `nextStep`: one step on, never past the last. */
    method NextStep()
      modifies this
      ensures step <= LastStep
      ensures old(step) < LastStep ==> step == old(step) + 1
      ensures old(step) >= LastStep ==> step == LastStep
      ensures old(Valid()) ==> Valid()
      ensures form == old(form) && isGenerating == old(isGenerating) && alert == old(alert)
    {
      step := if step + 1 < LastStep then step + 1 else LastStep;
    }

    /** `prevStep`: one step back, never before the first. */
    method PrevStep()
      modifies this
      ensures step >= FirstStep
      ensures old(step) > FirstStep ==> step == old(step) - 1
      ensures old(step) <= FirstStep ==> step == FirstStep
      ensures old(Valid()) ==> Valid()
      ensures form == old(form) && isGenerating == old(isGenerating) && alert == old(alert)
    {
      step := if step - 1 > FirstStep then step - 1 else FirstStep;
    }

    /** `toggleFeature`: removes every copy of a chosen feature, or appends
        one that was not chosen; every other field stays as it was. */
    method ToggleFeature(feature: string)
      modifies this
      ensures form == old(form).(features := Toggle(old(form).features, feature))
      ensures feature in old(form).features ==> feature !in form.features
      ensures feature !in old(form).features ==> form.features == old(form).features + [feature]
      ensures forall f :: f != feature ==> (f in form.features <==> f in old(form).features)
      ensures step == old(step) && isGenerating == old(isGenerating) && alert == old(alert)
    {
      form := form.(features := Toggle(form.features, feature));
    }

    /** `handleAIWrite` once the generator has answered with `generated`: an
        empty name or type only raises the alert; otherwise the description
        becomes the generated text, or empty when there is none. */
    method HandleAIWrite(generated: Option<string>)
      modifies this
      ensures !ReadyToDescribe(old(form)) ==>
        form == old(form) && alert == Some(MissingDetailsAlert) && isGenerating == old(isGenerating)
      ensures ReadyToDescribe(old(form)) ==>
        && form == old(form).(description := OrElse(generated, ""))
        && alert == old(alert) && !isGenerating
      ensures step == old(step)
    {
      if !ReadyToDescribe(form) {
        alert := Some(MissingDetailsAlert);
        return;
      }
      isGenerating := true;
      form := form.(description := OrElse(generated, ""));
      isGenerating := false;
    }
  }
}
