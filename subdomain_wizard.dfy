/**
 * The three-step subdomain creation wizard
 * (front-end/src/components/CreateSubdomainModal.jsx): the current step, the
 * form data with its list of custom domains, and the pending domain input.
 * Each React state cell is a field of `Wizard`; each handler a method.
 */
module SubdomainWizard {
  import opened Text

  /** A custom domain entry: the trimmed name, its type ('custom' or 'subdomain') and whether it is verified. */
  datatype Domain = Domain(domain: string, kind: string, verified: bool)

  datatype FormData = FormData(
    name: string,
    description: string,
    repository: string,
    branch: string,
    buildCommand: string,
    outputDirectory: string,
    environmentVariables: string,
    autoDeployOnPush: bool,
    customDomains: seq<Domain>)

  /** The form the wizard opens with. */
  const InitialForm := FormData("", "", "", "main", "npm run build", "dist", "", true, [])

  const FirstStep := 1
  const LastStep := 3

  /** `nextStep`: one step on, except at the last step. */
  function NextStepOf(step: int): (s: int)
    ensures FirstStep <= step <= LastStep ==> FirstStep <= s <= LastStep
    ensures step == LastStep ==> s == step
  {
    if step < LastStep then step + 1 else step
  }

  /** `prevStep`: one step back, except at the first step. */
  function PrevStepOf(step: int): (s: int)
    ensures FirstStep <= step <= LastStep ==> FirstStep <= s <= LastStep
    ensures step == FirstStep ==> s == step
  {
    if step > FirstStep then step - 1 else step
  }

  /** Going back undoes going on below the last step, and going on undoes going back above the first. */
  lemma StepsUndo(step: int)
    ensures FirstStep <= step < LastStep ==> PrevStepOf(NextStepOf(step)) == step
    ensures FirstStep < step <= LastStep ==> NextStepOf(PrevStepOf(step)) == step
  {
  }

  /** `canProceed()`: a name at step 1, a repository at step 2, always at step 3, never elsewhere. */
  function CanProceedAt(step: int, form: FormData): (ok: bool)
    ensures step == 1 ==> (ok <==> Trim(form.name) != "")
    ensures step == 2 ==> (ok <==> Trim(form.repository) != "")
    ensures step == 3 ==> ok
    ensures step !in {1, 2, 3} ==> !ok
  {
    match step
    case 1 => Trim(form.name) != ""
    case 2 => Trim(form.repository) != ""
    case 3 => true
    case _ => false
  }

  /** A name of only white space does not let the first step proceed. */
  lemma BlankNameBlocks(form: FormData)
    requires forall i :: 0 <= i < |form.name| ==> IsSpace(form.name[i])
    ensures !CanProceedAt(1, form)
  {
    TrimEmptyIffBlank(form.name);
  }

  /** The Continue control: shown below the last step, and enabled only when the step can proceed. */
  predicate ContinueEnabledAt(step: int, form: FormData)
  {
    step < LastStep && CanProceedAt(step, form)
  }

  /**
   * Continue is never offered at the last step; below it, it is enabled
   * exactly when the step can proceed, so a blank name or repository keeps
   * the user where they are.
   */
  lemma ContinueGate(step: int, form: FormData)
    ensures step >= LastStep ==> !ContinueEnabledAt(step, form)
    ensures FirstStep <= step < LastStep ==> (ContinueEnabledAt(step, form) <==> CanProceedAt(step, form))
    ensures step == 1 ==> (ContinueEnabledAt(step, form) <==> Trim(form.name) != "")
    ensures step == 2 ==> (ContinueEnabledAt(step, form) <==> Trim(form.repository) != "")
  {
  }

  /** `list.filter((_, i) => i !== index)`. */
  function WithoutIndex<T>(s: seq<T>, index: int): (r: seq<T>)
    ensures 0 <= index < |s| ==> r == s[..index] + s[index + 1..]
    ensures !(0 <= index < |s|) ==> r == s
    decreases |s|
  {
    if s == [] then []
    else
      var rest := WithoutIndex(s[1..], index - 1);
      if index == 0 then
        rest
      else if 0 < index < |s| then
        assert s[..index] == [s[0]] + s[1..][..index - 1];
        assert s[index + 1..] == s[1..][index..];
        [s[0]] + rest
      else
        assert s == [s[0]] + s[1..];
        [s[0]] + rest
  }

  /** The list after `addCustomDomain` with input `input` of type `kind`. */
  function AddedDomains(domains: seq<Domain>, input: string, kind: string): (r: seq<Domain>)
    ensures Trim(input) == "" ==> r == domains
    ensures Trim(input) != "" ==> r == domains + [Domain(Trim(input), kind, false)]
  {
    if Trim(input) != "" then domains + [Domain(Trim(input), kind, false)] else domains
  }

  /** Removing the entry just added restores the list as it was. */
  lemma AddThenRemove(domains: seq<Domain>, input: string, kind: string)
    requires Trim(input) != ""
    ensures WithoutIndex(AddedDomains(domains, input, kind), |domains|) == domains
  {
    var added := AddedDomains(domains, input, kind);
    assert added[..|domains|] == domains;
  }

  /** Every entry in the list has a non-empty domain with no surrounding white space, and is unverified. */
  predicate DomainsClean(domains: seq<Domain>)
  {
    forall i :: 0 <= i < |domains| ==> domains[i].domain != "" && Trim(domains[i].domain) == domains[i].domain && !domains[i].verified
  }

  /** Adding keeps the list clean. */
  lemma AddKeepsClean(domains: seq<Domain>, input: string, kind: string)
    requires DomainsClean(domains)
    ensures DomainsClean(AddedDomains(domains, input, kind))
  {
    TrimIdempotent(input);
    var r := AddedDomains(domains, input, kind);
    forall i | 0 <= i < |r|
      ensures r[i].domain != "" && Trim(r[i].domain) == r[i].domain && !r[i].verified
    {
      if i < |domains| {
        assert r[i] == domains[i];
      }
    }
  }

  /** Removing keeps the list clean. */
  lemma RemoveKeepsClean(domains: seq<Domain>, index: int)
    requires DomainsClean(domains)
    ensures DomainsClean(WithoutIndex(domains, index))
  {
    var r := WithoutIndex(domains, index);
    if 0 <= index < |domains| {
      forall i | 0 <= i < |r|
        ensures r[i].domain != "" && Trim(r[i].domain) == r[i].domain && !r[i].verified
      {
        var j := if i < index then i else i + 1;
        assert r[i] == domains[j];
      }
    }
  }

  class Wizard {
    var currentStep: int
    var form: FormData
    var newDomain: string
    var domainType: string

    /** The step stays in range, and every listed domain is non-empty, trimmed and unverified. */
    ghost predicate Valid()
      reads this
    {
      FirstStep <= currentStep <= LastStep && DomainsClean(form.customDomains)
    }

    /** The modal's initial state. */
    constructor ()
      ensures Valid()
      ensures currentStep == 1 && form == InitialForm && newDomain == "" && domainType == "custom"
    {
      currentStep := 1;
      form := InitialForm;
      newDomain := "";
      domainType := "custom";
    }

    function CanProceed(): bool
      reads this
    {
      CanProceedAt(currentStep, form)
    }

    predicate ContinueEnabled()
      reads this
    {
      ContinueEnabledAt(currentStep, form)
    }

    /** `nextStep`: it does not consult `canProceed`; the disabled control is what stops the user. */
    method NextStep()
      requires Valid()
      modifies this
      ensures Valid()
      ensures currentStep == NextStepOf(old(currentStep))
      ensures form == old(form) && newDomain == old(newDomain) && domainType == old(domainType)
    {
      if currentStep < LastStep {
        currentStep := currentStep + 1;
      }
    }

    method PrevStep()
      requires Valid()
      modifies this
      ensures Valid()
      ensures currentStep == PrevStepOf(old(currentStep))
      ensures form == old(form) && newDomain == old(newDomain) && domainType == old(domainType)
    {
      if currentStep > FirstStep {
        currentStep := currentStep - 1;
      }
    }

    /** The project name input. */
    method EditName(value: string)
      requires Valid()
      modifies this
      ensures Valid()
      ensures form == old(form).(name := value)
      ensures currentStep == old(currentStep) && newDomain == old(newDomain) && domainType == old(domainType)
    {
      form := form.(name := value);
    }

    /** The repository input. */
    method EditRepository(value: string)
      requires Valid()
      modifies this
      ensures Valid()
      ensures form == old(form).(repository := value)
      ensures currentStep == old(currentStep) && newDomain == old(newDomain) && domainType == old(domainType)
    {
      form := form.(repository := value);
    }

    /** The pending domain input. */
    method EditNewDomain(value: string)
      requires Valid()
      modifies this
      ensures Valid()
      ensures newDomain == value
      ensures currentStep == old(currentStep) && form == old(form) && domainType == old(domainType)
    {
      newDomain := value;
    }

    /** The domain type selector. */
    method ChooseDomainType(kind: string)
      requires Valid()
      modifies this
      ensures Valid()
      ensures domainType == kind
      ensures currentStep == old(currentStep) && form == old(form) && newDomain == old(newDomain)
    {
      domainType := kind;
    }

    /**
     * `addCustomDomain`: a non-blank input is appended, trimmed and unverified,
     * and the input is cleared; a blank input changes nothing. No other form
     * field changes.
     */
    method AddCustomDomain()
      requires Valid()
      modifies this
      ensures Valid()
      ensures form == old(form).(customDomains := AddedDomains(old(form).customDomains, old(newDomain), old(domainType)))
      ensures newDomain == (if Trim(old(newDomain)) != "" then "" else old(newDomain))
      ensures currentStep == old(currentStep) && domainType == old(domainType)
    {
      var domains, input, kind := form.customDomains, newDomain, domainType;
      AddKeepsClean(domains, input, kind);
      if Trim(input) != "" {
        form := form.(customDomains := domains + [Domain(Trim(input), kind, false)]);
        newDomain := "";
      }
    }

    /** `removeDomain(index)`: exactly that entry goes; no other form field changes. */
    method RemoveDomain(index: int)
      requires Valid()
      modifies this
      ensures Valid()
      ensures form == old(form).(customDomains := WithoutIndex(old(form).customDomains, index))
      ensures currentStep == old(currentStep) && newDomain == old(newDomain) && domainType == old(domainType)
    {
      var domains := form.customDomains;
      RemoveKeepsClean(domains, index);
      form := form.(customDomains := WithoutIndex(domains, index));
    }
  }
}
