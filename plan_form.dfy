/** The four-step wizard of components/marketing-plan-form.tsx: company
    description, posting frequency, platform selection, results. Each
    `useState` value is a field of MarketingPlanForm and each event handler
    is a method that updates those fields. The plan request is a parameter
    of the Next handler: a function from the request's parameters to the
    plan text or an error message (Actions.GenerateMarketingPlan is one). */
module PlanForm {
  import opened Wrappers
  import Text
  import Actions

  /** The values of `STEPS`. */
  const CompanyInfo: int := 0
  const Frequency: int := 1
  const Platforms: int := 2
  const Results: int := 3

  /** The built-in platforms in the order `Object.entries` lists them. */
  const BuiltInPlatforms: seq<string> := ["Instagram", "Facebook", "LinkedIn", "Twitter/X"]

  /** The initial (and reset) checkbox map: every built-in unchecked. */
  const NoneSelected: map<string, bool> :=
    map["Instagram" := false, "Facebook" := false, "LinkedIn" := false, "Twitter/X" := false]

  /** The checkbox map has an entry for every built-in platform. */
  predicate CoversBuiltIns(selected: map<string, bool>) {
    forall i :: 0 <= i < |BuiltInPlatforms| ==> BuiltInPlatforms[i] in selected
  }

  /** What a checkbox reports on change; only `true` counts as checked. */
  datatype CheckedState = Checked | Unchecked | Indeterminate

  /** The toast a handler shows, if any. */
  datatype Notice = NoNotice | DescriptionRequired | FrequencyRequired | PlatformRequired | GenerationFailed

  /** The platforms sent with a request: the checked built-ins in their
      declared order, then every custom platform in the order added. The
      list is empty exactly when nothing is checked and nothing was added. */
  function PlatformList(selected: map<string, bool>, custom: seq<string>): (r: seq<string>)
    requires CoversBuiltIns(selected)
    ensures |r| >= |custom| && r[|r| - |custom|..] == custom
    ensures forall x :: x in r[..|r| - |custom|] <==> x in BuiltInPlatforms && selected[x]
    ensures Text.IsSubsequence(r[..|r| - |custom|], BuiltInPlatforms)
    ensures r == [] <==> custom == [] && forall i :: 0 <= i < |BuiltInPlatforms| ==> !selected[BuiltInPlatforms[i]]
  {
    var keep := name => name in selected && selected[name];
    var checked := Text.Filter(BuiltInPlatforms, keep);
    Text.FilterIsSubsequence(BuiltInPlatforms, keep);
    var r := checked + custom;
    assert r[..|r| - |custom|] == checked;
    assert r == [] ==> forall i :: 0 <= i < |BuiltInPlatforms| ==> BuiltInPlatforms[i] !in checked;
    r
  }

  /** The custom list after removing `platform`: every entry equal to it is
      gone, every other entry keeps its position relative to the others and
      its number of occurrences, and the list does not grow. */
  function WithoutPlatform(list: seq<string>, platform: string): (r: seq<string>)
    ensures platform !in r
    ensures |r| <= |list|
    ensures Text.IsSubsequence(r, list)
    ensures forall q :: q != platform ==> multiset(r)[q] == multiset(list)[q]
  {
    var keep := q => q != platform;
    Text.FilterIsSubsequence(list, keep);
    Text.FilterCounts(list, keep);
    Text.Filter(list, keep)
  }

  /** Removing a platform that is not in the list leaves the list as it was. */
  lemma RemoveAbsentPlatform(list: seq<string>, platform: string)
    requires platform !in list
    ensures WithoutPlatform(list, platform) == list
  {
    Text.FilterKeepsAll(list, q => q != platform);
  }

  /** Adding a platform and then removing it is the same as removing it. */
  lemma RemoveAfterAdd(list: seq<string>, platform: string)
    ensures WithoutPlatform(list + [platform], platform) == WithoutPlatform(list, platform)
  {
    Text.FilterAppend(list, [platform], q => q != platform);
  }

  class MarketingPlanForm {
    var step: int
    var companyDescription: string
    var postingFrequency: string
    var customPlatform: string
    var customPlatforms: seq<string>
    var selectedPlatforms: map<string, bool>
    var marketingPlan: string
    var isGenerating: bool

    /** The step is one of the four, the checkbox map covers the built-ins,
        a later step is reached only with the earlier steps' inputs
        non-blank, and no request is outstanding between events. */
    ghost predicate Valid()
      reads this
    {
      && CompanyInfo <= step <= Results
      && CoversBuiltIns(selectedPlatforms)
      && (step >= Frequency ==> !Text.Blank(companyDescription))
      && (step >= Platforms ==> !Text.Blank(postingFrequency))
      && !isGenerating
    }

    /** The `useState` initial values. */
    constructor ()
      ensures Valid()
      ensures step == CompanyInfo && companyDescription == "" && postingFrequency == ""
      ensures customPlatform == "" && customPlatforms == [] && selectedPlatforms == NoneSelected
      ensures marketingPlan == "" && !isGenerating
    {
      step := CompanyInfo;
      companyDescription := "";
      postingFrequency := "";
      customPlatform := "";
      customPlatforms := [];
      selectedPlatforms := NoneSelected;
      marketingPlan := "";
      isGenerating := false;
    }

    /** The description textarea's onChange; it is shown on the first step only. */
    method SetCompanyDescription(value: string)
      requires Valid() && step == CompanyInfo
      modifies this`companyDescription
      ensures Valid()
      ensures companyDescription == value
    {
      companyDescription := value;
    }

    /** The frequency input's onChange; it is shown on the second step only. */
    method SetPostingFrequency(value: string)
      requires Valid() && step == Frequency
      modifies this`postingFrequency
      ensures Valid()
      ensures postingFrequency == value
    {
      postingFrequency := value;
    }

    /** The custom-platform input's onChange. */
    method SetCustomPlatformInput(value: string)
      requires Valid()
      modifies this`customPlatform
      ensures Valid()
      ensures customPlatform == value
    {
      customPlatform := value;
    }

    /** A built-in checkbox's onCheckedChange: the box is checked exactly
        when the reported state is `true`. */
    method SetPlatformChecked(platform: string, checked: CheckedState)
      requires Valid() && platform in BuiltInPlatforms
      modifies this`selectedPlatforms
      ensures Valid()
      ensures selectedPlatforms == old(selectedPlatforms)[platform := checked == Checked]
    {
      selectedPlatforms := selectedPlatforms[platform := checked == Checked];
    }

    /** `handleNextStep`. Next is shown on the first three steps. It never
        edits an input. On the first two steps it advances one step when
        that step's input is non-blank after trimming and otherwise changes
        nothing and reports why. On the platform step it builds the platform
        list; an empty list changes nothing and requests nothing, any other
        list is sent with the untrimmed description and frequency to
        `generate`, whose answer decides the step and the plan. Every
        request made carries a non-blank description and frequency and at
        least one platform. */
    method HandleNextStep(generate: Actions.PlanParams -> Result<string, string>)
      returns (notice: Notice, requested: Option<Actions.PlanParams>)
      requires Valid() && step != Results
      modifies this`step, this`marketingPlan, this`isGenerating
      ensures Valid()
      ensures old(step) == CompanyInfo && Text.Blank(old(companyDescription)) ==>
                notice == DescriptionRequired && requested == None && unchanged(this)
      ensures old(step) == CompanyInfo && !Text.Blank(old(companyDescription)) ==>
                notice == NoNotice && requested == None && step == Frequency && unchanged(this`marketingPlan)
      ensures old(step) == Frequency && Text.Blank(old(postingFrequency)) ==>
                notice == FrequencyRequired && requested == None && unchanged(this)
      ensures old(step) == Frequency && !Text.Blank(old(postingFrequency)) ==>
                notice == NoNotice && requested == None && step == Platforms && unchanged(this`marketingPlan)
      ensures old(step) == Platforms && PlatformList(old(selectedPlatforms), old(customPlatforms)) == [] ==>
                notice == PlatformRequired && requested == None && unchanged(this)
      ensures old(step) == Platforms && PlatformList(old(selectedPlatforms), old(customPlatforms)) != [] ==>
                && requested == Some(Actions.PlanParams(old(companyDescription), old(postingFrequency),
                                                        PlatformList(old(selectedPlatforms), old(customPlatforms))))
                && (generate(requested.value).Success? ==>
                      notice == NoNotice && step == Results && marketingPlan == generate(requested.value).value)
                && (generate(requested.value).Failure? ==>
                      notice == GenerationFailed && step == Platforms && unchanged(this`marketingPlan))
      ensures !isGenerating
      ensures requested.Some? ==>
                && !Text.Blank(requested.value.companyDescription)
                && !Text.Blank(requested.value.postingFrequency)
                && requested.value.platforms != []
    {
      requested := None;
      if step == CompanyInfo && Text.Blank(companyDescription) {
        notice := DescriptionRequired;
        return;
      }
      if step == Frequency && Text.Blank(postingFrequency) {
        notice := FrequencyRequired;
        return;
      }
      if step == Platforms {
        var platforms := PlatformList(selectedPlatforms, customPlatforms);
        if |platforms| == 0 {
          notice := PlatformRequired;
          return;
        }
        var params;
        notice, params := HandleGeneratePlan(platforms, generate);
        requested := Some(params);
        return;
      }
      notice := NoNotice;
      step := step + 1;
    }

    /** `handleGeneratePlan`, with the awaited request taken as one step;
        it is called from Next on the platform step with a non-empty list.
        The request carries the description and frequency as they are. On
        success the plan is the returned text and the step is Results; on
        failure step and plan stay; either way no request is outstanding
        afterwards. */
    method HandleGeneratePlan(platforms: seq<string>, generate: Actions.PlanParams -> Result<string, string>)
      returns (notice: Notice, params: Actions.PlanParams)
      requires Valid() && step == Platforms && platforms != []
      modifies this`step, this`marketingPlan, this`isGenerating
      ensures Valid()
      ensures params == Actions.PlanParams(old(companyDescription), old(postingFrequency), platforms)
      ensures generate(params).Success? ==>
                notice == NoNotice && step == Results && marketingPlan == generate(params).value
      ensures generate(params).Failure? ==>
                notice == GenerationFailed && step == Platforms && unchanged(this`marketingPlan)
      ensures !isGenerating
    {
      isGenerating := true;
      params := Actions.PlanParams(companyDescription, postingFrequency, platforms);
      var result := generate(params);
      match result {
        case Success(plan) =>
          marketingPlan := plan;
          step := Results;
          notice := NoNotice;
        case Failure(_) =>
          notice := GenerationFailed;
      }
      isGenerating := false;
    }

    /** `handlePrevStep`, the Back button of the second and third steps:
        one step back, every input kept. */
    method HandlePrevStep()
      requires Valid() && (step == Frequency || step == Platforms)
      modifies this`step
      ensures Valid()
      ensures step == old(step) - 1
    {
      step := step - 1;
    }

    /** `handleAddCustomPlatform` (the Add button and the Enter key): a
        non-blank input is appended trimmed, duplicates included, and the
        input is cleared; a blank input changes nothing. */
    method HandleAddCustomPlatform()
      requires Valid()
      modifies this`customPlatforms, this`customPlatform
      ensures Valid()
      ensures Text.Blank(old(customPlatform)) ==> unchanged(this)
      ensures !Text.Blank(old(customPlatform)) ==>
                customPlatforms == old(customPlatforms) + [Text.Trim(old(customPlatform))] && customPlatform == ""
    {
      if !Text.Blank(customPlatform) {
        customPlatforms := customPlatforms + [Text.Trim(customPlatform)];
        customPlatform := "";
      }
    }

    /** `handleRemoveCustomPlatform`: drops every entry equal to `platform`. */
    method HandleRemoveCustomPlatform(platform: string)
      requires Valid()
      modifies this`customPlatforms
      ensures Valid()
      ensures customPlatforms == WithoutPlatform(old(customPlatforms), platform)
      ensures platform !in customPlatforms && |customPlatforms| <= |old(customPlatforms)|
    {
      customPlatforms := WithoutPlatform(customPlatforms, platform);
    }

    /** The Back button of the results step: back to platform selection. */
    method BackToPlatforms()
      requires Valid() && step == Results
      modifies this`step
      ensures Valid()
      ensures step == Platforms
    {
      step := Platforms;
    }

    /** The "Create New Plan" button: back to the first step with the
        description, frequency, checkboxes, custom list and plan cleared.
        The custom-platform input and `isGenerating` are not touched. */
    method CreateNewPlan()
      requires Valid()
      modifies this`step, this`companyDescription, this`postingFrequency, this`selectedPlatforms,
               this`customPlatforms, this`marketingPlan
      ensures Valid()
      ensures step == CompanyInfo && companyDescription == "" && postingFrequency == ""
      ensures selectedPlatforms == NoneSelected && customPlatforms == [] && marketingPlan == ""
    {
      step := CompanyInfo;
      companyDescription := "";
      postingFrequency := "";
      selectedPlatforms := NoneSelected;
      customPlatforms := [];
      marketingPlan := "";
      assert CoversBuiltIns(selectedPlatforms);
    }
  }
}
