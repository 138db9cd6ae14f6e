/** Client methods whose postconditions state the outcome of typical event
    sequences on the wizard, with the provider's answer fixed in advance. */
module Scenarios {
  import opened Wrappers
  import Text
  import Actions
  import PlanForm

  const AcmeDescription := "Acme Co, sells rockets"
  const AcmeFrequency := "Daily"
  const InstagramOnly := PlanForm.NoneSelected["Instagram" := true]

  /** An HTTP 200 answer whose first content segment is "PLAN TEXT". */
  const OkAnswer := Actions.Response(200, "{...}", Actions.Parsed(Some([Actions.TextSegment("PLAN TEXT")])))
  /** An HTTP 500 answer. */
  const ServerError := Actions.Response(500, "Internal Server Error", Actions.Unparseable)

  /** A provider that answers every request with the given fetch outcome. */
  function Answering(outcome: Actions.FetchOutcome): Actions.Request -> Actions.FetchOutcome
  {
    (r: Actions.Request) => outcome
  }

  /** The plan service as the form calls it, with a configured key. */
  function Service(provider: Actions.Request -> Actions.FetchOutcome): Actions.PlanParams -> Result<string, string>
  {
    (p: Actions.PlanParams) => Actions.GenerateMarketingPlan(Some("sk-ant-key"), p, provider).result
  }

  lemma OkServiceReturnsPlan(p: Actions.PlanParams)
    ensures Service(Answering(OkAnswer))(p) == Success("PLAN TEXT")
  {
    assert [Actions.TextSegment("PLAN TEXT")] + [] == [Actions.TextSegment("PLAN TEXT")];
    Actions.OkResponseReturnsFirstText(Some("sk-ant-key"), p, Answering(OkAnswer), "PLAN TEXT", []);
  }

  lemma ServerErrorServiceFails(p: Actions.PlanParams)
    ensures Service(Answering(ServerError))(p) == Failure(Actions.GenericFailureMessage)
  {
    Actions.NonOkStatusFails(Some("sk-ant-key"), p, Answering(ServerError));
  }

  /** With Instagram checked there is a platform to send. */
  lemma InstagramOnlyIsNotEmpty()
    ensures PlanForm.PlatformList(InstagramOnly, []) != []
  {
    assert InstagramOnly[PlanForm.BuiltInPlatforms[0]];
  }

  /** Instagram is the only platform checked in `InstagramOnly`. */
  lemma OnlyInstagramChecked()
    ensures forall x :: x in InstagramOnly && InstagramOnly[x] ==> x == "Instagram"
  {
  }

  /** A non-empty sequence holds its first element. */
  lemma FirstIsMember(s: seq<string>)
    ensures s == [] || s[0] in s
  {
  }

  /** A non-empty ordered selection of the built-ins that holds only the
      first of them is that one platform. */
  lemma OnlyFirstBuiltIn(r: seq<string>)
    requires r != [] && Text.IsSubsequence(r, PlanForm.BuiltInPlatforms)
    requires forall x :: x in r ==> x == "Instagram"
    ensures r == ["Instagram"]
  {
    var b := PlanForm.BuiltInPlatforms;
    Text.SubsequenceMembers(r, b[1..]);
    Text.SubsequenceMembers(r[1..], b[1..]);
    assert "Instagram" !in b[1..];
    assert r[0] in r;
    assert !Text.IsSubsequence(r, b[1..]);
    assert r[0] == b[0] && Text.IsSubsequence(r[1..], b[1..]);
    assert forall x :: x in r[1..] ==> x in r;
    FirstIsMember(r[1..]);
    assert r[1..] == [];
    assert r == [r[0]] + r[1..];
  }

  /** With only Instagram checked and no custom platform, the request
      lists exactly Instagram. */
  lemma InstagramOnlyList()
    ensures PlanForm.PlatformList(InstagramOnly, []) == ["Instagram"]
  {
    var r := PlanForm.PlatformList(InstagramOnly, []);
    assert r[..|r|] == r;
    InstagramOnlyIsNotEmpty();
    OnlyInstagramChecked();
    OnlyFirstBuiltIn(r);
  }

  /** A custom name typed without surrounding whitespace is added as typed. */
  lemma TypedNameIsKept()
    ensures Text.Trim("TikTok") == "TikTok"
  {
  }

  /** Removing the only custom platform empties the list. */
  lemma RemoveOnlyPlatform(platform: string)
    ensures PlanForm.WithoutPlatform([platform], platform) == []
  {
    PlanForm.RemoveAfterAdd([], platform);
    assert [] + [platform] == [platform];
  }

  /** On the platform step, adding "TikTok" to the empty custom list gives
      ["TikTok"]; removing it again gives []. */
  method AddThenRemoveTikTok() returns (afterAdd: seq<string>, afterRemove: seq<string>)
    ensures afterAdd == ["TikTok"] && afterRemove == []
  {
    var form := FillAcme(Service(Answering(OkAnswer)), "TikTok");
    Text.VisibleStartNotBlank("TikTok");
    TypedNameIsKept();
    RemoveOnlyPlatform("TikTok");
    form.HandleAddCustomPlatform();
    afterAdd := form.customPlatforms;
    form.HandleRemoveCustomPlatform("TikTok");
    afterRemove := form.customPlatforms;
  }

  /** Fills in the company step and moves on. */
  method FillCompany(generate: Actions.PlanParams -> Result<string, string>) returns (form: PlanForm.MarketingPlanForm)
    ensures fresh(form) && form.Valid() && form.step == PlanForm.Frequency
    ensures form.companyDescription == AcmeDescription && form.postingFrequency == ""
    ensures form.marketingPlan == "" && form.customPlatforms == [] && form.selectedPlatforms == PlanForm.NoneSelected
  {
    form := new PlanForm.MarketingPlanForm();
    form.SetCompanyDescription(AcmeDescription);
    Text.VisibleStartNotBlank(AcmeDescription);
    var notice, requested := form.HandleNextStep(generate);
  }

  /** Fills in the frequency step too and moves on to the platforms. */
  method FillFrequency(generate: Actions.PlanParams -> Result<string, string>) returns (form: PlanForm.MarketingPlanForm)
    ensures fresh(form) && form.Valid() && form.step == PlanForm.Platforms
    ensures form.companyDescription == AcmeDescription && form.postingFrequency == AcmeFrequency
    ensures form.marketingPlan == "" && form.customPlatforms == [] && form.selectedPlatforms == PlanForm.NoneSelected
  {
    form := FillCompany(generate);
    form.SetPostingFrequency(AcmeFrequency);
    Text.VisibleStartNotBlank(AcmeFrequency);
    var notice, requested := form.HandleNextStep(generate);
  }

  /** Fills the first two steps, checks Instagram and types `typed` into
      the custom-platform input, ending on the platform step. */
  method FillAcme(generate: Actions.PlanParams -> Result<string, string>, typed: string) returns (form: PlanForm.MarketingPlanForm)
    ensures fresh(form) && form.Valid() && form.step == PlanForm.Platforms
    ensures form.companyDescription == AcmeDescription && form.postingFrequency == AcmeFrequency
    ensures form.marketingPlan == "" && form.customPlatforms == [] && form.selectedPlatforms == InstagramOnly
    ensures form.customPlatform == typed
  {
    form := FillFrequency(generate);
    form.SetPlatformChecked("Instagram", PlanForm.Checked);
    form.SetCustomPlatformInput(typed);
  }

  /** Generates the Acme plan against an answer of "PLAN TEXT", with
      `typed` left in the custom-platform input; the request carries the
      two inputs and exactly Instagram. */
  method GenerateAcme(typed: string) returns (form: PlanForm.MarketingPlanForm, notice: PlanForm.Notice,
                                              requested: Option<Actions.PlanParams>)
    ensures fresh(form) && form.Valid() && form.step == PlanForm.Results
    ensures form.marketingPlan == "PLAN TEXT" && form.customPlatform == typed && notice == PlanForm.NoNotice
    ensures requested == Some(Actions.PlanParams(AcmeDescription, AcmeFrequency, ["Instagram"]))
  {
    var generate := Service(Answering(OkAnswer));
    form := FillAcme(generate, typed);
    InstagramOnlyList();
    OkServiceReturnsPlan(Actions.PlanParams(AcmeDescription, AcmeFrequency, ["Instagram"]));
    notice, requested := form.HandleNextStep(generate);
  }

  /** A successful answer whose first segment is "PLAN TEXT" becomes the
      plan and moves the wizard to the results step. */
  method AcmeSucceeds() returns (plan: string, step: int, generating: bool, notice: PlanForm.Notice)
    ensures plan == "PLAN TEXT" && step == PlanForm.Results && !generating && notice == PlanForm.NoNotice
  {
    var form, requested;
    form, notice, requested := GenerateAcme("");
    plan, step, generating := form.marketingPlan, form.step, form.isGenerating;
  }

  /** An HTTP 500 answer leaves the wizard on the platform step with no
      plan, no request outstanding, and a failure notice. */
  method AcmeServerError() returns (plan: string, step: int, generating: bool, notice: PlanForm.Notice)
    ensures plan == "" && step == PlanForm.Platforms && !generating && notice == PlanForm.GenerationFailed
  {
    var generate := Service(Answering(ServerError));
    var form := FillAcme(generate, "");
    InstagramOnlyList();
    ServerErrorServiceFails(Actions.PlanParams(AcmeDescription, AcmeFrequency, ["Instagram"]));
    var requested;
    notice, requested := form.HandleNextStep(generate);
    plan, step, generating := form.marketingPlan, form.step, form.isGenerating;
  }

  /** "Create New Plan" after a generated plan restores every initial value
      except the custom-platform input, which keeps what was typed. */
  method ResetAfterPlan() returns (step: int, description: string, frequency: string,
                                   selected: map<string, bool>, custom: seq<string>, plan: string, input: string)
    ensures step == PlanForm.CompanyInfo && description == "" && frequency == "" && plan == ""
    ensures selected == PlanForm.NoneSelected && custom == []
    ensures input == "Snap"
  {
    var form, notice, requested := GenerateAcme("Snap");
    form.CreateNewPlan();
    step, description, frequency := form.step, form.companyDescription, form.postingFrequency;
    selected, custom, plan, input := form.selectedPlatforms, form.customPlatforms, form.marketingPlan, form.customPlatform;
  }
}
