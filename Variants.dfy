/** How the two variants of the component relate, and what the review
    workflow does, step by step, for a suggestion with two campaigns. */
module Variants {
  import opened JsSemantics
  import opened Records
  import ForceApp
  import Src

  /** Both variants put a score in the same tier: force-app compares the
      score with 0.9 and 0.7, src compares `score * 100` with 90 and 70. */
  lemma ConfidenceTiersAgree(score: real)
    ensures ForceApp.GetConfidenceClass(score) == ForceApp.CONFIDENCE_HIGH
            <==> Src.GetConfidenceClass(score) == Src.CONFIDENCE_SUCCESS
    ensures ForceApp.GetConfidenceClass(score) == ForceApp.CONFIDENCE_MEDIUM
            <==> Src.GetConfidenceClass(score) == Src.CONFIDENCE_WEAK
    ensures ForceApp.GetConfidenceClass(score) == ForceApp.CONFIDENCE_LOW
            <==> Src.GetConfidenceClass(score) == Src.CONFIDENCE_ERROR
  {
  }

  const SpringSuggestion := RawSuggestion("s1", "Spring", 0.95, Some([
    RawMember("m1", Some(LinkedCampaign("c1", "Spring Email Blast", "2024-03-01")), "Spring Email Blast", None),
    RawMember("m2", Some(LinkedCampaign("c2", "Spring SMS Push", "2024-03-02")), "Spring SMS Push", Some("SMS"))
  ]))

  /** A suggestion at 0.95 with an email and an SMS campaign is shown at 95%,
      in the high tier, with the two campaigns detected as Email and SMS. */
  lemma SpringSuggestionPresented()
    ensures var v := ForceApp.PresentSuggestion(SpringSuggestion);
      v.confidencePercent == 95 && v.confidenceClass == ForceApp.CONFIDENCE_HIGH
      && |v.campaigns| == 2
      && v.campaigns[0].detectedType == ForceApp.EMAIL
      && v.campaigns[1].detectedType == ForceApp.SMS
  {
    SpringScoreShown();
    SpringEmailRow();
    SpringSmsRow();
  }

  lemma SpringScoreShown()
    ensures var v := ForceApp.PresentSuggestion(SpringSuggestion);
      v.confidencePercent == 95 && v.confidenceClass == ForceApp.CONFIDENCE_HIGH && |v.campaigns| == 2
  {
  }

  lemma SpringEmailRow()
    ensures |ForceApp.PresentSuggestion(SpringSuggestion).campaigns| == 2
    ensures ForceApp.PresentSuggestion(SpringSuggestion).campaigns[0].detectedType == ForceApp.EMAIL
  {
    var v := ForceApp.PresentSuggestion(SpringSuggestion);
    assert v.campaigns[0] == ForceApp.FormatMember(MembersOrEmpty(SpringSuggestion.members)[0]);
    EmailBlastDetected("Spring Email Blast");
  }

  lemma SpringSmsRow()
    ensures |ForceApp.PresentSuggestion(SpringSuggestion).campaigns| == 2
    ensures ForceApp.PresentSuggestion(SpringSuggestion).campaigns[1].detectedType == ForceApp.SMS
  {
    var v := ForceApp.PresentSuggestion(SpringSuggestion);
    assert v.campaigns[1] == ForceApp.FormatMember(MembersOrEmpty(SpringSuggestion.members)[1]);
    SmsPushDetected("Spring SMS Push");
  }

  lemma EmailBlastDetected(name: string)
    requires name == "Spring Email Blast"
    ensures ForceApp.DetectChannelType(name) == ForceApp.EMAIL
  {
    ToLowerPointwise(name, "spring email blast");
    assert OccursAt("spring email blast", "email", 7);
    IncludesIffOccurs("spring email blast", "email");
  }

  lemma SmsPushDetected(name: string)
    requires name == "Spring SMS Push"
    ensures ForceApp.DetectChannelType(name) == ForceApp.SMS
  {
    ToLowerPointwise(name, "spring sms push");
    SmsPushLacksEmail();
    SmsPushLacksPardot();
    SmsPushHasSms();
    DetectedAsSms(name, "spring sms push");
  }

  lemma SmsPushLacksEmail() ensures !Includes("spring sms push", "email") {
    IncludesNeedsEveryChar("spring sms push", "email", 'e');
  }

  lemma SmsPushLacksPardot() ensures !Includes("spring sms push", "pardot") {
    IncludesNeedsEveryChar("spring sms push", "pardot", 'a');
  }

  lemma SmsPushHasSms() ensures Includes("spring sms push", "sms") {
    assert OccursAt("spring sms push", "sms", 7);
    IncludesIffOccurs("spring sms push", "sms");
  }

  /** A name whose lower-cased form has "sms" and neither Email keyword is SMS. */
  lemma DetectedAsSms(name: string, lowerName: string)
    requires ToLower(name) == lowerName
    requires !Includes(lowerName, "email") && !Includes(lowerName, "pardot") && Includes(lowerName, "sms")
    ensures ForceApp.DetectChannelType(name) == ForceApp.SMS
  {
  }

  /** The operator opens a suggestion with two linked campaigns, deselects
      the second, renames it and saves: one modify request carries the name
      and the remaining campaign, a refresh follows, and the session is over.
      Whatever the campaigns are called, the request depends only on their ids. */
  method SaveEditedSelectionForceApp(raw: RawSuggestion, first: RawMember, second: RawMember)
    requires raw.id == "s1" && raw.members == Some([first, second])
    requires first.campaign.Some? && first.campaign.value.id == "c1"
    requires second.campaign.Some? && second.campaign.value.id == "c2"
  {
    var component := OpenForEdit(raw, first, second);
    component.HandleCampaignToggle(Some("c2"));
    assert component.selectedCampaigns == {Some("c1")};
    component.HandleInitiativeNameChange("Spring Combined");
    assert !IsWhiteSpace("Spring Combined"[0]);
    component.HandleSaveEdit(Success);
    assert component.calls == [ForceApp.Modify(Some("s1"), "Spring Combined", {Some("c1")}), ForceApp.Refresh];
    assert !component.IsEditing();
  }

  /** A fresh force-app component loads the one suggestion and opens it for
      edit: the session is on it, with both campaigns selected, and nothing
      has been sent or shown yet. */
  method OpenForEdit(raw: RawSuggestion, first: RawMember, second: RawMember)
    returns (component: ForceApp.CampaignGroupingSuggestions)
    requires raw.id == "s1" && raw.members == Some([first, second])
    requires first.campaign.Some? && first.campaign.value.id == "c1"
    requires second.campaign.Some? && second.campaign.value.id == "c2"
    ensures fresh(component)
    ensures component.IsEditing() && component.editingSuggestion == Some("s1")
    ensures component.selectedCampaigns == {Some("c1"), Some("c2")}
    ensures component.calls == [] && component.toasts == []
  {
    component := new ForceApp.CampaignGroupingSuggestions();
    component.WiredSuggestions(WireData([raw]));
    FoundForEdit(raw, first, second);
    var completion := component.HandleEdit("s1");
    assert completion == Returned;
  }

  /** Opening the only loaded suggestion finds it and pre-selects both campaigns. */
  lemma FoundForEdit(raw: RawSuggestion, first: RawMember, second: RawMember)
    requires raw.members == Some([first, second])
    requires first.campaign.Some? && first.campaign.value.id == "c1"
    requires second.campaign.Some? && second.campaign.value.id == "c2"
    ensures var found := ForceApp.FindSuggestion(ForceApp.PresentAll([raw]), raw.id);
      found == Some(ForceApp.PresentSuggestion(raw))
      && ForceApp.CampaignIdSet(found.value.campaigns) == {Some("c1"), Some("c2")}
  {
    var v := ForceApp.PresentSuggestion(raw);
    assert ForceApp.PresentAll([raw]) == [v];
    assert v.campaigns[0] == ForceApp.FormatMember(first);
    assert v.campaigns[1] == ForceApp.FormatMember(second);
    CampaignIdsOfPair(v.campaigns);
  }

  lemma CampaignIdsOfPair(rows: seq<ForceApp.CampaignRow>)
    requires |rows| == 2
    ensures ForceApp.CampaignIdSet(rows) == {rows[0].campaignId, rows[1].campaignId}
  {
    assert rows == [rows[0], rows[1]];
  }

  /** The same session in the src variant, unchecking the second box: the
      request carries the remaining id, and the spinner stays on. */
  method SaveEditedSelectionSrc(raw: RawSuggestion, first: RawMember, second: RawMember, formatDate: string -> string)
    requires raw.id == "s1" && raw.members == Some([first, second])
    requires first.campaign.Some? && first.campaign.value.id == "c1"
    requires second.campaign.Some? && second.campaign.value.id == "c2"
  {
    var component := new Src.CampaignGroupingSuggestions();
    SrcFoundForEdit(raw, first, second, formatDate);
    var loaded := component.WiredSuggestions(WireData([raw]), formatDate);
    assert loaded == Returned;
    var completion := component.HandleEdit("s1");
    assert completion == Returned;
    assert component.editedCampaignIds == ["c1", "c2"];
    UncheckSecond("c1", "c2");
    component.HandleCampaignSelection("c2", false);
    assert component.editedCampaignIds == ["c1"];
    component.HandleInitiativeNameChange("Spring Combined");
    completion := component.HandleSaveEdit(Success);
    assert component.calls == [Src.Modify("s1", "Spring Combined", ["c1"]), Src.Refresh];
    assert !component.showEditModal && component.isLoading;
  }

  /** Unchecking the second of two distinct ids leaves the first. */
  lemma UncheckSecond(a: Id, b: Id)
    requires a != b
    ensures Src.Select([a, b], b, false) == [a]
  {
    assert [a, b] == [a] + [b];
    RemoveAllAppend([a], [b], b);
    RemoveAllAbsent([a], b);
    assert [b][1..] == [];
  }

  /** In src, opening the only loaded suggestion finds it and checks both boxes in order. */
  lemma SrcFoundForEdit(raw: RawSuggestion, first: RawMember, second: RawMember, formatDate: string -> string)
    requires raw.members == Some([first, second])
    requires first.campaign.Some? && first.campaign.value.id == "c1"
    requires second.campaign.Some? && second.campaign.value.id == "c2"
    ensures Src.PresentAll([raw], formatDate).Ok?
    ensures var views := Src.PresentAll([raw], formatDate).value;
      var found := Src.FindSuggestion(views, raw.id);
      found.Some? && Src.RowIds(found.value.campaigns) == ["c1", "c2"]
  {
    assert forall m :: m in MembersOrEmpty(raw.members) ==> m.campaign.Some?;
    var v := Src.PresentSuggestion(raw, formatDate).value;
    var data := [raw];
    assert data[0] == raw;
    var views := Src.PresentAll(data, formatDate);
    assert views.Ok? && |views.value| == 1 && Ok(views.value[0]) == Src.PresentSuggestion(raw, formatDate);
    assert views.value == [v];
    var rows := v.campaigns;
    assert rows[0] == Src.FormatMember(first, formatDate) && rows[1] == Src.FormatMember(second, formatDate);
    assert Src.RowIds(rows) == ["c1", "c2"];
  }

  /** A name of spaces, in force-app: the trimmed name is empty, so the save
      is refused with an error toast, no request, and the session stays open. */
  method BlankNameRefusedForceApp(raw: RawSuggestion, first: RawMember, second: RawMember)
    requires raw.id == "s1" && raw.members == Some([first, second])
    requires first.campaign.Some? && first.campaign.value.id == "c1"
    requires second.campaign.Some? && second.campaign.value.id == "c2"
  {
    var component := OpenForEdit(raw, first, second);
    component.HandleInitiativeNameChange("  ");
    assert IsBlank("  ");
    component.HandleSaveEdit(Success);
    assert component.calls == [] && component.toasts == [ForceApp.ErrorToast(ForceApp.NAME_REQUIRED)];
    assert component.IsEditing();
  }

  /** The same name of spaces in src: there is no trim, so it is sent as typed. */
  method BlankNameSentSrc(raw: RawSuggestion, first: RawMember, second: RawMember, formatDate: string -> string)
    requires raw.id == "s1" && raw.members == Some([first, second])
    requires first.campaign.Some? && first.campaign.value.id == "c1"
    requires second.campaign.Some? && second.campaign.value.id == "c2"
  {
    var component := new Src.CampaignGroupingSuggestions();
    SrcFoundForEdit(raw, first, second, formatDate);
    var loaded := component.WiredSuggestions(WireData([raw]), formatDate);
    var completion := component.HandleEdit("s1");
    component.HandleInitiativeNameChange("  ");
    completion := component.HandleSaveEdit(Success);
    assert component.calls == [Src.Modify("s1", "  ", ["c1", "c2"]), Src.Refresh];
  }
}
