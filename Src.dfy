/** The src/ variant of the campaign-grouping review component
    (src/lwc/campaignGroupingSuggestions). It keeps the edited selection as an
    ordered array of campaign ids driven by checkboxes, opens the edit in a
    modal, and derives an icon per campaign row from its channel type. */
module Src {
  import opened JsSemantics
  import opened Records

  // =====================================================================
  // Confidence and icons
  // =====================================================================

  const CONFIDENCE_SUCCESS := "slds-text-color_success"
  const CONFIDENCE_WEAK := "slds-text-color_weak"
  const CONFIDENCE_ERROR := "slds-text-color_error"

  /** `getConfidenceClass`: compares the percentage `confidence * 100`
      against 90 and 70; over the reals this is the partition at 0.9 and 0.7,
      each lower bound inclusive. */
  function GetConfidenceClass(confidence: real): (r: string)
    ensures r == CONFIDENCE_SUCCESS <==> confidence >= 0.9
    ensures r == CONFIDENCE_WEAK <==> 0.7 <= confidence < 0.9
    ensures r == CONFIDENCE_ERROR <==> confidence < 0.7
  {
    var percentage := confidence * 100.0;
    if percentage >= 90.0 then CONFIDENCE_SUCCESS
    else if percentage >= 70.0 then CONFIDENCE_WEAK
    else CONFIDENCE_ERROR
  }

  const DEFAULT_ICON := "standard:campaign"

  /** The `iconMap` object literal of `getChannelIcon`. */
  const IconMap: map<string, string> := map[
    "Email" := "standard:email",
    "SMS" := "standard:sms",
    "Call" := "standard:call",
    "Social Media" := "standard:social",
    "Other" := DEFAULT_ICON
  ]

  /** The property names every plain object inherits from Object.prototype. */
  const ObjectPrototypeKeys: set<string> := {
    "constructor", "hasOwnProperty", "isPrototypeOf", "propertyIsEnumerable",
    "toString", "toLocaleString", "valueOf", "__proto__",
    "__defineGetter__", "__defineSetter__", "__lookupGetter__", "__lookupSetter__"
  }

  /** What `iconMap[channelType] || 'standard:campaign'` evaluates to: an icon
      name, or an inherited Object.prototype member (a function or object,
      which is truthy, so the fallback is skipped). */
  datatype IconLookup = IconName(icon: string) | PrototypeMember(key: string)

  /** `getChannelIcon` as written. An absent channel type is looked up under
      the key "undefined"/"null", which the map does not hold. */
  function ChannelIconAsWritten(channelType: Option<string>): (r: IconLookup)
    ensures r.PrototypeMember? <==> channelType.Some? && channelType.value in ObjectPrototypeKeys
  {
    match channelType
    case None => IconName(DEFAULT_ICON)
    case Some(t) =>
      if t in IconMap then IconName(IconMap[t])
      else if t in ObjectPrototypeKeys then PrototypeMember(t)
      else IconName(DEFAULT_ICON)
  }

  /** A channel type that names an inherited property yields no icon name. */
  lemma ChannelIconAsWrittenLeaksPrototype()
    ensures ChannelIconAsWritten(Some("toString")) == PrototypeMember("toString")
    ensures !ChannelIconAsWritten(Some("toString")).IconName?
  {
  }

  /** `getChannelIcon` as intended: the map's own entries, the campaign icon
      for everything else. */
  function GetChannelIcon(channelType: Option<string>): (r: string)
    ensures channelType.Some? && channelType.value in IconMap ==> r == IconMap[channelType.value]
    ensures channelType.None? || channelType.value !in IconMap ==> r == DEFAULT_ICON
  {
    match channelType
    case Some(t) => if t in IconMap then IconMap[t] else DEFAULT_ICON
    case None => DEFAULT_ICON
  }

  /** Off the inherited property names, the code as written and the intended
      lookup agree. */
  lemma ChannelIconAgreesOffPrototype(channelType: Option<string>)
    requires channelType.None? || channelType.value !in ObjectPrototypeKeys
    ensures ChannelIconAsWritten(channelType) == IconName(GetChannelIcon(channelType))
  {
  }

  /** The five channel types get distinct icons, except Other, which shares
      the campaign icon with every unknown value. */
  lemma ChannelIconSpecific(a: string, b: string)
    requires a in IconMap && b in IconMap && a != b && a != "Other" && b != "Other"
    ensures GetChannelIcon(Some(a)) != GetChannelIcon(Some(b))
    ensures GetChannelIcon(Some(a)) != DEFAULT_ICON
  {
  }

  // =====================================================================
  // Presenting suggestions
  // =====================================================================

  /** One row of a suggestion's campaign list. */
  datatype CampaignRow = CampaignRow(
    id: Id,
    name: string,
    originalName: string,
    channelType: Option<string>,
    channelIcon: string,
    createdDate: string
  )

  /** The row `formatCampaignList` builds for a member whose campaign exists;
      `formatDate` is the `Intl.DateTimeFormat` wrapper, taken as given. */
  function FormatMember(m: RawMember, formatDate: string -> string): (row: CampaignRow)
    requires m.campaign.Some?
    ensures row.id == m.campaign.value.id && row.name == m.campaign.value.name
    ensures row.originalName == m.originalName && row.channelType == m.channelType
    ensures row.channelIcon == GetChannelIcon(m.channelType)
    ensures m.channelType.None? || m.channelType.value !in ObjectPrototypeKeys ==>
      ChannelIconAsWritten(m.channelType) == IconName(row.channelIcon)
    ensures row.createdDate == formatDate(m.campaign.value.createdDate)
  {
    var c := m.campaign.value;
    CampaignRow(c.id, c.name, m.originalName, m.channelType, GetChannelIcon(m.channelType), formatDate(c.createdDate))
  }

  /** `members.map(...)`: fails with a TypeError as soon as a member has no
      campaign (`member.Campaign__r.Name`); otherwise one row per member, in
      order. */
  function FormatMembers(members: seq<RawMember>, formatDate: string -> string): (r: Result<seq<CampaignRow>>)
    ensures r.Ok? <==> forall i :: 0 <= i < |members| ==> members[i].campaign.Some?
    ensures r.Ok? ==> |r.value| == |members|
    ensures r.Ok? ==> forall i :: 0 <= i < |members| ==> r.value[i] == FormatMember(members[i], formatDate)
  {
    if members == [] then Ok([])
    else if members[0].campaign.None? then TypeError
    else
      match FormatMembers(members[1..], formatDate)
      case TypeError => TypeError
      case Ok(rest) => Ok([FormatMember(members[0], formatDate)] + rest)
  }

  /** `formatCampaignList`: [] when the member relationship is absent. */
  function FormatCampaignList(members: Option<seq<RawMember>>, formatDate: string -> string): (r: Result<seq<CampaignRow>>)
    ensures members.None? ==> r == Ok([])
    ensures members.Some? ==> r == FormatMembers(members.value, formatDate)
  {
    match members
    case None => Ok([])
    case Some(ms) => FormatMembers(ms, formatDate)
  }

  /** The `campaignCount` field: the number of members, 0 when absent. */
  function CampaignCount(members: Option<seq<RawMember>>): (n: nat)
    ensures n == |MembersOrEmpty(members)|
  {
    if members.Some? then |members.value| else 0
  }

  /** A suggestion as the component holds it: the raw record plus the
      derived fields. */
  datatype Suggestion = Suggestion(
    raw: RawSuggestion,
    formattedConfidence: int,
    campaigns: seq<CampaignRow>,
    campaignCount: nat,
    confidenceClass: string
  )

  /** The object `wiredSuggestions` builds for one raw suggestion, or the
      TypeError `formatCampaignList` throws. */
  function PresentSuggestion(raw: RawSuggestion, formatDate: string -> string): (r: Result<Suggestion>)
    ensures r.Ok? <==> forall m :: m in MembersOrEmpty(raw.members) ==> m.campaign.Some?
    ensures r.Ok? ==> r.value.raw == raw && r.value.campaignCount == |r.value.campaigns| == |MembersOrEmpty(raw.members)|
    ensures r.Ok? ==> forall i :: 0 <= i < |r.value.campaigns| ==>
      MembersOrEmpty(raw.members)[i] in MembersOrEmpty(raw.members)
      && r.value.campaigns[i] == FormatMember(MembersOrEmpty(raw.members)[i], formatDate)
    ensures r.Ok? ==> r.value.confidenceClass == GetConfidenceClass(raw.confidence)
    ensures r.Ok? ==> raw.confidence * 100.0 - 0.5 < r.value.formattedConfidence as real <= raw.confidence * 100.0 + 0.5
  {
    match FormatCampaignList(raw.members, formatDate)
    case TypeError => TypeError
    case Ok(campaigns) =>
      Ok(Suggestion(raw, MathRound(raw.confidence * 100.0), campaigns, CampaignCount(raw.members),
                    GetConfidenceClass(raw.confidence)))
  }

  /** `data.map(...)`: the presented list, or the TypeError of the first
      suggestion that throws. */
  function PresentAll(data: seq<RawSuggestion>, formatDate: string -> string): (r: Result<seq<Suggestion>>)
    ensures r.Ok? <==> forall i :: 0 <= i < |data| ==> PresentSuggestion(data[i], formatDate).Ok?
    ensures r.Ok? ==> |r.value| == |data|
    ensures r.Ok? ==> forall i :: 0 <= i < |data| ==> Ok(r.value[i]) == PresentSuggestion(data[i], formatDate)
  {
    if data == [] then Ok([])
    else
      match PresentSuggestion(data[0], formatDate)
      case TypeError => TypeError
      case Ok(first) =>
        match PresentAll(data[1..], formatDate)
        case TypeError => TypeError
        case Ok(rest) => Ok([first] + rest)
  }

  /** `selectedSuggestion.campaigns.map(c => c.id)`. */
  function RowIds(rows: seq<CampaignRow>): (ids: seq<Id>)
    ensures |ids| == |rows|
    ensures forall i :: 0 <= i < |rows| ==> ids[i] == rows[i].id
  {
    seq(|rows|, i requires 0 <= i < |rows| => rows[i].id)
  }

  /** The first suggestion with the given id, which `suggestions.find` returns. */
  function FindSuggestion(suggestions: seq<Suggestion>, id: Id): (r: Option<Suggestion>)
    ensures r.Some? ==> r.value in suggestions && r.value.raw.id == id
    ensures r.None? <==> forall s :: s in suggestions ==> s.raw.id != id
    ensures r.Some? ==> exists k :: 0 <= k < |suggestions| && suggestions[k] == r.value
                                    && forall j :: 0 <= j < k ==> suggestions[j].raw.id != id
  {
    Find(suggestions, (s: Suggestion) => s.raw.id == id)
  }

  /** A row of the edit modal: the campaign row and whether it is checked. */
  datatype EditRow = EditRow(campaign: CampaignRow, isSelected: bool)

  // =====================================================================
  // The edit selection, as a value
  // =====================================================================

  /** The id list after `handleCampaignSelection` with the checkbox state:
      checking appends the id when it is missing, unchecking filters out
      every occurrence. */
  function Select(ids: seq<Id>, campaignId: Id, checked: bool): (r: seq<Id>)
    ensures forall y :: y in r <==> (if y == campaignId then checked else y in ids)
    ensures checked ==> ids <= r && |r| <= |ids| + 1
    ensures checked && campaignId in ids ==> r == ids
    ensures checked && campaignId !in ids ==> r == ids + [campaignId]
    ensures !checked ==> multiset(r) == multiset(ids)[campaignId := 0] && IsSubsequence(r, ids)
    ensures NoDuplicates(ids) ==> NoDuplicates(r)
  {
    if checked then
      if campaignId !in ids then
        assert forall i :: 0 <= i < |ids| ==> ids[i] != campaignId;
        ids + [campaignId]
      else ids
    else
      var r := RemoveAll(ids, campaignId);
      assert forall y :: y in r <==> multiset(r)[y] > 0;
      assert forall y :: y in ids <==> multiset(ids)[y] > 0;
      assert NoDuplicates(ids) ==> NoDuplicates(r) by {
        if NoDuplicates(ids) { RemoveAllKeepsNoDuplicates(ids, campaignId); }
      }
      r
  }

  /** Checking a new campaign and unchecking it again restores the list. */
  lemma {:induction false} CheckThenUncheck(ids: seq<Id>, campaignId: Id)
    requires campaignId !in ids
    ensures Select(Select(ids, campaignId, true), campaignId, false) == ids
  {
    RemoveAllAppend(ids, [campaignId], campaignId);
    RemoveAllAbsent(ids, campaignId);
    assert RemoveAll([campaignId], campaignId) == [];
  }

  /** Unchecking a campaign and checking it again keeps the same members. */
  lemma UncheckThenCheck(ids: seq<Id>, campaignId: Id)
    requires campaignId in ids
    ensures forall y :: y in Select(Select(ids, campaignId, false), campaignId, true) <==> y in ids
  {
  }

  // =====================================================================
  // Side channels: toasts and backend calls
  // =====================================================================

  /** A `ShowToastEvent` the component dispatched (no mode is set). */
  datatype Toast = Toast(title: string, message: string, variant: string)

  function ErrorToast(message: string): Toast {
    Toast("Error", message, "error")
  }

  function SuccessToast(message: string): Toast {
    Toast("Success", message, "success")
  }

  /** A call the component makes to the Apex controller (`Refresh` is
      `refreshApex` on the wired result). */
  datatype BackendCall =
    | Approve(suggestionId: Id)
    | Reject(suggestionId: Id)
    | Modify(editedId: Id, newInitiativeName: string, campaignIds: seq<Id>)
    | Refresh

  const APPROVED := "Campaigns grouped successfully"
  const REJECTED := "Suggestion rejected"
  const MODIFIED := "Campaigns grouped with modifications"
  const INVALID_EDIT := "Please provide an initiative name and select at least one campaign"
  const LOAD_ERROR_PREFIX := "Error loading suggestions: "

  /** The calls a settled request leaves: the request, then a refresh only
      after it succeeded. */
  function DispositionCalls(request: BackendCall, outcome: Outcome): (calls: seq<BackendCall>)
    ensures |calls| >= 1 && calls[0] == request
    ensures Refresh in calls[1..] <==> outcome.Success?
  {
    if outcome.Success? then [request, Refresh] else [request]
  }

  /** The toast a settled request shows: the success text, or the
      service's message verbatim. */
  function DispositionToast(successMessage: string, outcome: Outcome): (t: Toast)
    ensures t.variant == "success" <==> outcome.Success?
    ensures outcome.Failure? ==> t.message == outcome.message
    ensures outcome.Success? ==> t.message == successMessage
  {
    match outcome
    case Success => SuccessToast(successMessage)
    case Failure(message) => ErrorToast(message)
  }

  // =====================================================================
  // The component
  // =====================================================================

  class CampaignGroupingSuggestions {
    var suggestions: seq<Suggestion>
    var isLoading: bool
    var selectedSuggestion: Option<Suggestion>
    var showEditModal: bool
    var editedInitiativeName: string
    var editedCampaignIds: seq<Id>
    /** Every toast dispatched so far, oldest first. */
    var toasts: seq<Toast>
    /** Every Apex call issued so far, oldest first. */
    ghost var calls: seq<BackendCall>

    constructor ()
      ensures suggestions == [] && !isLoading
      ensures selectedSuggestion == None && !showEditModal
      ensures editedInitiativeName == "" && editedCampaignIds == []
      ensures toasts == [] && calls == []
    {
      suggestions := [];
      isLoading := false;
      selectedSuggestion := None;
      showEditModal := false;
      editedInitiativeName := "";
      editedCampaignIds := [];
      toasts := [];
      calls := [];
    }

    /** The edit modal's state is untouched. */
    twostate predicate SessionUnchanged()
      reads this`selectedSuggestion, this`showEditModal, this`editedInitiativeName, this`editedCampaignIds
    {
      selectedSuggestion == old(selectedSuggestion) && showEditModal == old(showEditModal)
      && editedInitiativeName == old(editedInitiativeName) && editedCampaignIds == old(editedCampaignIds)
    }

    /** The checked ids all belong to the suggestion in the modal. */
    ghost predicate SelectionWithinSession()
      reads this`selectedSuggestion, this`editedCampaignIds
    {
      selectedSuggestion.Some? ==> forall id :: id in editedCampaignIds ==> id in RowIds(selectedSuggestion.value.campaigns)
    }

    /** `get hasNoSuggestions`. */
    function HasNoSuggestions(): (r: bool)
      reads this`isLoading, this`suggestions
      ensures r <==> !isLoading && |suggestions| == 0
    {
      !isLoading && |suggestions| == 0
    }

    /** `get editModalCampaigns`: the rows of the suggestion in the modal,
        each checked exactly when its id is in the edited list; [] when no
        suggestion is selected. */
    function EditModalCampaigns(): (rows: seq<EditRow>)
      reads this`selectedSuggestion, this`editedCampaignIds
      ensures selectedSuggestion.None? ==> rows == []
      ensures selectedSuggestion.Some? ==>
        var campaigns := selectedSuggestion.value.campaigns;
        |rows| == |campaigns|
        && forall i :: 0 <= i < |rows| ==>
             rows[i].campaign == campaigns[i] && (rows[i].isSelected <==> campaigns[i].id in editedCampaignIds)
    {
      match selectedSuggestion
      case None => []
      case Some(s) =>
        var ids := editedCampaignIds;
        seq(|s.campaigns|, i requires 0 <= i < |s.campaigns| => EditRow(s.campaigns[i], s.campaigns[i].id in ids))
    }

    /** `showToast`. */
    method ShowToast(title: string, message: string, variant: string)
      modifies this
      ensures toasts == old(toasts) + [Toast(title, message, variant)]
      ensures suggestions == old(suggestions) && isLoading == old(isLoading) && calls == old(calls)
      ensures SessionUnchanged()
    {
      toasts := toasts + [Toast(title, message, variant)];
    }

    /** `wiredSuggestions`: data replaces the list wholesale unless presenting
        it throws; an error is reported. The modal is never touched. */
    method WiredSuggestions(result: WireResult, formatDate: string -> string) returns (completion: Completion)
      modifies this
      ensures result.WireData? ==>
        var presented := PresentAll(result.data, formatDate);
        if presented.Ok? then
          completion == Returned && suggestions == presented.value && !isLoading
          && (HasNoSuggestions() <==> result.data == [])
        else
          completion == ThrewTypeError && suggestions == old(suggestions) && isLoading == old(isLoading)
      ensures result.WireData? ==> toasts == old(toasts)
      ensures result.WireError? ==>
        completion == Returned && suggestions == old(suggestions) && !isLoading
        && toasts == old(toasts) + [ErrorToast(LOAD_ERROR_PREFIX + result.message)]
      ensures result.WirePending? ==>
        completion == Returned && suggestions == old(suggestions) && isLoading == old(isLoading)
        && toasts == old(toasts)
      ensures calls == old(calls) && SessionUnchanged()
    {
      completion := Returned;
      match result {
        case WireData(data) =>
          var presented := PresentAll(data, formatDate);
          if presented.TypeError? {
            return ThrewTypeError;
          }
          suggestions := presented.value;
          isLoading := false;
        case WireError(message) =>
          ShowToast("Error", LOAD_ERROR_PREFIX + message, "error");
          isLoading := false;
        case WirePending =>
      }
    }

    /** Sends one disposition request and settles it. On success the
        spinner stays on until the refreshed data arrives; only a failure
        turns it off. */
    method Dispose(request: BackendCall, successMessage: string, outcome: Outcome)
      modifies this
      ensures calls == old(calls) + DispositionCalls(request, outcome)
      ensures toasts == old(toasts) + [DispositionToast(successMessage, outcome)]
      ensures isLoading == outcome.Success?
      ensures outcome.Success? ==> !HasNoSuggestions()
      ensures suggestions == old(suggestions) && SessionUnchanged()
    {
      isLoading := true;
      calls := calls + [request];
      match outcome {
        case Success =>
          ShowToast("Success", successMessage, "success");
          calls := calls + [Refresh];
        case Failure(message) =>
          ShowToast("Error", message, "error");
          isLoading := false;
      }
    }

    /** `handleApprove`. */
    method HandleApprove(suggestionId: Id, outcome: Outcome)
      modifies this
      ensures calls == old(calls) + DispositionCalls(Approve(suggestionId), outcome)
      ensures toasts == old(toasts) + [DispositionToast(APPROVED, outcome)]
      ensures isLoading == outcome.Success?
      ensures outcome.Success? ==> !HasNoSuggestions()
      ensures suggestions == old(suggestions) && SessionUnchanged()
    {
      Dispose(Approve(suggestionId), APPROVED, outcome);
    }

    /** `handleReject`. */
    method HandleReject(suggestionId: Id, outcome: Outcome)
      modifies this
      ensures calls == old(calls) + DispositionCalls(Reject(suggestionId), outcome)
      ensures toasts == old(toasts) + [DispositionToast(REJECTED, outcome)]
      ensures isLoading == outcome.Success?
      ensures outcome.Success? ==> !HasNoSuggestions()
      ensures suggestions == old(suggestions) && SessionUnchanged()
    {
      Dispose(Reject(suggestionId), REJECTED, outcome);
    }

    /** `handleEdit`: selects the suggestion, copies its name and the ids of
        all its campaigns in order, and opens the modal. When no suggestion
        has the id, `selectedSuggestion` becomes undefined and the handler
        throws before touching anything else. */
    method HandleEdit(suggestionId: Id) returns (completion: Completion)
      modifies this
      ensures selectedSuggestion == FindSuggestion(old(suggestions), suggestionId)
      ensures selectedSuggestion.Some? ==>
        completion == Returned && showEditModal
        && editedInitiativeName == selectedSuggestion.value.raw.suggestedName
        && editedCampaignIds == RowIds(selectedSuggestion.value.campaigns)
      ensures selectedSuggestion.None? ==>
        completion == ThrewTypeError && showEditModal == old(showEditModal)
        && editedInitiativeName == old(editedInitiativeName) && editedCampaignIds == old(editedCampaignIds)
      ensures SelectionWithinSession()
      ensures suggestions == old(suggestions) && isLoading == old(isLoading)
      ensures toasts == old(toasts) && calls == old(calls)
    {
      selectedSuggestion := FindSuggestion(suggestions, suggestionId);
      if selectedSuggestion.None? {
        return ThrewTypeError;
      }
      editedInitiativeName := selectedSuggestion.value.raw.suggestedName;
      editedCampaignIds := RowIds(selectedSuggestion.value.campaigns);
      showEditModal := true;
      completion := Returned;
    }

    /** `handleInitiativeNameChange`. */
    method HandleInitiativeNameChange(value: string)
      modifies this
      ensures editedInitiativeName == value
      ensures selectedSuggestion == old(selectedSuggestion) && showEditModal == old(showEditModal)
      ensures editedCampaignIds == old(editedCampaignIds)
      ensures suggestions == old(suggestions) && isLoading == old(isLoading)
      ensures toasts == old(toasts) && calls == old(calls)
    {
      editedInitiativeName := value;
    }

    /** `handleCampaignSelection`: checking appends a missing id, unchecking
        removes every occurrence; the other ids keep their order. */
    method HandleCampaignSelection(campaignId: Id, checked: bool)
      modifies this
      ensures editedCampaignIds == Select(old(editedCampaignIds), campaignId, checked)
      ensures selectedSuggestion == old(selectedSuggestion) && showEditModal == old(showEditModal)
      ensures editedInitiativeName == old(editedInitiativeName)
      ensures suggestions == old(suggestions) && isLoading == old(isLoading)
      ensures toasts == old(toasts) && calls == old(calls)
      ensures old(SelectionWithinSession())
              && (checked && selectedSuggestion.Some? ==> campaignId in RowIds(selectedSuggestion.value.campaigns))
              ==> SelectionWithinSession()
    {
      if checked {
        if campaignId !in editedCampaignIds {
          editedCampaignIds := editedCampaignIds + [campaignId];
        }
      } else {
        editedCampaignIds := RemoveAll(editedCampaignIds, campaignId);
      }
    }

    /** `closeEditModal`: back to no session. */
    method CloseEditModal()
      modifies this
      ensures selectedSuggestion == None && !showEditModal
      ensures editedInitiativeName == "" && editedCampaignIds == []
      ensures suggestions == old(suggestions) && isLoading == old(isLoading)
      ensures toasts == old(toasts) && calls == old(calls)
    {
      showEditModal := false;
      selectedSuggestion := None;
      editedInitiativeName := "";
      editedCampaignIds := [];
    }

    /** `handleSaveEdit`: validates locally (one error toast and nothing
        else on failure; the name is only tested for emptiness, so a name of
        spaces passes), then sends the name as typed and the ids in list
        order. A successful save closes the modal and refreshes, leaving the
        spinner on; a failed one keeps the modal. With no suggestion
        selected the handler throws after turning the spinner on. */
    method HandleSaveEdit(outcome: Outcome) returns (completion: Completion)
      modifies this
      ensures old(editedInitiativeName) == "" || old(editedCampaignIds) == [] ==>
        completion == Returned && toasts == old(toasts) + [ErrorToast(INVALID_EDIT)]
        && calls == old(calls) && isLoading == old(isLoading) && SessionUnchanged()
      ensures old(editedInitiativeName) != "" && old(editedCampaignIds) != [] && old(selectedSuggestion).None? ==>
        completion == ThrewTypeError && toasts == old(toasts) && calls == old(calls)
        && isLoading && !HasNoSuggestions() && SessionUnchanged()
      ensures old(editedInitiativeName) != "" && old(editedCampaignIds) != [] && old(selectedSuggestion).Some? ==>
        completion == Returned
        && calls == old(calls) + DispositionCalls(
             Modify(old(selectedSuggestion).value.raw.id, old(editedInitiativeName), old(editedCampaignIds)), outcome)
        && toasts == old(toasts) + [DispositionToast(MODIFIED, outcome)]
        && isLoading == outcome.Success?
        && (outcome.Success? ==> !HasNoSuggestions())
        && (outcome.Success? ==>
              selectedSuggestion == None && !showEditModal && editedInitiativeName == "" && editedCampaignIds == [])
        && (outcome.Failure? ==> SessionUnchanged())
      ensures suggestions == old(suggestions)
    {
      if editedInitiativeName == "" || |editedCampaignIds| == 0 {
        ShowToast("Error", INVALID_EDIT, "error");
        return Returned;
      }
      isLoading := true;
      if selectedSuggestion.None? {
        return ThrewTypeError;
      }
      calls := calls + [Modify(selectedSuggestion.value.raw.id, editedInitiativeName, editedCampaignIds)];
      match outcome {
        case Success =>
          ShowToast("Success", MODIFIED, "success");
          CloseEditModal();
          calls := calls + [Refresh];
        case Failure(message) =>
          ShowToast("Error", message, "error");
          isLoading := false;
      }
      completion := Returned;
    }
  }
}
