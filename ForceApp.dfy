/** The force-app variant of the campaign-grouping review component
    (force-app/main/default/lwc/campaignGroupingSuggestions). It classifies
    campaign names into channels, buckets confidence scores, and runs an edit
    session whose selection is a set of campaign ids, pre-selected in full
    when the session starts. */
module ForceApp {
  import opened JsSemantics
  import opened Records

  // =====================================================================
  // Channel classification
  // =====================================================================

  const EMAIL := "Email"
  const SMS := "SMS"
  const CALL := "Call"
  const SOCIAL_MEDIA := "Social Media"
  const OTHER := "Other"

  /** The values `detectChannelType` can return. */
  const ChannelTypes: set<string> := {EMAIL, SMS, CALL, SOCIAL_MEDIA, OTHER}

  /** The keyword table, in the order the channels are tried. */
  const ChannelKeywords: seq<(string, seq<string>)> := [
    (EMAIL, ["email", "pardot"]),
    (SMS, ["sms", "text", "p2p"]),
    (CALL, ["call", "callhub", "phone"]),
    (SOCIAL_MEDIA, ["facebook", "fb", "instagram", "social"])
  ]

  /** Some keyword of the list occurs in s. */
  predicate IncludesAny(s: string, keywords: seq<string>) {
    exists k :: k in keywords && Includes(s, k)
  }

  /** `detectChannelType`: the channel whose keyword occurs first in the
      table's order in the lower-cased name, or Other when none occurs. */
  function DetectChannelType(campaignName: string): (r: string)
    ensures r in ChannelTypes
    ensures r == OTHER <==> forall row :: row in ChannelKeywords ==> !IncludesAny(ToLower(campaignName), row.1)
  {
    var lowerName := ToLower(campaignName);
    if Includes(lowerName, "email") || Includes(lowerName, "pardot") then EMAIL
    else if Includes(lowerName, "sms") || Includes(lowerName, "text") || Includes(lowerName, "p2p") then SMS
    else if Includes(lowerName, "call") || Includes(lowerName, "callhub") || Includes(lowerName, "phone") then CALL
    else if Includes(lowerName, "facebook") || Includes(lowerName, "fb")
         || Includes(lowerName, "instagram") || Includes(lowerName, "social") then SOCIAL_MEDIA
    else OTHER
  }

  /** Reference reading of an ordered keyword table: the label of the first
      row with a matching keyword, Other when no row matches. */
  function FirstMatch(table: seq<(string, seq<string>)>, lowerName: string): string {
    if table == [] then OTHER
    else if IncludesAny(lowerName, table[0].1) then table[0].0
    else FirstMatch(table[1..], lowerName)
  }

  /** The chain of `if`s in `detectChannelType` is the table read in order. */
  lemma DetectChannelTypeIsFirstMatch(campaignName: string)
    ensures DetectChannelType(campaignName) == FirstMatch(ChannelKeywords, ToLower(campaignName))
  {
    var l := ToLower(campaignName);
    var t1 := ChannelKeywords[1..];
    var t2 := t1[1..];
    var t3 := t2[1..];
    assert t1[0] == ChannelKeywords[1] && t2[0] == ChannelKeywords[2] && t3[0] == ChannelKeywords[3];
    assert t3[1..] == [];
    RowMatches(l);
    assert FirstMatch(t3, l) == if IncludesAny(l, ChannelKeywords[3].1) then SOCIAL_MEDIA else OTHER;
    assert FirstMatch(t2, l) == if IncludesAny(l, ChannelKeywords[2].1) then CALL else FirstMatch(t3, l);
    assert FirstMatch(t1, l) == if IncludesAny(l, ChannelKeywords[1].1) then SMS else FirstMatch(t2, l);
    assert FirstMatch(ChannelKeywords, l) == if IncludesAny(l, ChannelKeywords[0].1) then EMAIL else FirstMatch(t1, l);
  }

  /** Each row of the table matches exactly when one of the tests of the
      corresponding `if` holds. */
  lemma RowMatches(l: string)
    ensures IncludesAny(l, ChannelKeywords[0].1) <==> Includes(l, "email") || Includes(l, "pardot")
    ensures IncludesAny(l, ChannelKeywords[1].1) <==> Includes(l, "sms") || Includes(l, "text") || Includes(l, "p2p")
    ensures IncludesAny(l, ChannelKeywords[2].1) <==> Includes(l, "call") || Includes(l, "callhub") || Includes(l, "phone")
    ensures IncludesAny(l, ChannelKeywords[3].1) <==>
      Includes(l, "facebook") || Includes(l, "fb") || Includes(l, "instagram") || Includes(l, "social")
  {
  }

  /** In a table whose labels are distinct and none of them Other, row i is
      chosen exactly when it matches and no earlier row does. */
  lemma {:induction false} FirstMatchPicksEarliest(table: seq<(string, seq<string>)>, lowerName: string, i: nat)
    requires i < |table|
    requires forall a, b :: 0 <= a < b < |table| ==> table[a].0 != table[b].0
    requires forall a :: 0 <= a < |table| ==> table[a].0 != OTHER
    ensures FirstMatch(table, lowerName) == table[i].0 <==>
      IncludesAny(lowerName, table[i].1) && forall j :: 0 <= j < i ==> !IncludesAny(lowerName, table[j].1)
  {
    if !IncludesAny(lowerName, table[0].1) && i > 0 {
      FirstMatchPicksEarliest(table[1..], lowerName, i - 1);
      assert forall j :: 0 < j < i ==> table[1..][j - 1] == table[j];
    } else if !IncludesAny(lowerName, table[0].1) {
      FirstMatchNotOther(table[1..], lowerName, table[0].0);
    }
  }

  /** FirstMatch only ever returns a row's label or Other. */
  lemma {:induction false} FirstMatchNotOther(table: seq<(string, seq<string>)>, lowerName: string, channel: string)
    requires channel != OTHER
    requires forall a :: 0 <= a < |table| ==> table[a].0 != channel
    ensures FirstMatch(table, lowerName) != channel
  {
    if table != [] && !IncludesAny(lowerName, table[0].1) {
      FirstMatchNotOther(table[1..], lowerName, channel);
    }
  }

  /** Keyword priority: channel i of the table is detected exactly when one
      of its keywords occurs in the lower-cased name and no keyword of an
      earlier channel does. So Email beats SMS, SMS beats Call, Call beats
      Social Media. */
  lemma KeywordPriority(campaignName: string, i: nat)
    requires i < |ChannelKeywords|
    ensures DetectChannelType(campaignName) == ChannelKeywords[i].0 <==>
      IncludesAny(ToLower(campaignName), ChannelKeywords[i].1)
      && forall j :: 0 <= j < i ==> !IncludesAny(ToLower(campaignName), ChannelKeywords[j].1)
  {
    DetectChannelTypeIsFirstMatch(campaignName);
    FirstMatchPicksEarliest(ChannelKeywords, ToLower(campaignName), i);
  }

  /** Detection ignores (ASCII) case. */
  lemma DetectChannelTypeIgnoresCase(campaignName: string)
    ensures DetectChannelType(campaignName) == DetectChannelType(ToLower(campaignName))
  {
    ToLowerIdempotent(campaignName);
  }

  // =====================================================================
  // Confidence and icons
  // =====================================================================

  const CONFIDENCE_HIGH := "confidence-high"
  const CONFIDENCE_MEDIUM := "confidence-medium"
  const CONFIDENCE_LOW := "confidence-low"

  /** `getConfidenceClass`: three tiers, each lower bound inclusive. */
  function GetConfidenceClass(confidenceScore: real): (r: string)
    ensures r == CONFIDENCE_HIGH <==> confidenceScore >= 0.9
    ensures r == CONFIDENCE_MEDIUM <==> 0.7 <= confidenceScore < 0.9
    ensures r == CONFIDENCE_LOW <==> confidenceScore < 0.7
  {
    if confidenceScore >= 0.9 then CONFIDENCE_HIGH
    else if confidenceScore >= 0.7 then CONFIDENCE_MEDIUM
    else CONFIDENCE_LOW
  }

  /** Position of a confidence class, low to high. */
  function TierRank(confidenceClass: string): nat {
    if confidenceClass == CONFIDENCE_HIGH then 2
    else if confidenceClass == CONFIDENCE_MEDIUM then 1
    else 0
  }

  /** A higher score never lands in a lower tier. */
  lemma ConfidenceClassMonotone(a: real, b: real)
    requires a <= b
    ensures TierRank(GetConfidenceClass(a)) <= TierRank(GetConfidenceClass(b))
  {
  }

  const DEFAULT_ICON := "utility:campaign"

  /** `getChannelIcon`: the four named channels get their own utility icon,
      everything else (Other included) the campaign icon. */
  function GetChannelIcon(channelType: string): (r: string)
    ensures r == DEFAULT_ICON <==> channelType !in {EMAIL, SMS, CALL, SOCIAL_MEDIA}
  {
    if channelType == EMAIL then "utility:email"
    else if channelType == SMS then "utility:sms"
    else if channelType == CALL then "utility:call"
    else if channelType == SOCIAL_MEDIA then "utility:socialshare"
    else DEFAULT_ICON
  }

  /** Distinct named channels never share an icon. */
  lemma ChannelIconInjective(a: string, b: string)
    requires GetChannelIcon(a) == GetChannelIcon(b) != DEFAULT_ICON
    ensures a == b
  {
  }

  /** A detected channel gets a specific icon exactly when it is not Other. */
  lemma DetectedChannelIcon(campaignName: string)
    ensures GetChannelIcon(DetectChannelType(campaignName)) == DEFAULT_ICON
            <==> DetectChannelType(campaignName) == OTHER
  {
  }

  // =====================================================================
  // Presenting suggestions
  // =====================================================================

  /** One row of a suggestion's campaign list (`type` is `detectedType`). */
  datatype CampaignRow = CampaignRow(
    id: Id,
    campaignId: Option<Id>,
    name: string,
    detectedType: string,
    createdDate: Option<string>,
    originalName: string,
    channelType: string,
    selected: bool
  )

  /** `m.Channel_Type__c || 'Other'`: null and the empty string are falsy. */
  function ChannelTypeOrOther(channelType: Option<string>): (r: string)
    ensures r == OTHER <==> channelType.None? || channelType.value in {"", OTHER}
    ensures r != OTHER ==> channelType == Some(r)
  {
    match channelType
    case Some(t) => if t == "" then OTHER else t
    case None => OTHER
  }

  /** The row `formatCampaignList` builds for one member. */
  function FormatMember(m: RawMember): (row: CampaignRow)
    ensures row.id == m.id && row.originalName == m.originalName && !row.selected
    ensures row.campaignId.None? <==> m.campaign.None?
    ensures row.createdDate.None? <==> m.campaign.None?
    ensures m.campaign.Some? ==> row.campaignId == Some(m.campaign.value.id)
                                 && row.name == m.campaign.value.name
                                 && row.createdDate == Some(m.campaign.value.createdDate)
    ensures m.campaign.None? ==> row.name == m.originalName
    ensures row.detectedType == DetectChannelType(m.originalName) && row.detectedType in ChannelTypes
    ensures row.channelType == ChannelTypeOrOther(m.channelType)
  {
    CampaignRow(
      m.id,
      match m.campaign case Some(c) => Some(c.id) case None => None,
      match m.campaign case Some(c) => c.name case None => m.originalName,
      DetectChannelType(m.originalName),
      match m.campaign case Some(c) => Some(c.createdDate) case None => None,
      m.originalName,
      ChannelTypeOrOther(m.channelType),
      false)
  }

  /** `formatCampaignList`: one row per member, in the members' order. */
  function FormatCampaignList(members: seq<RawMember>): (rows: seq<CampaignRow>)
    ensures |rows| == |members|
    ensures forall i :: 0 <= i < |members| ==> rows[i] == FormatMember(members[i])
  {
    seq(|members|, i requires 0 <= i < |members| => FormatMember(members[i]))
  }

  /** The `campaignId`s of a list of rows, as a set. */
  function CampaignIdSet(rows: seq<CampaignRow>): set<Option<Id>> {
    set r | r in rows :: r.campaignId
  }

  /** The ids the edit session pre-selects are the campaign links of the
      suggestion's members (null for a member without a campaign). */
  lemma FormattedIdsAreMemberLinks(members: seq<RawMember>)
    ensures CampaignIdSet(FormatCampaignList(members)) ==
      set m | m in members :: match m.campaign case Some(c) => Some(c.id) case None => None
  {
    var rows := FormatCampaignList(members);
    forall x | x in CampaignIdSet(rows)
      ensures x in set m | m in members :: match m.campaign case Some(c) => Some(c.id) case None => None
    {
      var i :| 0 <= i < |rows| && rows[i].campaignId == x;
      assert members[i] in members;
    }
    forall m | m in members ensures FormatMember(m).campaignId in CampaignIdSet(rows) {
      var i :| 0 <= i < |members| && members[i] == m;
      assert rows[i] in rows;
    }
  }

  /** A suggestion as the component holds it: the raw record (spread into the
      object) plus the derived fields. */
  datatype Suggestion = Suggestion(
    raw: RawSuggestion,
    campaigns: seq<CampaignRow>,
    confidencePercent: int,
    confidenceClass: string
  )

  /** The object `wiredSuggestions` builds for one raw suggestion. */
  function PresentSuggestion(raw: RawSuggestion): (s: Suggestion)
    ensures s.raw == raw
    ensures |s.campaigns| == |MembersOrEmpty(raw.members)|
    ensures forall i :: 0 <= i < |s.campaigns| ==> s.campaigns[i] == FormatMember(MembersOrEmpty(raw.members)[i])
    ensures 0.0 <= raw.confidence <= 1.0 ==> 0 <= s.confidencePercent <= 100
    ensures raw.confidence * 100.0 - 0.5 < s.confidencePercent as real <= raw.confidence * 100.0 + 0.5
    ensures s.confidenceClass == GetConfidenceClass(raw.confidence)
  {
    Suggestion(
      raw,
      FormatCampaignList(MembersOrEmpty(raw.members)),
      MathRound(raw.confidence * 100.0),
      GetConfidenceClass(raw.confidence))
  }

  /** `result.data.map(...)`: the list the component shows after a load. */
  function PresentAll(data: seq<RawSuggestion>): (views: seq<Suggestion>)
    ensures |views| == |data|
    ensures forall i :: 0 <= i < |data| ==> views[i] == PresentSuggestion(data[i])
  {
    seq(|data|, i requires 0 <= i < |data| => PresentSuggestion(data[i]))
  }

  /** A suggestion and the campaign row of its edit list, with `isSelected`. */
  datatype EditRow = EditRow(campaign: CampaignRow, isSelected: bool)

  /** The first suggestion with the given id, which `suggestions.find` returns. */
  function FindSuggestion(suggestions: seq<Suggestion>, id: Id): (r: Option<Suggestion>)
    ensures r.Some? ==> r.value in suggestions && r.value.raw.id == id
    ensures r.None? <==> forall s :: s in suggestions ==> s.raw.id != id
    ensures r.Some? ==> exists k :: 0 <= k < |suggestions| && suggestions[k] == r.value
                                    && forall j :: 0 <= j < k ==> suggestions[j].raw.id != id
  {
    Find(suggestions, (s: Suggestion) => s.raw.id == id)
  }

  // =====================================================================
  // The edit selection, as a value
  // =====================================================================

  /** The selection after `handleCampaignToggle(c)`. */
  function Toggle(selection: set<Option<Id>>, c: Option<Id>): (r: set<Option<Id>>)
    ensures c in r <==> c !in selection
    ensures r - {c} == selection - {c}
  {
    if c in selection then selection - {c} else selection + {c}
  }

  /** Toggling the same campaign twice restores the selection. */
  lemma ToggleTwice(selection: set<Option<Id>>, c: Option<Id>)
    ensures Toggle(Toggle(selection, c), c) == selection
  {
  }

  /** Toggling a campaign of the suggestion keeps the selection within it. */
  lemma ToggleStaysWithin(selection: set<Option<Id>>, allowed: set<Option<Id>>, c: Option<Id>)
    requires selection <= allowed && c in allowed
    ensures Toggle(selection, c) <= allowed
  {
  }

  // =====================================================================
  // Side channels: toasts and backend calls
  // =====================================================================

  /** A `ShowToastEvent` the component dispatched. */
  datatype Toast = Toast(title: string, message: string, variant: string, mode: string)

  /** Error toasts stay until dismissed; the others can be dismissed. */
  function ToastMode(variant: string): (mode: string)
    ensures mode == "sticky" <==> variant == "error"
    ensures mode in {"sticky", "dismissable"}
  {
    if variant == "error" then "sticky" else "dismissable"
  }

  function ErrorToast(message: string): Toast {
    Toast("Error", message, "error", ToastMode("error"))
  }

  function SuccessToast(message: string): Toast {
    Toast("Success", message, "success", ToastMode("success"))
  }

  /** A call the component makes to the Apex controller (`Refresh` is
      `refreshApex` on the wired result). */
  datatype BackendCall =
    | Approve(suggestionId: Id)
    | Reject(suggestionId: Id)
    | Modify(editedId: Option<Id>, newInitiativeName: string, campaignIds: set<Option<Id>>)
    | Refresh

  const APPROVED := "Campaigns grouped successfully! 🎉"
  const REJECTED := "Suggestion rejected"
  const MODIFIED := "Campaign group created with modifications! ✨"
  const NAME_REQUIRED := "Initiative name is required"
  const SELECT_ONE := "Please select at least one campaign"
  const LOAD_ERROR_PREFIX := "Error loading suggestions: "

  /** The calls a settled disposition leaves: the request, then a refresh
      only after it succeeded. */
  function DispositionCalls(request: BackendCall, outcome: Outcome): (calls: seq<BackendCall>)
    ensures |calls| >= 1 && calls[0] == request
    ensures Refresh in calls[1..] <==> outcome.Success?
  {
    if outcome.Success? then [request, Refresh] else [request]
  }

  /** The toast a settled disposition shows: the success text, or the
      service's message verbatim. */
  function DispositionToast(successMessage: string, outcome: Outcome): (t: Toast)
    ensures t.variant == "success" <==> outcome.Success?
    ensures outcome.Failure? ==> t.message == outcome.message && t.mode == "sticky"
    ensures outcome.Success? ==> t.message == successMessage
  {
    match outcome
    case Success => SuccessToast(successMessage)
    case Failure(message) => ErrorToast(message)
  }

  // =====================================================================
  // The component
  // =====================================================================

  class CampaignGroupingSuggestions {
    var suggestions: seq<Suggestion>
    var isLoading: bool
    var editingSuggestion: Option<Id>
    var newInitiativeName: string
    var selectedCampaigns: set<Option<Id>>
    /** Every toast dispatched so far, oldest first. */
    var toasts: seq<Toast>
    /** Every Apex call issued so far, oldest first. */
    ghost var calls: seq<BackendCall>

    constructor ()
      ensures suggestions == [] && !isLoading
      ensures editingSuggestion == None && newInitiativeName == "" && selectedCampaigns == {}
      ensures toasts == [] && calls == []
    {
      suggestions := [];
      isLoading := false;
      editingSuggestion := None;
      newInitiativeName := "";
      selectedCampaigns := {};
      toasts := [];
      calls := [];
    }

    /** The edit session is untouched. */
    twostate predicate SessionUnchanged()
      reads this`editingSuggestion, this`newInitiativeName, this`selectedCampaigns
    {
      editingSuggestion == old(editingSuggestion) && newInitiativeName == old(newInitiativeName)
      && selectedCampaigns == old(selectedCampaigns)
    }

    /** `get isEditing`. */
    function IsEditing(): (r: bool)
      reads this`editingSuggestion
      ensures r <==> editingSuggestion != None
    {
      editingSuggestion.Some?
    }

    /** `get hasNoSuggestions`. */
    function HasNoSuggestions(): (r: bool)
      reads this`isLoading, this`suggestions
      ensures r <==> !isLoading && |suggestions| == 0
    {
      !isLoading && |suggestions| == 0
    }

    /** `get editingSuggestionData`: the suggestion under edit, looked up in
        the current list (`find` with `=== null` finds nothing when idle). */
    function EditingSuggestionData(): (r: Option<Suggestion>)
      reads this`editingSuggestion, this`suggestions
      ensures editingSuggestion.None? ==> r.None?
      ensures r.Some? ==> r.value in suggestions && Some(r.value.raw.id) == editingSuggestion
      ensures editingSuggestion.Some? ==>
        (r.None? <==> forall s :: s in suggestions ==> s.raw.id != editingSuggestion.value)
      ensures r.Some? ==> exists k :: 0 <= k < |suggestions| && suggestions[k] == r.value
                                      && forall j :: 0 <= j < k ==> suggestions[j].raw.id != r.value.raw.id
    {
      match editingSuggestion
      case None => None
      case Some(id) => FindSuggestion(suggestions, id)
    }

    /** The selection holds only campaigns of the suggestion under edit. */
    ghost predicate SelectionWithinSession()
      reads this`editingSuggestion, this`suggestions, this`selectedCampaigns
    {
      EditingSuggestionData().Some? ==> selectedCampaigns <= CampaignIdSet(EditingSuggestionData().value.campaigns)
    }

    /** `get selectedCampaignsList`: the rows of the suggestion under edit,
        each marked with whether it is selected; [] when there is none. */
    function SelectedCampaignsList(): (rows: seq<EditRow>)
      reads this`editingSuggestion, this`suggestions, this`selectedCampaigns
      ensures EditingSuggestionData().None? ==> rows == []
      ensures EditingSuggestionData().Some? ==>
        var campaigns := EditingSuggestionData().value.campaigns;
        |rows| == |campaigns|
        && forall i :: 0 <= i < |rows| ==>
             rows[i].campaign == campaigns[i] && (rows[i].isSelected <==> campaigns[i].campaignId in selectedCampaigns)
    {
      match EditingSuggestionData()
      case None => []
      case Some(s) =>
        var selection := selectedCampaigns;
        seq(|s.campaigns|, i requires 0 <= i < |s.campaigns| =>
          EditRow(s.campaigns[i], s.campaigns[i].campaignId in selection))
    }

    /** `showToast`: dispatch a toast whose mode follows from its variant. */
    method ShowToast(title: string, message: string, variant: string)
      modifies this
      ensures toasts == old(toasts) + [Toast(title, message, variant, ToastMode(variant))]
      ensures suggestions == old(suggestions) && isLoading == old(isLoading) && calls == old(calls)
      ensures SessionUnchanged()
    {
      toasts := toasts + [Toast(title, message, variant, ToastMode(variant))];
    }

    /** `wiredSuggestions`: data replaces the list wholesale, an error is
        reported; neither touches the edit session. */
    method WiredSuggestions(result: WireResult)
      modifies this
      ensures result.WireData? ==> suggestions == PresentAll(result.data) && !isLoading && toasts == old(toasts)
      ensures result.WireData? ==> (HasNoSuggestions() <==> result.data == [])
      ensures result.WireError? ==>
        suggestions == old(suggestions) && !isLoading
        && toasts == old(toasts) + [ErrorToast(LOAD_ERROR_PREFIX + result.message)]
      ensures result.WirePending? ==>
        suggestions == old(suggestions) && isLoading == old(isLoading) && toasts == old(toasts)
      ensures calls == old(calls) && SessionUnchanged()
    {
      match result
      case WireData(data) =>
        suggestions := PresentAll(data);
        isLoading := false;
      case WireError(message) =>
        ShowToast("Error", LOAD_ERROR_PREFIX + message, "error");
        isLoading := false;
      case WirePending =>
    }

    /** Sends one disposition request and settles it with the given outcome. */
    method Dispose(request: BackendCall, successMessage: string, outcome: Outcome)
      modifies this
      ensures calls == old(calls) + DispositionCalls(request, outcome)
      ensures toasts == old(toasts) + [DispositionToast(successMessage, outcome)]
      ensures !isLoading && suggestions == old(suggestions) && SessionUnchanged()
      ensures HasNoSuggestions() <==> suggestions == []
    {
      isLoading := true;
      calls := calls + [request];
      match outcome {
        case Success =>
          ShowToast("Success", successMessage, "success");
          calls := calls + [Refresh];
        case Failure(message) =>
          ShowToast("Error", message, "error");
      }
      isLoading := false;
    }

    /** `handleApprove`: an approval request; on success a toast and a
        refresh, on failure the service's message. Only `isLoading` moves,
        and it ends false either way. */
    method HandleApprove(suggestionId: Id, outcome: Outcome)
      modifies this
      ensures calls == old(calls) + DispositionCalls(Approve(suggestionId), outcome)
      ensures toasts == old(toasts) + [DispositionToast(APPROVED, outcome)]
      ensures !isLoading && suggestions == old(suggestions) && SessionUnchanged()
      ensures HasNoSuggestions() <==> suggestions == []
    {
      Dispose(Approve(suggestionId), APPROVED, outcome);
    }

    /** `handleReject`: as approve, with a rejection request. */
    method HandleReject(suggestionId: Id, outcome: Outcome)
      modifies this
      ensures calls == old(calls) + DispositionCalls(Reject(suggestionId), outcome)
      ensures toasts == old(toasts) + [DispositionToast(REJECTED, outcome)]
      ensures !isLoading && suggestions == old(suggestions) && SessionUnchanged()
      ensures HasNoSuggestions() <==> suggestions == []
    {
      Dispose(Reject(suggestionId), REJECTED, outcome);
    }

    /** `handleEdit`: opens the session on the suggestion and pre-selects
        every one of its campaigns. When no suggestion has the id, the
        handler throws after recording the id and before touching the rest. */
    method HandleEdit(suggestionId: Id) returns (completion: Completion)
      modifies this
      ensures editingSuggestion == Some(suggestionId) && IsEditing()
      ensures var found := FindSuggestion(old(suggestions), suggestionId);
        if found.Some? then
          completion == Returned && newInitiativeName == found.value.raw.suggestedName
          && selectedCampaigns == CampaignIdSet(found.value.campaigns)
        else
          completion == ThrewTypeError && newInitiativeName == old(newInitiativeName)
          && selectedCampaigns == old(selectedCampaigns)
      ensures SelectionWithinSession()
      ensures suggestions == old(suggestions) && isLoading == old(isLoading)
      ensures toasts == old(toasts) && calls == old(calls)
    {
      var suggestion := FindSuggestion(suggestions, suggestionId);
      editingSuggestion := Some(suggestionId);
      if suggestion.None? {
        return ThrewTypeError;
      }
      var s := suggestion.value;
      newInitiativeName := s.raw.suggestedName;
      selectedCampaigns := {};
      var i := 0;
      while i < |s.campaigns|
        invariant 0 <= i <= |s.campaigns|
        invariant selectedCampaigns == CampaignIdSet(s.campaigns[..i])
        invariant editingSuggestion == Some(suggestionId) && newInitiativeName == s.raw.suggestedName
        invariant suggestions == old(suggestions) && isLoading == old(isLoading)
        invariant toasts == old(toasts) && calls == old(calls)
      {
        assert s.campaigns[..i + 1] == s.campaigns[..i] + [s.campaigns[i]];
        selectedCampaigns := selectedCampaigns + {s.campaigns[i].campaignId};
        i := i + 1;
      }
      assert s.campaigns[..i] == s.campaigns;
      completion := Returned;
    }

    /** `handleCancelEdit`: back to no session. */
    method HandleCancelEdit()
      modifies this
      ensures editingSuggestion == None && newInitiativeName == "" && selectedCampaigns == {}
      ensures !IsEditing()
      ensures suggestions == old(suggestions) && isLoading == old(isLoading)
      ensures toasts == old(toasts) && calls == old(calls)
      ensures SelectionWithinSession()
    {
      editingSuggestion := None;
      newInitiativeName := "";
      selectedCampaigns := {};
    }

    /** `handleInitiativeNameChange`: the working name becomes the input's value. */
    method HandleInitiativeNameChange(value: string)
      modifies this
      ensures newInitiativeName == value
      ensures editingSuggestion == old(editingSuggestion) && selectedCampaigns == old(selectedCampaigns)
      ensures suggestions == old(suggestions) && isLoading == old(isLoading)
      ensures toasts == old(toasts) && calls == old(calls)
      ensures old(SelectionWithinSession()) ==> SelectionWithinSession()
    {
      newInitiativeName := value;
    }

    /** `handleCampaignToggle`: flips the membership of one campaign and
        leaves every other campaign's membership as it was. */
    method HandleCampaignToggle(campaignId: Option<Id>)
      modifies this
      ensures selectedCampaigns == Toggle(old(selectedCampaigns), campaignId)
      ensures editingSuggestion == old(editingSuggestion) && newInitiativeName == old(newInitiativeName)
      ensures suggestions == old(suggestions) && isLoading == old(isLoading)
      ensures toasts == old(toasts) && calls == old(calls)
      ensures old(SelectionWithinSession())
              && (EditingSuggestionData().Some? ==> campaignId in CampaignIdSet(EditingSuggestionData().value.campaigns))
              ==> SelectionWithinSession()
    {
      if campaignId in selectedCampaigns {
        selectedCampaigns := selectedCampaigns - {campaignId};
      } else {
        selectedCampaigns := selectedCampaigns + {campaignId};
      }
      // `new Set(...)` only forces a re-render; the contents are the same.
      selectedCampaigns := set c | c in selectedCampaigns;
      assert old(EditingSuggestionData()) == EditingSuggestionData();
    }

    /** `handleSaveEdit`: validates locally, then sends the untrimmed name
        and the selected ids. A rejected edit shows one error toast and
        changes nothing else; a successful save closes the session and
        refreshes; a failed one keeps the session for another try. */
    method HandleSaveEdit(outcome: Outcome)
      modifies this
      ensures IsBlank(old(newInitiativeName)) ==>
        toasts == old(toasts) + [ErrorToast(NAME_REQUIRED)]
        && calls == old(calls) && isLoading == old(isLoading) && SessionUnchanged()
        && IsEditing() == old(IsEditing())
      ensures !IsBlank(old(newInitiativeName)) && old(selectedCampaigns) == {} ==>
        toasts == old(toasts) + [ErrorToast(SELECT_ONE)]
        && calls == old(calls) && isLoading == old(isLoading) && SessionUnchanged()
        && IsEditing() == old(IsEditing())
      ensures !IsBlank(old(newInitiativeName)) && old(selectedCampaigns) != {} ==>
        calls == old(calls) + DispositionCalls(Modify(old(editingSuggestion), old(newInitiativeName), old(selectedCampaigns)), outcome)
        && toasts == old(toasts) + [DispositionToast(MODIFIED, outcome)]
        && !isLoading
        && (outcome.Success? ==> editingSuggestion == None && newInitiativeName == "" && selectedCampaigns == {}
                                 && !IsEditing())
        && (outcome.Failure? ==> SessionUnchanged())
      ensures suggestions == old(suggestions)
      ensures old(SelectionWithinSession()) ==> SelectionWithinSession()
    {
      // `trim()` leaves nothing exactly when the name is blank (see `Trim`).
      if IsBlank(newInitiativeName) {
        ShowToast("Error", NAME_REQUIRED, "error");
        return;
      }
      if |selectedCampaigns| == 0 {
        ShowToast("Error", SELECT_ONE, "error");
        return;
      }
      var request := Modify(editingSuggestion, newInitiativeName, selectedCampaigns);
      isLoading := true;
      calls := calls + [request];
      SettleModify(outcome);
      assert calls == old(calls) + DispositionCalls(request, outcome);
    }

    /** The continuation `modifySuggestion` settles into: on success a toast,
        the end of the session and a refresh; on failure the service's
        message; either way the spinner goes off. */
    method SettleModify(outcome: Outcome)
      modifies this
      ensures calls == old(calls) + (if outcome.Success? then [Refresh] else [])
      ensures toasts == old(toasts) + [DispositionToast(MODIFIED, outcome)]
      ensures !isLoading && suggestions == old(suggestions)
      ensures outcome.Success? ==> editingSuggestion == None && newInitiativeName == "" && selectedCampaigns == {}
      ensures outcome.Success? ==> !IsEditing()
      ensures outcome.Failure? ==> SessionUnchanged()
    {
      if outcome.Success? {
        ShowToast("Success", MODIFIED, "success");
        HandleCancelEdit();
        calls := calls + [Refresh];
      } else {
        ShowToast("Error", outcome.message, "error");
      }
      isLoading := false;
    }
  }
}
