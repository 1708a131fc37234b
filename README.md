# Campaign grouping suggestions, modelled in Dafny

The component shows the operator the campaign groupings the
`GroupingSuggestionController` Apex controller proposes. Each suggestion has a
confidence score and a list of member campaigns. The operator can approve or
reject a suggestion, or edit it before saving: rename the initiative and change
which campaigns belong to it. The repository holds two variants of the
component, and this project models each as its own module:

- `ForceApp` models `force-app/main/default/lwc/campaignGroupingSuggestions`.
  - It detects a channel from each campaign's original name by ordered keyword
    matching.
  - It shows a confidence percentage and tier.
  - Its edit session keeps the selection as a JavaScript `Set` of campaign
    ids, modelled as a `set`.
- `Src` models `src/lwc/campaignGroupingSuggestions`.
  - It derives an icon per campaign row.
  - It counts the campaigns.
  - Its edit modal keeps the checked ids as an ordered array, modelled as a
    `seq`.

Each variant has two parts.

- Pure classifiers and formatters: functions and lemmas.
- The component: a `class` whose fields are the component's tracked fields.
  Its handlers are methods that update those fields.
  - Every toast the component dispatches is appended to a `toasts` field.
  - Every Apex request is appended to a ghost `calls` log: approve, reject,
    modify, and `refreshApex` as `Refresh`.
  - A request's settlement is a parameter, `Outcome = Success | Failure(message)`.
  - A handler that reads a property of `undefined` returns `ThrewTypeError`.
    It leaves the fields in whatever state they were in at the throw.

`JsSemantics` holds the JavaScript built-ins the component relies on:
- `toLowerCase`, restricted to ASCII;
- `includes`;
- `trim`, over the full ECMAScript white-space set;
- `Math.round`;
- `Array.prototype.find`;
- the `filter(id => id !== x)` idiom.

`Records` holds the raw Salesforce records the wire adapter delivers.

`Variants` states how the two variants relate. It also proves, statement by
statement, what an edit session does to a suggestion with two linked campaigns:
- `SaveEditedSelectionForceApp` and `SaveEditedSelectionSrc` start from a
  suggestion with two linked campaigns. Each deselects one campaign, renames
  the initiative and saves. The only request is a modify carrying the new name
  and the remaining campaign, followed by a refresh.
- `BlankNameRefusedForceApp` and `BlankNameSentSrc` show that a name made of
  spaces is refused by force-app and sent as typed by src.

The two force-app scenarios share `OpenForEdit`, whose contract states the
opened session: editing `s1`, both campaigns selected, nothing sent or shown.
The scenario methods prove their claims with assertions and have no contract,
so they are not listed in the table.

Behaviour one might expect that the code does not have (the model follows the
code):
- Neither variant checks `isLoading` before sending. A second click on approve,
  reject or save issues a second request. There is no exclusion of repeated
  requests for the same suggestion.
- force-app validates the trimmed name but sends the name as typed, untrimmed.
  src does not trim at all: a name of spaces passes its validation.
- Saving outside an edit session is not refused.
  - force-app sends a modify with a null suggestion id (`Modify(None, …)`).
  - src throws a TypeError after turning the spinner on.
- In src, a successful approve, reject or save leaves `isLoading` true. Only a
  failure resets it, in the `catch`. The refreshed data, when it arrives
  through the wire, turns it off.

## Model

| member | source | states |
|---|---|---|
| JsSemantics.ToLower | force-app/main/default/lwc/campaignGroupingSuggestions/campaignGroupingSuggestions.js:50 | lower-casing keeps the length and maps each character on its own (A–Z to a–z, everything else kept) |
| JsSemantics.ToLowerIdempotent | force-app/main/default/lwc/campaignGroupingSuggestions/campaignGroupingSuggestions.js:50 | lower-casing twice is lower-casing once |
| JsSemantics.ToLowerPointwise | force-app/main/default/lwc/campaignGroupingSuggestions/campaignGroupingSuggestions.js:50 | a string whose characters are the lower-cased characters of s is exactly `s.toLowerCase()` |
| JsSemantics.IncludesIffOccurs | force-app/main/default/lwc/campaignGroupingSuggestions/campaignGroupingSuggestions.js:52-60 | `s.includes(k)` holds exactly when k occurs in s at some index |
| JsSemantics.IncludesNeedsEveryChar | force-app/main/default/lwc/campaignGroupingSuggestions/campaignGroupingSuggestions.js:52-60 | a string lacking some character of k does not include k |
| JsSemantics.TrimStart | force-app/main/default/lwc/campaignGroupingSuggestions/campaignGroupingSuggestions.js:154 | the result is a suffix of the input, what was dropped is all white space, and it does not start with white space |
| JsSemantics.TrimEnd | force-app/main/default/lwc/campaignGroupingSuggestions/campaignGroupingSuggestions.js:154 | the result is a prefix of the input, what was dropped is all white space, and it does not end with white space |
| JsSemantics.Trim | force-app/main/default/lwc/campaignGroupingSuggestions/campaignGroupingSuggestions.js:154 | `s.trim()` is empty exactly when s is all white space, and otherwise neither starts nor ends with white space |
| JsSemantics.MathRound | force-app/main/default/lwc/campaignGroupingSuggestions/campaignGroupingSuggestions.js:25 | `Math.round(x)` is within one half of x, with halves going up |
| JsSemantics.FindIndex | force-app/main/default/lwc/campaignGroupingSuggestions/campaignGroupingSuggestions.js:118 | `find` stops at the first element satisfying the predicate, and finds nothing exactly when no element satisfies it |
| JsSemantics.Find | force-app/main/default/lwc/campaignGroupingSuggestions/campaignGroupingSuggestions.js:118 | `find` returns the first element of the list that satisfies the predicate, or undefined exactly when none does |
| JsSemantics.RemoveAll | src/lwc/campaignGroupingSuggestions/campaignGroupingSuggestions.js:130 | `filter(id => id !== x)` removes every x and keeps every other element with its count and relative order |
| JsSemantics.RemoveAllKeepsNoDuplicates | src/lwc/campaignGroupingSuggestions/campaignGroupingSuggestions.js:130 | filtering a duplicate-free list leaves it duplicate-free |
| JsSemantics.RemoveAllAbsent | src/lwc/campaignGroupingSuggestions/campaignGroupingSuggestions.js:130 | filtering out an absent id changes nothing |
| JsSemantics.RemoveAllAppend | src/lwc/campaignGroupingSuggestions/campaignGroupingSuggestions.js:130 | filtering distributes over concatenation |
| ForceApp.DetectChannelType | force-app/main/default/lwc/campaignGroupingSuggestions/campaignGroupingSuggestions.js:49-64 | the result is one of Email, SMS, Call, Social Media, Other, and it is Other exactly when the lower-cased name contains no keyword of any channel |
| ForceApp.DetectChannelTypeIsFirstMatch | force-app/main/default/lwc/campaignGroupingSuggestions/campaignGroupingSuggestions.js:49-64 | the chain of `if`s equals reading the keyword table in order and taking the first channel with a matching keyword |
| ForceApp.RowMatches | force-app/main/default/lwc/campaignGroupingSuggestions/campaignGroupingSuggestions.js:52-60 | each row of the keyword table matches exactly when one of the `includes` tests of its branch holds |
| ForceApp.FirstMatchPicksEarliest | force-app/main/default/lwc/campaignGroupingSuggestions/campaignGroupingSuggestions.js:49-64 | in an ordered table with distinct labels, row i is chosen exactly when it matches and no earlier row does |
| ForceApp.FirstMatchNotOther | force-app/main/default/lwc/campaignGroupingSuggestions/campaignGroupingSuggestions.js:49-64 | the first-match reading only returns a label of the table or Other |
| ForceApp.KeywordPriority | force-app/main/default/lwc/campaignGroupingSuggestions/campaignGroupingSuggestions.js:52-61 | channel i is detected exactly when one of its keywords occurs and no keyword of an earlier channel does, so Email beats SMS, SMS beats Call, and Call beats Social Media |
| ForceApp.DetectChannelTypeIgnoresCase | force-app/main/default/lwc/campaignGroupingSuggestions/campaignGroupingSuggestions.js:50 | detection gives the same channel for a name and for its lower-cased form |
| ForceApp.GetConfidenceClass | force-app/main/default/lwc/campaignGroupingSuggestions/campaignGroupingSuggestions.js:66-70 | high exactly when the score is at least 0.9, medium exactly when it is in [0.7, 0.9), low exactly below 0.7 |
| ForceApp.ConfidenceClassMonotone | force-app/main/default/lwc/campaignGroupingSuggestions/campaignGroupingSuggestions.js:66-70 | a higher score never lands in a lower tier |
| ForceApp.GetChannelIcon | force-app/main/default/lwc/campaignGroupingSuggestions/campaignGroupingSuggestions.js:72-80 | the campaign icon is returned exactly for values other than the four named channels |
| ForceApp.ChannelIconInjective | force-app/main/default/lwc/campaignGroupingSuggestions/campaignGroupingSuggestions.js:72-80 | two channels with the same specific icon are the same channel |
| ForceApp.DetectedChannelIcon | force-app/main/default/lwc/campaignGroupingSuggestions/campaignGroupingSuggestions.js:72-80 | a detected channel gets the campaign icon exactly when it is Other |
| ForceApp.ChannelTypeOrOther | force-app/main/default/lwc/campaignGroupingSuggestions/campaignGroupingSuggestions.js:44 | `Channel_Type__c \|\| 'Other'` is Other exactly for a missing, empty or Other type, and is the given type otherwise |
| ForceApp.FormatMember | force-app/main/default/lwc/campaignGroupingSuggestions/campaignGroupingSuggestions.js:37-46 | the row is unselected, has the linked campaign's id, name and creation date when linked, and the original name with no id or date when unlinked, and detects its type from the original name |
| ForceApp.FormatCampaignList | force-app/main/default/lwc/campaignGroupingSuggestions/campaignGroupingSuggestions.js:36-47 | one row per member, in the members' order |
| ForceApp.FormattedIdsAreMemberLinks | force-app/main/default/lwc/campaignGroupingSuggestions/campaignGroupingSuggestions.js:39 | the campaign ids of the formatted rows are exactly the members' campaign links, with null for an unlinked member |
| ForceApp.PresentSuggestion | force-app/main/default/lwc/campaignGroupingSuggestions/campaignGroupingSuggestions.js:22-27 | the shown suggestion keeps the record and formats its members (none when the relationship is missing); the percent is `Math.round` of the score times 100 (within one half of it, halves up), within [0, 100] for a score in [0, 1]; the tier follows the score |
| ForceApp.PresentAll | force-app/main/default/lwc/campaignGroupingSuggestions/campaignGroupingSuggestions.js:21-28 | one presented suggestion per record, in order |
| ForceApp.FindSuggestion | force-app/main/default/lwc/campaignGroupingSuggestions/campaignGroupingSuggestions.js:118 | the suggestion found is the first in the list with the id; nothing is found exactly when no suggestion has the id |
| ForceApp.Toggle | force-app/main/default/lwc/campaignGroupingSuggestions/campaignGroupingSuggestions.js:140-151 | the toggled campaign's membership flips and every other campaign's membership stays as it was |
| ForceApp.ToggleTwice | force-app/main/default/lwc/campaignGroupingSuggestions/campaignGroupingSuggestions.js:140-151 | toggling the same campaign twice restores the selection |
| ForceApp.ToggleStaysWithin | force-app/main/default/lwc/campaignGroupingSuggestions/campaignGroupingSuggestions.js:140-151 | toggling a campaign of the suggestion keeps the selection within the suggestion's campaigns |
| ForceApp.ToastMode | force-app/main/default/lwc/campaignGroupingSuggestions/campaignGroupingSuggestions.js:189 | a toast is sticky exactly when its variant is error, and dismissable otherwise |
| ForceApp.DispositionCalls | force-app/main/default/lwc/campaignGroupingSuggestions/campaignGroupingSuggestions.js:86-90 | a settled request leaves the request first, then a refresh exactly when it succeeded |
| ForceApp.DispositionToast | force-app/main/default/lwc/campaignGroupingSuggestions/campaignGroupingSuggestions.js:87-93 | the toast is a success toast with the fixed text exactly when the request succeeded, and otherwise a sticky error toast with the service's message |
| ForceApp.CampaignGroupingSuggestions.constructor | force-app/main/default/lwc/campaignGroupingSuggestions/campaignGroupingSuggestions.js:10-14 | no suggestions, not loading, no session, empty name and selection |
| ForceApp.CampaignGroupingSuggestions.IsEditing | force-app/main/default/lwc/campaignGroupingSuggestions/campaignGroupingSuggestions.js:197-199 | editing exactly when a suggestion id is set; `HandleEdit` ensures it holds, `HandleCancelEdit` and a successful save ensure it does not, and a refused save leaves it as it was |
| ForceApp.CampaignGroupingSuggestions.HasNoSuggestions | force-app/main/default/lwc/campaignGroupingSuggestions/campaignGroupingSuggestions.js:193-195 | true exactly when not loading and the list is empty; after a load it holds exactly when the data was empty, and after a settled approve or reject exactly when the list is empty |
| ForceApp.CampaignGroupingSuggestions.EditingSuggestionData | force-app/main/default/lwc/campaignGroupingSuggestions/campaignGroupingSuggestions.js:201-203 | nothing when idle; otherwise the first listed suggestion with the id under edit, and nothing exactly when no listed suggestion has that id |
| ForceApp.CampaignGroupingSuggestions.SelectedCampaignsList | force-app/main/default/lwc/campaignGroupingSuggestions/campaignGroupingSuggestions.js:205-212 | [] without a suggestion under edit; otherwise one row per campaign, in order, marked selected exactly when its id is in the selection |
| ForceApp.CampaignGroupingSuggestions.ShowToast | force-app/main/default/lwc/campaignGroupingSuggestions/campaignGroupingSuggestions.js:184-191 | appends one toast whose mode follows from its variant and changes nothing else |
| ForceApp.CampaignGroupingSuggestions.WiredSuggestions | force-app/main/default/lwc/campaignGroupingSuggestions/campaignGroupingSuggestions.js:18-33 | data replaces the list with its presentation and stops loading; an error adds one prefixed error toast and stops loading; neither touches the edit session nor sends a request |
| ForceApp.CampaignGroupingSuggestions.Dispose | force-app/main/default/lwc/campaignGroupingSuggestions/campaignGroupingSuggestions.js:84-96 | one request, a refresh exactly on success, one toast, the spinner off at the end (so the empty-list message shows exactly when the list is empty), the session untouched |
| ForceApp.CampaignGroupingSuggestions.HandleApprove | force-app/main/default/lwc/campaignGroupingSuggestions/campaignGroupingSuggestions.js:82-97 | an approve request for the id, then a refresh on success; the success or error toast; the spinner off; nothing else changes |
| ForceApp.CampaignGroupingSuggestions.HandleReject | force-app/main/default/lwc/campaignGroupingSuggestions/campaignGroupingSuggestions.js:99-114 | as approve, with a reject request and its own success text |
| ForceApp.CampaignGroupingSuggestions.HandleEdit | force-app/main/default/lwc/campaignGroupingSuggestions/campaignGroupingSuggestions.js:116-128 | the session is on the id; when found, the name is the suggested name and the selection is exactly the set of its rows' campaign ids; when not found, the handler throws with name and selection untouched |
| ForceApp.CampaignGroupingSuggestions.HandleCancelEdit | force-app/main/default/lwc/campaignGroupingSuggestions/campaignGroupingSuggestions.js:130-134 | no session, empty name, empty selection, nothing else changed |
| ForceApp.CampaignGroupingSuggestions.HandleInitiativeNameChange | force-app/main/default/lwc/campaignGroupingSuggestions/campaignGroupingSuggestions.js:136-138 | the working name becomes the value, nothing else changes |
| ForceApp.CampaignGroupingSuggestions.HandleCampaignToggle | force-app/main/default/lwc/campaignGroupingSuggestions/campaignGroupingSuggestions.js:140-151 | the selection is toggled at the id and nothing else changes; toggling a campaign of the edited suggestion keeps the selection within it |
| ForceApp.CampaignGroupingSuggestions.HandleSaveEdit | force-app/main/default/lwc/campaignGroupingSuggestions/campaignGroupingSuggestions.js:153-170 | a name that `trim()` leaves empty, or an empty selection, gives exactly one error toast, no request and no session change, and editing stays as it was; otherwise one modify request with the untrimmed name and the selection, then the settlement below; the selection stays within the edited suggestion |
| ForceApp.CampaignGroupingSuggestions.SettleModify | force-app/main/default/lwc/campaignGroupingSuggestions/campaignGroupingSuggestions.js:171-181 | on success a success toast, the session reset to no id, '' and the empty set, and a refresh; on failure an error toast and the session intact; the spinner off either way |
| Src.GetConfidenceClass | src/lwc/campaignGroupingSuggestions/campaignGroupingSuggestions.js:63-68 | comparing `confidence * 100` with 90 and 70 gives success exactly at 0.9 and above, weak exactly in [0.7, 0.9), error below 0.7 |
| Src.ChannelIconAsWritten | src/lwc/campaignGroupingSuggestions/campaignGroupingSuggestions.js:52-61 | the lookup yields an inherited Object.prototype member instead of an icon name exactly when the type is one of the prototype's property names |
| Src.ChannelIconAsWrittenLeaksPrototype | src/lwc/campaignGroupingSuggestions/campaignGroupingSuggestions.js:60 | the channel type "toString" yields no icon name |
| Src.GetChannelIcon | src/lwc/campaignGroupingSuggestions/campaignGroupingSuggestions.js:52-61 | each of the five map keys gets its own icon; any other value, absent included, gets the campaign icon |
| Src.ChannelIconAgreesOffPrototype | src/lwc/campaignGroupingSuggestions/campaignGroupingSuggestions.js:52-61 | away from the prototype's property names, the code as written and the intended lookup give the same icon |
| Src.ChannelIconSpecific | src/lwc/campaignGroupingSuggestions/campaignGroupingSuggestions.js:53-58 | the four named channels get distinct icons, none of them the campaign icon |
| Src.FormatMember | src/lwc/campaignGroupingSuggestions/campaignGroupingSuggestions.js:42-49 | a linked member's row has the campaign's id and name, the original name, the channel type with its icon, and the formatted creation date; the icon is the corrected lookup's, which is the as-written lookup's icon name for every channel type that is not an Object.prototype property name |
| Src.FormatMembers | src/lwc/campaignGroupingSuggestions/campaignGroupingSuggestions.js:42-49 | throws exactly when some member is unlinked; otherwise one row per member, in order |
| Src.FormatCampaignList | src/lwc/campaignGroupingSuggestions/campaignGroupingSuggestions.js:39-50 | [] when the member relationship is missing; otherwise the members' rows |
| Src.CampaignCount | src/lwc/campaignGroupingSuggestions/campaignGroupingSuggestions.js:28-29 | the number of members, 0 when the relationship is missing |
| Src.PresentSuggestion | src/lwc/campaignGroupingSuggestions/campaignGroupingSuggestions.js:24-31 | succeeds exactly when every member is linked; then the count equals the number of rows and of members, each row formats its member, the tier follows the score and the percent is `Math.round` of the score times 100 (within one half of it, halves up) |
| Src.PresentAll | src/lwc/campaignGroupingSuggestions/campaignGroupingSuggestions.js:24-31 | succeeds exactly when every suggestion does; then one presented suggestion per record, in order |
| Src.RowIds | src/lwc/campaignGroupingSuggestions/campaignGroupingSuggestions.js:115 | the rows' ids, in order |
| Src.FindSuggestion | src/lwc/campaignGroupingSuggestions/campaignGroupingSuggestions.js:113 | the suggestion found is the first in the list with the id; nothing is found exactly when no suggestion has the id |
| Src.Select | src/lwc/campaignGroupingSuggestions/campaignGroupingSuggestions.js:123-132 | an id is present afterwards exactly when it is the checked one, or it was present and is not the unchecked one; checking an id already present leaves the list as it is, checking a missing id appends it; unchecking removes every occurrence and keeps the rest in order; a duplicate-free list stays duplicate-free |
| Src.CheckThenUncheck | src/lwc/campaignGroupingSuggestions/campaignGroupingSuggestions.js:123-132 | checking a new id and unchecking it restores the list exactly |
| Src.UncheckThenCheck | src/lwc/campaignGroupingSuggestions/campaignGroupingSuggestions.js:123-132 | unchecking a present id and checking it again keeps the same ids |
| Src.DispositionCalls | src/lwc/campaignGroupingSuggestions/campaignGroupingSuggestions.js:85-89 | a settled request leaves the request first, then a refresh exactly when it succeeded |
| Src.DispositionToast | src/lwc/campaignGroupingSuggestions/campaignGroupingSuggestions.js:86-92 | the success text exactly on success, otherwise an error toast with the service's message |
| Src.CampaignGroupingSuggestions.constructor | src/lwc/campaignGroupingSuggestions/campaignGroupingSuggestions.js:10-15 | no suggestions, not loading, no modal, no selected suggestion, empty name and id list |
| Src.CampaignGroupingSuggestions.HasNoSuggestions | src/lwc/campaignGroupingSuggestions/campaignGroupingSuggestions.js:174-176 | true exactly when not loading and the list is empty; after a load that did not throw it holds exactly when the data was empty; after a successful approve, reject or save, or a save that threw, it is false because the spinner stays on |
| Src.CampaignGroupingSuggestions.EditModalCampaigns | src/lwc/campaignGroupingSuggestions/campaignGroupingSuggestions.js:178-185 | [] with no selected suggestion; otherwise one row per campaign, in order, checked exactly when its id is in the edited list |
| Src.CampaignGroupingSuggestions.ShowToast | src/lwc/campaignGroupingSuggestions/campaignGroupingSuggestions.js:165-172 | appends one toast with title, message and variant, and changes nothing else |
| Src.CampaignGroupingSuggestions.WiredSuggestions | src/lwc/campaignGroupingSuggestions/campaignGroupingSuggestions.js:18-37 | data replaces the list with its presentation and stops loading, unless presenting throws, which leaves the list; an error adds one prefixed error toast; the modal is never touched |
| Src.CampaignGroupingSuggestions.Dispose | src/lwc/campaignGroupingSuggestions/campaignGroupingSuggestions.js:83-93 | one request, a refresh exactly on success, one toast; the spinner stays on exactly when the request succeeded, so the empty-list message is hidden then |
| Src.CampaignGroupingSuggestions.HandleApprove | src/lwc/campaignGroupingSuggestions/campaignGroupingSuggestions.js:81-94 | an approve request for the id, then a refresh on success; the success or error toast; the spinner stays on after success; nothing else changes |
| Src.CampaignGroupingSuggestions.HandleReject | src/lwc/campaignGroupingSuggestions/campaignGroupingSuggestions.js:96-109 | as approve, with a reject request and its own success text |
| Src.CampaignGroupingSuggestions.HandleEdit | src/lwc/campaignGroupingSuggestions/campaignGroupingSuggestions.js:111-117 | the selected suggestion is the one found; when found, the modal opens with its suggested name and the ids of all its campaigns in order; when not, the handler throws with the rest untouched |
| Src.CampaignGroupingSuggestions.HandleInitiativeNameChange | src/lwc/campaignGroupingSuggestions/campaignGroupingSuggestions.js:119-121 | the edited name becomes the value, nothing else changes |
| Src.CampaignGroupingSuggestions.HandleCampaignSelection | src/lwc/campaignGroupingSuggestions/campaignGroupingSuggestions.js:123-132 | the id list becomes the selection update for the checkbox state and nothing else changes; checked ids stay within the selected suggestion |
| Src.CampaignGroupingSuggestions.CloseEditModal | src/lwc/campaignGroupingSuggestions/campaignGroupingSuggestions.js:158-163 | modal closed, no selected suggestion, empty name and id list, nothing else changed |
| Src.CampaignGroupingSuggestions.HandleSaveEdit | src/lwc/campaignGroupingSuggestions/campaignGroupingSuggestions.js:134-156 | an empty name or id list gives exactly one error toast, no request and no change (spaces pass); with no suggestion selected it throws after turning the spinner on; otherwise one modify request with the name as typed and the ids in order, then on success the modal closed, a refresh and the spinner left on, and on failure the modal intact and the spinner off |
| Variants.ConfidenceTiersAgree | src/lwc/campaignGroupingSuggestions/campaignGroupingSuggestions.js:63-68 | the src tiers (percentage against 90 and 70) and the force-app tiers (score against 0.9 and 0.7) put every score in the same tier |
| Variants.SpringSuggestionPresented | force-app/main/default/lwc/campaignGroupingSuggestions/campaignGroupingSuggestions.js:22-27 | a suggestion scored 0.95 with "Spring Email Blast" and "Spring SMS Push" is shown at 95%, in the high tier, with the campaigns detected as Email and SMS |
| Variants.EmailBlastDetected | force-app/main/default/lwc/campaignGroupingSuggestions/campaignGroupingSuggestions.js:52-53 | "Spring Email Blast" is detected as Email |
| Variants.SmsPushDetected | force-app/main/default/lwc/campaignGroupingSuggestions/campaignGroupingSuggestions.js:54-55 | "Spring SMS Push" is detected as SMS: it has no Email keyword and contains "sms" |
| Variants.FoundForEdit | force-app/main/default/lwc/campaignGroupingSuggestions/campaignGroupingSuggestions.js:116-128 | opening a loaded suggestion with two linked members finds it and pre-selects exactly their two campaign ids |
| Variants.SrcFoundForEdit | src/lwc/campaignGroupingSuggestions/campaignGroupingSuggestions.js:111-117 | in src, opening a loaded suggestion with two linked members finds it and lists their two campaign ids in order |
| Variants.UncheckSecond | src/lwc/campaignGroupingSuggestions/campaignGroupingSuggestions.js:130 | unchecking the second of two distinct ids leaves the first |

## Left out

- Src.FormatMember: the rows use the corrected icon lookup (`Src.GetChannelIcon`), so a row whose channel type names an Object.prototype property gets `standard:campaign`. The code as written puts the inherited member there instead, as `Src.ChannelIconAsWritten` and the finding below show. The two lookups are proved equal for every other channel type, absent included.
- `smartGroupingButton` is not part of this model. It makes one Apex call and shows a toast, and has no decision logic.
- The Apex controller, the `@wire` adapter, `refreshApex` and `ShowToastEvent` are modelled as log entries and an outcome parameter.
  - The model does not capture the refreshed data arriving later, or `refreshApex` itself rejecting.
  - A rejected request is assumed to carry `error.body.message`. A rejection without a body, which would throw inside the `catch`, is not modelled.
- `formatDate` wraps `Intl.DateTimeFormat` and is taken as a function parameter. The date format is not modelled.
- Confidence scores are reals, not IEEE-754 doubles.
  - `Math.round(score * 100)` and the comparisons of `confidence * 100` with 90 and 70 are exact here.
  - A double such as 0.7 * 100 = 70.00000000000001 can fall differently at a boundary.
- `toLowerCase` is modelled for ASCII letters only. Other Unicode case mappings leave characters unchanged here.
- Promise callbacks run to completion within the handler that issued the request. Interleavings of two requests in flight are not modelled.
- ForceApp.CampaignGroupingSuggestions.HandleSaveEdit: the selection is sent as a set. The order in which `Array.from` lists the ids (insertion order) is not modelled.
- ForceApp.CampaignGroupingSuggestions.HandleCampaignToggle: the id comes from a `data-` attribute.
  - The model takes it as the value it stands for, with `None` for an unlinked campaign whose id is null.
  - In the browser that attribute is then absent, and the id read back is `undefined`.
- `Campaign__c` and `Campaign__r` are merged into one optional linked campaign. Salesforce fills the relationship exactly when the lookup is set.
- Strings that may be null in the record are taken as present strings, and `detectChannelType` is assumed to receive a string:
  - `Original_Name__c`;
  - `Suggested_Initiative_Name__c`;
  - the linked campaign's name.

  A null original name, which would throw in `toLowerCase`, is not modelled.
- Src.CampaignGroupingSuggestions.HandleCampaignSelection: `push` mutates the array in place, and the model reassigns a `seq`. No other object holds that array, so no aliasing is lost.
- The `hasNoSuggestions` guard `!this.suggestions` never applies. The list is never null here.

## Findings

| source | as written | input that shows it | evidently intended | confidence | as-written member | corrected member |
|---|---|---|---|---|---|---|
| src/lwc/campaignGroupingSuggestions/campaignGroupingSuggestions.js:60 | `iconMap[channelType] \|\| 'standard:campaign'` reads inherited properties of the object literal, so a channel type naming one of them yields that function or object instead of an icon name | `Channel_Type__c = 'toString'` gives `Object.prototype.toString`, a function, as the row's icon | every channel type outside the map's own five keys gets `standard:campaign` | not executed | Src.ChannelIconAsWritten (with Src.ChannelIconAsWrittenLeaksPrototype) | Src.GetChannelIcon (with Src.ChannelIconAgreesOffPrototype) |
