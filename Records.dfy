/** The records both components receive from the `GroupingSuggestionController`
    Apex controller, as the wire adapter and the JavaScript code see them. */
module Records {
  import opened JsSemantics

  /** A Salesforce record id. */
  type Id = string

  /** The Campaign a member points at (`Campaign__c` together with the
      `Campaign__r` relationship). Salesforce fills the relationship exactly
      when the lookup is set, so the two are one optional value here. */
  datatype LinkedCampaign = LinkedCampaign(id: Id, name: string, createdDate: string)

  /** A `Campaign_Suggestion_Member__c` record. */
  datatype RawMember = RawMember(
    id: Id,
    campaign: Option<LinkedCampaign>,  // absent until the campaign exists
    originalName: string,              // Original_Name__c
    channelType: Option<string>        // Channel_Type__c
  )

  /** A `Campaign_Grouping_Suggestion__c` record with its members. The member
      relationship is left out of the record when the suggestion has none. */
  datatype RawSuggestion = RawSuggestion(
    id: Id,
    suggestedName: string,             // Suggested_Initiative_Name__c
    confidence: real,                  // Confidence_Score__c
    members: Option<seq<RawMember>>    // Campaign_Suggestion_Members__r
  )

  /** What the `@wire(getSuggestions)` adapter hands to `wiredSuggestions`:
      data, an error carrying `error.body.message`, or neither yet. */
  datatype WireResult = WireData(data: seq<RawSuggestion>) | WireError(message: string) | WirePending

  /** The member records of a suggestion, `[]` when the relationship is absent. */
  function MembersOrEmpty(members: Option<seq<RawMember>>): seq<RawMember> {
    match members
    case None => []
    case Some(ms) => ms
  }
}
