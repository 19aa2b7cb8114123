/**
 * `SupportTicketService`: the payload `create_ticket` sends (six copied
 * properties and the association list) and the recent-tickets page query.
 *
 * The SDK's create call is a function parameter.
 */
module TicketService {
  import opened Wrappers
  import opened Types
  import opened Cache
  import opened PageCache

  const HubspotDefined: string := "HUBSPOT_DEFINED"
  /** Association type "Ticket to Contact". */
  const TicketToContact: int := 16
  /** Association type "Ticket to Deal". */
  const TicketToDeal: int := 26

  /** The properties a ticket payload copies from the request. */
  const TicketFields: set<string> :=
    {"subject", "description", "category", "pipeline", "hs_ticket_priority", "hs_pipeline_stage"}

  datatype Association = Association(to: Json, category: string, typeId: int)

  /** The body sent to the ticket create call. */
  datatype TicketData = TicketData(properties: map<string, Json>, associations: seq<Association>)

  /** What `create_ticket` returns: the created ticket, or the error dict built from an ApiException. */
  datatype TicketReply =
    | Created(ticket: Json)
    | CreationFailed(error: string, statusCode: int, response: string)

  /** The payload's properties: the six ticket fields, each copied or null, and nothing else. */
  function TicketProperties(props: map<string, Json>): (p: map<string, Json>)
    ensures p.Keys == TicketFields && |p| == 6
    ensures forall f :: f in p ==> p[f] == PropOrNull(props, f)
    ensures "contact_id" !in p && "deal_ids" !in p
  {
    assert |TicketFields| == 6;
    map f | f in TicketFields :: PropOrNull(props, f)
  }

  /**
   * The deal ids iterated over: none when `deal_ids` is absent, a string as a
   * one-element list, a list as it is; any other value is not iterable and
   * raises TypeError.
   */
  function DealIds(props: map<string, Json>): (r: Result<seq<Json>, Error>)
    ensures "deal_ids" !in props ==> r == Success([])
    ensures "deal_ids" in props && props["deal_ids"].JStr? ==> r == Success([props["deal_ids"]])
    ensures "deal_ids" in props && props["deal_ids"].JList? ==> r == Success(props["deal_ids"].items)
    ensures r.Failure? <==> "deal_ids" in props && (props["deal_ids"].JNull? || props["deal_ids"].JNum?)
    ensures r.Failure? ==> r.error.TypeError?
  {
    if "deal_ids" !in props then Success([])
    else match props["deal_ids"]
      case JStr(_) => Success([props["deal_ids"]])
      case JList(items) => Success(items)
      case JNull => Failure(TypeError("'NoneType' object is not iterable"))
      case JNum(_) => Failure(TypeError("'int' object is not iterable"))
  }

  /**
   * `assoc` is the association list for `props` and `deals`: the contact
   * association first when `contact_id` is given, then one deal association
   * per deal id, in order.
   */
  ghost predicate AssociatedAs(props: map<string, Json>, deals: seq<Json>, assoc: seq<Association>) {
    var c := if "contact_id" in props then 1 else 0;
    && |assoc| == c + |deals|
    && ("contact_id" in props ==> assoc[0] == Association(props["contact_id"], HubspotDefined, TicketToContact))
    && (forall k :: 0 <= k < |deals| ==> assoc[c + k] == Association(deals[k], HubspotDefined, TicketToDeal))
  }

  /** The association list `create_ticket` builds by appending. */
  method BuildAssociations(props: map<string, Json>) returns (r: Result<seq<Association>, Error>)
    ensures r.Failure? <==> DealIds(props).Failure?
    ensures r.Failure? ==> r.error == DealIds(props).error
    ensures r.Success? ==> AssociatedAs(props, DealIds(props).value, r.value)
    ensures r.Success? ==> forall i :: 0 <= i < |r.value| ==>
              (r.value[i].typeId == TicketToContact <==> "contact_id" in props && i == 0)
    ensures r.Success? && "contact_id" !in props && "deal_ids" !in props ==> r.value == []
  {
    var assoc: seq<Association> := [];
    if "contact_id" in props {
      assoc := assoc + [Association(props["contact_id"], HubspotDefined, TicketToContact)];
    }
    var c := |assoc|;
    match DealIds(props)
    case Failure(e) =>
      return Failure(e);
    case Success(deals) =>
      for i := 0 to |deals|
        invariant |assoc| == c + i
        invariant "contact_id" in props ==> assoc[0] == Association(props["contact_id"], HubspotDefined, TicketToContact)
        invariant forall k :: 0 <= k < i ==> assoc[c + k] == Association(deals[k], HubspotDefined, TicketToDeal)
        invariant forall k :: c <= k < |assoc| ==> assoc[k].typeId == TicketToDeal
      {
        assoc := assoc + [Association(deals[i], HubspotDefined, TicketToDeal)];
      }
      r := Success(assoc);
  }

  /**
   * `create_ticket`: builds the payload and sends it; a create ApiException is
   * answered with an error dict instead of being raised.
   */
  method CreateTicket(props: map<string, Json>, create: TicketData -> Result<Json, ApiError>)
    returns (r: Result<TicketReply, Error>, sent: Option<TicketData>)
    ensures r.Failure? <==> DealIds(props).Failure?
    ensures r.Failure? ==> sent == None
    ensures r.Success? ==> sent.Some? && sent.value.properties == TicketProperties(props)
    ensures r.Success? ==> AssociatedAs(props, DealIds(props).value, sent.value.associations)
    ensures r.Success? && create(sent.value).Success? ==> r.value == Created(create(sent.value).value)
    ensures r.Success? && create(sent.value).Failure? ==>
              r.value == CreationFailed("Ticket creation failed", create(sent.value).error.status, create(sent.value).error.body)
  {
    var assoc := BuildAssociations(props);
    if assoc.Failure? {
      return Failure(assoc.error), None;
    }
    var data := TicketData(TicketProperties(props), assoc.value);
    sent := Some(data);
    match create(data)
    case Success(response) =>
      r := Success(Created(response));
    case Failure(ApiError(status, body)) =>
      r := Success(CreationFailed("Ticket creation failed", status, body));
  }

  /** `get_recent_tickets`: the page query on the "tickets" key namespace. */
  method GetRecentTickets(store: RedisClient, page: int, pageSize: int, api: Backend, now: int)
    returns (r: Result<seq<Record>, Error>, calls: seq<PageRequest>)
    modifies store
    ensures Served(r, store.entries, calls) == Serve(old(store.entries), "tickets", page, pageSize, api, now)
  {
    r, calls := GetRecentPage(store, "tickets", page, pageSize, api, now);
  }
}
