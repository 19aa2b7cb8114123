/**
 * `ContactService`: the create-or-update dispatch on the email search, the
 * recent-contacts page query and the 429 check of `handle_rate_limit`.
 *
 * The SDK's search, create and update calls are function parameters.
 */
module ContactService {
  import opened Wrappers
  import opened Types
  import opened Cache
  import opened PageCache

  /** A contact as the search API returns it. */
  datatype Contact = Contact(id: string, properties: map<string, Json>)

  /** One `{propertyName, operator, value}` filter of a search request. */
  datatype SearchFilter = SearchFilter(propertyName: string, operator: string, value: Json)

  type Search = SearchFilter -> Result<seq<Contact>, ApiError>

  /** The write `create_or_update_contact` sends: the payload's `properties`, and the id on an update. */
  datatype ContactWrite = Create(payload: map<string, Json>) | Update(id: string, payload: map<string, Json>)

  /** The search for an exact email match. */
  function EmailFilter(email: Json): SearchFilter {
    SearchFilter("email", "EQ", email)
  }

  /**
   * `_get_contact_by_email`: the first search result; no result and a search
   * error both count as "not found".
   */
  function FindByEmail(email: Json, search: Search): (r: Option<Contact>)
    ensures r.Some? <==> search(EmailFilter(email)).Success? && search(EmailFilter(email)).value != []
    ensures r.Some? ==> r.value == search(EmailFilter(email)).value[0]
  {
    match search(EmailFilter(email))
    case Success(results) => if results != [] then Some(results[0]) else None
    case Failure(_) => None
  }

  /** `_create_contact`'s payload: the email and whatever of the other three fields is given. */
  function CreatePayload(props: map<string, Json>): (p: map<string, Json>)
    requires "email" in props
    ensures p.Keys == {"email", "firstname", "lastname", "phone"}
    ensures p["email"] == props["email"]
    ensures forall f :: f in p && f in props ==> p[f] == props[f]
    ensures forall f :: f in p && f !in props ==> p[f] == JNull
  {
    map["email" := props["email"], "firstname" := PropOrNull(props, "firstname"),
        "lastname" := PropOrNull(props, "lastname"), "phone" := PropOrNull(props, "phone")]
  }

  /** `_update_contact`'s payload: all four fields are read with `[...]`, so the first missing one raises KeyError. */
  function UpdatePayload(props: map<string, Json>): (r: Result<map<string, Json>, Error>)
    ensures r.Success? <==> "email" in props && "firstname" in props && "lastname" in props && "phone" in props
    ensures r.Success? ==> r.value.Keys == {"email", "firstname", "lastname", "phone"}
                           && forall f :: f in r.value ==> r.value[f] == props[f]
    ensures r.Failure? ==> r.error.KeyError? && r.error.key !in props
    ensures "email" !in props ==> r == Failure(KeyError("email"))
    ensures "email" in props && "firstname" !in props ==> r == Failure(KeyError("firstname"))
    ensures "email" in props && "firstname" in props && "lastname" !in props ==> r == Failure(KeyError("lastname"))
    ensures "email" in props && "firstname" in props && "lastname" in props && "phone" !in props ==>
              r == Failure(KeyError("phone"))
  {
    if "email" !in props then Failure(KeyError("email"))
    else if "firstname" !in props then Failure(KeyError("firstname"))
    else if "lastname" !in props then Failure(KeyError("lastname"))
    else if "phone" !in props then Failure(KeyError("phone"))
    else Success(map["email" := props["email"], "firstname" := props["firstname"],
                     "lastname" := props["lastname"], "phone" := props["phone"]])
  }

  /**
   * `create_or_update_contact`'s choice: an update of the found contact when
   * the email search finds one, otherwise a create. `data["email"]` raises
   * KeyError when the email is missing.
   */
  function ChooseWrite(props: map<string, Json>, search: Search): (r: Result<ContactWrite, Error>)
    ensures "email" !in props ==> r == Failure(KeyError("email"))
    ensures "email" in props && FindByEmail(props["email"], search).None? ==> r == Success(Create(CreatePayload(props)))
    ensures "email" in props && FindByEmail(props["email"], search).Some? ==>
              && (r.Success? <==> UpdatePayload(props).Success?)
              && (r.Failure? ==> r.error == UpdatePayload(props).error)
              && (r.Success? ==> r == Success(Update(FindByEmail(props["email"], search).value.id, UpdatePayload(props).value)))
    ensures r.Failure? ==> r.error.KeyError?
  {
    if "email" !in props then Failure(KeyError("email"))
    else match FindByEmail(props["email"], search)
      case Some(contact) =>
        (match UpdatePayload(props)
         case Success(payload) => Success(Update(contact.id, payload))
         case Failure(e) => Failure(e))
      case None => Success(Create(CreatePayload(props)))
  }

  /** A write's answer, with a backend error re-raised as ApiException. */
  function Sent(answer: Result<Json, ApiError>): Result<Json, Error> {
    match answer
    case Success(response) => Success(response)
    case Failure(ApiError(status, body)) => Failure(ApiException(status, body))
  }

  /**
   * `create_or_update_contact`: sends the chosen write; a backend error is
   * re-raised as ApiException.
   */
  function CreateOrUpdateContact(props: map<string, Json>, search: Search,
                                 write: ContactWrite -> Result<Json, ApiError>): (r: Result<Json, Error>)
    ensures "email" !in props ==> r == Failure(KeyError("email"))
    ensures "email" in props && FindByEmail(props["email"], search).None? ==>
              r == Sent(write(Create(CreatePayload(props))))
    ensures "email" in props && FindByEmail(props["email"], search).Some? && UpdatePayload(props).Failure? ==>
              r == Failure(UpdatePayload(props).error)
    ensures "email" in props && FindByEmail(props["email"], search).Some? && UpdatePayload(props).Success? ==>
              r == Sent(write(Update(FindByEmail(props["email"], search).value.id, UpdatePayload(props).value)))
    ensures r.Failure? ==> r.error.KeyError? || r.error.ApiException?
  {
    match ChooseWrite(props, search)
    case Failure(e) => Failure(e)
    case Success(w) => Sent(write(w))
  }

  /**
   * With all four fields given, as the contact validator requires, the contact
   * is updated exactly when the email search found it, and then under the
   * found id.
   */
  lemma UpdateIffFound(props: map<string, Json>, search: Search)
    requires "email" in props
    requires UpdatePayload(props).Success?
    ensures ChooseWrite(props, search).Success?
    ensures ChooseWrite(props, search).value.Update? <==> FindByEmail(props["email"], search).Some?
    ensures ChooseWrite(props, search).value.Update? ==>
              ChooseWrite(props, search).value.id == search(EmailFilter(props["email"])).value[0].id
  {
  }

  /** A failing search is taken for "not found" and leads to a create. */
  lemma SearchErrorCreates(props: map<string, Json>, search: Search)
    requires "email" in props
    requires search(EmailFilter(props["email"])).Failure?
    ensures ChooseWrite(props, search) == Success(Create(CreatePayload(props)))
  {
  }

  /** `get_recent_contacts`: the page query on the "contacts" key namespace. */
  method GetRecentContacts(store: RedisClient, page: int, pageSize: int, api: Backend, now: int)
    returns (r: Result<seq<Record>, Error>, calls: seq<PageRequest>)
    modifies store
    ensures Served(r, store.entries, calls) == Serve(old(store.entries), "contacts", page, pageSize, api, now)
  {
    r, calls := GetRecentPage(store, "contacts", page, pageSize, api, now);
  }

  /** `handle_rate_limit`'s answer: retry after some seconds, or go on. */
  datatype RateLimit = Proceed | RetryAfter(seconds: int)

  /**
   * `handle_rate_limit`: a retry exactly on status 429, waiting for the
   * Retry-After header (1 when it is absent).
   */
  function HandleRateLimit(status: int, retryAfter: Option<int>): (r: RateLimit)
    ensures r.RetryAfter? <==> status == 429
    ensures r.RetryAfter? && retryAfter.None? ==> r.seconds == 1
    ensures r.RetryAfter? && retryAfter.Some? ==> r.seconds == retryAfter.value
  {
    if status == 429 then RetryAfter(retryAfter.GetOr(1)) else Proceed
  }
}
