/**
 * The webhook the identity provider calls when an account is created: it
 * checks the request's signature and, for a "user.created" event, adds a
 * user record to the application's database.
 */
module UserCreated {
  import opened Wrappers
  import opened Text

  /** One entry of the event's list of e-mail addresses. */
  datatype EmailAddress = EmailAddress(emailAddress: string)

  /** The `data` part of the event; any field may be missing from the JSON. */
  datatype UserData = UserData(
    id: string,
    emailAddresses: Option<seq<EmailAddress>>,
    username: Option<string>,
    firstName: Option<string>,
    lastName: Option<string>,
    imageUrl: Option<string>)

  /** A verified event: its id, its type and its data. */
  datatype ClerkEvent = ClerkEvent(id: string, eventType: string, data: UserData)

  /** The three signature headers, as read from the request. */
  datatype SvixHeaders = SvixHeaders(id: Option<string>, timestamp: Option<string>, signature: Option<string>)

  /** An incoming HTTP request: its method, its headers and its raw body. */
  datatype Request = Request(httpMethod: string, headers: map<string, string>, payload: seq<bv8>)

  /**
   * Signature verification with the configured secret: the parsed event when
   * the signature over the payload and headers is valid, `None` when
   * verification throws.
   */
  type Verifier = (seq<bv8>, SvixHeaders) -> Option<ClerkEvent>

  /** The record written to the `user` table. */
  datatype UserRecord = UserRecord(
    clerkId: string,
    email: Option<string>,
    username: Option<string>,
    name: string,
    avatarUrl: Option<string>)

  datatype Body = PlainText(text: string) | ErrorJson(error: string) | SuccessJson(success: bool)

  datatype Response = Response(status: int, body: Body)

  /** What handling one request produces: the response and the record created, if any. */
  datatype Outcome = Outcome(response: Response, created: Option<UserRecord>)

  /** The event type that provisions a user. */
  const UserCreatedType := "user.created"

  /** A header's value, if the request carries it. */
  function Header(req: Request, name: string): (r: Option<string>)
    ensures r.Some? <==> name in req.headers
    ensures r.Some? ==> r.value == req.headers[name]
  {
    if name in req.headers then Some(req.headers[name]) else None
  }

  /** The object of signature headers handed to verification. */
  function SvixHeadersOf(req: Request): (h: SvixHeaders)
    ensures h.id.Some? <==> "svix-id" in req.headers
    ensures h.timestamp.Some? <==> "svix-timestamp" in req.headers
    ensures h.signature.Some? <==> "svix-signature" in req.headers
    ensures h.id.Some? ==> h.id.value == req.headers["svix-id"]
    ensures h.timestamp.Some? ==> h.timestamp.value == req.headers["svix-timestamp"]
    ensures h.signature.Some? ==> h.signature.value == req.headers["svix-signature"]
  {
    SvixHeaders(Header(req, "svix-id"), Header(req, "svix-timestamp"), Header(req, "svix-signature"))
  }

  /** `email_addresses?.[0]?.email_address`: the first address, absent when the list is missing or empty. */
  function FirstEmail(addresses: Option<seq<EmailAddress>>): (r: Option<string>)
    ensures r.Some? <==> addresses.Some? && |addresses.value| > 0
    ensures r.Some? ==> r.value == addresses.value[0].emailAddress
  {
    match addresses
    case Some(list) => if |list| > 0 then Some(list[0].emailAddress) else None
    case None => None
  }

  /** `value || ''`: the string, or the empty string when it is missing. */
  function OrEmpty(value: Option<string>): (r: string)
    ensures value.Some? ==> r == value.value
    ensures value.None? ==> r == ""
  {
    value.GetOr("")
  }

  /** The display name: first and last name joined by a space, white space trimmed at both ends. */
  function DisplayName(firstName: Option<string>, lastName: Option<string>): (r: string)
    ensures Trimmed(r)
    ensures |r| <= |OrEmpty(firstName)| + 1 + |OrEmpty(lastName)|
  {
    Trim(OrEmpty(firstName) + " " + OrEmpty(lastName))
  }

  /** Both names, each without outer white space: "First Last". */
  lemma DisplayNameBoth(first: string, last: string)
    requires first != [] && last != [] && Trimmed(first) && Trimmed(last)
    ensures DisplayName(Some(first), Some(last)) == first + " " + last
  {
    var s := first + " " + last;
    assert Trimmed(s) by {
      assert s[0] == first[0] && s[|s| - 1] == last[|last| - 1];
    }
    TrimAround([], s, []);
    assert [] + s + [] == s;
  }

  /** Only a last name, missing or empty first name: the last name alone. */
  lemma DisplayNameLastOnly(first: Option<string>, last: string)
    requires first.None? || first.value == ""
    requires Trimmed(last)
    ensures DisplayName(first, Some(last)) == last
  {
    TrimAround(" ", last, []);
    assert " " + last + [] == OrEmpty(first) + " " + last;
  }

  /** Only a first name, missing or empty last name: the first name alone. */
  lemma DisplayNameFirstOnly(first: string, last: Option<string>)
    requires last.None? || last.value == ""
    requires Trimmed(first)
    ensures DisplayName(Some(first), last) == first
  {
    TrimAround([], first, " ");
    assert [] + first + " " == first + " " + OrEmpty(last);
  }

  /** Neither name: the empty string, not a lone space. */
  lemma DisplayNameNeither(first: Option<string>, last: Option<string>)
    requires first.None? || first.value == ""
    requires last.None? || last.value == ""
    ensures DisplayName(first, last) == ""
  {
    TrimAround(" ", [], []);
    assert " " + [] + [] == OrEmpty(first) + " " + OrEmpty(last);
  }

  /** The record created from an event's data. */
  function ToUserRecord(data: UserData): (u: UserRecord)
    ensures u.clerkId == data.id
    ensures u.username == data.username && u.avatarUrl == data.imageUrl
    ensures u.email.Some? <==> data.emailAddresses.Some? && |data.emailAddresses.value| > 0
    ensures u.email.Some? ==> u.email.value == data.emailAddresses.value[0].emailAddress
    ensures u.name == DisplayName(data.firstName, data.lastName)
    ensures Trimmed(u.name)
  {
    UserRecord(
      clerkId := data.id,
      email := FirstEmail(data.emailAddresses),
      username := data.username,
      name := DisplayName(data.firstName, data.lastName),
      avatarUrl := data.imageUrl)
  }

  /**
   * The handler's decision for one request: 405 for any method other than
   * POST; 400 "Invalid webhook" when verification fails; otherwise 200
   * `{ success: true }`, with one new record exactly when the event is
   * "user.created".
   */
  function Handle(req: Request, verify: Verifier): (out: Outcome)
    ensures req.httpMethod != "POST" ==>
              out == Outcome(Response(405, PlainText("Method Not Allowed")), None)
    ensures req.httpMethod == "POST" && verify(req.payload, SvixHeadersOf(req)).None? ==>
              out == Outcome(Response(400, ErrorJson("Invalid webhook")), None)
    ensures req.httpMethod == "POST" && verify(req.payload, SvixHeadersOf(req)).Some? ==>
              var evt := verify(req.payload, SvixHeadersOf(req)).value;
              && out.response == Response(200, SuccessJson(true))
              && (out.created.Some? <==> evt.eventType == UserCreatedType)
              && (out.created.Some? ==> out.created.value == ToUserRecord(evt.data))
  {
    if req.httpMethod != "POST" then
      Outcome(Response(405, PlainText("Method Not Allowed")), None)
    else
      match verify(req.payload, SvixHeadersOf(req))
      case None => Outcome(Response(400, ErrorJson("Invalid webhook")), None)
      case Some(evt) =>
        var created := if evt.eventType == UserCreatedType then Some(ToUserRecord(evt.data)) else None;
        Outcome(Response(200, SuccessJson(true)), created)
  }

  /** A request that is not a POST is answered without consulting the verifier. */
  lemma NonPostIgnoresVerifier(req: Request, v1: Verifier, v2: Verifier)
    requires req.httpMethod != "POST"
    ensures Handle(req, v1) == Handle(req, v2)
  {
  }

  /** A record is created only for a POST whose verified event is "user.created". */
  lemma CreatedOnlyForUserCreated(req: Request, verify: Verifier)
    ensures Handle(req, verify).created.Some? <==>
              && req.httpMethod == "POST"
              && verify(req.payload, SvixHeadersOf(req)).Some?
              && verify(req.payload, SvixHeadersOf(req)).value.eventType == UserCreatedType
  {
  }

  /** Status 200 is given exactly to a POST that verifies. */
  lemma SuccessIffVerifiedPost(req: Request, verify: Verifier)
    ensures Handle(req, verify).response.status == 200 <==>
              req.httpMethod == "POST" && verify(req.payload, SvixHeadersOf(req)).Some?
  {
  }

  /** The records as a list: empty, or the one created record. */
  function Created(out: Outcome): (r: seq<UserRecord>)
    ensures |r| <= 1
    ensures out.created.Some? ==> r == [out.created.value]
    ensures out.created.None? ==> r == []
  {
    if out.created.Some? then [out.created.value] else []
  }

  /** The `user` table, seen as the list of records created so far. */
  class UserStore {
    var users: seq<UserRecord>

    constructor ()
      ensures users == []
    {
      users := [];
    }

    /** `prisma.user.create`: appends one record. */
    method Create(record: UserRecord)
      modifies this
      ensures users == old(users) + [record]
    {
      users := users + [record];
    }
  }

  /** The request handler: early returns for the error cases, then at most one insert. */
  method Handler(req: Request, verify: Verifier, db: UserStore) returns (res: Response)
    modifies db
    ensures res == Handle(req, verify).response
    ensures db.users == old(db.users) + Created(Handle(req, verify))
  {
    if req.httpMethod != "POST" {
      return Response(405, PlainText("Method Not Allowed"));
    }
    var headers := SvixHeadersOf(req);
    var evt := verify(req.payload, headers);
    if evt.None? {
      return Response(400, ErrorJson("Invalid webhook"));
    }
    if evt.value.eventType == UserCreatedType {
      db.Create(ToUserRecord(evt.value.data));
    }
    res := Response(200, SuccessJson(true));
  }

  /**
   * The payload of the example account: "a@b.com", "A" and "B" give a user
   * named "A B" with that address.
   */
  lemma ExampleAccount(id: string)
    ensures var u := ToUserRecord(UserData(id, Some([EmailAddress("a@b.com")]), None, Some("A"), Some("B"), None));
            u.name == "A B" && u.email == Some("a@b.com") && u.clerkId == id
  {
    DisplayNameBoth("A", "B");
  }
}
