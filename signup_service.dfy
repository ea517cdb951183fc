/**
 * The client side of the sign-up call: the request body built from the form,
 * and the way the reply (or its absence) becomes either the parsed body or an
 * error whose `details` map the form can show.
 *
 * The HTTP exchange itself is the parameter `server`: it maps the request
 * body to what came back. Date parsing (`new Date(s)`) and formatting
 * (`toISOString().split('T')[0]`) are the parameters `parseDate` and `isoDay`.
 */
module SignupService {
  import opened Wrappers

  /** The keys of the sign-up form. */
  const FieldNames: set<string> :=
    {"username", "email", "password", "phoneNumber", "gender", "birthday", "image"}

  /** The form holds a value for every one of its fields: `FieldNames <= form.Keys`,
      spelled out key by key. */
  predicate HasFields(form: map<string, string>)
  {
    && "username" in form && "email" in form && "password" in form && "phoneNumber" in form
    && "gender" in form && "birthday" in form && "image" in form
  }

  /** The spelled-out membership tests are exactly the field names. */
  lemma HasFieldsIsFieldNames(form: map<string, string>)
    ensures HasFields(form) <==> FieldNames <= form.Keys
  {
    if FieldNames <= form.Keys {
      assert "username" in FieldNames && "email" in FieldNames && "password" in FieldNames;
      assert "phoneNumber" in FieldNames && "gender" in FieldNames && "birthday" in FieldNames;
      assert "image" in FieldNames;
    }
  }

  /** The JSON body posted to the sign-up endpoint; `birthday` is `null` when the
      form left it empty. */
  datatype SignupRequest = SignupRequest(
    username: string,
    password: string,
    email: string,
    phoneNumber: string,
    gender: string,
    birthday: Option<string>,
    image: string)

  /** `transformedData`: the form's fields copied over, the birthday reformatted as a
      calendar day. `None` stands for the `RangeError` that `toISOString` throws on
      a birthday the date parser rejects. */
  function TransformedData(form: map<string, string>, parseDate: string -> Option<int>, isoDay: int -> string)
    : (r: Option<SignupRequest>)
    requires HasFields(form)
    ensures r.None? <==> form["birthday"] != "" && parseDate(form["birthday"]).None?
  {
    var birthday := form["birthday"];
    if birthday == "" then
      Some(SignupRequest(form["username"], form["password"], form["email"], form["phoneNumber"],
        form["gender"], None, form["image"]))
    else
      match parseDate(birthday)
      case None => None
      case Some(time) =>
        Some(SignupRequest(form["username"], form["password"], form["email"], form["phoneNumber"],
          form["gender"], Some(isoDay(time)), form["image"]))
  }

  /** Every field but the birthday is sent as typed; the birthday is `null` exactly
      when it was left empty and otherwise is the calendar day of the parsed date. */
  lemma TransformedDataCopiesFields(form: map<string, string>, parseDate: string -> Option<int>, isoDay: int -> string)
    requires HasFields(form)
    requires TransformedData(form, parseDate, isoDay).Some?
    ensures var req := TransformedData(form, parseDate, isoDay).value;
      && req.username == form["username"] && req.password == form["password"]
      && req.email == form["email"] && req.phoneNumber == form["phoneNumber"]
      && req.gender == form["gender"] && req.image == form["image"]
      && (req.birthday.None? <==> form["birthday"] == "")
      && (req.birthday.Some? ==> req.birthday.value == isoDay(parseDate(form["birthday"]).value))
  {
  }

  /** A parsed JSON reply body: `null`, or an object whose `details` and `message`
      members may be missing. */
  datatype Json = Null | Object(details: Option<map<string, string>>, message: Option<string>)

  /** What `fetch` produced: no response at all, or a status with the body that
      `response.json()` parsed (`None` when the body was not JSON). */
  datatype Reply = NoResponse | Response(status: int, body: Option<Json>)

  /** The `{ response: { status, data: { details } } }` object the service throws. */
  datatype SignupError = SignupError(status: Option<int>, details: map<string, string>)

  /** The settled promise of `signup`. */
  datatype Outcome = Resolved(data: Json) | Rejected(error: SignupError)

  const NetworkMessage: string :=
    "Unable to connect to the server. Please check your internet connection and try again."

  /** The error reported whenever no server response can be read. */
  const NetworkError: SignupError := SignupError(None, map["general" := NetworkMessage])

  /** `response.ok`. */
  predicate IsOk(status: int)
  {
    200 <= status < 300
  }

  /** JavaScript truthiness of an optional string: present and not empty. */
  predicate Truthy(s: Option<string>)
  {
    s.Some? && s.value != ""
  }

  /** `s || fallback`. */
  function OrElse(s: Option<string>, fallback: string): string
  {
    if Truthy(s) then s.value else fallback
  }

  /** The reply handling of `signup` together with its `catch`. */
  function Classify(reply: Reply): Outcome
  {
    match reply
    case NoResponse => Rejected(NetworkError)
    case Response(status, None) => Rejected(NetworkError)
    case Response(status, Some(data)) =>
      if IsOk(status) then Resolved(data)
      else
        match data
        case Null => Rejected(NetworkError)
        case Object(details, message) =>
          if status == 400 then
            Rejected(SignupError(Some(400),
              if details.Some? then details.value else map["general" := OrElse(message, "Validation failed")]))
          else
            Rejected(SignupError(Some(status), map["general" := OrElse(message, "Server error occurred")]))
  }

  /** `errorDetails.general` is truthy. */
  predicate HasGeneral(details: map<string, string>)
  {
    "general" in details && details["general"] != ""
  }

  /** `signup(formData)` with the exchange given by `server`. It resolves exactly
      with the JSON body of a 2xx reply to the request built from the form, and a
      400 reply's `details` reach the caller unchanged. Every other rejection
      carries a non-empty `general` message; a rejection without a status carries
      only the connection message. */
  function Signup(form: map<string, string>, parseDate: string -> Option<int>, isoDay: int -> string,
                  server: SignupRequest -> Reply): (r: Outcome)
    requires HasFields(form)
    ensures var req := TransformedData(form, parseDate, isoDay);
      r.Resolved? ==> req.Some? && server(req.value).Response? && IsOk(server(req.value).status) &&
                      server(req.value).body == Some(r.data)
    ensures var req := TransformedData(form, parseDate, isoDay);
      r.Rejected? && !HasGeneral(r.error.details) ==>
        req.Some? && server(req.value).Response? && server(req.value).status == 400
    ensures r.Rejected? && r.error.status.None? ==> r.error == NetworkError
    ensures var req := TransformedData(form, parseDate, isoDay);
      (req.Some? && server(req.value).Response? && IsOk(server(req.value).status) &&
       server(req.value).body.Some?) ==> r == Resolved(server(req.value).body.value)
    ensures var req := TransformedData(form, parseDate, isoDay);
      (req.Some? && server(req.value).Response? && server(req.value).status == 400 &&
       server(req.value).body.Some? && server(req.value).body.value.Object? &&
       server(req.value).body.value.details.Some?) ==>
        r == Rejected(SignupError(Some(400), server(req.value).body.value.details.value))
  {
    match TransformedData(form, parseDate, isoDay)
    case None => Rejected(NetworkError)
    case Some(request) => Classify(server(request))
  }

  /** The call resolves exactly when a response with a 2xx status had a JSON body,
      and then with that body unchanged. */
  lemma ClassifyResolvedIff(reply: Reply)
    ensures Classify(reply).Resolved? <==> reply.Response? && IsOk(reply.status) && reply.body.Some?
    ensures Classify(reply).Resolved? ==> Classify(reply).data == reply.body.value
  {
  }

  /** A rejection carries no status exactly when no server reply could be read: no
      response, a body that is not JSON, or a failing status with a `null` body. */
  lemma ClassifyStatusIff(reply: Reply)
    requires Classify(reply).Rejected?
    ensures Classify(reply).error.status.None? <==>
      reply.NoResponse? || reply.body.None? || reply.body.value.Null?
    ensures Classify(reply).error.status.Some? ==> Classify(reply).error.status.value == reply.status
  {
  }

  /** Every rejection except a 400 with server-supplied details reports exactly one
      entry, `general`, and that entry is never empty: the server's message or the
      fixed text for the case. */
  lemma ClassifyGeneralMessage(reply: Reply)
    requires Classify(reply).Rejected?
    requires !(reply.Response? && reply.status == 400 && reply.body.Some? &&
               reply.body.value.Object? && reply.body.value.details.Some?)
    ensures var details := Classify(reply).error.details;
      && details.Keys == {"general"}
      && details["general"] != ""
      && (reply.NoResponse? || reply.body.None? || reply.body.value.Null? ==>
            details["general"] == NetworkMessage)
      && (reply.Response? && !IsOk(reply.status) && reply.body.Some? && reply.body.value.Object? ==>
            details["general"] ==
              if Truthy(reply.body.value.message) then reply.body.value.message.value
              else if reply.status == 400 then "Validation failed" else "Server error occurred")
  {
  }

  /** A 400 reply with a `details` object hands those details to the form as they are. */
  lemma ClassifyValidationDetails(status: int, details: map<string, string>, message: Option<string>)
    requires status == 400
    ensures Classify(Response(status, Some(Object(Some(details), message)))) ==
      Rejected(SignupError(Some(400), details))
  {
  }

  /** A birthday the date parser rejects never reaches the server: the call fails
      with the connection message whatever the server would have answered. */
  lemma UnparseableBirthdayReportsNetwork(form: map<string, string>, parseDate: string -> Option<int>,
                                          isoDay: int -> string, server: SignupRequest -> Reply,
                                          other: SignupRequest -> Reply)
    requires HasFields(form)
    requires form["birthday"] != "" && parseDate(form["birthday"]).None?
    ensures Signup(form, parseDate, isoDay, server) == Rejected(NetworkError)
    ensures Signup(form, parseDate, isoDay, server) == Signup(form, parseDate, isoDay, other)
  {
  }
}
