/** The `POST /api/generate` handler recast as one pure function: the request
    fields, the configured credential and the provider's behaviour go in; the
    HTTP response and the outbound request (if one was issued) come out. */
module Relay {
  import opened JsValues
  import Decimal
  import Prompt

  /** The JSON request body; each field may be missing. */
  datatype GenerateRequest = GenerateRequest(faith: Option<string>, sdg: Option<string>, description: Option<string>)

  /** One result entry of the provider's reply: a hosted URL, inline base64
      image bytes, either or neither. */
  datatype ImageEntry = ImageEntry(url: Option<string>, b64Json: Option<string>)

  /** The provider's parsed JSON reply, reduced to what the handler looks at:
      the first entry of `data`, which may be missing. */
  datatype ImagesBody = ImagesBody(first: Option<ImageEntry>)

  /** What the provider call does. Either the request fails outright (a
      network error), or the provider answers with a status and a body that
      can be read as text or parsed as JSON; each read may itself fail. The
      handler reads the body in only one of the two ways. */
  datatype ProviderOutcome =
    | Replied(status: nat, text: Awaited<string>, json: Awaited<ImagesBody>)
    | FetchFailed(error: Thrown)

  /** The outbound request to the image-generation endpoint. */
  datatype ImageRequest = ImageRequest(
    endpoint: string,
    authorization: string,
    model: string,
    prompt: string,
    size: string,
    n: nat)

  /** The optional `detail` member of an error payload. */
  datatype Detail = NoDetail | RawText(text: string) | ParsedBody(body: ImagesBody)

  /** The JSON payload sent back: an image URL or an error, never both. */
  datatype Payload = ImageUrl(url: string) | ErrorBody(error: string, detail: Detail)

  datatype Response = Response(status: nat, payload: Payload)

  /** The handler's observable effect: the response it sends and the
      request it issued to the provider, if any. */
  datatype Exchange = Exchange(response: Response, sent: Option<ImageRequest>)

  const MissingFieldsMessage := "Please provide 'faith' and 'sdg' fields."
  const MissingKeyMessage := "OPENAI_API_KEY is not set in .env"
  const NoImageMessage := "No image data returned from API"
  const ApiErrorPrefix := "Image API error: "
  const KeyPlaceholder := "add your key"
  const ProviderEndpoint := "https://api.openai.com/v1/images/generations"
  const ImageModel := "gpt-image-1"
  const ImageSize := "1024x1024"
  const DataUriPrefix := "data:image/png;base64,"

  /** Both required fields are truthy; whitespace-only values pass. */
  predicate FieldsPresent(req: GenerateRequest) {
    Truthy(req.faith) && Truthy(req.sdg)
  }

  /** The credential is set and is not the placeholder shipped in the sample configuration. */
  predicate KeyUsable(key: Option<string>) {
    Truthy(key) && key.value != KeyPlaceholder
  }

  /** The provider status counts as success (`Response.ok`). */
  predicate IsOk(status: nat) {
    200 <= status <= 299
  }

  /** The first entry carries a truthy hosted URL. */
  predicate HasUrl(body: ImagesBody) {
    body.first.Some? && Truthy(body.first.value.url)
  }

  /** The first entry carries truthy inline base64 data. */
  predicate HasB64(body: ImagesBody) {
    body.first.Some? && Truthy(body.first.value.b64Json)
  }

  /** The credential carried by a bearer authorization header, if the header is one. */
  function BearerToken(header: string): (k: Option<string>)
    ensures k.Some? <==> |header| >= 7 && header[..7] == "Bearer "
    ensures k.Some? ==> header == "Bearer " + k.value
  {
    if |header| >= 7 && header[..7] == "Bearer " then Some(header[7..]) else None
  }

  /** The request sent to the provider for a prompt and a credential. */
  function OutboundRequest(prompt: string, key: string): (r: ImageRequest)
    ensures r.prompt == prompt
    ensures r.model == "gpt-image-1" && r.size == "1024x1024" && r.n == 1
    ensures BearerToken(r.authorization) == Some(key)
  {
    assert ("Bearer " + key)[..7] == "Bearer ";
    assert ("Bearer " + key)[7..] == key;
    ImageRequest(ProviderEndpoint, "Bearer " + key, ImageModel, prompt, ImageSize, 1)
  }

  /** The displayable image reference in a parsed reply: the hosted URL when
      it is truthy, otherwise the base64 data wrapped as a PNG data URI,
      otherwise nothing. */
  function ImageUrlOf(body: ImagesBody): (u: Option<string>)
    ensures u.Some? <==> HasUrl(body) || HasB64(body)
    ensures HasUrl(body) ==> u == body.first.value.url
    ensures !HasUrl(body) && HasB64(body) ==>
      |u.value| == |DataUriPrefix| + |body.first.value.b64Json.value|
      && u.value[..|DataUriPrefix|] == DataUriPrefix
      && u.value[|DataUriPrefix|..] == body.first.value.b64Json.value
    ensures u.Some? ==> u.value != ""
  {
    if HasUrl(body) then body.first.value.url
    else if HasB64(body) then Some(DataUriPrefix + body.first.value.b64Json.value)
    else None
  }

  /** The response of the catch-all for a thrown error. */
  function Caught(err: Thrown): (r: Response)
    ensures r.status == 500 && r.payload.ErrorBody? && r.payload.detail == NoDetail
    ensures r.payload.error == ErrorText(err)
  {
    Response(500, ErrorBody(ErrorText(err), NoDetail))
  }

  /** The response built from the provider's behaviour once the request has
      been sent: a failing status is reported with the raw text and the body
      is not parsed; a successful status has its JSON body normalised. */
  function FromProvider(outcome: ProviderOutcome): (r: Response)
    ensures r.status in {200, 500, 502}
    ensures r.status == 200 <==> r.payload.ImageUrl?
    ensures r.status == 502 <==>
      outcome.Replied? && !IsOk(outcome.status) && outcome.text.Resolved?
    ensures r.status == 502 ==>
      r.payload == ErrorBody(ApiErrorPrefix + Decimal.Show(outcome.status), RawText(outcome.text.value))
    ensures r.status == 200 <==>
      outcome.Replied? && IsOk(outcome.status) && outcome.json.Resolved?
      && (HasUrl(outcome.json.value) || HasB64(outcome.json.value))
    ensures r.status == 200 ==> Some(r.payload.url) == ImageUrlOf(outcome.json.value)
  {
    match outcome
    case FetchFailed(err) => Caught(err)
    case Replied(status, text, json) =>
      if !IsOk(status) then
        match text
        case Rejected(err) => Caught(err)
        case Resolved(t) => Response(502, ErrorBody(ApiErrorPrefix + Decimal.Show(status), RawText(t)))
      else
        match json
        case Rejected(err) => Caught(err)
        case Resolved(body) =>
          match ImageUrlOf(body)
          case None => Response(500, ErrorBody(NoImageMessage, ParsedBody(body)))
          case Some(url) => Response(200, ImageUrl(url))
  }

  /** The handler: validate the fields, then the credential, then call the
      provider and interpret its reply. Every path ends in exactly one
      response, and the provider is called only once both checks pass. */
  function Handle(req: GenerateRequest, key: Option<string>, outcome: ProviderOutcome): (x: Exchange)
    ensures x.response.status == 400 <==> !FieldsPresent(req)
    ensures !FieldsPresent(req) ==> x.response.payload == ErrorBody(MissingFieldsMessage, NoDetail)
    ensures FieldsPresent(req) && !KeyUsable(key) ==>
      x.response == Response(500, ErrorBody(MissingKeyMessage, NoDetail))
    ensures x.sent.Some? <==> FieldsPresent(req) && KeyUsable(key)
    ensures x.sent.Some? ==>
      x.sent.value.prompt == Prompt.Compose(req.faith.value, req.sdg.value, req.description)
      && x.sent.value.model == "gpt-image-1" && x.sent.value.size == "1024x1024" && x.sent.value.n == 1
    ensures x.sent.Some? ==>
      x.sent.value == OutboundRequest(Prompt.Compose(req.faith.value, req.sdg.value, req.description), key.value)
    ensures x.sent.Some? ==> x.response == FromProvider(outcome)
    ensures x.response.status in {200, 400, 500, 502}
    ensures x.response.status == 200 <==> x.response.payload.ImageUrl?
  {
    if !FieldsPresent(req) then
      Exchange(Response(400, ErrorBody(MissingFieldsMessage, NoDetail)), None)
    else
      var prompt := Prompt.Compose(req.faith.value, req.sdg.value, req.description);
      if !KeyUsable(key) then
        Exchange(Response(500, ErrorBody(MissingKeyMessage, NoDetail)), None)
      else
        Exchange(FromProvider(outcome), Some(OutboundRequest(prompt, key.value)))
  }

  /** Missing fields are reported the same way whatever the credential and
      whatever the provider would have done: validation comes first. */
  lemma ValidationComesFirst(req: GenerateRequest, k1: Option<string>, k2: Option<string>,
                             o1: ProviderOutcome, o2: ProviderOutcome)
    requires !FieldsPresent(req)
    ensures Handle(req, k1, o1) == Handle(req, k2, o2)
    ensures Handle(req, k1, o1).sent == None
  {
  }

  /** The credential only decides whether the provider is called: for a
      given provider behaviour, any two usable credentials lead to the same
      response. */
  lemma ResponseIndependentOfKey(req: GenerateRequest, k1: Option<string>, k2: Option<string>, o: ProviderOutcome)
    requires KeyUsable(k1) && KeyUsable(k2)
    ensures Handle(req, k1, o).response == Handle(req, k2, o).response
  {
  }

  /** A failing provider status is reported without parsing the body as JSON:
      what parsing would have given makes no difference. */
  lemma FailingStatusNotParsed(status: nat, text: Awaited<string>, j1: Awaited<ImagesBody>, j2: Awaited<ImagesBody>)
    requires !IsOk(status)
    ensures FromProvider(Replied(status, text, j1)) == FromProvider(Replied(status, text, j2))
  {
  }

  /** Different failing statuses give different error messages. */
  lemma StatusMessagesDistinct(a: nat, b: nat)
    requires a != b
    ensures ApiErrorPrefix + Decimal.Show(a) != ApiErrorPrefix + Decimal.Show(b)
  {
    if ApiErrorPrefix + Decimal.Show(a) == ApiErrorPrefix + Decimal.Show(b) {
      assert Decimal.Show(a) == (ApiErrorPrefix + Decimal.Show(a))[|ApiErrorPrefix|..];
      assert Decimal.Show(b) == (ApiErrorPrefix + Decimal.Show(b))[|ApiErrorPrefix|..];
      Decimal.ShowInjective(a, b);
    }
  }

  /** The inline data carried by a PNG data URI, if the string is one. */
  function InlineData(u: string): (d: Option<string>)
    ensures d.Some? ==> u == DataUriPrefix + d.value
  {
    if |DataUriPrefix| <= |u| && u[..|DataUriPrefix|] == DataUriPrefix then Some(u[|DataUriPrefix|..]) else None
  }

  /** When only base64 data is offered, the returned URL wraps it losslessly:
      unwrapping the data URI gives the provider's data back. */
  lemma InlineRoundTrip(body: ImagesBody)
    requires !HasUrl(body) && HasB64(body)
    ensures InlineData(ImageUrlOf(body).value) == Some(body.first.value.b64Json.value)
  {
  }

  /** A hosted URL wins over inline data: changing the base64 data of an entry
      that has a truthy URL changes nothing. */
  lemma HostedUrlTakesPrecedence(url: string, b1: Option<string>, b2: Option<string>)
    requires url != ""
    ensures ImageUrlOf(ImagesBody(Some(ImageEntry(Some(url), b1)))) == Some(url)
    ensures ImageUrlOf(ImagesBody(Some(ImageEntry(Some(url), b1))))
         == ImageUrlOf(ImagesBody(Some(ImageEntry(Some(url), b2))))
  {
  }

  /** A reply with a successful status but no usable image is a 500 carrying
      the parsed body, not a provider error. */
  lemma NoImageIsInternalError(req: GenerateRequest, key: Option<string>, status: nat,
                               text: Awaited<string>, body: ImagesBody)
    requires FieldsPresent(req) && KeyUsable(key) && IsOk(status)
    requires !HasUrl(body) && !HasB64(body)
    ensures Handle(req, key, Replied(status, text, Resolved(body))).response
         == Response(500, ErrorBody(NoImageMessage, ParsedBody(body)))
  {
  }

  /** The error the handler catches once the request has been sent, if
      any: a network failure, a failed text read of a failing reply, or a
      failed JSON parse of a successful one. */
  function ThrownAfterSend(outcome: ProviderOutcome): (e: Option<Thrown>)
    ensures e.Some? <==>
      outcome.FetchFailed?
      || (outcome.Replied? && !IsOk(outcome.status) && outcome.text.Rejected?)
      || (outcome.Replied? && IsOk(outcome.status) && outcome.json.Rejected?)
  {
    match outcome
    case FetchFailed(err) => Some(err)
    case Replied(status, text, json) =>
      if !IsOk(status) then (if text.Rejected? then Some(text.error) else None)
      else if json.Rejected? then Some(json.error) else None
  }

  /** What is sent does not depend on how the provider then behaves. */
  lemma SentIndependentOfReply(req: GenerateRequest, key: Option<string>, o1: ProviderOutcome, o2: ProviderOutcome)
    ensures Handle(req, key, o1).sent == Handle(req, key, o2).sent
  {
  }

  /** The credential reaches only the authorization header: it can be read
      back from that header, and two usable credentials give requests that
      differ in nothing else. */
  lemma KeyOnlyInHeader(req: GenerateRequest, k1: Option<string>, k2: Option<string>, o: ProviderOutcome)
    requires FieldsPresent(req) && KeyUsable(k1) && KeyUsable(k2)
    ensures BearerToken(Handle(req, k1, o).sent.value.authorization) == Some(k1.value)
    ensures Handle(req, k1, o).sent.value.(authorization := "") == Handle(req, k2, o).sent.value.(authorization := "")
  {
  }

  /** Once the request has been sent, a 500 without detail arises exactly when
      something was thrown; it carries the error's text and is never a success. */
  lemma ThrownIsInternalError(req: GenerateRequest, key: Option<string>, outcome: ProviderOutcome)
    requires FieldsPresent(req) && KeyUsable(key)
    ensures var r := Handle(req, key, outcome).response;
      (r.status == 500 && r.payload.ErrorBody? && r.payload.detail == NoDetail) <==> ThrownAfterSend(outcome).Some?
    ensures var r := Handle(req, key, outcome).response;
      ThrownAfterSend(outcome).Some? ==>
        r.status != 200 && r.payload == ErrorBody(ErrorText(ThrownAfterSend(outcome).value), NoDetail)
  {
  }

  /** Where an error was thrown makes no difference: two thrown errors with
      the same text give the same response. */
  lemma CaughtDependsOnlyOnText(o1: ProviderOutcome, o2: ProviderOutcome)
    requires ThrownAfterSend(o1).Some? && ThrownAfterSend(o2).Some?
    requires ErrorText(ThrownAfterSend(o1).value) == ErrorText(ThrownAfterSend(o2).value)
    ensures FromProvider(o1) == FromProvider(o2)
  {
  }
}
