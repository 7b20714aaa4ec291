/** The generation client: a key check, one request to the remote service
    (an abstract input here), and the extraction of a text reply or of the
    first inline image as a `data:` URL. */
module GeminiService {
  import opened Wrappers
  import opened Types
  import opened JsStrings

  const MISSING_KEY_MESSAGE: string := "API Key is missing. Please add one in settings."
  const NO_RESPONSE_TEXT: string := "No response generated."
  const TEXT_FAILURE_FALLBACK: string := "Failed to generate text."
  const NO_IMAGE_MESSAGE: string := "No image data returned from the model."
  const IMAGE_FAILURE_FALLBACK: string := "Failed to generate image."

  /** The response envelope: an optional text, and candidates whose content
      is a sequence of parts, some of which carry base64 inline data. */
  datatype InlineData = InlineData(mimeType: string, data: string)
  datatype Part = Part(text: Option<string>, inlineData: Option<InlineData>)
  datatype Content = Content(parts: seq<Part>)
  datatype Candidate = Candidate(content: Content)
  datatype Response = Response(text: Option<string>, candidates: Option<seq<Candidate>>)

  /** What the remote call did: answered, or threw an error whose message may
      be absent or empty. */
  datatype CallOutcome = Responded(response: Response) | Failed(message: Option<string>)

  datatype Request = Request(model: ModelId, contents: string)

  datatype Client = Client(apiKey: string)

  /** The errors a generator throws: the key check, an image reply without
      image data, and any failure of the call, with the message it carries. */
  datatype GenError = MissingCredential | NoImageData | TransportOrService(message: string)

  /** The `message` of the thrown error. */
  function Message(e: GenError): (m: string)
    ensures e.TransportOrService? ==> m == e.message
    ensures e != TransportOrService("") ==> m != ""
  {
    match e
    case MissingCredential => MISSING_KEY_MESSAGE
    case NoImageData => NO_IMAGE_MESSAGE
    case TransportOrService(m) => m
  }

  /** One invocation: the request it sent, if it got that far, and its result. */
  datatype Outcome = Outcome(sent: Option<Request>, result: Result<string, GenError>)

  /** `createClient`: an empty key is refused before anything else happens. */
  function CreateClient(apiKey: string): (r: Result<Client, GenError>)
    ensures r.Success? <==> apiKey != ""
    ensures r.Success? ==> r.value.apiKey == apiKey
    ensures r.Failure? ==> r.error == MissingCredential
  {
    if apiKey == "" then Failure(MissingCredential) else Success(Client(apiKey))
  }

  /** `generateTextResponse`. The key check runs outside the `try`, so its
      error is not rewrapped; a call failure is rethrown with its own message
      or a fixed fallback; an empty reply becomes a fixed placeholder. */
  function GenerateTextResponse(apiKey: string, modelId: ModelId, prompt: string, call: CallOutcome): (o: Outcome)
    ensures o.sent.Some? <==> apiKey != ""
    ensures o.sent.Some? ==> o.sent.value == Request(modelId, prompt)
    ensures apiKey == "" ==> o.result == Failure(MissingCredential)
    ensures o.result.Success? <==> apiKey != "" && call.Responded?
    ensures apiKey != "" && call.Responded? && Truthy(call.response.text) ==>
      o.result == Success(call.response.text.value)
    ensures apiKey != "" && call.Responded? && !Truthy(call.response.text) ==>
      o.result == Success(NO_RESPONSE_TEXT)
    ensures apiKey != "" && call.Failed? ==>
      o.result == Failure(TransportOrService(OrElse(call.message, TEXT_FAILURE_FALLBACK)))
    ensures o.result.Success? ==> o.result.value != ""
    ensures o.result.Failure? ==> Message(o.result.error) != ""
  {
    match CreateClient(apiKey)
    case Failure(e) => Outcome(None, Failure(e))
    case Success(_) =>
      var request := Request(modelId, prompt);
      match call
      case Failed(m) => Outcome(Some(request), Failure(TransportOrService(OrElse(m, TEXT_FAILURE_FALLBACK))))
      case Responded(response) =>
        if !Truthy(response.text) then Outcome(Some(request), Success(NO_RESPONSE_TEXT))
        else Outcome(Some(request), Success(response.text.value))
  }

  /** The index of the first part carrying inline data, or `|parts|` if none does. */
  function FirstInlineIndex(parts: seq<Part>): (k: nat)
    ensures k <= |parts|
    ensures forall j :: 0 <= j < k ==> parts[j].inlineData.None?
    ensures k < |parts| ==> parts[k].inlineData.Some?
  {
    if parts == [] then 0
    else if parts[0].inlineData.Some? then 0
    else 1 + FirstInlineIndex(parts[1..])
  }

  /** Parts after the first inline part do not move it. */
  lemma {:induction false} FirstInlineIndexIgnoresSuffix(parts: seq<Part>, rest: seq<Part>)
    requires FirstInlineIndex(parts) < |parts|
    ensures FirstInlineIndex(parts + rest) == FirstInlineIndex(parts)
  {
    if parts[0].inlineData.None? {
      assert (parts + rest)[1..] == parts[1..] + rest;
      FirstInlineIndexIgnoresSuffix(parts[1..], rest);
    }
  }

  /** The inline data of the first such part of the first candidate, if any. */
  function FirstImage(response: Response): (d: Option<InlineData>)
    ensures d.Some? <==>
      response.candidates.Some? && |response.candidates.value| > 0 &&
      exists k :: 0 <= k < |response.candidates.value[0].content.parts| &&
        response.candidates.value[0].content.parts[k].inlineData.Some?
  {
    if response.candidates.None? || |response.candidates.value| == 0 then None
    else
      var parts := response.candidates.value[0].content.parts;
      var k := FirstInlineIndex(parts);
      if k < |parts| then parts[k].inlineData else None
  }

  /** A `data:` URL in the syntax of section 3 of RFC 2397,
      `data:[<mediatype>][;base64],<data>`, with the payload copied verbatim. */
  function DataUrl(d: InlineData): (url: string)
    ensures |url| >= 5 && url[..5] == "data:"
    ensures |url| >= |d.data| && url[|url| - |d.data|..] == d.data
  {
    "data:" + d.mimeType + ";base64," + d.data
  }

  /** Splits a base64 `data:` URL back into media type and payload, the media
      type ending at the first ';'. */
  function ParseDataUrl(url: string): Option<InlineData> {
    if |url| < 5 || url[..5] != "data:" then None
    else
      var rest := url[5..];
      var i := IndexOf(rest, ';');
      if i + 8 <= |rest| && rest[i..i + 8] == ";base64," then
        Some(InlineData(rest[..i], rest[i + 8..]))
      else None
  }

  /** Building the URL loses nothing, as long as the media type does not
      itself contain the ';' that starts the base64 marker. */
  lemma DataUrlRoundTrip(d: InlineData)
    requires forall j :: 0 <= j < |d.mimeType| ==> d.mimeType[j] != ';'
    ensures ParseDataUrl(DataUrl(d)) == Some(d)
  {
    var url := DataUrl(d);
    var rest := url[5..];
    assert rest == d.mimeType + (";base64," + d.data);
    IndexOfAfterPrefix(d.mimeType, ";base64," + d.data, ';');
    assert IndexOf(rest, ';') == |d.mimeType|;
    assert rest[..|d.mimeType|] == d.mimeType;
    assert rest[|d.mimeType| + 8..] == d.data;
  }

  /** `generateImageResponse`, as a function of the key, the prompt and what
      the call did. The model is always IMAGE, whatever the user selected.
      A reply without image data throws NoImageData inside the `try`; the
      `catch` rethrows it with its own message, which is not empty. */
  function ImageResponse(apiKey: string, prompt: string, call: CallOutcome): (o: Outcome)
    ensures o.sent.Some? <==> apiKey != ""
    ensures o.sent.Some? ==> o.sent.value == Request(IMAGE, prompt)
    ensures apiKey == "" ==> o.result == Failure(MissingCredential)
    ensures apiKey != "" && call.Failed? ==>
      o.result == Failure(TransportOrService(OrElse(call.message, IMAGE_FAILURE_FALLBACK)))
    ensures o.result.Success? ==> |o.result.value| >= 5 && o.result.value[..5] == "data:"
    ensures o.result.Failure? ==> Message(o.result.error) != ""
  {
    match CreateClient(apiKey)
    case Failure(e) => Outcome(None, Failure(e))
    case Success(_) =>
      var request := Request(IMAGE, prompt);
      match call
      case Failed(m) => Outcome(Some(request), Failure(TransportOrService(OrElse(m, IMAGE_FAILURE_FALLBACK))))
      case Responded(response) =>
        match FirstImage(response)
        case Some(d) => Outcome(Some(request), Success(DataUrl(d)))
        case None => Outcome(Some(request), Failure(NoImageData))
  }

  /** The scan as the client runs it: walk the first candidate's parts in
      order and stop at the first one carrying inline data. */
  method GenerateImageResponse(apiKey: string, prompt: string, call: CallOutcome) returns (o: Outcome)
    ensures o == ImageResponse(apiKey, prompt, call)
  {
    var client := CreateClient(apiKey);
    if client.Failure? {
      return Outcome(None, Failure(client.error));
    }
    var request := Request(IMAGE, prompt);
    match call {
      case Failed(m) =>
        o := Outcome(Some(request), Failure(TransportOrService(OrElse(m, IMAGE_FAILURE_FALLBACK))));
      case Responded(response) =>
        var imageUrl := "";
        var candidates := response.candidates;
        if candidates.Some? && |candidates.value| > 0 {
          var parts := candidates.value[0].content.parts;
          var i := 0;
          while i < |parts|
            invariant 0 <= i <= |parts|
            invariant imageUrl == ""
            invariant forall j :: 0 <= j < i ==> parts[j].inlineData.None?
          {
            if parts[i].inlineData.Some? {
              imageUrl := DataUrl(parts[i].inlineData.value);
              assert FirstInlineIndex(parts) == i;
              break;
            }
            i := i + 1;
          }
        }
        if imageUrl == "" {
          o := Outcome(Some(request), Failure(NoImageData));
        } else {
          o := Outcome(Some(request), Success(imageUrl));
        }
    }
  }

  /** The result is built from the first part of the first candidate that
      carries inline data, whatever precedes it without inline data. */
  lemma ImageFromFirstInlinePart(apiKey: string, prompt: string, response: Response, k: nat)
    requires apiKey != ""
    requires response.candidates.Some? && |response.candidates.value| > 0
    requires k < |response.candidates.value[0].content.parts|
    requires response.candidates.value[0].content.parts[k].inlineData.Some?
    requires forall j :: 0 <= j < k ==> response.candidates.value[0].content.parts[j].inlineData.None?
    ensures ImageResponse(apiKey, prompt, Responded(response)).result ==
      Success(DataUrl(response.candidates.value[0].content.parts[k].inlineData.value))
  {
    var parts := response.candidates.value[0].content.parts;
    assert FirstInlineIndex(parts) == k;
  }

  /** Later parts, later candidates and the reply's text play no part: two
      replies whose first candidates agree up to and including the first
      inline part give the same result. */
  lemma {:induction false} ImageIgnoresWhatFollowsFirstInlinePart(apiKey: string, prompt: string,
      first: Response, extended: Response, rest: seq<Part>)
    requires first.candidates.Some? && |first.candidates.value| > 0
    requires extended.candidates.Some? && |extended.candidates.value| > 0
    requires FirstInlineIndex(first.candidates.value[0].content.parts) < |first.candidates.value[0].content.parts|
    requires extended.candidates.value[0].content.parts == first.candidates.value[0].content.parts + rest
    ensures ImageResponse(apiKey, prompt, Responded(first)) == ImageResponse(apiKey, prompt, Responded(extended))
  {
    var parts := first.candidates.value[0].content.parts;
    FirstInlineIndexIgnoresSuffix(parts, rest);
    var k := FirstInlineIndex(parts);
    assert (parts + rest)[k] == parts[k];
    assert FirstImage(first) == FirstImage(extended);
  }

  /** The image call fails with NoImageData exactly when it got a reply with
      no candidate, or no inline part in its first candidate. */
  lemma NoImageDataExactly(apiKey: string, prompt: string, call: CallOutcome)
    requires apiKey != ""
    ensures ImageResponse(apiKey, prompt, call).result == Failure(NoImageData) <==>
      call.Responded? &&
      (call.response.candidates.None? || |call.response.candidates.value| == 0 ||
       forall j :: 0 <= j < |call.response.candidates.value[0].content.parts| ==>
         call.response.candidates.value[0].content.parts[j].inlineData.None?)
  {
    if call.Responded? && call.response.candidates.Some? && |call.response.candidates.value| > 0 {
      var parts := call.response.candidates.value[0].content.parts;
      var k := FirstInlineIndex(parts);
      if k < |parts| {
        assert parts[k].inlineData.Some?;
      }
    }
  }

  /** A successful image result decodes back to the first inline part. */
  lemma ImageResultDecodes(apiKey: string, prompt: string, call: CallOutcome)
    requires ImageResponse(apiKey, prompt, call).result.Success?
    requires forall j :: 0 <= j < |FirstImage(call.response).value.mimeType| ==>
      FirstImage(call.response).value.mimeType[j] != ';'
    ensures ParseDataUrl(ImageResponse(apiKey, prompt, call).result.value) == FirstImage(call.response)
  {
    DataUrlRoundTrip(FirstImage(call.response).value);
  }
}
