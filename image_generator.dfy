/** The image panel: a prompt, a loading flag, and either a generated image
    or an error message. */
module ImagePanel {
  import opened Wrappers
  import opened Types
  import opened JsStrings
  import opened GeminiService

  const NEED_KEY_ERROR: string := "Please add an API key first."
  const GENERATE_ERROR_FALLBACK: string := "Failed to generate image"

  /** `err.message || "Failed to generate image"` */
  function ErrorText(e: GenError): (text: string)
    ensures text != ""
    ensures Message(e) != "" ==> text == Message(e)
    ensures Message(e) == "" ==> text == GENERATE_ERROR_FALLBACK
  {
    OrElse(Some(Message(e)), GENERATE_ERROR_FALLBACK)
  }

  /** The panel's own fallback is never shown: every error the image call
      throws once a key is present carries a non-empty message. */
  lemma PanelFallbackUnreachable(apiKey: string, prompt: string, call: CallOutcome)
    requires ImageResponse(apiKey, prompt, call).result.Failure?
    ensures ErrorText(ImageResponse(apiKey, prompt, call).result.error) ==
      Message(ImageResponse(apiKey, prompt, call).result.error)
  {
  }

  class ImageGenerator {
    /** The key passed in by the chat screen; fixed while the panel is shown. */
    const apiKey: string
    var prompt: string
    var isLoading: bool
    var generatedImage: Option<string>
    var error: Option<string>

    /** Between two requests nothing is loading, an image and an error are
        never both shown, no image is ever shown without a key, and a shown
        image is a `data:` URL. */
    ghost predicate Valid()
      reads this
    {
      !isLoading &&
      !(generatedImage.Some? && error.Some?) &&
      (apiKey == "" ==> generatedImage.None?) &&
      (generatedImage.Some? ==> |generatedImage.value| >= 5 && generatedImage.value[..5] == "data:")
    }

    constructor (apiKey: string)
      ensures Valid()
      ensures this.apiKey == apiKey && prompt == ""
      ensures generatedImage == None && error == None
    {
      this.apiKey := apiKey;
      prompt := "";
      isLoading := false;
      generatedImage := None;
      error := None;
    }

    /** The generate button is enabled only for a non-blank prompt while
        nothing is loading. */
    predicate CanGenerate()
      reads this
      ensures CanGenerate() <==> !isLoading && exists i :: 0 <= i < |prompt| && !IsWhiteSpace(prompt[i])
    {
      !IsBlank(prompt) && !isLoading
    }

    /** The prompt box's change handler. */
    method SetPrompt(text: string)
      requires Valid()
      modifies this
      ensures Valid()
      ensures prompt == text
      ensures generatedImage == old(generatedImage) && error == old(error)
    {
      prompt := text;
    }

    /** The phase before the call: loading, with no error and no image. */
    method BeginRequest()
      modifies this
      ensures isLoading && error == None && generatedImage == None
      ensures prompt == old(prompt)
    {
      isLoading := true;
      error := None;
      generatedImage := None;
    }

    /** The request phase of `handleGenerate`, once the prompt and the key
        have passed: loading, the call, then either the returned URL or the
        error text, and loading ends. */
    method RunRequest(call: CallOutcome) returns (sent: Option<Request>)
      requires Valid() && apiKey != ""
      modifies this
      ensures Valid()
      ensures prompt == old(prompt)
      ensures sent == Some(Request(IMAGE, prompt))
      ensures match ImageResponse(apiKey, prompt, call).result
        case Success(url) => generatedImage == Some(url) && error == None
        case Failure(e) => generatedImage == None && error == Some(ErrorText(e))
    {
      BeginRequest();
      var o := GenerateImageResponse(apiKey, prompt, call);
      sent := o.sent;
      match o.result {
        case Success(url) => generatedImage := Some(url);
        case Failure(e) => error := Some(ErrorText(e));
      }
      isLoading := false;
    }

    /** `handleGenerate`, run to completion; `call` is what the image request
        did. The prompt is sent untrimmed and is left in the box. */
    method HandleGenerate(call: CallOutcome) returns (sent: Option<Request>)
      requires Valid()
      modifies this
      ensures Valid()
      ensures prompt == old(prompt)
      ensures sent.Some? ==> old(CanGenerate())
      ensures IsBlank(prompt) ==>
        sent == None && generatedImage == old(generatedImage) && error == old(error)
      ensures !IsBlank(prompt) && apiKey == "" ==>
        sent == None && error == Some(NEED_KEY_ERROR) && generatedImage == old(generatedImage)
      ensures !IsBlank(prompt) && apiKey != "" ==>
        var o := ImageResponse(apiKey, prompt, call);
        sent == Some(Request(IMAGE, prompt)) &&
        match o.result
        case Success(url) => generatedImage == Some(url) && error == None
        case Failure(e) => generatedImage == None && error == Some(ErrorText(e))
    {
      var blank := IsBlank(prompt);
      if blank {
        return None;
      }
      if apiKey == "" {
        error := Some(NEED_KEY_ERROR);
        return None;
      }
      sent := RunRequest(call);
    }
  }
}
