# Chat and image front end for a generative-AI service, in Dafny

This project models the logic of a small browser front end that sends a
user's prompt to a remote generative-AI service and shows either a text reply
in a chat transcript or a generated image in a separate panel. It covers:

- the generation client: the API-key check, the text path with its
  placeholder for an empty reply, the image path's scan for the first part
  carrying inline data and the `data:` URL built from it (section 3 of
  RFC 2397), and the errors both paths throw;
- the settings kept in browser local storage (key name, key value, selected
  model), how the load effect resolves a stored model id to a label, and what
  saving a key and selecting a model write;
- the chat screen's handlers (send, suggestion chips, clear chat) and the
  image panel's generate handler, as state machines run to completion.

Modules follow the source files: `Types` (types.ts), `Constants`
(constants.ts), `GeminiService` (services/geminiService.ts), `ChatApp`
(App.tsx) and `ImagePanel` (components/ImageGenerator.tsx), over two helper
modules: `Wrappers` (optional values, results, and JavaScript's `x || y` on a
string that may be absent) and `JsStrings` (`trim`, the decimal `toString`
used for message ids, a first-occurrence search).

The remote call is an input, `CallOutcome`: either a response envelope
(optional text; optional candidates, each with a sequence of parts, each with
optional inline data) or a failure carrying an optional message. Each
generator returns an `Outcome` recording the request it sent, if any, so that
"no request is made without a key" and "the image path always asks the image
model" are stated about the model. The clock is an input too: each appended
message takes a `Stamp` of two readings (one for its id, one for its
timestamp).

What the code does that a reader might not expect, all proved here:

- FAST and BALANCED are one model id, so with an API key stored a reload
  after choosing "Balanced" shows "Fast" (`ChatApp.ReloadAfterSelect`);
  without a stored key the reload ignores the choice and shows the defaults,
  BALANCED labelled "Balanced" (`ChatApp.ReloadAfterSelectWithoutKey`).
- An unknown stored model id is kept, labelled "Balanced"; the loaded label
  then belongs to no dropdown entry (`ChatApp.LoadKeepsUnknownModel`,
  `ChatApp.LoadedLabelCanBeOrphaned`).
- A stored model is ignored while no key is stored; once a key is saved the
  session keeps BALANCED, but the next reload switches to the stored model
  (`ChatApp.SaveThenReloadSwitchesModel`).
- The image panel's own fallback text "Failed to generate image" is never
  shown: every error the image call throws carries a non-empty message
  (`ImagePanel.PanelFallbackUnreachable`).

## Model

| member | source | states |
|---|---|---|
| `Types.ModelIdsCoincide` | types.ts:1-6 | FAST and BALANCED are the same id; ADVANCED and IMAGE differ from it and from each other |
| `Constants.FindOption` | App.tsx:35 | `MODEL_OPTIONS.find` by id: no result exactly when no entry has the id; otherwise an entry with that id at an index before which none has it |
| `Constants.FindOptionIsFirstMatch` | App.tsx:35-36 | the lookup returns the entry at the least index carrying the id |
| `Constants.LookupLabels` | constants.ts:10-14 | looking up BALANCED's id finds the "Fast" entry first; ADVANCED finds "Advanced" |
| `Constants.ImageModelNotSelectable` | constants.ts:10-14 | no dropdown entry carries IMAGE, so the lookup of IMAGE finds nothing |
| `Constants.OneImageSuggestion` | constants.ts:16-21 | four suggestions, and only the first opens the image view |
| `JsStrings.TrimStart` | App.tsx:74 | the leading half of `trim`: removes exactly the leading white space |
| `JsStrings.TrimEnd` | App.tsx:74 | the trailing half of `trim`: removes exactly the trailing white space |
| `JsStrings.Trim` | App.tsx:74 | the trimmed string is no longer than the original and neither starts nor ends with white space |
| `JsStrings.BlankIffTrimmedEmpty` | components/ImageGenerator.tsx:17 | `!s.trim()` holds exactly when every character is white space, which is how `IsBlank` states it |
| `JsStrings.NumberToString` | App.tsx:78 | a clock reading's `toString` is a non-empty string of decimal digits without a leading zero |
| `JsStrings.NumberToStringRoundTrip` | App.tsx:105 | reading the id back gives the clock reading, so distinct readings give distinct ids |
| `GeminiService.Message` | services/geminiService.ts:9-70 | the thrown error's `message`: a service failure carries its own message, and every other error's message is non-empty |
| `GeminiService.CreateClient` | services/geminiService.ts:8-11 | an empty key fails with the missing-key error; any other key yields a client for it |
| `GeminiService.GenerateTextResponse` | services/geminiService.ts:13-34 | empty key: missing-key error and no request; otherwise one request with the given model and untrimmed prompt; a non-empty reply is returned unchanged, an empty or absent one becomes "No response generated."; a failure is rethrown with its message or "Failed to generate text."; results and messages are never empty |
| `GeminiService.FirstInlineIndex` | services/geminiService.ts:55-61 | the index of the first part with inline data, or the length when none has any |
| `GeminiService.FirstInlineIndexIgnoresSuffix` | services/geminiService.ts:59 | parts appended after the first inline part do not move it |
| `GeminiService.FirstImage` | services/geminiService.ts:52-62 | there is an image exactly when there is a first candidate and one of its parts carries inline data |
| `GeminiService.DataUrl` | services/geminiService.ts:58 | the URL starts with "data:" and ends with the base64 payload, copied verbatim |
| `GeminiService.DataUrlRoundTrip` | services/geminiService.ts:58 | the `data:` URL splits back into the media type and the verbatim payload when the media type has no ';' |
| `GeminiService.ImageResponse` | services/geminiService.ts:36-72 | empty key: missing-key error and no request; otherwise one request to IMAGE with the prompt; a call failure is rethrown with its message or "Failed to generate image."; a success starts with "data:"; every error message is non-empty |
| `GeminiService.GenerateImageResponse` | services/geminiService.ts:51-67 | the `for … of` scan with `break` computes exactly `ImageResponse` |
| `GeminiService.ImageFromFirstInlinePart` | services/geminiService.ts:53-61 | the result is the `data:` URL of the first part of the first candidate that has inline data |
| `GeminiService.ImageIgnoresWhatFollowsFirstInlinePart` | services/geminiService.ts:53-61 | later parts, later candidates and the reply text do not change the result |
| `GeminiService.NoImageDataExactly` | services/geminiService.ts:52-66 | with a key, the call fails with "No image data returned from the model." exactly when it got a reply with no candidate or no inline part in the first candidate |
| `GeminiService.ImageResultDecodes` | services/geminiService.ts:58-67 | a successful result decodes back to the first inline part's media type and payload, when the media type has no ';' |
| `ChatApp.Lookup` | App.tsx:28-30 | `getItem` gives a value exactly when the key is stored, and then the stored value |
| `ChatApp.LocalStorage.SetItem` | App.tsx:58-64 | `setItem` stores the value under the key and leaves every other entry as it was |
| `ChatApp.ResolvedModelName` | App.tsx:32-37 | the label is always one of the dropdown's labels, and "Balanced" when no model (or "") is stored |
| `ChatApp.LoadSettings` | App.tsx:27-48 | without a truthy stored key the settings are left as they were; the key in use becomes the stored one when that is non-empty and stays otherwise; a non-empty model id stays non-empty |
| `ChatApp.PresetPrompt` | App.tsx:129-134 | an action with a preset gets that preset; the result is non-empty exactly when the action has one |
| `ChatApp.AppendModelMessage` | App.tsx:76-83 | appending a model message keeps the transcript well formed |
| `ChatApp.AppendExchange` | App.tsx:93-118 | appending a non-blank user message and then a model message keeps the transcript well formed |
| `ChatApp.App.constructor` | App.tsx:11-48 | the component starts from the defaults, an empty transcript and input and the chat view, then loads: settings are `LoadSettings(DEFAULT_SETTINGS, stored entries)` and storage is not written |
| `ChatApp.App.LoadFromStorage` | App.tsx:27-48 | the load effect, building the label in a mutable `modelName`, yields `LoadSettings` of the previous settings and the stored entries |
| `ChatApp.App.SaveApiKey` | App.tsx:57-61 | writes exactly the two key entries and changes only the key name and value |
| `ChatApp.App.SelectModel` | App.tsx:63-69 | writes exactly the model entry and sets id and label from the option; key fields unchanged |
| `ChatApp.App.SetInput` | App.tsx:302 | the input becomes the typed text; nothing else changes |
| `ChatApp.App.HandleSendMessage` | App.tsx:73-122 | a blank input changes nothing; with no key one model message with the fixed hint is appended and the input kept; otherwise a user message with the untrimmed input and then a model message with the reply or the fixed error text are appended, the input is cleared, loading ends false, and the transcript stays well formed |
| `ChatApp.App.Exchange` | App.tsx:86-121 | with a non-blank input and a key: the user message with the untrimmed input and then the reply (or the fixed error text) are appended, the request carries the selected model and the input, the input is cleared and loading ends false |
| `ChatApp.App.HandleSuggestionClick` | App.tsx:124-136 | "create_image" switches to the image view; any other action sets the input to its preset, or "" if it has none |
| `ChatApp.App.ReturnToChat` | App.tsx:144 | the image panel's back button returns to the chat view |
| `ChatApp.App.ClearChat` | App.tsx:194-197 | the transcript becomes empty; nothing else changes |
| `ChatApp.LoadWithoutKeyKeepsDefaults` | App.tsx:39-47 | without a stored key the settings stay the defaults, even when a model is stored |
| `ChatApp.LoadWithKey` | App.tsx:40-46 | with a stored key: key adopted, name adopted or "", stored model id kept, BALANCED labelled "Balanced" only when none or "" is stored |
| `ChatApp.LoadLabelIsFirstMatch` | App.tsx:33-37 | with a stored key, the label is that of the first entry whose id is the stored one |
| `ChatApp.LoadKeepsUnknownModel` | App.tsx:33-44 | with a stored key, an id no entry carries is kept and labelled "Balanced" |
| `ChatApp.LoadedLabelCanBeOrphaned` | App.tsx:33-46 | a loaded label need not belong to the loaded id |
| `ChatApp.ReloadAfterSelect` | App.tsx:63-69 | with an API key stored, choosing an entry and reloading gives back its id; the label is that of the first entry with the id, so "Balanced" comes back as "Fast" |
| `ChatApp.ReloadAfterSelectWithoutKey` | App.tsx:39-47 | without a stored key, choosing an entry and reloading gives the default settings back, whatever was chosen |
| `ChatApp.ReloadAfterSave` | App.tsx:57-61 | saving a non-empty key and reloading gives back the key and name, and the stored model (or BALANCED) |
| `ChatApp.SaveThenReloadSwitchesModel` | App.tsx:39-47 | for any stored model and any non-empty key: a model stored without a key is ignored at load (BALANCED), stays ignored when the key is saved in the same session, and is adopted at the reload after the save |
| `ChatApp.SuggestionsAllHandled` | App.tsx:124-136 | every suggestion chip either opens the image view or has a non-empty preset |
| `ImagePanel.ErrorText` | components/ImageGenerator.tsx:31 | the shown error is never empty: the thrown message, or "Failed to generate image" when that message is empty |
| `ImagePanel.PanelFallbackUnreachable` | components/ImageGenerator.tsx:31 | the panel's fallback text is never used: the service's error messages are never empty |
| `ImagePanel.ImageGenerator.constructor` | components/ImageGenerator.tsx:10-14 | the panel starts with an empty prompt, nothing loading, no image and no error |
| `ImagePanel.ImageGenerator.CanGenerate` | components/ImageGenerator.tsx:101 | the generate button is enabled exactly when nothing is loading and the prompt has a character that is not white space |
| `ImagePanel.ImageGenerator.SetPrompt` | components/ImageGenerator.tsx:93 | the prompt becomes the typed text; image and error unchanged |
| `ImagePanel.ImageGenerator.BeginRequest` | components/ImageGenerator.tsx:23-25 | before the call: loading, with no error and no image |
| `ImagePanel.ImageGenerator.RunRequest` | components/ImageGenerator.tsx:23-34 | with a key: the untrimmed prompt is sent to IMAGE, and the panel shows the returned URL with no error or the error text with no image; loading ends false |
| `ImagePanel.ImageGenerator.HandleGenerate` | components/ImageGenerator.tsx:16-35 | a blank prompt changes nothing; with no key the error becomes "Please add an API key first." and no request is made; otherwise the untrimmed prompt is sent to IMAGE and the panel shows the returned URL with no error, or the error message with no image; loading ends false; a request is only made when the button is enabled; image and error are never both shown |

## Left out

- The remote service and its client library: the call is the `CallOutcome` input; its request and response are modelled only as far as the code reads them.
- The library's `response.text` accessor is modelled as an optional text field of the response; how the library assembles it from the parts is not part of this model.
- A candidate without `content` or `parts`, or inline data without a `mimeType`: the code would throw a runtime type error (whose message is then rethrown) or write "undefined" into the URL; the model's response type always has these fields.
- Asynchrony: each handler runs to completion before the next starts. In the app the Enter key can start a second send while one is loading; overlapping requests and the order their replies land in are not modelled, and both components' `Valid` require that nothing is loading when a handler starts.
- `Date.now()`: its readings are parameters; nothing about their order or uniqueness is assumed.
- `Stamp`: the readings used for message ids are taken to be non-negative integers, written in plain decimal by `NumberToString`; a clock before 1970, whose `toString` starts with "-", is not modelled.
- `console.error` logging, all rendering and styling, the scroll-into-view effect, menu and dropdown visibility flags, spinners and the download link.
- The API-key modal (components/ApiKeyModal.tsx) is not part of this model; `SaveApiKey` accepts any key, which includes the non-empty keys the modal lets through.
- The icon re-exports (components/Icons.tsx) are not part of this model.
- The mounting of the image panel with the current key (App.tsx:140-147): `ImagePanel.ImageGenerator` takes the key as a constructor argument; its state is lost when the panel is left.
- `ChatApp.PresetPrompt`: a lookup on a plain object would also find inherited property names such as "toString"; the only caller passes the four suggestion actions, and the model treats the presets as a plain map.
- Concurrent generator calls: the generators are functions of their inputs, so two calls cannot interfere in the model; the library's own behaviour under concurrency is not modelled.
