/** The fixed tables: default settings, the selectable chat models and the
    suggestion chips shown on the empty chat screen. */
module Constants {
  import opened Wrappers
  import opened Types

  const DEFAULT_SETTINGS: AppSettings := AppSettings("", "", BALANCED, "Balanced")

  datatype ModelOption = ModelOption(id: ModelId, name: string, labelText: string)

  /** The model dropdown, in display order. */
  const MODEL_OPTIONS: seq<ModelOption> := [
    ModelOption(FAST, "Fast Model", "Fast"),
    ModelOption(BALANCED, "Balanced Model", "Balanced"),
    ModelOption(ADVANCED, "Advanced Model", "Advanced")
  ]

  datatype Suggestion = Suggestion(labelText: string, icon: string, action: string)

  const CREATE_IMAGE: string := "create_image"

  const SUGGESTIONS: seq<Suggestion> := [
    Suggestion("Create image", "image", CREATE_IMAGE),
    Suggestion("Write", "pen", "write_draft"),
    Suggestion("Build", "code", "code_snippet"),
    Suggestion("Learn", "graduation-cap", "explain_concept")
  ]

  /** `options.find(m => m.id === id)`: the first option carrying `id`, if any. */
  function FindOption(options: seq<ModelOption>, id: ModelId): (r: Option<ModelOption>)
    ensures r.None? <==> forall i :: 0 <= i < |options| ==> options[i].id != id
    ensures r.Some? ==>
      exists k :: 0 <= k < |options| && options[k] == r.value && r.value.id == id &&
        forall j :: 0 <= j < k ==> options[j].id != id
  {
    if options == [] then None
    else if options[0].id == id then Some(options[0])
    else
      var r := FindOption(options[1..], id);
      assert r.Some? ==> exists k :: 1 <= k < |options| && options[k] == r.value;
      r
  }

  /** The lookup returns the entry at the least index whose id matches. */
  lemma {:induction false} FindOptionIsFirstMatch(options: seq<ModelOption>, id: ModelId, k: nat)
    requires k < |options| && options[k].id == id
    requires forall j :: 0 <= j < k ==> options[j].id != id
    ensures FindOption(options, id) == Some(options[k])
  {
    if k > 0 {
      assert options[0].id != id;
      FindOptionIsFirstMatch(options[1..], id, k - 1);
    }
  }

  /** Because FAST and BALANCED share one identifier, looking up either finds
      the "Fast" entry, and only ADVANCED's lookup finds its own entry. */
  lemma LookupLabels()
    ensures FindOption(MODEL_OPTIONS, BALANCED) == Some(MODEL_OPTIONS[0])
    ensures FindOption(MODEL_OPTIONS, BALANCED).value.labelText == "Fast"
    ensures FindOption(MODEL_OPTIONS, ADVANCED) == Some(MODEL_OPTIONS[2])
    ensures FindOption(MODEL_OPTIONS, ADVANCED).value.labelText == "Advanced"
  {
    FindOptionIsFirstMatch(MODEL_OPTIONS, BALANCED, 0);
    ModelIdsCoincide();
    FindOptionIsFirstMatch(MODEL_OPTIONS, ADVANCED, 2);
  }

  /** The image model is not in the dropdown, so it cannot be selected. */
  lemma ImageModelNotSelectable()
    ensures forall o :: o in MODEL_OPTIONS ==> o.id != IMAGE
    ensures FindOption(MODEL_OPTIONS, IMAGE) == None
  {
    ModelIdsCoincide();
  }

  /** Exactly one suggestion opens the image view; the others are text presets. */
  lemma OneImageSuggestion()
    ensures |SUGGESTIONS| == 4
    ensures SUGGESTIONS[0].action == CREATE_IMAGE
    ensures forall i :: 1 <= i < |SUGGESTIONS| ==> SUGGESTIONS[i].action != CREATE_IMAGE
  {
  }
}
