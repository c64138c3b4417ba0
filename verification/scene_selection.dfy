/** The scene-selection screen: one card per scene template plus a custom
    scene described in a modal dialog, and the request that asks the server
    to generate a picture in the chosen scene. */
module SceneSelection {
  import opened Base
  import opened Text
  import opened Catalog
  import M = MongoBackend

  const Custom := "custom"

  /** The body of `POST /generate`. */
  datatype Payload = Payload(imageId: string, scene: string, customPrompt: string)

  /** `handleGenerate`'s payload for a selected scene: the prompt travels
      only with the custom scene. */
  function PayloadFor(imageId: string, scene: string, customPrompt: string): (p: Payload)
    ensures p.imageId == imageId && p.scene == scene
    ensures scene == Custom ==> p.customPrompt == customPrompt
    ensures scene != Custom ==> p.customPrompt == ""
  {
    Payload(imageId, if scene == Custom then Custom else scene, if scene == Custom then customPrompt else "")
  }

  /** The selection is a card on the screen (a scene the server listed, or
      the custom card); the dialog is open only over the custom card; and a
      custom selection left standing once the dialog closed has a prompt. */
  predicate Coherent(scenes: map<string, string>, selected: Option<string>, showCustomPrompt: bool,
                     customPrompt: string)
  {
    && (selected.Some? ==> selected.value in scenes || selected.value == Custom)
    && (showCustomPrompt ==> selected == Some(Custom))
    && (selected == Some(Custom) && !showCustomPrompt ==> customPrompt != "")
  }

  /** The dialog's Confirm button is enabled once the prompt has more than
      whitespace. */
  function ConfirmEnabled(customPrompt: string): (b: bool)
    ensures b <==> exists i | 0 <= i < |customPrompt| :: !IsSpace(customPrompt[i])
  {
    TrimEmpty(customPrompt);
    Trim(customPrompt) != ""
  }

  /** Whatever the user does on a screen showing the server's scenes, the
      request `handleGenerate` sends passes the server's scene check: a
      template scene, or the custom scene with a non-empty prompt, which then
      becomes the scene sentence of the picture's prompt. */
  lemma PayloadPassesSceneRule(imageId: string, selected: string, customPrompt: string)
    requires Coherent(SceneTemplates, Some(selected), false, customPrompt)
    ensures var p := PayloadFor(imageId, selected, customPrompt);
      && Truthy(Some(p.scene))
      && (p.scene in SceneTemplates || Truthy(Some(p.customPrompt)))
      && ScenePrompt(p.scene, Some(p.customPrompt)) ==
           (if selected == Custom then customPrompt else SceneTemplates[selected])
  {
    assert Custom !in SceneTemplates;
    if selected != Custom {
      assert selected in SceneTemplates;
      assert selected != "" by { assert "" !in SceneTemplates; }
    }
  }

  /** Only the empty prompt is caught when the dialog closes: a prompt of
      blanks, which Confirm refuses, still survives Cancel and is sent. */
  lemma BlankPromptSurvivesCancel()
    ensures !ConfirmEnabled("  ") && !ConfirmEnabled("\U{3000}\U{2028}")
    ensures Coherent(SceneTemplates, Some(Custom), false, "  ")
    ensures Truthy(Some(PayloadFor("", Custom, "  ").customPrompt))
  {
    assert IsSpace("  "[0]) && IsSpace("  "[1]);
    assert IsSpace("\U{3000}\U{2028}"[0]) && IsSpace("\U{3000}\U{2028}"[1]);
  }

  /** "Images Remaining" on this screen: the plan's monthly pictures less
      those generated, unclamped. */
  function RemainingShown(subscription: M.SubscriptionView): (r: int)
    ensures r + subscription.usage.imagesGenerated == subscription.tierDetails.imagesPerMonth
  {
    subscription.tierDetails.imagesPerMonth - subscription.usage.imagesGenerated
  }

  /** How `POST /generate` ended. */
  datatype Answer = Generated(remainingImages: int) | Refused(error: Option<string>) | NoResponse

  function FailureMessage(a: Answer): (m: string)
    requires !a.Generated?
    ensures a.Refused? && Truthy(a.error) ==> m == a.error.value
    ensures a.Refused? && !Truthy(a.error) ==> m == "Generation failed. Please try again."
    ensures a.NoResponse? ==> m == "Network error. Please check your connection."
  {
    if a.NoResponse? then "Network error. Please check your connection."
    else if Truthy(a.error) then a.error.value
    else "Generation failed. Please try again."
  }

  class ScenePicker {
    var scenes: map<string, string>
    var selected: Option<string>
    var showCustomPrompt: bool
    var customPrompt: string
    var generating: bool
    var error: Option<string>
    var success: Option<string>

    ghost predicate Valid()
      reads this
    {
      Coherent(scenes, selected, showCustomPrompt, customPrompt)
    }

    constructor()
      ensures Valid() && scenes == map[] && selected.None? && !showCustomPrompt && customPrompt == ""
      ensures !generating && error.None? && success.None?
    {
      scenes := map[];
      selected := None;
      showCustomPrompt := false;
      customPrompt := "";
      generating := false;
      error := None;
      success := None;
    }

    /** The answer of `GET /scenes`, which arrives as the screen mounts,
        before any card can be clicked. */
    method Loaded(templates: map<string, string>)
      requires Valid() && selected.None?
      modifies this
      ensures Valid() && scenes == templates
      ensures selected == old(selected) && showCustomPrompt == old(showCustomPrompt) && customPrompt == old(customPrompt)
    {
      scenes := templates;
    }

    /** `handleSceneSelect` on one of the cards: the custom card opens the
        dialog, any other closes it. */
    method SceneSelect(key: string)
      requires Valid() && (key in scenes || key == Custom)
      modifies this
      ensures Valid() && selected == Some(key)
      ensures showCustomPrompt <==> key == Custom
      ensures scenes == old(scenes) && customPrompt == old(customPrompt) && generating == old(generating)
    {
      if key == Custom {
        showCustomPrompt := true;
        selected := Some(Custom);
      } else {
        selected := Some(key);
        showCustomPrompt := false;
      }
    }

    /** Typing in the prompt field, which exists only inside the dialog. */
    method PromptChange(text: string)
      requires Valid() && showCustomPrompt
      modifies this
      ensures Valid() && customPrompt == text
      ensures scenes == old(scenes) && selected == old(selected) && showCustomPrompt == old(showCustomPrompt)
      ensures generating == old(generating)
    {
      customPrompt := text;
    }

    /** `handleCustomPromptClose`, run by Cancel, by Confirm and by a click
        outside the dialog: an empty prompt also drops the selection. */
    method CustomPromptClose()
      requires Valid()
      modifies this
      ensures Valid() && !showCustomPrompt
      ensures customPrompt == "" ==> selected.None?
      ensures customPrompt != "" ==> selected == old(selected)
      ensures scenes == old(scenes) && customPrompt == old(customPrompt) && generating == old(generating)
    {
      showCustomPrompt := false;
      if customPrompt == "" {
        selected := None;
      }
    }

    /** The Generate button is enabled with a selection and no request in
        flight. */
    function GenerateEnabled(): bool
      reads this
    {
      selected.Some? && !generating
    }

    /** `handleGenerate`, reachable only with the dialog closed (it is modal):
        without a selection nothing happens; otherwise the request goes out
        with the payload for the selection. */
    method Generate(imageId: string) returns (request: Option<Payload>)
      requires Valid() && !showCustomPrompt
      modifies this
      ensures Valid()
      ensures request.Some? <==> selected.Some?
      ensures request.Some? ==> request == Some(PayloadFor(imageId, selected.value, customPrompt))
      ensures request.Some? ==> generating && error.None?
      ensures request.None? ==> generating == old(generating) && error == old(error)
      ensures scenes == old(scenes) && selected == old(selected) && customPrompt == old(customPrompt)
      ensures !showCustomPrompt && success == old(success)
    {
      if selected.None? {
        return None;
      }
      generating := true;
      error := None;
      request := Some(PayloadFor(imageId, selected.value, customPrompt));
    }

    /** The end of `handleGenerate`: the spinner stops and the remaining
        pictures the server reported, or the failure, are shown. */
    method GenerateAnswered(a: Answer)
      requires Valid()
      modifies this
      ensures Valid() && !generating
      ensures a.Generated? ==> success == Some("Image generated successfully! You have " + M.IntText(a.remainingImages)
                                               + " images remaining in your plan.") && error == old(error)
      ensures !a.Generated? ==> error == Some(FailureMessage(a)) && success == old(success)
      ensures scenes == old(scenes) && selected == old(selected) && customPrompt == old(customPrompt)
      ensures showCustomPrompt == old(showCustomPrompt)
    {
      generating := false;
      if a.Generated? {
        success := Some("Image generated successfully! You have " + M.IntText(a.remainingImages)
                        + " images remaining in your plan.");
      } else {
        error := Some(FailureMessage(a));
      }
    }
  }
}
