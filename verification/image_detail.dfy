/** The detail screen of one uploaded image: its generated pictures, the one
    selected for the large view and its preview, and the deletion of one
    generated picture or of the whole entry. */
module ImageDetail {
  import opened Base
  import opened Text
  import opened Records
  import M = MongoBackend
  import D = Dashboard

  type Entry = M.GeneratedView

  function EntryId(g: Entry): string { g.entry.id }

  /** `formatSceneName`: `Custom Scene` for a custom prompt, otherwise the
      dashboard's label, the `_`-separated words capitalised and joined by
      spaces. */
  function FormatSceneName(scene: string): (text: string)
    ensures scene == "custom" ==> text == "Custom Scene"
    ensures scene != "custom" ==> |text| == |scene| && forall i | 0 <= i < |scene| ::
      text[i] == (if scene[i] == '_' then ' '
                   else if i == 0 || scene[i - 1] == '_' then Upper(scene[i])
                   else scene[i])
  {
    if scene == "custom" then "Custom Scene" else D.SceneLabel(scene)
  }

  /** The detail screen and the dashboard label every template scene the
      same way; they differ only on a custom prompt. */
  lemma SceneNamesAgree(scene: string)
    ensures scene != "custom" ==> FormatSceneName(scene) == D.SceneLabel(scene)
    ensures FormatSceneName("custom") != D.SceneLabel("custom")
  {
  }

  /** The picture selected when the entry arrives: the first generated one,
      if there is any. */
  function InitialSelection(gens: seq<Entry>): (s: Option<Entry>)
    ensures s.Some? <==> gens != []
    ensures s.Some? ==> s.value == gens[0] && s.value in gens
  {
    if gens != [] then Some(gens[0]) else None
  }

  /** The selection after the picture with id `id` was deleted and
      `remaining` is what is left: a selected picture with that id gives way
      to the first remaining one, or to none; any other selection stays. */
  function Reselect(selected: Option<Entry>, remaining: seq<Entry>, id: string): (s: Option<Entry>)
    ensures selected.Some? && EntryId(selected.value) == id ==>
      s == InitialSelection(remaining)
    ensures !(selected.Some? && EntryId(selected.value) == id) ==> s == selected
  {
    if selected.Some? && EntryId(selected.value) == id then InitialSelection(remaining)
    else selected
  }

  /** After a deletion the selection is still a picture of the entry (or
      nothing), and never the deleted one. */
  lemma ReselectShown(gens: seq<Entry>, selected: Option<Entry>, id: string)
    requires selected.Some? ==> selected.value in gens
    ensures var remaining := RemoveKey(gens, EntryId, id);
      var s := Reselect(selected, remaining, id);
      (s.Some? ==> s.value in remaining && EntryId(s.value) != id)
  {
  }

  /** What the delete dialog is about. */
  datatype Target = NoTarget | GeneratedTarget(entry: Entry) | ProductTarget(image: Option<M.ImageView>)

  /** Confirming goes through when there is nothing to delete (no request
      is sent), or when the server deleted what was asked and the page could
      follow up: a picture's deletion also needs the entry it came from to be
      loaded. */
  predicate GoesThrough(deleted: bool, t: Target, data: Option<M.ImageView>) {
    t.NoTarget? || (deleted && (t.GeneratedTarget? ==> data.Some?))
  }

  const FailedDelete := "Failed to delete. Please try again."
  const DeletedVisualization := "Visualization deleted successfully"

  class DetailPage {
    var imageData: Option<M.ImageView>
    var selected: Option<Entry>
    var previewOpen: bool
    var confirmDeleteOpen: bool
    var deleteType: string
    var target: Target
    var error: Option<string>
    var success: Option<string>
    var leftForGallery: bool

    /** `deleteType` names the kind of `imageToDelete`: `generated` for a
        generated picture, `product` for the whole entry, empty for none. */
    ghost predicate Valid()
      reads this
    {
      && (deleteType == "generated" <==> target.GeneratedTarget?)
      && (deleteType == "product" <==> target.ProductTarget?)
      && (deleteType == "" <==> target.NoTarget?)
    }

    /** The selection is one of the pictures of the loaded entry. */
    ghost predicate SelectionShown()
      reads this
    {
      selected.Some? ==> imageData.Some? && selected.value in imageData.value.generated
    }

    constructor()
      ensures Valid() && SelectionShown()
      ensures imageData.None? && selected.None? && !previewOpen && !confirmDeleteOpen
      ensures error.None? && success.None? && !leftForGallery
    {
      imageData := None;
      selected := None;
      previewOpen := false;
      confirmDeleteOpen := false;
      deleteType := "";
      target := NoTarget;
      error := None;
      success := None;
      leftForGallery := false;
    }

    /** `fetchImageData` once `GET /images/<id>` answered: the entry is
        shown and its first generated picture selected; an entry without one
        leaves the selection as it was. */
    method Loaded(image: M.ImageView)
      requires Valid()
      modifies this
      ensures Valid() && imageData == Some(image)
      ensures image.generated != [] ==> selected == InitialSelection(image.generated) && SelectionShown()
      ensures image.generated == [] ==> selected == old(selected)
      ensures previewOpen == old(previewOpen) && confirmDeleteOpen == old(confirmDeleteOpen)
      ensures target == old(target) && error == old(error) && success == old(success)
    {
      imageData := Some(image);
      if image.generated != [] {
        selected := Some(image.generated[0]);
      }
    }

    /** `handleImageSelect`. */
    method ImageSelect(image: Entry)
      requires Valid() && SelectionShown()
      requires imageData.Some? && image in imageData.value.generated
      modifies this
      ensures Valid() && SelectionShown() && selected == Some(image)
      ensures imageData == old(imageData) && previewOpen == old(previewOpen)
      ensures confirmDeleteOpen == old(confirmDeleteOpen) && target == old(target)
    {
      selected := Some(image);
    }

    /** `handleOpenPreview`: the preview opens only on a selected picture. */
    method OpenPreview()
      requires Valid()
      modifies this
      ensures Valid()
      ensures previewOpen <==> old(previewOpen) || selected.Some?
      ensures selected == old(selected) && imageData == old(imageData)
      ensures confirmDeleteOpen == old(confirmDeleteOpen) && target == old(target)
    {
      if selected.Some? {
        previewOpen := true;
      }
    }

    /** `handleClosePreview`. */
    method ClosePreview()
      requires Valid()
      modifies this
      ensures Valid() && !previewOpen
      ensures selected == old(selected) && imageData == old(imageData)
      ensures confirmDeleteOpen == old(confirmDeleteOpen) && target == old(target)
    {
      previewOpen := false;
    }

    /** `handleDeleteGeneratedImage`. */
    method DeleteGeneratedImage(g: Entry)
      requires Valid()
      modifies this
      ensures Valid() && confirmDeleteOpen && target == GeneratedTarget(g) && deleteType == "generated"
      ensures selected == old(selected) && imageData == old(imageData) && previewOpen == old(previewOpen)
    {
      target := GeneratedTarget(g);
      deleteType := "generated";
      confirmDeleteOpen := true;
    }

    /** `handleDeleteProduct`. */
    method DeleteProduct()
      requires Valid()
      modifies this
      ensures Valid() && confirmDeleteOpen && target == ProductTarget(imageData) && deleteType == "product"
      ensures selected == old(selected) && imageData == old(imageData) && previewOpen == old(previewOpen)
    {
      target := ProductTarget(imageData);
      deleteType := "product";
      confirmDeleteOpen := true;
    }

    /** `handleCancelDelete`: the dialog closes and forgets its target. */
    method CancelDelete()
      requires Valid()
      modifies this
      ensures Valid() && !confirmDeleteOpen && target == NoTarget && deleteType == ""
      ensures selected == old(selected) && imageData == old(imageData) && previewOpen == old(previewOpen)
      ensures error == old(error) && success == old(success)
    {
      confirmDeleteOpen := false;
      target := NoTarget;
      deleteType := "";
    }

    /** The local follow-up to a deleted picture: the entry loses every
        picture with the id and the selection moves off it. */
    method DropGenerated(id: string)
      requires Valid() && SelectionShown() && imageData.Some?
      modifies this
      ensures Valid() && SelectionShown()
      ensures var remaining := RemoveKey(old(imageData).value.generated, EntryId, id);
        && imageData == Some(old(imageData).value.(generated := remaining))
        && selected == Reselect(old(selected), remaining, id)
      ensures success == Some(DeletedVisualization)
      ensures target == old(target) && deleteType == old(deleteType) && confirmDeleteOpen == old(confirmDeleteOpen)
      ensures previewOpen == old(previewOpen) && error == old(error) && leftForGallery == old(leftForGallery)
    {
      var remaining := RemoveKey(imageData.value.generated, EntryId, id);
      ReselectShown(imageData.value.generated, selected, id);
      imageData := Some(imageData.value.(generated := remaining));
      selected := Reselect(selected, remaining, id);
      success := Some(DeletedVisualization);
    }

    /** `handleConfirmDelete`, given whether the server's `DELETE` succeeded.
        A deleted picture leaves the entry (every picture with its id, the
        others in order), the selection moves off it, and the dialog closes
        and forgets its target; a deleted entry sends the user back to the
        gallery. With nothing to delete no request is sent and the dialog
        just closes, whatever `deleted` says. A failure (including a picture
        to delete with no entry loaded) only reports the error and closes the
        dialog. */
    method ConfirmDelete(deleted: bool)
      requires Valid() && SelectionShown()
      modifies this
      ensures Valid() && SelectionShown()
      ensures !GoesThrough(deleted, old(target), old(imageData)) ==>
        && error == Some(FailedDelete) && !confirmDeleteOpen
        && imageData == old(imageData) && selected == old(selected) && target == old(target)
      ensures GoesThrough(deleted, old(target), old(imageData)) && old(target).ProductTarget? ==>
        && leftForGallery && confirmDeleteOpen == old(confirmDeleteOpen)
        && imageData == old(imageData) && selected == old(selected) && target == old(target)
      ensures GoesThrough(deleted, old(target), old(imageData)) && old(target).GeneratedTarget? ==>
        var id := EntryId(old(target).entry);
        var remaining := RemoveKey(old(imageData).value.generated, EntryId, id);
        && imageData == Some(old(imageData).value.(generated := remaining))
        && selected == Reselect(old(selected), remaining, id)
        && success == Some(DeletedVisualization)
        && !confirmDeleteOpen && target == NoTarget
      ensures GoesThrough(deleted, old(target), old(imageData)) && old(target).NoTarget? ==>
        && !confirmDeleteOpen && target == NoTarget
        && imageData == old(imageData) && selected == old(selected)
      ensures previewOpen == old(previewOpen)
    {
      if !GoesThrough(deleted, target, imageData) {
        error := Some(FailedDelete);
        confirmDeleteOpen := false;
        return;
      }
      if target.GeneratedTarget? {
        DropGenerated(EntryId(target.entry));
      } else if target.ProductTarget? {
        leftForGallery := true;
        return;
      }
      confirmDeleteOpen := false;
      target := NoTarget;
      deleteType := "";
    }
  }
}
