/**
 * The add-friend form of src/components/FormAddFriend.js: its two input
 * fields, the validation of a submit, the friend record it builds and the
 * reset of the inputs afterwards. The id generator is a parameter.
 */
module FormAddFriend {
  import opened Options
  import opened Friends

  /** The image input's initial (and reset) value. */
  const DefaultImage: string := "https://i.pravatar.cc/48"

  /** The query separator put between the typed image and the generated id. */
  const ImageSeparator: string := "?="

  /**
   * The friend a submit of `name` and `image` hands to the ledger, with `id`
   * from the id generator; `None` when either input is empty.
   */
  function Submission(name: string, image: string, id: string): (r: Option<Friend>)
    ensures r.None? <==> name == "" || image == ""
    ensures r.Some? ==> r.value.id == Uuid(id) && r.value.name == name && r.value.balance == 0
    ensures r.Some? ==> r.value.image == image + ImageSeparator + id
  {
    if name == "" || image == "" then None
    else Some(Friend(Uuid(id), name, image + ImageSeparator + id, 0))
  }

  /** The built image can be taken apart again: it starts with the typed image and ends with the id. */
  lemma ImageSplitsBack(name: string, image: string, id: string)
    requires name != "" && image != ""
    ensures var img := Submission(name, image, id).value.image;
      |img| == |image| + 2 + |id| &&
      img[..|image|] == image && img[|image|..|image| + 2] == ImageSeparator && img[|image| + 2..] == id
  {
    var img := Submission(name, image, id).value.image;
    assert img == image + ImageSeparator + id;
    assert img[..|image|] == image;
    assert img[|image| + 2..] == id;
  }

  /** Two submits of the same image with different ids give different images. */
  lemma DistinctIdsDistinctImages(name: string, image: string, id1: string, id2: string)
    requires name != "" && image != ""
    requires id1 != id2
    ensures Submission(name, image, id1).value.image != Submission(name, image, id2).value.image
  {
    ImageSplitsBack(name, image, id1);
    ImageSplitsBack(name, image, id2);
  }

  class AddFriendForm {
    var name: string
    var image: string

    /** A freshly shown form: empty name, the default avatar address. */
    constructor ()
      ensures name == "" && image == DefaultImage
    {
      name, image := "", DefaultImage;
    }

    /** Typing into the name input. */
    method EditName(s: string)
      modifies this
      ensures name == s && image == old(image)
    {
      name := s;
    }

    /** Typing into the image input. */
    method EditImage(s: string)
      modifies this
      ensures image == s && name == old(name)
    {
      image := s;
    }

    /**
     * Submitting with the generated `id`: the friend handed to the ledger, if
     * any. A successful submit resets both inputs to the initial state; a
     * rejected one leaves them as they were.
     */
    method Submit(id: string) returns (added: Option<Friend>)
      modifies this
      ensures added == Submission(old(name), old(image), id)
      ensures added.Some? ==> name == "" && image == DefaultImage
      ensures added.None? ==> name == old(name) && image == old(image)
    {
      if name == "" || image == "" {
        return None;
      }
      added := Some(Friend(Uuid(id), name, image + ImageSeparator + id, 0));
      name := "";
      image := DefaultImage;
    }
  }
}
