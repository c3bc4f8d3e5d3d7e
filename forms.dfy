/** The create/edit form logic the admin sections share: the required-field
    guard and the choice between PUT and POST. */
module Forms {
  import opened Net

  /** `editingId` as the handlers test it: `null` and the id `0` are both falsy. */
  predicate Editing(editingId: Option<int>)
    ensures editingId.None? ==> !Editing(editingId)
    ensures editingId == Some(0) ==> !Editing(editingId)
    ensures editingId.Some? && editingId.value != 0 ==> Editing(editingId)
  {
    editingId.Some? && editingId.value != 0
  }

  /** The negation of `!a || !b || (!image && !editingId)`: both text fields are
      non-empty, and an image is picked unless a record is being edited. */
  predicate Complete(first: string, second: string, image: Option<File>, editingId: Option<int>)
    ensures Complete(first, second, image, editingId) ==> first != "" && second != ""
    ensures image.Some? ==> (Complete(first, second, image, editingId) <==> first != "" && second != "")
    ensures image.None? ==> (Complete(first, second, image, editingId) <==> first != "" && second != "" && Editing(editingId))
  {
    first != "" && second != "" && (image.Some? || Editing(editingId))
  }

  /** The request a complete form sends: a PUT to `${path}/${editingId}` while editing,
      a POST to `path` otherwise, carrying both fields and the image only when one is picked. */
  function SubmitRequest(path: string, names: (string, string), first: string, second: string,
                         image: Option<File>, editingId: Option<int>): (r: Request)
    ensures r.Put? <==> Editing(editingId)
    ensures r.Post? <==> !Editing(editingId)
    ensures r.Put? ==> r.target == Record(path, editingId.value)
    ensures r.Post? ==> r.target == Collection(path)
    ensures r.body.image == image
    ensures r.body.fields == [(names.0, first), (names.1, second)]
  {
    var body := Body([(names.0, first), (names.1, second)], image);
    if Editing(editingId) then Put(Record(path, editingId.value), body) else Post(Collection(path), body)
  }
}
