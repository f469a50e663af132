/**
 * The choice of what fills a row's Photo cell (app.py, the image block inside
 * create_pdf's row loop): the uploaded image, else the model's automatic image,
 * else the "No Image" placeholder.
 */
module Photo {
  import opened Wrappers
  import opened Items
  import opened Assets

  /** What is handed to pdf.image: the uploaded bytes (written to a temporary file) or a file path. */
  datatype ImageSource = UploadedBytes(bytes: seq<bv8>) | ImageFile(path: string)

  /** What the Photo cell shows. */
  datatype PhotoChoice = UploadedPhoto | AutoPhoto(path: string) | NoImage

  /**
   * The priority rule as a value. 'drawable' says whether placing an image
   * succeeds (pdf.image and, for an upload, the temporary file); a failure
   * is caught by the source and only leaves image_added false.
   */
  function SelectPhoto(item: LineItem, d: Dir, drawable: ImageSource -> bool): PhotoChoice {
    if item.imageData.Some? && item.imageType == Uploaded && drawable(UploadedBytes(item.imageData.value)) then
      UploadedPhoto
    else if item.imageType == Auto then
      match AutoImage(d, item.model)
      case Some(p) => if p != "" && Exists(d, p) && drawable(ImageFile(p)) then AutoPhoto(p) else NoImage
      case None => NoImage
    else NoImage
  }

  /** The image block: try the upload, then (only for 'auto') the model image, then write the placeholder. */
  method PlacePhoto(item: LineItem, d: Dir, drawable: ImageSource -> bool) returns (choice: PhotoChoice)
    ensures choice == SelectPhoto(item, d, drawable)
  {
    var imageAdded := false;
    choice := NoImage;
    if item.imageData.Some? && item.imageType == Uploaded {
      if drawable(UploadedBytes(item.imageData.value)) {
        choice := UploadedPhoto;
        imageAdded := true;
      }
    }
    if !imageAdded && item.imageType == Auto {
      var imagePath := GetImageForModel(d, item.model);
      if imagePath.Some? && imagePath.value != "" && Exists(d, imagePath.value) {
        if drawable(ImageFile(imagePath.value)) {
          choice := AutoPhoto(imagePath.value);
          imageAdded := true;
        }
      }
    }
    if !imageAdded {
      choice := NoImage;
    }
  }

  /** The uploaded image is shown exactly when there is upload data, the type is 'uploaded', and placing it succeeds. */
  lemma UploadedIff(item: LineItem, d: Dir, drawable: ImageSource -> bool)
    ensures SelectPhoto(item, d, drawable) == UploadedPhoto <==>
      item.imageData.Some? && item.imageType == Uploaded && drawable(UploadedBytes(item.imageData.value))
  {
  }

  /**
   * The automatic image is shown exactly when the type is 'auto', the model's
   * file resolves, and placing that file succeeds; the existence re-check in the
   * source never rejects a resolved path.
   */
  lemma AutoIff(item: LineItem, d: Dir, drawable: ImageSource -> bool)
    ensures SelectPhoto(item, d, drawable).AutoPhoto? <==>
      item.imageType == Auto && AutoImage(d, item.model).Some?
      && drawable(ImageFile(AutoImage(d, item.model).value))
    ensures SelectPhoto(item, d, drawable).AutoPhoto? ==>
      SelectPhoto(item, d, drawable).path == AutoImage(d, item.model).value
  {
    if AutoImage(d, item.model).Some? {
      AutoImageExists(d, item.model);
    }
  }

  /** An upload that cannot be placed yields the placeholder, never the automatic image. */
  lemma FailedUploadGivesPlaceholder(item: LineItem, d: Dir, drawable: ImageSource -> bool)
    requires item.imageType == Uploaded
    requires item.imageData.None? || !drawable(UploadedBytes(item.imageData.value))
    ensures SelectPhoto(item, d, drawable) == NoImage
  {
  }

  /** An upload that can be placed wins however the directories look. */
  lemma UploadBeatsAuto(item: LineItem, d: Dir, d': Dir, drawable: ImageSource -> bool)
    requires item.imageData.Some? && item.imageType == Uploaded && drawable(UploadedBytes(item.imageData.value))
    ensures SelectPhoto(item, d, drawable) == SelectPhoto(item, d', drawable) == UploadedPhoto
  {
  }

  /** A model missing from the image table ("Other", say) shows the upload or the placeholder, never an automatic image. */
  lemma UnmappedModelNoAuto(item: LineItem, d: Dir, drawable: ImageSource -> bool)
    requires item.model !in ModelImageMap
    ensures SelectPhoto(item, d, drawable) != NoImage ==> SelectPhoto(item, d, drawable) == UploadedPhoto
  {
    UnmappedModelHasNoImage(d, item.model);
  }

  /** A row whose image type is neither 'auto' nor 'uploaded' (Python's None) always shows the placeholder. */
  lemma UnsetTypeGivesPlaceholder(item: LineItem, d: Dir, drawable: ImageSource -> bool)
    requires item.imageType == Unset
    ensures SelectPhoto(item, d, drawable) == NoImage
  {
  }
}
