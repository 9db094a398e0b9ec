/**
 * The posting form (screens/Sell.js): its four fields, the image picker's
 * effect on them, and what "post" validates, writes and resets.
 */
module Sell {
  import opened Wrappers
  import opened Listing

  const InitialCategory: string := "3D Art"
  const FillInAllFields: string := "Please fill in all fields."

  /** A picked image; only its `uri` is used. */
  datatype Asset = Asset(uri: string)

  /** What the image library returns: cancelled, or the picked assets (possibly absent). */
  datatype PickResult = Canceled | Picked(assets: Option<seq<Asset>>)

  /** What a press of "post" ends in. */
  datatype SubmitOutcome =
    | Rejected(message: string)     // validation alert; nothing written
    | NoUser                        // `auth.currentUser.uid` throws; nothing written
    | Posted(record: ProductRecord) // the record was written; the form is reset
    | WriteFailed                   // the write threw; alert with its message

  /** `!description || images.length === 0 || !category || !artistName`. */
  predicate FormIncomplete(description: string, category: string, artistName: string, images: seq<Asset>)
  {
    description == "" || |images| == 0 || category == "" || artistName == ""
  }

  /** `images.map(image => image.uri)`. */
  function ImageUris(images: seq<Asset>): (uris: seq<string>)
    ensures |uris| == |images|
    ensures forall i :: 0 <= i < |images| ==> uris[i] == images[i].uri
  {
    seq(|images|, i requires 0 <= i < |images| => images[i].uri)
  }

  /** `newProduct`: the form's texts, the uris of its images and the poster's id. */
  function BuildRecord(description: string, category: string, artistName: string, images: seq<Asset>, uid: string): ProductRecord
  {
    ProductRecord(description, category, ImageUris(images), uid, artistName)
  }

  /** The outcome of `handleSubmit` for the form's fields, the signed-in user and the write's fate. */
  function SubmitDecision(description: string, category: string, artistName: string, images: seq<Asset>,
                          user: Option<string>, writeOk: bool): SubmitOutcome
  {
    if FormIncomplete(description, category, artistName, images) then Rejected(FillInAllFields)
    else if user.None? then NoUser
    else if writeOk then Posted(BuildRecord(description, category, artistName, images, user.value))
    else WriteFailed
  }

  /**
   * A submission is rejected exactly when a field is empty; otherwise the
   * record written carries the texts unchanged, one uri per image in the
   * same order, and the poster's id.
   */
  lemma SubmitDecisionSpec(description: string, category: string, artistName: string, images: seq<Asset>,
                           user: Option<string>, writeOk: bool)
    ensures var o := SubmitDecision(description, category, artistName, images, user, writeOk);
            (o == Rejected(FillInAllFields) <==>
               description == "" || images == [] || category == "" || artistName == "")
            && (o.Posted? <==> description != "" && images != [] && category != "" && artistName != ""
                               && user.Some? && writeOk)
    ensures var o := SubmitDecision(description, category, artistName, images, user, writeOk);
            o.Posted? ==>
              o.record.description == description && o.record.category == category
              && o.record.artistName == artistName && Some(o.record.userId) == user
              && |o.record.imageUris| == |images|
              && (forall i :: 0 <= i < |images| ==> o.record.imageUris[i] == images[i].uri)
  {
  }

  /** A posted record has every text and at least one image uri. */
  lemma PostedRecordIsComplete(description: string, category: string, artistName: string, images: seq<Asset>,
                               user: Option<string>, writeOk: bool)
    requires SubmitDecision(description, category, artistName, images, user, writeOk).Posted?
    ensures var r := SubmitDecision(description, category, artistName, images, user, writeOk).record;
            r.description != "" && r.category != "" && r.artistName != "" && |r.imageUris| > 0
  {
  }

  /** The form state of the posting screen. */
  class SellForm {
    var description: string
    var category: string
    var artistName: string
    var images: seq<Asset>

    /** The form as it opens. */
    predicate IsInitial()
      reads this
    {
      description == "" && category == InitialCategory && artistName == "" && images == []
    }

    constructor ()
      ensures IsInitial()
    {
      description, category, artistName, images := "", InitialCategory, "", [];
    }

    /** `handleImagePick`: a cancelled pick changes nothing; otherwise the pick replaces the images. */
    method HandleImagePick(result: PickResult)
      modifies this`images
      ensures result.Canceled? ==> images == old(images)
      ensures result.Picked? && result.assets.Some? ==> images == result.assets.value
      ensures result.Picked? && result.assets.None? ==> images == []
    {
      if !result.Canceled? {
        images := if result.assets.Some? then result.assets.value else [];
      }
    }

    /** `handleSubmit`: only a successful write resets the form. */
    method HandleSubmit(user: Option<string>, writeOk: bool) returns (outcome: SubmitOutcome)
      modifies this
      ensures outcome == SubmitDecision(old(description), old(category), old(artistName), old(images), user, writeOk)
      ensures outcome.Posted? ==> IsInitial()
      ensures !outcome.Posted? ==>
                description == old(description) && category == old(category)
                && artistName == old(artistName) && images == old(images)
    {
      if FormIncomplete(description, category, artistName, images) {
        return Rejected(FillInAllFields);
      }
      if user.None? {
        return NoUser;
      }
      var newProduct := BuildRecord(description, category, artistName, images, user.value);
      if !writeOk {
        return WriteFailed;
      }
      description := "";
      category := InitialCategory;
      artistName := "";
      images := [];
      outcome := Posted(newProduct);
    }
  }
}
