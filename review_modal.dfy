/** The review form, for a new review or for editing one. It holds the
    typed fields, the selected pros and cons, the review's stored images and
    the newly picked files, and one preview strip that shows the stored
    images first and the new files after them. At most ten images in all
    may be attached, and a review without room type, child age or party
    size is not sent. */
module ReviewModal {
  import opened Common
  import opened QueryParams
  import ReviewController

  /** A stored image of the review being edited. */
  datatype ExistingImage = ExistingImage(id: int, imageUrl: string)

  /** A file picked in the browser, with the data URL its preview shows. */
  datatype PickedFile = PickedFile(name: string, dataUrl: string)

  /** The review being edited, as the page hands it over. */
  datatype ExistingReview = ExistingReview(
    id: int, roomType: string, childAgeMonths: int, totalPeople: int, rating: real,
    content: string, pros: seq<int>, cons: seq<int>, images: seq<ExistingImage>)

  /** A pro or con of the master data list. */
  datatype ReviewOption = ReviewOption(id: int, name: string, category: string)

  const MaxImages := 10

  /** `existingImages.map(img => img.imageUrl)`. */
  function Urls(xs: seq<ExistingImage>): (r: seq<string>)
    ensures |r| == |xs| && forall i | 0 <= i < |xs| :: r[i] == xs[i].imageUrl
  {
    seq(|xs|, i requires 0 <= i < |xs| => xs[i].imageUrl)
  }

  /** The previews of picked files, in order. */
  function DataUrls(fs: seq<PickedFile>): (r: seq<string>)
    ensures |r| == |fs| && forall i | 0 <= i < |fs| :: r[i] == fs[i].dataUrl
  {
    seq(|fs|, i requires 0 <= i < |fs| => fs[i].dataUrl)
  }

  /** `s.filter((_, j) => j !== i)`: the element at i removed, or nothing
      removed when i is not an index. */
  function RemoveAt<T>(s: seq<T>, i: int): (r: seq<T>)
    ensures 0 <= i < |s| ==> |r| == |s| - 1
    ensures 0 <= i < |s| ==> forall j | 0 <= j < |r| :: r[j] == if j < i then s[j] else s[j + 1]
    ensures !(0 <= i < |s|) ==> r == s
  {
    if 0 <= i < |s| then s[..i] + s[i + 1..] else s
  }

  /** Removing from the second part of a strip leaves the first part. */
  lemma RemoveAtSecond<T>(a: seq<T>, b: seq<T>, i: int)
    requires 0 <= i
    ensures RemoveAt(a + b, |a| + i) == a + RemoveAt(b, i)
  {
  }

  /** Removing from the first part of a strip leaves the second part. */
  lemma RemoveAtFirst<T>(a: seq<T>, b: seq<T>, i: int)
    requires 0 <= i < |a|
    ensures RemoveAt(a + b, i) == RemoveAt(a, i) + b
  {
    assert (a + b)[..i] == a[..i];
    assert (a + b)[i + 1..] == a[i + 1..] + b;
  }

  lemma UrlsRemoveAt(xs: seq<ExistingImage>, i: int)
    ensures Urls(RemoveAt(xs, i)) == RemoveAt(Urls(xs), i)
  {
  }

  lemma DataUrlsRemoveAt(fs: seq<PickedFile>, i: int)
    ensures DataUrls(RemoveAt(fs, i)) == RemoveAt(DataUrls(fs), i)
  {
  }

  lemma DataUrlsAppend(a: seq<PickedFile>, b: seq<PickedFile>)
    ensures DataUrls(a + b) == DataUrls(a) + DataUrls(b)
  {
  }

  /** The strip shows the stored images and then the new files. */
  predicate PreviewsMatch(previews: seq<string>, existing: seq<ExistingImage>, images: seq<PickedFile>)
  {
    previews == Urls(existing) + DataUrls(images)
  }

  // ---------------------------------------------------------------------------
  // Opening the form

  /** `existingReview?.childAgeMonths || ''` as written: a stored age of 0
      months is falsy and opens as an empty field; any other stored age
      opens as that number (kept here as its text, which `parseInt` and the
      truthiness check read the same way). */
  function AgeFieldAsWritten(existing: Option<ExistingReview>): (field: string)
    ensures field == "" <==> existing.None? || existing.value.childAgeMonths == 0
    ensures field != "" ==> ParseInt(field) == Some(existing.value.childAgeMonths)
  {
    if existing.Some? && existing.value.childAgeMonths != 0 then
      var age := existing.value.childAgeMonths;
      ParseIntText(age);
      NatTextDigits(if age < 0 then -age else age);
      IntText(age)
    else ""
  }

  /** The age field as intended, `existingReview ? String(existingReview.childAgeMonths) : ''`:
      the stored age as text, so a newborn's 0 opens as "0", a non-empty
      and therefore truthy string. */
  function AgeField(existing: Option<ExistingReview>): (field: string)
    ensures field == "" <==> existing.None?
    ensures existing.Some? ==> ParseInt(field) == Some(existing.value.childAgeMonths)
  {
    if existing.Some? then
      var age := existing.value.childAgeMonths;
      ParseIntText(age);
      NatTextDigits(if age < 0 then -age else age);
      IntText(age)
    else ""
  }

  /** `existingReview?.totalPeople || ''`: a stored party size of 0 is
      falsy and opens as an empty field; any other opens as its text. */
  function PeopleField(existing: Option<ExistingReview>): (field: string)
    ensures field == "" <==> existing.None? || existing.value.totalPeople == 0
    ensures field != "" ==> ParseInt(field) == Some(existing.value.totalPeople)
  {
    if existing.Some? && existing.value.totalPeople != 0 then
      var people := existing.value.totalPeople;
      ParseIntText(people);
      NatTextDigits(if people < 0 then -people else people);
      IntText(people)
    else ""
  }

  /** `!roomType || !childAgeMonths || !totalPeople`. */
  predicate SubmitRefused(roomType: string, childAgeMonths: string, totalPeople: string)
  {
    roomType == "" || childAgeMonths == "" || totalPeople == ""
  }

  // ---------------------------------------------------------------------------
  // The browser's constraint validation

  /** The bounds the form's number inputs carry (`min`/`max`). */
  const AgeMin := 0
  const AgeMax := 120
  const PeopleMin := 1
  const PeopleMax := 20

  /** A `type="number"` input with `min`, `max` and the default step of 1
      is valid when its text is a whole number within the bounds; an empty
      or non-numeric text fails a `required` input. */
  predicate NumberWithin(text: string, lo: int, hi: int)
  {
    ParseInt(text).Some? && lo <= ParseInt(text).value <= hi
  }

  /** The form has no `noValidate`: the browser refuses to submit while the
      room type select is empty (`required`), or the age or party size is
      missing, not a whole number, or outside its bounds; `onSubmit` then
      never runs. */
  predicate ConstraintBlocks(roomType: string, childAgeMonths: string, totalPeople: string)
  {
    roomType == "" || !NumberWithin(childAgeMonths, AgeMin, AgeMax) || !NumberWithin(totalPeople, PeopleMin, PeopleMax)
  }

  /** Whatever `handleSubmit`'s own check refuses, the browser has refused
      already, so its alert is never reached from the form. */
  lemma ConstraintCoversAlert(roomType: string, childAgeMonths: string, totalPeople: string)
    ensures SubmitRefused(roomType, childAgeMonths, totalPeople) ==> ConstraintBlocks(roomType, childAgeMonths, totalPeople)
    ensures !ConstraintBlocks(roomType, childAgeMonths, totalPeople) ==>
      && ParseInt(childAgeMonths).Some? && AgeMin <= ParseInt(childAgeMonths).value <= AgeMax
      && ParseInt(totalPeople).Some? && PeopleMin <= ParseInt(totalPeople).value <= PeopleMax
  {
  }

  /** The browser, not the alert check, stops a party over twenty: with the
      other fields filled in, "25" passes `handleSubmit`'s check but not the
      input's `max`. */
  lemma PartyOverMaxBlocked(roomType: string)
    requires roomType != ""
    ensures !SubmitRefused(roomType, "12", "25")
    ensures ConstraintBlocks(roomType, "12", "25")
  {
    ParseIntText(25);
    NatTextDigits(25);
    assert IntText(25) == "25";
  }

  /** The check reads the field's text: an empty age is refused, while the
      text "0" of a newborn is accepted whenever the other two fields are
      filled in. */
  lemma AgeTextCheck(roomType: string, totalPeople: string)
    ensures SubmitRefused(roomType, "", totalPeople)
    ensures roomType != "" && totalPeople != "" ==> !SubmitRefused(roomType, "0", totalPeople)
  {
  }

  /** As written, editing a review of a newborn (0 months) and sending it
      unchanged is refused: the age field opened empty, so the browser's
      `required` check stops it, and `handleSubmit`'s check would too. */
  lemma ZeroMonthEditRefused(r: ExistingReview)
    requires r.childAgeMonths == 0
    ensures AgeFieldAsWritten(Some(r)) == ""
    ensures ConstraintBlocks(r.roomType, AgeFieldAsWritten(Some(r)), PeopleField(Some(r)))
    ensures SubmitRefused(r.roomType, AgeFieldAsWritten(Some(r)), PeopleField(Some(r)))
  {
  }

  /** With the intended age field, a stored review opens with the age it
      has, so sending it unchanged passes the form's check whenever the
      stored room type and party size are filled in. */
  lemma EditKeepsAge(r: ExistingReview)
    ensures AgeField(Some(r)) != "" && ParseInt(AgeField(Some(r))) == Some(r.childAgeMonths)
    ensures r.childAgeMonths == 0 ==> AgeField(Some(r)) == "0"
    ensures r.roomType != "" && r.totalPeople != 0 ==>
      !SubmitRefused(r.roomType, AgeField(Some(r)), PeopleField(Some(r)))
    ensures r.roomType != "" && AgeMin <= r.childAgeMonths <= AgeMax && PeopleMin <= r.totalPeople <= PeopleMax ==>
      !ConstraintBlocks(r.roomType, AgeField(Some(r)), PeopleField(Some(r)))
  {
  }

  // ---------------------------------------------------------------------------
  // Sending the form

  /** The body of `createReview` / `updateReview`: the number fields go
      through `parseInt`. */
  datatype ReviewData = ReviewData(
    roomType: string, childAgeMonths: Option<int>, totalPeople: Option<int>, rating: real,
    content: string, pros: seq<int>, cons: seq<int>)

  /** What pressing "send" does: nothing, an update of the edited review,
      or a create; new files are uploaded afterwards when there are any. */
  datatype Submission =
    | Refused
    | UpdateSent(reviewId: int, data: ReviewData, uploads: Option<seq<PickedFile>>)
    | CreateSent(accommodationId: int, data: ReviewData, uploads: Option<seq<PickedFile>>)

  /** The create body the server receives. */
  function CreateBodyOf(accommodationId: int, d: ReviewData): ReviewController.CreateBody
  {
    ReviewController.CreateBody(Some(accommodationId), Some(d.roomType), d.childAgeMonths, d.totalPeople,
      Some(d.rating), Some(d.content), Some(d.pros), Some(d.cons))
  }

  /** A form the browser lets through, with numbers in the number fields
      and a party of at least one, also passes the server's required-field
      check. */
  lemma SentCreatePassesServerCheck(accommodationId: int, d: ReviewData)
    requires accommodationId != 0 && d.roomType != ""
    requires d.childAgeMonths.Some? && d.totalPeople.Some? && d.totalPeople.value >= 1
    ensures !ReviewController.MissingRequired(CreateBodyOf(accommodationId, d))
  {
  }

  // ---------------------------------------------------------------------------
  // Grouping

  /** `groupedPros` / `groupedCons`: one list per category, in list order. */
  method GroupedByCategory(options: seq<ReviewOption>) returns (acc: map<string, seq<ReviewOption>>)
    ensures acc.Keys == set i | 0 <= i < |options| :: options[i].category
    ensures forall c | c in acc :: acc[c] == Select(options, (o: ReviewOption) => o.category == c)
  {
    var key := (o: ReviewOption) => o.category;
    acc := GroupBy(KeyedBy(options, key));
    KeysOfKeyedBy(options, key);
    forall c | c in acc
      ensures acc[c] == Select(options, (o: ReviewOption) => o.category == c)
    {
      GroupIsSelect(options, key, c, (o: ReviewOption) => o.category == c);
    }
  }

  // ---------------------------------------------------------------------------
  // Which image a preview stands for

  datatype PreviewTarget = StoredImage(index: int) | NewImage(index: int)

  /** The trash button of preview i: a stored image below the stored count,
      otherwise new file `i - existingCount`. */
  function TargetOf(index: int, existingCount: int): PreviewTarget
  {
    if index < existingCount then StoredImage(index) else NewImage(index - existingCount)
  }

  /** The target is the image the preview shows. */
  lemma TargetShowsPreview(previews: seq<string>, existing: seq<ExistingImage>, images: seq<PickedFile>, index: int)
    requires PreviewsMatch(previews, existing, images) && 0 <= index < |previews|
    ensures var t := TargetOf(index, |existing|);
      && (t.StoredImage? ==> t.index < |existing| && existing[t.index].imageUrl == previews[index])
      && (t.NewImage? ==> 0 <= t.index < |images| && images[t.index].dataUrl == previews[index])
  {
  }

  /** `imagePreviews.length < 10`: the "add photo" control. */
  predicate CanAddPhoto(previews: seq<string>)
  {
    |previews| < MaxImages
  }

  // ---------------------------------------------------------------------------
  // The form's state

  class ReviewForm {
    const accommodationId: int
    /** `existingReview?.id`: present when editing. */
    const editing: Option<int>
    var roomType: string
    var childAgeMonths: string
    var totalPeople: string
    var rating: real
    var content: string
    var selectedPros: seq<int>
    var selectedCons: seq<int>
    var images: seq<PickedFile>
    var imagePreviews: seq<string>
    var existingImages: seq<ExistingImage>

    ghost predicate Valid()
      reads this
    {
      PreviewsMatch(imagePreviews, existingImages, images)
    }

    /** The form opens with the edited review's values, or empty. */
    constructor(accommodationId: int, existing: Option<ExistingReview>)
      ensures Valid()
      ensures this.accommodationId == accommodationId
      ensures editing == (if existing.Some? then Some(existing.value.id) else None)
      ensures roomType == (if existing.Some? then existing.value.roomType else "")
      ensures childAgeMonths == AgeField(existing) && totalPeople == PeopleField(existing)
      ensures rating == (if existing.Some? then existing.value.rating else 0.0)
      ensures content == (if existing.Some? then existing.value.content else "")
      ensures selectedPros == (if existing.Some? then existing.value.pros else [])
      ensures selectedCons == (if existing.Some? then existing.value.cons else [])
      ensures images == []
      ensures existingImages == (if existing.Some? then existing.value.images else [])
    {
      this.accommodationId := accommodationId;
      editing := if existing.Some? then Some(existing.value.id) else None;
      roomType := if existing.Some? then existing.value.roomType else "";
      childAgeMonths := AgeField(existing);
      totalPeople := PeopleField(existing);
      rating := if existing.Some? then existing.value.rating else 0.0;
      content := if existing.Some? then existing.value.content else "";
      selectedPros := if existing.Some? then existing.value.pros else [];
      selectedCons := if existing.Some? then existing.value.cons else [];
      images := [];
      existingImages := if existing.Some? then existing.value.images else [];
      imagePreviews := Urls(if existing.Some? then existing.value.images else []);
    }

    /** `handleImageSelect`: refused, with nothing changed, when the stored,
        new and picked files would exceed ten; otherwise the files and their
        previews are appended. */
    method HandleImageSelect(files: seq<PickedFile>) returns (accepted: bool)
      requires Valid()
      modifies this
      ensures Valid()
      ensures accepted <==> |old(existingImages)| + |old(images)| + |files| <= MaxImages
      ensures !accepted ==> unchanged(this)
      ensures accepted ==> images == old(images) + files && imagePreviews == old(imagePreviews) + DataUrls(files)
      ensures accepted ==> |existingImages| + |images| <= MaxImages
      ensures existingImages == old(existingImages)
      ensures selectedPros == old(selectedPros) && selectedCons == old(selectedCons)
    {
      var totalImages := |existingImages| + |images| + |files|;
      if totalImages > MaxImages {
        return false;
      }
      DataUrlsAppend(images, files);
      images := images + files;
      imagePreviews := imagePreviews + DataUrls(files);
      accepted := true;
    }

    /** `handleRemoveNewImage`: new file i and its preview, which sits
        after the stored ones, go; nothing else changes. */
    method HandleRemoveNewImage(index: int)
      requires Valid() && 0 <= index
      modifies this
      ensures Valid()
      ensures images == RemoveAt(old(images), index)
      ensures imagePreviews == RemoveAt(old(imagePreviews), |old(existingImages)| + index)
      ensures existingImages == old(existingImages)
      ensures selectedPros == old(selectedPros) && selectedCons == old(selectedCons)
    {
      var existingCount := |existingImages|;
      RemoveAtSecond(Urls(existingImages), DataUrls(images), index);
      DataUrlsRemoveAt(images, index);
      images := RemoveAt(images, index);
      imagePreviews := RemoveAt(imagePreviews, existingCount + index);
    }

    /** `handleRemoveExistingImage`: when editing and the user confirms,
        the server is asked to delete that image of this review; once it
        has, the stored image and its preview go. */
    method HandleRemoveExistingImage(imageId: int, index: int, confirmed: bool, serverDeleted: bool)
      returns (call: Option<(int, int)>)
      requires Valid() && 0 <= index < |existingImages|
      modifies this
      ensures Valid()
      ensures call.Some? <==> editing.Some? && confirmed
      ensures call.Some? ==> call.value == (editing.value, imageId)
      ensures call.Some? && serverDeleted ==>
        && existingImages == RemoveAt(old(existingImages), index)
        && imagePreviews == RemoveAt(old(imagePreviews), index)
      ensures !(call.Some? && serverDeleted) ==> existingImages == old(existingImages) && imagePreviews == old(imagePreviews)
      ensures images == old(images)
    {
      if editing.None? || !confirmed {
        return None;
      }
      call := Some((editing.value, imageId));
      if serverDeleted {
        RemoveAtFirst(Urls(existingImages), DataUrls(images), index);
        UrlsRemoveAt(existingImages, index);
        existingImages := RemoveAt(existingImages, index);
        imagePreviews := RemoveAt(imagePreviews, index);
      }
    }

    /** The trash button on preview i: a stored image goes through the
        server, a new file is dropped at once. */
    method HandlePreviewTrash(index: int, confirmed: bool, serverDeleted: bool)
      returns (call: Option<(int, int)>)
      requires Valid() && 0 <= index < |imagePreviews|
      modifies this
      ensures Valid()
      ensures index < |old(existingImages)| ==>
        call == (if editing.Some? && confirmed then Some((editing.value, old(existingImages)[index].id)) else None)
      ensures index >= |old(existingImages)| ==>
        && call.None?
        && images == RemoveAt(old(images), index - |old(existingImages)|)
        && imagePreviews == RemoveAt(old(imagePreviews), index)
        && existingImages == old(existingImages)
    {
      if index < |existingImages| {
        call := HandleRemoveExistingImage(existingImages[index].id, index, confirmed, serverDeleted);
      } else {
        HandleRemoveNewImage(index - |existingImages|);
        call := None;
      }
    }

    /** `togglePro`. */
    method TogglePro(proId: int)
      modifies this
      ensures selectedPros == Toggle(old(selectedPros), proId)
      ensures proId in selectedPros <==> proId !in old(selectedPros)
      ensures selectedCons == old(selectedCons) && images == old(images)
      ensures imagePreviews == old(imagePreviews) && existingImages == old(existingImages)
    {
      selectedPros := if proId in selectedPros then Without(selectedPros, proId) else selectedPros + [proId];
    }

    /** `toggleCon`. */
    method ToggleCon(conId: int)
      modifies this
      ensures selectedCons == Toggle(old(selectedCons), conId)
      ensures conId in selectedCons <==> conId !in old(selectedCons)
      ensures selectedPros == old(selectedPros) && images == old(images)
      ensures imagePreviews == old(imagePreviews) && existingImages == old(existingImages)
    {
      selectedCons := if conId in selectedCons then Without(selectedCons, conId) else selectedCons + [conId];
    }

    /** Pressing "send": the browser's constraint validation first, then
        `handleSubmit`, whose own required-field check can no longer fire
        (`ConstraintCoversAlert`); an update of the edited review or a
        create, each followed by an upload of the new files when there are
        any. */
    method HandleSubmit() returns (s: Submission)
      ensures s.Refused? <==> ConstraintBlocks(roomType, childAgeMonths, totalPeople)
      ensures SubmitRefused(roomType, childAgeMonths, totalPeople) ==> s.Refused?
      ensures !s.Refused? ==>
        && s.data == ReviewData(roomType, ParseInt(childAgeMonths), ParseInt(totalPeople), rating, content, selectedPros, selectedCons)
        && s.data.childAgeMonths.Some? && AgeMin <= s.data.childAgeMonths.value <= AgeMax
        && s.data.totalPeople.Some? && PeopleMin <= s.data.totalPeople.value <= PeopleMax
        && (s.uploads.None? <==> images == [])
        && (s.uploads.Some? ==> s.uploads.value == images)
      ensures s.UpdateSent? <==> !ConstraintBlocks(roomType, childAgeMonths, totalPeople) && editing.Some?
      ensures s.UpdateSent? ==> s.reviewId == editing.value
      ensures s.CreateSent? ==> s.accommodationId == accommodationId
    {
      ConstraintCoversAlert(roomType, childAgeMonths, totalPeople);
      if ConstraintBlocks(roomType, childAgeMonths, totalPeople) {
        return Refused;
      }
      var data := ReviewData(roomType, ParseInt(childAgeMonths), ParseInt(totalPeople), rating, content, selectedPros, selectedCons);
      var uploads := if |images| > 0 then Some(images) else None;
      if editing.Some? {
        s := UpdateSent(editing.value, data, uploads);
      } else {
        s := CreateSent(accommodationId, data, uploads);
      }
    }
  }

  /** Picking files never takes the form past ten images, and while the
      add-photo control is hidden no further file can be accepted. */
  method PickWithinLimit(form: ReviewForm, files: seq<PickedFile>) returns (accepted: bool)
    requires form.Valid() && |form.existingImages| + |form.images| <= MaxImages
    modifies form
    ensures form.Valid()
    ensures |form.existingImages| + |form.images| <= MaxImages
    ensures !CanAddPhoto(old(form.imagePreviews)) && files != [] ==> !accepted
  {
    accepted := form.HandleImageSelect(files);
  }
}
