/** Which images of a whole history keep their data, and what the messages say
    about those that lost it. */
module ImageBudget {
  import opened Common
  import opened AgentContext

  // ---- the note of a message ----

  function WithoutData(images: seq<RawImage>): nat {
    if images == [] then 0
    else
      var image := images[|images| - 1];
      WithoutData(images[..|images| - 1]) + (if image.Image? && image.data.None? then 1 else 0)
  }

  lemma {:induction false} WithoutDataAppend(images: seq<RawImage>, image: RawImage)
    ensures WithoutData(images + [image]) == WithoutData(images) + (if image.Image? && image.data.None? then 1 else 0)
  {
    assert (images + [image])[..|images|] == images;
  }

  lemma {:induction false} OmittedAreWithoutData(limits: ImageLimits, images: seq<RawImage>, used: Used)
    ensures BoundImages(limits, images, used).omitted == WithoutData(BoundImages(limits, images, used).kept)
  {
    hide Declared, Within;
    if images != [] {
      var n := |images| - 1;
      var before := BoundImages(limits, images[..n], used);
      OmittedAreWithoutData(limits, images[..n], used);
      if images[n].Image? {
        WithoutDataAppend(before.kept, images[n]);
        WithoutDataAppend(before.kept, images[n].(data := None));
      }
    }
  }

  /** The bounded message depends on the messages up to it only. */
  lemma {:induction false} BoundPrefix(limits: ImageLimits, history: seq<Item>, i: nat)
    requires i < |history|
    ensures |BoundHistory(limits, history).items| == |history|
    ensures |BoundHistory(limits, history[..i + 1]).items| == i + 1
    ensures BoundHistory(limits, history).items[i] == BoundHistory(limits, history[..i + 1]).items[i]
    decreases |history|
  {
    MessagesKeepOrder(limits, history);
    MessagesKeepOrder(limits, history[..i + 1]);
    hide BoundImages;
    var n := |history| - 1;
    if i < n {
      MessagesKeepOrder(limits, history[..n]);
      BoundPrefix(limits, history[..n], i);
      assert history[..n][..i + 1] == history[..i + 1];
    } else {
      assert history[..i + 1] == history;
    }
  }

  /** The images of the i-th message, bounded behind all that was kept before. */
  lemma {:induction false} BoundMessage(limits: ImageLimits, history: seq<Item>, i: nat)
    requires i < |history| && Carries(history[i])
    ensures
      var used := BoundHistory(limits, history[..i]).used;
      var bounded := BoundImages(limits, history[i].images.value, used);
      && |BoundHistory(limits, history).items| == |history|
      && BoundHistory(limits, history).items[i]
           == history[i].(images := Some(bounded.kept), note := if bounded.omitted > 0 then bounded.omitted
                          else history[i].note)
  {
    BoundPrefix(limits, history, i);
    MessagesKeepOrder(limits, history[..i]);
    hide BoundImages;
    assert history[..i + 1][..i] == history[..i];
  }

  /** A message notes exactly how many of its images come without data, and
      keeps its text as it was when all have theirs. */
  lemma {:induction false} NoteCountsMissing(limits: ImageLimits, history: seq<Item>, i: nat)
    requires i < |history| && Carries(history[i])
    ensures |BoundHistory(limits, history).items| == |history|
    ensures
      var item := BoundHistory(limits, history).items[i];
      && Carries(item)
      && item.note == (if WithoutData(item.images.value) > 0 then WithoutData(item.images.value) else history[i].note)
  {
    BoundMessage(limits, history, i);
    hide BoundImages, BoundHistory;
    OmittedAreWithoutData(limits, history[i].images.value, BoundHistory(limits, history[..i]).used);
  }

  // ---- which images keep their data ----

  /** Over the whole history an image keeps its data exactly when it has data and
      still fits beside all images that kept theirs, in earlier messages and
      before it in its own. */
  lemma {:induction false} DataKeptOverHistory(limits: ImageLimits, history: seq<Item>, i: nat, j: nat)
    requires i < |history| && Carries(history[i]) && j < |Mappings(history[i].images.value)|
    ensures |BoundHistory(limits, history).items| == |history| && Carries(BoundHistory(limits, history).items[i])
    ensures
      var kept, image := BoundHistory(limits, history).items[i].images.value, Mappings(history[i].images.value)[j];
      var before := Add(HistoryData(BoundHistory(limits, history[..i]).items), DataOf(kept[..Min(j, |kept|)]));
      && j < |kept| && image.Image?
      && kept[j] == (if FitsIn(limits, before, image) then image else image.(data := None))
  {
    BoundMessage(limits, history, i);
    DataWithinBudgets(limits, history[..i]);
    hide BoundImages, BoundHistory, HistoryData, Mappings, DataOf, FitsIn, Within;
    var used := BoundHistory(limits, history[..i]).used;
    ImagesKeepOrder(limits, history[i].images.value, used);
    DataKeptIffFits(limits, history[i].images.value, used, j);
  }

  // ---- counts and pixels, read off the images ----

  /** All numbers of the image can be read. */
  predicate Readable(image: RawImage) {
    image.Image? ==> !image.byteSize.Broken? && !image.width.Broken? && !image.height.Broken?
  }

  function Side(field: Field): int {
    if field.Number? then field.value else 0
  }

  /** How many images still have data. */
  function ShownImages(images: seq<RawImage>): nat {
    if images == [] then 0
    else
      var image := images[|images| - 1];
      ShownImages(images[..|images| - 1]) + (if image.Image? && image.data.Some? then 1 else 0)
  }

  /** Their areas together. */
  function ShownPixels(images: seq<RawImage>): int {
    if images == [] then 0
    else
      var image := images[|images| - 1];
      ShownPixels(images[..|images| - 1])
      + (if image.Image? && image.data.Some? then Side(image.width) * Side(image.height) else 0)
  }

  function HistoryImages(history: seq<Item>): nat {
    if history == [] then 0
    else
      var item := history[|history| - 1];
      HistoryImages(history[..|history| - 1]) + (if Carries(item) then ShownImages(item.images.value) else 0)
  }

  function HistoryPixels(history: seq<Item>): int {
    if history == [] then 0
    else
      var item := history[|history| - 1];
      HistoryPixels(history[..|history| - 1]) + (if Carries(item) then ShownPixels(item.images.value) else 0)
  }

  ghost predicate AllReadable(history: seq<Item>) {
    forall i, j | 0 <= i < |history| && Carries(history[i]) && 0 <= j < |history[i].images.value| ::
      Readable(history[i].images.value[j])
  }

  lemma {:induction false} ShownIsData(images: seq<RawImage>)
    ensures ShownImages(images) == DataOf(images).images
  {
    if images != [] {
      ShownIsData(images[..|images| - 1]);
    }
  }

  lemma {:induction false} AreasAreData(images: seq<RawImage>)
    requires forall j | 0 <= j < |images| :: Readable(images[j])
    ensures ShownPixels(images) == DataOf(images).pixels
  {
    if images != [] {
      AreasAreData(images[..|images| - 1]);
    }
  }

  lemma {:induction false} HistoryShownIsData(history: seq<Item>)
    ensures HistoryImages(history) == HistoryData(history).images
  {
    hide ShownImages, DataOf;
    if history != [] {
      var n := |history| - 1;
      HistoryShownIsData(history[..n]);
      if Carries(history[n]) {
        ShownIsData(history[n].images.value);
      }
    }
  }

  lemma {:induction false} HistoryAreasAreData(history: seq<Item>)
    requires AllReadable(history)
    ensures HistoryPixels(history) == HistoryData(history).pixels
  {
    hide Readable, ShownPixels, DataOf;
    if history != [] {
      var n := |history| - 1;
      HistoryAreasAreData(history[..n]);
      if Carries(history[n]) {
        AreasAreData(history[n].images.value);
      }
    }
  }

  lemma {:induction false} StillReadable(limits: ImageLimits, history: seq<Item>)
    requires AllReadable(history)
    ensures AllReadable(BoundHistory(limits, history).items)
  {
    var items := BoundHistory(limits, history).items;
    MessagesKeepOrder(limits, history);
    hide BoundHistory, Mappings;
    forall i, j | 0 <= i < |items| && Carries(items[i]) && 0 <= j < |items[i].images.value|
      ensures Readable(items[i].images.value[j])
    {
      var image := Mappings(history[i].images.value)[j];
      assert SameOrStripped(items[i].images.value[j], image);
      MappingsAreImages(history[i].images.value, image);
    }
  }

  /** The images shown are never more than allowed, and where all numbers can be
      read neither are their areas. */
  lemma {:induction false} ShownWithinBudgets(limits: ImageLimits, history: seq<Item>)
    ensures HistoryImages(BoundHistory(limits, history).items) <= limits.maxImages
    ensures AllReadable(history) ==> HistoryPixels(BoundHistory(limits, history).items) <= limits.maxPixels
  {
    DataWithinBudgets(limits, history);
    HistoryShownIsData(BoundHistory(limits, history).items);
    hide BoundHistory, HistoryImages, HistoryPixels, HistoryData;
    if AllReadable(history) {
      StillReadable(limits, history);
      HistoryAreasAreData(BoundHistory(limits, history).items);
    }
  }

  // ---- sizes that are not given ----

  /** The numbers can be read, and the size in bytes is missing or no smaller than the data. */
  predicate GivesNoLess(image: RawImage) {
    && Readable(image)
    && (image.Image? && image.data.Some? && image.byteSize.Number? ==> |image.data.value| <= image.byteSize.value)
  }

  /** A size that is not given is the size of the data, so only readable sizes
      that are given too small can let data exceed the byte budget. */
  lemma {:induction false} MissingSizesAreSafe(limits: ImageLimits, history: seq<Item>)
    requires forall i, j | 0 <= i < |history| && Carries(history[i]) && 0 <= j < |history[i].images.value| ::
               GivesNoLess(history[i].images.value[j])
    ensures HistoryBytes(BoundHistory(limits, history).items) <= limits.maxBytes
  {
    forall i, j | 0 <= i < |history| && Carries(history[i]) && 0 <= j < |history[i].images.value|
      ensures DeclaresEnough(history[i].images.value[j])
    {
      assert GivesNoLess(history[i].images.value[j]);
    }
    RealDataWithinBudget(limits, history);
  }
}
