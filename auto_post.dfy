/** The auto-post dialog: the list of generated images that are not posted
    yet, posting one of them, and the auto-posting switch. The load of the
    list, which the page simulates with a one-second timer, is one step. */
module AutoPost {
  import opened Seqs

  /** An image waiting to be posted; its picture and time stamp are only
      drawn, and are not kept. */
  datatype ImageItem = ImageItem(id: int, topic: string, prompt: string, workflowId: string, attempt: nat)

  const MockImages: seq<ImageItem> := [
    ImageItem(1, "Summer Fashion Campaign", "Vibrant summer fashion collection showcase", "WF-001", 1),
    ImageItem(2, "Tech Product Launch", "Modern tech gadget product photography", "WF-002", 1),
    ImageItem(3, "Fitness Equipment Sale", "Professional fitness equipment display", "WF-003", 2)]

  function KeepImage(id: int): ImageItem -> bool {
    (img: ImageItem) => img.id != id
  }

  /** The filter of `postSingleImage(imageId)`: every image with that id
      goes, the rest stay in order. */
  function WithoutImage(images: seq<ImageItem>, id: int): (r: seq<ImageItem>)
    ensures forall img :: img in r <==> img in images && img.id != id
    ensures |r| <= |images|
  {
    Filter(images, KeepImage(id))
  }

  /** Posting an id that is not in the list changes nothing. */
  lemma WithoutAbsentImage(images: seq<ImageItem>, id: int)
    requires forall i :: 0 <= i < |images| ==> images[i].id != id
    ensures WithoutImage(images, id) == images
  {
    FilterAll(images, KeepImage(id));
  }

  /** Posting the same image twice is posting it once. */
  lemma WithoutImageIdempotent(images: seq<ImageItem>, id: int)
    ensures WithoutImage(WithoutImage(images, id), id) == WithoutImage(images, id)
  {
    var r := WithoutImage(images, id);
    FilterAll(r, KeepImage(id));
  }

  /** Posting an image whose id no other image shares removes just that
      image and keeps the others in their order. */
  lemma WithoutUniqueImage(images: seq<ImageItem>, k: nat)
    requires k < |images|
    requires forall i :: 0 <= i < |images| && i != k ==> images[i].id != images[k].id
    ensures WithoutImage(images, images[k].id) == images[..k] + images[k + 1..]
  {
    FilterDropOne(images, k, KeepImage(images[k].id));
  }

  /** The mock images have distinct ids, so posting one leaves the other two. */
  lemma PostOneMockImage(k: nat)
    requires k < |MockImages|
    ensures |WithoutImage(MockImages, MockImages[k].id)| == 2
  {
    WithoutUniqueImage(MockImages, k);
  }

  const StartText := "\U{25B6}\U{FE0F} Start Auto Posting"
  const StopText := "\U{23F9}\U{FE0F} Stop Auto Posting"

  class AutoPostModalManager {
    var unpostedImages: seq<ImageItem>
    var isAutoPosting: bool
    var badgeVisible: bool
    var toggleText: string
    var emptyVisible: bool
    var countVisible: bool

    /** The badge and the button speak the switch. */
    ghost predicate Valid()
      reads this
    {
      badgeVisible == isAutoPosting && toggleText == (if isAutoPosting then StopText else StartText)
    }

    constructor ()
      ensures Valid() && unpostedImages == [] && !isAutoPosting
    {
      unpostedImages := [];
      isAutoPosting := false;
      badgeVisible := false;
      toggleText := StartText;
      emptyVisible := false;
      countVisible := false;
    }

    /** `loadUnpostedImages`: the list becomes the mock images; the empty
        note or the count is shown. */
    method LoadUnpostedImages() returns (loaded: nat)
      modifies this`unpostedImages, this`emptyVisible, this`countVisible
      ensures unpostedImages == MockImages && loaded == |MockImages|
      ensures emptyVisible <==> unpostedImages == []
      ensures countVisible <==> unpostedImages != []
    {
      unpostedImages := MockImages;
      emptyVisible := |unpostedImages| == 0;
      countVisible := |unpostedImages| != 0;
      loaded := |unpostedImages|;
    }

    /** `postSingleImage(imageId)`: the image leaves the list; once the list
        is empty the empty note replaces the count. */
    method PostSingleImage(imageId: int) returns (remaining: nat)
      modifies this`unpostedImages, this`emptyVisible, this`countVisible
      ensures unpostedImages == WithoutImage(old(unpostedImages), imageId)
      ensures remaining == |unpostedImages|
      ensures unpostedImages == [] ==> emptyVisible && !countVisible
      ensures unpostedImages != [] ==> (emptyVisible == old(emptyVisible) && countVisible == old(countVisible))
    {
      unpostedImages := WithoutImage(unpostedImages, imageId);
      if |unpostedImages| == 0 {
        emptyVisible := true;
        countVisible := false;
      }
      remaining := |unpostedImages|;
    }

    /** `toggleAutoPosting` flips the switch. */
    method ToggleAutoPosting()
      requires Valid()
      modifies this`isAutoPosting, this`badgeVisible, this`toggleText
      ensures Valid() && isAutoPosting == !old(isAutoPosting)
    {
      isAutoPosting := !isAutoPosting;
      if isAutoPosting {
        badgeVisible := true;
        toggleText := StopText;
      } else {
        badgeVisible := false;
        toggleText := StartText;
      }
    }
  }
}
