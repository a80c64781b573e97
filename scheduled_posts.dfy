/** The scheduled-posts list of the dashboard: deleting a post by the id
    read back from its card, and adding a post under the next free id. */
module ScheduledPosts {
  import opened Wrappers
  import opened Text
  import opened Seqs

  /** A scheduled post; its thumbnail, which is only drawn, is not kept. */
  datatype Post = Post(id: int, title: string, description: string, time: string, status: string)

  const InitialPosts: seq<Post> := [
    Post(1, "Summer Campaign 2025", "Exciting new summer collection launch",
         "03/20/2024, 03:30 PM (UTC)", "pending")]

  /** The length of the longest run of digits at the front of s. */
  function DigitRun(s: string): (k: nat)
    ensures k <= |s| && AllDigits(s[..k])
    ensures k < |s| ==> !IsDigit(s[k])
  {
    if s == [] || !IsDigit(s[0]) then 0
    else
      var k := 1 + DigitRun(s[1..]);
      assert forall i :: 1 <= i < k ==> s[..k][i] == s[1..][..k - 1][i - 1];
      k
  }

  /** `parseInt(s)` in base ten: leading white space, an optional sign and
      the digits that follow, or NaN (None) when no digit follows. */
  function ParseInt(s: string): (r: Option<int>)
    ensures r.None? <==> DigitRun(SkipSign(TrimStart(s))) == 0
  {
    var t := TrimStart(s);
    var u := SkipSign(t);
    var k := DigitRun(u);
    var magnitude: int := if k == 0 then 0 else ParseDigits(u[..k]);
    if k == 0 then None
    else if t != [] && t[0] == '-' then Some(-magnitude)
    else Some(magnitude)
  }

  function SkipSign(t: string): string {
    if t != [] && (t[0] == '+' || t[0] == '-') then t[1..] else t
  }

  /** The card of a post carries `NatToString(id)`, and reading it back gives
      the id again. */
  lemma ParseIntNatToString(n: nat)
    ensures ParseInt(NatToString(n)) == Some(n)
  {
    var s := NatToString(n);
    assert TrimStart(s) == s by {
      assert !IsWhitespace(s[0]) by { assert IsDigit(s[0]); }
    }
    assert SkipSign(s) == s by { assert IsDigit(s[0]); }
    DigitRunAllDigits(s);
    assert s[..|s|] == s;
    ParseNatToString(n);
  }

  lemma {:induction false} DigitRunAllDigits(s: string)
    requires AllDigits(s)
    ensures DigitRun(s) == |s|
  {
    if s != [] {
      DigitRunAllDigits(s[1..]);
    }
  }

  /** The filter of `deletePost`: `p.id !== parseInt(postId)`. */
  function Keep(id: Option<int>): Post -> bool {
    (p: Post) => Some(p.id) != id
  }

  /** The posts whose id is not the parsed id, in their order. NaN equals no
      id, so an unreadable id deletes nothing. */
  function RemovePost(posts: seq<Post>, id: Option<int>): (r: seq<Post>)
    ensures forall p :: p in r <==> p in posts && Some(p.id) != id
    ensures id.None? ==> r == posts
  {
    var r := Filter(posts, Keep(id));
    if id.None? then
      FilterAll(posts, Keep(id));
      r
    else
      r
  }

  /** The posts that stay keep their order: deleting from a joined list
      deletes from each part. */
  lemma RemovePostAppend(a: seq<Post>, b: seq<Post>, id: Option<int>)
    ensures RemovePost(a + b, id) == RemovePost(a, id) + RemovePost(b, id)
  {
    FilterAppend(a, b, Keep(id));
  }

  /** Deleting again deletes nothing more. */
  lemma RemovePostIdempotent(posts: seq<Post>, id: Option<int>)
    ensures RemovePost(RemovePost(posts, id), id) == RemovePost(posts, id)
  {
    var r := RemovePost(posts, id);
    FilterAll(r, Keep(id));
  }

  /** `Math.max(...ids, 0) + 1` */
  function NextId(posts: seq<Post>): (n: int)
    ensures n >= 1
    ensures forall p :: p in posts ==> p.id < n
    ensures n == 1 || exists p :: p in posts && p.id == n - 1
  {
    if posts == [] then 1
    else
      var rest := NextId(posts[1..]);
      if posts[0].id + 1 > rest then posts[0].id + 1 else rest
  }

  predicate DistinctIds(posts: seq<Post>) {
    forall i, j :: 0 <= i < j < |posts| ==> posts[i].id != posts[j].id
  }

  /** `addPost(post)`: the post is appended under the next id. */
  function AddPost(posts: seq<Post>, post: Post): (r: seq<Post>)
    ensures |r| == |posts| + 1 && r[..|posts|] == posts
    ensures r[|posts|] == post.(id := NextId(posts))
    ensures DistinctIds(posts) ==> DistinctIds(r)
  {
    posts + [post.(id := NextId(posts))]
  }

  /** Deleting a post that was just added leaves the list as it was before. */
  lemma AddThenRemove(posts: seq<Post>, post: Post)
    ensures RemovePost(AddPost(posts, post), Some(NextId(posts))) == posts
  {
    var added := post.(id := NextId(posts));
    var keep := Keep(Some(NextId(posts)));
    FilterAppend(posts, [added], keep);
    FilterAll(posts, keep);
    assert Filter([added], keep) == [] by {
      assert [added][1..] == [];
    }
  }

  /** Deleting keeps the ids distinct. */
  lemma {:induction false} RemovePostDistinct(posts: seq<Post>, id: Option<int>)
    requires DistinctIds(posts)
    ensures DistinctIds(RemovePost(posts, id))
  {
    FilterDistinct(posts, id);
  }

  lemma {:induction false} FilterDistinct(posts: seq<Post>, id: Option<int>)
    requires DistinctIds(posts)
    ensures DistinctIds(Filter(posts, Keep(id)))
  {
    if posts != [] {
      var keep := Keep(id);
      FilterDistinct(posts[1..], id);
      var tail := Filter(posts[1..], keep);
      assert forall q :: q in tail ==> q in posts[1..];
      assert forall q :: q in posts[1..] ==> q.id != posts[0].id by {
        forall q | q in posts[1..]
          ensures q.id != posts[0].id
        {
          var j :| 0 <= j < |posts[1..]| && posts[1..][j] == q;
          assert posts[j + 1] == q;
        }
      }
      assert Filter(posts, keep) == (if keep(posts[0]) then [posts[0]] else []) + tail;
    }
  }

  class ScheduledPostsManager {
    var posts: seq<Post>

    ghost predicate Valid()
      reads this
    {
      DistinctIds(posts)
    }

    constructor ()
      ensures Valid() && posts == InitialPosts
    {
      posts := InitialPosts;
    }

    /** `deletePost(postId)` with the id as the text the card carries. */
    method DeletePost(postId: string)
      requires Valid()
      modifies this`posts
      ensures Valid()
      ensures posts == RemovePost(old(posts), ParseInt(postId))
    {
      RemovePostDistinct(posts, ParseInt(postId));
      posts := Filter(posts, Keep(ParseInt(postId)));
    }

    /** `addPost(post)` */
    method AddPostItem(post: Post) returns (id: int)
      requires Valid()
      modifies this`posts
      ensures Valid()
      ensures posts == AddPost(old(posts), post) && id == NextId(old(posts))
    {
      id := NextId(posts);
      posts := AddPost(posts, post);
    }
  }

  // The delete button of a card

  /** The elements between a clicked element and the document root, as far
      as `closest(".post-item")` looks at them. */
  datatype Element = Element(isPostItem: bool, postId: string, parent: Option<Element>)

  /** `element.closest(".post-item")` */
  function Closest(e: Element): (r: Option<Element>)
    ensures r.Some? ==> r.value.isPostItem
    ensures e.isPostItem ==> r == Some(e)
  {
    if e.isPostItem then Some(e)
    else match e.parent
      case None => None
      case Some(p) => Closest(p)
  }

  /** A click event: the clicked element is its `target`. */
  datatype ClickEvent = ClickEvent(target: Element)

  /** The receiver of a method call in the handler. */
  datatype Receiver = EventValue(event: ClickEvent) | ElementValue(element: Element)

  /** `receiver.closest(".post-item")`: elements have the method; on an
      event it is undefined and calling it throws a TypeError (None). */
  function CallClosest(receiver: Receiver): (r: Option<Option<Element>>)
    ensures r.None? <==> receiver.EventValue?
  {
    match receiver
    case EventValue(_) => None
    case ElementValue(el) => Some(Closest(el))
  }

  datatype HandlerResult = Threw | NoCard | Deleted(remaining: seq<Post>)

  function DeleteWithCard(posts: seq<Post>, found: Option<Option<Element>>): HandlerResult {
    match found
    case None => Threw
    case Some(None) => NoCard
    case Some(Some(card)) => Deleted(RemovePost(posts, ParseInt(card.postId)))
  }

  /** The delete handler as written calls `closest` on the event itself. */
  function DeleteClickAsWritten(posts: seq<Post>, e: ClickEvent): (r: HandlerResult)
    ensures r == Threw
  {
    DeleteWithCard(posts, CallClosest(EventValue(e)))
  }

  /** So a click inside a card, which the intended handler turns into a
      deletion, throws before `deletePost` runs, and nothing is deleted. */
  lemma DeleteClickAsWrittenNeverDeletes(posts: seq<Post>, e: ClickEvent)
    requires Closest(e.target).Some?
    ensures DeleteClickAsWritten(posts, e) == Threw && DeleteClick(posts, e).Deleted?
  {
  }

  /** The handler as intended calls `closest` on the clicked element. */
  function DeleteClick(posts: seq<Post>, e: ClickEvent): (r: HandlerResult)
    ensures r.Deleted? <==> Closest(e.target).Some?
    ensures r.Deleted? ==> r.remaining == RemovePost(posts, ParseInt(Closest(e.target).value.postId))
  {
    DeleteWithCard(posts, CallClosest(ElementValue(e.target)))
  }

  /** A click anywhere inside the card of a post deletes exactly that post. */
  lemma DeleteClickRemovesCardPost(posts: seq<Post>, post: Post, inner: Element)
    requires post.id >= 0
    requires Closest(inner).Some? && Closest(inner).value.postId == NatToString(post.id)
    ensures DeleteClick(posts, ClickEvent(inner)).Deleted?
    ensures forall p :: p in DeleteClick(posts, ClickEvent(inner)).remaining
                 <==> p in posts && p.id != post.id
  {
    ParseIntNatToString(post.id);
  }
}
