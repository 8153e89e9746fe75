/**
 * The detail screen (src/screens/VideoDetailScreen.tsx): a like button with
 * its own two state cells, and a fixed list of mock comments.
 */
module VideoDetailScreen {
  import opened JsText

  datatype Comment = Comment(id: string, author: string, text: string, avatar: string, time: string)

  const MockComments: seq<Comment> := [
    Comment("1", "Maria Bianchi",
            "Bellissimo video! Mi hai fatto venire voglia di viaggiare! \U{1F31F}",
            "https://i.pravatar.cc/40?img=2", "2 ore fa"),
    Comment("2", "Giuseppe Verde",
            "Fantastico! Dove hai girato questo video? Sembra un posto incredibile!",
            "https://i.pravatar.cc/40?img=3", "4 ore fa"),
    Comment("3", "Anna Rossi",
            "Complimenti per la qualit\U{00E0} del video! Molto professionale \U{1F44F}",
            "https://i.pravatar.cc/40?img=4", "1 giorno fa")
  ]

  /** The number next to the comments title: one per mock comment, three in all. */
  function CommentsCount(): (n: nat)
    ensures n == 3
    ensures n == |MockComments|
  {
    |MockComments|
  }

  const InitialLikes: int := 123

  class LikeButton {
    var isLiked: bool
    var likeCount: int

    /** The count is the initial one, plus one while the video is liked. */
    ghost predicate Valid()
      reads this
    {
      likeCount == InitialLikes + (if isLiked then 1 else 0)
    }

    /** `useState(false)` and `useState(123)`. */
    constructor ()
      ensures Valid()
      ensures !isLiked && likeCount == InitialLikes
    {
      isLiked, likeCount := false, InitialLikes;
    }

    /**
     * `handleLike`, as one step: both updates read the `isLiked` of the
     * render the handler was created in, i.e. the value before the toggle.
     */
    method HandleLike()
      modifies this
      ensures isLiked == !old(isLiked)
      ensures likeCount == if old(isLiked) then old(likeCount) - 1 else old(likeCount) + 1
      ensures old(Valid()) ==> Valid()
    {
      var wasLiked := isLiked;
      isLiked := !wasLiked;
      likeCount := if wasLiked then likeCount - 1 else likeCount + 1;
    }

    /** `{likeCount} Mi piace`: in a reachable state, 124 while liked and 123 otherwise. */
    function Label(): (s: string)
      reads this
      ensures Valid() ==> (s == "124 Mi piace" <==> isLiked)
      ensures Valid() ==> (s == "123 Mi piace" <==> !isLiked)
    {
      assert DecimalString(123) == "123";
      assert DecimalString(124) == "124";
      assert ("123" + " Mi piace")[2] != ("124" + " Mi piace")[2];
      IntString(likeCount) + " Mi piace"
    }
  }

  /** Two presses in a row give back the state before the first. */
  method LikeTwice(button: LikeButton)
    modifies button
    ensures button.isLiked == old(button.isLiked)
    ensures button.likeCount == old(button.likeCount)
  {
    button.HandleLike();
    button.HandleLike();
  }
}
