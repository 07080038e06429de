/** The product-detail screen's comment list (ProductDetailsViewModel.kt):
    an in-memory list that only ever grows by appending. */
module ProductDetails {

  /** A Kotlin `Long`: a signed 64-bit integer. */
  type Long = x: int | -0x8000_0000_0000_0000 <= x < 0x8000_0000_0000_0000

  /** One user comment. `id` is a generated unique token and `timestamp` the
      capture time in epoch milliseconds; both come from outside the list. */
  datatype Comment = Comment(id: string, productId: string, userName: string, text: string, timestamp: Long)

  /** No two comments carry the same id. */
  predicate IdsDistinct(cs: seq<Comment>)
  {
    forall i, j :: 0 <= i < j < |cs| ==> cs[i].id != cs[j].id
  }

  /** Timestamps never decrease along the list. */
  predicate TimestampsOrdered(cs: seq<Comment>)
  {
    forall i, j :: 0 <= i < j < |cs| ==> cs[i].timestamp <= cs[j].timestamp
  }

  /** Appending a comment whose id is new keeps the ids distinct. */
  lemma AppendFreshIdKeepsDistinct(cs: seq<Comment>, c: Comment)
    requires IdsDistinct(cs)
    requires forall i :: 0 <= i < |cs| ==> cs[i].id != c.id
    ensures IdsDistinct(cs + [c])
  {
  }

  /** Appending a comment no older than the last keeps timestamps ordered. */
  lemma AppendLaterKeepsOrder(cs: seq<Comment>, c: Comment)
    requires TimestampsOrdered(cs)
    requires cs != [] ==> cs[|cs| - 1].timestamp <= c.timestamp
    ensures TimestampsOrdered(cs + [c])
  {
  }

  class ProductDetailViewModel {
    /** The published comment list; only AddComment changes it. */
    var comments: seq<Comment>

    /** The list starts empty. */
    constructor ()
      ensures comments == []
    {
      comments := [];
    }

    /** Appends a comment built from the arguments, the supplied `id` and
        the clock reading `now`. Nothing is validated and the call cannot
        fail: earlier comments stay in place and in order, and the new one is
        last. */
    method AddComment(productId: string, userName: string, text: string, id: string, now: Long)
      modifies this
      ensures comments == old(comments) + [Comment(id, productId, userName, text, now)]
      ensures |comments| == |old(comments)| + 1 && comments[..|old(comments)|] == old(comments)
    {
      var newComment := Comment(id, productId, userName, text, now);
      comments := comments + [newComment];
    }
  }

  /** Two comments on the same product: both are kept, in the order they were
      added, with distinct ids when the generated ids differ and ordered
      timestamps when the clock does not run backwards. */
  method TwoComments(firstId: string, secondId: string, firstTime: Long, secondTime: Long)
    returns (cs: seq<Comment>)
    ensures cs == [Comment(firstId, "p1", "alice", "nice", firstTime), Comment(secondId, "p1", "bob", "+1", secondTime)]
    ensures firstId != secondId ==> IdsDistinct(cs)
    ensures firstTime <= secondTime ==> TimestampsOrdered(cs)
  {
    var details := new ProductDetailViewModel();
    details.AddComment("p1", "alice", "nice", firstId, firstTime);
    details.AddComment("p1", "bob", "+1", secondId, secondTime);
    cs := details.comments;
  }

  /** An empty user name and an empty text are accepted like any other. */
  method BlankComment(id: string, now: Long) returns (cs: seq<Comment>)
    ensures cs == [Comment(id, "", "", "", now)]
  {
    var details := new ProductDetailViewModel();
    details.AddComment("", "", "", id, now);
    cs := details.comments;
  }
}
