/**
 * The remote social-network API as the fetcher sees it, reduced to the
 * shapes of its answers. Nothing here talks to a network: a fetch is
 * given the answer to its count call and the answers to its batch calls
 * in the order in which the calls are made.
 *
 * Posts are opaque to the fetcher, so every type here is generic in the
 * type P of a post.
 */
module VkApi {

  /** Answer to the "wall.get" call with count = 1: an error object carrying
      its human-readable message, or the total number of posts of the domain. */
  datatype CountResponse = CountError(errorMsg: string) | Count(count: int)

  /** Answer to one "execute" call: an error object carrying its message, or
      the items that the server-side script collected, in server order. */
  datatype BatchResponse<P> = BatchError(errorMsg: string) | Items(items: seq<P>)

  /** What distinguishes one "execute" call from another: the domain and
      the offset substituted into the server-side script. */
  datatype BatchRequest = BatchRequest(domain: string, offset: int)

  /** The items a batch answer contributes; an error contributes none. */
  function ItemsOf<P>(response: BatchResponse<P>): (items: seq<P>)
  {
    if response.Items? then response.items else []
  }

  /** The items of all the given answers, one answer after the other, each in
      its own order. */
  function Concat<P>(responses: seq<BatchResponse<P>>): (all: seq<P>)
  {
    if responses == [] then [] else ItemsOf(responses[0]) + Concat(responses[1..])
  }

  /** Concat of a one-element-longer prefix extends Concat of the prefix by
      that element's items: appending batch after batch builds Concat. */
  lemma {:induction false} ConcatSnoc<P>(responses: seq<BatchResponse<P>>, n: nat)
    requires n < |responses|
    ensures Concat(responses[..n + 1]) == Concat(responses[..n]) + ItemsOf(responses[n])
  {
    if n == 0 {
      assert responses[..1][1..] == [];
    } else {
      var tail := responses[1..];
      assert responses[..n + 1][1..] == tail[..n];
      assert responses[..n][1..] == tail[..n - 1];
      ConcatSnoc(tail, n - 1);
      calc {
        Concat(responses[..n + 1]);
        ItemsOf(responses[0]) + Concat(tail[..n]);
        ItemsOf(responses[0]) + (Concat(tail[..n - 1]) + ItemsOf(tail[n - 1]));
        (ItemsOf(responses[0]) + Concat(tail[..n - 1])) + ItemsOf(responses[n]);
        Concat(responses[..n]) + ItemsOf(responses[n]);
      }
    }
  }
}
