/**
 * PostFetcher: fetches every post of a group or personal page ("domain")
 * in two steps. A count call stores the total number of posts of the
 * domain; then a loop issues one "execute" call per chunk of up to 2500
 * posts, at offsets 0, 2500, 5000, ..., and appends each chunk's items,
 * until at least the total has been collected. Any error answer aborts
 * the whole fetch with the remote message and returns no posts.
 *
 * The remote answers are parameters (see module VkApi). The pure functions
 * BatchLoop and Fetch say what one fetch does; the class PostFetcher runs
 * it step by step and is proved to agree with them; the lemmas state the
 * loop-shape facts about the specification.
 */
module PostFetching {
  import opened VkApi

  /** How far the offset advances after each batch, and the most items one
      server-side script collects. */
  const BATCH_SIZE: nat := 2500

  /** How one fetch ends. ResponsesExhausted is the model's own outcome: the
      loop still needed posts but no further batch answer was supplied. */
  datatype FetchOutcome<P> =
    | Fetched(posts: seq<P>)
    | RemoteApiError(message: string)
    | ResponsesExhausted

  /** The outcome of a fetch together with the batch requests it issued,
      in the order it issued them. */
  datatype Run<P> = Run(outcome: FetchOutcome<P>, requests: seq<BatchRequest>)

  /** The batch loop from a given state: `fetched` posts already collected,
      the next request at `offset`, and `responses` the answers still to come. */
  function BatchLoop<P>(domain: string, total: int, fetched: seq<P>, offset: int,
                        responses: seq<BatchResponse<P>>): (run: Run<P>)
    decreases |responses|
  {
    if |fetched| >= total then Run(Fetched(fetched), [])
    else if responses == [] then Run(ResponsesExhausted, [])
    else
      var request := BatchRequest(domain, offset);
      match responses[0]
      case BatchError(msg) => Run(RemoteApiError(msg), [request])
      case Items(items) =>
        var rest := BatchLoop(domain, total, fetched + items, offset + BATCH_SIZE, responses[1..]);
        Run(rest.outcome, [request] + rest.requests)
  }

  /** One whole fetch for `domain`, given the answer to the count call and
      the answers to the batch calls in order. */
  function Fetch<P>(domain: string, countResponse: CountResponse,
                    responses: seq<BatchResponse<P>>): (run: Run<P>)
  {
    match countResponse
    case CountError(msg) => Run(RemoteApiError(msg), [])
    case Count(total) => BatchLoop(domain, total, [], 0, responses)
  }

  /** Number of full batches needed to collect `total` posts: ceil(total / 2500),
      and none when there is nothing to collect. */
  function BatchesNeeded(total: int): (batches: nat)
    ensures total <= BATCH_SIZE * batches
    ensures batches == 0 || BATCH_SIZE * (batches - 1) < total
  {
    if total <= 0 then 0 else (total + BATCH_SIZE - 1) / BATCH_SIZE
  }

  /** The end of a run preceded by the requests made before it. */
  function After<P>(earlier: seq<BatchRequest>, run: Run<P>): (whole: Run<P>)
  {
    Run(run.outcome, earlier + run.requests)
  }

  /** One pass of the loop on an item answer: the request at `offset`, then
      the loop from the extended list and the next offset. */
  lemma UnfoldItems<P>(domain: string, total: int, fetched: seq<P>, offset: int,
                       responses: seq<BatchResponse<P>>, earlier: seq<BatchRequest>)
    requires |fetched| < total && responses != [] && responses[0].Items?
    ensures After(earlier, BatchLoop(domain, total, fetched, offset, responses))
            == After(earlier + [BatchRequest(domain, offset)],
                     BatchLoop(domain, total, fetched + responses[0].items, offset + BATCH_SIZE, responses[1..]))
  {
    var rest := BatchLoop(domain, total, fetched + responses[0].items, offset + BATCH_SIZE, responses[1..]);
    assert earlier + ([BatchRequest(domain, offset)] + rest.requests)
           == (earlier + [BatchRequest(domain, offset)]) + rest.requests;
  }

  /** Outcome of the count step: the total was stored, or the remote error message. */
  datatype CountOutcome = CountStored | CountFailed(message: string)

  class PostFetcher {
    /** Group or person address, e.g. "a_a_burlakov". */
    var domain: string
    /** Total posts of the domain as reported by the last successful count step. */
    var totalPosts: int

    /** The generated initialiser: the domain, and the stored total, 0 unless given. */
    constructor (domain: string, totalPosts: int := 0)
      ensures this.domain == domain && this.totalPosts == totalPosts
    {
      this.domain := domain;
      this.totalPosts := totalPosts;
    }

    /** The count step: stores the reported total, or fails with the remote
        message and leaves the stored total as it was. */
    method SetTotalPostsInDomain(response: CountResponse) returns (result: CountOutcome)
      modifies this`totalPosts
      ensures response.CountError? ==> result == CountFailed(response.errorMsg) && totalPosts == old(totalPosts)
      ensures response.Count? ==> result == CountStored && totalPosts == response.count
    {
      if response.CountError? {
        return CountFailed(response.errorMsg);
      }
      totalPosts := response.count;
      result := CountStored;
    }

    /** The whole fetch, run step by step: the count step, then batch requests
        at offsets 0, 2500, ... while fewer than the total posts are collected. */
    method FetchPostsSynchronously<P>(countResponse: CountResponse, responses: seq<BatchResponse<P>>)
      returns (outcome: FetchOutcome<P>, requests: seq<BatchRequest>)
      modifies this`totalPosts
      ensures Run(outcome, requests) == Fetch(domain, countResponse, responses)
      ensures totalPosts == if countResponse.Count? then countResponse.count else old(totalPosts)
    {
      var fetched: seq<P> := [];
      var counted := SetTotalPostsInDomain(countResponse);
      if counted.CountFailed? {
        return RemoteApiError(counted.message), [];
      }

      var offset := 0;
      var answered := 0;
      requests := [];
      while |fetched| < totalPosts
        invariant totalPosts == countResponse.count
        invariant 0 <= answered <= |responses|
        invariant offset == BATCH_SIZE * answered
        invariant |requests| == answered
        invariant fetched == Concat(responses[..answered])
        invariant Fetch(domain, countResponse, responses)
                  == After(requests, BatchLoop(domain, totalPosts, fetched, offset, responses[answered..]))
        decreases |responses| - answered
      {
        if answered == |responses| {
          return ResponsesExhausted, requests;
        }
        var response := responses[answered];
        requests := requests + [BatchRequest(domain, offset)];
        if response.BatchError? {
          return RemoteApiError(response.errorMsg), requests;
        }
        assert responses[answered..][1..] == responses[answered + 1..];
        UnfoldItems(domain, totalPosts, fetched, offset, responses[answered..], requests[..answered]);
        ConcatSnoc(responses, answered);
        fetched := fetched + response.items;
        offset := offset + BATCH_SIZE;
        answered := answered + 1;
      }
      outcome := Fetched(fetched);
    }
  }

  /** Two fetches in succession on the same object, with the same remote
      answers, issue the same requests and end the same way: nothing left in
      the object by the first changes the second. */
  method FetchTwice<P>(domain: string, countResponse: CountResponse, responses: seq<BatchResponse<P>>)
    returns (first: Run<P>, second: Run<P>)
    ensures first == second == Fetch(domain, countResponse, responses)
  {
    var fetcher := new PostFetcher(domain);
    var outcome, requests := fetcher.FetchPostsSynchronously(countResponse, responses);
    first := Run(outcome, requests);
    outcome, requests := fetcher.FetchPostsSynchronously(countResponse, responses);
    second := Run(outcome, requests);
  }
}
