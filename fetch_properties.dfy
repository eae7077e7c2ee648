/**
 * What one fetch does, proved about the specification functions BatchLoop
 * and Fetch (which the class PostFetcher is proved to follow): where the
 * batch requests go, when the loop stops, what it returns on success, and
 * that any error answer discards everything.
 *
 * The Loop... lemmas speak of the loop from an arbitrary state, for the
 * induction; the lemmas after them specialise to a whole fetch.
 */
module FetchProperties {
  import opened VkApi
  import opened PostFetching

  /** The k-th request of the loop goes to the same domain, at the starting
      offset plus 2500 * k, and the loop never asks for more batches than
      there are answers. */
  lemma {:induction false} LoopRequests<P>(domain: string, total: int, fetched: seq<P>, offset: int,
                                           responses: seq<BatchResponse<P>>)
    ensures var run := BatchLoop(domain, total, fetched, offset, responses);
      && |run.requests| <= |responses|
      && forall k :: 0 <= k < |run.requests| ==> run.requests[k] == BatchRequest(domain, offset + BATCH_SIZE * k)
    decreases |responses|
  {
    if |fetched| < total && responses != [] && responses[0].Items? {
      LoopRequests(domain, total, fetched + responses[0].items, offset + BATCH_SIZE, responses[1..]);
    }
  }

  /** Every request is made while the posts collected so far, those before
      the loop and the items of the earlier answers, fall short of the total;
      and every answer before the last one consumed carried items. */
  lemma {:induction false} LoopRequestsOnlyWhileShort<P>(domain: string, total: int, fetched: seq<P>,
                                                         offset: int, responses: seq<BatchResponse<P>>)
    ensures var run := BatchLoop(domain, total, fetched, offset, responses);
      && |run.requests| <= |responses|
      && (forall k :: 0 <= k < |run.requests| ==> |fetched + Concat(responses[..k])| < total)
      && (forall k :: 0 <= k < |run.requests| - 1 ==> responses[k].Items?)
    decreases |responses|
  {
    var run := BatchLoop(domain, total, fetched, offset, responses);
    if |fetched| < total && responses != [] && responses[0].Items? {
      var items := responses[0].items;
      var tail := responses[1..];
      LoopRequestsOnlyWhileShort(domain, total, fetched + items, offset + BATCH_SIZE, tail);
      forall k | 0 < k < |run.requests|
        ensures |fetched + Concat(responses[..k])| < total
      {
        assert responses[..k][1..] == tail[..k - 1];
        assert fetched + Concat(responses[..k]) == (fetched + items) + Concat(tail[..k - 1]);
      }
      assert responses[..0] == [];
      forall k | 0 < k < |run.requests| - 1
        ensures responses[k].Items?
      {
        assert responses[k] == tail[k - 1];
      }
    }
  }

  /** A loop that succeeds returns the posts it started with followed by the
      items of every consumed answer, in request order, with nothing dropped
      or cut; every consumed answer carried items; and it holds at least the
      total. */
  lemma {:induction false} LoopSuccess<P>(domain: string, total: int, fetched: seq<P>, offset: int,
                                          responses: seq<BatchResponse<P>>)
    ensures var run := BatchLoop(domain, total, fetched, offset, responses);
      run.outcome.Fetched? ==>
        && |run.requests| <= |responses|
        && run.outcome.posts == fetched + Concat(responses[..|run.requests|])
        && |run.outcome.posts| >= total
        && forall k :: 0 <= k < |run.requests| ==> responses[k].Items?
    decreases |responses|
  {
    var run := BatchLoop(domain, total, fetched, offset, responses);
    if |fetched| >= total {
      assert responses[..0] == [];
    } else if responses != [] && responses[0].Items? {
      var items := responses[0].items;
      var tail := responses[1..];
      LoopSuccess(domain, total, fetched + items, offset + BATCH_SIZE, tail);
      var rest := BatchLoop(domain, total, fetched + items, offset + BATCH_SIZE, tail);
      if run.outcome.Fetched? {
        var n := |rest.requests|;
        assert responses[..n + 1][1..] == tail[..n];
        assert fetched + Concat(responses[..n + 1]) == (fetched + items) + Concat(tail[..n]);
        forall k | 0 < k < n + 1
          ensures responses[k].Items?
        {
          assert responses[k] == tail[k - 1];
        }
      }
    }
  }

  /** The loop fails with a remote error exactly when the last answer it
      consumed is an error answer, and then with that answer's message: the
      first error answer ends the loop, and no request follows it. */
  lemma {:induction false} LoopError<P>(domain: string, total: int, fetched: seq<P>, offset: int,
                                        responses: seq<BatchResponse<P>>)
    ensures var run := BatchLoop(domain, total, fetched, offset, responses);
      && |run.requests| <= |responses|
      && (run.outcome.RemoteApiError?
          <==> 0 < |run.requests| && responses[|run.requests| - 1].BatchError?)
      && (run.outcome.RemoteApiError? ==> run.outcome.message == responses[|run.requests| - 1].errorMsg)
    decreases |responses|
  {
    if |fetched| < total && responses != [] && responses[0].Items? {
      var tail := responses[1..];
      LoopError(domain, total, fetched + responses[0].items, offset + BATCH_SIZE, tail);
      var rest := BatchLoop(domain, total, fetched + responses[0].items, offset + BATCH_SIZE, tail);
      if 0 < |rest.requests| {
        assert responses[|rest.requests|] == tail[|rest.requests| - 1];
      }
    }
  }

  /** The loop runs out of answers only after consuming all of them, every
      one an item answer, while still short of the total. */
  lemma {:induction false} LoopExhausted<P>(domain: string, total: int, fetched: seq<P>, offset: int,
                                            responses: seq<BatchResponse<P>>)
    ensures var run := BatchLoop(domain, total, fetched, offset, responses);
      run.outcome.ResponsesExhausted? ==>
        && |run.requests| == |responses|
        && |fetched + Concat(responses)| < total
        && forall k :: 0 <= k < |responses| ==> responses[k].Items?
    decreases |responses|
  {
    if |fetched| < total && responses != [] && responses[0].Items? {
      var items := responses[0].items;
      var tail := responses[1..];
      LoopExhausted(domain, total, fetched + items, offset + BATCH_SIZE, tail);
      if BatchLoop(domain, total, fetched, offset, responses).outcome.ResponsesExhausted? {
        assert fetched + Concat(responses) == (fetched + items) + Concat(tail);
        forall k | 0 < k < |responses|
          ensures responses[k].Items?
        {
          assert responses[k] == tail[k - 1];
        }
      }
    }
  }

  /** The loop itself stops only when the total is reached: with answers
      that always carry at least one item, as many answers as posts still
      missing are enough, and the answers never run out. (An item answer
      with no items would leave the loop asking forever.) */
  lemma {:induction false} LoopProgressNeverExhausts<P>(domain: string, total: int, fetched: seq<P>,
                                                        offset: int, responses: seq<BatchResponse<P>>)
    requires forall k :: 0 <= k < |responses| ==> responses[k].Items? ==> responses[k].items != []
    requires total - |fetched| <= |responses|
    ensures !BatchLoop(domain, total, fetched, offset, responses).outcome.ResponsesExhausted?
    decreases |responses|
  {
    if |fetched| < total && responses[0].Items? {
      var tail := responses[1..];
      assert forall k :: 0 <= k < |tail| ==> tail[k] == responses[k + 1];
      LoopProgressNeverExhausts(domain, total, fetched + responses[0].items, offset + BATCH_SIZE, tail);
    }
  }

  /** One full batch less is needed once 2500 more posts are in hand. */
  lemma BatchesNeededStep(missing: int)
    requires missing > 0
    ensures BatchesNeeded(missing) == 1 + BatchesNeeded(missing - BATCH_SIZE)
  {
    if missing > BATCH_SIZE {
      assert (missing + BATCH_SIZE - 1) / BATCH_SIZE
             == 1 + (missing - BATCH_SIZE + BATCH_SIZE - 1) / BATCH_SIZE;
    }
  }

  /** How many posts a server-side script starting `done` posts into the
      domain collects when the domain holds `done + missing` posts: the
      rest of them, but no more than 2500. */
  function ChunkSize(missing: int): (size: nat)
  {
    if missing <= 0 then 0 else if missing < BATCH_SIZE then missing else BATCH_SIZE
  }

  /** The answers of a server that keeps its count: every answer carries items,
      never more than 2500, and the k-th at least the posts still missing after
      k batches (up to 2500), `missing` being what the loop lacks at its start.
      A server that always sends exactly ChunkSize items, and one that always
      sends 2500, both answer this way. */
  predicate ServesChunks<P>(missing: int, responses: seq<BatchResponse<P>>)
  {
    forall k :: 0 <= k < |responses| ==>
      && responses[k].Items?
      && ChunkSize(missing - BATCH_SIZE * k) <= |responses[k].items| <= BATCH_SIZE
  }

  /** Against such a server, with enough answers, the loop succeeds after
      exactly ceil(missing / 2500) requests; when each answer carries exactly
      the posts still missing (up to 2500), the loop collects exactly the
      total, neither more nor less. */
  lemma {:induction false} LoopChunkedAnswers<P>(domain: string, total: int, fetched: seq<P>, offset: int,
                                                 responses: seq<BatchResponse<P>>)
    requires ServesChunks(total - |fetched|, responses)
    requires BatchesNeeded(total - |fetched|) <= |responses|
    ensures var run := BatchLoop(domain, total, fetched, offset, responses);
      && run.outcome.Fetched?
      && |run.requests| == BatchesNeeded(total - |fetched|)
      && ((|fetched| <= total
           && forall k :: 0 <= k < |responses| ==>
                |responses[k].items| == ChunkSize(total - |fetched| - BATCH_SIZE * k))
          ==> |run.outcome.posts| == total)
    decreases |responses|
  {
    var missing := total - |fetched|;
    if 0 < missing {
      BatchesNeededStep(missing);
      var items := responses[0].items;
      var tail := responses[1..];
      if BATCH_SIZE < missing {
        assert |items| == BATCH_SIZE;
        forall k | 0 <= k < |tail|
          ensures tail[k].Items?
          ensures ChunkSize(missing - BATCH_SIZE - BATCH_SIZE * k) <= |tail[k].items| <= BATCH_SIZE
        {
          assert tail[k] == responses[k + 1];
          assert missing - BATCH_SIZE - BATCH_SIZE * k == missing - BATCH_SIZE * (k + 1);
        }
        LoopChunkedAnswers(domain, total, fetched + items, offset + BATCH_SIZE, tail);
        if forall k :: 0 <= k < |responses| ==>
             |responses[k].items| == ChunkSize(missing - BATCH_SIZE * k) {
          forall k | 0 <= k < |tail|
            ensures |tail[k].items| == ChunkSize(total - |fetched + items| - BATCH_SIZE * k)
          {
            assert tail[k] == responses[k + 1];
            assert missing - BATCH_SIZE - BATCH_SIZE * k == missing - BATCH_SIZE * (k + 1);
          }
        }
      } else {
        assert |fetched + items| >= total;
      }
    }
  }

  // ---------------------------------------------------------------------
  // A whole fetch
  // ---------------------------------------------------------------------

  /** A failed count step ends the fetch with exactly the remote message and
      no batch request at all. */
  lemma CountErrorFails<P>(domain: string, msg: string, responses: seq<BatchResponse<P>>)
    ensures Fetch(domain, CountError(msg), responses) == Run(RemoteApiError(msg), [])
  {
  }

  /** A domain without posts yields the empty list and no batch request,
      whatever the batch answers would have been. */
  lemma NoPostsNoRequests<P>(domain: string, total: int, responses: seq<BatchResponse<P>>)
    requires total <= 0
    ensures Fetch(domain, Count(total), responses) == Run(Fetched([]), [])
  {
  }

  /** The k-th batch request of a fetch (from 0) is for the fetch's domain at
      offset 2500 * k, whatever the answers; there is at most one request
      per answer. */
  lemma RequestOffsets<P>(domain: string, countResponse: CountResponse, responses: seq<BatchResponse<P>>)
    ensures var run := Fetch(domain, countResponse, responses);
      && |run.requests| <= |responses|
      && forall k :: 0 <= k < |run.requests| ==> run.requests[k] == BatchRequest(domain, BATCH_SIZE * k)
  {
    if countResponse.Count? {
      LoopRequests<P>(domain, countResponse.count, [], 0, responses);
    }
  }

  /** Two fetches of one domain issue the same requests as far as both go,
      whatever the remote answers: one trace is a prefix of the other. */
  lemma RequestsAgree<P>(domain: string, count1: CountResponse, responses1: seq<BatchResponse<P>>,
                         count2: CountResponse, responses2: seq<BatchResponse<P>>)
    ensures var r1 := Fetch(domain, count1, responses1).requests;
            var r2 := Fetch(domain, count2, responses2).requests;
      if |r1| <= |r2| then r1 == r2[..|r1|] else r2 == r1[..|r2|]
  {
    RequestOffsets(domain, count1, responses1);
    RequestOffsets(domain, count2, responses2);
  }

  /** A successful fetch returns the items of the consumed answers joined in
      request order, nothing dropped, reordered or cut; it holds at least the
      counted total (possibly more); every consumed answer carried items; and
      each request was made while the collected posts fell short of the total. */
  lemma SuccessIsConcatenation<P>(domain: string, countResponse: CountResponse,
                                  responses: seq<BatchResponse<P>>)
    ensures var run := Fetch(domain, countResponse, responses);
      run.outcome.Fetched? ==>
        && countResponse.Count?
        && |run.requests| <= |responses|
        && run.outcome.posts == Concat(responses[..|run.requests|])
        && |run.outcome.posts| >= countResponse.count
        && (forall k :: 0 <= k < |run.requests| ==> responses[k].Items?)
        && (forall k :: 0 <= k < |run.requests| ==> |Concat(responses[..k])| < countResponse.count)
  {
    if countResponse.Count? {
      var total := countResponse.count;
      LoopSuccess<P>(domain, total, [], 0, responses);
      LoopRequestsOnlyWhileShort<P>(domain, total, [], 0, responses);
      var run := Fetch(domain, countResponse, responses);
      forall k | 0 <= k < |run.requests|
        ensures |Concat(responses[..k])| < total
      {
        var none: seq<P> := [];
        assert none + Concat(responses[..k]) == Concat(responses[..k]);
      }
    }
  }

  /** All or nothing: a fetch fails with a remote error exactly when the
      count answer is an error (then with its message and no batch request)
      or the last consumed batch answer is an error (then with its message,
      after item answers only, and with no request after it). No posts are
      returned in either case. */
  lemma ErrorIsAllOrNothing<P>(domain: string, countResponse: CountResponse,
                               responses: seq<BatchResponse<P>>, msg: string)
    ensures var run := Fetch(domain, countResponse, responses);
      var n := |run.requests|;
      run.outcome == RemoteApiError(msg)
      <==> (countResponse == CountError(msg) && n == 0)
           || (countResponse.Count? && 0 < n <= |responses| && responses[n - 1] == BatchError(msg)
               && forall k :: 0 <= k < n - 1 ==> responses[k].Items?)
  {
    if countResponse.Count? {
      var total := countResponse.count;
      LoopError<P>(domain, total, [], 0, responses);
      LoopRequestsOnlyWhileShort<P>(domain, total, [], 0, responses);
    }
  }

  /** Against a server that keeps its count, a fetch of T posts succeeds
      after exactly ceil(T / 2500) batch requests; if each answer carries
      exactly the posts still missing (up to 2500), it returns exactly T posts. */
  lemma ChunkedRequestCount<P>(domain: string, total: int, responses: seq<BatchResponse<P>>)
    requires ServesChunks(total, responses)
    requires BatchesNeeded(total) <= |responses|
    ensures var run := Fetch(domain, Count(total), responses);
      && run.outcome.Fetched?
      && |run.requests| == BatchesNeeded(total)
      && ((0 <= total && forall k :: 0 <= k < |responses| ==>
             |responses[k].items| == ChunkSize(total - BATCH_SIZE * k))
          ==> |run.outcome.posts| == total)
  {
    LoopChunkedAnswers<P>(domain, total, [], 0, responses);
  }

  /** With every batch answer carrying exactly 2500 items, a fetch of T posts
      succeeds after exactly ceil(T / 2500) batch requests. */
  lemma FullBatchesRequestCount<P>(domain: string, total: int, responses: seq<BatchResponse<P>>)
    requires forall k :: 0 <= k < |responses| ==> responses[k].Items? && |responses[k].items| == BATCH_SIZE
    requires BatchesNeeded(total) <= |responses|
    ensures var run := Fetch(domain, Count(total), responses);
      run.outcome.Fetched? && |run.requests| == BatchesNeeded(total)
  {
    ChunkedRequestCount(domain, total, responses);
  }

  /** A total of 1 to 2500 posts takes exactly one batch request, at offset 0. */
  lemma OneBatchForUpTo2500<P>(domain: string, total: int, responses: seq<BatchResponse<P>>)
    requires 0 < total <= BATCH_SIZE
    requires ServesChunks(total, responses)
    requires 1 <= |responses|
    ensures Fetch(domain, Count(total), responses).requests == [BatchRequest(domain, 0)]
  {
    ChunkedRequestCount(domain, total, responses);
    RequestOffsets(domain, Count(total), responses);
  }

  /** A domain of 1 to 2500 posts whose first answer holds all of them is
      fetched with that one request, and the result is exactly those posts. */
  lemma SmallDomainInOneBatch<P>(domain: string, posts: seq<P>, later: seq<BatchResponse<P>>)
    requires 0 < |posts| <= BATCH_SIZE
    ensures Fetch(domain, Count(|posts|), [Items(posts)] + later)
            == Run(Fetched(posts), [BatchRequest(domain, 0)])
  {
    var responses := [Items(posts)] + later;
    var none: seq<P> := [];
    assert none + posts == posts;
    assert responses[0] == Items(posts);
    assert BatchLoop(domain, |posts|, posts, BATCH_SIZE, responses[1..]) == Run(Fetched(posts), []);
  }

  /** A total of 2501 to 5000 posts takes exactly two batch requests, at
      offsets 0 and 2500. */
  lemma TwoBatchesForUpTo5000<P>(domain: string, total: int, responses: seq<BatchResponse<P>>)
    requires BATCH_SIZE < total <= 2 * BATCH_SIZE
    requires ServesChunks(total, responses)
    requires 2 <= |responses|
    ensures Fetch(domain, Count(total), responses).requests
            == [BatchRequest(domain, 0), BatchRequest(domain, BATCH_SIZE)]
  {
    ChunkedRequestCount(domain, total, responses);
    RequestOffsets(domain, Count(total), responses);
  }

  /** A second batch that fails after a first one of 2500 posts ends the fetch
      with the second batch's message, and the 2500 posts are not returned. */
  lemma SecondBatchErrorDiscardsFirst<P>(domain: string, total: int, first: seq<P>, msg: string,
                                         later: seq<BatchResponse<P>>)
    requires BATCH_SIZE < total && |first| == BATCH_SIZE
    ensures Fetch(domain, Count(total), [Items(first), BatchError(msg)] + later)
            == Run(RemoteApiError(msg), [BatchRequest(domain, 0), BatchRequest(domain, BATCH_SIZE)])
  {
    var responses := [Items(first), BatchError(msg)] + later;
    var second := BatchLoop(domain, total, first, BATCH_SIZE, responses[1..]);
    assert responses[1..][0] == BatchError(msg);
    assert second == Run(RemoteApiError(msg), [BatchRequest(domain, BATCH_SIZE)]);
    var none: seq<P> := [];
    assert none + first == first;
  }
}
