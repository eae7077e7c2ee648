# PostFetcher: paginated fetching of a domain's posts

This project models `PostFetcher` from the vk-tastiest-posts backend and proves properties of the model. `PostFetcher` fetches every post of a VK group or personal page (the *domain*) in two steps:

1. The count step (`_set_total_posts_in_domain`) makes one `wall.get` call with `count = 1`. It either fails with the remote error message or stores the reported total in the field `_total_posts`.
2. The batch loop (`fetch_posts_synchronously`) starts from an empty list at offset 0. While the list is shorter than the total, it makes one `execute` call for `(domain, offset)`. An error answer aborts the whole fetch. Otherwise the loop appends the returned items in order and advances the offset by 2500.

The remote API is an oracle:

- a `CountResponse`, either `CountError(msg)` or `Count(n)`;
- a sequence of `BatchResponse`s, either `BatchError(msg)` or `Items(posts)`, giving the answers to the `execute` calls in the order they are made.

Posts are a type parameter, because the fetcher never looks inside them. Each batch call is recorded as a `BatchRequest(domain, offset)`, so contracts can say how many calls were made and at which offsets.

Files:

- `vk_api.dfy` (module `VkApi`): the response and request shapes, and `Concat`, which joins the items of a sequence of answers.
- `post_fetcher.dfy` (module `PostFetching`) has:
  - the pure specification of one fetch: `BatchLoop` (the loop from any state) and `Fetch` (count step, then loop);
  - the class `PostFetcher`, with the `domain` and `totalPosts` fields and the two methods, each proved to agree with the specification.
- `fetch_properties.dfy` (module `FetchProperties`): lemmas about the specification. They cover:
  - the offsets of requests;
  - when the loop stops;
  - the success result;
  - error behaviour, which is all or nothing;
  - the number of requests against a server that keeps its count (`ServesChunks`): every answer carries at most 2500 posts and at least the posts still missing, capped at 2500.

## Model

| member | source | states |
|---|---|---|
| `PostFetching.PostFetcher.constructor` | backend/post_fetcher.py:10-18 | This is the dataclass initialiser. A new fetcher keeps the given domain, and its stored total is the given value, 0 by default. |
| `PostFetching.BatchLoop` | backend/post_fetcher.py:50-63 | The batch loop from any state, as a function. It has no contract of its own. `LoopRequests`, `LoopRequestsOnlyWhileShort`, `LoopSuccess`, `LoopError`, `LoopExhausted`, `LoopProgressNeverExhausts` and `LoopChunkedAnswers` prove its properties. |
| `PostFetching.Fetch` | backend/post_fetcher.py:45-65 | One whole fetch (count step, then batch loop), as a function. It has no contract of its own. `FetchPostsSynchronously` is proved equal to it, and the whole-fetch lemmas below state its properties. |
| `PostFetching.BatchesNeeded` | backend/post_fetcher.py:51-63 | The reference number of batches for T posts, ceil(T / 2500). Its contract states that it is the least count whose batches of 2500 cover T. |
| `PostFetching.PostFetcher.SetTotalPostsInDomain` | backend/post_fetcher.py:20-38 | A count error fails with exactly the remote message and leaves the stored total unchanged. A count answer succeeds and the stored total becomes the reported count. |
| `PostFetching.PostFetcher.FetchPostsSynchronously` | backend/post_fetcher.py:40-65 | The step-by-step loop returns the outcome and the request trace of the specification `Fetch`. Afterwards the stored total is the reported count, or the old value if the count step failed. |
| `PostFetching.FetchTwice` | backend/post_fetcher.py:40-65 | Two fetches in a row on the same object, with the same remote answers, give the same outcome and the same requests. The total stored by the first fetch does not affect the second. |
| `VkApi.ConcatSnoc` | backend/post_fetcher.py:62 | Appending the next answer's items to `Concat` of the answers so far gives `Concat` of one more answer. This is the loop's accumulated list. |
| `FetchProperties.LoopRequests` | backend/post_fetcher.py:50-63 | From any loop state, the k-th request is for the same domain at the start offset plus 2500·k. There are never more requests than answers. |
| `FetchProperties.LoopRequestsOnlyWhileShort` | backend/post_fetcher.py:51-62 | Each request is made only while the posts collected before it number fewer than the total. Every answer consumed before the last one carried items. |
| `FetchProperties.LoopSuccess` | backend/post_fetcher.py:51-65 | A loop that succeeds returns its starting posts followed by the items of every consumed answer, in request order. Every consumed answer carried items, and the result holds at least the total. |
| `FetchProperties.LoopError` | backend/post_fetcher.py:58-61 | The loop ends in a remote error if and only if its last consumed answer is an error. The error carries that answer's message. |
| `FetchProperties.LoopExhausted` | backend/post_fetcher.py:51-62 | The loop runs out of answers only after consuming all of them. All of them were item answers, and the collected posts are still short of the total. |
| `FetchProperties.LoopProgressNeverExhausts` | backend/post_fetcher.py:51-63 | When every item answer carries at least one post, as many answers as posts still missing are enough. The loop never runs out of answers. |
| `FetchProperties.LoopChunkedAnswers` | backend/post_fetcher.py:51-63 | Consider a server that keeps its count: each answer carries items, no more than 2500, and at least the posts still missing (capped at 2500). Given enough such answers, the loop succeeds after ceil(missing / 2500) requests. When each answer carries exactly the posts still missing (capped at 2500), the result holds exactly the total. |
| `FetchProperties.CountErrorFails` | backend/post_fetcher.py:32-35 | A count error ends the fetch with exactly that message and no batch request. |
| `FetchProperties.NoPostsNoRequests` | backend/post_fetcher.py:45-51 | If the total is 0 (or less), the fetch returns the empty list and makes no batch request. |
| `FetchProperties.RequestOffsets` | backend/post_fetcher.py:50-63 | The k-th batch request of a fetch, counting from 0, is for the fetcher's domain at offset 2500·k. |
| `FetchProperties.RequestsAgree` | backend/post_fetcher.py:50-63 | Two fetches of the same domain make the same requests as far as both go, whatever the answers. One trace is a prefix of the other. |
| `FetchProperties.SuccessIsConcatenation` | backend/post_fetcher.py:45-65 | A successful fetch returns the items of all consumed answers joined in request order, with nothing dropped, reordered or cut. Its length is at least the counted total. Every request was made while the list was still short. |
| `FetchProperties.ErrorIsAllOrNothing` | backend/post_fetcher.py:32-61 | A fetch fails with message m if and only if one of two things happened. Either the count answer was an error with message m and no batch request was made. Or the last consumed batch answer was an error with message m, every earlier answer carried items, and no request came after it. In both cases no posts are returned. |
| `FetchProperties.ChunkedRequestCount` | backend/post_fetcher.py:51-63 | Against a server that keeps its count, a fetch of T posts succeeds after exactly ceil(T / 2500) batch requests. When every answer carries exactly the posts still missing (capped at 2500), it returns exactly T posts. |
| `FetchProperties.FullBatchesRequestCount` | backend/post_fetcher.py:51-63 | When every batch is full (2500 posts), a fetch of T posts succeeds after exactly ceil(T / 2500) batch requests. |
| `FetchProperties.OneBatchForUpTo2500` | backend/post_fetcher.py:50-63 | Against a server that keeps its count, a total of 1 to 2500 takes a single request, at offset 0. This covers a server that answers with exactly the T posts it holds. |
| `FetchProperties.SmallDomainInOneBatch` | backend/post_fetcher.py:45-65 | Suppose a domain of 1 to 2500 posts has its first answer holding all of them. Then the fetch makes one request, at offset 0, and returns exactly those posts. |
| `FetchProperties.TwoBatchesForUpTo5000` | backend/post_fetcher.py:50-63 | Against a server that keeps its count, a total of 2501 to 5000 takes two requests, at offsets 0 and 2500. This covers a second answer of T − 2500 posts. |
| `FetchProperties.SecondBatchErrorDiscardsFirst` | backend/post_fetcher.py:58-62 | Suppose a first batch of 2500 posts is followed by an error answer. Then the fetch fails with that message after requests at 0 and 2500, and the 2500 posts are not returned. |

## Left out

- HTTP calls (`requests.get`) and JSON decoding are not modelled. Each call's decoded answer is a parameter: the count answer, and the batch answers in call order.
- The access token, API version and base URL are external configuration, so they are not modelled. `backend/constants.py` is not part of this model.
- Logging is not modelled, because it has no logical content.
- The server-side script text is not modelled. `GET_2500_POSTS_TEMPLATE` comes from `backend/vkscript.py`, which is not part of this model. A batch request is the pair (domain, offset) substituted into that template.
- The web framework's exception and its status code 500 are not modelled. Failure is the outcome `RemoteApiError(message)`, and for the count step it is `CountFailed(message)`.
- Transport failures such as timeouts or connection errors are not modelled, because the source does not handle them.
- Non-termination is not modelled. The source loops forever when item answers keep arriving empty while the list is still short of the total. The model bounds the loop by the number of supplied answers and reports `ResponsesExhausted` when the loop still needs posts and no answer is left. In that case the request the loop would have made next is not recorded in the trace. `LoopProgressNeverExhausts` shows that this outcome does not arise when every item answer makes progress.
- The count (`wall.get`) request is not recorded in the request trace, which holds only the batch (`execute`) requests.
- Python's dynamic typing is not modelled. The model assumes the count field is an integer and the items field is a list, since the source does not check either.
