/**
 * Capped pagination over the Gmail `list` endpoints, as run by
 * `search_emails`, `search_email_conversations` and the second half of
 * `get_email_messages`.
 *
 * The Gmail service is a finite sequence of responses: the k-th `list` call
 * returns `responses[k]`, and a call past the end returns an empty response
 * with no next-page token (the service has nothing more to give).
 */
module GmailSearch {
  import opened Wrappers

  /** One `list` response: the item lists by key ('messages', 'threads') and the next-page token. */
  datatype Response<T> = Response(lists: map<string, seq<T>>, nextPageToken: Option<string>)

  /** One `list` request: the page token sent and the `maxResults` asked for. */
  datatype Request = Request(pageToken: Option<string>, maxResults: int)

  /** The most the loop ever asks for in one request. */
  const PageLimit: int := 500

  function Min(a: int, b: int): int { if a <= b then a else b }
  function Max(a: int, b: int): int { if a >= b then a else b }

  /** The response to the k-th call. */
  function ResponseAt<T>(responses: seq<Response<T>>, k: nat): Response<T> {
    if k < |responses| then responses[k] else Response(map[], None)
  }

  /** `result.get(key, [])` */
  function ItemsOf<T>(r: Response<T>, key: string): seq<T> {
    if key in r.lists then r.lists[key] else []
  }

  /** The items of the first n responses, in order. */
  function Collected<T>(responses: seq<Response<T>>, key: string, n: nat): seq<T> {
    if n == 0 then [] else Collected(responses, key, n - 1) + ItemsOf(ResponseAt(responses, n - 1), key)
  }

  /** Python truthiness of a page token: present and non-empty. */
  predicate Truthy(token: Option<string>) {
    token.Some? && token.value != ""
  }

  /** The loop's exit test once `count` items are collected (0 is a falsy cap). */
  predicate Stops(token: Option<string>, count: int, cap: int) {
    !Truthy(token) || (cap != 0 && count >= cap)
  }

  /** The `maxResults` sent once `count` items are collected. */
  function RequestSize(cap: int, count: int): int {
    if cap != 0 then Min(PageLimit, cap - count) else PageLimit
  }

  /** Whether the loop exits right after the k-th call. */
  predicate StopsAfter<T>(responses: seq<Response<T>>, key: string, cap: int, k: nat) {
    Stops(ResponseAt(responses, k).nextPageToken, |Collected(responses, key, k + 1)|, cap)
  }

  /** The number of calls made when the loop is at call k. */
  function CallsFrom<T>(responses: seq<Response<T>>, key: string, cap: int, k: nat): nat
    decreases |responses| - k
  {
    if StopsAfter(responses, key, cap, k) then k + 1 else CallsFrom(responses, key, cap, k + 1)
  }

  /** The number of `list` calls the loop makes. */
  function Calls<T>(responses: seq<Response<T>>, key: string, cap: int): nat {
    CallsFrom(responses, key, cap, 0)
  }

  /** Python's `s[:n]`: a negative n drops that many items from the end. */
  function SliceTo<T>(s: seq<T>, n: int): (r: seq<T>)
    ensures r <= s
    ensures n >= 0 ==> |r| == Min(n, |s|)
    ensures n < 0 ==> |r| == Max(0, |s| + n)
  {
    if n >= 0 then s[..Min(n, |s|)] else s[..Max(0, |s| + n)]
  }

  /** The list the function returns. */
  function SearchResult<T>(responses: seq<Response<T>>, key: string, cap: int): (r: seq<T>)
    ensures r <= Collected(responses, key, Calls(responses, key, cap))
    ensures cap > 0 ==> |r| <= cap
    ensures cap == 0 ==> r == Collected(responses, key, Calls(responses, key, cap))
  {
    var all := Collected(responses, key, Calls(responses, key, cap));
    if cap != 0 then SliceTo(all, cap) else all
  }

  /** The i-th request: the previous response's token and the size still wanted. */
  function RequestAt<T>(responses: seq<Response<T>>, key: string, cap: int, i: nat): Request {
    Request(if i == 0 then None else ResponseAt(responses, i - 1).nextPageToken,
            RequestSize(cap, |Collected(responses, key, i)|))
  }

  /** The first n requests, in order. */
  function RequestsUpTo<T>(responses: seq<Response<T>>, key: string, cap: int, n: nat): (r: seq<Request>)
    ensures |r| == n
  {
    if n == 0 then [] else RequestsUpTo(responses, key, cap, n - 1) + [RequestAt(responses, key, cap, n - 1)]
  }

  lemma {:induction false} RequestsUpToAt<T>(responses: seq<Response<T>>, key: string, cap: int, n: nat, i: nat)
    requires i < n
    ensures RequestsUpTo(responses, key, cap, n)[i] == RequestAt(responses, key, cap, i)
  {
    if i < n - 1 {
      RequestsUpToAt(responses, key, cap, n - 1, i);
    }
  }

  /** The requests the loop sends, in order. */
  function Requests<T>(responses: seq<Response<T>>, key: string, cap: int): seq<Request> {
    RequestsUpTo(responses, key, cap, Calls(responses, key, cap))
  }

  /**
   * The `while True` loop: request, extend, read the token, break when the
   * token is missing or the cap is reached; then truncate to the cap.
   */
  method Paginate<T>(responses: seq<Response<T>>, key: string, cap: int)
    returns (items: seq<T>, requests: seq<Request>)
    ensures items == SearchResult(responses, key, cap)
    ensures requests == Requests(responses, key, cap)
  {
    ghost var n := Calls(responses, key, cap);
    CallsFromStops(responses, key, cap, 0);
    var collected: seq<T> := [];
    var token: Option<string> := None;
    var k: nat := 0;
    requests := [];
    while true
      invariant k < n
      invariant collected == Collected(responses, key, k)
      invariant token == if k == 0 then None else ResponseAt(responses, k - 1).nextPageToken
      invariant requests == RequestsUpTo(responses, key, cap, k)
      decreases n - k
    {
      var size := if cap != 0 then Min(PageLimit, cap - |collected|) else PageLimit;
      ghost var requests0, collected0 := requests, collected;
      requests := requests + [Request(token, size)];
      var result := ResponseAt(responses, k);
      collected := collected + ItemsOf(result, key);
      token := result.nextPageToken;
      var stop := !Truthy(token) || (cap != 0 && |collected| >= cap);
      k := k + 1;
      Step(responses, key, cap, k, requests0, collected0, requests, collected, stop);
      if stop {
        CallsFromAtMost(responses, key, cap, 0, k - 1);
        break;
      }
    }
    items := if cap != 0 then SliceTo(collected, cap) else collected;
    PaginateDone(responses, key, cap, k, collected, requests, items);
  }

  /** The pass of the loop body that makes call k - 1 keeps the loop's account of requests and items. */
  lemma Step<T>(responses: seq<Response<T>>, key: string, cap: int, k: nat,
                requests0: seq<Request>, collected0: seq<T>, requests: seq<Request>, collected: seq<T>, stop: bool)
    requires 0 < k
    requires requests0 == RequestsUpTo(responses, key, cap, k - 1)
    requires collected0 == Collected(responses, key, k - 1)
    requires requests == requests0 + [Request(if k == 1 then None else ResponseAt(responses, k - 2).nextPageToken,
                                              if cap != 0 then Min(PageLimit, cap - |collected0|) else PageLimit)]
    requires collected == collected0 + ItemsOf(ResponseAt(responses, k - 1), key)
    requires stop == (!Truthy(ResponseAt(responses, k - 1).nextPageToken) || (cap != 0 && |collected| >= cap))
    ensures requests == RequestsUpTo(responses, key, cap, k)
    ensures collected == Collected(responses, key, k)
    ensures stop == StopsAfter(responses, key, cap, k - 1)
  {
  }

  lemma PaginateDone<T>(responses: seq<Response<T>>, key: string, cap: int, k: nat,
                        collected: seq<T>, requests: seq<Request>, items: seq<T>)
    requires k == Calls(responses, key, cap)
    requires collected == Collected(responses, key, k)
    requires requests == RequestsUpTo(responses, key, cap, k)
    requires items == if cap != 0 then SliceTo(collected, cap) else collected
    ensures items == SearchResult(responses, key, cap)
    ensures requests == Requests(responses, key, cap)
  {
  }

  /** The loop has stopped by the first response that makes it stop. */
  lemma {:induction false} CallsFromAtMost<T>(responses: seq<Response<T>>, key: string, cap: int, k: nat, j: nat)
    requires k <= j && StopsAfter(responses, key, cap, j)
    ensures CallsFrom(responses, key, cap, k) <= j + 1
    decreases j - k
  {
    if k < j && !StopsAfter(responses, key, cap, k) {
      CallsFromAtMost(responses, key, cap, k + 1, j);
    }
  }

  lemma {:induction false} CallsFromStops<T>(responses: seq<Response<T>>, key: string, cap: int, k: nat)
    ensures k < CallsFrom(responses, key, cap, k) <= Max(k, |responses|) + 1
    ensures StopsAfter(responses, key, cap, CallsFrom(responses, key, cap, k) - 1)
    ensures forall i :: k <= i < CallsFrom(responses, key, cap, k) - 1 ==> !StopsAfter(responses, key, cap, i)
    decreases |responses| - k
  {
    if !StopsAfter(responses, key, cap, k) {
      CallsFromStops(responses, key, cap, k + 1);
    }
  }

  /**
   * The loop stops exactly at the first response that has no usable token
   * or that brings the count to the cap; every earlier response had both a
   * token and a count below the cap. At most one call past the service's
   * last response is made.
   */
  lemma StopsExactly<T>(responses: seq<Response<T>>, key: string, cap: int)
    ensures 1 <= Calls(responses, key, cap) <= |responses| + 1
    ensures StopsAfter(responses, key, cap, Calls(responses, key, cap) - 1)
    ensures forall i :: 0 <= i < Calls(responses, key, cap) - 1 ==>
              Truthy(ResponseAt(responses, i).nextPageToken)
              && (cap == 0 || |Collected(responses, key, i + 1)| < cap)
  {
    CallsFromStops(responses, key, cap, 0);
    forall i | 0 <= i < Calls(responses, key, cap) - 1
      ensures Truthy(ResponseAt(responses, i).nextPageToken)
      ensures cap == 0 || |Collected(responses, key, i + 1)| < cap
    {
      assert !StopsAfter(responses, key, cap, i);
    }
  }

  /**
   * Every request asks for between 1 and 500 items when the cap is positive,
   * and for exactly 500 when the cap is falsy.
   */
  lemma {:induction false} RequestSizesInRange<T>(responses: seq<Response<T>>, key: string, cap: int)
    ensures cap > 0 ==> forall r :: r in Requests(responses, key, cap) ==> 1 <= r.maxResults <= PageLimit
    ensures cap == 0 ==> forall r :: r in Requests(responses, key, cap) ==> r.maxResults == PageLimit
  {
    var rs := Requests(responses, key, cap);
    StopsExactly(responses, key, cap);
    if cap >= 0 {
      forall r | r in rs
        ensures cap > 0 ==> 1 <= r.maxResults <= PageLimit
        ensures cap == 0 ==> r.maxResults == PageLimit
      {
        var i :| 0 <= i < |rs| && rs[i] == r;
        RequestsUpToAt(responses, key, cap, |rs|, i);
        if i > 0 {
          assert i - 1 < Calls(responses, key, cap) - 1;
        }
      }
    }
  }

  /** With a falsy cap every page up to the first without a token is kept whole. */
  lemma FalsyCapKeepsEverything<T>(responses: seq<Response<T>>, key: string)
    ensures 1 <= Calls(responses, key, 0)
    ensures SearchResult(responses, key, 0) == Collected(responses, key, Calls(responses, key, 0))
    ensures !Truthy(ResponseAt(responses, Calls(responses, key, 0) - 1).nextPageToken)
    ensures forall i :: 0 <= i < Calls(responses, key, 0) - 1 ==> Truthy(ResponseAt(responses, i).nextPageToken)
  {
    StopsExactly(responses, key, 0);
  }

  /** `search_emails`: pagination over the 'messages' lists. */
  method SearchEmails(responses: seq<Response<string>>, maxResults: int)
    returns (messages: seq<string>, requests: seq<Request>)
    ensures messages == SearchResult(responses, "messages", maxResults)
    ensures requests == Requests(responses, "messages", maxResults)
    ensures maxResults > 0 ==> |messages| <= maxResults
  {
    messages, requests := Paginate(responses, "messages", maxResults);
  }

  /** `search_email_conversations`: pagination over the 'threads' lists. */
  method SearchEmailConversations(responses: seq<Response<string>>, maxResults: int)
    returns (conversations: seq<string>, requests: seq<Request>)
    ensures conversations == SearchResult(responses, "threads", maxResults)
    ensures requests == Requests(responses, "threads", maxResults)
    ensures maxResults > 0 ==> |conversations| <= maxResults
  {
    conversations, requests := Paginate(responses, "threads", maxResults);
  }
}
