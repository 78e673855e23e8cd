/** The subscription enumeration loop of `updateSubscriptions`. The platform's
    answers are given as the sequence of pages it returns, one per call, in
    call order; the page token the loop sends is what selects the next page
    on the platform's side and is not modelled further. */
module Subscriptions {
  import opened Wrappers

  datatype Subscription = Subscription(channelId: string, title: string)

  /** One `subscriptions.list` response: its items and its `nextPageToken`,
      absent on the last page. */
  datatype Page = Page(items: seq<Subscription>, nextPageToken: Option<string>)

  /** How the loop ends against a finite list of responses: it leaves after
      `pagesRead` calls with the subscriptions accumulated, or it still asks
      for another page when every given response has been read. */
  datatype Paging = Finished(subs: seq<Subscription>, pagesRead: nat) | NeedsMorePages

  /** JavaScript truthiness of the token: absent and "" are both false. */
  predicate Truthy(token: Option<string>)
  {
    token.Some? && token.value != ""
  }

  /** The loop guard `nextPageToken || allSubs.length == 0`. */
  predicate Continues(token: Option<string>, acc: seq<Subscription>)
  {
    Truthy(token) || |acc| == 0
  }

  /** The items of the given pages, concatenated in order. */
  function AllItems(pages: seq<Page>): seq<Subscription>
  {
    if pages == [] then [] else AllItems(pages[..|pages| - 1]) + pages[|pages| - 1].items
  }

  /** The loop from the state reached after `i` calls. It only ever adds to
      what was collected, and it ends only with something collected. */
  function Paginate(responses: seq<Page>, i: nat, acc: seq<Subscription>, token: Option<string>): (r: Paging)
    requires i <= |responses|
    ensures r.Finished? ==> i <= r.pagesRead <= |responses|
    ensures r.Finished? ==> |acc| <= |r.subs| && r.subs[..|acc|] == acc && |r.subs| > 0
    decreases |responses| - i
  {
    if !Continues(token, acc) then Finished(acc, i)
    else if i == |responses| then NeedsMorePages
    else Paginate(responses, i + 1, acc + responses[i].items, responses[i].nextPageToken)
  }

  /** The loop itself: concatenate pages while a token is present or nothing
      has been collected yet. */
  method CollectSubscriptions(responses: seq<Page>) returns (out: Paging)
    ensures out == Paginate(responses, 0, [], None)
  {
    var allSubs: seq<Subscription> := [];
    var nextPageToken: Option<string> := None;
    var i := 0;
    while Continues(nextPageToken, allSubs)
      invariant i <= |responses|
      invariant Paginate(responses, i, allSubs, nextPageToken) == Paginate(responses, 0, [], None)
      decreases |responses| - i
    {
      if i == |responses| {
        return NeedsMorePages;
      }
      var page := responses[i];
      nextPageToken := page.nextPageToken;
      allSubs := allSubs + page.items;
      i := i + 1;
    }
    return Finished(allSubs, i);
  }

  /** When the loop ends after `k` calls, it has collected exactly the items
      of the first `k` pages, something was collected, the `k`-th page had no
      token, and every earlier page left the guard true. */
  lemma {:induction false} PaginateFinished(responses: seq<Page>, i: nat, acc: seq<Subscription>,
                                           token: Option<string>, subs: seq<Subscription>, k: nat)
    requires i <= |responses|
    requires acc == AllItems(responses[..i])
    requires i == 0 ==> token.None?
    requires i > 0 ==> token == responses[i - 1].nextPageToken
    requires Paginate(responses, i, acc, token) == Finished(subs, k)
    ensures i <= k <= |responses| && 0 < k
    ensures subs == AllItems(responses[..k])
    ensures |subs| > 0 && !Truthy(responses[k - 1].nextPageToken)
    ensures forall j :: i <= j < k ==> j == 0 || Continues(responses[j - 1].nextPageToken, AllItems(responses[..j]))
    decreases |responses| - i
  {
    if Continues(token, acc) {
      var next := responses[..i + 1];
      assert next[..i] == responses[..i];
      assert AllItems(next) == acc + responses[i].items;
      PaginateFinished(responses, i + 1, acc + responses[i].items, responses[i].nextPageToken, subs, k);
    }
  }

  /** The loop's result when it finishes, read from the start. */
  lemma CollectedSubscriptions(responses: seq<Page>, subs: seq<Subscription>, k: nat)
    requires Paginate(responses, 0, [], None) == Finished(subs, k)
    ensures 0 < k <= |responses| && subs == AllItems(responses[..k])
    ensures |subs| > 0 && !Truthy(responses[k - 1].nextPageToken)
    ensures forall j :: 0 < j < k ==> Continues(responses[j - 1].nextPageToken, AllItems(responses[..j]))
  {
    assert responses[..0] == [];
    PaginateFinished(responses, 0, [], None, subs, k);
  }

  /** The token the loop holds after `j` calls. */
  function TokenAfter(responses: seq<Page>, j: nat): Option<string>
    requires j <= |responses|
  {
    if j == 0 then None else responses[j - 1].nextPageToken
  }

  /** The loop leaves at the first call after which the guard fails, with
      the items of the pages read so far. */
  lemma {:induction false} GuardFailureFinishes(responses: seq<Page>, k: nat)
    requires 0 < k <= |responses|
    requires !Continues(TokenAfter(responses, k), AllItems(responses[..k]))
    requires forall j :: 0 < j < k ==> Continues(TokenAfter(responses, j), AllItems(responses[..j]))
    ensures Paginate(responses, 0, [], None) == Finished(AllItems(responses[..k]), k)
  {
    assert responses[..0] == [];
    PaginateReaches(responses, 0, k);
  }

  lemma {:induction false} PaginateReaches(responses: seq<Page>, i: nat, k: nat)
    requires i <= k <= |responses|
    requires !Continues(TokenAfter(responses, k), AllItems(responses[..k]))
    requires forall j :: 0 < j < k ==> Continues(TokenAfter(responses, j), AllItems(responses[..j]))
    ensures Paginate(responses, i, AllItems(responses[..i]), TokenAfter(responses, i)) ==
            Finished(AllItems(responses[..k]), k)
    decreases k - i
  {
    if i < k {
      var acc := AllItems(responses[..i]);
      if i == 0 {
        assert responses[..0] == [];
      }
      assert Continues(TokenAfter(responses, i), acc);
      var next := responses[..i + 1];
      assert next[..i] == responses[..i];
      assert AllItems(next) == acc + responses[i].items;
      PaginateReaches(responses, i + 1, k);
    }
  }

  /** The loop finishes after `k` calls with `subs` exactly when `k` is the
      first call after which the guard fails and `subs` holds the items of
      the first `k` pages. */
  lemma PaginationFinishesIff(responses: seq<Page>, subs: seq<Subscription>, k: nat)
    ensures Paginate(responses, 0, [], None) == Finished(subs, k) <==>
      && 0 < k <= |responses|
      && subs == AllItems(responses[..k])
      && !Continues(TokenAfter(responses, k), subs)
      && forall j :: 0 < j < k ==> Continues(TokenAfter(responses, j), AllItems(responses[..j]))
  {
    if Paginate(responses, 0, [], None) == Finished(subs, k) {
      CollectedSubscriptions(responses, subs, k);
    }
    if 0 < k <= |responses| && subs == AllItems(responses[..k]) &&
       !Continues(TokenAfter(responses, k), subs) &&
       forall j :: 0 < j < k ==> Continues(TokenAfter(responses, j), AllItems(responses[..j]))
    {
      GuardFailureFinishes(responses, k);
    }
  }

  /** An account with no subscriptions never leaves the loop: while nothing is
      collected the guard stays true whatever the tokens say, so every finite
      list of empty pages is exhausted. */
  lemma {:induction false} EmptyPagesNeverFinish(responses: seq<Page>, i: nat, token: Option<string>)
    requires i <= |responses|
    requires forall j :: 0 <= j < |responses| ==> responses[j].items == []
    ensures Paginate(responses, i, [], token) == NeedsMorePages
    decreases |responses| - i
  {
    if i < |responses| {
      EmptyPagesNeverFinish(responses, i + 1, responses[i].nextPageToken);
    }
  }

  /** A single page with items and no token ends the loop after one call. */
  lemma SinglePage(responses: seq<Page>)
    requires |responses| > 0 && responses[0].items != [] && responses[0].nextPageToken.None?
    ensures Paginate(responses, 0, [], None) == Finished(responses[0].items, 1)
  {
  }
}
