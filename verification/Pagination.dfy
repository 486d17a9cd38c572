/** `paginatedTransactions`: collecting a round's transactions page by page. */
module Pagination {
  import opened Values

  datatype Page = Page(transactions: seq<Js>, nextToken: Option<string>)

  /** The indexer's answer to the k-th request, with or without a page token; it may fail. */
  type Server = (nat, Option<string>) -> Result<Page>

  /** Results asked for in one request. */
  const PAGINATION_LIMIT: nat := 10000

  /** A missing or empty token asks for the first page. */
  function Request(token: Option<string>): Option<string> {
    if token == Some("") then None else token
  }

  function Answer(server: Server, k: nat, token: Option<string>): Result<Page> {
    server(k, Request(token))
  }

  /** Within n requests, the k-th being the first, the recursion meets a failure or an empty page. */
  predicate Ends(server: Server, k: nat, token: Option<string>, n: nat)
    decreases n
  {
    n > 0 && match Answer(server, k, token)
      case Err(_) => true
      case Ok(page) => page.transactions == [] || Ends(server, k + 1, page.nextToken, n - 1)
  }

  datatype Pages = Pages(result: Result<seq<Js>>, requests: nat)

  /** The recursion, with the number of requests it makes. */
  function PaginatedTransactions(server: Server, k: nat, token: Option<string>, ghost n: nat): Pages
    requires Ends(server, k, token, n)
    decreases n
  {
    match Answer(server, k, token)
    case Err(e) => Pages(Err(e), 1)
    case Ok(page) =>
      if page.transactions == [] then Pages(Ok([]), 1)
      else
        var rest := PaginatedTransactions(server, k + 1, page.nextToken, n - 1);
        Pages(
          match rest.result case Err(e) => Err(e) case Ok(more) => Ok(page.transactions + more),
          rest.requests + 1)
  }

  // ----- Against an indexer that serves every transaction -----

  predicate Usable(token: Option<string>) {
    token.Some? && token.value != ""
  }

  /**
   * Whenever it answers, the server hands out `all` in order: a token stands for a position, a page
   * is the stretch that follows it, and is empty only at the end. A page need not carry a token.
   */
  ghost predicate AnswersInOrder(server: Server, all: seq<Js>, position: Option<string> -> nat) {
    && position(None) == 0
    && forall k: nat, t :: position(t) <= |all| ==> AnswersAt(server, all, position, k, t)
  }

  ghost predicate AnswersAt(server: Server, all: seq<Js>, position: Option<string> -> nat, k: nat, t: Option<string>)
    requires position(t) <= |all|
  {
    server(k, t).Ok? ==>
      var page := server(k, t).value;
      var next := position(t) + |page.transactions|;
      && next <= |all|
      && page.transactions == all[position(t)..next]
      && (position(t) < |all| ==> page.transactions != [])
      && (page.transactions != [] && Usable(page.nextToken) ==> position(page.nextToken) == next)
  }

  /** The server also answers every request, and every page with transactions carries a token. */
  ghost predicate ServesInOrder(server: Server, all: seq<Js>, position: Option<string> -> nat) {
    && AnswersInOrder(server, all, position)
    && forall k: nat, t :: position(t) <= |all| ==> ServesAt(server, k, t)
  }

  predicate ServesAt(server: Server, k: nat, t: Option<string>) {
    server(k, t).Ok? && (server(k, t).value.transactions != [] ==> Usable(server(k, t).value.nextToken))
  }

  /** Where the request with this token begins. */
  ghost function Start(position: Option<string> -> nat, token: Option<string>): nat {
    position(Request(token))
  }

  /** The page a token leads to, and where the next one begins. */
  lemma PageAt(server: Server, all: seq<Js>, position: Option<string> -> nat, k: nat, token: Option<string>)
    returns (page: Page, next: nat)
    requires ServesInOrder(server, all, position) && Start(position, token) <= |all|
    ensures Answer(server, k, token) == Ok(page)
    ensures next == Start(position, token) + |page.transactions| <= |all|
    ensures page.transactions == all[Start(position, token)..next]
    ensures if page.transactions == [] then Start(position, token) == |all| else Start(position, page.nextToken) == next
  {
    assert ServesAt(server, k, Request(token)) && AnswersAt(server, all, position, k, Request(token));
    page := server(k, Request(token)).value;
    next := Start(position, token) + |page.transactions|;
  }

  /** One page of the recursion, from what the rest of it returns. */
  lemma OnePage(server: Server, all: seq<Js>, k: nat, token: Option<string>, n: nat, page: Page, from: nat, next: nat)
    requires n > 0 && Answer(server, k, token) == Ok(page) && page.transactions != []
    requires from <= next <= |all| && page.transactions == all[from..next]
    requires Ends(server, k + 1, page.nextToken, n - 1)
    requires PaginatedTransactions(server, k + 1, page.nextToken, n - 1).result == Ok(all[next..])
    ensures Ends(server, k, token, n)
    ensures PaginatedTransactions(server, k, token, n).result == Ok(all[from..])
    ensures PaginatedTransactions(server, k, token, n).requests
         == PaginatedTransactions(server, k + 1, page.nextToken, n - 1).requests + 1
  {
    TailSplits(all, from, next);
  }

  lemma TailSplits(all: seq<Js>, from: nat, next: nat)
    requires from <= next <= |all|
    ensures all[from..] == all[from..next] + all[next..]
    ensures next == from ==> all[from..next] == []
    ensures from == |all| ==> all[from..] == []
  {
  }

  /** Every transaction is returned once and in order, in at most one request more than there are transactions. */
  lemma {:induction false} PaginationIsComplete(
    server: Server, all: seq<Js>, position: Option<string> -> nat, k: nat, token: Option<string>, n: nat)
    requires ServesInOrder(server, all, position)
    requires Start(position, token) <= |all| && n == |all| - Start(position, token) + 1
    ensures Ends(server, k, token, n)
    ensures PaginatedTransactions(server, k, token, n).result == Ok(all[Start(position, token)..])
    ensures PaginatedTransactions(server, k, token, n).requests <= n
    decreases n
  {
    var from := Start(position, token);
    var page, next := PageAt(server, all, position, k, token);
    if page.transactions == [] {
      TailSplits(all, from, next);
    } else {
      var m := n - |page.transactions|;
      PaginationIsComplete(server, all, position, k + 1, page.nextToken, m);
      EndsLater(server, k + 1, page.nextToken, m, n - 1);
      OnePage(server, all, k, token, n, page, from, next);
    }
  }

  /** More allowance changes nothing. */
  lemma {:induction false} EndsLater(server: Server, k: nat, token: Option<string>, m: nat, n: nat)
    requires Ends(server, k, token, m) && m <= n
    ensures Ends(server, k, token, n)
    ensures PaginatedTransactions(server, k, token, n) == PaginatedTransactions(server, k, token, m)
    decreases m
  {
    match Answer(server, k, token)
    case Err(_) =>
    case Ok(page) =>
      if page.transactions != [] {
        EndsLater(server, k + 1, page.nextToken, m - 1, n - 1);
      }
  }

  /** Pages needed for a number of transactions when every page but the last is full. */
  function FullPages(count: nat, limit: nat): nat
    requires limit > 0
  {
    if count == 0 then 0 else if count <= limit then 1 else 1 + FullPages(count - limit, limit)
  }

  /** That is the quotient, rounded up. */
  lemma {:induction false} FullPagesIsCeiling(count: nat, limit: nat)
    requires limit > 0
    ensures (FullPages(count, limit) - 1) * limit < count || count == 0
    ensures count <= FullPages(count, limit) * limit
  {
    if count > limit {
      FullPagesIsCeiling(count - limit, limit);
    }
  }

  /** At the node's limit that is one page for every ten thousand transactions, begun or full. */
  lemma {:induction false} PagesAtTheLimit(count: nat)
    ensures FullPages(count, PAGINATION_LIMIT) == (count + PAGINATION_LIMIT - 1) / PAGINATION_LIMIT
  {
    if count > PAGINATION_LIMIT {
      PagesAtTheLimit(count - PAGINATION_LIMIT);
    }
  }

  /** The length of a full page, or of what is left. */
  function PageLength(left: nat, limit: nat): nat {
    if left <= limit then left else limit
  }

  ghost predicate ServesFullPages(server: Server, all: seq<Js>, position: Option<string> -> nat, limit: nat) {
    && ServesInOrder(server, all, position)
    && forall k: nat, t :: position(t) <= |all| ==> ServesFullAt(server, all, position, limit, k, t)
  }

  ghost predicate ServesFullAt(
    server: Server, all: seq<Js>, position: Option<string> -> nat, limit: nat, k: nat, t: Option<string>)
    requires position(t) <= |all|
  {
    server(k, t).Ok? && |server(k, t).value.transactions| == PageLength(|all| - position(t), limit)
  }

  lemma FullPagesStep(count: nat, limit: nat)
    requires limit > 0 && count > 0
    ensures FullPages(count, limit) == 1 + FullPages(count - PageLength(count, limit), limit)
  {
  }

  lemma OneRequest(server: Server, k: nat, token: Option<string>, n: nat, page: Page)
    requires Ends(server, k, token, n) && Answer(server, k, token) == Ok(page) && page.transactions != []
    ensures Ends(server, k + 1, page.nextToken, n - 1)
    ensures PaginatedTransactions(server, k, token, n).requests
         == PaginatedTransactions(server, k + 1, page.nextToken, n - 1).requests + 1
  {
  }

  /** With full pages the number of requests is exact: one per page, and one for the empty page. */
  lemma {:induction false} RequestsWithFullPages(
    server: Server, all: seq<Js>, position: Option<string> -> nat, limit: nat, k: nat, token: Option<string>, n: nat)
    requires limit > 0 && ServesFullPages(server, all, position, limit)
    requires Start(position, token) <= |all| && Ends(server, k, token, n)
    ensures PaginatedTransactions(server, k, token, n).requests
         == FullPages(|all| - Start(position, token), limit) + 1
    decreases n
  {
    var left := |all| - Start(position, token);
    var page, next := PageAt(server, all, position, k, token);
    assert ServesFullAt(server, all, position, limit, k, Request(token));
    if page.transactions != [] {
      FullPagesStep(left, limit);
      OneRequest(server, k, token, n, page);
      RequestsWithFullPages(server, all, position, limit, k + 1, page.nextToken, n - 1);
    }
  }

  // ----- Against an indexer that may leave out a token -----

  /** The token the recursion holds after j pages. */
  function TokenAfter(server: Server, j: nat): Option<string> {
    if j == 0 then None
    else
      match Answer(server, j - 1, TokenAfter(server, j - 1))
      case Err(_) => None
      case Ok(page) => page.nextToken
  }

  /** The j-th request brings transactions. */
  predicate PageIsFull(server: Server, j: nat) {
    var answer := Answer(server, j, TokenAfter(server, j));
    answer.Ok? && answer.value.transactions != []
  }

  /** So do all requests up to the j-th. */
  ghost predicate Reached(server: Server, j: nat) {
    forall i :: 0 <= i <= j ==> PageIsFull(server, i)
  }

  /** Whatever the server does, the recursion ends with the first request that fails or brings nothing. */
  lemma {:induction false} EndsIffAPageIsNotFull(server: Server, j: nat, n: nat)
    ensures Ends(server, j, TokenAfter(server, j), n) <==> exists i :: j <= i < j + n && !PageIsFull(server, i)
    decreases n
  {
    if n > 0 && PageIsFull(server, j) {
      EndsIffAPageIsNotFull(server, j + 1, n - 1);
    }
  }

  /** What the first j pages hold, one after the other. */
  function Collected(server: Server, j: nat): seq<Js> {
    if j == 0 then []
    else
      match Answer(server, j - 1, TokenAfter(server, j - 1))
      case Err(_) => Collected(server, j - 1)
      case Ok(page) => Collected(server, j - 1) + page.transactions
  }

  /** All requests but the last bring transactions, and the last one decides. */
  lemma {:induction false} LastRequestDecides(server: Server, j: nat, n: nat)
    requires Ends(server, j, TokenAfter(server, j), n)
    ensures var p := PaginatedTransactions(server, j, TokenAfter(server, j), n);
      var last := j + p.requests - 1;
      && p.requests > 0
      && (forall i :: j <= i < last ==> PageIsFull(server, i)) && !PageIsFull(server, last)
      && match Answer(server, last, TokenAfter(server, last))
        case Err(e) => p.result == Err(e)
        case Ok(_) => p.result.Ok? && Collected(server, j) + p.result.value == Collected(server, last)
    decreases n
  {
    if PageIsFull(server, j) {
      LastRequestDecides(server, j + 1, n - 1);
      var page := Answer(server, j, TokenAfter(server, j)).value;
      assert Collected(server, j + 1) == Collected(server, j) + page.transactions;
    }
  }

  /** The result is what the pages hold if every request is answered, and otherwise that request's error. */
  lemma PaginationResult(server: Server, n: nat)
    requires Ends(server, 0, None, n)
    ensures var p := PaginatedTransactions(server, 0, None, n);
      && p.requests > 0
      && (forall i :: 0 <= i < p.requests - 1 ==> PageIsFull(server, i))
      && match Answer(server, p.requests - 1, TokenAfter(server, p.requests - 1))
        case Err(e) => p.result == Err(e)
        case Ok(page) => page.transactions == [] && p.result == Ok(Collected(server, p.requests - 1))
  {
    assert TokenAfter(server, 0) == None && Collected(server, 0) == [];
    LastRequestDecides(server, 0, n);
    var p := PaginatedTransactions(server, 0, None, n);
    assert p.result.Ok? ==> [] + p.result.value == p.result.value;
  }

  /** The server answers the same request the same way at any time. */
  ghost predicate Steady(server: Server) {
    forall k: nat, t :: server(k, t) == server(0, t)
  }

  /** A page with transactions but no token sends the recursion back to the first page, for ever. */
  lemma {:induction false} MissingTokenNeverEnds(server: Server, last: nat, k: nat, j: nat, n: nat)
    requires Steady(server) && Reached(server, last) && !Usable(TokenAfter(server, last + 1))
    requires j <= last
    ensures !Ends(server, k, TokenAfter(server, j), n)
    decreases n
  {
    if n > 0 {
      assert PageIsFull(server, j);
      var token := TokenAfter(server, j);
      assert Answer(server, k, token) == Answer(server, 0, token) == Answer(server, j, token);
      if j < last {
        MissingTokenNeverEnds(server, last, k + 1, j + 1, n - 1);
      } else {
        MissingTokenNeverEnds(server, last, k + 1, 0, n - 1);
        RestartsAtFirst(server, k + 1, TokenAfter(server, last + 1), n - 1);
      }
    }
  }

  lemma RestartsAtFirst(server: Server, k: nat, token: Option<string>, n: nat)
    requires !Usable(token)
    ensures Ends(server, k, token, n) <==> Ends(server, k, None, n)
  {
    assert Answer(server, k, token) == Answer(server, k, None);
  }

  /** Every page the recursion reaches that has transactions carries a token that can be used. */
  ghost predicate TokensAreGiven(server: Server) {
    forall j: nat :: Reached(server, j) ==> Usable(TokenAfter(server, j + 1))
  }

  lemma {:induction false} TokensLeadToTheEnd(
    server: Server, all: seq<Js>, position: Option<string> -> nat, j: nat, n: nat)
    requires AnswersInOrder(server, all, position) && TokensAreGiven(server)
    requires forall i :: 0 <= i < j ==> PageIsFull(server, i)
    requires Start(position, TokenAfter(server, j)) <= |all|
    requires n == |all| - Start(position, TokenAfter(server, j)) + 1
    ensures Ends(server, j, TokenAfter(server, j), n)
    decreases n
  {
    var token := TokenAfter(server, j);
    assert AnswersAt(server, all, position, j, Request(token));
    if PageIsFull(server, j) {
      assert Reached(server, j);
      var page := Answer(server, j, token).value;
      var m := n - |page.transactions|;
      TokensLeadToTheEnd(server, all, position, j + 1, m);
      EndsLater(server, j + 1, page.nextToken, m, n - 1);
    }
  }

  ghost predicate Terminates(server: Server, k: nat, token: Option<string>) {
    exists n: nat :: Ends(server, k, token, n)
  }

  /** Pagination against a steady server ends exactly when no token is missing where one is needed. */
  lemma EndsIffTokensAreGiven(server: Server, all: seq<Js>, position: Option<string> -> nat)
    requires Steady(server) && AnswersInOrder(server, all, position)
    ensures Terminates(server, 0, None) <==> TokensAreGiven(server)
  {
    assert TokenAfter(server, 0) == None;
    if TokensAreGiven(server) {
      TokensLeadToTheEnd(server, all, position, 0, |all| + 1);
      assert Ends(server, 0, None, |all| + 1);
    }
    if n: nat :| Ends(server, 0, None, n) {
      forall j: nat | Reached(server, j) ensures Usable(TokenAfter(server, j + 1)) {
        if !Usable(TokenAfter(server, j + 1)) {
          MissingTokenNeverEnds(server, j, 0, 0, n);
        }
      }
    }
  }

  /** There is such a server: it answers every request with its only transaction and no token. */
  lemma ForgetfulServerNeverEnds(txn: Js)
    ensures var server: Server := (k, t) => Ok(Page([txn], None));
      && Steady(server) && AnswersInOrder(server, [txn], t => 0)
      && !Terminates(server, 0, None)
  {
    var server: Server := (k, t) => Ok(Page([txn], None));
    var position: Option<string> -> nat := t => 0;
    assert AnswersInOrder(server, [txn], position);
    assert PageIsFull(server, 0) && TokenAfter(server, 1) == None;
    assert Reached(server, 0);
    EndsIffTokensAreGiven(server, [txn], position);
  }
}
