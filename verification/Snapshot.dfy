/**
 The snapshot runner: one job per tracked wallet goes through the worker pool, and the results,
 in whatever order they come out, are collected, stored and summed up in a status.

 A job carries the answers the providers give to its calls. Amounts and prices are exact numbers.
 */
module Snapshot {
  import opened Faults
  import opened Options
  import WorkerPool

  datatype Token = Token(symbol: string, contract: string, decimals: nat)

  const DEFAULT_TOKENS := [
    Token("USDC", "0xa0b86991c6218b36c1d19d4a2e9eb0ce3606eb48", 6),
    Token("USDT", "0xdac17f958d2ee523a2206206994597c13d831ec7", 6)]

  const DEFAULT_WORKERS := 3

  /** `native` is None when the balance cannot be fetched, `balances` when there is no token
      provider; a symbol or contract missing from its map stands for a failed call. */
  datatype Job = Job(walletId: string, native: Option<(real, string)>, prices: map<string, real>,
      balances: Option<map<string, real>>)

  datatype AssetType = Native | Erc20

  datatype Item = Item(
    snapshotId: string,
    walletId: string,
    symbol: string,
    assetType: AssetType,
    contract: string,
    amount: real,
    usdPrice: real,
    usdValue: real)

  datatype WalletResult = Fetched(walletId: string, items: seq<Item>) | FetchError(walletId: string)

  // ------------------------------------------------------------ one wallet

  /** The balance was fetched and is not zero. */
  predicate Holds(job: Job, contract: string) {
    job.balances.Some? && contract in job.balances.value && job.balances.value[contract] != 0.0
  }

  predicate Held(job: Job, token: Token) {
    Holds(job, token.contract)
  }

  function TokenPrice(job: Job, symbol: string): real {
    if symbol == "USDC" || symbol == "USDT" || symbol !in job.prices then 1.0 else job.prices[symbol]
  }

  function TokenItem(job: Job, snapshotId: string, token: Token): Item
    requires Held(job, token)
  {
    var amount, price := job.balances.value[token.contract], TokenPrice(job, token.symbol);
    Item(snapshotId, job.walletId, token.symbol, Erc20, token.contract, amount, price, amount * price)
  }

  function NativeItem(job: Job, snapshotId: string): Item
    requires job.native.Some?
  {
    var (amount, asset) := job.native.value;
    var price := if asset in job.prices then job.prices[asset] else 0.0;
    Item(snapshotId, job.walletId, asset, Native, "", amount, price, amount * price)
  }

  function Entry(job: Job, snapshotId: string, token: Token): seq<Item> {
    if Held(job, token) then [TokenItem(job, snapshotId, token)] else []
  }

  /** The items of the tokens held, in the order of the list. */
  function TokenItems(job: Job, snapshotId: string, tokens: seq<Token>): (items: seq<Item>)
    ensures |items| <= |tokens| && forall item | item in items ::
        item.walletId == job.walletId && item.assetType.Erc20? && item.amount != 0.0
  {
    if tokens == [] then []
    else
      var last := tokens[|tokens| - 1];
      TokenItems(job, snapshotId, tokens[..|tokens| - 1]) + Entry(job, snapshotId, last)
  }

  // ------------------------------------------------------------ what an item says

  /** Column by column, the item is the wallet's native balance, at the price fetched for its asset. */
  predicate IsNative(item: Item, job: Job, snapshotId: string) {
    && job.native.Some?
    && item.snapshotId == snapshotId && item.walletId == job.walletId
    && item.symbol == job.native.value.1 && item.assetType == Native && item.contract == ""
    && item.amount == job.native.value.0
    && item.usdPrice == (if job.native.value.1 in job.prices then job.prices[job.native.value.1] else 0.0)
    && item.usdValue == item.amount * item.usdPrice
  }

  /** Column by column, the item is the wallet's own balance of the token, at a price of 1 dollar for the two
      stablecoins, and for others too when none was fetched. */
  predicate IsToken(item: Item, job: Job, snapshotId: string, symbol: string, contract: string) {
    && job.balances.Some? && contract in job.balances.value
    && item.snapshotId == snapshotId && item.walletId == job.walletId
    && item.symbol == symbol && item.assetType == Erc20 && item.contract == contract
    && item.amount == job.balances.value[contract] != 0.0
    && (symbol == "USDC" || symbol == "USDT" || symbol !in job.prices ==> item.usdPrice == 1.0)
    && (symbol != "USDC" && symbol != "USDT" && symbol in job.prices ==> item.usdPrice == job.prices[symbol])
    && item.usdValue == item.amount * item.usdPrice
  }

  /** The report of one wallet: its native balance, then USDC if it holds any, then USDT if it holds any. */
  predicate Reports(items: seq<Item>, job: Job, snapshotId: string) {
    var usdc := Holds(job, "0xa0b86991c6218b36c1d19d4a2e9eb0ce3606eb48");
    var usdt := Holds(job, "0xdac17f958d2ee523a2206206994597c13d831ec7");
    && |items| == 1 + (if usdc then 1 else 0) + (if usdt then 1 else 0)
    && IsNative(items[0], job, snapshotId)
    && (usdc ==> IsToken(items[1], job, snapshotId, "USDC", "0xa0b86991c6218b36c1d19d4a2e9eb0ce3606eb48"))
    && (usdt ==> IsToken(items[if usdc then 2 else 1], job, snapshotId, "USDT",
                         "0xdac17f958d2ee523a2206206994597c13d831ec7"))
  }

  /** The item is the wallet's native balance or one of its stablecoins. */
  predicate IsReported(item: Item, job: Job, snapshotId: string) {
    || IsNative(item, job, snapshotId)
    || IsToken(item, job, snapshotId, "USDC", "0xa0b86991c6218b36c1d19d4a2e9eb0ce3606eb48")
    || IsToken(item, job, snapshotId, "USDT", "0xdac17f958d2ee523a2206206994597c13d831ec7")
  }

  lemma ReportsAreReported(items: seq<Item>, job: Job, snapshotId: string, item: Item)
    requires Reports(items, job, snapshotId) && item in items
    ensures IsReported(item, job, snapshotId)
  {
    var i :| 0 <= i < |items| && items[i] == item;
    assert |items| <= 3;
    assert i == 0 || i == 1 || i == 2;
  }

  lemma TokenItemIsToken(job: Job, snapshotId: string, token: Token)
    requires Held(job, token)
    ensures IsToken(TokenItem(job, snapshotId, token), job, snapshotId, token.symbol, token.contract)
  {
  }

  lemma ReportsItems(job: Job, snapshotId: string)
    requires job.native.Some?
    ensures Reports([NativeItem(job, snapshotId)] + TokenItems(job, snapshotId, DEFAULT_TOKENS), job, snapshotId)
  {
    var usdc, usdt := DEFAULT_TOKENS[0], DEFAULT_TOKENS[1];
    assert DEFAULT_TOKENS[..1] == [usdc] && [usdc][..0] == [];
    assert TokenItems(job, snapshotId, [usdc]) == [] + Entry(job, snapshotId, usdc);
    assert TokenItems(job, snapshotId, DEFAULT_TOKENS)
        == TokenItems(job, snapshotId, [usdc]) + Entry(job, snapshotId, usdt);
    if Held(job, usdc) {
      TokenItemIsToken(job, snapshotId, usdc);
    }
    if Held(job, usdt) {
      TokenItemIsToken(job, snapshotId, usdt);
    }
  }

  /** A wallet fails only with its native balance; otherwise it contributes the native item and one
      item per token held. */
  function ResultOf(job: Job, snapshotId: string): (r: WalletResult)
    ensures r.walletId == job.walletId && (r.FetchError? <==> job.native.None?)
    ensures r.Fetched? ==>
      && 1 <= |r.items| <= 1 + |DEFAULT_TOKENS|
      && (forall item | item in r.items :: item.walletId == job.walletId)
      && (forall i | 0 <= i < |r.items| :: r.items[i].assetType.Native? <==> i == 0)
      && Reports(r.items, job, snapshotId)
  {
    if job.native.None? then FetchError(job.walletId)
    else
      ReportsItems(job, snapshotId);
      Fetched(job.walletId, [NativeItem(job, snapshotId)] + TokenItems(job, snapshotId, DEFAULT_TOKENS))
  }

  method ProcessWallet(job: Job, snapshotId: string) returns (result: WalletResult)
    ensures result == ResultOf(job, snapshotId)
    ensures if job.native.None? then result == FetchError(job.walletId)
        else result.Fetched? && result.walletId == job.walletId && Reports(result.items, job, snapshotId)
  {
    if job.native.None? {
      return FetchError(job.walletId);
    }
    var items := [NativeItem(job, snapshotId)];
    if job.balances.Some? {
      var n := 0;
      while n < |DEFAULT_TOKENS|
        invariant n <= |DEFAULT_TOKENS|
        invariant items == [NativeItem(job, snapshotId)] + TokenItems(job, snapshotId, DEFAULT_TOKENS[..n])
      {
        var token := DEFAULT_TOKENS[n];
        assert DEFAULT_TOKENS[..n + 1] == DEFAULT_TOKENS[..n] + [token];
        n := n + 1;
        if token.contract !in job.balances.value || job.balances.value[token.contract] == 0.0 {
          continue;
        }
        items := items + [TokenItem(job, snapshotId, token)];
      }
      assert DEFAULT_TOKENS[..n] == DEFAULT_TOKENS;
    } else {
      NoTokens(job, snapshotId, DEFAULT_TOKENS);
    }
    result := Fetched(job.walletId, items);
  }

  lemma {:induction false} NoTokens(job: Job, snapshotId: string, tokens: seq<Token>)
    requires job.balances.None?
    ensures TokenItems(job, snapshotId, tokens) == []
  {
    if tokens != [] {
      NoTokens(job, snapshotId, tokens[..|tokens| - 1]);
    }
  }

  predicate DistinctContracts(tokens: seq<Token>) {
    forall i, j | 0 <= i < j < |tokens| :: tokens[i].contract != tokens[j].contract
  }

  lemma {:induction false} ItemsAreOfHeldTokens(job: Job, snapshotId: string, tokens: seq<Token>, item: Item)
    returns (k: nat)
    requires item in TokenItems(job, snapshotId, tokens)
    ensures k < |tokens| && Held(job, tokens[k]) && item == TokenItem(job, snapshotId, tokens[k])
  {
    k := |tokens| - 1;
    if item in TokenItems(job, snapshotId, tokens[..k]) {
      k := ItemsAreOfHeldTokens(job, snapshotId, tokens[..k], item);
    }
  }

  /** How many items are about one contract. */
  function Listed(items: seq<Item>, contract: string): nat {
    if items == [] then 0
    else Listed(items[..|items| - 1], contract) + if items[|items| - 1].contract == contract then 1 else 0
  }

  lemma ListedEntry(items: seq<Item>, job: Job, snapshotId: string, token: Token, contract: string)
    ensures Listed(items + Entry(job, snapshotId, token), contract)
         == Listed(items, contract) + if Held(job, token) && token.contract == contract then 1 else 0
  {
    var longer := items + Entry(job, snapshotId, token);
    if Held(job, token) {
      assert longer[..|items|] == items;
    } else {
      assert longer == items;
    }
  }

  lemma {:induction false} NotListed(job: Job, snapshotId: string, tokens: seq<Token>, contract: string)
    requires forall i | 0 <= i < |tokens| :: tokens[i].contract != contract
    ensures Listed(TokenItems(job, snapshotId, tokens), contract) == 0
  {
    if tokens != [] {
      var n := |tokens| - 1;
      NotListed(job, snapshotId, tokens[..n], contract);
      ListedEntry(TokenItems(job, snapshotId, tokens[..n]), job, snapshotId, tokens[n], contract);
    }
  }

  /** One failed or empty token leaves the others alone: a listed token is reported, and reported
      once, exactly when its own balance was fetched and is not zero; every item reports such a
      token's own balance. */
  lemma {:induction false} TokenReportedIffHeld(job: Job, snapshotId: string, tokens: seq<Token>, k: nat)
    requires DistinctContracts(tokens) && k < |tokens|
    ensures Listed(TokenItems(job, snapshotId, tokens), tokens[k].contract) == if Held(job, tokens[k]) then 1 else 0
    ensures forall item | item in TokenItems(job, snapshotId, tokens) && item.contract == tokens[k].contract ::
      Held(job, tokens[k]) && IsToken(item, job, snapshotId, tokens[k].symbol, tokens[k].contract)
  {
    var n := |tokens| - 1;
    ListedEntry(TokenItems(job, snapshotId, tokens[..n]), job, snapshotId, tokens[n], tokens[k].contract);
    if k < n {
      TokenReportedIffHeld(job, snapshotId, tokens[..n], k);
    } else {
      NotListed(job, snapshotId, tokens[..n], tokens[k].contract);
    }
    forall item | item in TokenItems(job, snapshotId, tokens) && item.contract == tokens[k].contract
      ensures Held(job, tokens[k]) && IsToken(item, job, snapshotId, tokens[k].symbol, tokens[k].contract)
    {
      var j := ItemsAreOfHeldTokens(job, snapshotId, tokens, item);
      assert j == k;
      TokenItemIsToken(job, snapshotId, tokens[k]);
    }
  }

  lemma DefaultTokensDistinct()
    ensures DistinctContracts(DEFAULT_TOKENS)
  {
    assert DEFAULT_TOKENS[0].contract[2] == 'a' && DEFAULT_TOKENS[1].contract[2] == 'd';
  }

  // ------------------------------------------------------------ collecting

  function ItemsOf(r: WalletResult): seq<Item> {
    if r.Fetched? then r.items else []
  }

  function Collected(results: seq<WalletResult>): seq<Item> {
    if results == [] then [] else Collected(results[..|results| - 1]) + ItemsOf(results[|results| - 1])
  }

  function Failures(results: seq<WalletResult>): seq<string> {
    if results == [] then []
    else
      var last := results[|results| - 1];
      Failures(results[..|results| - 1]) + if last.FetchError? then [last.walletId] else []
  }

  predicate AllFailed(results: seq<WalletResult>) {
    forall i | 0 <= i < |results| :: results[i].FetchError?
  }

  lemma {:induction false} CollectedConcat(a: seq<WalletResult>, b: seq<WalletResult>)
    ensures Collected(a + b) == Collected(a) + Collected(b)
  {
    if b == [] {
      assert a + b == a;
    } else {
      var rest, x := b[..|b| - 1], b[|b| - 1];
      CollectedConcat(a, rest);
      assert (a + b)[..|a + b| - 1] == a + rest && (a + b)[|a + b| - 1] == x;
      assert Collected(a) + Collected(rest) + ItemsOf(x) == Collected(a) + (Collected(rest) + ItemsOf(x));
    }
  }

  lemma {:induction false} FailuresConcat(a: seq<WalletResult>, b: seq<WalletResult>)
    ensures Failures(a + b) == Failures(a) + Failures(b)
  {
    if b == [] {
      assert a + b == a;
    } else {
      var rest, x := b[..|b| - 1], b[|b| - 1];
      FailuresConcat(a, rest);
      assert (a + b)[..|a + b| - 1] == a + rest && (a + b)[|a + b| - 1] == x;
      assert Failures(a) + Failures(rest) + Failures([x]) == Failures(a) + (Failures(rest) + Failures([x]));
      assert [x][..0] == [];
    }
  }

  /** One result contributes its items, or its wallet's id; with the two laws on concatenation this fixes
      what is collected from any results, in the order they arrive. */
  lemma OneCollected(x: WalletResult)
    ensures Collected([x]) == if x.Fetched? then x.items else []
    ensures Failures([x]) == if x.FetchError? then [x.walletId] else []
  {
    assert [x][..0] == [];
  }

  lemma CollectedWithout(before: seq<WalletResult>, x: WalletResult, after: seq<WalletResult>)
    ensures multiset(Collected(before + [x] + after)) == multiset(Collected(before + after)) + multiset(ItemsOf(x))
  {
    var a, b := Collected(before), Collected(after);
    assert Collected(before + [x] + after) == a + ItemsOf(x) + b by {
      CollectedSplit(before, x, after);
    }
    assert Collected(before + after) == a + b by {
      CollectedConcat(before, after);
    }
    MiddleOut(a, ItemsOf(x), b);
  }

  lemma CollectedSplit(before: seq<WalletResult>, x: WalletResult, after: seq<WalletResult>)
    ensures Collected(before + [x] + after) == Collected(before) + ItemsOf(x) + Collected(after)
  {
    CollectedConcat(before + [x], after);
    assert (before + [x])[..|before|] == before;
  }

  lemma MiddleOut(a: seq<Item>, x: seq<Item>, b: seq<Item>)
    ensures multiset(a + x + b) == multiset(a + b) + multiset(x)
  {
  }

  lemma ResultsWithout(rest: seq<WalletResult>, before: seq<WalletResult>, x: WalletResult, after: seq<WalletResult>)
    requires multiset(rest + [x]) == multiset(before + [x] + after)
    ensures multiset(rest) == multiset(before + after)
  {
    assert multiset(rest) == multiset(rest + [x]) - multiset{x};
    assert multiset(before + after) == multiset(before + [x] + after) - multiset{x};
  }

  /** The order in which the workers deliver does not matter. */
  lemma {:induction false} CollectedPermutes(a: seq<WalletResult>, b: seq<WalletResult>)
    requires multiset(a) == multiset(b)
    ensures multiset(Collected(a)) == multiset(Collected(b))
    decreases |a|
  {
    assert |a| == |multiset(a)| == |multiset(b)| == |b|;
    if a != [] {
      var rest, x := a[..|a| - 1], a[|a| - 1];
      assert x in multiset(b);
      var j :| 0 <= j < |b| && b[j] == x;
      var before, after := b[..j], b[j + 1..];
      assert a == rest + [x] && b == before + [x] + after;
      ResultsWithout(rest, before, x, after);
      CollectedPermutes(rest, before + after);
      CollectedWith(rest, before, x, after);
    }
  }

  lemma CollectedWith(rest: seq<WalletResult>, before: seq<WalletResult>, x: WalletResult, after: seq<WalletResult>)
    requires multiset(Collected(rest)) == multiset(Collected(before + after))
    ensures multiset(Collected(rest + [x])) == multiset(Collected(before + [x] + after))
  {
    CollectedWithout(before, x, after);
    assert (rest + [x])[..|rest|] == rest;
  }

  lemma {:induction false} NothingCollected(results: seq<WalletResult>)
    requires forall i | 0 <= i < |results| :: results[i].Fetched? ==> results[i].items != []
    ensures Collected(results) == [] <==> AllFailed(results)
    ensures results != [] && AllFailed(results) ==> Failures(results) != []
    ensures results == [] ==> Failures(results) == []
    ensures |Failures(results)| <= |results|
  {
    if results != [] {
      var n := |results| - 1;
      NothingCollected(results[..n]);
      assert forall i | 0 <= i < n :: results[..n][i] == results[i];
      assert AllFailed(results) <==> AllFailed(results[..n]) && results[n].FetchError?;
    }
  }

  // ------------------------------------------------------------ the pool behind a snapshot

  /** A pool run, over and drained, whose function is processWallet. */
  ghost predicate PoolRan(run: seq<WorkerPool.Pool<Job, WalletResult>>, acts: seq<WorkerPool.Action>, n: nat,
          jobs: seq<Job>, id: string, process: Job -> WalletResult) {
    && WorkerPool.IsRun(run, acts, process) && run[0] == WorkerPool.NewPool(n, jobs)
    && WorkerPool.Finished(run[|acts|])
    && forall t | t in jobs :: process(t) == ResultOf(t, id)
  }

  predicate MarkedFailed(received: seq<WalletResult>) {
    Failures(received) != [] && Collected(received) == []
  }

  lemma {:induction false} ImageOf(jobs: seq<Job>, id: string, process: Job -> WalletResult)
    requires forall t | t in jobs :: process(t) == ResultOf(t, id)
    ensures |WorkerPool.Image(jobs, process)| == |jobs|
    ensures forall i | 0 <= i < |jobs| :: WorkerPool.Image(jobs, process)[i] == ResultOf(jobs[i], id)
  {
    if jobs != [] {
      ImageOf(jobs[1..], id, process);
    }
  }

  lemma ReceivedAreResults(run: seq<WorkerPool.Pool<Job, WalletResult>>, acts: seq<WorkerPool.Action>, n: nat,
          jobs: seq<Job>, id: string, process: Job -> WalletResult, r: WalletResult)
    returns (t: Job)
    requires PoolRan(run, acts, n, jobs, id, process) && n >= 1 && r in run[|acts|].received
    ensures t in jobs && r == ResultOf(t, id)
  {
    WorkerPool.EverySchedule(run, acts, n, jobs, process);
    var image := WorkerPool.Image(jobs, process);
    assert r in multiset(run[|acts|].received) && r in multiset(image);
    ImageOf(jobs, id, process);
    var i :| 0 <= i < |image| && image[i] == r;
    t := jobs[i];
  }

  lemma {:induction false} CollectedFrom(results: seq<WalletResult>, item: Item) returns (i: nat)
    requires item in Collected(results)
    ensures i < |results| && results[i].Fetched? && item in results[i].items
  {
    var n := |results| - 1;
    if item in Collected(results[..n]) {
      i := CollectedFrom(results[..n], item);
    } else {
      i := n;
    }
  }

  /** Cancelled or not, each item collected is one wallet's own, with that wallet's amounts and prices. */
  lemma ItemsAreReported(run: seq<WorkerPool.Pool<Job, WalletResult>>, acts: seq<WorkerPool.Action>, n: nat,
          jobs: seq<Job>, id: string, process: Job -> WalletResult, item: Item)
    returns (t: Job)
    requires PoolRan(run, acts, n, jobs, id, process) && n >= 1 && item in Collected(run[|acts|].received)
    ensures t in jobs && IsReported(item, t, id)
  {
    var i := CollectedFrom(run[|acts|].received, item);
    t := ReceivedAreResults(run, acts, n, jobs, id, process, run[|acts|].received[i]);
    ReportsAreReported(run[|acts|].received[i].items, t, id, item);
  }

  /** Cancelled or not, a snapshot is marked failed exactly when something came back and none of it
      was a success; in particular a snapshot cut off before any result counts as completed. */
  lemma FailedIffOnlyErrorsCameBack(run: seq<WorkerPool.Pool<Job, WalletResult>>, acts: seq<WorkerPool.Action>, n: nat,
          jobs: seq<Job>, id: string, process: Job -> WalletResult)
    requires PoolRan(run, acts, n, jobs, id, process) && n >= 1
    ensures var received := run[|acts|].received;
      MarkedFailed(received) <==> received != [] && AllFailed(received)
  {
    var received := run[|acts|].received;
    forall i | 0 <= i < |received| ensures received[i].Fetched? ==> received[i].items != [] {
      var t := ReceivedAreResults(run, acts, n, jobs, id, process, received[i]);
    }
    NothingCollected(received);
  }

  /** An uncancelled pool delivers the result of every wallet and nothing else. */
  lemma EveryResultArrives(run: seq<WorkerPool.Pool<Job, WalletResult>>, acts: seq<WorkerPool.Action>, n: nat,
          jobs: seq<Job>, id: string, process: Job -> WalletResult)
    requires PoolRan(run, acts, n, jobs, id, process) && n >= 1 && !run[|acts|].cancelled
    ensures multiset(run[|acts|].received) == multiset(WorkerPool.Image(jobs, process))
        && |run[|acts|].received| == |jobs|
  {
    var received, image := run[|acts|].received, WorkerPool.Image(jobs, process);
    WorkerPool.EverySchedule(run, acts, n, jobs, process);
    ImageOf(jobs, id, process);
    assert |received| == |multiset(received)| == |multiset(image)| == |image|;
  }

  predicate EveryWalletFails(jobs: seq<Job>) {
    forall t | t in jobs :: t.native.None?
  }

  lemma ImageFails(jobs: seq<Job>, id: string, process: Job -> WalletResult, received: seq<WalletResult>)
    requires forall t | t in jobs :: process(t) == ResultOf(t, id)
    requires multiset(received) == multiset(WorkerPool.Image(jobs, process))
    ensures AllFailed(received) <==> EveryWalletFails(jobs)
  {
    var image := WorkerPool.Image(jobs, process);
    ImageOf(jobs, id, process);
    if AllFailed(received) {
      SameFailures(received, image);
    }
    if AllFailed(image) {
      SameFailures(image, received);
    }
    assert forall i | 0 <= i < |jobs| :: image[i].FetchError? <==> jobs[i].native.None?;
  }

  lemma SameFailures(a: seq<WalletResult>, b: seq<WalletResult>)
    requires multiset(a) == multiset(b) && AllFailed(a)
    ensures AllFailed(b)
  {
    forall i | 0 <= i < |b| ensures b[i].FetchError? {
      assert b[i] in multiset(a);
    }
  }

  /** An uncancelled snapshot holds exactly the items of the wallets whose native balance was
      fetched, each counted once, and is marked failed exactly when every wallet failed. */
  lemma UncancelledSnapshot(run: seq<WorkerPool.Pool<Job, WalletResult>>, acts: seq<WorkerPool.Action>, n: nat,
          jobs: seq<Job>, id: string, process: Job -> WalletResult)
    requires PoolRan(run, acts, n, jobs, id, process) && n >= 1 && jobs != [] && !run[|acts|].cancelled
    ensures var received := run[|acts|].received;
      && multiset(Collected(received)) == multiset(Collected(WorkerPool.Image(jobs, process)))
      && (MarkedFailed(received) <==> EveryWalletFails(jobs))
  {
    EveryResultArrives(run, acts, n, jobs, id, process);
    CollectedPermutes(run[|acts|].received, WorkerPool.Image(jobs, process));
    ImageFails(jobs, id, process, run[|acts|].received);
    FailedIffOnlyErrorsCameBack(run, acts, n, jobs, id, process);
  }

  /** One losing run: the only wallet fails, cancellation loses that result, and the snapshot counts
      as completed. */
  lemma CancelledFailureIsNotMarked(id: string)
    returns (run: seq<WorkerPool.Pool<Job, WalletResult>>, acts: seq<WorkerPool.Action>, jobs: seq<Job>)
    ensures PoolRan(run, acts, 1, jobs, id, t => ResultOf(t, id)) && run[|acts|].cancelled
    ensures jobs != [] && EveryWalletFails(jobs) && !MarkedFailed(run[|acts|].received)
  {
    var process := (t: Job) => ResultOf(t, id);
    jobs := [Job("w", None, map[], None)];
    acts := [WorkerPool.Cancel, WorkerPool.Receive(0), WorkerPool.Check(0), WorkerPool.Close];
    var s0 := WorkerPool.NewPool<Job, WalletResult>(1, jobs);
    var s1 := WorkerPool.Next(s0, acts[0], process);
    var s2 := WorkerPool.Next(s1, acts[1], process);
    var s3 := WorkerPool.Next(s2, acts[2], process);
    var s4 := WorkerPool.Next(s3, acts[3], process);
    run := [s0, s1, s2, s3, s4];
    assert WorkerPool.IsRun(run, acts, process);
  }

  predicate FirstSucceed(n: nat, jobs: seq<Job>) {
    forall i | 0 <= i < |jobs| && i < n :: jobs[i].native.Some?
  }

  /** Whatever the schedule and whether or not it is cancelled, "failed" means that every wallet failed. */
  ghost predicate StatusIsRight(n: nat, jobs: seq<Job>, id: string, process: Job -> WalletResult) {
    forall run: seq<WorkerPool.Pool<Job, WalletResult>>, acts | PoolRan(run, acts, n, jobs, id, process) ::
      MarkedFailed(run[|acts|].received) <==> EveryWalletFails(jobs)
  }

  /** Without "uncancelled" the status is right exactly when the first `n` wallets, one for each
      worker, all succeed: every result a cancelled pool loses is in a worker's hands, so then a
      failure never comes back without a success. Otherwise a failed wallet among them can be the
      only one to come back, and if all wallets fail, none of them need come back. */
  lemma StatusIsRightIff(n: nat, jobs: seq<Job>, id: string, process: Job -> WalletResult)
    requires n >= 1 && jobs != [] && forall t | t in jobs :: process(t) == ResultOf(t, id)
    ensures StatusIsRight(n, jobs, id, process) <==> FirstSucceed(n, jobs)
  {
    if i :| 0 <= i < |jobs| && i < n && jobs[i].native.None? {
      WrongStatus(n, jobs, id, process, i);
    } else {
      assert !EveryWalletFails(jobs) by { assert jobs[0] in jobs; }
      forall run: seq<WorkerPool.Pool<Job, WalletResult>>, acts | PoolRan(run, acts, n, jobs, id, process)
        ensures !MarkedFailed(run[|acts|].received)
      {
        SuccessComesBack(run, acts, n, jobs, id, process);
      }
    }
  }

  lemma SuccessComesBack(run: seq<WorkerPool.Pool<Job, WalletResult>>, acts: seq<WorkerPool.Action>, n: nat,
          jobs: seq<Job>, id: string, process: Job -> WalletResult)
    requires PoolRan(run, acts, n, jobs, id, process) && n >= 1
    requires FirstSucceed(n, jobs)
    ensures !MarkedFailed(run[|acts|].received)
  {
    var received := run[|acts|].received;
    FailedIffOnlyErrorsCameBack(run, acts, n, jobs, id, process);
    WorkerPool.GoodAmongDelivered(run, acts, n, jobs, process, (r: WalletResult) => r.Fetched?);
    assert WorkerPool.Delivered(run[|acts|]) == received;
  }

  lemma WrongStatus(n: nat, jobs: seq<Job>, id: string, process: Job -> WalletResult, i: nat)
    requires i < |jobs| && i < n && jobs[i].native.None? && forall t | t in jobs :: process(t) == ResultOf(t, id)
    ensures !StatusIsRight(n, jobs, id, process)
  {
    if EveryWalletFails(jobs) {
      var run, acts := WorkerPool.NothingDelivered(n, jobs, process);
      assert PoolRan(run, acts, n, jobs, id, process) && !MarkedFailed(run[|acts|].received);
    } else {
      var run, acts := WorkerPool.OneDelivered(n, jobs, i, process);
      assert PoolRan(run, acts, n, jobs, id, process);
      FailedIffOnlyErrorsCameBack(run, acts, n, jobs, id, process);
    }
  }

  // ------------------------------------------------------------ the runner

  datatype Status = Pending | Completed | Failed

  datatype WalletSnapshot = WalletSnapshot(id: string, status: Status, items: seq<Item>)

  class SnapshotRepository {
    var statuses: map<string, Status>
    var items: seq<Item>

    constructor ()
      ensures statuses == map[] && items == []
    {
      statuses, items := map[], [];
    }

    method CreateSnapshot(id: string, status: Status, fault: Fault) returns (ok: bool)
      modifies this`statuses
      ensures ok <==> fault.NoFault? && id !in old(statuses)
      ensures statuses
           == if fault.LostBefore? || id in old(statuses) then old(statuses) else old(statuses)[id := status]
    {
      if fault.LostBefore? || id in statuses {
        return false;
      }
      statuses := statuses[id := status];
      ok := fault.NoFault?;
    }

    method CreateSnapshotItem(item: Item, fault: Fault) returns (ok: bool)
      modifies this`items
      ensures ok <==> fault.NoFault?
      ensures items == if fault.LostBefore? then old(items) else old(items) + [item]
    {
      if fault.LostBefore? {
        return false;
      }
      items := items + [item];
      ok := fault.NoFault?;
    }

    method UpdateSnapshotStatus(id: string, status: Status, fault: Fault) returns (ok: bool)
      modifies this`statuses
      ensures ok <==> fault.NoFault? && id in old(statuses)
      ensures statuses
           == if fault.LostBefore? || id !in old(statuses) then old(statuses) else old(statuses)[id := status]
    {
      if fault.LostBefore? || id !in statuses {
        return false;
      }
      statuses := statuses[id := status];
      ok := fault.NoFault?;
    }
  }

  /** The items whose insert took effect. */
  function Inserted(items: seq<Item>, faults: nat -> Fault): seq<Item> {
    if items == [] then []
    else
      var n := |items| - 1;
      Inserted(items[..n], faults) + if faults(n).LostBefore? then [] else [items[n]]
  }

  /** Two batches of inserts, the second with the faults that follow; with OneInserted this fixes what is
      stored of any items, in their order. */
  lemma {:induction false} InsertedConcat(a: seq<Item>, b: seq<Item>, faults: nat -> Fault, later: nat -> Fault)
    requires forall k: nat :: later(k) == faults(|a| + k)
    ensures Inserted(a + b, faults) == Inserted(a, faults) + Inserted(b, later)
  {
    if b == [] {
      assert a + b == a;
    } else {
      var n := |b| - 1;
      InsertedConcat(a, b[..n], faults, later);
      assert (a + b)[..|a + b| - 1] == a + b[..n] && (a + b)[|a + b| - 1] == b[n];
      Associate(Inserted(a, faults), Inserted(b[..n], later), if later(n).LostBefore? then [] else [b[n]]);
    }
  }

  lemma Associate(a: seq<Item>, b: seq<Item>, c: seq<Item>)
    ensures (a + b) + c == a + (b + c)
  {
  }

  lemma OneInserted(item: Item, faults: nat -> Fault)
    ensures Inserted([item], faults) == if faults(0).LostBefore? then [] else [item]
  {
    assert [item][..0] == [];
  }

  lemma Overwritten(statuses: map<string, Status>, id: string, first: Status, second: Status)
    ensures statuses[id := first][id := second] == statuses[id := second]
  {
  }

  class Runner {
    const repo: SnapshotRepository
    const numWorkers: nat

    constructor (repo: SnapshotRepository, numWorkers: int)
      ensures this.repo == repo && this.numWorkers >= 1
      ensures this.numWorkers == if numWorkers <= 0 then 3 else numWorkers
    {
      this.repo := repo;
      this.numWorkers := if numWorkers <= 0 then DEFAULT_WORKERS else numWorkers;
    }

    method Collect(received: seq<WalletResult>) returns (allItems: seq<Item>, errors: seq<string>)
      ensures allItems == Collected(received) && errors == Failures(received)
    {
      allItems, errors := [], [];
      for i := 0 to |received|
        invariant allItems == Collected(received[..i]) && errors == Failures(received[..i])
      {
        assert received[..i + 1][..i] == received[..i];
        if received[i].FetchError? {
          errors := errors + [received[i].walletId];
        } else {
          allItems := allItems + received[i].items;
        }
      }
      assert received[..|received|] == received;
    }

    method Persist(allItems: seq<Item>, faults: nat -> Fault)
      modifies repo`items
      ensures repo.items == old(repo.items) + Inserted(allItems, faults)
    {
      for i := 0 to |allItems|
        invariant repo.items == old(repo.items) + Inserted(allItems[..i], faults)
      {
        assert allItems[..i + 1][..i] == allItems[..i];
        var _ := repo.CreateSnapshotItem(allItems[i], faults(i));
      }
      assert allItems[..|allItems|] == allItems;
    }

    /** `received` is what the pool delivered for the loaded wallets. No snapshot comes back when
        the wallets cannot be loaded, when there are none, or when the record cannot be created; a
        failing item insert or status update is only logged. */
    method Run(wallets: Option<seq<Job>>, id: string, created: Fault, itemFaults: nat -> Fault, updated: Fault,
               received: seq<WalletResult>, ghost run: seq<WorkerPool.Pool<Job, WalletResult>>,
               ghost acts: seq<WorkerPool.Action>, ghost process: Job -> WalletResult)
      returns (snapshot: Option<WalletSnapshot>)
      requires numWorkers >= 1
      requires wallets.Some?
          ==> PoolRan(run, acts, numWorkers, wallets.value, id, process) && received == run[|acts|].received
      modifies repo
      ensures snapshot.None? <==> wallets.None? || wallets.value == [] || id in old(repo.statuses) || !created.NoFault?
      ensures snapshot.None? ==> repo.items == old(repo.items)
      ensures snapshot.Some? ==>
        && snapshot.value
            == WalletSnapshot(id, if MarkedFailed(received) then Failed else Completed, Collected(received))
        && repo.items == old(repo.items) + Inserted(snapshot.value.items, itemFaults)
        && repo.statuses == old(repo.statuses)[id := if updated.LostBefore? then Pending else snapshot.value.status]
      ensures snapshot.Some? && !run[|acts|].cancelled ==>
        && multiset(snapshot.value.items) == multiset(Collected(WorkerPool.Image(wallets.value, process)))
        && (snapshot.value.status.Failed? <==> EveryWalletFails(wallets.value))
      ensures snapshot.Some? ==> forall item | item in snapshot.value.items ::
        exists t :: t in wallets.value && IsReported(item, t, id)
      ensures snapshot.Some? && FirstSucceed(numWorkers, wallets.value) ==> snapshot.value.status.Completed?
    {
      if wallets.None? || wallets.value == [] {
        return None;
      }
      var ok := repo.CreateSnapshot(id, Pending, created);
      if !ok {
        return None;
      }
      var allItems, errors := Collect(received);
      Persist(allItems, itemFaults);
      var status := if errors != [] && allItems == [] then Failed else Completed;
      var _ := repo.UpdateSnapshotStatus(id, status, updated);
      Overwritten(old(repo.statuses), id, Pending, status);
      snapshot := Some(WalletSnapshot(id, status, allItems));
      forall item | item in allItems ensures exists t :: t in wallets.value && IsReported(item, t, id) {
        var t := ItemsAreReported(run, acts, numWorkers, wallets.value, id, process, item);
      }
      if !run[|acts|].cancelled {
        UncancelledSnapshot(run, acts, numWorkers, wallets.value, id, process);
      }
      if FirstSucceed(numWorkers, wallets.value) {
        SuccessComesBack(run, acts, numWorkers, wallets.value, id, process);
      }
    }
  }
}
