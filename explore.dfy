/**
 * The token list of `src/pages/ExplorePage.tsx`: a case-insensitive search and
 * category filter over the fixed token list, a keyed sort of a copy of the
 * result, the holder total and the "token(s)" label.
 * Prices, changes and volumes are `real`.
 */
module Explore {
  import Text

  datatype Token = Token(
    id: string,
    name: string,
    symbol: string,
    creator: string,
    price: real,
    change24h: real,
    volume24h: real,
    marketCap: real,
    holders: nat,
    category: string,
    isVerified: bool)

  /** The lower-cased query occurs in the lower-cased name, symbol or creator. */
  predicate MatchesSearch(t: Token, query: string) {
    var q := Text.Lower(query);
    Text.Includes(Text.Lower(t.name), q)
      || Text.Includes(Text.Lower(t.symbol), q)
      || Text.Includes(Text.Lower(t.creator), q)
  }

  /** The category is "all" or equals the lower-cased token category. */
  predicate MatchesCategory(t: Token, category: string) {
    category == "all" || Text.Lower(t.category) == category
  }

  predicate Matches(t: Token, query: string, category: string) {
    MatchesSearch(t, query) && MatchesCategory(t, category)
  }

  /** Keeps the tokens `keep` accepts, in their original order (`Array.prototype.filter`). */
  function FilterBy(tokens: seq<Token>, keep: Token -> bool): (r: seq<Token>)
    ensures |r| <= |tokens|
    ensures forall t :: t in r <==> t in tokens && keep(t)
    ensures forall t :: multiset(r)[t] == if keep(t) then multiset(tokens)[t] else 0
  {
    if tokens == [] then []
    else
      var rest := FilterBy(tokens[1..], keep);
      assert tokens == [tokens[0]] + tokens[1..];
      assert forall t :: t in tokens <==> t == tokens[0] || t in tokens[1..];
      if keep(tokens[0]) then [tokens[0]] + rest else rest
  }

  /** `filteredTokens`: the tokens that match the query and the category. */
  function Filter(tokens: seq<Token>, query: string, category: string): (r: seq<Token>)
    ensures |r| <= |tokens|
    ensures forall t :: t in r <==> t in tokens && Matches(t, query, category)
    ensures forall t :: multiset(r)[t] == if Matches(t, query, category) then multiset(tokens)[t] else 0
  {
    FilterBy(tokens, t => Matches(t, query, category))
  }

  /** An empty query matches every token. */
  lemma EmptyQueryMatches(t: Token)
    ensures MatchesSearch(t, "")
  {
    assert Text.Lower("") == "";
    Text.IncludesEmpty(Text.Lower(t.name));
  }

  /** Filtering with a test every token passes keeps the whole list. */
  lemma {:induction false} FilterByEverything(tokens: seq<Token>, keep: Token -> bool)
    requires forall t :: keep(t)
    ensures FilterBy(tokens, keep) == tokens
  {
    if tokens != [] {
      FilterByEverything(tokens[1..], keep);
      assert tokens == [tokens[0]] + tokens[1..];
    }
  }

  /** An empty query under category "all" keeps the whole list. */
  lemma FilterNothing(tokens: seq<Token>)
    ensures Filter(tokens, "", "all") == tokens
  {
    forall t ensures Matches(t, "", "all") {
      EmptyQueryMatches(t);
    }
    FilterByEverything(tokens, t => Matches(t, "", "all"));
  }

  /** Category "all" imposes no restriction beyond the search. */
  lemma FilterAllCategories(tokens: seq<Token>, query: string)
    ensures forall t :: t in Filter(tokens, query, "all") <==> t in tokens && MatchesSearch(t, query)
  {
  }

  /** `idx` picks out `a` from `b` at strictly increasing positions. */
  predicate IsEmbedding(idx: seq<nat>, a: seq<Token>, b: seq<Token>) {
    && |idx| == |a|
    && (forall k :: 0 <= k < |idx| ==> idx[k] < |b| && a[k] == b[idx[k]])
    && (forall k, l :: 0 <= k < l < |idx| ==> idx[k] < idx[l])
  }

  /** `a` is `b` with some elements left out and the rest in their order. */
  ghost predicate IsSubsequence(a: seq<Token>, b: seq<Token>) {
    exists idx :: IsEmbedding(idx, a, b)
  }

  function Shift(idx: seq<nat>): (r: seq<nat>)
    ensures |r| == |idx| && forall k :: 0 <= k < |idx| ==> r[k] == idx[k] + 1
  {
    seq(|idx|, k requires 0 <= k < |idx| => idx[k] + 1)
  }

  /** An embedding into `b` is, shifted by one, an embedding into `[h] + b`. */
  lemma ShiftEmbedding(idx: seq<nat>, a: seq<Token>, b: seq<Token>, h: Token)
    requires IsEmbedding(idx, a, b)
    ensures IsEmbedding(Shift(idx), a, [h] + b)
  {
    forall k | 0 <= k < |idx| ensures a[k] == ([h] + b)[idx[k] + 1] { }
  }

  /** ... and, with position 0 put in front, an embedding of `[h] + a` into `[h] + b`. */
  lemma ConsEmbedding(idx: seq<nat>, a: seq<Token>, b: seq<Token>, h: Token)
    requires IsEmbedding(idx, a, b)
    ensures IsEmbedding([0] + Shift(idx), [h] + a, [h] + b)
  {
    ShiftEmbedding(idx, a, b, h);
    var r := [0] + Shift(idx);
    forall k | 0 < k < |r| ensures r[k] == Shift(idx)[k - 1] && ([h] + a)[k] == a[k - 1] { }
  }

  /** The positions in `tokens` of the kept tokens. */
  lemma {:induction false} FilterByEmbedding(tokens: seq<Token>, keep: Token -> bool)
    returns (idx: seq<nat>)
    ensures IsEmbedding(idx, FilterBy(tokens, keep), tokens)
  {
    if tokens == [] {
      idx := [];
    } else {
      var tail := FilterByEmbedding(tokens[1..], keep);
      assert tokens == [tokens[0]] + tokens[1..];
      if keep(tokens[0]) {
        ConsEmbedding(tail, FilterBy(tokens[1..], keep), tokens[1..], tokens[0]);
        idx := [0] + Shift(tail);
      } else {
        ShiftEmbedding(tail, FilterBy(tokens[1..], keep), tokens[1..], tokens[0]);
        idx := Shift(tail);
      }
    }
  }

  /** The filtered list is a subsequence of the token list: nothing added, nothing reordered. */
  lemma FilterIsSubsequence(tokens: seq<Token>, query: string, category: string)
    ensures IsSubsequence(Filter(tokens, query, category), tokens)
  {
    var idx := FilterByEmbedding(tokens, t => Matches(t, query, category));
  }

  /** The comparator passed to `sort` for each `sortBy` value; unknown values sort like "trending". */
  function Compare(sortBy: string, a: Token, b: Token): real {
    match sortBy
    case "price_high" => b.price - a.price
    case "price_low" => a.price - b.price
    case "volume" => b.volume24h - a.volume24h
    case "change" => b.change24h - a.change24h
    case _ => b.volume24h - a.volume24h
  }

  /** The key each comparator orders by, smallest first. */
  function Rank(sortBy: string, t: Token): real {
    match sortBy
    case "price_high" => -t.price
    case "price_low" => t.price
    case "change" => -t.change24h
    case _ => -t.volume24h
  }

  /** Each comparator is the difference of two ranks, so it is a consistent total preorder. */
  lemma CompareByRank(sortBy: string, a: Token, b: Token)
    ensures Compare(sortBy, a, b) == Rank(sortBy, a) - Rank(sortBy, b)
  {
  }

  predicate SortedOn(rank: Token -> real, s: seq<Token>) {
    forall i, j :: 0 <= i < j < |s| ==> rank(s[i]) <= rank(s[j])
  }

  /** Places `x` before the first element whose rank is not below its own. */
  function InsertOn(rank: Token -> real, x: Token, s: seq<Token>): (r: seq<Token>)
    ensures multiset(r) == multiset(s) + multiset{x}
  {
    if s == [] then [x]
    else if rank(x) <= rank(s[0]) then [x] + s
    else
      assert s == [s[0]] + s[1..];
      [s[0]] + InsertOn(rank, x, s[1..])
  }

  /** A lower bound on the ranks of `x` and of `s` bounds every rank after the insertion. */
  lemma {:induction false} InsertLowerBound(rank: Token -> real, x: Token, s: seq<Token>, m: real)
    requires rank(x) >= m && forall y :: y in s ==> rank(y) >= m
    ensures forall y :: y in InsertOn(rank, x, s) ==> rank(y) >= m
  {
    if s != [] && rank(x) > rank(s[0]) {
      InsertLowerBound(rank, x, s[1..], m);
    }
  }

  /** A sorted list stays sorted with a first element ranked no higher than any of it. */
  lemma ConsSorted(rank: Token -> real, h: Token, t: seq<Token>)
    requires SortedOn(rank, t) && forall y :: y in t ==> rank(h) <= rank(y)
    ensures SortedOn(rank, [h] + t)
  {
    var r := [h] + t;
    forall i, j | 0 <= i < j < |r| ensures rank(r[i]) <= rank(r[j]) {
      assert r[j] == t[j - 1];
      if i > 0 {
        assert r[i] == t[i - 1];
      }
    }
  }

  /** Inserting into a sorted list keeps it sorted. */
  lemma {:induction false} InsertSorted(rank: Token -> real, x: Token, s: seq<Token>)
    requires SortedOn(rank, s)
    ensures SortedOn(rank, InsertOn(rank, x, s))
  {
    if s == [] {
    } else if rank(x) <= rank(s[0]) {
      ConsSorted(rank, x, s);
    } else {
      InsertSorted(rank, x, s[1..]);
      InsertLowerBound(rank, x, s[1..], rank(s[0]));
      ConsSorted(rank, s[0], InsertOn(rank, x, s[1..]));
    }
  }

  /** An insertion sort by rank; each token goes in before the first token of greater or equal rank. */
  function SortOn(rank: Token -> real, s: seq<Token>): (r: seq<Token>)
    ensures multiset(r) == multiset(s)
    ensures SortedOn(rank, r)
  {
    if s == [] then []
    else
      assert s == [s[0]] + s[1..];
      var rest := SortOn(rank, s[1..]);
      InsertSorted(rank, s[0], rest);
      InsertOn(rank, s[0], rest)
  }

  /** Inserting passes only tokens of lower rank, so among tokens of one rank `x` comes first. */
  lemma {:induction false} InsertKeepsTies(rank: Token -> real, x: Token, s: seq<Token>, c: real, tie: Token -> bool)
    requires forall t :: tie(t) <==> rank(t) == c
    ensures FilterBy(InsertOn(rank, x, s), tie) == if tie(x) then [x] + FilterBy(s, tie) else FilterBy(s, tie)
  {
    if s == [] {
    } else if rank(x) <= rank(s[0]) {
      assert InsertOn(rank, x, s)[1..] == s;
    } else {
      InsertKeepsTies(rank, x, s[1..], c, tie);
      var r := InsertOn(rank, x, s);
      assert r[0] == s[0] && r[1..] == InsertOn(rank, x, s[1..]);
    }
  }

  /** The sort is stable: the tokens of any one rank appear in the order they had in the input. */
  lemma {:induction false} SortOnStable(rank: Token -> real, s: seq<Token>, c: real)
    ensures FilterBy(SortOn(rank, s), t => rank(t) == c) == FilterBy(s, t => rank(t) == c)
  {
    if s != [] {
      SortOnStable(rank, s[1..], c);
      InsertKeepsTies(rank, s[0], SortOn(rank, s[1..]), c, t => rank(t) == c);
    }
  }

  /** A list already in key order comes back as it is: tokens of equal rank keep their order. */
  lemma {:induction false} SortOnSorted(rank: Token -> real, s: seq<Token>)
    requires SortedOn(rank, s)
    ensures SortOn(rank, s) == s
  {
    if s != [] {
      SortOnSorted(rank, s[1..]);
      assert s == [s[0]] + s[1..];
    }
  }

  predicate SortedBy(sortBy: string, s: seq<Token>) {
    SortedOn(t => Rank(sortBy, t), s)
  }

  /** `[...filteredTokens].sort(...)`: the sort works on a copy, a permutation in key order. */
  function Sort(sortBy: string, s: seq<Token>): (r: seq<Token>)
    ensures multiset(r) == multiset(s)
    ensures SortedBy(sortBy, r)
  {
    SortOn(t => Rank(sortBy, t), s)
  }

  /** `sortedTokens`. */
  function SortedTokens(tokens: seq<Token>, query: string, category: string, sortBy: string): seq<Token> {
    Sort(sortBy, Filter(tokens, query, category))
  }

  /** Sorting twice is sorting once. */
  lemma SortIdempotent(sortBy: string, s: seq<Token>)
    ensures Sort(sortBy, Sort(sortBy, s)) == Sort(sortBy, s)
  {
    SortOnSorted(t => Rank(sortBy, t), Sort(sortBy, s));
  }

  /** The sorted list holds exactly the filtered tokens, each as often, in key order. */
  lemma SortedTokensSpec(tokens: seq<Token>, query: string, category: string, sortBy: string)
    ensures multiset(SortedTokens(tokens, query, category, sortBy)) == multiset(Filter(tokens, query, category))
    ensures SortedBy(sortBy, SortedTokens(tokens, query, category, sortBy))
    ensures forall t :: t in SortedTokens(tokens, query, category, sortBy) <==> t in tokens && Matches(t, query, category)
  {
    var r := SortedTokens(tokens, query, category, sortBy);
    var f := Filter(tokens, query, category);
    forall t ensures t in r <==> t in f {
      assert t in r <==> t in multiset(r);
      assert t in f <==> t in multiset(f);
    }
  }

  /** What each sort key means for the order of the listed tokens. */
  lemma SortOrders(sortBy: string, s: seq<Token>)
    requires SortedBy(sortBy, s)
    ensures sortBy == "price_high" ==> forall i, j :: 0 <= i < j < |s| ==> s[i].price >= s[j].price
    ensures sortBy == "price_low" ==> forall i, j :: 0 <= i < j < |s| ==> s[i].price <= s[j].price
    ensures sortBy == "change" ==> forall i, j :: 0 <= i < j < |s| ==> s[i].change24h >= s[j].change24h
    ensures sortBy != "price_high" && sortBy != "price_low" && sortBy != "change" ==>
      forall i, j :: 0 <= i < j < |s| ==> s[i].volume24h >= s[j].volume24h
  {
    forall i, j | 0 <= i < j < |s| ensures Rank(sortBy, s[i]) <= Rank(sortBy, s[j]) { }
  }

  /** "Active Traders": the holders of all tokens added up. */
  function SumHolders(tokens: seq<Token>): nat {
    if tokens == [] then 0 else tokens[0].holders + SumHolders(tokens[1..])
  }

  /** The total splits over a concatenation, so it does not depend on how the list is cut. */
  lemma {:induction false} SumHoldersAppend(a: seq<Token>, b: seq<Token>)
    ensures SumHolders(a + b) == SumHolders(a) + SumHolders(b)
  {
    if a == [] {
      assert a + b == b;
    } else {
      assert (a + b)[0] == a[0] && (a + b)[1..] == a[1..] + b;
      SumHoldersAppend(a[1..], b);
    }
  }

  /** No token has more holders than the total. */
  lemma {:induction false} SumHoldersBounds(tokens: seq<Token>, i: nat)
    requires i < |tokens|
    ensures tokens[i].holders <= SumHolders(tokens)
  {
    if i > 0 {
      SumHoldersBounds(tokens[1..], i - 1);
    }
  }

  /** The trending creator's label: "token" for at most one, "tokens" otherwise. */
  function TokensLabel(tokensCreated: int): (text: string)
    ensures text == "tokens" <==> tokensCreated > 1
    ensures text == "token" <==> tokensCreated <= 1
  {
    if tokensCreated > 1 then "tokens" else "token"
  }
}
