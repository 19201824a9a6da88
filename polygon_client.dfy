/** capintel/providers/polygon_client.py: `_norm_crypto_pair`, which splits a
    crypto ticker such as "X:BTCUSD", "btc-usdt" or "BTC/USDT" into base and
    quote currency. */
module PolygonClient {
  import opened Wrappers

  /** The quote currencies, in the order they are tried. */
  const Quotes: seq<string> := ["USDT", "USD", "EUR", "GBP", "RUB"]

  /** `s.replace(pat, "")`: drops every non-overlapping occurrence of `pat`,
      scanning from the left. */
  function RemoveAll(s: string, pat: string): (r: string)
    requires |pat| > 0
    ensures |r| <= |s|
    ensures forall i :: 0 <= i < |r| ==> r[i] in s
    ensures |pat| == 1 ==> pat[0] !in r
    decreases |s|
  {
    if |s| < |pat| then s
    else if s[..|pat|] == pat then RemoveAll(s[|pat|..], pat)
    else [s[0]] + RemoveAll(s[1..], pat)
  }

  /** Removing one character distributes over concatenation, and on a single
      character it drops that character and keeps any other: every other
      character survives, in its order. */
  lemma {:induction false} RemoveCharAppend(a: string, b: string, pat: string)
    requires |pat| == 1
    ensures RemoveAll(a + b, pat) == RemoveAll(a, pat) + RemoveAll(b, pat)
    ensures |a| == 1 ==> RemoveAll(a, pat) == (if a[0] == pat[0] then [] else a)
    decreases |a|
  {
    if |a| > 0 {
      assert (a + b)[..1] == a[..1];
      assert (a + b)[1..] == a[1..] + b;
      RemoveCharAppend(a[1..], b, pat);
      assert RemoveAll([], pat) == [];
    } else {
      assert a + b == b;
    }
  }

  /** A pattern with a character that `s` lacks cannot occur in `s`. */
  lemma {:induction false} RemoveAllAbsent(s: string, pat: string, k: nat)
    requires k < |pat| && pat[k] !in s
    ensures RemoveAll(s, pat) == s
    decreases |s|
  {
    if |s| >= |pat| {
      assert s[..|pat|] != pat by { assert s[..|pat|][k] == s[k]; }
      RemoveAllAbsent(s[1..], pat, k);
      assert s == [s[0]] + s[1..];
    }
  }

  /** ASCII upper-casing of one character. */
  function UpperChar(c: char): char {
    if 'a' <= c <= 'z' then (c as int - 32) as char else c
  }

  /** `s.upper()` over ASCII letters: no lower-case letter is left, each one
      becomes the capital at the same place in the alphabet, and every other
      character is kept. */
  function Upper(s: string): (r: string)
    ensures |r| == |s|
    ensures forall i :: 0 <= i < |s| ==> !('a' <= r[i] <= 'z')
    ensures forall i :: 0 <= i < |s| && 'a' <= s[i] <= 'z' ==>
      'A' <= r[i] <= 'Z' && r[i] as int - 'A' as int == s[i] as int - 'a' as int
    ensures forall i :: 0 <= i < |s| && !('a' <= s[i] <= 'z') ==> r[i] == s[i]
  {
    seq(|s|, i requires 0 <= i < |s| => UpperChar(s[i]))
  }

  /** The cleaned ticker: "X:", ":", "-" and "_" removed in that order, then upper-cased. */
  function Normalise(ticker: string): string {
    Upper(RemoveAll(RemoveAll(RemoveAll(RemoveAll(ticker, "X:"), ":"), "-"), "_"))
  }

  predicate EndsWith(t: string, q: string) {
    |q| <= |t| && t[|t| - |q|..] == q
  }

  /** Quote `q` can be split off `t` leaving a non-empty base. */
  predicate Splits(t: string, q: string) {
    EndsWith(t, q) && |t| > |q|
  }

  /** The number of occurrences of character `c` in `s`. */
  function Count(s: string, c: char): (n: nat)
    ensures n <= |s|
    ensures n == 0 <==> c !in s
  {
    if |s| == 0 then 0 else (if s[0] == c then 1 else 0) + Count(s[1..], c)
  }

  /** The first-match search over the quote list starting at position `k`,
      falling back to the first three characters and the rest. Since at most
      one quote can be split off, the first match is the only one. */
  function MatchQuote(t: string, k: nat): (r: (string, string))
    requires k <= |Quotes|
    ensures r.0 + r.1 == t
    ensures forall j :: k <= j < |Quotes| && Splits(t, Quotes[j]) ==>
      r == (t[..|t| - |Quotes[j]|], Quotes[j])
    ensures (forall j :: k <= j < |Quotes| ==> !Splits(t, Quotes[j])) ==>
      r == (t[..Min3(|t|)], t[Min3(|t|)..])
    decreases |Quotes| - k
  {
    if k == |Quotes| then
      (t[..Min3(|t|)], t[Min3(|t|)..])
    else if Splits(t, Quotes[k]) then
      QuotesExclusive(t);
      (t[..|t| - |Quotes[k]|], Quotes[k])
    else
      MatchQuote(t, k + 1)
  }

  function Min3(n: nat): nat { if n < 3 then n else 3 }

  /** No two quote currencies end in the same letter, so at most one of them
      is a suffix of any ticker. */
  lemma QuotesExclusive(t: string)
    ensures forall i, j :: 0 <= i < |Quotes| && 0 <= j < |Quotes| && EndsWith(t, Quotes[i]) && EndsWith(t, Quotes[j]) ==> i == j
  {
    forall i, j | 0 <= i < |Quotes| && 0 <= j < |Quotes| && EndsWith(t, Quotes[i]) && EndsWith(t, Quotes[j])
      ensures i == j
    {
      LastOfSuffix(t, Quotes[i]);
      LastOfSuffix(t, Quotes[j]);
    }
  }

  lemma LastOfSuffix(t: string, q: string)
    requires EndsWith(t, q) && |q| > 0
    ensures t[|t| - 1] == q[|q| - 1]
  {
    assert t[|t| - |q|..][|q| - 1] == q[|q| - 1];
  }

  /** `_norm_crypto_pair`. A ticker with a "/" is upper-cased and split on it
      (more than one "/" makes the tuple unpacking raise ValueError); otherwise
      the cleaned ticker is split before the quote currency that leaves a
      non-empty base, or else after its third character. */
  function NormCryptoPair(ticker: string): (r: Result<(string, string)>)
    ensures '/' in ticker ==> (r.Ok? <==> Count(ticker, '/') == 1)
    ensures '/' in ticker && r.Ok? ==>
      r.value.0 + "/" + r.value.1 == Upper(ticker) && '/' !in r.value.0 && '/' !in r.value.1
    ensures '/' !in ticker ==> r.Ok? && r.value.0 + r.value.1 == Normalise(ticker)
    ensures '/' !in ticker ==> forall q :: q in Quotes && Splits(Normalise(ticker), q) ==> r.value.1 == q
    ensures '/' !in ticker && (forall q :: q in Quotes ==> !Splits(Normalise(ticker), q)) ==>
      r.value.0 == Normalise(ticker)[..Min3(|Normalise(ticker)|)] && r.value.1 !in Quotes
  {
    var t := Normalise(ticker);
    if '/' in ticker then
      var u := Upper(ticker);
      UpperCount(ticker, '/');
      if Count(u, '/') == 1 then
        var parts := SplitAt(u, '/');
        CountSplit(u, '/');
        Ok(parts)
      else Err(ValueError)
    else
      var r := MatchQuote(t, 0);
      FallbackQuoteSplits(t);
      Ok(r)
  }

  /** Upper-casing leaves a character that no letter maps to as often as it was. */
  lemma {:induction false} UpperCount(s: string, c: char)
    requires !('A' <= c <= 'Z') && !('a' <= c <= 'z')
    ensures Count(Upper(s), c) == Count(s, c)
    decreases |s|
  {
    if |s| > 0 {
      assert Upper(s)[1..] == Upper(s[1..]);
      UpperCount(s[1..], c);
    }
  }

  /** When `c` occurs once, neither side of the split holds it. */
  lemma {:induction false} CountSplit(s: string, c: char)
    requires Count(s, c) == 1
    ensures c !in SplitAt(s, c).1
    decreases |s|
  {
    if s[0] != c {
      CountSplit(s[1..], c);
    }
  }

  /** A quote currency left by the third-character fallback could have been
      split off, so the fallback never yields one when no quote matched. */
  lemma FallbackQuoteSplits(t: string)
    ensures t[Min3(|t|)..] in Quotes ==> Splits(t, t[Min3(|t|)..])
  {
  }

  /** The two sides of the first occurrence of `c` in `s`. */
  function SplitAt(s: string, c: char): (r: (string, string))
    requires c in s
    ensures r.0 + [c] + r.1 == s && c !in r.0
    decreases |s|
  {
    if s[0] == c then ([], s[1..])
    else var rest := SplitAt(s[1..], c); ([s[0]] + rest.0, rest.1)
  }

  /** The cleaned ticker holds no ":", "-" or "_" and no lower-case letter. */
  lemma NormaliseStripsSeparators(ticker: string)
    ensures forall i :: 0 <= i < |Normalise(ticker)| ==>
      Normalise(ticker)[i] !in ":-_" && !('a' <= Normalise(ticker)[i] <= 'z')
  {
    var s1 := RemoveAll(ticker, "X:");
    var s2 := RemoveAll(s1, ":");
    var s3 := RemoveAll(s2, "-");
    var s4 := RemoveAll(s3, "_");
    assert ':' !in s4 && '-' !in s4 && '_' !in s4;
  }

  /** Cleaning a ticker made of ASCII letters and digits only upper-cases it. */
  lemma NormaliseAlphanumeric(ticker: string)
    requires forall i :: 0 <= i < |ticker| ==> IsAlphanumeric(ticker[i])
    ensures Normalise(ticker) == Upper(ticker)
  {
    RemoveAllAbsent(ticker, "X:", 1);
    RemoveAllAbsent(ticker, ":", 0);
    RemoveAllAbsent(ticker, "-", 0);
    RemoveAllAbsent(ticker, "_", 0);
  }

  predicate IsAlphanumeric(c: char) {
    'A' <= c <= 'Z' || 'a' <= c <= 'z' || '0' <= c <= '9'
  }

  /** The four pairs of tests/test_polygon_client.py. */
  lemma TestedPairs()
    ensures NormCryptoPair("BTCUSD") == Ok(("BTC", "USD"))
    ensures NormCryptoPair("BTC/USDT") == Ok(("BTC", "USDT"))
    ensures NormCryptoPair("ethusdt") == Ok(("ETH", "USDT"))
    ensures NormCryptoPair("X:BTCUSD") == Ok(("BTC", "USD"))
  {
    TestedPlain("BTCUSD");
    TestedSlash("BTC/USDT");
    TestedLower("ethusdt");
    TestedPrefixed("X:BTCUSD");
  }

  /** Splitting "BTCUSD" after its base: the second quote, USD, matches. */
  lemma BtcUsdSplit(t: string)
    requires t == "BTCUSD"
    ensures MatchQuote(t, 0) == ("BTC", "USD")
  {
    assert Splits(t, Quotes[1]);
    assert MatchQuote(t, 0) == (t[..|t| - |Quotes[1]|], Quotes[1]);
    assert |Quotes[1]| == 3;
    assert t[..3] == "BTC";
  }

  /** Without a "/", the pair is the quote search over the cleaned ticker. */
  lemma PlainPair(t: string, u: string, r: (string, string))
    requires '/' !in t && Normalise(t) == u && MatchQuote(u, 0) == r
    ensures NormCryptoPair(t) == Ok(r)
  {
  }

  lemma {:induction false} CountConcat(a: string, b: string, c: char)
    ensures Count(a + b, c) == Count(a, c) + Count(b, c)
    decreases |a|
  {
    if |a| > 0 {
      assert (a + b)[1..] == a[1..] + b;
      CountConcat(a[1..], b, c);
    } else {
      assert a + b == b;
    }
  }

  lemma TestedPlain(t: string)
    requires t == "BTCUSD"
    ensures NormCryptoPair(t) == Ok(("BTC", "USD"))
  {
    BtcUsdNormalised(t);
    BtcUsdSplit(t);
    PlainPair(t, t, ("BTC", "USD"));
  }

  lemma BtcUsdNormalised(t: string)
    requires t == "BTCUSD"
    ensures Normalise(t) == t
  {
    NormaliseAlphanumeric(t);
    BtcUsdUpper(t);
  }

  lemma BtcUsdUpper(t: string)
    requires t == "BTCUSD"
    ensures Upper(t) == t
  {
  }

  lemma TestedSlash(t: string)
    requires t == "BTC/USDT"
    ensures NormCryptoPair(t) == Ok(("BTC", "USDT"))
  {
    assert t == "BTC" + "/" + "USDT";
    CountConcat("BTC" + "/", "USDT", '/');
    CountConcat("BTC", "/", '/');
    assert Count(t, '/') == 1;
    BtcSlashUsdtUpper(t);
    var r := NormCryptoPair(t);
    SplitDetermined(r.value.0, r.value.1, "BTC", "USDT", '/');
  }

  lemma BtcSlashUsdtUpper(t: string)
    requires t == "BTC/USDT"
    ensures Upper(t) == t
  {
  }

  lemma TestedLower(t: string)
    requires t == "ethusdt"
    ensures NormCryptoPair(t) == Ok(("ETH", "USDT"))
  {
    EthUsdtNormalised(t);
    EthUsdtSplit("ETHUSDT");
    PlainPair(t, "ETHUSDT", ("ETH", "USDT"));
  }

  lemma EthUsdtNormalised(t: string)
    requires t == "ethusdt"
    ensures Normalise(t) == "ETHUSDT"
  {
    NormaliseAlphanumeric(t);
    EthUsdtUpper(t);
  }

  lemma EthUsdtUpper(t: string)
    requires t == "ethusdt"
    ensures Upper(t) == "ETHUSDT"
  {
  }

  lemma EthUsdtSplit(u: string)
    requires u == "ETHUSDT"
    ensures MatchQuote(u, 0) == ("ETH", "USDT")
  {
    assert Splits(u, Quotes[0]);
    assert MatchQuote(u, 0) == (u[..|u| - |Quotes[0]|], Quotes[0]);
    assert |Quotes[0]| == 4;
    assert u[..3] == "ETH";
  }

  lemma TestedPrefixed(t: string)
    requires t == "X:BTCUSD"
    ensures NormCryptoPair(t) == Ok(("BTC", "USD"))
  {
    PrefixedNormalised(t);
    BtcUsdSplit("BTCUSD");
    PlainPair(t, "BTCUSD", ("BTC", "USD"));
  }

  lemma PrefixedNormalised(t: string)
    requires t == "X:BTCUSD"
    ensures Normalise(t) == "BTCUSD"
  {
    PrefixStripped(t);
    SameAfterPrefix(t, "BTCUSD");
    BtcUsdNormalised("BTCUSD");
  }

  lemma PrefixStripped(t: string)
    requires t == "X:BTCUSD"
    ensures RemoveAll(t, "X:") == "BTCUSD"
  {
    assert t[..2] == "X:" && t[2..] == "BTCUSD";
    RemoveAllAbsent("BTCUSD", "X:", 1);
  }

  lemma SameAfterPrefix(t: string, u: string)
    requires RemoveAll(t, "X:") == u && RemoveAll(u, "X:") == u
    ensures Normalise(t) == Normalise(u)
  {
  }

  /** Splitting at the first occurrence of a separator has only one answer. */
  lemma {:induction false} SplitDetermined(a: string, b: string, a': string, b': string, c: char)
    requires a + [c] + b == a' + [c] + b' && c !in a && c !in a'
    ensures a == a' && b == b'
    decreases |a|
  {
    var s := a + [c] + b;
    assert s[|a|] == c;
    assert s[|a'|] == c;
    assert forall i :: 0 <= i < |a| ==> s[i] == a[i];
    assert forall i :: 0 <= i < |a'| ==> s[i] == a'[i];
    assert |a| == |a'|;
    assert a == s[..|a|] == a';
    assert b == s[|a| + 1..] == b';
  }
}
