/**
  Symbol mapping between Hummingbot's `BASE-QUOTE` and an exchange's pair format: when a pair survives
  the way there and back.
*/
module SymbolMapper {
  import opened Prelude

  datatype Error = UnknownPair(pair: string) | EmptySeparator

  // ---- strings --------------------------------------------------------------------------------

  predicate StartsWith(s: string, prefix: string) { |prefix| <= |s| && s[..|prefix|] == prefix }

  predicate EndsWith(s: string, suffix: string) { |suffix| <= |s| && s[|s| - |suffix|..] == suffix }

  /** str.split(sep): the parts between the non-overlapping occurrences of sep, from the left. */
  function Split(s: string, sep: string): (r: seq<string>)
    requires sep != ""
    ensures |r| > 0
    decreases |s|
  {
    if s == "" then [""]
    else if StartsWith(s, sep) then [""] + Split(s[|sep|..], sep)
    else
      var r := Split(s[1..], sep);
      [[s[0]] + r[0]] + r[1..]
  }

  function Join(parts: seq<string>, sep: string): string
    requires |parts| > 0
  {
    if |parts| == 1 then parts[0] else parts[0] + sep + Join(parts[1..], sep)
  }

  /** Joining what was split gives the string back. */
  lemma {:induction false} JoinSplit(s: string, sep: string)
    requires sep != ""
    ensures Join(Split(s, sep), sep) == s
    decreases |s|
  {
    if s == "" {
    } else if StartsWith(s, sep) {
      JoinSplit(s[|sep|..], sep);
      JoinCons("", Split(s[|sep|..], sep), sep);
      assert s == sep + s[|sep|..];
    } else {
      JoinSplit(s[1..], sep);
      JoinHead([s[0]], Split(s[1..], sep), sep);
      assert s == [s[0]] + s[1..];
    }
  }

  lemma JoinCons(a: string, r: seq<string>, sep: string)
    requires |r| > 0
    ensures Join([a] + r, sep) == a + (sep + Join(r, sep))
  {
    assert ([a] + r)[1..] == r;
    assert a + sep + Join(r, sep) == a + (sep + Join(r, sep));
  }

  lemma JoinHead(a: string, r: seq<string>, sep: string)
    requires |r| > 0
    ensures Join([a + r[0]] + r[1..], sep) == a + Join(r, sep)
  {
    if |r| > 1 {
      assert ([a + r[0]] + r[1..])[1..] == r[1..];
      assert (a + r[0]) + sep + Join(r[1..], sep) == a + (r[0] + sep + Join(r[1..], sep));
    }
  }

  /** sep starts at no position of s before n. */
  ghost predicate NoneBefore(s: string, sep: string, n: nat) {
    forall i :: 0 <= i < n && i <= |s| ==> !StartsWith(s[i..], sep)
  }

  lemma {:induction false} SplitNone(s: string, sep: string)
    requires sep != "" && NoneBefore(s, sep, |s|)
    ensures Split(s, sep) == [s]
    decreases |s|
  {
    if s != "" {
      assert s[0..] == s;
      forall i | 0 <= i < |s| - 1 ensures !StartsWith(s[1..][i..], sep) { assert s[1..][i..] == s[i + 1..]; }
      SplitNone(s[1..], sep);
      assert s == [s[0]] + s[1..];
    }
  }

  lemma {:induction false} SplitFirst(a: string, b: string, sep: string)
    requires sep != "" && NoneBefore(a + sep + b, sep, |a|)
    ensures Split(a + sep + b, sep) == [a] + Split(b, sep)
    decreases |a|
  {
    var s := a + sep + b;
    if a == "" {
      assert s == sep + b && s[|sep|..] == b && s[..|sep|] == sep;
    } else {
      assert s[0..] == s;
      assert s[1..] == a[1..] + sep + b;
      forall i | 0 <= i < |a| - 1 ensures !StartsWith(s[1..][i..], sep) { assert s[1..][i..] == s[i + 1..]; }
      SplitFirst(a[1..], b, sep);
      assert ([a[1..]] + Split(b, sep))[1..] == Split(b, sep);
      assert a == [a[0]] + a[1..] && s[0] == a[0];
    }
  }

  /** Conversely, a string that splits in two splits at the first occurrence, and its rest holds none. */
  lemma {:induction false} SplitTwo(s: string, sep: string)
    requires sep != "" && |Split(s, sep)| <= 2
    ensures var r := Split(s, sep);
      if |r| == 1 then NoneBefore(s, sep, |s|)
      else NoneBefore(s, sep, |r[0]|) && NoneBefore(r[1], sep, |r[1]|)
    decreases |s|
  {
    if s == "" {
    } else if StartsWith(s, sep) {
      SplitTwo(s[|sep|..], sep);
      JoinSplit(s[|sep|..], sep);
    } else {
      SplitTwo(s[1..], sep);
      var r, n := Split(s, sep), if |Split(s, sep)| == 1 then |s| else |Split(s, sep)[0]|;
      forall i | 0 <= i < n && i <= |s| ensures !StartsWith(s[i..], sep) {
        if i == 0 { assert s[0..] == s; } else { assert s[i..] == s[1..][i - 1..]; }
      }
    }
  }

  lemma SplitExactly(a: string, b: string, sep: string)
    requires sep != ""
    ensures Split(a + sep + b, sep) == [a, b] <==> NoneBefore(a + sep + b, sep, |a|) && NoneBefore(b, sep, |b|)
  {
    hide NoneBefore;
    if NoneBefore(a + sep + b, sep, |a|) && NoneBefore(b, sep, |b|) {
      SplitFirst(a, b, sep);
      SplitNone(b, sep);
    }
    if Split(a + sep + b, sep) == [a, b] { SplitTwo(a + sep + b, sep); }
  }

  /** A one-character separator: what matters is that it occurs in neither part. */
  lemma SplitOnChar(a: string, b: string, c: char)
    ensures Split(a + [c] + b, [c]) == [a, b] <==> c !in a && c !in b
  {
    SplitExactly(a, b, [c]);
    var s := a + [c] + b;
    NoneBeforeChar(b, c, |b|);
    NoneBeforeChar(s, c, |a|);
    assert s[..|a|] == a && b[..|b|] == b;
  }

  lemma NoneBeforeChar(s: string, c: char, n: nat)
    requires n <= |s|
    ensures NoneBefore(s, [c], n) <==> c !in s[..n]
  {
    forall i | 0 <= i < n ensures StartsWith(s[i..], [c]) <==> s[i] == c {
      assert s[i..][..1] == [s[i]];
    }
    forall i | 0 <= i < n ensures s[..n][i] == s[i] {}
  }

  // ---- the mappers ----------------------------------------------------------------------------

  datatype IdentityMapper = IdentityMapper(separator: string)

  function IdentityTo(m: IdentityMapper, hbPair: string): Result<string, Error> {
    var parts := Split(hbPair, "-");
    if |parts| != 2 then Err(UnknownPair(hbPair)) else Ok(Join(parts, m.separator))
  }

  function IdentityFrom(m: IdentityMapper, exchPair: string): Result<string, Error> {
    if m.separator == "" then Err(EmptySeparator)
    else
      var parts := Split(exchPair, m.separator);
      if |parts| != 2 then Err(UnknownPair(exchPair)) else Ok(parts[0] + "-" + parts[1])
  }

  datatype RuleBasedMapper = RuleBasedMapper(
    separator: Option<string>,
    knownQuotes: seq<string>,
    toHb: map<string, string>,
    fromHb: map<string, string>,
    fallback: Option<string -> Option<string>>)

  function Alias(aliases: map<string, string>, asset: string): string {
    if asset in aliases then aliases[asset] else asset
  }

  /** The loop over known_quote_assets, as a fold: a later quote wins only when it is longer. */
  function BestQuote(known: seq<string>, pair: string): Option<string> {
    if known == [] then None
    else
      var best, q := BestQuote(known[..|known| - 1], pair), known[|known| - 1];
      if EndsWith(pair, q) && (best.None? || |q| > |best.value|) then Some(q) else best
  }

  function TryFallback(m: RuleBasedMapper, pair: string): Result<(string, string), Error> {
    if m.fallback.Some? && m.fallback.value(pair).Some? && |Split(m.fallback.value(pair).value, "-")| == 2 then
      var parts := Split(m.fallback.value(pair).value, "-");
      Ok((parts[0], parts[1]))
    else Err(UnknownPair(pair))
  }

  /** `pair[:-len(best)]` is empty for an empty best quote, so that one never splits. */
  function SplitPair(m: RuleBasedMapper, pair: string): Result<(string, string), Error> {
    if m.separator.Some? then
      if m.separator.value == "" then Err(EmptySeparator)
      else
        var parts := Split(pair, m.separator.value);
        if |parts| == 2 then Ok((parts[0], parts[1])) else TryFallback(m, pair)
    else
      var best := BestQuote(m.knownQuotes, pair);
      if best.Some? && |best.value| > 0 && EndsWith(pair, best.value) && |best.value| < |pair|
      then Ok((pair[..|pair| - |best.value|], best.value))
      else TryFallback(m, pair)
  }

  function ToExchange(m: RuleBasedMapper, hbPair: string): Result<string, Error> {
    var parts := Split(hbPair, "-");
    if |parts| != 2 then Err(UnknownPair(hbPair))
    else
      var base, quote := Alias(m.fromHb, parts[0]), Alias(m.fromHb, parts[1]);
      Ok(if m.separator.Some? then base + m.separator.value + quote else base + quote)
  }

  function FromExchange(m: RuleBasedMapper, exchPair: string): Result<string, Error> {
    match SplitPair(m, exchPair)
    case Err(e) => Err(e)
    case Ok((base, quote)) => Ok(Alias(m.toHb, base) + "-" + Alias(m.toHb, quote))
  }

  /** _split_exchange_pair with its loop. */
  method SplitExchangePair(m: RuleBasedMapper, pair: string) returns (r: Result<(string, string), Error>)
    ensures r == SplitPair(m, pair)
    ensures m.separator.None? && r.Ok? && m.fallback.None? ==>
      r.value.0 + r.value.1 == pair && r.value.0 != "" && r.value.1 in m.knownQuotes
  {
    if m.separator.Some? {
      if m.separator.value == "" { return Err(EmptySeparator); }
      var parts := Split(pair, m.separator.value);
      if |parts| == 2 { return Ok((parts[0], parts[1])); }
      return TryFallback(m, pair);
    }
    var best: Option<string> := None;
    for k := 0 to |m.knownQuotes|
      invariant best == BestQuote(m.knownQuotes[..k], pair)
      invariant best.Some? ==> EndsWith(pair, best.value) && best.value in m.knownQuotes
    {
      assert m.knownQuotes[..k + 1][..k] == m.knownQuotes[..k];
      var quote := m.knownQuotes[k];
      if EndsWith(pair, quote) && (best.None? || |quote| > |best.value|) { best := Some(quote); }
    }
    assert m.knownQuotes[..|m.knownQuotes|] == m.knownQuotes;
    if best.Some? {
      var base := if best.value == "" then "" else pair[..|pair| - |best.value|];
      if base != "" { return Ok((base, best.value)); }
    }
    return TryFallback(m, pair);
  }

  // ---- the longest suffix ---------------------------------------------------------------------

  /** q is the longest known quote that the pair ends with. */
  ghost predicate IsLongest(known: seq<string>, pair: string, q: string) {
    q in known && EndsWith(pair, q) && forall k :: k in known && EndsWith(pair, k) ==> |k| <= |q|
  }

  lemma {:induction false} BestIsLongest(known: seq<string>, pair: string)
    ensures match BestQuote(known, pair)
      case Some(q) => IsLongest(known, pair, q)
      case None => forall k :: k in known ==> !EndsWith(pair, k)
  {
    hide EndsWith;
    if known != [] {
      var t, q := known[..|known| - 1], known[|known| - 1];
      assert known == t + [q];
      BestIsLongest(t, pair);
    }
  }

  /** Two suffixes of one string with the same length are the same string. */
  lemma LongestUnique(known: seq<string>, pair: string, q: string)
    requires IsLongest(known, pair, q)
    ensures BestQuote(known, pair) == Some(q)
  {
    BestIsLongest(known, pair);
  }

  /** The split depends on which quotes are known, not on their order or repetition. */
  lemma OrderDoesNotMatter(m: RuleBasedMapper, known: seq<string>, pair: string)
    requires forall q :: q in m.knownQuotes <==> q in known
    ensures SplitPair(m.(knownQuotes := known), pair) == SplitPair(m, pair)
  {
    hide EndsWith;
    BestIsLongest(m.knownQuotes, pair);
    BestIsLongest(known, pair);
    match BestQuote(m.knownQuotes, pair)
    case Some(q) => LongestUnique(known, pair, q);
    case None =>
  }

  /**
    Exactly when a concatenation is split where it was joined: the base is not empty, the quote is
    not empty and known, and no longer known quote is a suffix too.
  */
  lemma ConcatSplitsExactly(m: RuleBasedMapper, base: string, quote: string)
    requires m.separator.None? && m.fallback.None?
    ensures SplitPair(m, base + quote) == Ok((base, quote)) <==>
      && base != "" && quote != "" && quote in m.knownQuotes
      && forall k :: k in m.knownQuotes && EndsWith(base + quote, k) ==> |k| <= |quote|
  {
    var pair := base + quote;
    assert EndsWith(pair, quote) && pair[..|pair| - |quote|] == base;
    BestIsLongest(m.knownQuotes, pair);
    if quote in m.knownQuotes && forall k :: k in m.knownQuotes && EndsWith(pair, k) ==> |k| <= |quote| {
      LongestUnique(m.knownQuotes, pair, quote);
    }
  }

  /** The fallback's answer, when it is a canonical pair. */
  ghost predicate FallbackGives(m: RuleBasedMapper, pair: string, base: string, quote: string) {
    m.fallback.Some? && m.fallback.value(pair).Some? && IsPair(m.fallback.value(pair).value, base, quote)
  }

  /** No known quote leaves a base. */
  ghost predicate NoQuoteFits(known: seq<string>, pair: string) {
    forall k :: k in known && EndsWith(pair, k) ==> k == "" || k == pair
  }

  /**
    The fallback is asked exactly when the pair does not split: when no known quote leaves a base, or the
    separator does not cut it in two; and then its canonical answer is the split, any other one an error
    that names the pair. An empty separator is an error.
  */
  lemma FallbackDecides(m: RuleBasedMapper, pair: string, base: string, quote: string)
    requires if m.separator.None? then NoQuoteFits(m.knownQuotes, pair)
             else m.separator.value != "" && |Split(pair, m.separator.value)| != 2
    ensures SplitPair(m, pair) == Ok((base, quote)) <==> FallbackGives(m, pair, base, quote)
    ensures SplitPair(m, pair).Err? ==> SplitPair(m, pair) == Err(UnknownPair(pair))
  {
    hide Split, EndsWith;
    BestIsLongest(m.knownQuotes, pair);
    WholeSuffix(pair);
    if m.fallback.Some? && m.fallback.value(pair).Some? {
      var answer := m.fallback.value(pair).value;
      PairSplits(answer, base, quote);
      var parts := Split(answer, "-");
      if |parts| == 2 {
        assert parts == [parts[0], parts[1]];
      }
    }
  }

  lemma WholeSuffix(pair: string)
    ensures forall k :: EndsWith(pair, k) && |k| == |pair| ==> k == pair
  {
  }

  /** A pair is translated exactly when it is canonical, and the error names it. */
  lemma ToExchangeFailsExactly(m: RuleBasedMapper, hbPair: string)
    ensures ToExchange(m, hbPair).Err? <==> !exists base, quote :: IsPair(hbPair, base, quote)
    ensures ToExchange(m, hbPair).Err? ==> ToExchange(m, hbPair) == Err(UnknownPair(hbPair))
  {
    hide Split, Alias;
    if |Split(hbPair, "-")| == 2 {
      var base, quote := Split(hbPair, "-")[0], Split(hbPair, "-")[1];
      assert Split(hbPair, "-") == [base, quote];
      PairSplits(hbPair, base, quote);
      assert IsPair(hbPair, base, quote);
    }
    if base, quote :| IsPair(hbPair, base, quote) { PairSplits(hbPair, base, quote); }
  }

  /** The identity mapper translates exactly the canonical pairs, swaps the separator only, and names the others in its error. */
  lemma IdentityToExactly(m: IdentityMapper, hbPair: string, base: string, quote: string)
    ensures IdentityTo(m, hbPair).Err? <==> !exists b, q :: IsPair(hbPair, b, q)
    ensures IdentityTo(m, hbPair).Err? ==> IdentityTo(m, hbPair) == Err(UnknownPair(hbPair))
    ensures IsPair(hbPair, base, quote) ==> IdentityTo(m, hbPair) == Ok(base + m.separator + quote)
  {
    hide Split;
    PairSplits(hbPair, base, quote);
    var parts := Split(hbPair, "-");
    if |parts| == 2 {
      assert parts == [parts[0], parts[1]];
      PairSplits(hbPair, parts[0], parts[1]);
      assert IsPair(hbPair, parts[0], parts[1]);
    }
    if b, q :| IsPair(hbPair, b, q) { PairSplits(hbPair, b, q); }
    assert Join([base, quote], m.separator) == base + m.separator + quote;
  }

  // ---- round trips ----------------------------------------------------------------------------

  /** The two halves of a canonical pair. */
  ghost predicate IsPair(hbPair: string, base: string, quote: string) {
    hbPair == base + "-" + quote && '-' !in base && '-' !in quote
  }

  lemma PairSplits(hbPair: string, base: string, quote: string)
    ensures Split(hbPair, "-") == [base, quote] <==> IsPair(hbPair, base, quote)
  {
    if Split(hbPair, "-") == [base, quote] {
      JoinSplit(hbPair, "-");
      assert Join([base, quote], "-") == base + "-" + quote;
    }
    if hbPair == base + "-" + quote { SplitOnChar(base, quote, '-'); }
  }

  /** What the trip to the exchange and back does, once it is known how the exchange pair splits. */
  lemma ThereAndBack(m: RuleBasedMapper, base: string, quote: string)
    requires '-' !in base && '-' !in quote
    requires m.separator.Some? ==> m.separator.value != ""
    ensures var b, q := Alias(m.fromHb, base), Alias(m.fromHb, quote);
      var pair := if m.separator.Some? then b + m.separator.value + q else b + q;
      && ToExchange(m, base + "-" + quote) == Ok(pair)
      && (SplitPair(m, pair) == Ok((b, q)) ==>
            FromExchange(m, pair) == Ok(Alias(m.toHb, b) + "-" + Alias(m.toHb, q)))
  {
    hide Split, SplitPair;
    PairSplits(base + "-" + quote, base, quote);
  }

  /**
    Concatenated pairs: when the aliases invert each other on both assets, the exchange's base is not
    empty, its quote is known and no longer known quote is a suffix of the joined string, the pair
    comes back unchanged; a fallback does not matter.
  */
  lemma ConcatRoundTrip(m: RuleBasedMapper, base: string, quote: string)
    requires '-' !in base && '-' !in quote && m.separator.None?
    requires Alias(m.toHb, Alias(m.fromHb, base)) == base && Alias(m.toHb, Alias(m.fromHb, quote)) == quote
    requires var b, q := Alias(m.fromHb, base), Alias(m.fromHb, quote);
      && b != "" && q != "" && q in m.knownQuotes
      && forall k :: k in m.knownQuotes && EndsWith(b + q, k) ==> |k| <= |q|
    ensures ToExchange(m, base + "-" + quote).Ok?
    ensures FromExchange(m, ToExchange(m, base + "-" + quote).value) == Ok(base + "-" + quote)
  {
    hide Alias, Split;
    var b, q := Alias(m.fromHb, base), Alias(m.fromHb, quote);
    var pair := b + q;
    assert EndsWith(pair, q) && pair[..|pair| - |q|] == b;
    LongestUnique(m.knownQuotes, pair, q);
    ThereAndBack(m, base, quote);
  }

  /** Separated pairs: when the aliases invert each other, the pair comes back if it splits where it was joined. */
  lemma SeparatedRoundTrip(m: RuleBasedMapper, base: string, quote: string)
    requires '-' !in base && '-' !in quote && m.separator.Some? && m.separator.value != ""
    requires Alias(m.toHb, Alias(m.fromHb, base)) == base && Alias(m.toHb, Alias(m.fromHb, quote)) == quote
    requires var b, q := Alias(m.fromHb, base), Alias(m.fromHb, quote);
      if |m.separator.value| == 1 then m.separator.value[0] !in b && m.separator.value[0] !in q
      else NoneBefore(b + m.separator.value + q, m.separator.value, |b|) && NoneBefore(q, m.separator.value, |q|)
    ensures ToExchange(m, base + "-" + quote).Ok?
    ensures FromExchange(m, ToExchange(m, base + "-" + quote).value) == Ok(base + "-" + quote)
  {
    hide Alias, Split, NoneBefore;
    var b, q, sep := Alias(m.fromHb, base), Alias(m.fromHb, quote), m.separator.value;
    if |sep| == 1 {
      assert sep == [sep[0]];
      SplitOnChar(b, q, sep[0]);
    } else {
      SplitExactly(b, q, sep);
    }
    ThereAndBack(m, base, quote);
  }

  /**
    IdentityMapper, exactly: a canonical pair comes back if and only if its joined form splits where
    it was joined; so always for "-", and for another character if and only if neither half has it.
  */
  lemma IdentityRoundTrip(m: IdentityMapper, base: string, quote: string)
    requires '-' !in base && '-' !in quote && m.separator != ""
    ensures IdentityTo(m, base + "-" + quote) == Ok(base + m.separator + quote)
    ensures (IdentityFrom(m, base + m.separator + quote) == Ok(base + "-" + quote)) <==>
      Split(base + m.separator + quote, m.separator) == [base, quote]
    ensures |m.separator| == 1 ==>
      (Split(base + m.separator + quote, m.separator) == [base, quote] <==>
         m.separator[0] !in base && m.separator[0] !in quote)
  {
    hide Split;
    PairSplits(base + "-" + quote, base, quote);
    assert Join([base, quote], m.separator) == base + m.separator + quote;
    var r := Split(base + m.separator + quote, m.separator);
    if |r| == 2 && r[0] + "-" + r[1] == base + "-" + quote { SameHalves(r[0], r[1], base, quote); }
    if |m.separator| == 1 {
      assert m.separator == [m.separator[0]];
      SplitOnChar(base, quote, m.separator[0]);
    }
  }

  lemma SameHalves(a: string, b: string, base: string, quote: string)
    requires a + "-" + b == base + "-" + quote && '-' !in base && '-' !in quote
    ensures a == base && b == quote
  {
    var s, t := a + "-" + b, base + "-" + quote;
    OneDash(base, quote);
    assert s[|a|] == '-';
    assert s[..|a|] == a && t[..|a|] == base && s[|a| + 1..] == b && t[|a| + 1..] == quote;
  }

  lemma OneDash(base: string, quote: string)
    requires '-' !in base && '-' !in quote
    ensures var t := base + "-" + quote; forall i :: 0 <= i < |t| && t[i] == '-' ==> i == |base|
  {
    var t := base + "-" + quote;
    forall i | 0 <= i < |t| && i != |base| ensures t[i] != '-' {
      assert t[i] in base || t[i] in quote by {
        assert t[i] == if i < |base| then base[i] else quote[i - |base| - 1];
      }
    }
  }

  /** The other way round: an exchange pair whose halves have no dash comes back unchanged. */
  lemma IdentityRoundTripBack(m: IdentityMapper, exchPair: string)
    requires m.separator != "" && IdentityFrom(m, exchPair).Ok?
    requires '-' !in Split(exchPair, m.separator)[0] && '-' !in Split(exchPair, m.separator)[1]
    ensures IdentityTo(m, IdentityFrom(m, exchPair).value) == Ok(exchPair)
  {
    hide Split;
    var r := Split(exchPair, m.separator);
    JoinSplit(exchPair, m.separator);
    PairSplits(r[0] + "-" + r[1], r[0], r[1]);
    assert r == [r[0], r[1]];
  }

  // ---- Kraken's tables ------------------------------------------------------------------------

  const KRAKEN_TO_HB: map<string, string> := map[
    "XBT" := "BTC", "XDG" := "DOGE", "XETC" := "ETC", "XETH" := "ETH", "XLTC" := "LTC", "XMLN" := "MLN",
    "XREP" := "REP", "XXBT" := "BTC", "XXDG" := "DOGE", "XXLM" := "XLM", "XXMR" := "XMR", "XXRP" := "XRP",
    "XZEC" := "ZEC", "ZAUD" := "AUD", "ZCAD" := "CAD", "ZEUR" := "EUR", "ZGBP" := "GBP", "ZJPY" := "JPY",
    "ZUSD" := "USD"]

  const KRAKEN_FROM_HB: map<string, string> := map[
    "BTC" := "XBT", "DOGE" := "XDG", "ETC" := "XETC", "ETH" := "XETH", "LTC" := "XLTC", "MLN" := "XMLN",
    "REP" := "XREP", "XLM" := "XXLM", "XMR" := "XXMR", "XRP" := "XXRP", "ZEC" := "XZEC", "AUD" := "ZAUD",
    "CAD" := "ZCAD", "EUR" := "ZEUR", "GBP" := "ZGBP", "JPY" := "ZJPY", "USD" := "ZUSD"]

  const KRAKEN_QUOTES: seq<string> := [
    "ZUSD", "ZEUR", "ZGBP", "ZCAD", "ZJPY", "ZAUD", "XXBT", "XETH", "USD", "EUR", "GBP", "CAD", "JPY", "AUD", "BTC", "ETH"]

  const KRAKEN := RuleBasedMapper(None, KRAKEN_QUOTES, KRAKEN_TO_HB, KRAKEN_FROM_HB, None)

  /** The quotes whose pairs Kraken's mapper brings back. */
  const SOUND_QUOTES: seq<string> := ["USD", "EUR", "GBP", "CAD", "JPY", "AUD", "ETH"]

  /** An asset survives the two alias tables unless it is itself one of Kraken's codes. */
  lemma KrakenAliases(asset: string)
    ensures Alias(KRAKEN_TO_HB, Alias(KRAKEN_FROM_HB, asset)) == asset <==> asset !in KRAKEN_TO_HB
    ensures Alias(KRAKEN_FROM_HB, asset) == "" <==> asset == ""
  {
    KrakenNames(asset);
    KrakenCodes(asset);
  }

  /** An aliased name has a code, which is a code of it, and is no code itself. */
  lemma KrakenNames(asset: string)
    ensures asset in KRAKEN_FROM_HB ==>
      && KRAKEN_FROM_HB[asset] in KRAKEN_TO_HB && KRAKEN_TO_HB[KRAKEN_FROM_HB[asset]] == asset
      && KRAKEN_FROM_HB[asset] != "" && asset != "" && asset !in KRAKEN_TO_HB
  {
  }

  lemma KrakenCodes(asset: string)
    ensures asset in KRAKEN_TO_HB ==> KRAKEN_TO_HB[asset] != asset
  {
  }

  /** No known quote is longer than the codes of the sound quotes, which are known. */
  lemma KrakenQuotes()
    ensures forall k :: 0 <= k < |KRAKEN_QUOTES| ==> 3 <= |KRAKEN_QUOTES[k]| <= 4
  {
  }

  lemma SoundQuoteCodes(q: string)
    requires q in SOUND_QUOTES
    ensures q !in KRAKEN_TO_HB && |Alias(KRAKEN_FROM_HB, q)| == 4
  {
  }

  lemma SoundQuoteKnown(q: string)
    requires q in SOUND_QUOTES
    ensures Alias(KRAKEN_FROM_HB, q) in KRAKEN_QUOTES
  {
    assert KRAKEN_QUOTES[0] == "ZUSD" && KRAKEN_QUOTES[1] == "ZEUR" && KRAKEN_QUOTES[2] == "ZGBP" && KRAKEN_QUOTES[3] == "ZCAD";
    assert KRAKEN_QUOTES[4] == "ZJPY" && KRAKEN_QUOTES[5] == "ZAUD" && KRAKEN_QUOTES[7] == "XETH";
  }

  lemma KrakenQuoteNames(k: string)
    requires k in KRAKEN_QUOTES
    ensures Alias(KRAKEN_TO_HB, k) in SOUND_QUOTES || k == "XXBT" || k == "BTC"
  {
  }

  /** No name and no code of an aliased asset ends in X. */
  lemma NothingEndsInX(x: string)
    ensures x in KRAKEN_TO_HB ==> KRAKEN_TO_HB[x] != "" && KRAKEN_TO_HB[x][|KRAKEN_TO_HB[x]| - 1] != 'X'
    ensures x in KRAKEN_FROM_HB ==> KRAKEN_FROM_HB[x] != "" && KRAKEN_FROM_HB[x][|KRAKEN_FROM_HB[x]| - 1] != 'X'
  {
    NoNameEndsInX(x);
    NoCodeEndsInX(x);
  }

  lemma NoNameEndsInX(x: string)
    ensures x in KRAKEN_TO_HB ==> KRAKEN_TO_HB[x] != "" && KRAKEN_TO_HB[x][|KRAKEN_TO_HB[x]| - 1] != 'X'
  {
  }

  lemma NoCodeEndsInX(x: string)
    ensures x in KRAKEN_FROM_HB ==> KRAKEN_FROM_HB[x] != "" && KRAKEN_FROM_HB[x][|KRAKEN_FROM_HB[x]| - 1] != 'X'
  {
  }

  /** A pair quoted in BTC never comes back: "XBT" is no known quote, and "XXBT" takes an X off the base. */
  lemma BtcQuoted(base: string, x: string, k: string)
    requires k == "XXBT" || k == "BTC"
    requires x + k == Alias(KRAKEN_FROM_HB, base) + "XBT"
    ensures Alias(KRAKEN_TO_HB, x) != base
  {
    var b := Alias(KRAKEN_FROM_HB, base);
    var pair := b + "XBT";
    assert pair[|pair| - 3] == 'X';
    assert k == "XXBT" by { assert (x + k)[|x + k| - 3] == k[|k| - 3]; }
    assert b == x + "X" by {
      assert (x + "XXBT")[..|x| + 1] == x + "X";
      assert pair[..|b|] == b;
    }
    NothingEndsInX(base);
    NothingEndsInX(x);
    assert b[|b| - 1] == 'X';
  }

  /** A known quote that no known quote outgrows is split off where it was joined. */
  lemma LongestSplitsBack(known: seq<string>, b: string, q: string, x: string, k: string)
    requires q in known && forall n :: n in known ==> |n| <= |q|
    requires IsLongest(known, b + q, k) && x + k == b + q
    ensures x == b
  {
    assert EndsWith(b + q, q);
    assert |k| == |q|;
    assert (x + k)[..|x|] == x && (b + q)[..|b|] == b;
  }

  lemma SoundQuotesOutgrown(quote: string)
    requires quote in SOUND_QUOTES
    ensures var q := Alias(KRAKEN_FROM_HB, quote);
      q in KRAKEN_QUOTES && q != "" && forall n :: n in KRAKEN_QUOTES ==> |n| <= |q|
  {
    hide Alias;
    SoundQuoteKnown(quote);
    SoundQuoteCodes(quote);
    KrakenQuotes();
  }

  /** The round trip without separator and fallback, in terms of the split. */
  lemma ComesBackBySplit(m: RuleBasedMapper, base: string, quote: string)
    requires '-' !in base && '-' !in quote && m.separator.None? && m.fallback.None?
    ensures ToExchange(m, base + "-" + quote).Ok?
    ensures var pair := Alias(m.fromHb, base) + Alias(m.fromHb, quote); var r := SplitPair(m, pair);
      && (FromExchange(m, ToExchange(m, base + "-" + quote).value) == Ok(base + "-" + quote) <==>
            r.Ok? && Alias(m.toHb, r.value.0) == base && Alias(m.toHb, r.value.1) == quote)
      && (r.Ok? ==> r.value.0 + r.value.1 == pair && r.value.0 != "" && IsLongest(m.knownQuotes, pair, r.value.1))
  {
    hide Alias, Split;
    ThereAndBack(m, base, quote);
    var pair := Alias(m.fromHb, base) + Alias(m.fromHb, quote);
    BestIsLongest(m.knownQuotes, pair);
    var r := SplitPair(m, pair);
    if r.Ok? {
      var x, k := Alias(m.toHb, r.value.0), Alias(m.toHb, r.value.1);
      if x + "-" + k == base + "-" + quote { SameHalves(x, k, base, quote); }
    }
  }

  /**
    Kraken's mapper, exactly: a canonical pair comes back unchanged if and only if it is quoted in
    USD, EUR, GBP, CAD, JPY, AUD or ETH and its base is not empty and not one of Kraken's own codes.
    In particular no BTC-quoted pair does.
  */
  lemma KrakenRoundTripsExactly(base: string, quote: string)
    requires '-' !in base && '-' !in quote
    ensures ToExchange(KRAKEN, base + "-" + quote).Ok?
    ensures FromExchange(KRAKEN, ToExchange(KRAKEN, base + "-" + quote).value) == Ok(base + "-" + quote) <==>
      quote in SOUND_QUOTES && base != "" && base !in KRAKEN_TO_HB
  {
    hide Alias, ToExchange, FromExchange, SplitPair, IsLongest, EndsWith;
    ComesBackBySplit(KRAKEN, base, quote);
    var r := SplitPair(KRAKEN, Alias(KRAKEN_FROM_HB, base) + Alias(KRAKEN_FROM_HB, quote));
    if r.Ok? && Alias(KRAKEN_TO_HB, r.value.0) == base && Alias(KRAKEN_TO_HB, r.value.1) == quote {
      KrakenBack(base, quote, r.value.0, r.value.1);
    }
    if quote in SOUND_QUOTES && base != "" && base !in KRAKEN_TO_HB { KrakenThere(base, quote); }
  }

  lemma KrakenThere(base: string, quote: string)
    requires '-' !in base && '-' !in quote
    requires quote in SOUND_QUOTES && base != "" && base !in KRAKEN_TO_HB
    ensures ToExchange(KRAKEN, base + "-" + quote).Ok?
    ensures FromExchange(KRAKEN, ToExchange(KRAKEN, base + "-" + quote).value) == Ok(base + "-" + quote)
  {
    hide Alias, ToExchange, FromExchange, EndsWith;
    KrakenAliases(base);
    KrakenAliases(quote);
    SoundQuoteCodes(quote);
    SoundQuotesOutgrown(quote);
    ConcatRoundTrip(KRAKEN, base, quote);
  }

  lemma KrakenBack(base: string, quote: string, x: string, k: string)
    requires x != "" && x + k == Alias(KRAKEN_FROM_HB, base) + Alias(KRAKEN_FROM_HB, quote)
    requires IsLongest(KRAKEN_QUOTES, x + k, k)
    requires Alias(KRAKEN_TO_HB, x) == base && Alias(KRAKEN_TO_HB, k) == quote
    ensures quote in SOUND_QUOTES && base != "" && base !in KRAKEN_TO_HB
  {
    hide Alias, EndsWith;
    KrakenQuoteNames(k);
    KrakenAliases(base);
    if quote in SOUND_QUOTES {
      SoundQuotesOutgrown(quote);
      LongestSplitsBack(KRAKEN_QUOTES, Alias(KRAKEN_FROM_HB, base), Alias(KRAKEN_FROM_HB, quote), x, k);
    } else {
      BtcNames(k);
      BtcQuoted(base, x, k);
    }
  }

  lemma BtcNames(k: string)
    requires k == "XXBT" || k == "BTC"
    ensures Alias(KRAKEN_TO_HB, k) == "BTC" && Alias(KRAKEN_FROM_HB, "BTC") == "XBT"
  {
  }
}
