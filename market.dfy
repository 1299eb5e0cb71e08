/** Market data as the scanners receive it from the exchange's public API,
    and the few list operations of the host language that the scanners rely on. */
module Market {

  datatype Option<+T> = None | Some(value: T) {
    /** The value, or `default` when absent (a dictionary `get` with a default). */
    function GetOr(default: T): T {
      match this
      case Some(v) => v
      case None => default
    }
  }

  /** One entry of the linear-contract ticker snapshot. The optional fields are the
      ones the scanners read with a default. */
  datatype Ticker = Ticker(
    symbol: string,
    lastPrice: real,
    price24hPcnt: Option<real>,   // a fraction: 0.05 is +5%
    volume24h: Option<real>,      // in the base asset
    prevPrice24h: Option<real>)

  /** One candle; a series arrives in whatever order the exchange lists it. */
  datatype Kline = Kline(openTime: int, open: real, high: real, low: real, close: real, volume: real)

  const QuoteSuffix: string := "USDT"

  /** The tradable-pair naming convention: quoted in USDT. */
  predicate IsUsdtPair(symbol: string) {
    |symbol| >= |QuoteSuffix| && symbol[|symbol| - |QuoteSuffix|..] == QuoteSuffix
  }

  /** 24h volume in the quote currency: base volume (0 when missing) times last price. */
  function QuoteVolume(t: Ticker): real {
    t.volume24h.GetOr(0.0) * t.lastPrice
  }

  /** The snapshot's 24h change in percent (0 when missing). */
  function ChangePct(t: Ticker): real {
    t.price24hPcnt.GetOr(0.0) * 100.0
  }

  function Abs(x: real): (r: real)
    ensures r >= 0.0
    ensures r == x || r == -x
  {
    if x < 0.0 then -x else x
  }

  /** Python's slice `s[:n]`: a prefix of `s`; a negative `n` counts from the end. */
  function Take<T>(s: seq<T>, n: int): (r: seq<T>)
    ensures r <= s
    ensures forall x :: x in r ==> x in s
    ensures 0 <= n <= |s| ==> |r| == n
    ensures n >= |s| ==> r == s
    ensures n >= 0 ==> |r| <= n
    ensures n < 0 ==> |r| == if |s| + n >= 0 then |s| + n else 0
  {
    if n >= |s| then s
    else if n >= 0 then s[..n]
    else if |s| + n >= 0 then s[..|s| + n]
    else []
  }

  /** Python's in-place `list.reverse()`, as a value. */
  function Reverse<T>(s: seq<T>): (r: seq<T>)
    ensures |r| == |s|
    ensures forall i :: 0 <= i < |s| ==> r[i] == s[|s| - 1 - i]
  {
    if s == [] then [] else Reverse(s[1..]) + [s[0]]
  }

  /** Reversing moves elements and neither adds nor drops any. */
  lemma {:induction false} ReverseMultiset<T>(s: seq<T>)
    ensures multiset(Reverse(s)) == multiset(s)
  {
    if s != [] {
      ReverseMultiset(s[1..]);
      assert s == [s[0]] + s[1..];
    }
  }

  /** The scanners' loop `for x in s: if x yields y: found.append(y)`: the yields of
      `f`, in the order of `s`. */
  function Collect<T, U>(s: seq<T>, f: T -> Option<U>): (r: seq<U>)
    ensures |r| <= |s|
  {
    if s == [] then []
    else
      var rest := Collect(s[..|s| - 1], f);
      match f(s[|s| - 1])
      case None => rest
      case Some(y) => rest + [y]
  }

  /** Everything collected is the yield of some item. */
  lemma {:induction false} CollectSound<T, U>(s: seq<T>, f: T -> Option<U>, y: U)
    requires y in Collect(s, f)
    ensures exists x :: x in s && f(x) == Some(y)
  {
    var init := s[..|s| - 1];
    if y in Collect(init, f) {
      CollectSound(init, f, y);
      var x :| x in init && f(x) == Some(y);
      assert x in s;
    } else {
      assert f(s[|s| - 1]) == Some(y);
    }
  }

  /** One more item: the loop appends its yield, if any. */
  lemma CollectSnoc<T, U>(s: seq<T>, x: T, f: T -> Option<U>)
    ensures Collect(s + [x], f) == Collect(s, f) + (if f(x).Some? then [f(x).value] else [])
  {
    assert (s + [x])[..|s|] == s;
  }

  /** Every yield is collected. */
  lemma {:induction false} CollectComplete<T, U>(s: seq<T>, f: T -> Option<U>, x: T)
    requires x in s && f(x).Some?
    ensures f(x).value in Collect(s, f)
  {
    var init := s[..|s| - 1];
    if x != s[|s| - 1] {
      assert x in init;
      CollectComplete(init, f, x);
    }
  }

  /** What is collected from a prefix is a prefix of what is collected from the whole. */
  lemma {:induction false} CollectPrefix<T, U>(s: seq<T>, f: T -> Option<U>, k: nat)
    requires k <= |s|
    ensures Collect(s[..k], f) <= Collect(s, f)
    decreases |s|
  {
    if k < |s| {
      var init := s[..|s| - 1];
      CollectPrefix(init, f, k);
      assert init[..k] == s[..k];
    } else {
      assert s[..k] == s;
    }
  }

  /** Reaching an item that yields `y` appends `y`. */
  lemma CollectStep<T, U>(s: seq<T>, f: T -> Option<U>, k: nat)
    requires k < |s| && f(s[k]).Some?
    ensures Collect(s[..k + 1], f) == Collect(s[..k], f) + [f(s[k]).value]
  {
    assert s[..k + 1][..k] == s[..k];
  }

  /** The loop's step at index `i`: the item's yield, if any, is appended. */
  lemma CollectNext<T, U>(s: seq<T>, f: T -> Option<U>, i: nat, found: seq<U>, v: Option<U>)
    requires i < |s| && found == Collect(s[..i], f) && v == f(s[i])
    ensures v.Some? ==> found + [v.value] == Collect(s[..i + 1], f)
    ensures v.None? ==> found == Collect(s[..i + 1], f)
  {
    assert s[..i + 1][..i] == s[..i];
  }

  /** Collecting from a shorter prefix gives a prefix of collecting from a longer one. */
  lemma CollectPrefixes<T, U>(s: seq<T>, f: T -> Option<U>, j: nat, k: nat)
    requires j <= k <= |s|
    ensures Collect(s[..j], f) <= Collect(s[..k], f)
  {
    CollectPrefix(s[..k], f, j);
    assert s[..k][..j] == s[..j];
  }

  /** An item that occurs twice in `s` and yields something has its yield collected twice. */
  lemma {:induction false} CollectRepeats<T, U>(s: seq<T>, f: T -> Option<U>, a: nat, b: nat) returns (i: nat, j: nat)
    requires a < b < |s| && s[a] == s[b] && f(s[a]).Some?
    ensures i < j < |Collect(s, f)| && Collect(s, f)[i] == f(s[a]).value && Collect(s, f)[j] == f(s[a]).value
  {
    var y := f(s[a]).value;
    var all := Collect(s, f);
    var upToA, beforeB, upToB := Collect(s[..a + 1], f), Collect(s[..b], f), Collect(s[..b + 1], f);
    CollectStep(s, f, a);
    CollectStep(s, f, b);
    CollectPrefixes(s, f, a + 1, b);
    CollectPrefixes(s, f, b + 1, |s|);
    assert s[..|s|] == s;
    i, j := |upToA| - 1, |upToB| - 1;
    assert upToA[i] == y;
    assert beforeB[i] == y;
    assert upToB[i] == y && upToB[j] == y;
    assert all[i] == y && all[j] == y;
  }
}
