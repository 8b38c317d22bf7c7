/** Small helpers shared by every part of the model: an Option type, a
    first-match search, reading a
    numeric map where an absent key reads as zero, joining strings, and taking
    the base asset out of a trading symbol. */
module Common {

  datatype Option<T> = None | Some(value: T)

  /** `findIndex(p)` (or `find(p)`, as an index): the first element that
      satisfies `p`, or none when none does. */
  function FirstIndex<T>(s: seq<T>, p: T -> bool): (r: Option<nat>)
    ensures r.Some? ==> r.value < |s| && p(s[r.value])
    ensures r.Some? ==> forall j :: 0 <= j < r.value ==> !p(s[j])
    ensures r.None? <==> forall j :: 0 <= j < |s| ==> !p(s[j])
  {
    if s == [] then None
    else if p(s[0]) then Some(0)
    else match FirstIndex(s[1..], p)
      case None => None
      case Some(k) => Some(k + 1)
  }

  /** Two searches whose tests agree element by element find the same
      index. */
  lemma {:induction false} FirstIndexPointwise<T, U>(a: seq<T>, p: T -> bool, b: seq<U>, q: U -> bool)
    requires |a| == |b|
    requires forall k :: 0 <= k < |a| ==> p(a[k]) == q(b[k])
    ensures FirstIndex(a, p) == FirstIndex(b, q)
  {
    if a != [] {
      FirstIndexPointwise(a[1..], p, b[1..], q);
    }
  }

  /** `(m[k] || 0)`: an absent key reads as zero. */
  function Amount(m: map<string, real>, k: string): (r: real)
    ensures k in m ==> r == m[k]
    ensures k !in m ==> r == 0.0
  {
    if k in m then m[k] else 0.0
  }

  /** `xs.join(sep)`. */
  function Join(xs: seq<string>, sep: string): (r: string)
    ensures xs == [] ==> r == ""
    ensures |xs| == 1 ==> r == xs[0]
  {
    if |xs| == 0 then ""
    else if |xs| == 1 then xs[0]
    else xs[0] + sep + Join(xs[1..], sep)
  }

  /** Position of the first '/' in `s`, or |s| when there is none. */
  function SlashAt(s: string): (k: nat)
    ensures k <= |s|
    ensures forall i :: 0 <= i < k ==> s[i] != '/'
    ensures k < |s| ==> s[k] == '/'
  {
    if s == [] then 0
    else if s[0] == '/' then 0
    else 1 + SlashAt(s[1..])
  }

  /** `symbol.split('/')[0]`: the base asset of a trading symbol such as "BTC/USDT". */
  function BaseOf(symbol: string): (base: string)
    ensures '/' !in base
    ensures symbol == base || (|base| < |symbol| && symbol[..|base| + 1] == base + "/")
  {
    var k := SlashAt(symbol);
    assert forall c :: c in symbol[..k] ==> c != '/';
    symbol[..k]
  }

  /** `base + "/USDT"`, the symbol a refreshed market is stored under. */
  function UsdtSymbol(base: string): (symbol: string)
    ensures '/' !in base ==> BaseOf(symbol) == base
  {
    var symbol := base + "/USDT";
    if '/' !in base then
      BaseOfPair(base, "USDT");
      symbol
    else symbol
  }

  /** Splitting `base + "/" + rest` at its first slash gives back `base`. */
  lemma {:induction false} BaseOfPair(base: string, rest: string)
    requires '/' !in base
    ensures BaseOf(base + "/" + rest) == base
  {
    var s := base + "/" + rest;
    SlashOfPair(base, rest);
    assert s[..|base|] == base;
  }

  lemma {:induction false} SlashOfPair(base: string, rest: string)
    requires '/' !in base
    ensures SlashAt(base + "/" + rest) == |base|
  {
    if base != [] {
      assert (base + "/" + rest)[1..] == base[1..] + "/" + rest;
      assert base[0] in base;
      SlashOfPair(base[1..], rest);
    }
  }
}
