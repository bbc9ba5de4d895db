/** The order the host pool is read and handed out in (internal/inventory/order.go).

    Names are compared chunk by chunk: a run of digits counts as a number of any
    length, everything else as text.  Characters stand for code points; UTF-8
    keeps their order, so comparing characters is comparing bytes.
  */
module Inventory {
  import opened Sorting

  predicate IsDigit(c: char) {
    '0' <= c <= '9'
  }

  predicate IsDigits(s: string) {
    s != "" && forall i :: 0 <= i < |s| ==> IsDigit(s[i])
  }

  /** Lexicographic text order: the sign of strings.Compare. */
  function CompareText(a: string, b: string): (c: int)
    ensures -1 <= c <= 1
  {
    if a == "" then (if b == "" then 0 else -1)
    else if b == "" then 1
    else if a[0] < b[0] then -1
    else if a[0] > b[0] then 1
    else CompareText(a[1..], b[1..])
  }

  function TrimZeros(s: string): (t: string)
    ensures |t| <= |s| && (t != "" ==> t[0] != '0')
  {
    if s != "" && s[0] == '0' then TrimZeros(s[1..]) else s
  }

  /** Two runs of digits as numbers, without converting them. */
  function CompareNumbers(a: string, b: string): (c: int)
    ensures -1 <= c <= 1
  {
    var na, nb := TrimZeros(a), TrimZeros(b);
    if |na| < |nb| then -1
    else if |na| > |nb| then 1
    else if CompareText(na, nb) != 0 then CompareText(na, nb)
    else CompareText(a, b)
  }

  /** How many leading characters are digits, or are not. */
  function RunLength(s: string, digits: bool): (n: nat)
    ensures n <= |s|
    ensures forall i :: 0 <= i < n ==> IsDigit(s[i]) == digits
    ensures n < |s| ==> IsDigit(s[n]) != digits
  {
    if s == "" || IsDigit(s[0]) != digits then 0
    else
      var n := RunLength(s[1..], digits);
      assert forall i :: 1 <= i < n + 1 ==> s[i] == s[1..][i - 1];
      n + 1
  }

  function Head(s: string): (h: string)
    requires s != ""
    ensures IsChunk(h)
  {
    s[..RunLength(s, IsDigit(s[0]))]
  }

  function Rest(s: string): (r: string)
    requires s != ""
    ensures |r| < |s| && Head(s) + r == s
  {
    s[RunLength(s, IsDigit(s[0]))..]
  }

  /** A chunk is all digits or free of digits. */
  predicate IsChunk(s: string) {
    s != "" && forall i :: 0 <= i < |s| ==> IsDigit(s[i]) == IsDigit(s[0])
  }

  function CompareChunks(a: string, b: string): (c: int)
    ensures -1 <= c <= 1
  {
    if IsDigits(a) && IsDigits(b) then CompareNumbers(a, b) else CompareText(a, b)
  }

  /** The order itself; method CompareNames below computes it as the source does. */
  function Compare(a: string, b: string): (c: int)
    ensures -1 <= c <= 1
  {
    if a == "" then (if b == "" then 0 else -1)
    else if b == "" then 1
    else
      var c := CompareChunks(Head(a), Head(b));
      if c != 0 then c else Compare(Rest(a), Rest(b))
  }

  method Chunk(s: string) returns (head: string, rest: string)
    requires s != ""
    ensures head == Head(s) && rest == Rest(s)
    ensures IsChunk(head) && head + rest == s
    ensures rest != "" ==> IsDigit(rest[0]) != IsDigit(s[0])
  {
    var digits := IsDigit(s[0]);
    var i := 0;
    while i < |s|
      invariant 0 <= i <= |s|
      invariant forall k :: 0 <= k < i ==> IsDigit(s[k]) == digits
    {
      if IsDigit(s[i]) != digits {
        return s[..i], s[i..];
      }
      i := i + 1;
    }
    return s, "";
  }

  method CompareNames(a: string, b: string) returns (c: int)
    ensures c == Compare(a, b)
    ensures c == 0 <==> a == b
  {
    CompareZero(a, b);
    var x, y := a, b;
    while x != "" && y != ""
      invariant Compare(a, b) == Compare(x, y)
      decreases |x|
    {
      var xhead, xrest := Chunk(x);
      var yhead, yrest := Chunk(y);
      c := CompareChunks(xhead, yhead);
      if c != 0 {
        return;
      }
      x, y := xrest, yrest;
    }
    c := if x == "" && y == "" then 0 else if x == "" then -1 else 1;
  }

  // ---- text order

  lemma {:induction false} TextZero(a: string, b: string)
    ensures CompareText(a, b) == 0 <==> a == b
  {
    if a != "" && b != "" && a[0] == b[0] {
      TextZero(a[1..], b[1..]);
      assert a == [a[0]] + a[1..] && b == [b[0]] + b[1..];
    }
  }

  lemma {:induction false} TextAntisymmetric(a: string, b: string)
    ensures CompareText(a, b) == -CompareText(b, a)
  {
    if a != "" && b != "" && a[0] == b[0] {
      TextAntisymmetric(a[1..], b[1..]);
    }
  }

  lemma {:induction false} TextTransitive(a: string, b: string, c: string)
    requires CompareText(a, b) < 0 && CompareText(b, c) < 0
    ensures CompareText(a, c) < 0
  {
    if a != "" && a[0] == b[0] && b[0] == c[0] {
      TextTransitive(a[1..], b[1..], c[1..]);
    }
  }

  /** a comes before b as text: it is a proper beginning of b, or has the smaller
      character where they first differ. */
  predicate TextBefore(a: string, b: string) {
    exists i :: 0 <= i <= |a| && i <= |b| && DecidedAt(a, b, i)
  }

  predicate DecidedAt(a: string, b: string, i: nat)
    requires i <= |a| && i <= |b|
  {
    && (forall k :: 0 <= k < i ==> a[k] == b[k])
    && ((i == |a| && i < |b|) || (i < |a| && i < |b| && a[i] < b[i]))
  }

  lemma {:induction false} TextMeans(a: string, b: string)
    ensures CompareText(a, b) < 0 <==> TextBefore(a, b)
    decreases |a|
  {
    if a == "" || b == "" || a[0] != b[0] {
      if CompareText(a, b) < 0 { assert DecidedAt(a, b, 0); }
    } else {
      TextMeans(a[1..], b[1..]);
      if TextBefore(a[1..], b[1..]) {
        var i :| 0 <= i <= |a[1..]| && i <= |b[1..]| && DecidedAt(a[1..], b[1..], i);
        assert DecidedAt(a, b, i + 1) by { assert forall k :: 1 <= k < i + 1 ==> a[k] == a[1..][k - 1] && b[k] == b[1..][k - 1]; }
      }
      if TextBefore(a, b) {
        var i :| 0 <= i <= |a| && i <= |b| && DecidedAt(a, b, i);
        assert DecidedAt(a[1..], b[1..], i - 1);
      }
    }
  }

  // ---- number order

  function Pow10(n: nat): (p: nat)
    ensures p >= 1
  {
    if n == 0 then 1 else 10 * Pow10(n - 1)
  }

  function Digit(c: char): (d: nat)
    requires IsDigit(c)
    ensures d <= 9
  {
    c as int - '0' as int
  }

  /** The number a string of digits denotes in decimal. */
  function Value(s: string): (v: nat)
    requires forall i :: 0 <= i < |s| ==> IsDigit(s[i])
  {
    if s == "" then 0 else Digit(s[0]) * Pow10(|s| - 1) + Value(s[1..])
  }

  lemma {:induction false} ScaleMonotone(m: nat, n: nat, p: nat)
    requires m < n
    ensures m * p + p <= n * p
  {
    assert n * p == (n - m - 1) * p + m * p + p;
  }

  lemma {:induction false} ValueBounds(s: string)
    requires forall i :: 0 <= i < |s| ==> IsDigit(s[i])
    ensures Value(s) < Pow10(|s|)
    ensures s != "" && s[0] != '0' ==> Value(s) >= Pow10(|s| - 1)
  {
    if s != "" {
      ValueBounds(s[1..]);
      ScaleMonotone(Digit(s[0]), 10, Pow10(|s| - 1));
      if s[0] != '0' { ScaleMonotone(0, Digit(s[0]), Pow10(|s| - 1)); }
    }
  }

  lemma {:induction false} TrimKeepsValue(s: string)
    requires forall i :: 0 <= i < |s| ==> IsDigit(s[i])
    ensures forall i :: 0 <= i < |TrimZeros(s)| ==> IsDigit(TrimZeros(s)[i])
    ensures Value(TrimZeros(s)) == Value(s)
  {
    if s != "" && s[0] == '0' {
      TrimKeepsValue(s[1..]);
    }
  }

  /** Among digit strings of one length, text order is number order. */
  lemma {:induction false} EqualLengthValue(a: string, b: string)
    requires |a| == |b|
    requires forall i :: 0 <= i < |a| ==> IsDigit(a[i]) && IsDigit(b[i])
    ensures CompareText(a, b) < 0 ==> Value(a) < Value(b)
    ensures CompareText(a, b) > 0 ==> Value(a) > Value(b)
  {
    if a != "" {
      if a[0] == b[0] {
        EqualLengthValue(a[1..], b[1..]);
      } else if a[0] < b[0] {
        LeadingDigitDecides(a, b);
      } else {
        LeadingDigitDecides(b, a);
      }
    }
  }

  lemma {:induction false} LeadingDigitDecides(a: string, b: string)
    requires |a| == |b| && a != ""
    requires forall i :: 0 <= i < |a| ==> IsDigit(a[i]) && IsDigit(b[i])
    requires a[0] < b[0]
    ensures Value(a) < Value(b)
  {
    ValueBounds(a[1..]);
    ScaleMonotone(Digit(a[0]), Digit(b[0]), Pow10(|a| - 1));
  }

  lemma {:induction false} Pow10Monotone(m: nat, n: nat)
    requires m <= n
    ensures Pow10(m) <= Pow10(n)
  {
    if m < n { Pow10Monotone(m, n - 1); }
  }

  lemma {:induction false} ShorterIsSmaller(a: string, b: string)
    requires forall i :: 0 <= i < |a| ==> IsDigit(a[i])
    requires forall i :: 0 <= i < |b| ==> IsDigit(b[i])
    requires |a| < |b| && b[0] != '0'
    ensures Value(a) < Value(b)
  {
    ValueBounds(a);
    ValueBounds(b);
    Pow10Monotone(|a|, |b| - 1);
  }

  /** CompareNumbers agrees with the decimal values, whatever the lengths and the
      leading zeros, and breaks a tie of values by text. */
  lemma {:induction false} NumbersAgreeWithValues(a: string, b: string)
    requires IsDigits(a) && IsDigits(b)
    ensures Value(a) < Value(b) ==> CompareNumbers(a, b) == -1
    ensures Value(a) > Value(b) ==> CompareNumbers(a, b) == 1
    ensures Value(a) == Value(b) ==> CompareNumbers(a, b) == CompareText(a, b)
    ensures CompareNumbers(a, b) == 0 <==> a == b
  {
    var na, nb := TrimZeros(a), TrimZeros(b);
    TrimKeepsValue(a);
    TrimKeepsValue(b);
    TextZero(a, b);
    TextZero(na, nb);
    if |na| < |nb| {
      ShorterIsSmaller(na, nb);
    } else if |nb| < |na| {
      ShorterIsSmaller(nb, na);
    } else {
      EqualLengthValue(na, nb);
    }
  }

  lemma {:induction false} NumbersAntisymmetric(a: string, b: string)
    ensures CompareNumbers(a, b) == -CompareNumbers(b, a)
  {
    TextAntisymmetric(TrimZeros(a), TrimZeros(b));
    TextAntisymmetric(a, b);
  }

  lemma {:induction false} NumbersTransitive(a: string, b: string, c: string)
    requires IsDigits(a) && IsDigits(b) && IsDigits(c)
    requires CompareNumbers(a, b) < 0 && CompareNumbers(b, c) < 0
    ensures CompareNumbers(a, c) < 0
  {
    NumbersAgreeWithValues(a, b);
    NumbersAgreeWithValues(b, c);
    NumbersAgreeWithValues(a, c);
    if Value(a) == Value(b) == Value(c) {
      TextTransitive(a, b, c);
    }
  }

  // ---- chunk order

  lemma {:induction false} ChunksZero(a: string, b: string)
    requires IsChunk(a) && IsChunk(b)
    ensures CompareChunks(a, b) == 0 <==> a == b
  {
    if IsDigits(a) && IsDigits(b) { NumbersAgreeWithValues(a, b); } else { TextZero(a, b); }
  }

  lemma {:induction false} ChunksAntisymmetric(a: string, b: string)
    ensures CompareChunks(a, b) == -CompareChunks(b, a)
  {
    NumbersAntisymmetric(a, b);
    TextAntisymmetric(a, b);
  }

  /** A chunk of text lies below every number or above every number, which is what
      carries transitivity across mixed chunks. */
  lemma {:induction false} ChunksTransitive(a: string, b: string, c: string)
    requires IsChunk(a) && IsChunk(b) && IsChunk(c)
    requires CompareChunks(a, b) < 0 && CompareChunks(b, c) < 0
    ensures CompareChunks(a, c) < 0
  {
    var da, db, dc := IsDigit(a[0]), IsDigit(b[0]), IsDigit(c[0]);
    assert IsDigits(a) == da && IsDigits(b) == db && IsDigits(c) == dc;
    if da && db && dc {
      NumbersTransitive(a, b, c);
    } else if !(da && db) && !(db && dc) && !(da && dc) {
      TextTransitive(a, b, c);
    }
  }

  // ---- names

  lemma {:induction false} CompareZero(a: string, b: string)
    ensures Compare(a, b) == 0 <==> a == b
    decreases |a|
  {
    if a != "" && b != "" {
      ChunksZero(Head(a), Head(b));
      if Head(a) == Head(b) {
        CompareZero(Rest(a), Rest(b));
      }
    }
  }

  lemma {:induction false} CompareAntisymmetric(a: string, b: string)
    ensures Compare(a, b) == -Compare(b, a)
    decreases |a|
  {
    if a != "" && b != "" {
      ChunksAntisymmetric(Head(a), Head(b));
      CompareAntisymmetric(Rest(a), Rest(b));
    }
  }

  lemma {:induction false} CompareTransitive(a: string, b: string, c: string)
    requires Compare(a, b) < 0 && Compare(b, c) < 0
    ensures Compare(a, c) < 0
    decreases |a|
  {
    if a != "" {
      ChunksZero(Head(a), Head(b));
      ChunksZero(Head(b), Head(c));
      ChunksZero(Head(a), Head(c));
      if Head(a) == Head(b) && Head(b) == Head(c) {
        CompareTransitive(Rest(a), Rest(b), Rest(c));
      } else if Head(a) != Head(b) && Head(b) != Head(c) {
        ChunksTransitive(Head(a), Head(b), Head(c));
      }
    }
  }

  // ---- sorting the pool

  datatype Item<T> = Item(name: string, body: T)

  function ByName<T>(): (Item<T>, Item<T>) -> bool {
    (a: Item<T>, b: Item<T>) => Compare(a.name, b.name) <= 0
  }

  lemma {:induction false} ByNameIsPreorder<T(!new)>()
    ensures Preorder(ByName<T>())
  {
    var le := ByName<T>();
    forall a: Item<T>, b: Item<T>
      ensures le(a, b) || le(b, a)
    {
      CompareAntisymmetric(a.name, b.name);
    }
    forall a: Item<T>, b: Item<T>, c: Item<T> | le(a, b) && le(b, c)
      ensures le(a, c)
    {
      CompareLessEqual(a.name, b.name, c.name);
    }
  }

  lemma {:induction false} CompareLessEqual(a: string, b: string, c: string)
    requires Compare(a, b) <= 0 && Compare(b, c) <= 0
    ensures Compare(a, c) <= 0
  {
    CompareZero(a, b);
    CompareZero(b, c);
    CompareZero(a, c);
    if a != b && b != c { CompareTransitive(a, b, c); }
  }

  ghost predicate DistinctNames<T>(s: seq<Item<T>>) {
    forall i, j :: 0 <= i < j < |s| ==> s[i].name != s[j].name
  }

  /** SortHosts' result is in inventory order, a permutation, and stable: hosts of
      one name keep the order they arrived in. */
  lemma {:induction false} SortHostsCorrect<T(!new)>(s: seq<Item<T>>, name: string)
    ensures Ordered(Sort(s, ByName()), ByName())
    ensures multiset(Sort(s, ByName())) == multiset(s)
    ensures Only(Sort(s, ByName()), (x: Item<T>) => x.name == name) == Only(s, (x: Item<T>) => x.name == name)
  {
    ByNameIsPreorder<T>();
    CompareZero(name, name);
    SortCorrect(s, ByName(), (x: Item<T>) => x.name == name);
  }

  lemma {:induction false} DistinctIsStrict<T>(s: seq<Item<T>>)
    ensures DistinctNames(s) <==> Strict(s, ByName())
  {
    forall i, j | 0 <= i < j < |s|
      ensures s[i].name == s[j].name <==> ByName<T>()(s[i], s[j]) && ByName<T>()(s[j], s[i])
    {
      CompareAntisymmetric(s[i].name, s[j].name);
      CompareZero(s[i].name, s[j].name);
    }
  }

  /** The chunks of a name, in order. */
  function Chunks(s: string): seq<string>
    decreases |s|
  {
    if s == "" then [] else [Head(s)] + Chunks(Rest(s))
  }

  /** x comes before y: two numbers by their values and then as text, anything else as
      text. */
  predicate ChunkBefore(x: string, y: string) {
    if IsDigits(x) && IsDigits(y) && Value(x) != Value(y) then Value(x) < Value(y) else TextBefore(x, y)
  }

  lemma {:induction false} ChunkMeans(x: string, y: string)
    ensures CompareChunks(x, y) < 0 <==> ChunkBefore(x, y)
  {
    TextMeans(x, y);
    if IsDigits(x) && IsDigits(y) { NumbersAgreeWithValues(x, y); }
  }

  lemma {:induction false} ChunksStep(a: string)
    requires a != ""
    ensures |Chunks(a)| == |Chunks(Rest(a))| + 1 && Chunks(a)[0] == Head(a) && Chunks(a)[1..] == Chunks(Rest(a))
  {
  }

  lemma {:induction false} SharedTail(s: seq<string>, t: seq<string>, j: nat)
    requires 0 < j <= |s| && j <= |t| && s[..j] == t[..j]
    ensures s[0] == t[0] && s[1..][..j - 1] == t[1..][..j - 1]
  {
    assert s[..j][0] == s[0] && t[..j][0] == t[0];
    assert s[..j][1..] == s[1..][..j - 1] && t[..j][1..] == t[1..][..j - 1];
  }

  /** The first chunks decide if they differ; if not, the rests do. */
  lemma {:induction false} CompareStep(a: string, b: string)
    requires a != "" && b != ""
    ensures Head(a) != Head(b) ==> (Compare(a, b) < 0 <==> ChunkBefore(Head(a), Head(b)))
    ensures Head(a) == Head(b) ==> Compare(a, b) == Compare(Rest(a), Rest(b))
  {
    ChunksZero(Head(a), Head(b));
    ChunkMeans(Head(a), Head(b));
  }

  /** What the order is, in terms of chunks, numbers and characters: a name whose chunks
      ran out comes first; otherwise the first chunks that differ decide. */
  lemma {:induction false} CompareMeans(a: string, b: string, j: nat)
    requires j <= |Chunks(a)| && j <= |Chunks(b)| && Chunks(a)[..j] == Chunks(b)[..j]
    ensures j == |Chunks(a)| && j < |Chunks(b)| ==> Compare(a, b) < 0
    ensures j == |Chunks(b)| && j < |Chunks(a)| ==> Compare(a, b) > 0
    ensures j < |Chunks(a)| && j < |Chunks(b)| && Chunks(a)[j] != Chunks(b)[j] ==>
              (Compare(a, b) < 0 <==> ChunkBefore(Chunks(a)[j], Chunks(b)[j]))
    decreases j
  {
    if a == "" || b == "" {
      if a != "" { ChunksStep(a); }
      if b != "" { ChunksStep(b); }
    } else {
      ChunksStep(a);
      ChunksStep(b);
      CompareStep(a, b);
      if j > 0 {
        SharedTail(Chunks(a), Chunks(b), j);
        CompareMeans(Rest(a), Rest(b), j - 1);
      }
    }
  }

  /** Every arrangement of distinctly named hosts sorts to one and the same sequence. */
  lemma {:induction false} SortHostsIsCanonical<T(!new)>(s: seq<Item<T>>, t: seq<Item<T>>)
    requires DistinctNames(s) && multiset(s) == multiset(t)
    ensures Sort(s, ByName()) == Sort(t, ByName())
  {
    ByNameIsPreorder<T>();
    DistinctIsStrict(s);
    SortIsCanonical(s, t, ByName());
  }

  method SortHosts<T>(hosts: array<Item<T>>)
    modifies hosts
    ensures hosts[..] == Sort(old(hosts[..]), ByName())
  {
    SliceStable(hosts, ByName());
  }
}
