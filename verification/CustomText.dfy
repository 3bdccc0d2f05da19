/** The text form of custom variables, `k:<key>,s:<string>` or `k:<key>,n:<8 raw bytes>` joined by
    commas: what is printed, how long it is, and what parsing it yields. A `char` stands for a byte. */
module CustomText {
  import opened MapSums

  // ---------------------------------------------------------------- state

  datatype Custom = Custom(strs: map<string, string>, nums: map<string, int>, len: int)

  const EMPTY := Custom(map[], map[], 0)

  /** Contains neither separator. */
  predicate Plain(s: string) { ':' !in s && ',' !in s }

  function StrSize(k: string, v: string): nat { |k| + 3 + |v| + 2 }
  function NumSize(k: string): nat { |k| + 3 + 8 + 2 }

  function DeleteStr(c: Custom, k: string): Custom {
    if k !in c.strs then c
    else
      var len := c.len - StrSize(k, c.strs[k]);
      Custom(c.strs - {k}, c.nums, if len != 0 then len - 1 else len)
  }

  function DeleteNum(c: Custom, k: string): Custom {
    if k !in c.nums then c
    else
      var len := c.len - NumSize(k);
      Custom(c.strs, c.nums - {k}, if len != 0 then len - 1 else len)
  }

  predicate StrOk(k: string, v: string) { k != "" && Plain(k) && Plain(v) && v != "" }
  predicate NumOk(k: string, n: int) { k != "" && Plain(k) && n != 0 }

  function AddStr(c: Custom, k: string, v: string): Custom {
    if !StrOk(k, v) then c
    else
      var d := DeleteStr(c, k);
      Custom(d.strs[k := v], d.nums, (if d.len != 0 then d.len + 1 else d.len) + StrSize(k, v))
  }

  function AddNum(c: Custom, k: string, n: int): Custom {
    if !NumOk(k, n) then c
    else
      var d := DeleteNum(c, k);
      Custom(d.strs, d.nums[k := n], (if d.len != 0 then d.len + 1 else d.len) + NumSize(k))
  }

  // ---------------------------------------------------------------- printing

  /** The eight raw bytes of a `uint64_t`, least significant first. */
  function Raw(n: int, width: nat): (s: string)
    ensures |s| == width
    decreases width
  {
    if width == 0 then "" else [(n % 256) as char] + Raw(n / 256, width - 1)
  }

  function StrEntry(k: string, v: string): (s: string)
    ensures |s| == StrSize(k, v)
  {
    "k:" + k + "," + "s:" + v
  }

  function NumEntry(k: string, n: int): (s: string)
    ensures |s| == NumSize(k)
  {
    "k:" + k + "," + "n:" + Raw(n, 8)
  }

  /** A comma before every entry but the first of the text. */
  function Joined(text: string, entry: string): string {
    if text == "" then entry else text + "," + entry
  }

  /** The text after the first `i` string entries, in the order `ks`. */
  function StrText(ks: seq<string>, m: map<string, string>, i: nat): string
    requires i <= |ks| && forall k <- ks :: k in m
  {
    if i == 0 then "" else Joined(StrText(ks, m, i - 1), StrEntry(ks[i - 1], m[ks[i - 1]]))
  }

  function NumText(text: string, ks: seq<string>, m: map<string, int>, i: nat): string
    requires i <= |ks| && forall k <- ks :: k in m
  {
    if i == 0 then text else Joined(NumText(text, ks, m, i - 1), NumEntry(ks[i - 1], m[ks[i - 1]]))
  }

  function Text(c: Custom, ks: seq<string>, ns: seq<string>): string
    requires (forall k <- ks :: k in c.strs) && (forall k <- ns :: k in c.nums)
  {
    NumText(StrText(ks, c.strs, |ks|), ns, c.nums, |ns|)
  }

  // ---------------------------------------------------------------- the cached length

  /** The entry sizes, per key. */
  function StrSizes(m: map<string, string>): map<string, int> { map k | k in m :: StrSize(k, m[k]) }
  function NumSizes(m: map<string, int>): map<string, int> { map k | k in m :: NumSize(k) }

  /** The size of the printed text: entries and the commas between them. */
  ghost function TextSize(c: Custom): int {
    var n := |c.strs| + |c.nums|;
    Sum(StrSizes(c.strs)) + Sum(NumSizes(c.nums)) + if n == 0 then 0 else n - 1
  }

  /** The cached length is the size of the text. */
  ghost predicate Exact(c: Custom) { c.len == TextSize(c) }

  /** Only an empty object has length zero: the test the code uses to place commas. */
  lemma ZeroMeansEmpty(c: Custom)
    ensures TextSize(c) == 0 <==> |c.strs| + |c.nums| == 0
    ensures TextSize(c) >= 0
  {
    SumPositive(StrSizes(c.strs));
    SumPositive(NumSizes(c.nums));
    assert StrSizes(c.strs).Keys == c.strs.Keys && NumSizes(c.nums).Keys == c.nums.Keys;
  }

  lemma DeleteStrExact(c: Custom, k: string)
    requires Exact(c)
    ensures Exact(DeleteStr(c, k))
  {
    hide Sum;
    if k in c.strs {
      SumWithout(StrSizes(c.strs), k);
      assert StrSizes(c.strs - {k}) == StrSizes(c.strs) - {k};
      ZeroMeansEmpty(DeleteStr(c, k));
    }
  }

  lemma DeleteNumExact(c: Custom, k: string)
    requires Exact(c)
    ensures Exact(DeleteNum(c, k))
  {
    hide Sum;
    if k in c.nums {
      SumWithout(NumSizes(c.nums), k);
      assert NumSizes(c.nums - {k}) == NumSizes(c.nums) - {k};
      ZeroMeansEmpty(DeleteNum(c, k));
    }
  }

  lemma AddStrExact(c: Custom, k: string, v: string)
    requires Exact(c)
    ensures Exact(AddStr(c, k, v))
  {
    hide Plain, Sum;
    if StrOk(k, v) {
      DeleteStrExact(c, k);
      var d := DeleteStr(c, k);
      ZeroMeansEmpty(d);
      var m := StrSizes(d.strs[k := v]);
      SumWithout(m, k);
      assert m - {k} == StrSizes(d.strs);
    }
  }

  lemma AddNumExact(c: Custom, k: string, n: int)
    requires Exact(c)
    ensures Exact(AddNum(c, k, n))
  {
    hide Plain, Sum;
    if NumOk(k, n) {
      DeleteNumExact(c, k);
      var d := DeleteNum(c, k);
      ZeroMeansEmpty(d);
      var m := NumSizes(d.nums[k := n]);
      SumWithout(m, k);
      assert m - {k} == NumSizes(d.nums);
    }
  }

  datatype Op =
    | OpAddStr(key: string, str: string)
    | OpAddNum(key: string, num: int)
    | OpDeleteStr(key: string)
    | OpDeleteNum(key: string)

  function Run(c: Custom, ops: seq<Op>): Custom
    decreases |ops|
  {
    if ops == [] then c
    else
      var before := Run(c, ops[..|ops| - 1]);
      match ops[|ops| - 1]
      case OpAddStr(k, v) => AddStr(before, k, v)
      case OpAddNum(k, n) => AddNum(before, k, n)
      case OpDeleteStr(k) => DeleteStr(before, k)
      case OpDeleteNum(k) => DeleteNum(before, k)
  }

  lemma {:induction false} RunExact(c: Custom, ops: seq<Op>)
    requires Exact(c)
    ensures Exact(Run(c, ops))
    decreases |ops|
  {
    if ops != [] {
      var before := Run(c, ops[..|ops| - 1]);
      RunExact(c, ops[..|ops| - 1]);
      match ops[|ops| - 1]
      case OpAddStr(k, v) => AddStrExact(before, k, v);
      case OpAddNum(k, n) => AddNumExact(before, k, n);
      case OpDeleteStr(k) => DeleteStrExact(before, k);
      case OpDeleteNum(k) => DeleteNumExact(before, k);
    }
  }

  lemma {:induction false} StrTextSize(ks: seq<string>, m: map<string, string>, i: nat)
    requires i <= |ks| && forall k <- ks :: k in m
    ensures |StrText(ks, m, i)| == SumOver(ks, StrSizes(m), i) + if i == 0 then 0 else i - 1
    ensures StrText(ks, m, i) == "" <==> i == 0
  {
    if i > 0 {
      StrTextSize(ks, m, i - 1);
      assert ks[i - 1] in ks;
    }
  }

  lemma {:induction false} NumTextSize(text: string, ks: seq<string>, m: map<string, int>, i: nat)
    requires i <= |ks| && forall k <- ks :: k in m
    ensures |NumText(text, ks, m, i)|
         == |text| + SumOver(ks, NumSizes(m), i) + if text == "" && i > 0 then i - 1 else i
    ensures NumText(text, ks, m, i) == "" <==> text == "" && i == 0
  {
    if i > 0 {
      NumTextSize(text, ks, m, i - 1);
      assert ks[i - 1] in ks;
      hide NumEntry;
      assert NumSizes(m)[ks[i - 1]] == NumSize(ks[i - 1]);
    }
  }

  /** The printed size does not depend on the order in which either map is traversed. */
  lemma TextHasTextSize(c: Custom, ks: seq<string>, ns: seq<string>)
    requires Enumerates(ks, c.strs) && Enumerates(ns, c.nums)
    ensures |Text(c, ks, ns)| == TextSize(c)
  {
    hide StrText, NumText, Sum, SumOver, StrSizes, NumSizes, Enumerates;
    SizesKeys(c, ks, ns);
    StrTextSize(ks, c.strs, |ks|);
    NumTextSize(StrText(ks, c.strs, |ks|), ns, c.nums, |ns|);
    SumOverEnumeration(ks, StrSizes(c.strs));
    SumOverEnumeration(ns, NumSizes(c.nums));
    EnumerationLength(ks, c.strs);
    EnumerationLength(ns, c.nums);
  }

  lemma SizesKeys(c: Custom, ks: seq<string>, ns: seq<string>)
    requires Enumerates(ks, c.strs) && Enumerates(ns, c.nums)
    ensures (forall k <- ks :: k in c.strs) && (forall k <- ns :: k in c.nums)
    ensures Enumerates(ks, StrSizes(c.strs)) && Enumerates(ns, NumSizes(c.nums))
    ensures |StrSizes(c.strs)| == |c.strs| && |NumSizes(c.nums)| == |c.nums|
  {
    assert StrSizes(c.strs).Keys == c.strs.Keys && NumSizes(c.nums).Keys == c.nums.Keys;
  }

  /** Cached length theorem: after any operations on an empty object the counter is the length of
      the text, for every traversal order. */
  lemma LengthIsExact(ops: seq<Op>, ks: seq<string>, ns: seq<string>)
    requires Enumerates(ks, Run(EMPTY, ops).strs) && Enumerates(ns, Run(EMPTY, ops).nums)
    ensures Run(EMPTY, ops).len == |Text(Run(EMPTY, ops), ks, ns)|
  {
    assert StrSizes(EMPTY.strs) == map[] && NumSizes(EMPTY.nums) == map[];
    RunExact(EMPTY, ops);
    TextHasTextSize(Run(EMPTY, ops), ks, ns);
  }

  // ---------------------------------------------------------------- what is stored

  datatype Found<T> = Nothing | Just(value: T)

  function Stored<T>(m: map<string, T>, k: string): Found<T> { if k in m then Just(m[k]) else Nothing }

  /** What the last operation that concerns the string under key `k` left there: an addition counts if key
      and text are not empty and contain neither separator. */
  function LastStr(ops: seq<Op>, k: string): Found<string> {
    if ops == [] then Nothing
    else
      var op := ops[|ops| - 1];
      if op.OpAddStr? && op.key == k && k != "" && op.str != ""
         && ':' !in k && ',' !in k && ':' !in op.str && ',' !in op.str then Just(op.str)
      else if op.OpDeleteStr? && op.key == k then Nothing
      else LastStr(ops[..|ops| - 1], k)
  }

  function LastNum(ops: seq<Op>, k: string): Found<int> {
    if ops == [] then Nothing
    else
      var op := ops[|ops| - 1];
      if op.OpAddNum? && op.key == k && k != "" && op.num != 0 && ':' !in k && ',' !in k then Just(op.num)
      else if op.OpDeleteNum? && op.key == k then Nothing
      else LastNum(ops[..|ops| - 1], k)
  }

  /** The last write wins, for strings and numbers independently, in every run. */
  lemma {:induction false} LastWriteWins(ops: seq<Op>, k: string)
    ensures Stored(Run(EMPTY, ops).strs, k) == LastStr(ops, k)
    ensures Stored(Run(EMPTY, ops).nums, k) == LastNum(ops, k)
    decreases |ops|
  {
    if ops != [] {
      LastWriteWins(ops[..|ops| - 1], k);
    }
  }
}
