/** Splitting the text at commas, toggling between keys and values, and the print/parse round trip. */
module CustomParse {
  import opened MapSums
  import opened CustomText

  /** A C string ends at the first NUL. */
  function CStr(s: string): (r: string)
    ensures '\0' !in r && |r| <= |s|
  {
    if s == "" || s[0] == '\0' then "" else [s[0]] + CStr(s[1..])
  }

  lemma CStrWhole(s: string)
    requires '\0' !in s
    ensures CStr(s) == s
  {
  }

  /** The length of the first token of a text that does not start with a comma. */
  function TokenLength(s: string): (n: nat)
    ensures n <= |s| && ',' !in s[..n] && (n < |s| ==> s[n] == ',')
  {
    if s == "" || s[0] == ',' then 0 else 1 + TokenLength(s[1..])
  }

  /** The nonempty pieces between commas. */
  function Tokens(s: string): (ts: seq<string>)
    decreases |s|
  {
    if s == "" then []
    else if s[0] == ',' then Tokens(s[1..])
    else [s[..TokenLength(s)]] + Tokens(s[TokenLength(s)..])
  }

  lemma TokenLengthAppend(a: string, b: string)
    requires a != "" && a[0] != ','
    ensures TokenLength(a + "," + b) == TokenLength(a)
  {
    if |a| > 1 && a[1] != ',' {
      assert (a + "," + b)[1..] == a[1..] + "," + b;
      TokenLengthAppend(a[1..], b);
    } else {
      assert TokenLength(a[1..]) == 0;
      assert (a + "," + b)[1..] == a[1..] + "," + b;
    }
  }

  lemma FirstToken(s: string)
    ensures Tokens(s) == if s == "" then [] else if s[0] == ',' then Tokens(s[1..])
      else [s[..TokenLength(s)]] + Tokens(s[TokenLength(s)..])
  {
  }

  /** Splitting undoes joining: for all texts, not only for printed ones. */
  lemma {:induction false} TokensAppend(a: string, b: string)
    ensures Tokens(a + "," + b) == Tokens(a) + Tokens(b)
    decreases |a|
  {
    hide TokenLength, Tokens;
    var whole := a + "," + b;
    FirstToken(whole);
    FirstToken(a);
    if a == "" {
      assert whole[1..] == b;
    } else if a[0] == ',' {
      assert whole[1..] == a[1..] + "," + b;
      TokensAppend(a[1..], b);
    } else {
      var n := TokenLength(a);
      TokenLengthAppend(a, b);
      assert whole[..n] == a[..n] && whole[n..] == a[n..] + "," + b;
      TokensAppend(a[n..], b);
    }
  }

  lemma TokensSingle(a: string)
    requires a != "" && ',' !in a
    ensures Tokens(a) == [a]
  {
    assert TokenLength(a) == |a|;
    assert a[..|a|] == a;
  }

  /** `custom_get_str`. */
  function GetStr(src: string, prefix: string): string
    requires |prefix| == 2
  {
    if |src| > |prefix| && src[..|prefix|] == prefix then src[2..] else ""
  }

  /** The little-endian value of eight bytes. */
  function FromRaw(s: string): nat {
    if s == "" then 0 else (s[0] as int) + 256 * FromRaw(s[1..])
  }

  /** `custom_get_num`: it copies eight bytes from the C string of the value, however short that is;
      `beyond` stands for whatever lies behind it in memory. */
  function GetNum(src: string, prefix: string, beyond: string): nat
    requires |prefix| == 2 && |beyond| >= 8
  {
    var s := GetStr(src, prefix);
    if s == "" then 0 else FromRaw((s + beyond)[..8])
  }

  /** On a token, which has no NUL, the number is zero exactly when there is no number text. */
  lemma GetNumZero(src: string, prefix: string, beyond: string)
    requires |prefix| == 2 && |beyond| >= 8 && '\0' !in src
    ensures GetNum(src, prefix, beyond) == 0 <==> GetStr(src, prefix) == ""
  {
    var s := GetStr(src, prefix);
    if s != "" {
      assert s[0] == src[2];
      assert (s + beyond)[..8][0] == src[2];
    }
  }

  /** The parser's loop variables after some tokens; `ok` is false once a value follows an empty key. */
  datatype Parsed = Parsed(ok: bool, isKey: bool, key: string, strs: map<string, string>, nums: map<string, int>)

  function Feed(p: Parsed, item: string): Parsed {
    if !p.ok then p
    else if p.isKey then p.(isKey := false, key := GetStr(item, "k:"))
    else if p.key == "" then p.(ok := false)
    else if GetStr(item, "s:") != "" then p.(isKey := true, strs := p.strs[p.key := GetStr(item, "s:")])
    else if GetStr(item, "n:") == "" then p.(isKey := true, nums := p.nums[p.key := 0])
    else p.(isKey := true)
  }

  function FeedAll(p: Parsed, items: seq<string>, i: nat): Parsed
    requires i <= |items|
  {
    if i == 0 then p else Feed(FeedAll(p, items, i - 1), items[i - 1])
  }

  /** `from_data`: the object afterwards, and the result. */
  function Parse(c: Custom, data: string): (Custom, bool) {
    var items := Tokens(CStr(data));
    if |items| % 2 != 0 then (c, false)
    else
      var p := FeedAll(Parsed(true, true, "", c.strs, c.nums), items, |items|);
      (Custom(p.strs, p.nums, if p.ok && |p.strs| + |p.nums| > 0 then |data| else c.len), p.ok)
  }

  // ---------------------------------------------------------------- round trip

  ghost predicate NulFree(m: map<string, string>) {
    forall k <- m :: '\0' !in k && '\0' !in m[k]
  }

  /** What `add_custom` lets into the string map, and no NUL. */
  ghost predicate Storable(m: map<string, string>) {
    NulFree(m) && forall k <- m :: StrOk(k, m[k])
  }

  lemma EntryTokens(k: string, v: string)
    requires StrOk(k, v)
    ensures Tokens(StrEntry(k, v)) == ["k:" + k, "s:" + v]
  {
    assert StrEntry(k, v) == ("k:" + k) + "," + ("s:" + v);
    TokensAppend("k:" + k, "s:" + v);
    TokensSingle("k:" + k);
    TokensSingle("s:" + v);
  }

  /** The tokens of the first `i` printed entries. */
  function Pairs(ks: seq<string>, m: map<string, string>, i: nat): (ts: seq<string>)
    requires i <= |ks| && forall k <- ks :: k in m
    ensures |ts| == 2 * i
  {
    if i == 0 then [] else Pairs(ks, m, i - 1) + ["k:" + ks[i - 1], "s:" + m[ks[i - 1]]]
  }

  lemma {:induction false} TextTokens(ks: seq<string>, m: map<string, string>, i: nat)
    requires i <= |ks| && (forall k <- ks :: k in m) && Storable(m)
    ensures Tokens(StrText(ks, m, i)) == Pairs(ks, m, i)
    ensures '\0' !in StrText(ks, m, i)
  {
    hide TokenLength;
    if i > 0 {
      var k := ks[i - 1];
      assert k in ks;
      TextTokens(ks, m, i - 1);
      EntryTokens(k, m[k]);
      StrTextSize(ks, m, i - 1);
      TokensAppend(StrText(ks, m, i - 1), StrEntry(k, m[k]));
    }
  }

  /** The map the parser has built after `i` pairs. */
  function Collected(ks: seq<string>, m: map<string, string>, i: nat): map<string, string>
    requires i <= |ks| && forall k <- ks :: k in m
  {
    if i == 0 then map[] else Collected(ks, m, i - 1)[ks[i - 1] := m[ks[i - 1]]]
  }

  lemma FeedPair(p: Parsed, k: string, v: string)
    requires p.ok && p.isKey && k != "" && v != ""
    ensures Feed(Feed(p, "k:" + k), "s:" + v) == Parsed(true, true, k, p.strs[k := v], p.nums)
  {
    assert ("k:" + k)[..2] == "k:" && ("k:" + k)[2..] == k;
    assert ("s:" + v)[..2] == "s:" && ("s:" + v)[2..] == v;
  }

  lemma FeedPrefix(p: Parsed, items: seq<string>, more: seq<string>, i: nat)
    requires i <= |items|
    ensures FeedAll(p, items + more, i) == FeedAll(p, items, i)
  {
  }

  lemma {:induction false} FeedPairs(ks: seq<string>, m: map<string, string>, i: nat)
    requires i <= |ks| && (forall k <- ks :: k in m) && Storable(m)
    ensures var p := FeedAll(Parsed(true, true, "", map[], map[]), Pairs(ks, m, i), 2 * i);
      p.ok && p.isKey && p.strs == Collected(ks, m, i) && p.nums == map[]
  {
    if i > 0 {
      hide Feed;
      var k, start := ks[i - 1], Parsed(true, true, "", map[], map[]);
      assert k in ks;
      FeedPairs(ks, m, i - 1);
      var before := Pairs(ks, m, i - 1);
      FeedPair(FeedAll(start, before, 2 * (i - 1)), k, m[k]);
      FeedTwo(start, before, "k:" + k, "s:" + m[k]);
    }
  }

  lemma FeedTwo(start: Parsed, before: seq<string>, a: string, b: string)
    ensures FeedAll(start, before + [a, b], |before| + 2) == Feed(Feed(FeedAll(start, before, |before|), a), b)
  {
    hide Feed;
    var items, n := before + [a, b], |before|;
    FeedPrefix(start, before, [a, b], n);
    assert FeedAll(start, items, n + 1) == Feed(FeedAll(start, items, n), items[n]);
  }

  lemma CollectedAll(ks: seq<string>, m: map<string, string>, i: nat)
    requires i <= |ks| && forall k <- ks :: k in m
    ensures forall k :: k in Collected(ks, m, i) <==> k in ks[..i]
    ensures forall k <- Collected(ks, m, i) :: k in m && Collected(ks, m, i)[k] == m[k]
  {
    if i > 0 {
      CollectedAll(ks, m, i - 1);
      assert ks[..i] == ks[..i - 1] + [ks[i - 1]];
      assert ks[i - 1] in ks;
    }
  }

  /** Round trip: parsing the text of a string map into a fresh object gives the same map, no
      numbers, and the length of the text, whatever order the map was printed in. */
  lemma PrintParse(m: map<string, string>, ks: seq<string>)
    requires Storable(m) && Enumerates(ks, m)
    ensures var text := StrText(ks, m, |ks|);
      Parse(EMPTY, text) == (Custom(m, map[], |text|), true)
  {
    hide StrText, Tokens, CStr, FeedAll, Pairs;
    var n, text := |ks|, StrText(ks, m, |ks|);
    TextTokens(ks, m, n);
    CStrWhole(text);
    FeedPairs(ks, m, n);
    CollectedAll(ks, m, n);
    assert ks[..n] == ks;
    assert Collected(ks, m, n) == m;
    StrTextSize(ks, m, n);
    if n == 0 {
      assert m == map[];
    } else {
      assert ks[0] in m;
    }
  }

  // ---------------------------------------------------------------- round trip over runs

  /** `add_custom` keeps empty strings, separators and zeros out. */
  lemma {:induction false} RunStored(ops: seq<Op>)
    ensures forall k <- Run(EMPTY, ops).strs :: StrOk(k, Run(EMPTY, ops).strs[k])
    ensures forall k <- Run(EMPTY, ops).nums :: Run(EMPTY, ops).nums[k] != 0
    decreases |ops|
  {
    if ops != [] {
      RunStored(ops[..|ops| - 1]);
    }
  }

  lemma {:induction false} TokensWithin(s: string, c: char)
    requires c !in s
    ensures forall t <- Tokens(s) :: c !in t
    decreases |s|
  {
    if s != "" {
      if s[0] == ',' {
        TokensWithin(s[1..], c);
      } else {
        TokensWithin(s[TokenLength(s)..], c);
      }
    }
  }

  lemma {:induction false} FedNumbersAreZero(p: Parsed, items: seq<string>, i: nat)
    requires i <= |items| && forall k <- p.nums :: p.nums[k] == 0
    ensures forall k <- FeedAll(p, items, i).nums :: FeedAll(p, items, i).nums[k] == 0
  {
    if i > 0 {
      FedNumbersAreZero(p, items, i - 1);
    }
  }

  /** A C string ends before its first NUL, so no parsed key or string holds one. */
  lemma {:induction false} FedStringsAreNulFree(p: Parsed, items: seq<string>, i: nat)
    requires i <= |items| && NulFree(p.strs) && '\0' !in p.key && forall t <- items :: '\0' !in t
    ensures NulFree(FeedAll(p, items, i).strs) && '\0' !in FeedAll(p, items, i).key
  {
    if i > 0 {
      FedStringsAreNulFree(p, items, i - 1);
      assert items[i - 1] in items;
    }
  }

  /** Whatever was added, overwritten or deleted before, printing and parsing into a fresh object
      gives back the same maps and the same `length()` exactly when no number is stored and no stored
      string holds a NUL: the parser keeps a number only when it is 0, which `add_custom` refuses. */
  lemma RunRoundTrip(ops: seq<Op>, ks: seq<string>, ns: seq<string>)
    requires Enumerates(ks, Run(EMPTY, ops).strs) && Enumerates(ns, Run(EMPTY, ops).nums)
    ensures var c := Run(EMPTY, ops);
      Parse(EMPTY, Text(c, ks, ns)) == (c, true) <==> c.nums == map[] && NulFree(c.strs)
  {
    hide Run, Text, CStr, Tokens, FeedAll, NulFree;
    var c := Run(EMPTY, ops);
    RunStored(ops);
    LengthIsExact(ops, ks, ns);
    var text := Text(c, ks, ns);
    ParsedFacts(text);
    if c.nums != map[] {
      var k :| k in c.nums;
      assert c.nums[k] != 0;
    } else if NulFree(c.strs) {
      NoNumbersText(c, ks, ns);
      PrintParse(c.strs, ks);
    }
  }

  lemma ParsedFacts(text: string)
    ensures var c := Parse(EMPTY, text).0; NulFree(c.strs) && forall k <- c.nums :: c.nums[k] == 0
  {
    hide CStr, Tokens, FeedAll;
    var items, start := Tokens(CStr(text)), Parsed(true, true, "", map[], map[]);
    TokensWithin(CStr(text), '\0');
    FedNumbersAreZero(start, items, |items|);
    FedStringsAreNulFree(start, items, |items|);
  }

  lemma NoNumbersText(c: Custom, ks: seq<string>, ns: seq<string>)
    requires Enumerates(ks, c.strs) && Enumerates(ns, c.nums) && c.nums == map[]
    ensures (forall k <- ks :: k in c.strs) && (forall k <- ns :: k in c.nums)
    ensures Text(c, ks, ns) == StrText(ks, c.strs, |ks|)
  {
    EnumerationLength(ns, c.nums);
  }

  lemma CStrCut(a: string, rest: string)
    requires '\0' !in a
    ensures CStr(a + ['\0'] + rest) == a
  {
    if a != "" {
      assert (a + ['\0'] + rest)[1..] == a[1..] + ['\0'] + rest;
      CStrCut(a[1..], rest);
    }
  }

  lemma NumberTokens(k: string, n: int)
    requires NumOk(k, n) && '\0' !in k && 0 < n < 256 && n != ',' as int
    ensures Tokens(CStr(NumEntry(k, n))) == ["k:" + k, "n:" + [n as char]]
  {
    hide Raw, Tokens, CStr;
    var key, val := "k:" + k, "n:" + [n as char];
    RawHead(n);
    assert NumEntry(k, n) == (key + "," + val) + ['\0'] + Raw(0, 6);
    CStrCut(key + "," + val, Raw(0, 6));
    TokensAppend(key, val);
    TokensSingle(key);
    TokensSingle(val);
  }

  lemma FeedNumber(p: Parsed, k: string, v: string)
    requires p.ok && p.isKey && k != "" && v != ""
    ensures Feed(Feed(p, "k:" + k), "n:" + v) == p.(key := k)
  {
    assert ("k:" + k)[..2] == "k:" && ("k:" + k)[2..] == k;
    assert ("n:" + v)[..2] == "n:" && ("n:" + v)[2..] == v;
  }

  /** The round trip fails for numbers: a one-byte number is printed but not read back. */
  lemma NumbersAreLost(k: string, n: int)
    requires NumOk(k, n) && '\0' !in k && 0 < n < 256 && n != ',' as int
    ensures Parse(EMPTY, NumEntry(k, n)) == (EMPTY, true)
    ensures AddNum(EMPTY, k, n) != EMPTY
  {
    hide Tokens, CStr, NumEntry, Feed, GetStr;
    NumberTokens(k, n);
    var p := Parsed(true, true, "", map[], map[]);
    FeedNumber(p, k, [n as char]);
    var items := ["k:" + k, "n:" + [n as char]];
    assert FeedAll(p, items, 1) == Feed(p, items[0]);
    assert FeedAll(p, items, 2) == Feed(Feed(p, items[0]), items[1]);
  }

  lemma RawHead(n: int)
    requires 0 < n < 256
    ensures Raw(n, 8) == [n as char] + ['\0'] + Raw(0, 6)
  {
    assert n % 256 == n && n / 256 == 0;
    RawStep(n, 8);
    RawStep(0, 7);
    hide Raw;
  }

  lemma RawStep(n: int, width: nat)
    requires width > 0
    ensures Raw(n, width) == [(n % 256) as char] + Raw(n / 256, width - 1)
  {
  }

  // ---------------------------------------------------------------- what is accepted, and what is read

  /** The prefix and something behind it. */
  predicate Tagged(item: string, tag: string)
    requires |tag| == 2
  {
    |item| > 2 && item[..2] == tag
  }

  /** The string map after the first `n` pairs of tokens: a value tagged as a string goes under its key. */
  function StrsOf(items: seq<string>, n: nat, strs: map<string, string>): map<string, string>
    requires 2 * n <= |items| && forall i :: 0 <= i < n ==> Tagged(items[2 * i], "k:")
  {
    if n == 0 then strs
    else
      assert Tagged(items[2 * (n - 1)], "k:");
      var before, key, value := StrsOf(items, n - 1, strs), items[2 * n - 2][2..], items[2 * n - 1];
      if Tagged(value, "s:") then before[key := value[2..]] else before
  }

  /** The number map: a value tagged neither as a string nor as a number puts 0 under its key. */
  function NumsOf(items: seq<string>, n: nat, nums: map<string, int>): map<string, int>
    requires 2 * n <= |items| && forall i :: 0 <= i < n ==> Tagged(items[2 * i], "k:")
  {
    if n == 0 then nums
    else
      assert Tagged(items[2 * (n - 1)], "k:");
      var before, key, value := NumsOf(items, n - 1, nums), items[2 * n - 2][2..], items[2 * n - 1];
      if Tagged(value, "s:") || Tagged(value, "n:") then before else before[key := 0]
  }

  lemma GetStrTagged(item: string, tag: string)
    requires |tag| == 2
    ensures GetStr(item, tag) == if Tagged(item, tag) then item[2..] else ""
    ensures Tagged(item, tag) ==> item[2..] != ""
  {
  }

  lemma {:induction false} FeedByPairs(items: seq<string>, n: nat, strs: map<string, string>, nums: map<string, int>)
    requires 2 * n <= |items|
    ensures var p := FeedAll(Parsed(true, true, "", strs, nums), items, 2 * n);
      (p.ok <==> forall i :: 0 <= i < n ==> Tagged(items[2 * i], "k:"))
      && (p.ok ==> p.isKey && p.strs == StrsOf(items, n, strs) && p.nums == NumsOf(items, n, nums))
  {
    if n > 0 {
      hide Feed, GetStr, Tagged;
      FeedByPairs(items, n - 1, strs, nums);
      var start := Parsed(true, true, "", strs, nums);
      var p, key, value := FeedAll(start, items, 2 * n - 2), items[2 * n - 2], items[2 * n - 1];
      assert FeedAll(start, items, 2 * n - 1) == Feed(p, key);
      assert FeedAll(start, items, 2 * n) == Feed(Feed(p, key), value);
      FeedOnePair(p, key, value);
    }
  }

  lemma FeedOnePair(p: Parsed, key: string, value: string)
    ensures var q := Feed(Feed(p, key), value);
      (!p.ok ==> !q.ok)
      && (p.ok && p.isKey ==> (q.ok <==> Tagged(key, "k:")))
      && (p.ok && p.isKey && q.ok ==>
        q.isKey
        && q.strs == (if Tagged(value, "s:") then p.strs[key[2..] := value[2..]] else p.strs)
        && q.nums == if Tagged(value, "s:") || Tagged(value, "n:") then p.nums else p.nums[key[2..] := 0])
  {
    GetStrTagged(key, "k:");
    GetStrTagged(value, "s:");
    GetStrTagged(value, "n:");
    hide GetStr, Tagged;
  }

  /** A text is accepted exactly if its tokens come in pairs and every first one is a tagged key; then the
      maps are those of the pairs, in order, and the length is the text's unless nothing is stored. */
  lemma ParseAcceptsExactly(c: Custom, data: string)
    ensures var items := Tokens(CStr(data));
      var n := |items| / 2;
      (Parse(c, data).1 <==> |items| % 2 == 0 && forall i :: 0 <= i < n ==> Tagged(items[2 * i], "k:"))
      && (Parse(c, data).1 ==>
        var after := Parse(c, data).0;
        after.strs == StrsOf(items, n, c.strs) && after.nums == NumsOf(items, n, c.nums)
        && after.len == if |after.strs| + |after.nums| > 0 then |data| else c.len)
  {
    hide Tokens, CStr, FeedAll, Tagged;
    var items := Tokens(CStr(data));
    if |items| % 2 == 0 {
      FeedByPairs(items, |items| / 2, c.strs, c.nums);
    }
  }
}
