/** The `CustomData` class: two maps and the cached length of their text form. */
module CustomDatas {
  import opened Bytes
  import opened MapSums
  import opened CustomText
  import opened CustomParse

  /** `split_str`: repeated `strtok` on the C string. */
  method SplitStr(src: string) returns (vec: seq<string>)
    ensures vec == Tokens(CStr(src))
  {
    var s := CStr(src);
    vec := [];
    var token, rest := Strtok(s);
    while token != ""
      invariant token == "" ==> vec == Tokens(s)
      invariant token != "" ==> vec + [token] + Tokens(rest) == Tokens(s)
      decreases |rest|, |token|
    {
      vec := vec + [token];
      token, rest := Strtok(rest);
    }
  }

  /** One `strtok` call: the next nonempty piece, or nothing. */
  method Strtok(s: string) returns (token: string, rest: string)
    ensures token == "" <==> Tokens(s) == []
    ensures token != "" ==> Tokens(s) == [token] + Tokens(rest) && |rest| < |s|
    ensures token == "" ==> rest == ""
  {
    rest := s;
    while rest != "" && rest[0] == ','
      invariant Tokens(rest) == Tokens(s) && |rest| <= |s|
      decreases |rest|
    {
      rest := rest[1..];
    }
    token := rest[..TokenLength(rest)];
    rest := rest[TokenLength(rest)..];
  }

  class CustomData {
    var strMap: map<string, string>
    var numMap: map<string, int>
    var dataLen: int

    ghost function State(): Custom
      reads this
    {
      Custom(strMap, numMap, dataLen)
    }

    constructor ()
      ensures State() == EMPTY
    {
      strMap, numMap, dataLen := map[], map[], 0;
    }

    method AddCustomStr(key: string, str: string) returns (ok: bool)
      modifies this
      ensures ok == StrOk(key, str) && State() == AddStr(old(State()), key, str)
    {
      if key == "" {
        return false;
      }
      if ':' in key || ',' in key {
        return false;
      }
      if ':' in str || ',' in str || str == "" {
        return false;
      }
      if key in strMap {
        DeleteCustomStr(key);
      }
      strMap := strMap[key := str];
      if dataLen != 0 {
        dataLen := dataLen + 1;
      }
      dataLen := dataLen + |key| + 3;
      dataLen := dataLen + |str| + 2;
      return true;
    }

    method AddCustomNum(key: string, num: int) returns (ok: bool)
      modifies this
      ensures ok == NumOk(key, num) && State() == AddNum(old(State()), key, num)
    {
      if key == "" {
        return false;
      }
      if ':' in key || ',' in key {
        return false;
      }
      if num == 0 {
        return false;
      }
      if key in numMap {
        DeleteCustomNum(key);
      }
      numMap := numMap[key := num];
      if dataLen != 0 {
        dataLen := dataLen + 1;
      }
      dataLen := dataLen + |key| + 3;
      dataLen := dataLen + 8 + 2;
      return true;
    }

    method DeleteCustomStr(key: string)
      modifies this
      ensures State() == DeleteStr(old(State()), key)
    {
      if key in strMap {
        dataLen := dataLen - (|key| + 3);
        dataLen := dataLen - (|strMap[key]| + 2);
        if dataLen != 0 {
          dataLen := dataLen - 1;
        }
        strMap := strMap - {key};
      }
    }

    method DeleteCustomNum(key: string)
      modifies this
      ensures State() == DeleteNum(old(State()), key)
    {
      if key in numMap {
        dataLen := dataLen - (|key| + 3);
        dataLen := dataLen - (8 + 2);
        if dataLen != 0 {
          dataLen := dataLen - 1;
        }
        numMap := numMap - {key};
      }
    }

    /** `to_data`, with the traversal orders of the two maps as parameters. While the cached length is
        exact, the mismatch branch is never taken and a buffer of `length()` bytes always suffices. */
    method ToData(data: array<char>, at: nat, len: nat, ks: seq<string>, ns: seq<string>) returns (index: nat)
      requires at + len <= data.Length
      requires Enumerates(ks, strMap) && Enumerates(ns, numMap)
      modifies data
      ensures var text := Text(State(), ks, ns);
        index == if dataLen == |text| <= len then |text| else 0
      ensures index != 0 ==> data[..] == Splice(old(data[..]), at, Text(State(), ks, ns))
      ensures data[..at] == old(data[..at]) && data[at + len..] == old(data[at + len..])
      ensures Exact(State()) && dataLen <= len ==> index == dataLen == |Text(State(), ks, ns)|
    {
      if Exact(State()) {
        TextHasTextSize(State(), ks, ns);
      }
      hide StrText, NumText, Exact, Splice;
      ghost var was := data[..];
      index := 0;
      if len < dataLen {
        return;
      }
      var str := StrPart(ks);
      NumTextGrows(str, ns, numMap, 0, |ns|);
      NumTextStart(str, ns, numMap);
      if len < |str| {
        return;
      }
      Store(data, at, str);
      index := NumPart(data, at, len, str, ns, was);
      ghost var b :| |b| <= len && data[..] == Splice(was, at, b);
      SpliceFrame(was, at, b, len);
      assert data[..at] == data[..][..at] && data[at + len..] == data[..][at + len..];
      if dataLen != index {
        index := 0;
      }
    }

    /** The string entries, built up in a local string. */
    method StrPart(ks: seq<string>) returns (str: string)
      requires forall k <- ks :: k in strMap
      ensures str == StrText(ks, strMap, |ks|)
    {
      str := "";
      var i := 0;
      while i < |ks|
        invariant 0 <= i <= |ks| && str == StrText(ks, strMap, i)
      {
        assert ks[i] in ks;
        var entry := StrEntry(ks[i], strMap[ks[i]]);
        if str != "" {
          str := str + ",";
        }
        str := str + entry;
        i := i + 1;
      }
    }

    /** The number entries, written behind the strings as long as they fit. */
    method NumPart(data: array<char>, at: nat, len: nat, str: string, ns: seq<string>, ghost was: seq<char>)
        returns (index: nat)
      requires |str| <= len && at + len <= data.Length && |was| == data.Length && data[..] == Splice(was, at, str)
      requires forall k <- ns :: k in numMap
      modifies data
      ensures index == if |NumText(str, ns, numMap, |ns|)| <= len then |NumText(str, ns, numMap, |ns|)| else 0
      ensures |NumText(str, ns, numMap, |ns|)| <= len ==> data[..] == Splice(was, at, NumText(str, ns, numMap, |ns|))
      ensures exists b :: |b| <= len && data[..] == Splice(was, at, b)
    {
      hide NumEntry, Splice;
      var isAppend, j := str != "", 0;
      index := |str|;
      while j < |ns|
        invariant 0 <= j <= |ns| && index == |NumText(str, ns, numMap, j)| <= len
        invariant data[..] == Splice(was, at, NumText(str, ns, numMap, j))
        invariant isAppend <==> NumText(str, ns, numMap, j) != ""
      {
        assert ns[j] in ns;
        var entry := NumEntry(ns[j], numMap[ns[j]]);
        var tmp := if isAppend then "," + entry else entry;
        NumTextStep(str, ns, numMap, j, tmp);
        if len < index + |tmp| {
          NumTextGrows(str, ns, numMap, j + 1, |ns|);
          return 0;
        }
        Emit(data, at, was, NumText(str, ns, numMap, j), index, tmp);
        index := index + |tmp|;
        isAppend := true;
        j := j + 1;
      }
    }

    /** `from_data`; `beyond` is what lies in memory behind each token. */
    method FromData(data: string, beyond: string) returns (ok: bool)
      requires |beyond| >= 8
      modifies this
      ensures (State(), ok) == Parse(old(State()), data)
    {
      hide GetStr, GetNum, Tokens, CStr;
      var vec := SplitStr(data);
      if |vec| % 2 != 0 {
        return false;
      }
      ghost var start := Parsed(true, true, "", strMap, numMap);
      var isKey, key := true, "";
      var i := 0;
      while i < |vec|
        invariant 0 <= i <= |vec| && dataLen == old(dataLen)
        invariant FeedAll(start, vec, i) == Parsed(true, isKey, key, strMap, numMap)
      {
        var item := vec[i];
        TokensHaveNoNul(data, vec, i);
        GetNumZero(item, "n:", beyond);
        if isKey {
          key := GetStr(item, "k:");
        } else {
          if key != "" {
            var str := GetStr(item, "s:");
            if str == "" {
              var num := GetNum(item, "n:", beyond);
              if num == 0 {
                numMap := numMap[key := num];
              }
            } else {
              strMap := strMap[key := str];
            }
          } else {
            StaysFailed(start, vec, i + 1, |vec|);
            return false;
          }
        }
        isKey := !isKey;
        i := i + 1;
      }
      if |strMap| + |numMap| > 0 {
        dataLen := |data|;
      }
      return true;
    }
  }

  lemma StaysFailed(p: Parsed, items: seq<string>, i: nat, j: nat)
    requires i <= j <= |items| && !FeedAll(p, items, i).ok
    ensures FeedAll(p, items, j) == FeedAll(p, items, i)
    decreases j
  {
  }

  lemma TokensHaveNoNul(data: string, vec: seq<string>, i: nat)
    requires vec == Tokens(CStr(data)) && i < |vec|
    ensures '\0' !in vec[i]
  {
    TokensWithin(CStr(data), '\0');
  }

  lemma NumTextGrows(text: string, ns: seq<string>, m: map<string, int>, i: nat, j: nat)
    requires i <= j <= |ns| && forall k <- ns :: k in m
    ensures |NumText(text, ns, m, i)| <= |NumText(text, ns, m, j)|
    decreases j
  {
    if i < j {
      NumTextGrows(text, ns, m, i, j - 1);
    }
  }

  lemma NumTextStart(text: string, ns: seq<string>, m: map<string, int>)
    requires forall k <- ns :: k in m
    ensures NumText(text, ns, m, 0) == text
  {
  }

  lemma NumTextStep(text: string, ns: seq<string>, m: map<string, int>, j: nat, tmp: string)
    requires j < |ns| && forall k <- ns :: k in m
    requires ns[j] in m
    requires tmp == (if NumText(text, ns, m, j) != "" then "," else "") + NumEntry(ns[j], m[ns[j]])
    ensures NumText(text, ns, m, j + 1) == NumText(text, ns, m, j) + tmp
    ensures tmp != ""
  {
    hide Raw;
  }
}
