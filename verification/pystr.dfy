/** The few Python string built-ins the relay relies on: `str.isspace`,
    `str.strip()`, `str.split()`, `str.split(maxsplit=1)`, `sep.join(...)`,
    `str.isdigit()` with `int(...)`, and the `s or ""` idiom for None. */
module PyStr {
  import opened Wrappers

  /** `s or ""`: None (and the empty string) become the empty string. */
  function OrEmpty(s: Option<string>): (r: string)
    ensures s.Some? ==> r == s.value
    ensures s.None? ==> r == ""
  {
    match s
    case None => ""
    case Some(v) => v
  }

  /** Python's `str.isspace()` on one character: the characters that
      `strip()` and `split()` without arguments treat as whitespace. */
  predicate IsWhitespace(c: char) {
    var n := c as int;
    (0x09 <= n <= 0x0D) || (0x1C <= n <= 0x20) || n == 0x85 || n == 0xA0
    || n == 0x1680 || (0x2000 <= n <= 0x200A) || n == 0x2028 || n == 0x2029
    || n == 0x202F || n == 0x205F || n == 0x3000
  }

  predicate AllWhitespace(s: string) {
    forall i :: 0 <= i < |s| ==> IsWhitespace(s[i])
  }

  predicate StartsWith(s: string, prefix: string) {
    |prefix| <= |s| && s[..|prefix|] == prefix
  }

  /** The first index at or after `i` that does not hold whitespace
      (`|s|` if there is none). */
  function SkipWhitespace(s: string, i: nat): (k: nat)
    requires i <= |s|
    ensures i <= k <= |s|
    ensures forall j :: i <= j < k ==> IsWhitespace(s[j])
    ensures k < |s| ==> !IsWhitespace(s[k])
    decreases |s| - i
  {
    if i < |s| && IsWhitespace(s[i]) then SkipWhitespace(s, i + 1) else i
  }

  /** The first index at or after `i` that holds whitespace (`|s|` if there
      is none): the end of the word starting at `i`. */
  function SkipWord(s: string, i: nat): (k: nat)
    requires i <= |s|
    ensures i <= k <= |s|
    ensures forall j :: i <= j < k ==> !IsWhitespace(s[j])
    ensures k < |s| ==> IsWhitespace(s[k])
    decreases |s| - i
  {
    if i < |s| && !IsWhitespace(s[i]) then SkipWord(s, i + 1) else i
  }

  /** The index just past the last non-whitespace character of `s[lo..hi]`
      (`lo` if there is none). */
  function TrimEnd(s: string, lo: nat, hi: nat): (k: nat)
    requires lo <= hi <= |s|
    ensures lo <= k <= hi
    ensures forall j :: k <= j < hi ==> IsWhitespace(s[j])
    ensures k > lo ==> !IsWhitespace(s[k - 1])
    decreases hi - lo
  {
    if lo < hi && IsWhitespace(s[hi - 1]) then TrimEnd(s, lo, hi - 1) else hi
  }

  /** `s.strip()`: the text between the leading and the trailing whitespace
      of `s`; empty exactly when `s` is all whitespace. */
  function Strip(s: string): (r: string)
    ensures r == [] <==> AllWhitespace(s)
    ensures r != [] ==> !IsWhitespace(r[0]) && !IsWhitespace(r[|r| - 1])
  {
    var k := SkipWhitespace(s, 0);
    s[k..TrimEnd(s, k, |s|)]
  }

  /** `strip()` removes whitespace only: what it returns is a piece of `s`
      with nothing but whitespace on either side. */
  lemma StripRemovesOnlyWhitespace(s: string)
    ensures var r := Strip(s); var k := SkipWhitespace(s, 0);
      && k + |r| <= |s|
      && r == s[k..k + |r|]
      && (forall j :: 0 <= j < k ==> IsWhitespace(s[j]))
      && (forall j :: k + |r| <= j < |s| ==> IsWhitespace(s[j]))
  {
  }

  /** `s.rstrip()`. */
  function StripRight(s: string): (r: string)
    ensures StartsWith(s, r)
    ensures forall j :: |r| <= j < |s| ==> IsWhitespace(s[j])
    ensures r != [] ==> !IsWhitespace(r[|r| - 1])
  {
    s[..TrimEnd(s, 0, |s|)]
  }

  /** The scan of `TrimEnd` stops just after the last non-whitespace index
      and nowhere else. */
  lemma {:induction false} TrimEndAt(s: string, lo: nat, hi: nat, k: nat)
    requires lo <= k <= hi <= |s|
    requires forall j :: k <= j < hi ==> IsWhitespace(s[j])
    requires k == lo || !IsWhitespace(s[k - 1])
    ensures TrimEnd(s, lo, hi) == k
    decreases hi - k
  {
    if k < hi {
      TrimEndAt(s, lo, hi - 1, k);
    }
  }

  /** Without leading whitespace, `strip()` is `rstrip()`. */
  lemma StripOfLeadingText(s: string)
    requires s != [] && !IsWhitespace(s[0])
    ensures Strip(s) == StripRight(s)
  {
    SkipWhitespaceAt(s, 0, 0);
  }

  /** Trailing whitespace does not survive `rstrip()`. */
  lemma StripRightAppendWhitespace(t: string, w: string)
    requires AllWhitespace(w)
    ensures StripRight(t + w) == StripRight(t)
  {
    var s := t + w;
    var k := TrimEnd(t, 0, |t|);
    forall j | k <= j < |s| ensures IsWhitespace(s[j]) {
      if j < |t| { assert s[j] == t[j]; } else { assert s[j] == w[j - |t|]; }
    }
    if k > 0 { assert s[k - 1] == t[k - 1]; }
    TrimEndAt(s, 0, |s|, k);
    assert s[..k] == t[..k];
  }

  /** `rstrip()` of a text that does not end in whitespace only touches
      its second part. */
  lemma StripRightConcat(h: string, t: string)
    requires !AllWhitespace(t)
    ensures StripRight(h + t) == h + StripRight(t)
  {
    var s := h + t;
    var k := TrimEnd(t, 0, |t|);
    forall j | |h| + k <= j < |s| ensures IsWhitespace(s[j]) {
      assert s[j] == t[j - |h|];
    }
    assert s[|h| + k - 1] == t[k - 1];
    TrimEndAt(s, 0, |s|, |h| + k);
    assert s[..|h| + k] == h + t[..k];
  }

  /** Text with no surrounding whitespace is left alone by `strip()`. */
  lemma StripOfTrimmed(s: string)
    requires s == [] || (!IsWhitespace(s[0]) && !IsWhitespace(s[|s| - 1]))
    ensures Strip(s) == s
  {
    if s != [] {
      assert SkipWhitespace(s, 0) == 0;
      assert TrimEnd(s, 0, |s|) == |s|;
    }
  }

  /** `strip()` is idempotent. */
  lemma StripIdempotent(s: string)
    ensures Strip(Strip(s)) == Strip(s)
  {
    StripOfTrimmed(Strip(s));
  }

  /** `s.split()`: the maximal runs of non-whitespace characters of `s`,
      in order. */
  function Split(s: string): (words: seq<string>)
    ensures forall w :: w in words ==> IsWord(w)
    ensures words == [] <==> AllWhitespace(s)
  {
    SplitFrom(s, 0)
  }

  predicate IsWord(w: string) {
    w != [] && forall j :: 0 <= j < |w| ==> !IsWhitespace(w[j])
  }

  /** The words of `s[i..]`. */
  function SplitFrom(s: string, i: nat): (words: seq<string>)
    requires i <= |s|
    ensures forall w :: w in words ==> IsWord(w)
    ensures words == [] <==> forall j :: i <= j < |s| ==> IsWhitespace(s[j])
    decreases |s| - i
  {
    var k := SkipWhitespace(s, i);
    if k == |s| then
      []
    else
      var e := SkipWord(s, k);
      [s[k..e]] + SplitFrom(s, e)
  }

  /** The non-whitespace characters of `s[i..]`, in order. */
  function NonWhitespaceFrom(s: string, i: nat): string
    requires i <= |s|
    decreases |s| - i
  {
    if i == |s| then [] else (if IsWhitespace(s[i]) then [] else [s[i]]) + NonWhitespaceFrom(s, i + 1)
  }

  /** Index `j` starts a word: a non-whitespace character at the start of
      the text or just after whitespace. */
  predicate IsWordStart(s: string, j: nat)
    requires j < |s|
  {
    !IsWhitespace(s[j]) && (j == 0 || IsWhitespace(s[j - 1]))
  }

  /** The number of word starts at or after `i`. */
  function WordStartsFrom(s: string, i: nat): nat
    requires i <= |s|
    decreases |s| - i
  {
    if i == |s| then 0 else (if IsWordStart(s, i) then 1 else 0) + WordStartsFrom(s, i + 1)
  }

  /** The words glued together, in order. */
  function Concat(words: seq<string>): string {
    if words == [] then [] else words[0] + Concat(words[1..])
  }

  /** `split()` finds exactly the maximal runs of non-whitespace, in order:
      there are as many words as word starts, word `j` is the whole run at
      the `(j+1)`-th word start, and together the words are the
      non-whitespace characters of `s` in order. */
  lemma SplitIsRuns(s: string)
    ensures Concat(Split(s)) == NonWhitespaceFrom(s, 0)
    ensures |Split(s)| == WordStartsFrom(s, 0)
    ensures forall j :: 0 <= j < |Split(s)| ==> IsRunAt(s, Split(s)[j], |Split(s)| - j)
  {
    SplitFromConcat(s, 0);
    SplitFromCount(s, 0);
    SplitFromPositions(s, 0);
  }

  lemma {:induction false} NonWhitespaceSkip(s: string, i: nat, k: nat)
    requires i <= k <= |s|
    requires forall j :: i <= j < k ==> IsWhitespace(s[j])
    ensures NonWhitespaceFrom(s, i) == NonWhitespaceFrom(s, k)
    decreases k - i
  {
    if i < k {
      NonWhitespaceSkip(s, i + 1, k);
    }
  }

  lemma {:induction false} NonWhitespaceWord(s: string, k: nat, e: nat)
    requires k <= e <= |s|
    requires forall j :: k <= j < e ==> !IsWhitespace(s[j])
    ensures NonWhitespaceFrom(s, k) == s[k..e] + NonWhitespaceFrom(s, e)
    decreases e - k
  {
    if k < e {
      NonWhitespaceWord(s, k + 1, e);
      ConsSlice(s, k, e);
    }
  }

  lemma ConsSlice(s: string, k: nat, e: nat)
    requires k < e <= |s|
    ensures [s[k]] + s[k + 1..e] == s[k..e]
  {
  }

  lemma {:induction false} SplitFromConcat(s: string, i: nat)
    requires i <= |s|
    ensures Concat(SplitFrom(s, i)) == NonWhitespaceFrom(s, i)
    decreases |s| - i
  {
    var k := SkipWhitespace(s, i);
    NonWhitespaceSkip(s, i, k);
    if k < |s| {
      var e := SkipWord(s, k);
      var rest := SplitFrom(s, e);
      assert SplitFrom(s, i) == [s[k..e]] + rest;
      assert ([s[k..e]] + rest)[1..] == rest;
      SplitFromConcat(s, e);
      NonWhitespaceWord(s, k, e);
    }
  }

  lemma {:induction false} WordStartsSkip(s: string, i: nat, k: nat)
    requires i <= k <= |s|
    requires forall j :: i <= j < k ==> !IsWordStart(s, j)
    ensures WordStartsFrom(s, i) == WordStartsFrom(s, k)
    decreases k - i
  {
    if i < k {
      WordStartsSkip(s, i + 1, k);
    }
  }

  lemma {:induction false} SplitFromCount(s: string, i: nat)
    requires i <= |s|
    requires i == 0 || i == |s| || IsWhitespace(s[i - 1]) || IsWhitespace(s[i])
    ensures |SplitFrom(s, i)| == WordStartsFrom(s, i)
    decreases |s| - i
  {
    var k := SkipWhitespace(s, i);
    LeadingWhitespaceNoStarts(s, i, k);
    if k < |s| {
      var e := SkipWord(s, k);
      assert IsWordStart(s, k);
      WordHasOneStart(s, k, e);
      assert |SplitFrom(s, i)| == 1 + |SplitFrom(s, e)|;
      SplitFromCount(s, e);
    }
  }

  /** Whitespace holds no word start. */
  lemma LeadingWhitespaceNoStarts(s: string, i: nat, k: nat)
    requires i <= k <= |s|
    requires forall j :: i <= j < k ==> IsWhitespace(s[j])
    ensures WordStartsFrom(s, i) == WordStartsFrom(s, k)
  {
    WordStartsSkip(s, i, k);
  }

  /** A word starting at `k` holds one word start: its first index. */
  lemma WordHasOneStart(s: string, k: nat, e: nat)
    requires k < e <= |s|
    requires IsWordStart(s, k)
    requires forall j :: k <= j < e ==> !IsWhitespace(s[j])
    ensures WordStartsFrom(s, k) == 1 + WordStartsFrom(s, e)
  {
    forall j | k + 1 <= j < e ensures !IsWordStart(s, j) {
      assert !IsWhitespace(s[j - 1]);
    }
    WordStartsSkip(s, k + 1, e);
  }

  /** `w` is the whole run of non-whitespace of `s` that begins at the word
      start with `m` word starts at or after it (counting itself). */
  ghost predicate IsRunAt(s: string, w: string, m: nat) {
    exists k: nat :: k < |s| && IsWordStart(s, k) && WordStartsFrom(s, k) == m && w == s[k..SkipWord(s, k)]
  }

  lemma {:induction false} SplitFromPositions(s: string, i: nat)
    requires i <= |s|
    requires i == 0 || i == |s| || IsWhitespace(s[i - 1]) || IsWhitespace(s[i])
    ensures forall j :: 0 <= j < |SplitFrom(s, i)| ==> IsRunAt(s, SplitFrom(s, i)[j], |SplitFrom(s, i)| - j)
    decreases |s| - i
  {
    var k := SkipWhitespace(s, i);
    if k < |s| {
      var e := SkipWord(s, k);
      var words := SplitFrom(s, i);
      var rest := SplitFrom(s, e);
      assert words == [s[k..e]] + rest;
      assert IsWordStart(s, k);
      WordHasOneStart(s, k, e);
      SplitFromCount(s, e);
      assert IsRunAt(s, words[0], |words|);
      SplitFromPositions(s, e);
      forall j | 1 <= j < |words| ensures IsRunAt(s, words[j], |words| - j) {
        assert words[j] == rest[j - 1];
        assert IsRunAt(s, rest[j - 1], |rest| - (j - 1));
      }
    }
  }

  /** The scan of `SkipWhitespace` stops at the first non-whitespace index
      and nowhere else. */
  lemma {:induction false} SkipWhitespaceAt(s: string, i: nat, k: nat)
    requires i <= k <= |s|
    requires forall j :: i <= j < k ==> IsWhitespace(s[j])
    requires k == |s| || !IsWhitespace(s[k])
    ensures SkipWhitespace(s, i) == k
    decreases k - i
  {
    if i < k {
      SkipWhitespaceAt(s, i + 1, k);
    }
  }

  /** `s.split(maxsplit=1)`: the first word, then the rest of the text with
      its leading whitespace removed (trailing whitespace kept), if any. */
  function SplitOnce(s: string): (parts: seq<string>)
    ensures |parts| <= 2
    ensures forall p :: p in parts ==> p != [] && !IsWhitespace(p[0])
  {
    var k := SkipWhitespace(s, 0);
    if k == |s| then
      []
    else
      var e := SkipWord(s, k);
      var m := SkipWhitespace(s, e);
      if m == |s| then [s[k..e]] else [s[k..e], s[m..]]
  }

  /** `sep.join(parts)`. */
  function Join(sep: string, parts: seq<string>): (r: string)
    ensures parts == [] ==> r == ""
    ensures parts != [] ==> StartsWith(r, parts[0])
    ensures |parts| == 1 ==> r == parts[0]
  {
    if parts == [] then ""
    else if |parts| == 1 then parts[0]
    else parts[0] + sep + Join(sep, parts[1..])
  }

  /** Joining keeps the parts in order: one more part goes at the end,
      after one more separator. */
  lemma {:induction false} JoinSnoc(sep: string, parts: seq<string>, x: string)
    requires parts != []
    ensures Join(sep, parts + [x]) == Join(sep, parts) + sep + x
  {
    if |parts| == 1 {
      assert parts + [x] == [parts[0], x];
    } else {
      assert (parts + [x])[1..] == parts[1..] + [x];
      JoinSnoc(sep, parts[1..], x);
    }
  }

  predicate IsDigit(c: char) {
    '0' as int <= c as int <= '9' as int
  }

  /** `s.isdigit()` for ASCII text: non-empty and all decimal digits. */
  predicate IsDigits(s: string) {
    s != [] && forall i :: 0 <= i < |s| ==> IsDigit(s[i])
  }

  /** `int(s)` for a string of decimal digits. */
  function DigitsValue(s: string): (n: nat)
    requires forall i :: 0 <= i < |s| ==> IsDigit(s[i])
    ensures |s| == 1 ==> n == (s[0] as int) - ('0' as int)
  {
    if s == [] then 0
    else
      assert IsDigit(s[|s| - 1]);
      DigitsValue(s[..|s| - 1]) * 10 + ((s[|s| - 1] as int) - ('0' as int))
  }
}
