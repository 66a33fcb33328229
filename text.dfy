/**
 * The string and list operations of Python that the core uses: substring
 * tests, lower-casing, whitespace splitting, joining and slicing.
 */
module Text {

  function Min(a: int, b: int): int { if a <= b then a else b }

  function Max(a: int, b: int): int { if a >= b then a else b }

  /** Python's `word in text` for strings: `word` occurs at some offset of `text`. */
  predicate Contains(text: string, word: string)
    decreases |text|
  {
    word <= text || (text != [] && Contains(text[1..], word))
  }

  /** The position-based reading of `Contains`. */
  predicate OccursAt(text: string, word: string, at: int)
  {
    0 <= at && at + |word| <= |text| && text[at..at + |word|] == word
  }

  lemma {:induction false} OccursImpliesContains(text: string, word: string, at: int)
    requires OccursAt(text, word, at)
    ensures Contains(text, word)
    decreases at
  {
    if at == 0 {
      assert text[..|word|] == word;
    } else {
      assert text[1..][at - 1..at - 1 + |word|] == text[at..at + |word|];
      OccursImpliesContains(text[1..], word, at - 1);
    }
  }

  lemma {:induction false} ContainsImpliesOccurs(text: string, word: string)
    requires Contains(text, word)
    ensures exists at :: OccursAt(text, word, at)
    decreases |text|
  {
    if word <= text {
      assert text[0..|word|] == word;
      assert OccursAt(text, word, 0);
    } else {
      ContainsImpliesOccurs(text[1..], word);
      var at :| OccursAt(text[1..], word, at);
      assert text[at + 1..at + 1 + |word|] == text[1..][at..at + |word|];
      assert OccursAt(text, word, at + 1);
    }
  }

  /** `Contains` holds exactly when the word occurs at some offset. */
  lemma ContainsIffOccurs(text: string, word: string)
    ensures Contains(text, word) <==> exists at :: OccursAt(text, word, at)
  {
    if Contains(text, word) {
      ContainsImpliesOccurs(text, word);
    }
    if exists at :: OccursAt(text, word, at) {
      var at :| OccursAt(text, word, at);
      OccursImpliesContains(text, word, at);
    }
  }

  /** An occurrence in either half is an occurrence in the concatenation. */
  lemma ContainsInConcat(a: string, b: string, word: string)
    requires Contains(a, word) || Contains(b, word)
    ensures Contains(a + b, word)
  {
    ContainsIffOccurs(a, word);
    ContainsIffOccurs(b, word);
    ContainsIffOccurs(a + b, word);
    if Contains(a, word) {
      var at :| OccursAt(a, word, at);
      assert (a + b)[at..at + |word|] == a[at..at + |word|];
      assert OccursAt(a + b, word, at);
    } else {
      var at :| OccursAt(b, word, at);
      assert (a + b)[|a| + at..|a| + at + |word|] == b[at..at + |word|];
      assert OccursAt(a + b, word, |a| + at);
    }
  }

  function LowerChar(c: char): char
  {
    if 'A' <= c <= 'Z' then (c as int + 32) as char else c
  }

  /** `str.lower()`, on the ASCII letters. */
  function Lower(s: string): (r: string)
    ensures |r| == |s|
  {
    seq(|s|, i requires 0 <= i < |s| => LowerChar(s[i]))
  }

  /** `any(word in text for word in words)`. */
  predicate AnyIn(words: seq<string>, text: string)
  {
    exists k :: 0 <= k < |words| && Contains(text, words[k])
  }

  /** `sum(1 for word in words if word in text)`: how many of the words occur. */
  function CountIn(words: seq<string>, text: string): (n: nat)
    ensures n <= |words|
    ensures n > 0 <==> AnyIn(words, text)
  {
    if words == [] then 0
    else
      var rest := CountIn(words[1..], text);
      assert AnyIn(words, text) <==> Contains(text, words[0]) || AnyIn(words[1..], text) by {
        if AnyIn(words[1..], text) {
          var k :| 0 <= k < |words| - 1 && Contains(text, words[1..][k]);
          assert Contains(text, words[k + 1]);
        }
        if AnyIn(words, text) && !Contains(text, words[0]) {
          var k :| 0 <= k < |words| && Contains(text, words[k]);
          assert k > 0 && words[1..][k - 1] == words[k];
        }
      }
      (if Contains(text, words[0]) then 1 else 0) + rest
  }

  /** The characters `str.split()` separates on (the ASCII ones). */
  predicate IsSpace(c: char)
  {
    c == ' ' || 9 <= c as int <= 13 || 28 <= c as int <= 31
  }

  /** Length of the run of non-space characters that starts `s`. */
  function WordLength(s: string): (n: nat)
    ensures n <= |s|
    ensures forall k :: 0 <= k < n ==> !IsSpace(s[k])
    ensures n < |s| ==> IsSpace(s[n])
  {
    if s == [] || IsSpace(s[0]) then 0 else 1 + WordLength(s[1..])
  }

  /** `s.split()`: the maximal runs of non-space characters, in order. */
  function Words(s: string): seq<string>
    decreases |s|
  {
    if s == [] then []
    else if IsSpace(s[0]) then Words(s[1..])
    else
      var n := WordLength(s);
      [s[..n]] + Words(s[n..])
  }

  /** Every word `split()` returns is non-empty and holds no space. */
  lemma {:induction false} WordsAreWords(s: string)
    ensures forall k :: 0 <= k < |Words(s)| ==> Words(s)[k] != []
    ensures forall k, j :: 0 <= k < |Words(s)| && 0 <= j < |Words(s)[k]| ==> !IsSpace(Words(s)[k][j])
    decreases |s|
  {
    if s == [] {
    } else if IsSpace(s[0]) {
      WordsAreWords(s[1..]);
    } else {
      var n := WordLength(s);
      WordsAreWords(s[n..]);
      assert Words(s) == [s[..n]] + Words(s[n..]);
    }
  }

  /** `sep.join(parts)`. */
  function Join(parts: seq<string>, sep: string): string
  {
    if parts == [] then ""
    else if |parts| == 1 then parts[0]
    else parts[0] + sep + Join(parts[1..], sep)
  }

  /** A word inside one part is inside the join. */
  lemma {:induction false} ContainsInJoin(parts: seq<string>, sep: string, k: int, word: string)
    requires 0 <= k < |parts| && Contains(parts[k], word)
    ensures Contains(Join(parts, sep), word)
    decreases |parts|
  {
    if |parts| > 1 {
      var rest := Join(parts[1..], sep);
      if k == 0 {
        ContainsInConcat(parts[0], sep, word);
      } else {
        ContainsInJoin(parts[1..], sep, k - 1, word);
      }
      ContainsInConcat(parts[0] + sep, rest, word);
    }
  }

  /** `"".join(parts)`, or the text grown by `+=` part by part. */
  function Concat(parts: seq<string>): string
  {
    if parts == [] then "" else Concat(parts[..|parts| - 1]) + parts[|parts| - 1]
  }

  function DigitChar(d: nat): char
    requires d < 10
  {
    ['0', '1', '2', '3', '4', '5', '6', '7', '8', '9'][d]
  }

  function NatToString(n: nat): string
  {
    if n < 10 then [DigitChar(n)] else NatToString(n / 10) + [DigitChar(n % 10)]
  }

  /** `str(n)` for an integer. */
  function IntToString(i: int): string
  {
    if i < 0 then "-" + NatToString(-i) else NatToString(i)
  }

  /** `s[:k]`. */
  function Take<T>(s: seq<T>, k: nat): seq<T>
  {
    if k >= |s| then s else s[..k]
  }

  /** `s[-k:]` for `k >= 1`, and the whole of `s` when `k` is at least its length. */
  function Last<T>(s: seq<T>, k: nat): seq<T>
  {
    if k >= |s| then s else s[|s| - k..]
  }

  /** Python's `s[-limit:]` for any integer `limit`. */
  function PyTail<T>(s: seq<T>, limit: int): seq<T>
  {
    var start := -limit;
    if start < 0 then (if |s| + start <= 0 then s else s[|s| + start..])
    else if start >= |s| then []
    else s[start..]
  }

  /** For `limit >= 1`, `s[-limit:]` is the last min(limit, |s|) elements, in order. */
  lemma PyTailPositive<T>(s: seq<T>, limit: int)
    requires limit >= 1
    ensures PyTail(s, limit) == Last(s, limit)
    ensures |PyTail(s, limit)| == Min(limit, |s|)
    ensures PyTail(s, limit) == s[|s| - Min(limit, |s|)..]
  {
  }

  /** `s[-0:]` is `s[0:]`: a limit of 0 yields every element. */
  lemma PyTailZero<T>(s: seq<T>)
    ensures PyTail(s, 0) == s
  {
  }

  /** `a` is `b` with some elements left out, order kept. */
  predicate IsSubsequence<T(==)>(a: seq<T>, b: seq<T>)
    decreases |b|
  {
    a == [] || (b != [] && ((a[0] == b[0] && IsSubsequence(a[1..], b[1..])) || IsSubsequence(a, b[1..])))
  }

  lemma {:induction false} SubsequenceRefl<T>(a: seq<T>)
    ensures IsSubsequence(a, a)
    decreases |a|
  {
    if a != [] {
      SubsequenceRefl(a[1..]);
    }
  }

  /** A prefix of a subsequence is a subsequence. */
  lemma {:induction false} TakeOfSubsequence<T>(a: seq<T>, b: seq<T>, k: nat)
    requires IsSubsequence(a, b)
    ensures IsSubsequence(Take(a, k), b)
    decreases |b|
  {
    if Take(a, k) == [] {
    } else if a[0] == b[0] && IsSubsequence(a[1..], b[1..]) {
      TakeOfSubsequence(a[1..], b[1..], k - 1);
      assert Take(a, k)[0] == a[0];
      assert Take(a, k)[1..] == Take(a[1..], k - 1);
    } else {
      TakeOfSubsequence(a, b[1..], k);
    }
  }

  /** A subsequence has no more elements than the sequence it comes from. */
  lemma {:induction false} SubsequenceLength<T>(a: seq<T>, b: seq<T>)
    requires IsSubsequence(a, b)
    ensures |a| <= |b|
    decreases |b|
  {
    if a == [] {
    } else if a[0] == b[0] && IsSubsequence(a[1..], b[1..]) {
      SubsequenceLength(a[1..], b[1..]);
    } else {
      SubsequenceLength(a, b[1..]);
    }
  }

  /** `[x for x in s if p(x)]`. */
  function Filter<T>(s: seq<T>, p: T -> bool): (r: seq<T>)
    ensures |r| <= |s|
    ensures forall k :: 0 <= k < |r| ==> p(r[k])
  {
    if s == [] then []
    else if p(s[0]) then [s[0]] + Filter(s[1..], p)
    else Filter(s[1..], p)
  }

  /**
   * The order-preserving filter: its result is a subsequence of the input
   * and holds precisely the input's elements that satisfy the predicate.
   */
  lemma {:induction false} FilterSpec<T>(s: seq<T>, p: T -> bool)
    ensures IsSubsequence(Filter(s, p), s)
    ensures forall x :: x in Filter(s, p) <==> x in s && p(x)
    decreases |s|
  {
    if s != [] {
      FilterSpec(s[1..], p);
      if p(s[0]) {
        assert Filter(s, p)[1..] == Filter(s[1..], p);
      } else {
        assert forall x :: x in s && x != s[0] ==> x in s[1..];
      }
    }
  }

  /** Filtering a concatenation filters each part. */
  lemma {:induction false} FilterAppend<T>(s: seq<T>, t: seq<T>, p: T -> bool)
    ensures Filter(s + t, p) == Filter(s, p) + Filter(t, p)
    decreases |s|
  {
    if s == [] {
      assert s + t == t;
    } else {
      assert (s + t)[1..] == s[1..] + t;
      FilterAppend(s[1..], t, p);
    }
  }

  /** `[f(x) for x in s]`. */
  function Map<T, U>(s: seq<T>, f: T -> U): (r: seq<U>)
    ensures |r| == |s|
    ensures forall k :: 0 <= k < |s| ==> r[k] == f(s[k])
  {
    seq(|s|, i requires 0 <= i < |s| => f(s[i]))
  }

  lemma MapAppend<T, U>(s: seq<T>, t: seq<T>, f: T -> U)
    ensures Map(s + t, f) == Map(s, f) + Map(t, f)
  {
  }

  /** Mapping both sides keeps a subsequence a subsequence. */
  lemma {:induction false} MapSubsequence<T, U>(a: seq<T>, b: seq<T>, f: T -> U)
    requires IsSubsequence(a, b)
    ensures IsSubsequence(Map(a, f), Map(b, f))
    decreases |b|
  {
    if a == [] {
    } else if a[0] == b[0] && IsSubsequence(a[1..], b[1..]) {
      MapSubsequence(a[1..], b[1..], f);
      assert Map(a, f)[1..] == Map(a[1..], f);
      assert Map(b, f)[1..] == Map(b[1..], f);
    } else {
      MapSubsequence(a, b[1..], f);
      assert Map(b, f)[1..] == Map(b[1..], f);
    }
  }

  /**
   * An `if/elif` chain of keyword groups: the index of the first group one of
   * whose words occurs in `text`, or `|groups|` when none does.
   */
  function FirstMatch<T>(groups: seq<(T, seq<string>)>, text: string): (k: nat)
    ensures k <= |groups|
    ensures k < |groups| ==> AnyIn(groups[k].1, text)
    ensures forall j :: 0 <= j < k ==> !AnyIn(groups[j].1, text)
  {
    if groups == [] || AnyIn(groups[0].1, text) then 0
    else 1 + FirstMatch(groups[1..], text)
  }

  /** Counting over one more word adds one exactly when that word occurs. */
  lemma {:induction false} CountInAppend(words: seq<string>, w: string, text: string)
    ensures CountIn(words + [w], text) == CountIn(words, text) + (if Contains(text, w) then 1 else 0)
    decreases |words|
  {
    if words == [] {
      assert words + [w] == [w];
    } else {
      assert (words + [w])[1..] == words[1..] + [w];
      CountInAppend(words[1..], w, text);
    }
  }

  /** A join starts with the first part's first character. */
  lemma JoinHead(parts: seq<string>, sep: string)
    requires parts != [] && parts[0] != []
    ensures Join(parts, sep) != [] && Join(parts, sep)[0] == parts[0][0]
  {
  }

  /** Keeping the last `k` before appending and after appending agree. */
  lemma LastAppend<T>(s: seq<T>, x: T, k: nat)
    requires k >= 1
    ensures Last(Last(s, k) + [x], k) == Last(s + [x], k)
  {
    if |s| >= k {
      assert (s[|s| - k..] + [x])[1..] == (s + [x])[|s| + 1 - k..];
    }
  }

  /** The last `j` of the last `k` are the last `j`, for `j <= k`. */
  lemma LastOfLast<T>(s: seq<T>, j: nat, k: nat)
    requires j <= k
    ensures Last(Last(s, k), j) == Last(s, j)
  {
  }

  /** No element occurs twice. */
  predicate Distinct<T(==)>(s: seq<T>)
  {
    forall i, j :: 0 <= i < j < |s| ==> s[i] != s[j]
  }

  /** Appending an element not yet present keeps the elements distinct. */
  lemma DistinctAppend<T>(s: seq<T>, x: T)
    requires Distinct(s) && x !in s
    ensures Distinct(s + [x])
  {
    var t := s + [x];
    forall i, j | 0 <= i < j < |t|
      ensures t[i] != t[j]
    {
      if j == |s| {
        assert t[i] == s[i];
      } else {
        assert t[i] == s[i] && t[j] == s[j];
      }
    }
  }
}
