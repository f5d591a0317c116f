/**
 * String helpers of pmctl (src/pmctl/common/utils/Util.cpp) together with the
 * parts of the C++ standard library they rely on (std::string::find,
 * find_first_of / find_first_not_of, atoi, std::to_string).
 *
 * The helpers whose C++ bodies are loops (deleteChars, countChar,
 * replaceString, tokenize, parseTabs) are methods proved against the
 * specification functions Without, multiset counting, ReplaceAll, Tokens and
 * SplitFields; the lemmas below say what those functions mean.
 */
module Util {

  // ---------------------------------------------------------------------
  // std::string::find
  // ---------------------------------------------------------------------

  /** Pattern `p` occurs in `s` starting at index `i`. */
  predicate OccursAt(s: string, p: string, i: nat)
  {
    i + |p| <= |s| && s[i..i + |p|] == p
  }

  /** No occurrence of `p` in `s` starts in the index range [from, to). */
  predicate NoneBetween(s: string, p: string, from: nat, to: nat)
  {
    forall i :: from <= i < to ==> !OccursAt(s, p, i)
  }

  /** `s.find(p, from)`: the first occurrence at or after `from`, or -1 for npos. */
  function FindFrom(s: string, p: string, from: nat): (r: int)
    ensures r == -1 || (from <= r && OccursAt(s, p, r))
    ensures r >= 0 ==> NoneBetween(s, p, from, r)
    ensures r == -1 ==> NoneBetween(s, p, from, |s| + 1)
    decreases |s| - from
  {
    if from + |p| > |s| then -1
    else if OccursAt(s, p, from) then from
    else FindFrom(s, p, from + 1)
  }

  /** `s.find(p) != npos`. */
  predicate Contains(s: string, p: string)
  {
    FindFrom(s, p, 0) >= 0
  }

  lemma {:induction false} ContainsIff(s: string, p: string)
    ensures Contains(s, p) <==> exists i: nat :: OccursAt(s, p, i)
  {
  }

  /** Searching a suffix `s[k..]` finds the same occurrences, shifted by `k`. */
  lemma {:induction false} FindFromShift(s: string, p: string, k: nat, f: nat)
    requires k <= |s|
    ensures FindFrom(s, p, k + f) == (if FindFrom(s[k..], p, f) < 0 then -1 else k + FindFrom(s[k..], p, f))
    decreases |s| - k - f
  {
    if k + f + |p| > |s| {
    } else {
      assert s[k + f..k + f + |p|] == s[k..][f..f + |p|];
      if !OccursAt(s, p, k + f) {
        FindFromShift(s, p, k, f + 1);
      }
    }
  }

  /** Index of the first character of `s` at or after `from` that is in `d`; `|s|` plays npos. */
  function FindFirstOf(s: string, d: set<char>, from: nat): (r: nat)
    ensures r <= |s| && (from <= |s| ==> from <= r)
    ensures forall k :: from <= k < r ==> s[k] !in d
    ensures r < |s| ==> s[r] in d
    decreases |s| - from
  {
    if from >= |s| then |s| else if s[from] in d then from else FindFirstOf(s, d, from + 1)
  }

  /** Index of the first character of `s` at or after `from` that is NOT in `d`; `|s|` plays npos. */
  function FindFirstNotOf(s: string, d: set<char>, from: nat): (r: nat)
    ensures r <= |s| && (from <= |s| ==> from <= r)
    ensures forall k :: from <= k < r ==> s[k] in d
    ensures r < |s| ==> s[r] !in d
    decreases |s| - from
  {
    if from >= |s| then |s| else if s[from] !in d then from else FindFirstNotOf(s, d, from + 1)
  }

  /** The characterisation of FindFirstOf determines it. */
  lemma {:induction false} FindFirstOfIs(s: string, d: set<char>, from: nat, r: nat)
    requires from <= r <= |s|
    requires forall k :: from <= k < r ==> s[k] !in d
    requires r < |s| ==> s[r] in d
    ensures FindFirstOf(s, d, from) == r
    decreases r - from
  {
    if from < r {
      FindFirstOfIs(s, d, from + 1, r);
    }
  }

  // ---------------------------------------------------------------------
  // tokenize
  // ---------------------------------------------------------------------

  /**
   * The tokens `tokenize(s, tokens, delimiters)` appends: the maximal runs of
   * characters outside the delimiter set, in order. Empty tokens never occur.
   */
  function Tokens(s: string, d: set<char>): (r: seq<string>)
    ensures CleanTokens(r, d)
    decreases |s|
  {
    if s == [] then []
    else if s[0] in d then Tokens(s[1..], d)
    else
      var j := FindFirstOf(s, d, 0);
      [s[..j]] + Tokens(s[j..], d)
  }

  /** Every token is non-empty and free of delimiters. */
  predicate CleanTokens(ts: seq<string>, d: set<char>)
  {
    && (forall i :: 0 <= i < |ts| ==> |ts[i]| > 0)
    && (forall i, k :: 0 <= i < |ts| && 0 <= k < |ts[i]| ==> ts[i][k] !in d)
  }

  /** Delimiters between `i` and `j` produce no token. */
  lemma {:induction false} TokensSkip(s: string, d: set<char>, i: nat, j: nat)
    requires i <= j <= |s|
    requires forall k :: i <= k < j ==> s[k] in d
    ensures Tokens(s[i..], d) == Tokens(s[j..], d)
    decreases j - i
  {
    if i < j {
      assert s[i..][1..] == s[i + 1..];
      TokensSkip(s, d, i + 1, j);
    }
  }

  /** A maximal run of non-delimiters from `i` to `j` is one token. */
  lemma {:induction false} TokensRun(s: string, d: set<char>, i: nat, j: nat)
    requires i < j <= |s|
    requires forall k :: i <= k < j ==> s[k] !in d
    requires j < |s| ==> s[j] in d
    ensures Tokens(s[i..], d) == [s[i..j]] + Tokens(s[j..], d)
  {
    var t := s[i..];
    FindFirstOfIs(t, d, 0, j - i);
    assert t[..j - i] == s[i..j];
    assert t[j - i..] == s[j..];
  }

  /** A character outside the delimiter set gives at least one token. */
  lemma {:induction false} TokensNonEmpty(s: string, d: set<char>, k: nat)
    requires k < |s| && s[k] !in d
    ensures Tokens(s, d) != []
    decreases |s|
  {
    if s[0] in d {
      assert s[1..][k - 1] == s[k];
      TokensNonEmpty(s[1..], d, k - 1);
    }
  }

  /** `tokenize` as it is written: a loop driven by find_first_not_of / find_first_of. */
  method Tokenize(s: string, tokens: seq<string>, d: set<char>) returns (r: seq<string>)
    ensures r == tokens + Tokens(s, d)
  {
    r := tokens;
    var lastPos := FindFirstNotOf(s, d, 0);
    var pos := FindFirstOf(s, d, lastPos);
    assert s[0..] == s;
    TokensSkip(s, d, 0, lastPos);
    while pos < |s| || lastPos < |s|
      invariant lastPos <= pos <= |s|
      invariant lastPos < |s| ==> s[lastPos] !in d
      invariant pos == FindFirstOf(s, d, lastPos)
      invariant r + Tokens(s[lastPos..], d) == tokens + Tokens(s, d)
      decreases |s| - lastPos
    {
      TokensRun(s, d, lastPos, pos);
      r := r + [s[lastPos..pos]];
      var next := FindFirstNotOf(s, d, pos);
      TokensSkip(s, d, pos, next);
      lastPos := next;
      pos := FindFirstOf(s, d, lastPos);
    }
  }

  /** Tokens laid out with one delimiter character between them. */
  function Join(ts: seq<string>, c: char): string
  {
    if |ts| == 0 then [] else if |ts| == 1 then ts[0] else ts[0] + [c] + Join(ts[1..], c)
  }

  /** Tokenising a delimiter-joined list of non-empty, delimiter-free tokens gives the list back. */
  lemma {:induction false} TokensOfJoin(ts: seq<string>, c: char, d: set<char>)
    requires c in d && CleanTokens(ts, d)
    ensures Tokens(Join(ts, c), d) == ts
  {
    if |ts| == 0 {
    } else if |ts| == 1 {
      var s := ts[0];
      TokensRun(s, d, 0, |s|);
      assert s[0..] == s && s[0..|s|] == s && s[|s|..] == [];
    } else {
      var rest := Join(ts[1..], c);
      var s := ts[0] + [c] + rest;
      var n := |ts[0]|;
      TokensRun(s, d, 0, n);
      TokensSkip(s, d, n, n + 1);
      assert s[0..] == s && s[0..n] == ts[0] && s[n + 1..] == rest;
      TokensOfJoin(ts[1..], c, d);
    }
  }

  // ---------------------------------------------------------------------
  // deleteChars
  // ---------------------------------------------------------------------

  /** `s` with every character that occurs in `target` removed, the rest kept in order. */
  function Without(s: string, target: string): (r: string)
    ensures |r| <= |s|
    ensures forall i :: 0 <= i < |r| ==> r[i] !in target
    decreases |s|
  {
    if s == [] then []
    else (if s[0] in target then [] else [s[0]]) + Without(s[1..], target)
  }

  /** Without on a string with a known first character. */
  lemma {:induction false} WithoutCons(c: char, s: string, t: string)
    ensures Without([c] + s, t) == (if c in t then [] else [c]) + Without(s, t)
  {
    assert ([c] + s)[1..] == s;
  }

  /** Every character outside `target` keeps its number of occurrences. */
  lemma {:induction false} WithoutKeeps(s: string, target: string, c: char)
    requires c !in target
    ensures multiset(Without(s, target))[c] == multiset(s)[c]
    decreases |s|
  {
    if s != [] {
      assert s == [s[0]] + s[1..];
      WithoutKeeps(s[1..], target, c);
    }
  }

  lemma {:induction false} WithoutConcat(a: string, b: string, t: string)
    ensures Without(a + b, t) == Without(a, t) + Without(b, t)
    decreases |a|
  {
    if a != [] {
      assert (a + b)[1..] == a[1..] + b;
      WithoutConcat(a[1..], b, t);
    } else {
      assert a + b == b;
    }
  }

  lemma {:induction false} WithoutNothing(s: string, t: string)
    requires forall i :: 0 <= i < |s| ==> s[i] !in t
    ensures Without(s, t) == s
    decreases |s|
  {
    if s != [] {
      WithoutNothing(s[1..], t);
    }
  }

  lemma {:induction false} WithoutTwice(s: string, t: string, c: char)
    ensures Without(Without(s, t), [c]) == Without(s, t + [c])
    decreases |s|
  {
    if s != [] {
      WithoutTwice(s[1..], t, c);
      var head := if s[0] in t then [] else [s[0]];
      WithoutConcat(head, Without(s[1..], t), [c]);
      assert [s[0]][1..] == [];
    }
  }

  /** Erasing the first occurrence of `c` does not change what remains once all `c` are gone. */
  lemma {:induction false} EraseStep(r: string, c: char, find: nat)
    requires find == FindFrom(r, [c], 0)
    ensures find < |r| && r[find] == c
    ensures Without(r[..find] + r[find + 1..], [c]) == Without(r, [c])
  {
    assert OccursAt(r, [c], find);
    assert r[find..find + 1] == [c];
    var a, b := r[..find], r[find + 1..];
    assert r == a + [c] + b;
    WithoutConcat(a + [c], b, [c]);
    WithoutConcat(a, [c], [c]);
    WithoutConcat(a, b, [c]);
    assert Without([c], [c]) == [];
  }

  /** A string in which `find` sees no `c` has nothing to delete. */
  lemma {:induction false} EraseDone(r: string, c: char)
    requires FindFrom(r, [c], 0) == -1
    ensures Without(r, [c]) == r
  {
    assert NoneBetween(r, [c], 0, |r| + 1);
    forall k | 0 <= k < |r| ensures r[k] !in [c] {
      assert !OccursAt(r, [c], k);
      assert r[k..k + 1] == [r[k]];
    }
    WithoutNothing(r, [c]);
  }

  /** `deleteChars(str, target)`: for each character of `target`, erase its occurrences one at a time. */
  method DeleteChars(s: string, target: string) returns (r: string)
    ensures r == Without(s, target)
  {
    r := s;
    assert target[..0] == [];
    WithoutNothing(s, []);
    var i := 0;
    while i < |target|
      invariant 0 <= i <= |target|
      invariant r == Without(s, target[..i])
    {
      var c := target[i];
      ghost var before := r;
      var find := FindFrom(r, [c], 0);
      while find != -1
        invariant find == FindFrom(r, [c], 0)
        invariant Without(r, [c]) == Without(before, [c])
        decreases |r|
      {
        EraseStep(r, c, find);
        r := r[..find] + r[find + 1..];
        find := FindFrom(r, [c], 0);
      }
      EraseDone(r, c);
      WithoutTwice(s, target[..i], c);
      assert target[..i + 1] == target[..i] + [c];
      i := i + 1;
    }
    assert target[..i] == target;
  }

  // ---------------------------------------------------------------------
  // countChar
  // ---------------------------------------------------------------------

  /** `countChar(str, target)`: how many times `c` occurs in `s`. */
  method CountChar(s: string, c: char) returns (n: nat)
    ensures n == multiset(s)[c]
  {
    n := 0;
    var i := 0;
    while i < |s|
      invariant 0 <= i <= |s|
      invariant n == multiset(s[..i])[c]
    {
      assert s[..i + 1] == s[..i] + [s[i]];
      if s[i] == c {
        n := n + 1;
      }
      i := i + 1;
    }
    assert s[..i] == s;
  }

  // ---------------------------------------------------------------------
  // replaceString
  // ---------------------------------------------------------------------

  /** Left-to-right replacement of the non-overlapping occurrences of `p` by `rep`. */
  function ReplaceAll(s: string, p: string, rep: string): string
    requires |p| > 0
    decreases |s|
  {
    var i := FindFrom(s, p, 0);
    if i < 0 then s else s[..i] + rep + ReplaceAll(s[i + |p|..], p, rep)
  }

  /** ReplaceAll at the first occurrence `j` of the pattern. */
  lemma {:induction false} ReplaceAllAt(s: string, p: string, rep: string, j: nat)
    requires |p| > 0 && j == FindFrom(s, p, 0)
    ensures j + |p| <= |s|
    ensures ReplaceAll(s, p, rep) == s[..j] + rep + ReplaceAll(s[j + |p|..], p, rep)
  {
    assert OccursAt(s, p, j);
  }

  /** ReplaceAll of a suffix that starts before the first occurrence at `pos`. */
  lemma {:induction false} ReplaceSuffixAt(t: string, p: string, rep: string, offset: nat, pos: nat)
    requires |p| > 0 && offset <= pos
    requires pos + |p| <= |t|
    requires FindFrom(t[offset..], p, 0) == pos - offset
    ensures ReplaceAll(t[offset..], p, rep) == t[offset..pos] + rep + ReplaceAll(t[pos + |p|..], p, rep)
  {
    var rest := t[offset..];
    var j := pos - offset;
    ReplaceAllAt(rest, p, rep, j);
    assert rest[..j] == t[offset..pos];
    assert rest[j + |p|..] == t[pos + |p|..];
  }

  /** One replacement step of `replaceString` keeps the overall result. */
  lemma {:induction false} ReplaceStep(t: string, p: string, rep: string, offset: nat, pos: nat)
    requires |p| > 0 && offset <= |t|
    requires pos == FindFrom(t, p, offset)
    ensures pos + |p| <= |t|
    ensures var t' := t[..pos] + rep + t[pos + |p|..];
      t'[..pos + |rep|] + ReplaceAll(t'[pos + |rep|..], p, rep) == t[..offset] + ReplaceAll(t[offset..], p, rep)
  {
    FindFromShift(t, p, offset, 0);
    ReplaceSuffixAt(t, p, rep, offset, pos);
    var c := t[pos + |p|..];
    var t' := t[..pos] + rep + c;
    assert t'[..pos + |rep|] == t[..pos] + rep;
    assert t'[pos + |rep|..] == c;
    ConcatAssoc(t[..offset], t[offset..pos], rep, ReplaceAll(c, p, rep));
    assert t[..pos] == t[..offset] + t[offset..pos];
  }

  lemma {:induction false} ConcatAssoc<T>(a: seq<T>, b: seq<T>, c: seq<T>, d: seq<T>)
    ensures (a + b) + c + d == a + (b + c + d)
  {
  }

  /** Appending in two steps is appending once. */
  lemma {:induction false} AppendAssoc<T>(a: seq<T>, b: seq<T>, c: seq<T>)
    ensures (a + b) + c == a + (b + c)
  {
  }

  /** `replaceString(str, pattern, replace)`: search resumes right after each inserted replacement. */
  method ReplaceString(s: string, p: string, rep: string) returns (t: string)
    requires |p| > 0
    ensures t == ReplaceAll(s, p, rep)
  {
    t := s;
    var offset: nat := 0;
    var pos := FindFrom(t, p, offset);
    assert t[0..] == t;
    while pos != -1
      invariant offset <= |t|
      invariant pos == FindFrom(t, p, offset)
      invariant t[..offset] + ReplaceAll(t[offset..], p, rep) == ReplaceAll(s, p, rep)
      decreases |t| - offset
    {
      ReplaceStep(t, p, rep, offset, pos);
      t := t[..pos] + rep + t[pos + |p|..];
      offset := pos + |rep|;
      pos := FindFrom(t, p, offset);
    }
    FindFromShift(t, p, offset, 0);
    assert t[..offset] + t[offset..] == t;
  }

  /** With nothing to replace, the string is unchanged. */
  lemma {:induction false} ReplaceAllAbsent(s: string, p: string, rep: string)
    requires |p| > 0 && !Contains(s, p)
    ensures ReplaceAll(s, p, rep) == s
  {
  }

  /** A string free of the pattern's first character contains no occurrence of it. */
  lemma {:induction false} AbsentWithoutFirstChar(s: string, p: string)
    requires |p| > 0 && forall k :: 0 <= k < |s| ==> s[k] != p[0]
    ensures !Contains(s, p)
  {
    forall i: nat
      ensures !OccursAt(s, p, i)
    {
      if i + |p| <= |s| {
        assert s[i..i + |p|][0] == s[i];
      }
    }
    ContainsIff(s, p);
  }

  /** One occurrence of the pattern between two parts free of its first character is replaced once. */
  lemma {:induction false} ReplaceAllSingle(a: string, p: string, b: string, rep: string)
    requires |p| > 0
    requires forall k :: 0 <= k < |a| ==> a[k] != p[0]
    requires forall k :: 0 <= k < |b| ==> b[k] != p[0]
    ensures ReplaceAll(a + p + b, p, rep) == a + rep + b
  {
    var s := a + p + b;
    assert OccursAt(s, p, |a|) by {
      assert s[|a|..|a| + |p|] == p;
    }
    forall i | 0 <= i < |a|
      ensures !OccursAt(s, p, i)
    {
      if i + |p| <= |s| {
        assert s[i..i + |p|][0] == a[i];
      }
    }
    assert FindFrom(s, p, 0) == |a| by {
      assert NoneBetween(s, p, 0, |a|);
    }
    ReplaceAllAt(s, p, rep, |a|);
    assert s[..|a|] == a && s[|a| + |p|..] == b;
    AbsentWithoutFirstChar(b, p);
    ReplaceAllAbsent(b, p, rep);
  }

  /** Each replacement changes the length by |rep| - |p|. */
  lemma {:induction false} ReplaceAllLength(s: string, p: string, rep: string)
    requires |p| > 0 && |rep| <= |p|
    ensures |ReplaceAll(s, p, rep)| <= |s|
    decreases |s|
  {
    var i := FindFrom(s, p, 0);
    if i >= 0 {
      ReplaceAllLength(s[i + |p|..], p, rep);
    }
  }

  // ---------------------------------------------------------------------
  // parseTabs
  // ---------------------------------------------------------------------

  /** The characters `isspace` accepts (and that `operator>>` skips). */
  const Whitespace: set<char> := {' ', '\t', '\n', '\r', 11 as char, 12 as char}

  /**
   * The fields `parseTabs` appends: the first tab-separated field split at
   * white space (as `stringstream >>` does), then the remaining tab fields whole.
   */
  function SplitFields(s: string): (r: seq<string>)
    ensures forall i :: 0 <= i < |r| ==> |r[i]| > 0
  {
    FieldsOfTabs(Tokens(s, {'\t'}))
  }

  /** The fields for a list of tab-separated pieces. */
  function FieldsOfTabs(tabs: seq<string>): (r: seq<string>)
    requires CleanTokens(tabs, {'\t'})
    ensures forall i :: 0 <= i < |r| ==> |r[i]| > 0
  {
    if tabs == [] then [] else Tokens(tabs[0], Whitespace) + tabs[1..]
  }

  /** Taking one more tab piece extends the fields by its split (first piece) or by the piece itself. */
  lemma {:induction false} FieldsOfTabsStep(tabs: seq<string>, i: nat)
    requires CleanTokens(tabs, {'\t'}) && i < |tabs|
    ensures CleanTokens(tabs[..i], {'\t'}) && CleanTokens(tabs[..i + 1], {'\t'})
    ensures FieldsOfTabs(tabs[..i + 1]) ==
      if i == 0 then Tokens(tabs[0], Whitespace) else FieldsOfTabs(tabs[..i]) + [tabs[i]]
  {
    if i > 0 {
      assert tabs[..i + 1][1..] == tabs[..i][1..] + [tabs[i]];
    }
  }

  /** `parseTabs(str, tokens)`. */
  method ParseTabs(s: string, tokens: seq<string>) returns (r: seq<string>)
    ensures r == tokens + SplitFields(s)
  {
    var localTokens := Tokenize(s, [], {'\t'});
    r := tokens;
    var i := 0;
    while i < |localTokens|
      invariant 0 <= i <= |localTokens|
      invariant CleanTokens(localTokens[..i], {'\t'})
      invariant r == tokens + FieldsOfTabs(localTokens[..i])
    {
      FieldsOfTabsStep(localTokens, i);
      if i == 0 {
        r := Tokenize(localTokens[0], r, Whitespace);
        assert r == tokens + FieldsOfTabs(localTokens[..i + 1]);
      } else {
        ghost var before := FieldsOfTabs(localTokens[..i]);
        r := r + [localTokens[i]];
        assert r == tokens + (before + [localTokens[i]]);
      }
      i := i + 1;
    }
    assert localTokens[..i] == localTokens;
  }

  /** A line without tabs is simply split at white space. */
  lemma {:induction false} SplitFieldsNoTab(s: string)
    requires forall k :: 0 <= k < |s| ==> s[k] != '\t'
    ensures SplitFields(s) == Tokens(s, Whitespace)
  {
    if s != [] {
      TokensRun(s, {'\t'}, 0, |s|);
      assert s[0..] == s && s[0..|s|] == s && s[|s|..] == [];
    } else {
    }
  }

  // ---------------------------------------------------------------------
  // Decimal text: std::to_string and atoi
  // ---------------------------------------------------------------------

  const Digits: set<char> := {'0', '1', '2', '3', '4', '5', '6', '7', '8', '9'}

  predicate AllDigits(s: string)
  {
    forall k :: 0 <= k < |s| ==> s[k] in Digits
  }

  function DigitValue(c: char): (v: nat)
    requires c in Digits
    ensures v < 10
  {
    (c as int) - ('0' as int)
  }

  function DigitChar(v: nat): (c: char)
    requires v < 10
    ensures c in Digits && DigitValue(c) == v
  {
    (('0' as int) + v) as char
  }

  /** The value of a string of decimal digits, most significant first. */
  function DecimalValue(s: string): nat
    requires AllDigits(s)
    decreases |s|
  {
    if s == [] then 0 else DecimalValue(s[..|s| - 1]) * 10 + DigitValue(s[|s| - 1])
  }

  function Pow10(n: nat): (r: nat)
    ensures r >= 1
  {
    if n == 0 then 1 else 10 * Pow10(n - 1)
  }

  /** `std::to_string` of an unsigned value. */
  function NatToString(n: nat): (s: string)
    ensures |s| > 0 && AllDigits(s)
    ensures |s| > 1 ==> s[0] != '0'
  {
    if n < 10 then [DigitChar(n)] else NatToString(n / 10) + [DigitChar(n % 10)]
  }

  /** Reading back `std::to_string(n)` gives `n`. */
  lemma {:induction false} DecimalOfNatToString(n: nat)
    ensures DecimalValue(NatToString(n)) == n
  {
    if n >= 10 {
      DecimalOfNatToString(n / 10);
      var s := NatToString(n);
      assert s[..|s| - 1] == NatToString(n / 10);
    }
  }

  /** The value of a concatenation of digit strings. */
  lemma {:induction false} DecimalValueConcat(a: string, b: string)
    requires AllDigits(a) && AllDigits(b)
    ensures AllDigits(a + b)
    ensures DecimalValue(a + b) == DecimalValue(a) * Pow10(|b|) + DecimalValue(b)
    decreases |b|
  {
    if b == [] {
      assert a + b == a;
    } else {
      var b' := b[..|b| - 1];
      assert (a + b)[..|a + b| - 1] == a + b';
      DecimalValueConcat(a, b');
      calc {
        DecimalValue(a + b);
        DecimalValue(a + b') * 10 + DigitValue(b[|b| - 1]);
        (DecimalValue(a) * Pow10(|b'|) + DecimalValue(b')) * 10 + DigitValue(b[|b| - 1]);
        { MulDistrib(DecimalValue(a) * Pow10(|b'|), DecimalValue(b'), 10); }
        DecimalValue(a) * Pow10(|b'|) * 10 + DecimalValue(b') * 10 + DigitValue(b[|b| - 1]);
        { MulAssoc(DecimalValue(a), Pow10(|b'|), 10); }
        DecimalValue(a) * Pow10(|b|) + (DecimalValue(b') * 10 + DigitValue(b[|b| - 1]));
      }
    }
  }

  lemma MulDistrib(x: int, y: int, z: int)
    ensures (x + y) * z == x * z + y * z
  {
  }

  lemma MulAssoc(x: int, y: int, z: int)
    ensures x * y * z == x * (y * z) && x * (y * z) == x * (z * y)
  {
  }

  /** The leading run of decimal digits of `s`. */
  function LeadingDigits(s: string): (r: string)
    ensures AllDigits(r) && r <= s
  {
    s[..FindFirstNotOf(s, Digits, 0)]
  }

  /**
   * `atoi`: skip leading white space, accept one optional sign, then read the
   * longest run of digits; no digits read as 0. Overflow, undefined in C, is
   * not modelled: the value is unbounded.
   */
  function Atoi(s: string): int
  {
    var t := s[FindFirstNotOf(s, Whitespace, 0)..];
    if |t| > 0 && t[0] == '-' then -(DecimalValue(LeadingDigits(t[1..]))as int)
    else if |t| > 0 && t[0] == '+' then DecimalValue(LeadingDigits(t[1..]))
    else DecimalValue(LeadingDigits(t))
  }

  /** The leading digits of a digit string followed by a non-digit are exactly those digits. */
  lemma {:induction false} LeadingDigitsOf(ds: string, rest: string)
    requires AllDigits(ds)
    requires rest != [] ==> rest[0] !in Digits
    ensures LeadingDigits(ds + rest) == ds
  {
    var s := ds + rest;
    assert forall k :: 0 <= k < |ds| ==> s[k] in Digits;
    FindFirstNotOfIs(s, Digits, 0, |ds|);
  }

  lemma {:induction false} FindFirstNotOfIs(s: string, d: set<char>, from: nat, r: nat)
    requires from <= r <= |s|
    requires forall k :: from <= k < r ==> s[k] in d
    requires r < |s| ==> s[r] !in d
    ensures FindFirstNotOf(s, d, from) == r
    decreases r - from
  {
    if from < r {
      FindFirstNotOfIs(s, d, from + 1, r);
    }
  }

  /** `atoi` reads back `std::to_string` and stops at the first non-digit. */
  lemma {:induction false} AtoiOfDecimal(n: nat, rest: string)
    requires rest != [] ==> rest[0] !in Digits
    ensures Atoi(NatToString(n) + rest) == n
  {
    var ds := NatToString(n);
    DecimalOfNatToString(n);
    LeadingDigitsOf(ds, rest);
    var s := ds + rest;
    assert s[0] == ds[0] && ds[0] in Digits;
    assert s[0] !in Whitespace && s[0] != '-' && s[0] != '+';
    FindFirstNotOfIs(s, Whitespace, 0, 0);
    assert s[0..] == s;
    assert Atoi(s) == DecimalValue(LeadingDigits(s));
  }

  /** A minus sign in front negates the value `atoi` reads. */
  lemma {:induction false} AtoiOfNegative(n: nat, rest: string)
    requires rest != [] ==> rest[0] !in Digits
    ensures Atoi("-" + NatToString(n) + rest) == -(n as int)
  {
    var ds := NatToString(n);
    DecimalOfNatToString(n);
    var s := ds + rest;
    LeadingDigitsOf(ds, rest);
    var m := "-" + ds + rest;
    FindFirstNotOfIs(m, Whitespace, 0, 0);
    assert m[0..] == m && m[1..] == s;
  }

  /** Leading white space is skipped by `atoi`. */
  lemma {:induction false} AtoiSkipsSpace(c: char, s: string)
    requires c in Whitespace
    ensures Atoi([c] + s) == Atoi(s)
  {
    var t := [c] + s;
    var i := FindFirstNotOf(s, Whitespace, 0);
    assert forall k :: 1 <= k < 1 + i ==> t[k] == s[k - 1];
    FindFirstNotOfIs(t, Whitespace, 0, 1 + i);
    assert t[1 + i..] == s[i..];
  }

  // ---------------------------------------------------------------------
  // getCoreNum: parsing of /sys/devices/system/cpu/possible
  // ---------------------------------------------------------------------

  /**
   * Number of cores described by the first line of the CPU "possible" file:
   * a range "a-b" gives b + 1, a single number n gives n + 1. A text with a
   * dash but no second token is indexed out of range in C++ and is excluded.
   */
  function CoreNumFromText(t: string): int
    requires Contains(t, "-") ==> |Tokens(t, {'-'})| >= 2
  {
    if Contains(t, "-") then Atoi(Tokens(t, {'-'})[1]) + 1 else Atoi(t) + 1
  }

  /** The usual "0-N" line yields N + 1 cores, a lone "0" one core. */
  lemma {:induction false} CoreNumOfRange(n: nat)
    ensures Contains("0-" + NatToString(n) + "\n", "-")
    ensures |Tokens("0-" + NatToString(n) + "\n", {'-'})| >= 2
    ensures CoreNumFromText("0-" + NatToString(n) + "\n") == n + 1
    ensures CoreNumFromText("0\n") == 1
  {
    var ds := NatToString(n);
    var line := "0-" + ds + "\n";
    assert OccursAt(line, "-", 1);
    var second := ds + "\n";
    assert forall k :: 0 <= k < |second| ==> second[k] != '-';
    assert line == Join(["0", second], '-');
    TokensOfJoin(["0", second], '-', {'-'});
    AtoiOfDecimal(n, "\n");
    assert !Contains("0\n", "-") by {
      assert !OccursAt("0\n", "-", 0) && !OccursAt("0\n", "-", 1);
      assert forall i: nat :: i >= 2 ==> !OccursAt("0\n", "-", i);
    }
    AtoiOfDecimal(0, "\n");
    assert NatToString(0) == "0";
  }
}
