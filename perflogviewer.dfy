/**
 * The performance-log viewer (files/scripts/perf_log_viewer.py): log
 * entries are matched against the start and end conditions of configured
 * contexts, and `analyze` cuts the log into groups, each running from a
 * start entry to the last end entry inside the context's allowed response
 * time.
 *
 * Clocks are whole milliseconds (the script's float seconds times 1000).
 * Values the script reads from JSON with `.get` are `Option<string>`, with
 * `None` for Python's `None`.
 */
module PerfLogViewer {
  import opened Wrappers
  import opened Util

  /** A log line and the fields `parse` extracted from it. */
  datatype Entry = Entry(
    raw: string, proc: Option<string>, perfType: Option<string>, perfGroup: Option<string>,
    msgid: Option<string>, clock: int)

  /** Python truthiness of an optional string. */
  predicate Truthy(v: Option<string>)
  {
    v.Some? && v.value != ""
  }

  /** `is_perf_log`: both the type and the group are set and non-empty. */
  predicate IsPerfLog(e: Entry)
  {
    Truthy(e.perfType) && Truthy(e.perfGroup)
  }

  // ---------------------------------------------------------------------
  // Required strings
  // ---------------------------------------------------------------------

  /**
   * The scan of `is_contain_required_strs`: each string's first position
   * (-1 when absent) is no smaller than the one before, starting from 0.
   */
  predicate InOrderFrom(raw: string, reqs: seq<string>, prev: int)
    decreases |reqs|
  {
    reqs == [] || (prev <= FindFrom(raw, reqs[0], 0) && InOrderFrom(raw, reqs[1..], FindFrom(raw, reqs[0], 0)))
  }

  /** `is_contain_required_strs`. */
  predicate ContainsRequired(raw: string, reqs: seq<string>)
  {
    |reqs| == 0 || InOrderFrom(raw, reqs, 0)
  }

  lemma {:induction false} InOrderFromMeaning(raw: string, reqs: seq<string>, prev: int)
    ensures InOrderFrom(raw, reqs, prev) <==>
      (forall k :: 0 <= k < |reqs| ==> prev <= FindFrom(raw, reqs[k], 0)) &&
      (forall j, k :: 0 <= j < k < |reqs| ==> FindFrom(raw, reqs[j], 0) <= FindFrom(raw, reqs[k], 0))
    decreases |reqs|
  {
    if reqs != [] {
      InOrderFromMeaning(raw, reqs[1..], FindFrom(raw, reqs[0], 0));
      assert forall k :: 1 <= k < |reqs| ==> reqs[k] == reqs[1..][k - 1];
    }
  }

  /**
   * The required strings are all present, and their first occurrences
   * come in list order (an empty list always passes).
   */
  lemma {:induction false} ContainsRequiredMeaning(raw: string, reqs: seq<string>)
    ensures ContainsRequired(raw, reqs) <==>
      && (forall k :: 0 <= k < |reqs| ==> Contains(raw, reqs[k]))
      && (forall j, k :: 0 <= j < k < |reqs| ==> FindFrom(raw, reqs[j], 0) <= FindFrom(raw, reqs[k], 0))
  {
    InOrderFromMeaning(raw, reqs, 0);
  }

  // ---------------------------------------------------------------------
  // Conditions and contexts
  // ---------------------------------------------------------------------

  datatype Condition = Condition(
    perfType: Option<string>, perfGroup: Option<string>, msgid: Option<string>, requiredStrings: seq<string>)

  const WILDCARD: Option<string> := Some("*")

  /** The value is the wildcard `"*"`, compared character by character. */
  predicate IsWildcard(v: Option<string>)
  {
    v.Some? && |v.value| == 1 && v.value[0] == '*'
  }

  lemma IsWildcardIff(v: Option<string>)
    ensures IsWildcard(v) <==> v == WILDCARD
  {
    if IsWildcard(v) {
      assert v.value == "*";
    }
  }

  /** `Condition.is_matched`. */
  predicate IsMatched(c: Condition, e: Entry)
  {
    && (IsWildcard(c.perfType) || c.perfType == e.perfType)
    && (IsWildcard(c.perfGroup) || c.perfGroup == e.perfGroup)
    && (IsWildcard(c.msgid) || c.msgid == e.msgid)
    && (|c.requiredStrings| == 0 || ContainsRequired(e.raw, c.requiredStrings))
  }

  /**
   * A condition matches iff each of type, group and message id is the
   * wildcard or equal to the entry's, and every required string occurs in
   * the raw line in order.
   */
  lemma {:induction false} IsMatchedMeaning(c: Condition, e: Entry)
    ensures IsMatched(c, e) <==>
      && (c.perfType == WILDCARD || c.perfType == e.perfType)
      && (c.perfGroup == WILDCARD || c.perfGroup == e.perfGroup)
      && (c.msgid == WILDCARD || c.msgid == e.msgid)
      && (forall k :: 0 <= k < |c.requiredStrings| ==> Contains(e.raw, c.requiredStrings[k]))
      && (forall j, k :: 0 <= j < k < |c.requiredStrings| ==>
            FindFrom(e.raw, c.requiredStrings[j], 0) <= FindFrom(e.raw, c.requiredStrings[k], 0))
  {
    ContainsRequiredMeaning(e.raw, c.requiredStrings);
    IsWildcardIff(c.perfType);
    IsWildcardIff(c.perfGroup);
    IsWildcardIff(c.msgid);
  }

  datatype Context = Context(
    perfType: Option<string>, perfGroup: Option<string>, allowedResponseMs: int,
    starts: seq<Condition>, ends: seq<Condition>)

  /** Some condition of the list matches the entry. */
  predicate AnyMatched(conds: seq<Condition>, e: Entry)
    decreases |conds|
  {
    conds != [] && (IsMatched(conds[0], e) || AnyMatched(conds[1..], e))
  }

  lemma {:induction false} AnyMatchedIff(conds: seq<Condition>, e: Entry)
    ensures AnyMatched(conds, e) <==> exists i :: 0 <= i < |conds| && IsMatched(conds[i], e)
    decreases |conds|
  {
    if conds != [] {
      AnyMatchedIff(conds[1..], e);
      assert forall i :: 1 <= i < |conds| ==> conds[i] == conds[1..][i - 1];
    }
  }

  /** `get_matched_start_cond`: the first condition that matches, if any. */
  function FirstMatched(conds: seq<Condition>, e: Entry): (r: Option<Condition>)
    ensures r.Some? <==> AnyMatched(conds, e)
    decreases |conds|
  {
    if conds == [] then None
    else if IsMatched(conds[0], e) then Some(conds[0])
    else FirstMatched(conds[1..], e)
  }

  /** The condition found is the first of the list that matches. */
  lemma {:induction false} FirstMatchedMeaning(conds: seq<Condition>, e: Entry)
    ensures FirstMatched(conds, e).Some? ==>
      exists i :: 0 <= i < |conds| && conds[i] == FirstMatched(conds, e).value && IsMatched(conds[i], e) &&
        forall j :: 0 <= j < i ==> !IsMatched(conds[j], e)
    decreases |conds|
  {
    if conds != [] && !IsMatched(conds[0], e) {
      FirstMatchedMeaning(conds[1..], e);
      assert forall i :: 1 <= i < |conds| ==> conds[i] == conds[1..][i - 1];
      if FirstMatched(conds, e).Some? {
        var i :| 0 <= i < |conds[1..]| && conds[1..][i] == FirstMatched(conds, e).value && IsMatched(conds[1..][i], e) &&
          forall j :: 0 <= j < i ==> !IsMatched(conds[1..][j], e);
        assert conds[i + 1] == FirstMatched(conds, e).value;
      }
    }
  }

  /** `get_matching_contexts_in_start_cond`: the contexts whose start conditions match, in order. */
  function MatchingContexts(ctxs: seq<Context>, e: Entry): (r: seq<Context>)
    ensures |r| <= |ctxs|
    ensures r != [] ==> AnyMatched(r[0].starts, e)
    decreases |ctxs|
  {
    if ctxs == [] then []
    else (if AnyMatched(ctxs[0].starts, e) then [ctxs[0]] else []) + MatchingContexts(ctxs[1..], e)
  }

  /** Exactly the contexts whose start conditions match are kept. */
  lemma {:induction false} MatchingContextsMeaning(ctxs: seq<Context>, e: Entry)
    ensures forall c :: c in MatchingContexts(ctxs, e) <==> c in ctxs && AnyMatched(c.starts, e)
    decreases |ctxs|
  {
    if ctxs != [] {
      MatchingContextsMeaning(ctxs[1..], e);
      assert forall c :: c in ctxs <==> c == ctxs[0] || c in ctxs[1..];
    }
  }

  /** `is_in_conditions`: some start or end condition of some context matches. */
  predicate InConditions(ctxs: seq<Context>, e: Entry)
  {
    exists i :: 0 <= i < |ctxs| && (AnyMatched(ctxs[i].starts, e) || AnyMatched(ctxs[i].ends, e))
  }

  // ---------------------------------------------------------------------
  // Representative type and group
  // ---------------------------------------------------------------------

  function Count(xs: seq<Option<string>>, v: Option<string>): nat
    decreases |xs|
  {
    if xs == [] then 0 else Count(xs[..|xs| - 1], v) + (if xs[|xs| - 1] == v then 1 else 0)
  }

  /**
   * The index `Counter.most_common(1)` picks among the first `n`: a most
   * frequent value, the earliest one on a tie.
   */
  function BestAmong(xs: seq<Option<string>>, n: nat): (r: nat)
    requires 0 < n <= |xs|
    ensures r < n
    ensures forall j :: 0 <= j < n ==> Count(xs, xs[j]) <= Count(xs, xs[r])
    ensures forall j :: 0 <= j < r ==> Count(xs, xs[j]) < Count(xs, xs[r])
  {
    if n == 1 then 0
    else
      var b := BestAmong(xs, n - 1);
      if Count(xs, xs[n - 1]) > Count(xs, xs[b]) then n - 1 else b
  }

  /**
   * `set_represent_type`/`set_represent_group`: an explicit (truthy) name
   * wins; otherwise a most frequent value of the entries, and nothing
   * changes for an empty list.
   */
  function Represent(name: Option<string>, values: seq<Option<string>>, current: Option<string>): (r: Option<string>)
    ensures Truthy(name) ==> r == name
    ensures !Truthy(name) && values == [] ==> r == current
    ensures !Truthy(name) && values != [] ==>
      exists k :: 0 <= k < |values| && r == values[k] &&
        (forall j :: 0 <= j < |values| ==> Count(values, values[j]) <= Count(values, r)) &&
        (forall j :: 0 <= j < k ==> Count(values, values[j]) < Count(values, r))
  {
    if Truthy(name) then name
    else if values == [] then current
    else values[BestAmong(values, |values|)]
  }

  function Types(es: seq<Entry>): (r: seq<Option<string>>)
    ensures |r| == |es| && forall i :: 0 <= i < |es| ==> r[i] == es[i].perfType
  {
    seq(|es|, i requires 0 <= i < |es| => es[i].perfType)
  }

  function Groups(es: seq<Entry>): (r: seq<Option<string>>)
    ensures |r| == |es| && forall i :: 0 <= i < |es| ==> r[i] == es[i].perfGroup
  {
    seq(|es|, i requires 0 <= i < |es| => es[i].perfGroup)
  }

  predicate SortedByClock(es: seq<Entry>)
  {
    forall i, j :: 0 <= i < j < |es| ==> es[i].clock <= es[j].clock
  }

  /** `LogList`: a list of entries with its representative type and group. */
  class LogList {
    var entries: seq<Entry>
    var reprType: Option<string>
    var reprGroup: Option<string>

    constructor(es: seq<Entry>)
      ensures entries == es && reprType == None && reprGroup == None
    {
      entries, reprType, reprGroup := es, None, None;
    }

    /** `clock_begin`: None for an empty list; in a sorted list, no clock is earlier. */
    function ClockBegin(): (r: Option<int>)
      reads this
      ensures r.None? <==> entries == []
      ensures r.Some? ==> r.value == entries[0].clock
      ensures r.Some? && SortedByClock(entries) ==> forall i :: 0 <= i < |entries| ==> r.value <= entries[i].clock
    {
      if entries == [] then None else Some(entries[0].clock)
    }

    /** `clock_end`: None for an empty list; in a sorted list, no clock is later. */
    function ClockEnd(): (r: Option<int>)
      reads this
      ensures r.None? <==> entries == []
      ensures r.Some? ==> r.value == entries[|entries| - 1].clock
      ensures r.Some? && SortedByClock(entries) ==> forall i :: 0 <= i < |entries| ==> entries[i].clock <= r.value
    {
      if entries == [] then None else Some(entries[|entries| - 1].clock)
    }

    method SetRepresentType(name: Option<string>)
      modifies this`reprType
      ensures reprType == Represent(name, Types(entries), old(reprType))
    {
      if Truthy(name) {
        reprType := name;
      } else {
        var types := Types(entries);
        if |types| > 0 {
          reprType := types[BestAmong(types, |types|)];
        }
      }
    }

    method SetRepresentGroup(name: Option<string>)
      modifies this`reprGroup
      ensures reprGroup == Represent(name, Groups(entries), old(reprGroup))
    {
      if Truthy(name) {
        reprGroup := name;
      } else {
        var groups := Groups(entries);
        if |groups| > 0 {
          reprGroup := groups[BestAmong(groups, |groups|)];
        }
      }
    }
  }

  // ---------------------------------------------------------------------
  // The key-value part of a pmlog line
  // ---------------------------------------------------------------------

  const BRACES: set<char> := {'{', '}'}

  function Delta(c: char): int
  {
    if c == '{' then 1 else if c == '}' then -1 else 0
  }

  /** Opening minus closing braces. */
  function Balance(s: string): int
    decreases |s|
  {
    if s == [] then 0 else Balance(s[..|s| - 1]) + Delta(s[|s| - 1])
  }

  /** The depth after the character at index `j`. */
  function DepthAt(s: string, j: nat): int
    requires j < |s|
  {
    Balance(s[..j + 1])
  }

  lemma BalanceStep(s: string, i: nat)
    requires i < |s|
    ensures DepthAt(s, i) == Balance(s[..i]) + Delta(s[i])
  {
    assert s[..i + 1][..i] == s[..i];
  }

  /**
   * The brace at `k` closes the object opened by the first brace of
   * `rest`: depth stays positive from that `{` until `k`, where it is 0.
   */
  predicate ClosesAt(rest: string, k: nat)
  {
    var f := FindFirstOf(rest, BRACES, 0);
    f < k < |rest| && rest[f] == '{' && DepthAt(rest, k) == 0
    && forall j :: f <= j < k ==> DepthAt(rest, j) > 0
  }

  /** No brace closes the object the first brace opens. */
  ghost predicate NeverCloses(rest: string)
  {
    forall k: nat :: !ClosesAt(rest, k)
  }

  /** Where the brace scan of `parse` stops. */
  datatype ScanEnd = Unmatched | EndsAt(index: nat)

  /**
   * The brace scan of `PmlogEntry.parse`. The stack only ever holds `{`, so
   * its height stands for it. A `}` on an empty stack raises, which `parse`
   * turns into False; when no brace closes the object the end index stays 0.
   */
  method ScanKvs(rest: string) returns (r: ScanEnd)
    ensures r.Unmatched? <==> FindFirstOf(rest, BRACES, 0) < |rest| && rest[FindFirstOf(rest, BRACES, 0)] == '}'
    ensures r.EndsAt? && r.index > 0 ==> ClosesAt(rest, r.index)
    ensures r.EndsAt? && r.index == 0 ==> NeverCloses(rest)
  {
    ghost var f := FindFirstOf(rest, BRACES, 0);
    var depth: nat := 0;
    var i := 0;
    while i < |rest|
      invariant 0 <= i <= |rest|
      invariant depth == Balance(rest[..i])
      invariant i <= f ==> depth == 0
      invariant i > f ==> depth > 0
      invariant i > f ==> rest[f] == '{' && forall j :: f <= j < i ==> DepthAt(rest, j) > 0
    {
      BalanceStep(rest, i);
      var ch := rest[i];
      assert i < f ==> ch !in BRACES;
      if ch == '{' {
        depth := depth + 1;
      } else if ch == '}' {
        if depth == 0 {
          assert i == f;
          return Unmatched;
        }
        depth := depth - 1;
      } else {
        assert i != f;
        i := i + 1;
        continue;
      }
      if depth == 0 {
        assert f < i;
        return EndsAt(i);
      }
      i := i + 1;
    }
    return EndsAt(0);
  }

  /**
   * The characters Python 3's `str.strip()` removes (those for which
   * `str.isspace()` holds): the ASCII controls 9 to 13 and 28 to 31, the
   * space, and the Unicode spaces and separators.
   */
  const WHITESPACE: set<char> := {
    '\t', '\n', 11 as char, 12 as char, '\r', 0x1C as char, 0x1D as char, 0x1E as char, 0x1F as char, ' ',
    0x85 as char, 0xA0 as char, 0x1680 as char,
    0x2000 as char, 0x2001 as char, 0x2002 as char, 0x2003 as char, 0x2004 as char, 0x2005 as char,
    0x2006 as char, 0x2007 as char, 0x2008 as char, 0x2009 as char, 0x200A as char,
    0x2028 as char, 0x2029 as char, 0x202F as char, 0x205F as char, 0x3000 as char}

  /** The index after the last non-whitespace character at or after `from`. */
  function TrimEnd(s: string, from: nat): (b: nat)
    requires from <= |s|
    ensures from <= b <= |s|
    ensures forall i :: b <= i < |s| ==> s[i] in WHITESPACE
    ensures b > from ==> s[b - 1] !in WHITESPACE
    decreases |s|
  {
    if |s| == from || s[|s| - 1] !in WHITESPACE then |s|
    else TrimEnd(s[..|s| - 1], from)
  }

  /** `str.strip()`: the text without leading and trailing whitespace. */
  function Strip(s: string): (r: string)
    ensures exists a, b :: (0 <= a <= b <= |s| && r == s[a..b] &&
      (forall i :: 0 <= i < a ==> s[i] in WHITESPACE) &&
      (forall i :: b <= i < |s| ==> s[i] in WHITESPACE))
    ensures r != [] ==> r[0] !in WHITESPACE && r[|r| - 1] !in WHITESPACE
  {
    var a := FindFirstNotOf(s, WHITESPACE, 0);
    var b := TrimEnd(s, a);
    s[a..b]
  }

  /**
   * The split `parse` makes of the text after the message id: the JSON
   * object up to the brace that closes it, and the stripped free text
   * after it. An unmatched `}` makes `parse` fail.
   */
  method SplitRest(rest: string) returns (ok: bool, kvs: string, freeText: string)
    ensures ok <==> !(FindFirstOf(rest, BRACES, 0) < |rest| && rest[FindFirstOf(rest, BRACES, 0)] == '}')
    ensures ok ==> exists k: nat :: (kvs == rest[..Min(k + 1, |rest|)] && freeText == Strip(rest[Min(k + 1, |rest|)..]) &&
      (k > 0 ==> ClosesAt(rest, k)) && (k == 0 ==> NeverCloses(rest)))
  {
    var r := ScanKvs(rest);
    if r.Unmatched? {
      return false, "", "";
    }
    var cut := Min(r.index + 1, |rest|);
    kvs := rest[..cut];
    freeText := Strip(rest[cut..]);
    ok := true;
    assert kvs == rest[..Min(r.index + 1, |rest|)] && freeText == Strip(rest[Min(r.index + 1, |rest|)..]);
    ghost var k: nat := r.index;
    assert (k > 0 ==> ClosesAt(rest, k)) && (k == 0 ==> NeverCloses(rest)) && (ClosesAt(rest, k) || !ClosesAt(rest, k));
  }

  function Min(a: nat, b: nat): nat
  {
    if a <= b then a else b
  }

  function Max(a: nat, b: nat): nat
  {
    if a >= b then a else b
  }

  // ---------------------------------------------------------------------
  // analyze
  // ---------------------------------------------------------------------

  /**
   * A group `analyze` found: the index of its start entry, the context and
   * start condition used, and its entries.
   */
  datatype Found = Found(start: nat, ctx: Context, cond: Condition, entries: seq<Entry>)

  /** The representative type and group the script sets on a found group. */
  function FoundRepresentatives(f: Found): (Option<string>, Option<string>)
  {
    (Represent(f.ctx.perfType, Types(f.entries), None), Represent(f.ctx.perfGroup, Groups(f.entries), None))
  }

  /** The comprehension of `analyze`: the entries earlier than `limit`, in order. */
  function Window(es: seq<Entry>, limit: int): (w: seq<Entry>)
    ensures |w| <= |es|
    decreases |es|
  {
    if es == [] then []
    else (if es[0].clock < limit then [es[0]] else []) + Window(es[1..], limit)
  }

  /** The window holds entries of the list earlier than the limit, beginning with the first when it is. */
  lemma {:induction false} WindowMeaning(es: seq<Entry>, limit: int)
    ensures forall e :: e in Window(es, limit) ==> e in es && e.clock < limit
    ensures es != [] && es[0].clock < limit ==> Window(es, limit) != [] && Window(es, limit)[0] == es[0]
    decreases |es|
  {
    if es != [] {
      WindowMeaning(es[1..], limit);
      assert forall e :: e in es[1..] ==> e in es;
    }
  }

  /** The index of the last entry among the first `n` that an end condition matches, or -1. */
  function LastEnd(ends: seq<Condition>, w: seq<Entry>, n: nat): (k: int)
    requires n <= |w|
    ensures -1 <= k < n
  {
    if n == 0 then -1
    else if AnyMatched(ends, w[n - 1]) then n - 1
    else LastEnd(ends, w, n - 1)
  }

  /** The index found matches an end condition, and no entry after it among the first `n` does. */
  lemma {:induction false} LastEndMeaning(ends: seq<Condition>, w: seq<Entry>, n: nat)
    requires n <= |w|
    ensures LastEnd(ends, w, n) >= 0 ==> AnyMatched(ends, w[LastEnd(ends, w, n)])
    ensures forall j :: LastEnd(ends, w, n) < j < n ==> !AnyMatched(ends, w[j])
  {
    if n > 0 && !AnyMatched(ends, w[n - 1]) {
      LastEndMeaning(ends, w, n - 1);
    }
  }

  /** The `for ... else` over the window reversed: where the last end entry is, or -1. */
  method LastEndIndex(ends: seq<Condition>, w: seq<Entry>) returns (k: int)
    ensures k == LastEnd(ends, w, |w|)
  {
    var i := |w|;
    while i > 0
      invariant 0 <= i <= |w|
      invariant LastEnd(ends, w, |w|) == LastEnd(ends, w, i)
    {
      if AnyMatched(ends, w[i - 1]) {
        return i - 1;
      }
      i := i - 1;
    }
    return -1;
  }

  /** Some entry of the list matches the condition. */
  predicate SomeMatchedBy(cond: Condition, es: seq<Entry>)
    decreases |es|
  {
    es != [] && (IsMatched(cond, es[0]) || SomeMatchedBy(cond, es[1..]))
  }

  lemma {:induction false} SomeMatchedByIff(cond: Condition, es: seq<Entry>)
    ensures SomeMatchedBy(cond, es) <==> exists i :: 0 <= i < |es| && IsMatched(cond, es[i])
    decreases |es|
  {
    if es != [] {
      SomeMatchedByIff(cond, es[1..]);
      assert forall i :: 1 <= i < |es| ==> es[i] == es[1..][i - 1];
    }
  }

  /**
   * One context's group from a window: cut after the last end entry; none
   * without an end entry, or when an entry after the first matches the
   * start condition again.
   */
  function Group(ctx: Context, cond: Condition, w: seq<Entry>): (g: Option<seq<Entry>>)
    ensures g.Some? ==> 0 < |g.value| <= |w|
  {
    var k := LastEnd(ctx.ends, w, |w|);
    if k < 0 then None
    else
      var g := w[..k + 1];
      if SomeMatchedBy(cond, g[1..]) then None else Some(g)
  }

  /**
   * A group is a prefix of the window ending in an entry the end conditions
   * match, with no later such entry in the window and no entry after the
   * first that matches the start condition; there is none exactly when the
   * window has no end entry or the start condition matches again before it.
   */
  lemma GroupMeaning(ctx: Context, cond: Condition, w: seq<Entry>)
    ensures var g := Group(ctx, cond, w);
      g.Some? ==> (g.value == w[..|g.value|] && AnyMatched(ctx.ends, g.value[|g.value| - 1]) &&
        (forall i :: 1 <= i < |g.value| ==> !IsMatched(cond, g.value[i])) &&
        (forall j :: |g.value| <= j < |w| ==> !AnyMatched(ctx.ends, w[j])))
    ensures var k := LastEnd(ctx.ends, w, |w|);
      Group(ctx, cond, w).None? <==> k < 0 || exists i :: 1 <= i <= k && IsMatched(cond, w[i])
  {
    var k := LastEnd(ctx.ends, w, |w|);
    LastEndMeaning(ctx.ends, w, |w|);
    if k >= 0 {
      var g := w[..k + 1];
      SomeMatchedByIff(cond, g[1..]);
      assert forall i :: 1 <= i < |g| ==> g[i] == g[1..][i - 1];
      assert forall i :: 1 <= i <= k ==> w[i] == g[1..][i - 1];
    }
  }

  /**
   * The loop over the matching contexts as written: each window is taken
   * from the current cursor, which has already moved past the groups of
   * the earlier contexts.
   */
  function ContextsAsWritten(ctxs: seq<Context>, es: seq<Entry>, start: nat, cur: nat, cond: Condition, acc: seq<Found>): (r: (nat, seq<Found>))
    requires start < |es| && cur < |es|
    ensures cur <= r.0 < |es|
    decreases |ctxs|
  {
    if ctxs == [] then (cur, acc)
    else
      var ctx := ctxs[0];
      var w := Window(es[cur..], es[start].clock + ctx.allowedResponseMs);
      var g := Group(ctx, cond, w);
      if g.None? then ContextsAsWritten(ctxs[1..], es, start, cur, cond, acc)
      else ContextsAsWritten(ctxs[1..], es, start, cur + |g.value| - 1, cond, acc + [Found(start, ctx, cond, g.value)])
  }

  /** The groups found as written at the entry under the cursor, and where the cursor ends up. */
  function GroupsAtAsWritten(ctxs: seq<Context>, es: seq<Entry>, cur: nat): (r: (nat, seq<Found>))
    requires cur < |es|
    ensures cur <= r.0 < |es|
  {
    var m := MatchingContexts(ctxs, es[cur]);
    if m == [] then (cur, [])
    else ContextsAsWritten(m, es, cur, cur, FirstMatched(m[0].starts, es[cur]).value, [])
  }

  function AnalyzeAsWritten(ctxs: seq<Context>, es: seq<Entry>, cur: nat): seq<Found>
    decreases |es| - cur
  {
    if cur >= |es| then []
    else
      var r := GroupsAtAsWritten(ctxs, es, cur);
      r.1 + AnalyzeAsWritten(ctxs, es, r.0 + 1)
  }

  lemma AnalyzeAsWrittenUnfold(ctxs: seq<Context>, es: seq<Entry>, cur: nat, r: (nat, seq<Found>))
    requires cur < |es| && r == GroupsAtAsWritten(ctxs, es, cur)
    ensures AnalyzeAsWritten(ctxs, es, cur) == r.1 + AnalyzeAsWritten(ctxs, es, r.0 + 1)
  {
  }

  // A start entry followed by an end entry, and a context whose
  // conditions pick each of them out.
  const ExampleStart := Entry("s", None, Some("T"), Some("G"), Some("begin"), 0)
  const ExampleEnd := Entry("e", None, Some("T"), Some("G"), Some("done"), 10)
  const ExampleStartCond := Condition(WILDCARD, WILDCARD, Some("begin"), [])
  const ExampleEndCond := Condition(WILDCARD, WILDCARD, Some("done"), [])
  const ExampleContext := Context(None, None, 100, [ExampleStartCond], [ExampleEndCond])

  lemma ExampleMatches()
    ensures AnyMatched(ExampleContext.starts, ExampleStart) && !AnyMatched(ExampleContext.starts, ExampleEnd)
    ensures AnyMatched(ExampleContext.ends, ExampleEnd) && !AnyMatched(ExampleContext.ends, ExampleStart)
    ensures !IsMatched(ExampleStartCond, ExampleEnd)
    ensures MatchingContexts([ExampleContext, ExampleContext], ExampleStart) == [ExampleContext, ExampleContext]
    ensures FirstMatched(ExampleContext.starts, ExampleStart) == Some(ExampleStartCond)
  {
    assert IsMatched(ExampleStartCond, ExampleStart);
    assert IsMatched(ExampleEndCond, ExampleEnd);
    assert [ExampleContext, ExampleContext][1..] == [ExampleContext];
  }

  lemma ExampleGroups()
    ensures Group(ExampleContext, ExampleStartCond, Window([ExampleStart, ExampleEnd], 100)) == Some([ExampleStart, ExampleEnd])
    ensures Group(ExampleContext, ExampleStartCond, Window([ExampleEnd], 100)) == Some([ExampleEnd])
  {
    ExampleMatches();
    assert [ExampleStart, ExampleEnd][1..] == [ExampleEnd];
    assert [ExampleEnd][1..] == [];
    var w2 := Window([ExampleEnd], 100);
    assert w2 == [ExampleEnd] + Window([], 100);
    assert w2 == [ExampleEnd];
    var w1 := Window([ExampleStart, ExampleEnd], 100);
    assert w1 == [ExampleStart] + w2;
    assert w1 == [ExampleStart, ExampleEnd];
    assert LastEnd(ExampleContext.ends, w1, 2) == 1;
    assert w1[..2] == w1 && w1[..2][1..] == [ExampleEnd];
    assert !SomeMatchedBy(ExampleStartCond, [ExampleEnd]);
    assert LastEnd(ExampleContext.ends, w2, 1) == 0;
    assert w2[..1] == [ExampleEnd] && w2[..1][1..] == [];
  }

  /**
   * Two copies of a context, over a start entry followed by an end entry:
   * the first group is [start, end], but the second context's window is
   * taken from the end entry, so the script reports a second group for the
   * same start entry that holds only the end entry.
   */
  lemma {:induction false} SecondContextSkipsStart()
    ensures var found := AnalyzeAsWritten([ExampleContext, ExampleContext], [ExampleStart, ExampleEnd], 0);
      |found| == 2 && found[0].entries == [ExampleStart, ExampleEnd] &&
      found[1].start == 0 && found[1].entries == [ExampleEnd]
  {
    var ctx, cs := ExampleContext, ExampleStartCond;
    var es := [ExampleStart, ExampleEnd];
    ExampleMatches();
    ExampleGroups();
    assert es[0..] == es && es[1..] == [ExampleEnd];
    assert [ctx, ctx][1..] == [ctx] && [ctx][1..] == [];
    assert es[0].clock + ctx.allowedResponseMs == 100;
    assert Group(ctx, cs, Window(es[0..], 100)) == Some(es);
    assert Group(ctx, cs, Window(es[1..], 100)) == Some([ExampleEnd]);
    var none: seq<Found> := [];
    var f1, f2 := Found(0, ctx, cs, es), Found(0, ctx, cs, [ExampleEnd]);
    assert none + [f1] == [f1] && [f1] + [f2] == [f1, f2];
    var r1 := ContextsAsWritten([ctx, ctx], es, 0, 0, cs, none);
    var r2 := ContextsAsWritten([ctx], es, 0, 1, cs, [f1]);
    assert r1 == r2;
    assert r2 == ContextsAsWritten([], es, 0, 1, cs, [f1, f2]);
    assert GroupsAtAsWritten([ctx, ctx], es, 0) == r1;
    assert AnalyzeAsWritten([ctx, ctx], es, 0) == r1.1 + AnalyzeAsWritten([ctx, ctx], es, 2);
  }

  /**
   * The loop over the matching contexts, each window taken from the start
   * entry; `last` is the index of the last entry of the longest group so far.
   */
  function Contexts(ctxs: seq<Context>, es: seq<Entry>, start: nat, cond: Condition, last: nat, acc: seq<Found>): (r: (nat, seq<Found>))
    requires start <= last < |es|
    ensures last <= r.0 < |es|
    decreases |ctxs|
  {
    if ctxs == [] then (last, acc)
    else
      var ctx := ctxs[0];
      var w := Window(es[start..], es[start].clock + ctx.allowedResponseMs);
      var g := Group(ctx, cond, w);
      if g.None? then Contexts(ctxs[1..], es, start, cond, last, acc)
      else Contexts(ctxs[1..], es, start, cond, Max(start + |g.value| - 1, last), acc + [Found(start, ctx, cond, g.value)])
  }

  /** A context without a group leaves the loop's state as it is. */
  lemma ContextsSkip(ctxs: seq<Context>, es: seq<Entry>, start: nat, cond: Condition, last: nat, acc: seq<Found>,
                     ctx: Context, w: seq<Entry>, g: Option<seq<Entry>>)
    requires start <= last < |es| && ctxs != [] && ctx == ctxs[0]
    requires w == Window(es[start..], es[start].clock + ctx.allowedResponseMs) && g == Group(ctx, cond, w)
    requires g.None?
    ensures Contexts(ctxs, es, start, cond, last, acc) == Contexts(ctxs[1..], es, start, cond, last, acc)
  {
  }

  /** A context with a group records it and extends `last` to the group's end. */
  lemma ContextsTake(ctxs: seq<Context>, es: seq<Entry>, start: nat, cond: Condition, last: nat, acc: seq<Found>,
                     ctx: Context, w: seq<Entry>, g: Option<seq<Entry>>, last': nat, acc': seq<Found>)
    requires start <= last < |es| && ctxs != [] && ctx == ctxs[0]
    requires w == Window(es[start..], es[start].clock + ctx.allowedResponseMs) && g == Group(ctx, cond, w)
    requires g.Some? && last' == Max(start + |g.value| - 1, last) && acc' == acc + [Found(start, ctx, cond, g.value)]
    ensures last' < |es|
    ensures Contexts(ctxs, es, start, cond, last, acc) == Contexts(ctxs[1..], es, start, cond, last', acc')
  {
  }

  /**
   * The groups found at the entry under the cursor, and the index of the
   * last entry the longest of them covers (the cursor itself when none).
   */
  function GroupsAt(ctxs: seq<Context>, es: seq<Entry>, cur: nat): (r: (nat, seq<Found>))
    requires cur < |es|
    ensures cur <= r.0 < |es|
  {
    var m := MatchingContexts(ctxs, es[cur]);
    if m == [] then (cur, [])
    else Contexts(m, es, cur, FirstMatched(m[0].starts, es[cur]).value, cur, [])
  }

  /** `analyze` from cursor `cur`, every context's window taken from the start entry. */
  function Analyze(ctxs: seq<Context>, es: seq<Entry>, cur: nat): seq<Found>
    decreases |es| - cur
  {
    if cur >= |es| then []
    else
      var r := GroupsAt(ctxs, es, cur);
      r.1 + Analyze(ctxs, es, r.0 + 1)
  }

  /** Over a single context, the corrected loop and the loop as written agree. */
  lemma {:induction false} ContextsAgreeOnOne(ctx: Context, es: seq<Entry>, start: nat, cond: Condition)
    requires start < |es|
    ensures Contexts([ctx], es, start, cond, start, []) == ContextsAsWritten([ctx], es, start, start, cond, [])
  {
    var w := Window(es[start..], es[start].clock + ctx.allowedResponseMs);
    var g := Group(ctx, cond, w);
    assert [ctx][1..] == [];
    if g.Some? {
      var f := [Found(start, ctx, cond, g.value)];
      assert [] + f == f;
      ContextsTake([ctx], es, start, cond, start, [], ctx, w, g, start + |g.value| - 1, f);
      assert ContextsAsWritten([ctx], es, start, start, cond, []) == ContextsAsWritten([], es, start, start + |g.value| - 1, cond, f);
    } else {
      ContextsSkip([ctx], es, start, cond, start, [], ctx, w, g);
    }
  }

  /** With one matching context, the corrected step and the step as written agree. */
  lemma {:induction false} GroupsAtAgreeOnOneContext(ctxs: seq<Context>, es: seq<Entry>, cur: nat)
    requires cur < |es| && |MatchingContexts(ctxs, es[cur])| <= 1
    ensures GroupsAt(ctxs, es, cur) == GroupsAtAsWritten(ctxs, es, cur)
  {
    var m := MatchingContexts(ctxs, es[cur]);
    if m != [] {
      assert m == [m[0]];
      ContextsAgreeOnOne(m[0], es, cur, FirstMatched(m[0].starts, es[cur]).value);
    }
  }

  /**
   * The correction only matters where several contexts match one entry:
   * when at most one context matches each entry from the cursor on,
   * `analyze` as written reports the groups `Analyze` defines.
   */
  lemma {:induction false} AnalyzeAgreesOnOneContext(ctxs: seq<Context>, es: seq<Entry>, cur: nat)
    requires forall i :: cur <= i < |es| ==> |MatchingContexts(ctxs, es[i])| <= 1
    ensures Analyze(ctxs, es, cur) == AnalyzeAsWritten(ctxs, es, cur)
    decreases |es| - cur
  {
    if cur < |es| {
      var r := GroupsAt(ctxs, es, cur);
      AnalyzeUnfold(ctxs, es, cur, r);
      GroupsAtAgreeOnOneContext(ctxs, es, cur);
      AnalyzeAsWrittenUnfold(ctxs, es, cur, r);
      AnalyzeAgreesOnOneContext(ctxs, es, r.0 + 1);
    }
  }

  lemma AnalyzeUnfold(ctxs: seq<Context>, es: seq<Entry>, cur: nat, r: (nat, seq<Found>))
    requires cur < |es| && r == GroupsAt(ctxs, es, cur)
    ensures Analyze(ctxs, es, cur) == r.1 + Analyze(ctxs, es, r.0 + 1)
  {
  }

  lemma AppendAssoc(found: seq<Found>, groups: seq<Found>, rest: seq<Found>, total: seq<Found>)
    requires found + (groups + rest) == total
    ensures (found + groups) + rest == total
  {
  }

  /** What every reported group satisfies. */
  predicate WellFound(ctxs: seq<Context>, es: seq<Entry>, f: Found)
  {
    && f.start < |es| && f.ctx in ctxs && AnyMatched(f.ctx.starts, es[f.start])
    && f.entries != [] && AnyMatched(f.ctx.ends, f.entries[|f.entries| - 1])
    && (forall i :: 1 <= i < |f.entries| ==> !IsMatched(f.cond, f.entries[i]))
    && (forall e :: e in f.entries ==> e in es[f.start..] && e.clock < es[f.start].clock + f.ctx.allowedResponseMs)
    && (f.ctx.allowedResponseMs > 0 ==> f.entries[0] == es[f.start])
  }

  /** A group cut from the window at `start` is well found. */
  /** A non-empty prefix of the window at `start` lies within the response time and, when that is positive, begins with the start entry. */
  lemma PrefixInWindow(es: seq<Entry>, start: nat, limit: int, g: seq<Entry>)
    requires start < |es| && 0 < |g| <= |Window(es[start..], limit)| && g == Window(es[start..], limit)[..|g|]
    ensures forall e :: e in g ==> e in es[start..] && e.clock < limit
    ensures es[start].clock < limit ==> g[0] == es[start]
  {
    var w := Window(es[start..], limit);
    WindowMeaning(es[start..], limit);
    assert forall e :: e in g ==> e in w;
    assert es[start..][0] == es[start];
  }

  lemma GroupFound(all: seq<Context>, es: seq<Entry>, start: nat, ctx: Context, cond: Condition, g: seq<Entry>)
    requires start < |es| && ctx in all && AnyMatched(ctx.starts, es[start])
    requires Group(ctx, cond, Window(es[start..], es[start].clock + ctx.allowedResponseMs)) == Some(g)
    ensures WellFound(all, es, Found(start, ctx, cond, g))
  {
    var w := Window(es[start..], es[start].clock + ctx.allowedResponseMs);
    GroupMeaning(ctx, cond, w);
    PrefixInWindow(es, start, es[start].clock + ctx.allowedResponseMs, g);
  }

  lemma {:induction false} ContextsFound(ctxs: seq<Context>, all: seq<Context>, es: seq<Entry>, start: nat, cond: Condition, last: nat, acc: seq<Found>)
    requires start <= last < |es|
    requires forall c :: c in ctxs ==> c in all && AnyMatched(c.starts, es[start])
    requires forall f :: f in acc ==> WellFound(all, es, f) && f.start == start
    ensures forall f :: f in Contexts(ctxs, es, start, cond, last, acc).1 ==> WellFound(all, es, f) && f.start == start
    decreases |ctxs|
  {
    if ctxs != [] {
      var ctx := ctxs[0];
      assert ctx in ctxs;
      var w := Window(es[start..], es[start].clock + ctx.allowedResponseMs);
      var g := Group(ctx, cond, w);
      assert forall c :: c in ctxs[1..] ==> c in ctxs;
      if g.None? {
        ContextsSkip(ctxs, es, start, cond, last, acc, ctx, w, g);
        ContextsFound(ctxs[1..], all, es, start, cond, last, acc);
      } else {
        var f := Found(start, ctx, cond, g.value);
        var last' := Max(start + |g.value| - 1, last);
        ContextsTake(ctxs, es, start, cond, last, acc, ctx, w, g, last', acc + [f]);
        GroupFound(all, es, start, ctx, cond, g.value);
        assert forall x :: x in acc + [f] ==> x in acc || x == f;
        ContextsFound(ctxs[1..], all, es, start, cond, last', acc + [f]);
      }
    }
  }

  /** The groups found at one entry are well found and record that entry. */
  lemma GroupsAtFound(ctxs: seq<Context>, es: seq<Entry>, cur: nat)
    requires cur < |es|
    ensures forall f :: f in GroupsAt(ctxs, es, cur).1 ==> WellFound(ctxs, es, f) && f.start == cur
  {
    var m := MatchingContexts(ctxs, es[cur]);
    if m != [] {
      MatchingContextsMeaning(ctxs, es[cur]);
      ContextsFound(m, ctxs, es, cur, FirstMatched(m[0].starts, es[cur]).value, cur, []);
    }
  }

  /**
   * Every group `analyze` reports starts at an entry that matches its
   * context's start conditions, ends with an entry that matches its end
   * conditions, holds no second entry matching the start condition, lies
   * within the allowed response time, and, for a positive response time,
   * begins with the start entry itself.
   */
  lemma {:induction false} AnalyzeFound(ctxs: seq<Context>, es: seq<Entry>, cur: nat)
    ensures forall f :: f in Analyze(ctxs, es, cur) ==> WellFound(ctxs, es, f)
    decreases |es| - cur
  {
    if cur < |es| {
      var r := GroupsAt(ctxs, es, cur);
      AnalyzeUnfold(ctxs, es, cur, r);
      GroupsAtFound(ctxs, es, cur);
      AnalyzeFound(ctxs, es, r.0 + 1);
      forall f | f in Analyze(ctxs, es, cur)
        ensures WellFound(ctxs, es, f)
      {
        if f !in r.1 {
          assert f in Analyze(ctxs, es, r.0 + 1);
        }
      }
    }
  }

  predicate StartsOrdered(fs: seq<Found>)
  {
    forall i, j :: 0 <= i < j < |fs| ==> fs[i].start <= fs[j].start
  }

  lemma OrderedConcat(a: seq<Found>, b: seq<Found>, x: nat)
    requires forall f :: f in a ==> f.start == x
    requires forall f :: f in b ==> x < f.start
    requires StartsOrdered(b)
    ensures StartsOrdered(a + b)
  {
    forall i, j | 0 <= i < j < |a + b|
      ensures (a + b)[i].start <= (a + b)[j].start
    {
      if j < |a| {
        assert (a + b)[i] in a && (a + b)[j] in a;
      } else if i < |a| {
        assert (a + b)[i] in a && (a + b)[j] == b[j - |a|] && b[j - |a|] in b;
      } else {
        assert (a + b)[i] == b[i - |a|] && (a + b)[j] == b[j - |a|];
      }
    }
  }

  /** Groups come in order of their start entries, which lie at or after the cursor. */
  lemma {:induction false} AnalyzeOrdered(ctxs: seq<Context>, es: seq<Entry>, cur: nat)
    ensures forall f :: f in Analyze(ctxs, es, cur) ==> cur <= f.start
    ensures StartsOrdered(Analyze(ctxs, es, cur))
    decreases |es| - cur
  {
    if cur < |es| {
      var r := GroupsAt(ctxs, es, cur);
      AnalyzeUnfold(ctxs, es, cur, r);
      GroupsAtFound(ctxs, es, cur);
      AnalyzeOrdered(ctxs, es, r.0 + 1);
      OrderedConcat(r.1, Analyze(ctxs, es, r.0 + 1), cur);
    }
  }

  /** One context's group: the trimming of the window after its last end entry. */
  method GroupOf(ctx: Context, cond: Condition, window: seq<Entry>) returns (g: Option<seq<Entry>>)
    ensures g == Group(ctx, cond, window)
  {
    var k := LastEndIndex(ctx.ends, window);
    if k < 0 {
      return None;
    }
    var found := window[..k + 1];
    if SomeMatchedBy(cond, found[1..]) {
      return None;
    }
    return Some(found);
  }

  /** The loop of `analyze` over the contexts matching the start entry at `cur`. */
  method ContextGroups(m: seq<Context>, es: seq<Entry>, cur: nat, cond: Condition) returns (last: nat, groups: seq<Found>)
    requires cur < |es|
    ensures (last, groups) == Contexts(m, es, cur, cond, cur, [])
  {
    last := cur;
    groups := [];
    var i := 0;
    while i < |m|
      invariant 0 <= i <= |m| && cur <= last < |es|
      invariant Contexts(m, es, cur, cond, cur, []) == Contexts(m[i..], es, cur, cond, last, groups)
    {
      assert m[i..][1..] == m[i + 1..];
      var ctx := m[i];
      assert m[i..][0] == ctx;
      var window := Window(es[cur..], es[cur].clock + ctx.allowedResponseMs);
      var g := GroupOf(ctx, cond, window);
      if g.Some? {
        var last', groups' := Max(cur + |g.value| - 1, last), groups + [Found(cur, ctx, cond, g.value)];
        ContextsTake(m[i..], es, cur, cond, last, groups, ctx, window, g, last', groups');
        last, groups := last', groups';
      } else {
        ContextsSkip(m[i..], es, cur, cond, last, groups, ctx, window, g);
      }
      i := i + 1;
    }
    assert m[|m|..] == [];
  }

  /** The groups found at the entry under the cursor. */
  method GroupsAtCursor(ctxs: seq<Context>, es: seq<Entry>, cur: nat) returns (last: nat, groups: seq<Found>)
    requires cur < |es|
    ensures (last, groups) == GroupsAt(ctxs, es, cur)
  {
    var m := MatchingContexts(ctxs, es[cur]);
    if m == [] {
      return cur, [];
    }
    var cond := FirstMatched(m[0].starts, es[cur]).value;
    last, groups := ContextGroups(m, es, cur, cond);
  }

  /**
   * `analyze`: a cursor walks the entries; at an entry that starts some
   * context, each matching context contributes the group of its window
   * from that entry, and the cursor moves past the longest group.
   */
  method AnalyzeLogs(ctxs: seq<Context>, es: seq<Entry>) returns (found: seq<Found>)
    ensures found == Analyze(ctxs, es, 0)
  {
    found := [];
    var cur := 0;
    while cur < |es|
      invariant 0 <= cur <= |es|
      invariant found + Analyze(ctxs, es, cur) == Analyze(ctxs, es, 0)
      decreases |es| - cur
    {
      var last, groups := GroupsAtCursor(ctxs, es, cur);
      AnalyzeUnfold(ctxs, es, cur, (last, groups));
      AppendAssoc(found, groups, Analyze(ctxs, es, last + 1), Analyze(ctxs, es, 0));
      found := found + groups;
      cur := last + 1;
    }
  }
}
