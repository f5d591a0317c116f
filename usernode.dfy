/**
 * Legacy pmtrace user events
 * (src/pmctl/performance-session-report/ds/LttngUserNode.cpp): the
 * provider:event field, the payload text and the signal name derived from a
 * C++ scope.
 */
module UserNode {
  import opened Util
  import opened Wrappers
  import opened DataNode
  import Definition

  /** Event types that are their own signal. */
  predicate IsSignalType(t: string)
  {
    t == Definition.TRACE_TYPE_SOINFO || t == Definition.TRACE_TYPE_TOUCHCOORDINATE ||
    t == Definition.TRACE_TYPE_MESSAGE || t == Definition.TRACE_TYPE_KEYVALUE
  }

  /** `setProviderAndEvent`: both names with spaces removed; fewer than two ':'-tokens change nothing. */
  function WithProviderAndEvent(n: NodeValue, str: string): NodeValue
  {
    var toks := Tokens(str, {':'});
    if |toks| < 2 then n
    else
      var ev := Without(toks[1], " ");
      n.(providerName := Without(toks[0], " "), eventType := ev,
         signal := if IsSignalType(ev) then ev else n.signal)
  }

  method SetProviderAndEvent(node: TraceNode, str: string)
    modifies node
    ensures node.Value() == WithProviderAndEvent(old(node.Value()), str)
  {
    var tokens := Tokenize(str, [], {':'});
    if |tokens| < 2 {
      return;
    }
    node.providerName := DeleteChars(tokens[0], " ");
    node.eventType := DeleteChars(tokens[1], " ");
    if IsSignalType(node.eventType) {
      node.signal := node.eventType;
    }
  }

  /** "provider:event" sets both names; the signal follows the event exactly when it is a signal type. */
  lemma {:induction false} ProviderAndEventOfField(n: NodeValue, provider: string, event: string)
    requires |provider| > 0 && |event| > 0
    requires forall k :: 0 <= k < |provider| ==> provider[k] !in {':', ' '}
    requires forall k :: 0 <= k < |event| ==> event[k] !in {':', ' '}
    ensures var r := WithProviderAndEvent(n, provider + ":" + event);
      && r.providerName == provider && r.eventType == event
      && (IsSignalType(event) ==> r.signal == event)
      && (!IsSignalType(event) ==> r.signal == n.signal)
  {
    assert provider + ":" + event == Join([provider, event], ':');
    TokensOfJoin([provider, event], ':', {':'});
    WithoutNothing(provider, " ");
    WithoutNothing(event, " ");
  }

  // ---------------------------------------------------------------------
  // makeSignal
  // ---------------------------------------------------------------------

  /** The last word that contains "::", or `dflt` when none does. */
  function LastScoped(words: seq<string>, dflt: string): (r: string)
    decreases |words|
  {
    if words == [] then dflt
    else if Contains(words[|words| - 1], "::") then words[|words| - 1]
    else LastScoped(words[..|words| - 1], dflt)
  }

  lemma {:induction false} LastScopedStep(words: seq<string>, dflt: string, i: nat)
    requires i < |words|
    ensures LastScoped(words[..i + 1], dflt) ==
      if Contains(words[i], "::") then words[i] else LastScoped(words[..i], dflt)
  {
    assert words[..i + 1][..i] == words[..i];
  }

  /** LastScoped picks the word at `i` exactly when no later word carries "::". */
  lemma {:induction false} LastScopedIs(words: seq<string>, dflt: string, i: nat)
    requires i < |words| && Contains(words[i], "::")
    requires forall j :: i < j < |words| ==> !Contains(words[j], "::")
    ensures LastScoped(words, dflt) == words[i]
    decreases |words|
  {
    if i < |words| - 1 {
      LastScopedIs(words[..|words| - 1], dflt, i);
    }
  }

  /** Without any "::" word the default is kept. */
  lemma {:induction false} LastScopedNone(words: seq<string>, dflt: string)
    requires forall j :: 0 <= j < |words| ==> !Contains(words[j], "::")
    ensures LastScoped(words, dflt) == dflt
    decreases |words|
  {
    if words != [] {
      LastScopedNone(words[..|words| - 1], dflt);
    }
  }

  /** A text containing "::" has a non-'(' character, so its first '('-token exists. */
  lemma {:induction false} ScopedHasHead(str: string)
    requires Contains(str, "::")
    ensures Tokens(str, {'('}) != []
  {
    var i := FindFrom(str, "::", 0);
    assert str[i..i + 2][0] == str[i] == ':';
    TokensNonEmpty(str, {'('}, i);
  }

  /**
   * `makeSignal`: the declaration before the first '(' is split at spaces,
   * the last word naming a scope is kept (the whole declaration when none
   * does), and every "::" becomes "_".
   */
  function SignalOf(str: string): string
    requires Contains(str, "::")
  {
    ScopedHasHead(str);
    var head := Tokens(str, {'('})[0];
    ReplaceAll(LastScoped(Tokens(head, {' '}), head), "::", "_")
  }

  method MakeSignal(str: string) returns (r: string)
    requires Contains(str, "::")
    ensures r == SignalOf(str)
  {
    ScopedHasHead(str);
    var tokens := Tokenize(str, [], {'('});
    var head := tokens[0];
    var temp := head;
    var words := Tokenize(head, [], {' '});
    var i := 0;
    while i < |words|
      invariant 0 <= i <= |words|
      invariant temp == LastScoped(words[..i], head)
    {
      LastScopedStep(words, head, i);
      if FindFrom(words[i], "::", 0) >= 0 {
        temp := words[i];
      }
      i := i + 1;
    }
    assert words[..i] == words;
    r := ReplaceString(temp, "::", "_");
  }

  /** The first '('-token of a text is what precedes its first '('. */
  lemma {:induction false} HeadBeforeParen(head: string, rest: string)
    requires |head| > 0 && forall k :: 0 <= k < |head| ==> head[k] != '('
    ensures Tokens(head + "(" + rest, {'('}) != []
    ensures Tokens(head + "(" + rest, {'('})[0] == head
  {
    var str := head + "(" + rest;
    TokensRun(str, {'('}, 0, |head|);
    assert str[0..] == str && str[0..|head|] == head;
  }

  /** "ns::name" contains the scope separator. */
  lemma {:induction false} QualifiedContains(ns: string, name: string, pre: string, post: string)
    ensures Contains(pre + ns + "::" + name + post, "::")
  {
    var s := pre + ns + "::" + name + post;
    var i := |pre| + |ns|;
    assert s[i..i + 2] == "::";
    assert OccursAt(s, "::", i);
    ContainsIff(s, "::");
  }

  /** The words "ret" and "ns::name" of a declaration head. */
  lemma {:induction false} WordsOfHead(ret: string, qualified: string)
    requires |ret| > 0 && |qualified| > 0
    requires forall k :: 0 <= k < |ret| ==> ret[k] != ' '
    requires forall k :: 0 <= k < |qualified| ==> qualified[k] != ' '
    ensures Tokens(ret + " " + qualified, {' '}) == [ret, qualified]
  {
    assert ret + " " + qualified == Join([ret, qualified], ' ');
    TokensOfJoin([ret, qualified], ' ', {' '});
  }

  /** The signal of a text whose head splits into a plain word and a qualified name. */
  lemma {:induction false} SignalOfHead(str: string, ret: string, ns: string, name: string)
    requires Contains(str, "::")
    requires Tokens(str, {'('}) != [] && Tokens(str, {'('})[0] == ret + " " + ns + "::" + name
    requires Tokens(ret + " " + ns + "::" + name, {' '}) == [ret, ns + "::" + name]
    requires forall k :: 0 <= k < |ns| ==> ns[k] != ':'
    requires forall k :: 0 <= k < |name| ==> name[k] != ':'
    ensures SignalOf(str) == ns + "_" + name
  {
    var qualified := ns + "::" + name;
    QualifiedContains(ns, name, "", "");
    assert "" + ns + "::" + name + "" == qualified;
    LastScopedIs([ret, qualified], ret + " " + qualified, 1);
    ReplaceAllSingle(ns, "::", name, "_");
  }

  /** "ret ns::Name(args": the qualified name with "::" replaced is the signal. */
  lemma {:induction false} SignalOfDeclaration(ret: string, ns: string, name: string, args: string)
    requires |ret| > 0 && |ns| > 0 && |name| > 0
    requires forall k :: 0 <= k < |ret| ==> ret[k] !in {' ', '(', ':'}
    requires forall k :: 0 <= k < |ns| ==> ns[k] !in {' ', '(', ':'}
    requires forall k :: 0 <= k < |name| ==> name[k] !in {' ', '(', ':'}
    ensures Contains(ret + " " + ns + "::" + name + "(" + args, "::")
    ensures SignalOf(ret + " " + ns + "::" + name + "(" + args) == ns + "_" + name
  {
    var qualified := ns + "::" + name;
    var head := ret + " " + qualified;
    var str := ret + " " + ns + "::" + name + "(" + args;
    assert str == head + "(" + args;
    assert head == ret + " " + ns + "::" + name;
    QualifiedContains(ns, name, ret + " ", "(" + args);
    assert (ret + " ") + ns + "::" + name + ("(" + args) == str;
    assert Contains(str, "::");
    assert forall k :: 0 <= k < |head| ==> head[k] != '(';
    HeadBeforeParen(head, args);
    assert forall k :: 0 <= k < |qualified| ==> qualified[k] != ' ';
    WordsOfHead(ret, qualified);
    assert Tokens(str, {'('})[0] == ret + " " + ns + "::" + name;
    assert Tokens(ret + " " + ns + "::" + name, {' '}) == [ret, ns + "::" + name];
    assert forall k :: 0 <= k < |ns| ==> ns[k] != ':';
    assert forall k :: 0 <= k < |name| ==> name[k] != ':';
    SignalOfHead(str, ret, ns, name);
  }

  // ---------------------------------------------------------------------
  // setPayload
  // ---------------------------------------------------------------------

  /** `s.substr(1, s.size())`; an empty `s` (which C++ rejects with an exception) gives "". */
  function AfterFirst(s: string): string
  {
    if s == [] then [] else s[1..]
  }

  /**
   * `setPayload` of a legacy user event. A payload with exactly one '=' is a
   * scope: when its key is "scope", the value (quotes removed, first
   * character dropped) is stored under "scope" and the signal is named from
   * it. Any other payload is a list of key=value pieces.
   */
  function WithLegacyPayload(n: NodeValue, str: string): NodeValue
  {
    if |str| < 8 then n
    else
      var temp := PayloadText(str);
      if multiset(temp)['='] == 1 then
        match Pair(temp, {'='})
        case Some((left, r)) =>
          if left == "scope" then
            var right := Without(r, "\"");
            AddPayload(n, "scope", AfterFirst(right)).(signal := if Contains(right, "::") then SignalOf(right) else right)
          else n
        case None => n
      else n.(payload := StorePieces(n.payload, CommaPieces(temp)))
  }

  method SetPayload(node: TraceNode, str: string)
    modifies node
    ensures node.Value() == WithLegacyPayload(old(node.Value()), str)
  {
    if |str| < 8 {
      return;
    }
    var temp := str[2..|str| - 3];
    var eq := CountChar(temp, '=');
    if eq == 1 {
      var ok, left, right := DividePair(temp, "", "", {'='});
      if left == "scope" {
        right := DeleteChars(right, "\"");
        node.AddPayloadMap(left, AfterFirst(right));
        if FindFrom(right, "::", 0) >= 0 {
          node.signal := MakeSignal(right);
        } else {
          node.signal := right;
        }
      }
    } else {
      node.StoreCommaPairs(temp);
    }
  }

  lemma KeyScope()
    ensures Without("scope ", " ") == "scope"
  {
    WithoutCons(' ', [], " ");
    WithoutCons('e', " ", " ");
    WithoutCons('p', "e ", " ");
    WithoutCons('o', "pe ", " ");
    WithoutCons('c', "ope ", " ");
    WithoutCons('s', "cope ", " ");
  }

  lemma {:induction false} DropQuote(v: string)
    requires forall k :: 0 <= k < |v| ==> v[k] != '"'
    ensures Without(['"'] + v, "\"") == v
  {
    WithoutNothing(v, "\"");
    WithoutCons('"', v, "\"");
  }

  lemma {:induction false} KeepSpace(v: string)
    requires Without(['"'] + v, "\"") == v
    ensures Without([' '] + (['"'] + v), "\"") == [' '] + v
  {
    WithoutCons(' ', ['"'] + v, "\"");
  }

  /** Removing the quotes from ` "v` leaves ` v`. */
  lemma {:induction false} QuotedValue(v: string)
    requires forall k :: 0 <= k < |v| ==> v[k] != '"'
    ensures Without(" \"" + v, "\"") == " " + v
  {
    DropQuote(v);
    KeepSpace(v);
    assert " \"" + v == [' '] + (['"'] + v);
  }

  lemma {:induction false} ScopeTextIs(v: string)
    ensures |"{ scope = \"" + v + "\" }"| >= 8
    ensures PayloadText("{ scope = \"" + v + "\" }") == "scope " + ['='] + (" \"" + v)
  {
    var str := "{ scope = \"" + v + "\" }";
    assert str == "{ " + ("scope " + ['='] + (" \"" + v)) + "\" }";
    var t := "scope " + ['='] + (" \"" + v);
    assert str[2..|str| - 3] == t;
  }

  lemma {:induction false} OneEquals(left: string, right: string)
    requires '=' !in left && forall k :: 0 <= k < |right| ==> right[k] != '='
    ensures multiset(left + ['='] + right)['='] == 1
  {
    assert multiset(left + ['='] + right) == multiset(left) + multiset(['=']) + multiset(right);
    assert '=' !in multiset(right);
  }

  /** The text of a scope payload has one '=' and divides into the key "scope" and the quoted value. */
  lemma {:induction false} ScopeText(v: string)
    requires |v| > 0 && forall k :: 0 <= k < |v| ==> v[k] !in {'=', '"'}
    ensures |"{ scope = \"" + v + "\" }"| >= 8
    ensures multiset(PayloadText("{ scope = \"" + v + "\" }"))['='] == 1
    ensures Pair(PayloadText("{ scope = \"" + v + "\" }"), {'='}) == Some(("scope", " \"" + v))
  {
    ScopeTextIs(v);
    var right := " \"" + v;
    assert forall k :: 0 <= k < |right| ==> right[k] != '=';
    OneEquals("scope ", right);
    PairOfJoined("scope ", right, '=');
    KeyScope();
  }

  /**
   * A scope payload `{ scope = "v" }`: v is stored under "scope" and the
   * signal is the value as it stands after the '=' (with its leading space),
   * or the name made from it when it is qualified.
   */
  lemma {:induction false} ScopePayload(n: NodeValue, v: string)
    requires |v| > 0 && "scope" !in n.payload
    requires forall k :: 0 <= k < |v| ==> v[k] !in {'=', '"'}
    ensures var r := WithLegacyPayload(n, "{ scope = \"" + v + "\" }");
      && GetPayload(r, "scope") == v
      && r.signal == (if Contains(" " + v, "::") then SignalOf(" " + v) else " " + v)
  {
    ScopeText(v);
    QuotedValue(v);
    assert AfterFirst(" " + v) == v;
  }
}
