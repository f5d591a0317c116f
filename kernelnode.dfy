/**
 * Kernel events (src/pmctl/performance-session-report/ds/LttngKernelNode.cpp):
 * the provider is the event name before ':', and the payload is a list of
 * key=value pieces such as `prev_comm = "foo", prev_tid = 12`.
 */
module KernelNode {
  import opened Util
  import opened DataNode

  /** `setProvider`: the text before the first ':'; a field made only of ':' has no token and is excluded. */
  function WithProvider(n: NodeValue, str: string): NodeValue
    requires Tokens(str, {':'}) != []
  {
    n.(providerName := Tokens(str, {':'})[0])
  }

  method SetProvider(node: TraceNode, str: string)
    requires Tokens(str, {':'}) != []
    modifies node
    ensures node.Value() == WithProvider(old(node.Value()), str)
  {
    var tokens := Tokenize(str, [], {':'});
    node.providerName := tokens[0];
  }

  /** "sched_switch:" names the provider sched_switch. */
  lemma {:induction false} ProviderOfField(n: NodeValue, name: string, rest: string)
    requires |name| > 0 && forall k :: 0 <= k < |name| ==> name[k] != ':'
    ensures Tokens(name + ":" + rest, {':'}) != []
    ensures WithProvider(n, name + ":" + rest).providerName == name
  {
    var s := name + ":" + rest;
    TokensRun(s, {':'}, 0, |name|);
    assert s[0..] == s && s[0..|name|] == name;
  }

  /** `setPayload` of a kernel event: every key=value piece, first occurrence of a key wins. */
  function WithKernelPayload(n: NodeValue, str: string): (r: NodeValue)
    ensures r.(payload := n.payload) == n
    ensures |str| >= 8 ==> r.payload.Keys == n.payload.Keys + PieceKeys(CommaPieces(PayloadText(str)))
    ensures forall k :: k in n.payload ==> k in r.payload && r.payload[k] == n.payload[k]
  {
    if |str| < 8 then n
    else
      StorePiecesKeys(n.payload, CommaPieces(PayloadText(str)));
      n.(payload := StorePieces(n.payload, CommaPieces(PayloadText(str))))
  }

  method SetPayload(node: TraceNode, str: string)
    modifies node
    ensures node.Value() == WithKernelPayload(old(node.Value()), str)
  {
    if |str| < 8 {
      return;
    }
    var temp := str[2..|str| - 3];
    node.StoreCommaPairs(temp);
  }

  /** A payload field "k=v" on a fresh key stores v without quotes and spaces under k without spaces. */
  lemma {:induction false} KernelPieceStored(m: map<string, string>, k: string, v: string, before: seq<string>, after: seq<string>)
    requires |k| > 0 && |v| > 0
    requires forall i :: 0 <= i < |k| ==> k[i] != '='
    requires forall i :: 0 <= i < |v| ==> v[i] != '='
    requires Without(k, " ") !in m
    requires forall j :: 0 <= j < |before| && Contains(before[j], "=") ==> PieceEntry(before[j]).0 != Without(k, " ")
    ensures Without(k, " ") in StorePieces(m, before + [k + "=" + v] + after)
    ensures StorePieces(m, before + [k + "=" + v] + after)[Without(k, " ")] == Without(v, "\" ")
  {
    var pieces := before + [k + "=" + v] + after;
    PieceEntryOfPair(k, v);
    assert pieces[|before|] == k + "=" + v;
    forall j | 0 <= j < |before| && Contains(pieces[j], "=")
      ensures PieceEntry(pieces[j]).0 != PieceEntry(pieces[|before|]).0
    {
      assert pieces[j] == before[j];
    }
    StorePiecesFirstWins(m, pieces, |before|);
  }
}
