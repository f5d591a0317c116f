/**
 * New-format pmtrace user events
 * (src/pmctl/performance-session-report/ds/LttngUserNewNode.cpp): the
 * payload carries key=value fields followed by `payload = "<json>"`, whose
 * string and number members are added to the payload map.
 */
module UserNewNode {
  import opened Util
  import opened Wrappers
  import opened DataNode
  import opened Json
  import Definition

  /** `setProviderAndEvent` of the new format: as the legacy one, without touching the signal. */
  function WithProviderAndEvent(n: NodeValue, str: string): (r: NodeValue)
    ensures r.signal == n.signal && r.payload == n.payload
  {
    var toks := Tokens(str, {':'});
    if |toks| < 2 then n
    else n.(providerName := Without(toks[0], " "), eventType := Without(toks[1], " "))
  }

  method SetProviderAndEvent(node: TraceNode, str: string)
    modifies node
    ensures node.Value() == WithProviderAndEvent(old(node.Value()), str)
  {
    var tokens := Tokenize(str, [], {':'});
    if |tokens| < 2 {
      return;
    }
    node.providerName := DeleteChars(tokens[0], " ");
    node.eventType := DeleteChars(tokens[1], " ");
  }

  /** "provider:event" sets both names and nothing else. */
  lemma {:induction false} ProviderAndEventOfField(n: NodeValue, provider: string, event: string)
    requires |provider| > 0 && |event| > 0
    requires forall k :: 0 <= k < |provider| ==> provider[k] !in {':', ' '}
    requires forall k :: 0 <= k < |event| ==> event[k] !in {':', ' '}
    ensures WithProviderAndEvent(n, provider + ":" + event) == n.(providerName := provider, eventType := event)
  {
    assert provider + ":" + event == Join([provider, event], ':');
    TokensOfJoin([provider, event], ':', {':'});
    WithoutNothing(provider, " ");
    WithoutNothing(event, " ");
  }

  // ---------------------------------------------------------------------
  // Splitting the payload text
  // ---------------------------------------------------------------------

  /** `temp.find("payload")` as an int: -1 when absent. */
  function PayloadIndex(temp: string): int
  {
    FindFrom(temp, "payload", 0)
  }

  /**
   * `temp.substr(payloadIndex + 11, …)` throws unless the start is within the
   * text; with no "payload" the index is -1 and the start is 10.
   */
  predicate JsonStartInRange(str: string)
  {
    |str| >= 8 ==> PayloadIndex(PayloadText(str)) + 11 <= |PayloadText(str)|
  }

  /**
   * `temp.substr(0, payloadIndex - 2)`: the text before ", payload"; a
   * negative length becomes npos and keeps the whole text.
   */
  function EtcText(temp: string): (r: string)
    ensures r <= temp
  {
    var p := PayloadIndex(temp);
    if p >= 2 then temp[..p - 2] else temp
  }

  /**
   * `temp.substr(payloadIndex + 11, length - payloadIndex - 12)`: the text
   * after `payload = "` without the last character; empty when the start is
   * the end of the text (the length is then -1, that is npos).
   */
  function JsonText(temp: string): string
    requires PayloadIndex(temp) + 11 <= |temp|
  {
    var start := PayloadIndex(temp) + 11;
    if start < |temp| then temp[start..|temp| - 1] else []
  }

  /** The first occurrence of "payload" after text free of it and a ", " separator. */
  lemma {:induction false} PayloadIndexAfter(etc: string, rest: string)
    requires !Contains(etc, "payload")
    ensures PayloadIndex(etc + ", payload" + rest) == |etc| + 2
  {
    var t := etc + ", payload" + rest;
    var q := |etc| + 2;
    assert t[q..q + 7] == "payload";
    ContainsIff(etc, "payload");
    forall i | 0 <= i < q
      ensures !OccursAt(t, "payload", i)
    {
      if i + 7 <= |t| {
        if i + 7 <= |etc| {
          assert etc[i..i + 7] == t[i..i + 7];
          assert !OccursAt(etc, "payload", i);
        } else if i <= |etc| {
          assert t[i..i + 7][|etc| - i] == t[|etc|] == ',';
        } else {
          assert t[i..i + 7][0] == t[i] == ' ';
        }
      }
    }
    assert OccursAt(t, "payload", q);
    assert NoneBetween(t, "payload", 0, q);
  }

  /** `etc, payload = "J"` splits into the fields `etc` and the JSON text `J`. */
  lemma {:induction false} PayloadSplit(etc: string, json: string)
    requires |etc| > 0 && !Contains(etc, "payload")
    ensures var temp := etc + ", payload = \"" + json + "\"";
      && PayloadIndex(temp) + 11 <= |temp|
      && EtcText(temp) == etc
      && JsonText(temp) == json
  {
    var temp := etc + ", payload = \"" + json + "\"";
    assert temp == etc + ", payload" + (" = \"" + json + "\"");
    PayloadIndexAfter(etc, " = \"" + json + "\"");
    assert temp[..|etc|] == etc;
    assert temp[|etc| + 13..|temp| - 1] == json;
  }

  // ---------------------------------------------------------------------
  // The JSON members
  // ---------------------------------------------------------------------

  /** The text stored for a member: strings as they are, numbers as `to_string`; other kinds are skipped. */
  function MemberText(v: Json): Option<string>
  {
    match v
    case JStr(s) => Some(s)
    case JNum(x) => Some(NumberText(x))
    case _ => None
  }

  /** The entries a parsed payload object contributes; anything but an object has no children. */
  function JsonPairs(j: Json): (r: map<string, string>)
    ensures forall k :: k in r <==> j.JObj? && k in j.members && MemberText(j.members[k]).Some?
  {
    if j.JObj? then map k | k in j.members && MemberText(j.members[k]).Some? :: MemberText(j.members[k]).value
    else map[]
  }

  /** Entries of `extra` inserted into `m` without overwriting. */
  function MergeFirst(m: map<string, string>, extra: map<string, string>): (r: map<string, string>)
    ensures r.Keys == m.Keys + extra.Keys
    ensures forall k :: k in m ==> r[k] == m[k]
    ensures forall k :: k in extra && k !in m ==> r[k] == extra[k]
  {
    map k | k in m.Keys + extra.Keys :: if k in m then m[k] else extra[k]
  }

  /** The entries of `m` whose keys are in `ks`. */
  function Restrict(m: map<string, string>, ks: set<string>): map<string, string>
  {
    map k | k in m && k in ks :: m[k]
  }

  lemma {:induction false} RestrictAll(m: map<string, string>, ks: set<string>)
    requires m.Keys <= ks
    ensures Restrict(m, ks) == m
  {
  }

  lemma {:induction false} MergeNothing(m: map<string, string>, extra: map<string, string>)
    ensures MergeFirst(m, Restrict(extra, {})) == m
  {
    assert Restrict(extra, {}) == map[];
  }

  /** Merging one more key of `extra` is one insertion that does not overwrite. */
  lemma {:induction false} MergeFirstStep(m: map<string, string>, extra: map<string, string>, done: set<string>, k: string)
    requires k !in done
    ensures MergeFirst(m, Restrict(extra, done + {k})) ==
      if k in extra then InsertFirst(MergeFirst(m, Restrict(extra, done)), k, extra[k])
      else MergeFirst(m, Restrict(extra, done))
  {
  }

  /** The loop over the children of the payload object. */
  method AddJsonMembers(node: TraceNode, obj: Json)
    modifies node
    ensures node.Value() == old(node.Value()).(payload := MergeFirst(old(node.payload), JsonPairs(obj)))
  {
    ghost var pairs := JsonPairs(obj);
    ghost var start := node.payload;
    if !obj.JObj? {
      MergeNothing(start, pairs);
      assert Restrict(pairs, {}) == pairs;
      return;
    }
    var members := obj.members;
    var rest := members.Keys;
    ghost var done: set<string> := {};
    MergeNothing(start, pairs);
    while rest != {}
      invariant rest + done == members.Keys && rest !! done
      invariant node.payload == MergeFirst(start, Restrict(pairs, done))
      invariant node.Value() == old(node.Value()).(payload := node.payload)
      decreases rest
    {
      var k :| k in rest;
      MergeFirstStep(start, pairs, done, k);
      AddJsonMember(node, k, members[k]);
      rest := rest - {k};
      done := done + {k};
    }
    RestrictAll(pairs, done);
  }

  /** One child of the payload object: stored under its key unless the key is taken or its kind is skipped. */
  method AddJsonMember(node: TraceNode, k: string, v: Json)
    modifies node
    ensures node.Value() == old(node.Value()).(payload :=
      if MemberText(v).Some? then InsertFirst(old(node.payload), k, MemberText(v).value) else old(node.payload))
  {
    var text := MemberText(v);
    if text.Some? {
      node.AddPayloadMap(k, text.value);
    }
  }

  // ---------------------------------------------------------------------
  // setPayload
  // ---------------------------------------------------------------------

  /** `setPayload` of the new format: the key=value fields first, then the JSON members, never overwriting. */
  function WithNewPayload(n: NodeValue, str: string, parse: string -> Json): NodeValue
    requires JsonStartInRange(str)
  {
    if |str| < 8 then n
    else
      var temp := PayloadText(str);
      var withFields := StorePieces(n.payload, CommaPieces(EtcText(temp)));
      var json := JsonText(temp);
      n.(payload := if json == [] then withFields else MergeFirst(withFields, JsonPairs(parse(json))))
  }

  /** `parse` stands for pbnjson's DOM parser. */
  method SetPayload(node: TraceNode, str: string, parse: string -> Json)
    requires JsonStartInRange(str)
    modifies node
    ensures node.Value() == WithNewPayload(old(node.Value()), str, parse)
  {
    if |str| < 8 {
      return;
    }
    var temp := str[2..|str| - 3];
    var length := |temp|;
    var payloadIndex := FindFrom(temp, "payload", 0);
    var etc := if payloadIndex - 2 >= 0 then temp[..payloadIndex - 2] else temp;
    var start := payloadIndex + 11;
    var payload := if length - payloadIndex - 12 >= 0 then temp[start..start + (length - payloadIndex - 12)] else temp[start..];
    assert etc == EtcText(temp);
    assert payload == JsonText(temp);
    node.StoreCommaPairs(etc);
    if payload != [] {
      AddJsonMembers(node, parse(payload));
    }
  }

  /**
   * What a key holds after `setPayload`: a key=value field wins; otherwise a
   * string or number member of the JSON object is stored, and no other key appears.
   */
  lemma {:induction false} NewPayloadMember(n: NodeValue, str: string, parse: string -> Json, k: string)
    requires JsonStartInRange(str) && |str| >= 8
    requires var json := JsonText(PayloadText(str)); json != [] && parse(json).JObj?
    ensures var temp := PayloadText(str);
      var fields := StorePieces(n.payload, CommaPieces(EtcText(temp)));
      var obj := parse(JsonText(temp));
      var r := WithNewPayload(n, str, parse);
      && (k in fields ==> GetPayload(r, k) == fields[k])
      && (k !in fields && k in obj.members && obj.members[k].JStr? ==> GetPayload(r, k) == obj.members[k].s)
      && (k !in fields && k in obj.members && obj.members[k].JNum? ==> GetPayload(r, k) == NumberText(obj.members[k].n))
      && (k !in fields && (k !in obj.members || MemberText(obj.members[k]).None?) ==> k !in r.payload)
  {
  }

  /** An integral number member is stored as its integer text. */
  lemma {:induction false} IntegralMemberText(i: int)
    ensures MemberText(JNum(i as real)) == Some(IntToString(i))
  {
  }
}
