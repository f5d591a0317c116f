/**
 * The fields every parsed trace line carries
 * (src/pmctl/performance-session-report/ds/LttngDataNode.cpp).
 *
 * `NodeValue` is the value of a node; the setters are specified as functions
 * on it, and the class `TraceNode` holds the same fields and updates them in
 * place as the C++ node does. The event type and signal, declared by the
 * legacy user node only in C++, live here too and stay empty for the other
 * kinds of node.
 */
module DataNode {
  import opened Util
  import opened Wrappers
  import Definition

  datatype NodeValue = NodeValue(
    timeStamp: string,
    timeStampl: nat,
    hostName: string,
    providerName: string,
    eventType: string,
    cpuId: string,
    cpuIdi: int,
    processName: string,
    processId: string,
    threadId: string,
    signal: string,
    payload: map<string, string>)

  /** A freshly constructed node: every text empty, every number 0. */
  const EmptyNode := NodeValue("", 0, "", "", "", "", 0, "", "", "", "", map[])

  // ---------------------------------------------------------------------
  // Timestamps
  // ---------------------------------------------------------------------

  /** `str.substr(1, str.size() - 5)`: drop the opening bracket and the last four characters. */
  function SecondsAndFraction(str: string): string
    requires |str| >= 16
  {
    str[1..|str| - 4]
  }

  /** The text used when no boot time applies: `str.substr(5, size - 9)`, one leading '0' erased, dots deleted. */
  function RawStampText(str: string): string
    requires |str| >= 16
  {
    var t := str[5..|str| - 4];
    Without(if t[0] == '0' then t[1..] else t, ".")
  }

  /**
   * What the C++ code needs of a raw timestamp of 16 characters or more:
   * the seconds and fraction parts exist and are digits (tokens[1] is indexed
   * and stoull throws on text without digits), and the fallback text is a
   * non-empty digit string.
   */
  predicate WellFormedStamp(str: string)
  {
    |str| >= 16 ==>
      var toks := Tokens(SecondsAndFraction(str), {'.'});
      && |toks| >= 2
      && AllDigits(toks[0]) && AllDigits(toks[1])
      && |RawStampText(str)| > 0 && AllDigits(RawStampText(str))
  }

  const OctalDigits: set<char> := {'0', '1', '2', '3', '4', '5', '6', '7'}

  /** Value of a string of octal digits. */
  function OctalValue(s: string): nat
    requires forall k :: 0 <= k < |s| ==> s[k] in OctalDigits
    decreases |s|
  {
    if s == [] then 0 else OctalValue(s[..|s| - 1]) * 8 + ((s[|s| - 1] as int) - ('0' as int))
  }

  /**
   * `stoull(s, NULL, 0)` on a digit string: with base 0 a leading '0' selects
   * octal, and reading stops at the first digit that is not octal.
   */
  function StoullBase0(s: string): nat
    requires |s| > 0 && AllDigits(s)
  {
    if s[0] == '0' then OctalValue(s[..FindFirstNotOf(s, OctalDigits, 0)]) else DecimalValue(s)
  }

  /** Both timestamp fields of a node. */
  datatype Stamp = Stamp(text: string, value: nat)

  /**
   * The two timestamp fields, with the numeric conversion given by
   * `decimal`: true reads every digit string in base 10, false reads it as
   * `stoull(…, 0)` does.
   */
  function StampWith(str: string, boottime: nat, validBoottime: bool, decimal: bool): (r: Stamp)
    requires |str| >= 16 && WellFormedStamp(str)
    ensures |r.text| > 0 && AllDigits(r.text)
  {
    var toks := Tokens(SecondsAndFraction(str), {'.'});
    var sec := if decimal then DecimalValue(toks[0]) else StoullBase0(toks[0]);
    var text := if validBoottime && boottime <= sec then NatToString(sec - boottime) + toks[1] else RawStampText(str);
    DecimalValueConcat(NatToString(if sec >= boottime then sec - boottime else 0), toks[1]);
    Stamp(text, if decimal then DecimalValue(text) else StoullBase0(text))
  }

  /** The timestamp as `setTimeStamp` computes it: both conversions use `stoull` with base 0. */
  function StampAsWritten(str: string, boottime: nat, validBoottime: bool): Stamp
    requires |str| >= 16 && WellFormedStamp(str)
  {
    StampWith(str, boottime, validBoottime, false)
  }

  /** The timestamp as intended: decimal conversions throughout. The rest of the model uses this one. */
  function StampDecimal(str: string, boottime: nat, validBoottime: bool): Stamp
    requires |str| >= 16 && WellFormedStamp(str)
  {
    StampWith(str, boottime, validBoottime, true)
  }

  lemma StampPartsOfExample()
    ensures Tokens(SecondsAndFraction("[1000.000100999]"), {'.'}) == ["1000", "000100"]
    ensures RawStampText("[1000.000100999]") == "000100"
  {
    var str := "[1000.000100999]";
    var sf := SecondsAndFraction(str);
    assert sf == "1000.000100" by {
      assert |sf| == 11;
      assert forall k :: 0 <= k < 11 ==> sf[k] == str[k + 1];
    }
    assert "1000.000100" == "1000" + ['.'] + "000100";
    assert Join(["1000", "000100"], '.') == "1000" + ['.'] + Join(["000100"], '.');
    TokensOfJoin(["1000", "000100"], '.', {'.'});
    var t := str[5..|str| - 4];
    assert t == ['.'] + "000100";
    assert t[0] != '0';
    WithoutConcat(['.'], "000100", ".");
    WithoutNothing("000100", ".");
    assert Without(['.'], ".") == [] by {
      assert Without(['.'], ".") == Without(['.'][1..], ".");
    }
  }

  lemma {:induction false} OctalValueSnoc(s: string, c: char)
    requires forall k :: 0 <= k < |s| ==> s[k] in OctalDigits
    requires c in OctalDigits
    ensures OctalValue(s + [c]) == OctalValue(s) * 8 + ((c as int) - ('0' as int))
  {
    assert (s + [c])[..|s|] == s;
  }

  lemma {:induction false} DecimalValueSnoc(s: string, c: char)
    requires AllDigits(s) && c in Digits
    ensures AllDigits(s + [c])
    ensures DecimalValue(s + [c]) == DecimalValue(s) * 10 + DigitValue(c)
  {
    assert (s + [c])[..|s|] == s;
  }

  lemma OctalOfExample()
    ensures StoullBase0("0000100") == 64
    ensures StoullBase0("000100") == 64
  {
    FindFirstNotOfIs("0000100", OctalDigits, 0, 7);
    assert "0000100"[..7] == "0000100";
    FindFirstNotOfIs("000100", OctalDigits, 0, 6);
    assert "000100"[..6] == "000100";
    OctalDigitsOfExample();
  }

  lemma OctalDigitsOfExample()
    ensures OctalValue("0000100") == 64
    ensures OctalValue("000100") == 64
  {
    var z := "0000";
    OctalValueSnoc("", '0'); assert [] + ['0'] == "0";
    OctalValueSnoc("0", '0'); assert "0" + ['0'] == "00";
    OctalValueSnoc("00", '0'); assert "00" + ['0'] == "000";
    OctalValueSnoc("000", '0'); assert "000" + ['0'] == z;
    OctalValueSnoc(z, '1'); assert z + ['1'] == "00001";
    OctalValueSnoc("00001", '0'); assert "00001" + ['0'] == "000010";
    OctalValueSnoc("000010", '0'); assert "000010" + ['0'] == "0000100";
    OctalValueSnoc("000", '1'); assert "000" + ['1'] == "0001";
    OctalValueSnoc("0001", '0'); assert "0001" + ['0'] == "00010";
    OctalValueSnoc("00010", '0'); assert "00010" + ['0'] == "000100";
  }

  lemma DecimalOfExample()
    ensures DecimalValue("0000100") == 100
    ensures DecimalValue("000100") == 100
  {
    var z := "0000";
    DecimalValueSnoc("", '0'); assert [] + ['0'] == "0";
    DecimalValueSnoc("0", '0'); assert "0" + ['0'] == "00";
    DecimalValueSnoc("00", '0'); assert "00" + ['0'] == "000";
    DecimalValueSnoc("000", '0'); assert "000" + ['0'] == z;
    DecimalValueSnoc(z, '1'); assert z + ['1'] == "00001";
    DecimalValueSnoc("00001", '0'); assert "00001" + ['0'] == "000010";
    DecimalValueSnoc("000010", '0'); assert "000010" + ['0'] == "0000100";
    DecimalValueSnoc("000", '1'); assert "000" + ['1'] == "0001";
    DecimalValueSnoc("0001", '0'); assert "0001" + ['0'] == "00010";
    DecimalValueSnoc("00010", '0'); assert "00010" + ['0'] == "000100";
  }

  lemma DecimalOfThousand()
    ensures DecimalValue("1000") == 1000
  {
    DecimalValueSnoc("", '1'); assert [] + ['1'] == "1";
    DecimalValueSnoc("1", '0'); assert "1" + ['0'] == "10";
    DecimalValueSnoc("10", '0'); assert "10" + ['0'] == "100";
    DecimalValueSnoc("100", '0'); assert "100" + ['0'] == "1000";
  }

  /**
   * An event exactly at the boot second: the text is "0" followed by the six
   * fraction digits, which base 0 reads as octal (100 octal = 64) instead
   * of 100 microseconds.
   */
  lemma StampOctalAtBootSecond()
    ensures WellFormedStamp("[1000.000100999]")
    ensures StampAsWritten("[1000.000100999]", 1000, true) == Stamp("0000100", 64)
    ensures StampDecimal("[1000.000100999]", 1000, true) == Stamp("0000100", 100)
  {
    StampPartsOfExample();
    OctalOfExample();
    DecimalOfExample();
    DecimalOfThousand();
    assert StoullBase0("1000") == 1000;
    assert NatToString(0) == "0";
    assert "0" + "000100" == "0000100";
  }

  /**
   * The fallback path has the same fault: without a usable boot time the
   * text is cut from fixed positions, and one erased '0' does not stop a
   * second one from selecting octal. For the same stamp the text is
   * "000100", read as 64 instead of 100.
   */
  lemma StampOctalWithoutBoot()
    ensures WellFormedStamp("[1000.000100999]")
    ensures StampAsWritten("[1000.000100999]", 0, false) == Stamp("000100", 64)
    ensures StampDecimal("[1000.000100999]", 0, false) == Stamp("000100", 100)
  {
    StampPartsOfExample();
    OctalOfExample();
    DecimalOfExample();
    DecimalOfThousand();
    assert StoullBase0("1000") == 1000;
  }

  /** With a valid boot time at or before the seconds, the value counts fraction units since boot. */
  lemma {:induction false} StampSinceBoot(str: string, boottime: nat, validBoottime: bool)
    requires |str| >= 16 && WellFormedStamp(str) && validBoottime
    requires boottime <= DecimalValue(Tokens(SecondsAndFraction(str), {'.'})[0])
    ensures var toks := Tokens(SecondsAndFraction(str), {'.'});
      var sec := DecimalValue(toks[0]);
      && StampDecimal(str, boottime, validBoottime).text == NatToString(sec - boottime) + toks[1]
      && StampDecimal(str, boottime, validBoottime).value == (sec - boottime) * Pow10(|toks[1]|) + DecimalValue(toks[1])
  {
    var toks := Tokens(SecondsAndFraction(str), {'.'});
    var sec := DecimalValue(toks[0]);
    DecimalValueConcat(NatToString(sec - boottime), toks[1]);
    DecimalOfNatToString(sec - boottime);
  }

  /** Without a usable boot time the value is the fallback text read in decimal. */
  lemma {:induction false} StampWithoutBoot(str: string, boottime: nat, validBoottime: bool)
    requires |str| >= 16 && WellFormedStamp(str)
    requires !validBoottime || boottime > DecimalValue(Tokens(SecondsAndFraction(str), {'.'})[0])
    ensures StampDecimal(str, boottime, validBoottime) == Stamp(RawStampText(str), DecimalValue(RawStampText(str)))
  {
  }

  /** Base 0 and base 10 agree on a digit string that does not start with '0'. */
  lemma {:induction false} Base0AgreesWithoutLeadingZero(s: string)
    requires |s| > 0 && AllDigits(s) && s[0] != '0'
    ensures StoullBase0(s) == DecimalValue(s)
  {
  }

  /** At a second after the boot second, with seconds written without leading zero, both readings agree. */
  lemma {:induction false} StampAgreesAfterBootSecond(str: string, boottime: nat)
    requires |str| >= 16 && WellFormedStamp(str)
    requires var secText := Tokens(SecondsAndFraction(str), {'.'})[0];
      secText[0] != '0' && boottime < DecimalValue(secText)
    ensures StampAsWritten(str, boottime, true) == StampDecimal(str, boottime, true)
  {
    var toks := Tokens(SecondsAndFraction(str), {'.'});
    var sec := DecimalValue(toks[0]);
    var lead := NatToString(sec - boottime);
    assert lead[0] != '0' by {
      if |lead| == 1 {
        DecimalOfNatToString(sec - boottime);
        assert DecimalValue(lead) == DigitValue(lead[0]);
        assert lead[..0] == [];
      }
    }
    var text := lead + toks[1];
    DecimalValueConcat(lead, toks[1]);
    assert text[0] == lead[0];
  }

  /** The timestamp fields after `setTimeStamp(str, boottime, validBoottime)`. */
  function WithStamp(n: NodeValue, str: string, boottime: nat, validBoottime: bool): (r: NodeValue)
    requires WellFormedStamp(str)
    ensures |str| < 16 ==> r == n
    ensures |str| >= 16 ==> r == n.(timeStamp := StampDecimal(str, boottime, validBoottime).text,
                                    timeStampl := StampDecimal(str, boottime, validBoottime).value)
  {
    if |str| < 16 then n
    else
      var st := StampDecimal(str, boottime, validBoottime);
      n.(timeStamp := st.text, timeStampl := st.value)
  }

  // ---------------------------------------------------------------------
  // Plain field setters
  // ---------------------------------------------------------------------

  /** `setHostName`: the host is the text before the first ':'. */
  function WithHostName(n: NodeValue, str: string): NodeValue
    requires Tokens(str, {':'}) != []
  {
    n.(hostName := Tokens(str, {':'})[0])
  }

  /** `setCpuId`: spaces removed, then read with atoi. */
  function WithCpuId(n: NodeValue, str: string): NodeValue
  {
    var c := Without(str, " ");
    n.(cpuId := c, cpuIdi := Atoi(c))
  }

  /** `setProcessName`: double quotes and commas removed. */
  function WithProcessName(n: NodeValue, str: string): NodeValue
  {
    n.(processName := Without(str, "\","))
  }

  /** `setProcessId`: commas and spaces removed. */
  function WithProcessId(n: NodeValue, str: string): NodeValue
  {
    n.(processId := Without(str, ", "))
  }

  /** `setThreadId`: commas and spaces removed. */
  function WithThreadId(n: NodeValue, str: string): NodeValue
  {
    n.(threadId := Without(str, ", "))
  }

  /** The setters clean their fields: no removed character survives. */
  lemma {:induction false} SettersClean(n: NodeValue, str: string)
    ensures forall k :: 0 <= k < |WithCpuId(n, str).cpuId| ==> WithCpuId(n, str).cpuId[k] != ' '
    ensures forall k :: 0 <= k < |WithProcessName(n, str).processName| ==>
      WithProcessName(n, str).processName[k] !in {'"', ','}
    ensures forall k :: 0 <= k < |WithProcessId(n, str).processId| ==> WithProcessId(n, str).processId[k] !in {',', ' '}
    ensures forall k :: 0 <= k < |WithThreadId(n, str).threadId| ==> WithThreadId(n, str).threadId[k] !in {',', ' '}
    ensures WithCpuId(n, str).cpuIdi == Atoi(WithCpuId(n, str).cpuId)
  {
    var p := WithProcessName(n, str).processName;
    assert forall k :: 0 <= k < |p| ==> p[k] !in "\",";
    var q := WithProcessId(n, str).processId;
    assert forall k :: 0 <= k < |q| ==> q[k] !in ", ";
    var t := WithThreadId(n, str).threadId;
    assert forall k :: 0 <= k < |t| ==> t[k] !in ", ";
  }

  // ---------------------------------------------------------------------
  // The payload map
  // ---------------------------------------------------------------------

  /** `std::map::insert`: an existing key keeps its value. */
  function InsertFirst(m: map<string, string>, k: string, v: string): (r: map<string, string>)
    ensures r.Keys == m.Keys + {k}
    ensures k in m ==> r[k] == m[k]
    ensures k !in m ==> r[k] == v
    ensures forall j :: j in m ==> r[j] == m[j]
  {
    if k in m then m else m[k := v]
  }

  /** `addPayloadMap(key, val)`. */
  function AddPayload(n: NodeValue, k: string, v: string): NodeValue
  {
    n.(payload := InsertFirst(n.payload, k, v))
  }

  /** `getPayload(key)`: the stored value, or NODATA. */
  function GetPayload(n: NodeValue, k: string): (r: string)
    ensures k in n.payload ==> r == n.payload[k]
    ensures k !in n.payload ==> r == Definition.NO_DATA
  {
    if k in n.payload then n.payload[k] else Definition.NO_DATA
  }

  /** Adding under a key that is already stored changes nothing; otherwise the value reads back. */
  lemma {:induction false} AddPayloadFirstWins(n: NodeValue, k: string, v: string)
    ensures k in n.payload ==> AddPayload(n, k, v) == n
    ensures k !in n.payload ==> GetPayload(AddPayload(n, k, v), k) == v
    ensures forall j :: j != k ==> GetPayload(AddPayload(n, k, v), j) == GetPayload(n, j)
  {
  }

  // ---------------------------------------------------------------------
  // dividePair
  // ---------------------------------------------------------------------

  /** `dividePair(str, left, right, delimiters)` on success: left without spaces, right verbatim. */
  function Pair(s: string, delims: set<char>): Option<(string, string)>
  {
    var toks := Tokens(s, delims);
    if |toks| == 2 then Some((Without(toks[0], " "), toks[1])) else None
  }

  /** `dividePair`: two tokens are required; on failure the outputs keep their previous values. */
  method DividePair(s: string, left: string, right: string, delims: set<char>)
    returns (ok: bool, left': string, right': string)
    ensures ok <==> |Tokens(s, delims)| == 2
    ensures ok ==> Pair(s, delims) == Some((left', right'))
    ensures !ok ==> left' == left && right' == right && Pair(s, delims) == None
  {
    var tokens := Tokenize(s, [], delims);
    if |tokens| != 2 {
      return false, left, right;
    }
    left' := DeleteChars(tokens[0], " ");
    right' := tokens[1];
    ok := true;
  }

  /** A key and a value joined by the delimiter divide back into the key (spaces removed) and the value. */
  lemma {:induction false} PairOfJoined(k: string, v: string, c: char)
    requires |k| > 0 && |v| > 0
    requires forall i :: 0 <= i < |k| ==> k[i] != c
    requires forall i :: 0 <= i < |v| ==> v[i] != c
    ensures Pair(k + [c] + v, {c}) == Some((Without(k, " "), v))
  {
    assert k + [c] + v == Join([k, v], c);
    TokensOfJoin([k, v], c, {c});
  }

  /** A piece with no delimiter, or with two, does not divide. */
  lemma {:induction false} PairNeedsOneDelimiter(k: string, c: char)
    requires |k| > 0 && forall i :: 0 <= i < |k| ==> k[i] != c
    ensures Pair(k + [c], {c}) == None
    ensures Pair(k + [c] + k + [c] + k, {c}) == None
  {
    var s := k + [c];
    TokensRun(s, {c}, 0, |k|);
    TokensSkip(s, {c}, |k|, |k| + 1);
    assert s[0..] == s && s[0..|k|] == k && s[|k| + 1..] == [];
    assert Join([k, k, k], c) == k + [c] + Join([k, k], c);
    assert Join([k, k], c) == k + [c] + k;
    assert k + [c] + k + [c] + k == Join([k, k, k], c);
    TokensOfJoin([k, k, k], c, {c});
  }

  // ---------------------------------------------------------------------
  // key=value pieces (shared by the three payload dialects)
  // ---------------------------------------------------------------------

  /**
   * The entry stored for a piece containing '=': the divided pair with
   * quotes and spaces removed from the value; a piece that does not divide
   * leaves the fresh empty key and value.
   */
  function PieceEntry(piece: string): (string, string)
  {
    match Pair(piece, {'='})
    case Some((l, r)) => (l, Without(r, "\" "))
    case None => ("", "")
  }

  /** `str.substr(2, str.size() - 5)`: the payload without its two leading and three trailing characters. */
  function PayloadText(str: string): string
    requires |str| >= 8
  {
    str[2..|str| - 3]
  }

  /** The payload after storing, in order, every piece that contains '='. */
  function StorePieces(m: map<string, string>, pieces: seq<string>): (r: map<string, string>)
    ensures forall k :: k in m ==> k in r && r[k] == m[k]
    decreases |pieces|
  {
    if pieces == [] then m
    else
      var last := pieces[|pieces| - 1];
      var m' := StorePieces(m, pieces[..|pieces| - 1]);
      StorePiece1(m', last)
  }

  /** The payload after one piece: stored under its key when it contains '='. */
  function StorePiece1(m: map<string, string>, piece: string): map<string, string>
  {
    if Contains(piece, "=") then InsertFirst(m, PieceEntry(piece).0, PieceEntry(piece).1) else m
  }

  lemma StorePiecesSnoc(m: map<string, string>, pieces: seq<string>, i: nat)
    requires i < |pieces|
    ensures StorePieces(m, pieces[..i + 1]) == StorePiece1(StorePieces(m, pieces[..i]), pieces[i])
  {
    assert pieces[..i + 1][..i] == pieces[..i];
  }

  /** The keys the '='-pieces carry. */
  function PieceKeys(pieces: seq<string>): set<string>
    decreases |pieces|
  {
    if pieces == [] then {}
    else
      var last := pieces[|pieces| - 1];
      PieceKeys(pieces[..|pieces| - 1]) + (if Contains(last, "=") then {PieceEntry(last).0} else {})
  }

  /** The piece contains '=' and divides to the key `k`. */
  predicate Carries(piece: string, k: string)
  {
    Contains(piece, "=") && PieceEntry(piece).0 == k
  }

  /** A key is carried exactly when some '='-piece divides to it. */
  lemma {:induction false} PieceKeysIff(pieces: seq<string>, k: string)
    ensures k in PieceKeys(pieces) <==> exists i :: 0 <= i < |pieces| && Carries(pieces[i], k)
    decreases |pieces|
  {
    if pieces != [] {
      var n := |pieces| - 1;
      var init := pieces[..n];
      PieceKeysIff(init, k);
      assert k in PieceKeys(pieces) <==> k in PieceKeys(init) || Carries(pieces[n], k);
      if exists i :: 0 <= i < |pieces| && Carries(pieces[i], k) {
        var i :| 0 <= i < |pieces| && Carries(pieces[i], k);
        if i < n {
          assert Carries(init[i], k);
        }
      }
      if exists i :: 0 <= i < n && Carries(init[i], k) {
        var i :| 0 <= i < n && Carries(init[i], k);
        assert Carries(pieces[i], k);
      }
    }
  }

  /** Exactly the keys of the '='-pieces are added to those already present. */
  lemma {:induction false} StorePiecesKeys(m: map<string, string>, pieces: seq<string>)
    ensures StorePieces(m, pieces).Keys == m.Keys + PieceKeys(pieces)
    decreases |pieces|
  {
    if pieces != [] {
      StorePiecesKeys(m, pieces[..|pieces| - 1]);
    }
  }

  /** The value stored for a new key comes from the first '='-piece that carries it. */
  lemma {:induction false} StorePiecesFirstWins(m: map<string, string>, pieces: seq<string>, i: nat)
    requires i < |pieces| && Contains(pieces[i], "=")
    requires PieceEntry(pieces[i]).0 !in m
    requires forall j :: 0 <= j < i && Contains(pieces[j], "=") ==> PieceEntry(pieces[j]).0 != PieceEntry(pieces[i]).0
    ensures PieceEntry(pieces[i]).0 in StorePieces(m, pieces)
    ensures StorePieces(m, pieces)[PieceEntry(pieces[i]).0] == PieceEntry(pieces[i]).1
    decreases |pieces|
  {
    var k := PieceEntry(pieces[i]).0;
    var init := pieces[..|pieces| - 1];
    if i == |pieces| - 1 {
      StorePiecesKeys(m, init);
      PieceKeysIff(init, k);
    } else {
      StorePiecesFirstWins(m, init, i);
    }
  }

  /** A piece "k=v" stores the key without spaces and the value without quotes and spaces. */
  lemma {:induction false} PieceEntryOfPair(k: string, v: string)
    requires |k| > 0 && |v| > 0
    requires forall i :: 0 <= i < |k| ==> k[i] != '='
    requires forall i :: 0 <= i < |v| ==> v[i] != '='
    ensures Contains(k + "=" + v, "=")
    ensures PieceEntry(k + "=" + v) == (Without(k, " "), Without(v, "\" "))
  {
    var s := k + "=" + v;
    assert s[|k|..|k| + 1] == "=";
    assert OccursAt(s, "=", |k|);
    ContainsIff(s, "=");
    PairOfJoined(k, v, '=');
    assert k + ['='] + v == s;
  }

  /** Pieces are taken from a comma-separated text. */
  function CommaPieces(text: string): seq<string>
  {
    Tokens(text, {','})
  }

  // ---------------------------------------------------------------------
  // The node object
  // ---------------------------------------------------------------------

  class TraceNode {
    var timeStamp: string
    var timeStampl: nat
    var hostName: string
    var providerName: string
    var eventType: string
    var cpuId: string
    var cpuIdi: int
    var processName: string
    var processId: string
    var threadId: string
    var signal: string
    var payload: map<string, string>

    /** The node's fields as a value. */
    function Value(): NodeValue
      reads this
    {
      NodeValue(timeStamp, timeStampl, hostName, providerName, eventType, cpuId, cpuIdi,
                processName, processId, threadId, signal, payload)
    }

    constructor ()
      ensures Value() == EmptyNode
    {
      timeStamp, timeStampl, hostName, providerName, eventType := "", 0, "", "", "";
      cpuId, cpuIdi, processName, processId, threadId := "", 0, "", "", "";
      signal, payload := "", map[];
    }

    method SetTimeStamp(str: string, boottime: nat, validBoottime: bool)
      requires WellFormedStamp(str)
      modifies this
      ensures Value() == WithStamp(old(Value()), str, boottime, validBoottime)
    {
      if |str| < 16 {
        return;
      }
      var tmp := str[1..|str| - 4];
      var tokens := Tokenize(tmp, [], {'.'});
      var sec := DecimalValue(tokens[0]);
      if validBoottime && boottime <= sec {
        timeStamp := NatToString(sec - boottime) + tokens[1];
      } else {
        var t := str[5..|str| - 4];
        if t[0] == '0' {
          t := t[1..];
        }
        timeStamp := DeleteChars(t, ".");
      }
      DecimalValueConcat(NatToString(if sec >= boottime then sec - boottime else 0), tokens[1]);
      timeStampl := DecimalValue(timeStamp);
    }

    method SetHostName(str: string)
      requires Tokens(str, {':'}) != []
      modifies this
      ensures Value() == WithHostName(old(Value()), str)
    {
      var tokens := Tokenize(str, [], {':'});
      hostName := tokens[0];
    }

    method SetCpuId(str: string)
      modifies this
      ensures Value() == WithCpuId(old(Value()), str)
    {
      cpuId := DeleteChars(str, " ");
      cpuIdi := Atoi(cpuId);
    }

    method SetProcessName(str: string)
      modifies this
      ensures Value() == WithProcessName(old(Value()), str)
    {
      processName := DeleteChars(str, "\",");
    }

    method SetProcessId(str: string)
      modifies this
      ensures Value() == WithProcessId(old(Value()), str)
    {
      processId := DeleteChars(str, ", ");
    }

    method SetThreadId(str: string)
      modifies this
      ensures Value() == WithThreadId(old(Value()), str)
    {
      threadId := DeleteChars(str, ", ");
    }

    method AddPayloadMap(key: string, val: string)
      modifies this
      ensures Value() == AddPayload(old(Value()), key, val)
    {
      if key !in payload {
        payload := payload[key := val];
      }
    }

    /** One piece of the key=value loop: a piece containing '=' is divided and stored. */
    method StorePiece(sub: string)
      modifies this
      ensures Value() == old(Value()).(payload := StorePiece1(old(payload), sub))
    {
      if FindFrom(sub, "=", 0) >= 0 {
        var ok, left, right := DividePair(sub, "", "", {'='});
        right := DeleteChars(right, "\" ");
        AddPayloadMap(left, right);
      }
    }

    /** The key=value loop of the three `setPayload` variants: store every piece containing '='. */
    method StoreCommaPairs(text: string)
      modifies this
      ensures Value() == old(Value()).(payload := StorePieces(old(payload), CommaPieces(text)))
    {
      var tokens := Tokenize(text, [], {','});
      var i := 0;
      while i < |tokens|
        invariant 0 <= i <= |tokens|
        invariant Value() == old(Value()).(payload := StorePieces(old(payload), tokens[..i]))
      {
        StorePiecesSnoc(old(payload), tokens, i);
        StorePiece(tokens[i]);
        i := i + 1;
      }
      assert tokens[..i] == tokens;
    }
  }
}
