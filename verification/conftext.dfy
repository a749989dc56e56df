/** Configuration changes as text: a letter and a decimal id for each, separated by spaces. */
module ConfText {
  import opened RaftTypes

  /** The four types that have a letter. */
  predicate Known(c: ConfChangeSingle) { ADD_NODE <= c.ctype <= ADD_LEARNER }

  // ---------------------------------------------------------------------
  // Decimal numbers.

  predicate IsDigit(c: char) { '0' <= c <= '9' }

  function DigitOf(d: nat): (c: char)
    requires d < 10
    ensures IsDigit(c) && c as int - '0' as int == d
  {
    d as char + '0'
  }

  /** What `%d` prints. */
  function Decimal(n: nat): (s: string)
    ensures s != [] && forall k :: 0 <= k < |s| ==> IsDigit(s[k])
  {
    if n < 10 then [DigitOf(n)] else Decimal(n / 10) + [DigitOf(n % 10)]
  }

  /** The number that the digits stand for; None at anything else, or past 64 bits. */
  function Parse(s: string): (r: Option<nat>)
    ensures r.Some? ==> r.value < U64
  {
    if s == [] then Some(0)
    else
      var r, c := Parse(s[..|s| - 1]), s[|s| - 1];
      if r.None? || !IsDigit(c) then None
      else
        var n := 10 * r.value + (c as int - '0' as int);
        if n >= U64 then None else Some(n)
  }

  /** strconv.ParseUint in base 10 for 64 bits. */
  function ParseUint(s: string): Option<nat> { if s == [] then None else Parse(s) }

  lemma {:induction false} ParsesDecimal(n: nat)
    ensures Parse(Decimal(n)) == if n < U64 then Some(n) else None
  {
    if n < 10 {
      assert Decimal(n)[..0] == [];
      assert Parse([]) == Some(0);
    } else {
      assert Decimal(n)[..|Decimal(n)| - 1] == Decimal(n / 10);
      ParsesDecimal(n / 10);
    }
  }

  lemma {:induction false} ParseStops(s: string, k: nat)
    requires k <= |s| && Parse(s[..k]) == None
    ensures Parse(s) == None
    decreases |s| - k
  {
    if k < |s| {
      assert s[..k + 1][..k] == s[..k];
      ParseStops(s, k + 1);
    } else {
      assert s[..k] == s;
    }
  }

  method ParseUintLoop(s: string) returns (r: Option<nat>)
    ensures r == ParseUint(s)
  {
    if |s| == 0 {
      return None;
    }
    var n: nat, k := 0, 0;
    while k < |s|
      invariant 0 <= k <= |s| && Parse(s[..k]) == Some(n)
    {
      assert s[..k + 1][..k] == s[..k];
      var c := s[k];
      k := k + 1;
      if !IsDigit(c) {
        ParseStops(s, k);
        return None;
      }
      var n1: nat := 10 * n + (c as int - '0' as int);
      if n1 >= U64 {
        ParseStops(s, k);
        return None;
      }
      n := n1;
    }
    assert s[..k] == s;
    return Some(n);
  }

  // ---------------------------------------------------------------------
  // Splitting and trimming.

  function FirstSpace(s: string): (i: nat)
    ensures i <= |s| && (i < |s| ==> s[i] == ' ') && forall k :: 0 <= k < i ==> s[k] != ' '
  {
    if s == [] || s[0] == ' ' then 0 else 1 + FirstSpace(s[1..])
  }

  /** strings.Split at every single space; never empty. */
  function Split(s: string): (toks: seq<string>)
    ensures toks != []
    decreases |s|
  {
    var i := FirstSpace(s);
    if i == |s| then [s] else [s[..i]] + Split(s[i + 1..])
  }

  predicate IsSpace(c: char) { c in {' ', '\t', '\n', '\U{0B}', '\U{0C}', '\r', '\U{85}', '\U{A0}'} }

  /** strings.TrimSpace. */
  function TrimLeft(s: string): string {
    if s != [] && IsSpace(s[0]) then TrimLeft(s[1..]) else s
  }

  function TrimRight(s: string): string {
    if s != [] && IsSpace(s[|s| - 1]) then TrimRight(s[..|s| - 1]) else s
  }

  function TrimSpace(s: string): string { TrimRight(TrimLeft(s)) }

  // ---------------------------------------------------------------------
  // The two directions.

  function Letter(ctype: int32): string {
    if ctype == ADD_NODE then "v" else if ctype == ADD_LEARNER then "l"
    else if ctype == REMOVE_NODE then "r" else if ctype == UPDATE_NODE then "u" else "unknown"
  }

  function Token(c: ConfChangeSingle): string { Letter(c.ctype) + Decimal(c.nodeID) }

  function ToString(ccs: seq<ConfChangeSingle>): string {
    if ccs == [] then ""
    else if |ccs| == 1 then Token(ccs[0])
    else ToString(ccs[..|ccs| - 1]) + [' '] + Token(ccs[|ccs| - 1])
  }

  function TypeOf(c: char): Option<int32> {
    if c == 'v' then Some(ADD_NODE) else if c == 'l' then Some(ADD_LEARNER)
    else if c == 'r' then Some(REMOVE_NODE) else if c == 'u' then Some(UPDATE_NODE) else None
  }

  function FromToken(tok: string): (r: Option<ConfChangeSingle>)
    ensures r.Some? ==> Known(r.value) && r.value.nodeID < U64
  {
    if |tok| < 2 || TypeOf(tok[0]).None? then None
    else
      var id := ParseUint(tok[1..]);
      if id.None? then None else Some(ConfChangeSingle(TypeOf(tok[0]).value, id.value))
  }

  function FromTokens(toks: seq<string>): (r: Option<seq<ConfChangeSingle>>)
    ensures r.Some? ==> |r.value| == |toks|
    ensures r.Some? ==> forall k :: 0 <= k < |toks| ==> FromToken(toks[k]) == Some(r.value[k])
  {
    if toks == [] then Some([])
    else
      var r, c := FromTokens(toks[..|toks| - 1]), FromToken(toks[|toks| - 1]);
      if r.None? || c.None? then None else Some(r.value + [c.value])
  }

  /** ConfChangesFromString; None for each of its errors. */
  function FromString(s: string): Option<seq<ConfChangeSingle>> {
    var toks := Split(TrimSpace(s));
    FromTokens(if toks[0] == "" then [] else toks)
  }

  // ---------------------------------------------------------------------
  // The source's loops.

  method ConfChangesToString(ccs: seq<ConfChangeSingle>) returns (buf: string)
    ensures buf == ToString(ccs)
  {
    buf := "";
    var i := 0;
    while i < |ccs|
      invariant 0 <= i <= |ccs| && buf == ToString(ccs[..i])
    {
      assert ccs[..i + 1][..i] == ccs[..i];
      if i > 0 {
        buf := buf + [' '];
      }
      buf := buf + Letter(ccs[i].ctype) + Decimal(ccs[i].nodeID);
      AddToken(ccs[..i + 1]);
      i := i + 1;
    }
    assert ccs[..i] == ccs;
  }

  lemma AddToken(ccs: seq<ConfChangeSingle>)
    requires ccs != []
    ensures var (was, c) := (ToString(ccs[..|ccs| - 1]), ccs[|ccs| - 1]);
            ToString(ccs) == (if |ccs| > 1 then was + [' '] else was) + Letter(c.ctype) + Decimal(c.nodeID)
  {
    var (was, c) := (ToString(ccs[..|ccs| - 1]), ccs[|ccs| - 1]);
    JoinText(was + [' '], Letter(c.ctype), Decimal(c.nodeID));
    JoinText(was, Letter(c.ctype), Decimal(c.nodeID));
    assert |ccs| == 1 ==> was == "" && "" + Token(c) == Token(c);
  }

  lemma JoinText(a: string, b: string, c: string)
    ensures a + b + c == a + (b + c)
  {
  }

  lemma BadTokenStops(toks: seq<string>, k: nat)
    requires k < |toks| && FromToken(toks[k]) == None
    ensures FromTokens(toks) == None
  {
  }

  method ConfChangesFromString(s: string) returns (r: Option<seq<ConfChangeSingle>>)
    ensures r == FromString(s)
  {
    var toks := Split(TrimSpace(s));
    if toks[0] == "" {
      toks := [];
    }
    var ccs := [];
    var i := 0;
    while i < |toks|
      invariant 0 <= i <= |toks| && FromTokens(toks[..i]) == Some(ccs)
    {
      assert toks[..i + 1][..i] == toks[..i];
      var tok := toks[i];
      if |tok| < 2 || TypeOf(tok[0]).None? {
        BadTokenStops(toks, i);
        return None;
      }
      var id := ParseUintLoop(tok[1..]);
      if id.None? {
        BadTokenStops(toks, i);
        return None;
      }
      ccs := ccs + [ConfChangeSingle(TypeOf(tok[0]).value, id.value)];
      i := i + 1;
    }
    assert toks[..i] == toks;
    return Some(ccs);
  }

  // ---------------------------------------------------------------------
  // Round trip.

  ghost predicate NoSpace(s: string) { forall k :: 0 <= k < |s| ==> s[k] != ' ' }

  lemma TokenShape(c: ConfChangeSingle)
    ensures NoSpace(Token(c)) && |Token(c)| >= 2
    ensures !IsSpace(Token(c)[0]) && !IsSpace(Token(c)[|Token(c)| - 1])
    ensures Token(c)[0] != ' '
  {
  }

  /** A token is read back if its type is known and its id fits; otherwise it is an error. */
  lemma TokenBack(c: ConfChangeSingle)
    ensures FromToken(Token(c)) == if Known(c) && c.nodeID < U64 then Some(c) else None
  {
    ParsesDecimal(c.nodeID);
    if Known(c) {
      assert Token(c)[1..] == Decimal(c.nodeID);
    } else {
      NotANumber(Token(c)[1..]);
    }
  }

  lemma NotANumber(s: string)
    requires s != [] && s[0] == 'n'
    ensures Parse(s) == None
  {
    assert s[..1][..0] == [] && s[..1] == ['n'];
    ParseStops(s, 1);
  }

  lemma {:induction false} FirstSpaceIs(a: string, b: string)
    requires NoSpace(a)
    ensures FirstSpace(a + [' '] + b) == |a|
  {
    var s := a + [' '] + b;
    assert forall k :: 0 <= k < |a| ==> s[k] == a[k];
    assert s[|a|] == ' ';
  }

  /** Splitting undoes joining, from the last token backwards. */
  lemma {:induction false} SplitLast(s: string, tok: string)
    requires NoSpace(tok)
    ensures Split(s + [' '] + tok) == Split(s) + [tok]
    decreases |s|
  {
    hide FirstSpace, NoSpace;
    var all := s + [' '] + tok;
    var i := FirstSpace(s);
    if i == |s| {
      FirstSpaceIs(s, tok);
      assert all[..i] == s && all[i + 1..] == tok;
      NoSpaceSplit(tok);
    } else {
      var rest := s[i + 1..];
      assert all == s[..i] + [' '] + (rest + [' '] + tok);
      FirstSpaceIs(s[..i], rest + [' '] + tok);
      assert all[..i] == s[..i] && all[i + 1..] == rest + [' '] + tok;
      SplitLast(rest, tok);
      assert [s[..i]] + (Split(rest) + [tok]) == ([s[..i]] + Split(rest)) + [tok];
    }
  }

  lemma NoSpaceSplit(tok: string)
    requires NoSpace(tok)
    ensures Split(tok) == [tok]
  {
  }

  function Tokens(ccs: seq<ConfChangeSingle>): (toks: seq<string>)
    ensures |toks| == |ccs| && forall k :: 0 <= k < |ccs| ==> toks[k] == Token(ccs[k])
  {
    if ccs == [] then [] else Tokens(ccs[..|ccs| - 1]) + [Token(ccs[|ccs| - 1])]
  }

  /** The text is already trimmed, and splits into the tokens. */
  lemma {:induction false} TextSplits(ccs: seq<ConfChangeSingle>)
    requires ccs != []
    ensures var s := ToString(ccs);
            s != [] && !IsSpace(s[0]) && !IsSpace(s[|s| - 1]) && Split(s) == Tokens(ccs)
  {
    var last := Token(ccs[|ccs| - 1]);
    TokenShape(ccs[|ccs| - 1]);
    if |ccs| == 1 {
      NoSpaceSplit(last);
      assert Tokens(ccs[..0]) == [];
    } else {
      TextSplits(ccs[..|ccs| - 1]);
      SplitLast(ToString(ccs[..|ccs| - 1]), last);
    }
  }

  ghost predicate AllKnown(ccs: seq<ConfChangeSingle>) {
    forall k {:trigger ccs[k]} :: 0 <= k < |ccs| ==> Known(ccs[k]) && ccs[k].nodeID < U64
  }

  lemma {:induction false} TokensBack(ccs: seq<ConfChangeSingle>)
    requires AllKnown(ccs)
    ensures FromTokens(Tokens(ccs)) == Some(ccs)
  {
    if ccs != [] {
      var init, last := ccs[..|ccs| - 1], ccs[|ccs| - 1];
      LastKnown(ccs);
      TokensBack(init);
      TokenBack(last);
      LastToken(Tokens(init), Token(last), init, last);
    }
  }

  lemma LastKnown(ccs: seq<ConfChangeSingle>)
    requires AllKnown(ccs) && ccs != []
    ensures var (init, last) := (ccs[..|ccs| - 1], ccs[|ccs| - 1]);
            AllKnown(init) && Known(last) && last.nodeID < U64 && init + [last] == ccs
  {
    var init := ccs[..|ccs| - 1];
    assert forall k :: 0 <= k < |init| ==> init[k] == ccs[k];
  }

  lemma LastToken(toks: seq<string>, tok: string, ccs: seq<ConfChangeSingle>, c: ConfChangeSingle)
    requires FromTokens(toks) == Some(ccs) && FromToken(tok) == Some(c)
    ensures FromTokens(toks + [tok]) == Some(ccs + [c])
  {
    assert (toks + [tok])[..|toks|] == toks;
  }

  lemma TextTokens(ccs: seq<ConfChangeSingle>)
    ensures FromString(ToString(ccs)) == FromTokens(Tokens(ccs))
  {
    if ccs == [] {
      assert Split("") == [""];
    } else {
      TextSplits(ccs);
      assert Tokens(ccs)[0] == Token(ccs[0]);
      TokenShape(ccs[0]);
    }
  }

  /** Printing and parsing returns the list exactly when every type is known and every id is a uint64. */
  lemma TextRoundTrip(ccs: seq<ConfChangeSingle>)
    ensures FromString(ToString(ccs)) == Some(ccs) <==> AllKnown(ccs)
    ensures !AllKnown(ccs) ==> FromString(ToString(ccs)) == None
  {
    TextTokens(ccs);
    if AllKnown(ccs) {
      TokensBack(ccs);
    } else {
      var k :| 0 <= k < |ccs| && !(Known(ccs[k]) && ccs[k].nodeID < U64);
      TokenBack(ccs[k]);
      BadTokenStops(Tokens(ccs), k);
    }
  }

  /** Whatever text parses, its printed form parses to the same. */
  lemma ParsedIsStable(s: string)
    requires FromString(s).Some?
    ensures FromString(ToString(FromString(s).value)) == FromString(s)
  {
    var toks := Split(TrimSpace(s));
    var kept := if toks[0] == "" then [] else toks;
    var ccs := FromString(s).value;
    forall k | 0 <= k < |ccs| ensures Known(ccs[k]) && ccs[k].nodeID < U64 {
      assert FromToken(kept[k]) == Some(ccs[k]);
    }
    TextRoundTrip(ccs);
  }

  // ---------------------------------------------------------------------
  // The text itself.

  ghost function ValueOf(s: string): int {
    if s == "" then 0 else 10 * ValueOf(s[..|s| - 1]) + (s[|s| - 1] as int - '0' as int)
  }

  /** The digits of the number, without leading zeros. */
  lemma {:induction false} DecimalIs(n: nat)
    ensures var s := Decimal(n);
            ValueOf(s) == n && (forall k :: 0 <= k < |s| ==> '0' <= s[k] <= '9') && (|s| > 1 ==> s[0] != '0')
    ensures n > 0 ==> Decimal(n)[0] != '0'
  {
    var s := Decimal(n);
    if n >= 10 {
      DecimalIs(n / 10);
      assert s[..|s| - 1] == Decimal(n / 10);
    } else {
      assert s[..|s| - 1] == "" && ValueOf("") == 0;
    }
  }

  ghost predicate AllDigits(s: string) { forall k :: 0 <= k < |s| ==> '0' <= s[k] <= '9' }

  lemma {:induction false} ValueGrows(s: string)
    requires AllDigits(s)
    ensures ValueOf(s) >= 0
  {
    if s != "" {
      ValueGrows(s[..|s| - 1]);
    }
  }

  /** What parses as a number: digits only, leading zeros included, and no more than 64 bits. */
  lemma {:induction false} ParseIs(s: string)
    ensures Parse(s).Some? <==> AllDigits(s) && ValueOf(s) < 0x1_0000_0000_0000_0000
    ensures Parse(s).Some? ==> Parse(s).value == ValueOf(s)
  {
    if s != "" {
      var init := s[..|s| - 1];
      ParseIs(init);
      assert AllDigits(s) <==> AllDigits(init) && '0' <= s[|s| - 1] <= '9';
      if AllDigits(init) {
        ValueGrows(init);
      }
    }
  }

  /** From the front: the first token, then each further one behind a space. */
  ghost function Spaced(toks: seq<string>): string {
    if toks == [] then "" else toks[0] + Further(toks[1..])
  }

  ghost function Further(toks: seq<string>): string {
    if toks == [] then "" else " " + toks[0] + Further(toks[1..])
  }

  lemma {:induction false} FurtherEnds(toks: seq<string>, tok: string)
    ensures Further(toks + [tok]) == Further(toks) + " " + tok
  {
    if toks == [] {
      assert ([] + [tok])[1..] == [];
      assert Further([tok][1..]) == "";
    } else {
      assert (toks + [tok])[1..] == toks[1..] + [tok];
      FurtherEnds(toks[1..], tok);
    }
  }

  lemma SpacedEnds(toks: seq<string>, tok: string)
    requires toks != []
    ensures Spaced(toks + [tok]) == Spaced(toks) + [' '] + tok
  {
    assert (toks + [tok])[1..] == toks[1..] + [tok];
    FurtherEnds(toks[1..], tok);
    Rejoin(toks[0], Further(toks[1..]), tok);
  }

  lemma Rejoin(a: string, b: string, c: string)
    ensures a + (b + " " + c) == (a + b) + [' '] + c
  {
  }

  /** One letter and the decimal id: v adds, r removes, u updates, l adds a learner. */
  ghost function Word(c: ConfChangeSingle): string {
    (match c.ctype
     case 0 => "v"
     case 1 => "r"
     case 2 => "u"
     case 3 => "l"
     case _ => "unknown") + Decimal(c.nodeID)
  }

  lemma WordIsToken(c: ConfChangeSingle)
    ensures Word(c) == Token(c)
  {
  }

  ghost function Words(ccs: seq<ConfChangeSingle>): seq<string> {
    seq(|ccs|, k requires 0 <= k < |ccs| => Word(ccs[k]))
  }

  /** The printed text, word by word. */
  lemma {:induction false} TextIs(ccs: seq<ConfChangeSingle>)
    ensures ToString(ccs) == Spaced(Words(ccs))
  {
    hide Spaced, Word, Token;
    if ccs == [] {
      NoWords();
    } else {
      var n := |ccs| - 1;
      WordIsToken(ccs[n]);
      TextIs(ccs[..n]);
      assert Words(ccs) == Words(ccs[..n]) + [Word(ccs[n])];
      if n == 0 {
        assert Words(ccs) == [Word(ccs[0])];
        OneWord(Word(ccs[0]));
      } else {
        SpacedEnds(Words(ccs[..n]), Word(ccs[n]));
      }
    }
  }

  lemma NoWords()
    ensures Spaced([]) == ""
  {
  }

  lemma OneWord(tok: string)
    ensures Spaced([tok]) == tok
  {
    assert [tok][1..] == [] && Further([]) == "";
    assert tok + "" == tok;
  }
}
