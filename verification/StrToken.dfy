/**
 The instruction-text parser (src/strtoken.cpp): code such as "fixed(4);delay(unif(4,10));" is split
 into instructions, each with a token and a list of parameters.

 String positions are C++ size_type values: a search that fails returns NPOS, and position
 arithmetic wraps around.
 */
module StrToken {
  import opened Common

  const SIZE_LIMIT := 0x1_0000_0000_0000_0000
  const NPOS := SIZE_LIMIT - 1

  /** A sum or difference of two positions, reduced to a size_type. */
  function Wrap(x: int): (r: nat)
    requires -SIZE_LIMIT <= x < 2 * SIZE_LIMIT
    ensures r == x % SIZE_LIMIT
  {
    if x < 0 then x + SIZE_LIMIT else if x < SIZE_LIMIT then x else x - SIZE_LIMIT
  }

  /** A text that a std::string can hold. */
  ghost predicate Text(s: string) { |s| < NPOS - 1 }

  // ---------- searching ----------

  /** The first index from `from` on whose character is in cs, or |s|. */
  function FirstIn(s: string, cs: set<char>, from: nat): (i: nat)
    requires from <= |s|
    ensures from <= i <= |s|
    ensures i < |s| ==> s[i] in cs
    ensures forall k :: from <= k < i ==> s[k] !in cs
    decreases |s| - from
  {
    if from == |s| || s[from] in cs then from else FirstIn(s, cs, from + 1)
  }

  /** One past the last index whose character is outside cs, or 0. */
  function EndOfLastNotIn(s: string, cs: set<char>): (e: nat)
    ensures e <= |s|
    ensures e > 0 ==> s[e - 1] !in cs
    ensures forall k :: e <= k < |s| ==> s[k] in cs
  {
    if s == [] then 0 else if s[|s| - 1] !in cs then |s| else EndOfLastNotIn(s[..|s| - 1], cs)
  }

  function EndOfLastIn(s: string, cs: set<char>): (e: nat)
    ensures e <= |s|
    ensures e > 0 ==> s[e - 1] in cs
    ensures forall k :: e <= k < |s| ==> s[k] !in cs
  {
    if s == [] then 0 else if s[|s| - 1] in cs then |s| else EndOfLastIn(s[..|s| - 1], cs)
  }

  function FirstNotIn(s: string, cs: set<char>): (i: nat)
    ensures i <= |s|
    ensures i < |s| ==> s[i] !in cs
    ensures forall k :: 0 <= k < i ==> s[k] in cs
  {
    if s == [] || s[0] !in cs then 0
    else
      var i := FirstNotIn(s[1..], cs);
      assert forall k :: 1 <= k < i + 1 ==> s[k] == s[1..][k - 1];
      i + 1
  }

  /** std::string::find and find_first_of. */
  function Find(s: string, cs: set<char>, from: nat): nat {
    if from > |s| then NPOS
    else
      NposIfEnd(s, FirstIn(s, cs, from))
  }

  /** std::string::substr, which throws when pos is past the end. */
  function Substr(s: string, pos: nat, n: nat): (r: string)
    requires pos <= |s|
    ensures |r| <= |s|
  {
    if n < |s| - pos then s[pos..pos + n] else s[pos..]
  }

  function NposIfEnd(s: string, i: nat): nat { if i < |s| then i else NPOS }

  /** std::string::erase: removes at most n characters from position pos on. */
  function Erase(s: string, pos: nat, n: nat): (r: string)
    requires pos <= |s|
    ensures n >= |s| - pos ==> r == s[..pos]
    ensures pos == 0 && n <= |s| ==> r == s[n..]
  {
    if n < |s| - pos then s[..pos] + s[pos + n..] else s[..pos]
  }

  // ---------- remove_spaces ----------

  function Trim(s: string): (r: string)
    ensures |r| <= |s|
  {
    var a := s[FirstNotIn(s, {' '})..];
    a[..EndOfLastNotIn(a, {' '})]
  }

  /** Trimming keeps exactly the text between the first and the last character that is no space. */
  lemma TrimIsTight(s: string)
    ensures Trim(s) == "" <==> forall k :: 0 <= k < |s| ==> s[k] == ' '
    ensures Trim(s) != "" ==> Trim(s)[0] != ' ' && Trim(s)[|Trim(s)| - 1] != ' '
    ensures exists i, j :: 0 <= i <= j <= |s| && Trim(s) == s[i..j]
              && (forall k :: 0 <= k < i || j <= k < |s| ==> s[k] == ' ')
  {
    var i := FirstNotIn(s, {' '});
    var a := s[i..];
    var e := EndOfLastNotIn(a, {' '});
    assert Trim(s) == s[i..i + e];
    forall k | i + e <= k < |s| ensures s[k] == ' ' {
      assert a[k - i] == s[k];
    }
    if i < |s| {
      assert a[0] == s[i];
    }
  }

  lemma TrimOfTrimmed(s: string)
    requires s != "" && s[0] != ' ' && s[|s| - 1] != ' '
    ensures Trim(s) == s
  {
  }

  /** Erasing up to position i from the front, ... */
  lemma EraseFront(s: string, i: nat)
    requires Text(s) && i <= |s|
    ensures Erase(s, 0, NposIfEnd(s, i)) == s[i..]
  {
  }

  /** ... and from the last position before e to the end. */
  lemma EraseBack(s: string, e: nat)
    requires Text(s) && e <= |s|
    ensures var pos := if e > 0 then e - 1 else NPOS;
            Wrap(pos + 1) <= |s| && Erase(s, Wrap(pos + 1), Wrap(|s| - pos - 1)) == s[..e]
  {
  }

  method RemoveSpaces(tk: string) returns (temp: string)
    requires Text(tk)
    ensures temp == Trim(tk)
  {
    hide Erase, Wrap, NposIfEnd, FirstNotIn, EndOfLastNotIn;
    temp := tk;
    if tk == "" {
      return;
    }
    EraseFront(temp, FirstNotIn(temp, {' '}));
    temp := Erase(temp, 0, NposIfEnd(temp, FirstNotIn(temp, {' '})));
    var e := EndOfLastNotIn(temp, {' '});
    EraseBack(temp, e);
    var pos := if e > 0 then e - 1 else NPOS;
    temp := Erase(temp, Wrap(pos + 1), Wrap(|temp| - pos - 1));
  }

  // ---------- split_instr ----------

  /** The statements of a code text: what precedes each ';', trimmed. Text after the last ';' is ignored. */
  function Statements(code: string): seq<string> {
    var i := FirstIn(code, {';'}, 0);
    if i == |code| then [] else [Trim(code[..i])] + Statements(code[i + 1..])
  }

  method SplitInstr(code: string) returns (temp: seq<string>)
    requires Text(code)
    ensures temp == Statements(code)
  {
    hide Trim, Statements, FirstIn;
    temp := [];
    var pos: nat, oldPos: nat := 0, 0;
    assert code[0..] == code;
    while pos != NPOS
      invariant pos == NPOS || pos == oldPos
      invariant oldPos <= |code|
      invariant Statements(code) == temp + if pos == NPOS then [] else Statements(code[oldPos..])
      decreases if pos == NPOS then 0 else 1, |code| - oldPos
    {
      pos := Find(code, {';'}, oldPos);
      NextStatement(code, oldPos);
      if pos != NPOS {
        var t := RemoveSpaces(Substr(code, oldPos, Wrap(pos - oldPos)));
        temp := temp + [t];
        pos := Wrap(pos + 1);
        oldPos := pos;
      }
    }
  }

  lemma FirstStatement(code: string)
    ensures var i := FirstIn(code, {';'}, 0);
            Statements(code) == if i == |code| then [] else [Trim(code[..i])] + Statements(code[i + 1..])
  {
    hide Trim, FirstIn;
  }

  lemma NextStatement(code: string, start: nat)
    requires start <= |code|
    ensures var i := FirstIn(code, {';'}, start);
            Statements(code[start..]) == if i == |code| then [] else [Trim(code[start..i])] + Statements(code[i + 1..])
  {
    hide Trim, FirstIn, Statements;
    var i := FirstIn(code, {';'}, start);
    FirstInSuffix(code, {';'}, start);
    FirstStatement(code[start..]);
    if i < |code| {
      assert code[start..][..i - start] == code[start..i];
      assert code[start..][i - start + 1..] == code[i + 1..];
    }
  }

  lemma {:induction false} FirstInSuffix(s: string, cs: set<char>, from: nat)
    requires from <= |s|
    ensures FirstIn(s, cs, from) == from + FirstIn(s[from..], cs, 0)
  {
    var i, k := FirstIn(s, cs, from), FirstIn(s[from..], cs, 0);
    assert k < |s[from..]| ==> s[from..][k] == s[from + k];
    assert from <= i < |s| ==> s[from..][i - from] == s[i];
    assert forall j :: from <= j < from + k ==> s[j] == s[from..][j - from];
  }

  // ---------- get_token and get_param ----------

  /** The text from the first visible character to the first '('; None when there is no visible character,
      where substr throws. */
  function GetToken(instr: string): Option<string>
    requires Text(instr)
  {
    var pos := Find(instr, {'('}, 0);
    var pos1 := FirstNotIn(instr, {' ', '\n'});
    if pos1 == |instr| then None else Some(Substr(instr, pos1, Wrap(pos - pos1)))
  }

  /** The text between the first '(' and the last ')'. */
  function GetParam(instr: string): string
    requires Text(instr)
  {
    var pos := Find(instr, {'('}, 0);
    if pos == NPOS then ""
    else
      var e := EndOfLastIn(instr, {')'});
      var end := if e > 0 then e - 1 else NPOS;
      Substr(instr, pos + 1, Wrap(end - pos - 1))
  }

  // ---------- split_param ----------

  /** The state of the loop of split_param. */
  datatype Scan = Scan(pos: nat, start: nat, out: seq<string>)

  ghost predicate Looping(p: string, s: Scan) { s.pos <= |p| }

  /** One iteration of the loop. After an unclosed '(' the position wraps around to 0, and the loop goes on
      from position 1. */
  function Iteration(p: string, s: Scan): Scan
    requires Text(p) && s.start <= |p|
  {
    var pos := Find(p, {',', '('}, s.pos);
    var pos' := if pos == NPOS || p[pos] != '(' then pos else Wrap(Find(p, {')'}, pos) + 1);
    if pos' == NPOS then Scan(NPOS, s.start, s.out)
    else
      var t := Trim(Substr(p, s.start, Wrap(pos' - s.start)));
      Scan(Wrap(pos' + 1), Wrap(pos' + 1), s.out + [t])
  }

  /** What the end of the text from start on adds: its trimmed text, unless that is empty. */
  function Tail(p: string, start: nat): seq<string>
    requires start <= |p|
  {
    if Trim(p[start..]) != "" then [Trim(p[start..])] else []
  }

  /** What a scan starting at `start` produces: Done when it reaches the end of the text, Stuck when it
      meets a '(' that is not closed. */
  datatype Outcome = Done(out: seq<string>) | Stuck(out: seq<string>) {
    function Prepend(t: string): Outcome {
      match this
      case Done(o) => Done([t] + o)
      case Stuck(o) => Stuck([t] + o)
    }
  }

  function ScanFrom(p: string, start: nat): Outcome
    requires start <= |p| + 1
    decreases |p| + 1 - start
  {
    if start > |p| then Done([])
    else
      var i := FirstIn(p, {',', '('}, start);
      if i == |p| then Done(Tail(p, start))
      else if p[i] == ',' then ScanFrom(p, i + 1).Prepend(Trim(p[start..i]))
      else
        var j := FirstIn(p, {')'}, i);
        if j == |p| then Stuck([Trim(if start == 0 then "" else p[start..])])
        else ScanFrom(p, j + 2).Prepend(Trim(p[start..j + 1]))
  }

  /** The parameters of p. A scan that gets stuck starts once more from position 1; None means that the loop
      never ends. */
  function Params(p: string): Option<seq<string>> {
    match ScanFrom(p, 0)
    case Done(o) => Some(o)
    case Stuck(o) =>
      match ScanFrom(p, 1)
      case Done(o') => Some(o + o')
      case Stuck(_) => None
  }

  function Extend(out: seq<string>, o: Outcome): Outcome {
    match o
    case Done(x) => Done(out + x)
    case Stuck(x) => Stuck(out + x)
  }

  lemma ExtendPrepend(out: seq<string>, t: string, o: Outcome)
    ensures Extend(out, o.Prepend(t)) == Extend(out + [t], o)
  {
    match o
    case Done(x) => assert out + ([t] + x) == out + [t] + x;
    case Stuck(x) => assert out + ([t] + x) == out + [t] + x;
  }

  /** One iteration in terms of the scan: at the end of the text, ... */
  lemma ScanStepEnd(p: string, start: nat)
    requires Text(p) && start <= |p| && FirstIn(p, {',', '('}, start) == |p|
    ensures Iteration(p, Scan(start, start, [])) == Scan(NPOS, start, [])
    ensures ScanFrom(p, start) == Done(Tail(p, start))
  {
  }

  /** ... at a separator or a closed parenthesis, ... */
  lemma ScanStepClosed(p: string, start: nat)
    requires Text(p) && start <= |p| && FirstIn(p, {',', '('}, start) < |p| && !IsUnclosed(p, start)
    ensures var s := Iteration(p, Scan(start, start, []));
            && s.pos == s.start && |s.out| == 1 && start < s.pos <= |p| + 1
            && ScanFrom(p, start) == ScanFrom(p, s.pos).Prepend(s.out[0])
  {
    hide Trim, Substr, FirstIn, Tail, Outcome.Prepend;
    var i := FirstIn(p, {',', '('}, start);
    if p[i] == ',' {
      ScanStepComma(p, start);
    } else {
      ScanStepParen(p, start);
    }
  }

  lemma ScanStepComma(p: string, start: nat)
    requires Text(p) && start <= |p| && FirstIn(p, {',', '('}, start) < |p| && p[FirstIn(p, {',', '('}, start)] == ','
    ensures var s := Iteration(p, Scan(start, start, []));
            && s.pos == s.start && |s.out| == 1 && start < s.pos <= |p| + 1
            && ScanFrom(p, start) == ScanFrom(p, s.pos).Prepend(s.out[0])
  {
    hide Trim, Substr, FirstIn, Tail, Outcome.Prepend;
    SubstrIs(p, start, FirstIn(p, {',', '('}, start));
  }

  lemma ScanStepParen(p: string, start: nat)
    requires Text(p) && start <= |p| && FirstIn(p, {',', '('}, start) < |p| && p[FirstIn(p, {',', '('}, start)] == '('
    requires FirstIn(p, {')'}, FirstIn(p, {',', '('}, start)) < |p|
    ensures var s := Iteration(p, Scan(start, start, []));
            && s.pos == s.start && |s.out| == 1 && start < s.pos <= |p| + 1
            && ScanFrom(p, start) == ScanFrom(p, s.pos).Prepend(s.out[0])
  {
    hide Trim, Substr, FirstIn, Tail, Outcome.Prepend;
    SubstrIs(p, start, FirstIn(p, {')'}, FirstIn(p, {',', '('}, start)) + 1);
  }

  /** ... and at an unclosed one. */
  lemma ScanStepUnclosed(p: string, start: nat)
    requires Text(p) && start <= |p| && IsUnclosed(p, start)
    ensures var s := Iteration(p, Scan(start, start, []));
            s.pos == s.start == 1 && |s.out| == 1 && ScanFrom(p, start) == Stuck(s.out)
  {
    hide Trim, Substr, FirstIn, Tail;
    UnclosedPiece(p, start);
  }

  lemma ScanStep(p: string, start: nat)
    requires Text(p) && start <= |p|
    ensures var s := Iteration(p, Scan(start, start, []));
            if FirstIn(p, {',', '('}, start) == |p| then
              s == Scan(NPOS, start, []) && ScanFrom(p, start) == Done(Tail(p, start))
            else
              && s.pos == s.start && |s.out| == 1
              && (IsUnclosed(p, start) ==> s.pos == 1 && ScanFrom(p, start) == Stuck(s.out))
              && (!IsUnclosed(p, start) ==>
                    start < s.pos <= |p| + 1 && ScanFrom(p, start) == ScanFrom(p, s.pos).Prepend(s.out[0]))
  {
    hide Iteration, ScanFrom;
    if FirstIn(p, {',', '('}, start) == |p| {
      ScanStepEnd(p, start);
    } else if IsUnclosed(p, start) {
      ScanStepUnclosed(p, start);
    } else {
      ScanStepClosed(p, start);
    }
  }

  lemma SubstrIs(p: string, start: nat, end: nat)
    requires start <= end <= |p|
    ensures Substr(p, start, end - start) == p[start..end]
  {
  }

  lemma UnclosedPiece(p: string, start: nat)
    requires Text(p) && start <= |p|
    ensures Substr(p, start, Wrap(0 - start)) == if start == 0 then "" else p[start..]
  {
  }

  lemma ScanEnd(p: string)
    ensures ScanFrom(p, |p| + 1) == Done([])
  {
  }

  /** The first symbol from start on is a '(' with no ')' behind it. */
  predicate IsUnclosed(p: string, start: nat)
    requires start <= |p|
  {
    var i := FirstIn(p, {',', '('}, start);
    i < |p| && p[i] == '(' && FirstIn(p, {')'}, i) == |p|
  }

  /** The body of the loop of split_param, for a loop that starts the iteration at position `start`. */
  method NextParam(p: string, start: nat) returns (pos: nat, piece: string, unclosed: bool)
    requires Text(p) && start <= |p|
    ensures pos == NPOS <==> FirstIn(p, {',', '('}, start) == |p|
    ensures pos == NPOS ==> ScanFrom(p, start) == Done(Tail(p, start))
    ensures pos != NPOS ==> (unclosed <==> IsUnclosed(p, start))
    ensures pos != NPOS && unclosed ==> pos == 1 && ScanFrom(p, start) == Stuck([piece])
    ensures pos != NPOS && !unclosed ==>
              start < pos <= |p| + 1 && ScanFrom(p, start) == ScanFrom(p, pos).Prepend(piece)
  {
    hide Trim, ScanFrom, Substr;
    ScanStep(p, start);
    unclosed, piece := false, "";
    pos := Find(p, {',', '('}, start);
    if pos != NPOS {
      if p[pos] == '(' {
        pos := Find(p, {')'}, pos);
        unclosed := pos == NPOS;
        pos := Wrap(pos + 1);
      }
    }
    if pos != NPOS {
      piece := RemoveSpaces(Substr(p, start, Wrap(pos - start)));
      assert Iteration(p, Scan(start, start, [])).out == [piece];
      pos := Wrap(pos + 1);
    }
  }

  method SplitParam(p: string) returns (r: Option<seq<string>>)
    requires Text(p)
    ensures r == Params(p)
  {
    hide Trim, ScanFrom, IsUnclosed, Outcome.Prepend, FirstIn;
    var temp: seq<string> := [];
    var pos: nat, oldPos: nat := 0, 0;
    var wrapped := false;
    ghost var before: seq<string> := [];
    assert Extend([], ScanFrom(p, 0)) == ScanFrom(p, 0);
    while pos <= |p|
      invariant pos == oldPos <= |p| + 1 || (pos == NPOS && oldPos <= |p|)
      invariant wrapped ==> ScanFrom(p, 0) == Stuck(before)
      invariant !wrapped ==> before == []
      invariant before <= temp
      invariant pos == oldPos ==>
        ScanFrom(p, if wrapped then 1 else 0) == Extend(temp[|before|..], ScanFrom(p, oldPos))
      invariant pos == NPOS ==>
        ScanFrom(p, if wrapped then 1 else 0) == Done(temp[|before|..] + Tail(p, oldPos))
      decreases !wrapped, if pos <= |p| then |p| + 1 - pos else 0
    {
      var piece, unclosed;
      ghost var start := pos;
      pos, piece, unclosed := NextParam(p, pos);
      if pos != NPOS {
        if unclosed && wrapped {
          return None;
        }
        if !unclosed {
          ExtendPrepend(temp[|before|..], piece, ScanFrom(p, pos));
          assert (temp + [piece])[|before|..] == temp[|before|..] + [piece];
        }
        temp := temp + [piece];
        oldPos := pos;
        if unclosed {
          wrapped, before := true, temp;
          assert temp[|before|..] == [] && Extend([], ScanFrom(p, 1)) == ScanFrom(p, 1);
        }
      }
    }
    ScanEnd(p);
    ghost var out := temp[|before|..] + if pos != oldPos then Tail(p, oldPos) else [];
    assert ScanFrom(p, if wrapped then 1 else 0) == Done(out);
    if pos != oldPos {
      var t := RemoveSpaces(Substr(p, oldPos, |p| - oldPos));
      if t != "" {
        temp := temp + [t];
      }
    }
    assert temp == before + out;
    return Some(temp);
  }

  // ---------- what a parameter is ----------

  /** Empty, or with a visible character at both ends. */
  ghost predicate Tight(e: string) { e != "" ==> e[0] != ' ' && e[|e| - 1] != ' ' }

  /** A piece of p from a to b: it starts where the scan did, behind a comma, or one behind the character after a ')',
      and it ends at a comma, behind a ')' or at the end of the text. */
  ghost predicate IsPiece(p: string, first: nat, a: nat, b: nat) {
    && first <= a <= b <= |p|
    && (a == first || p[a - 1] == ',' || (a > 1 && p[a - 2] == ')'))
    && (b == |p| || p[b] == ',' || (b > 0 && p[b - 1] == ')'))
  }

  /** e is text of a piece of p, with nothing but spaces cut off at its ends. */
  ghost predicate CutFrom(p: string, first: nat, e: string) {
    exists a: nat, i: nat, j: nat, b: nat :: IsPiece(p, first, a, b) && IsCut(p, a, i, j, b) && p[i..j] == e
  }

  ghost predicate IsCut(p: string, a: nat, i: nat, j: nat, b: nat) {
    && a <= i <= j <= b <= |p|
    && forall k :: a <= k < i || j <= k < b ==> p[k] == ' '
  }

  lemma TrimIsCut(p: string, first: nat, a: nat, b: nat)
    requires IsPiece(p, first, a, b)
    ensures Tight(Trim(p[a..b])) && CutFrom(p, first, Trim(p[a..b]))
  {
    hide Trim, IsPiece;
    assert a <= b <= |p| by { PieceIsInside(p, first, a, b); }
    var s := p[a..b];
    TrimIsTight(s);
    var i, j :| 0 <= i <= j <= |s| && Trim(s) == s[i..j] && forall k :: 0 <= k < i || j <= k < |s| ==> s[k] == ' ';
    assert forall k :: a <= k < b ==> p[k] == s[k - a];
    assert p[a + i..a + j] == s[i..j];
    assert IsCut(p, a, a + i, a + j, b);
  }

  lemma PieceIsInside(p: string, first: nat, a: nat, b: nat)
    requires IsPiece(p, first, a, b)
    ensures a <= b <= |p|
  {
  }

  /** A scan comes from where it started, or from behind a separator. */
  ghost predicate IsStart(p: string, first: nat, a: nat) {
    first <= a <= |p| + 1 && (a == first || (a <= |p| && p[a - 1] == ',') || (a > 1 && p[a - 2] == ')'))
  }

  ghost predicate GoodParam(p: string, first: nat, e: string) { Tight(e) && (e != "" ==> CutFrom(p, first, e)) }

  lemma TailIsGood(p: string, first: nat, start: nat)
    requires start <= |p| && IsStart(p, first, start)
    ensures forall e :: e in Tail(p, start) ==> GoodParam(p, first, e)
  {
    hide Trim, Tight, CutFrom;
    assert p[start..] == p[start..|p|];
    TrimIsCut(p, first, start, |p|);
  }

  /** The first piece of a scan, up to a comma, a closed parenthesis, or the end. */
  lemma PieceIsGood(p: string, first: nat, start: nat, b: nat)
    requires IsStart(p, first, start) && start <= b <= |p| && (b == |p| || p[b] == ',' || (b > 0 && p[b - 1] == ')'))
    ensures GoodParam(p, first, Trim(p[start..b]))
  {
    hide Trim, Tight, CutFrom;
    TrimIsCut(p, first, start, b);
  }

  lemma NothingIsGood(p: string, first: nat)
    ensures GoodParam(p, first, "") && Trim("") == ""
  {
  }

  lemma {:induction false} ScanIsGood(p: string, first: nat, start: nat)
    requires IsStart(p, first, start)
    ensures forall e :: e in ScanFrom(p, start).out ==> GoodParam(p, first, e)
    decreases |p| + 1 - start
  {
    hide Trim, Tail, FirstIn, GoodParam;
    if start <= |p| {
      var i := FirstIn(p, {',', '('}, start);
      if i == |p| {
        TailIsGood(p, first, start);
      } else if p[i] == ',' {
        PieceIsGood(p, first, start, i);
        ScanIsGood(p, first, i + 1);
      } else {
        var j := FirstIn(p, {')'}, i);
        if j == |p| {
          NothingIsGood(p, first);
          assert p[start..] == p[start..|p|];
          PieceIsGood(p, first, start, |p|);
        } else {
          PieceIsGood(p, first, start, j + 1);
          ScanIsGood(p, first, j + 2);
        }
      }
    }
  }

  /** Every parameter is empty or starts and ends visibly, and it is the text of a piece between separators with only
      spaces cut off. A second scan starts at position 1. */
  lemma ParamsAreTrimmed(p: string, e: string)
    requires Params(p).Some? && e in Params(p).value
    ensures Tight(e)
    ensures e != "" ==> CutFrom(p, 0, e) || (ScanFrom(p, 0).Stuck? && CutFrom(p, 1, e))
  {
    hide ScanFrom, Tight, CutFrom;
    ScanIsGood(p, 0, 0);
    if p != "" {
      ScanIsGood(p, 1, 1);
    } else {
      ScanNothing(p);
    }
  }

  lemma ScanNothing(p: string)
    ensures ScanFrom(p, |p|) == Done([])
  {
    assert p[|p|..] == "";
  }

  // ---------- when the loop ends ----------

  /** n iterations of the loop, as long as it goes on. */
  ghost function Iterate(p: string, n: nat): Option<Scan>
    requires Text(p)
  {
    if n == 0 then Some(Scan(0, 0, []))
    else
      match Iterate(p, n - 1)
      case Some(s) => if s.pos == s.start <= |p| then Some(Iteration(p, s)) else None
      case None => None
  }

  /** The loop guard still holds after n iterations. */
  ghost predicate StillLooping(p: string, n: nat)
    requires Text(p)
  {
    Iterate(p, n).Some? && Looping(p, Iterate(p, n).value)
  }

  lemma IterationKeepsOutput(p: string, start: nat, out: seq<string>)
    requires Text(p) && start <= |p|
    ensures var s, s' := Iteration(p, Scan(start, start, [])), Iteration(p, Scan(start, start, out));
            s'.pos == s.pos && s'.start == s.start && s'.out == out + s.out
  {
    hide Trim, Substr, Find, Wrap;
  }

  /** The loop has gone through n full iterations and is at position `start`. */
  ghost predicate Reaches(p: string, n: nat, start: nat, out: seq<string>)
    requires Text(p)
  {
    && Iterate(p, n) == Some(Scan(start, start, out))
    && forall k :: 0 <= k < n ==> StillLooping(p, k)
  }

  /** One more iteration. */
  lemma ReachNext(p: string, n: nat, start: nat, out: seq<string>)
    requires Text(p) && start <= |p| && Reaches(p, n, start, out)
    ensures StillLooping(p, n)
    ensures var s := Iteration(p, Scan(start, start, out));
            && Iterate(p, n + 1) == Some(s)
            && (s.pos == s.start ==> Reaches(p, n + 1, s.pos, s.out))
            && (s.pos == NPOS ==> !StillLooping(p, n + 1))
  {
    hide Iteration;
  }

  /** A scan that gets stuck comes back to position 1 without leaving the loop, and a scan that does not
      leaves it. */
  lemma {:induction false} FollowScan(p: string, n: nat, start: nat, out: seq<string>)
    returns (n': nat, out': seq<string>)
    requires Text(p) && start <= |p| + 1 && Reaches(p, n, start, out)
    ensures ScanFrom(p, start).Stuck? ==> p != "" && n' > n && Reaches(p, n', 1, out')
    ensures ScanFrom(p, start).Done? ==> Iterate(p, n').Some? && !StillLooping(p, n')
    decreases |p| + 1 - start
  {
    n', out' := n, out;
    if start <= |p| {
      ScanStep(p, start);
      IterationKeepsOutput(p, start, out);
      ReachNext(p, n, start, out);
      var s := Iteration(p, Scan(start, start, out));
      hide Iteration, ScanFrom, StillLooping, Reaches, Iterate;
      n', out' := n + 1, s.out;
      if FirstIn(p, {',', '('}, start) < |p| && !IsUnclosed(p, start) {
        n', out' := FollowScan(p, n + 1, s.pos, s.out);
      }
    }
  }

  /** The loop of split_param ends exactly when Params has a value: when a scan from position 0 or a scan from
      position 1 meets no unclosed parenthesis. */
  lemma LoopEndsIff(p: string)
    requires Text(p)
    ensures Params(p).Some? <==> exists n :: Iterate(p, n).Some? && !StillLooping(p, n)
  {
    assert Reaches(p, 0, 0, []);
    var n, out := FollowScan(p, 0, 0, []);
    if ScanFrom(p, 0).Stuck? {
      if ScanFrom(p, 1).Stuck? {
        forall m: nat ensures StillLooping(p, m) {
          LoopsForever(p, n, out, m);
        }
      } else {
        n, out := FollowScan(p, n, 1, out);
      }
    }
  }

  lemma {:induction false} LoopsForever(p: string, n: nat, out: seq<string>, m: nat)
    requires Text(p) && p != "" && ScanFrom(p, 1).Stuck? && Reaches(p, n, 1, out)
    ensures StillLooping(p, m)
    decreases if n <= m then m - n + 1 else 0
  {
    if n <= m {
      var n', out' := FollowScan(p, n, 1, out);
      LoopsForever(p, n', out', m);
    }
  }

  /** In particular it ends when every opening parenthesis is closed. */
  lemma {:induction false} ClosedScanIsDone(p: string, start: nat)
    requires start <= |p| + 1
    requires forall i :: 0 <= i < |p| && p[i] == '(' ==> exists j :: i < j < |p| && p[j] == ')'
    ensures ScanFrom(p, start).Done?
    decreases |p| + 1 - start
  {
    hide Trim, Tail, FirstIn;
    if start <= |p| {
      var i := FirstIn(p, {',', '('}, start);
      if i < |p| {
        if p[i] == ',' {
          ClosedScanIsDone(p, i + 1);
        } else {
          var j :| i < j < |p| && p[j] == ')';
          ClosedScanIsDone(p, FirstIn(p, {')'}, i) + 2);
        }
      }
    }
  }
}
