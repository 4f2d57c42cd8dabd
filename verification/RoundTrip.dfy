/** Instruction lists survive rendering and parsing (src/strtoken.cpp, src/task.cpp). */
module RoundTrip {
  import opened Common
  import opened StrToken

  datatype Instruction = Instruction(token: string, args: seq<string>)

  // ---------- writing ----------

  function Spaces(n: nat): string {
    if n == 0 then "" else " " + Spaces(n - 1)
  }

  /** An argument with spaces on both sides. */
  datatype Spaced = Spaced(before: nat, arg: string, after: nat)

  function Join(args: seq<Spaced>): string {
    if args == [] then ""
    else
      var text := Spaces(args[0].before) + args[0].arg + Spaces(args[0].after);
      if |args| == 1 then text else text + "," + Join(args[1..])
  }

  /** An instruction as somebody writes it: white space and line breaks around it, spaces around its arguments, or
      between the parentheses when there are none. */
  datatype Written = Written(lead: string, token: string, args: seq<Spaced>, blank: nat, trail: string)

  function Inside(x: Written): string { if x.args == [] then Spaces(x.blank) else Join(x.args) }

  function Call(x: Written): string { x.token + "(" + Inside(x) + ")" }

  function Render(x: Written): string { x.lead + Call(x) + x.trail }

  function RenderAll(xs: seq<Written>): string {
    if xs == [] then "" else Render(xs[0]) + ";" + RenderAll(xs[1..])
  }

  // ---------- reading ----------

  function IsCall(a: string): bool { a != "" && a[|a| - 1] == ')' }

  /** Spaces between a call and the comma make an empty parameter of their own. */
  function Extra(x: Spaced): seq<string> { if IsCall(x.arg) && x.after > 0 then [""] else [] }

  /** The parameters that come back. */
  function Read(args: seq<Spaced>): seq<string> {
    if args == [] then []
    else if |args| == 1 then [args[0].arg]
    else [args[0].arg] + (Extra(args[0]) + Read(args[1..]))
  }

  function Meaning(x: Written): Instruction { Instruction(x.token, Read(x.args)) }

  function Args(args: seq<Spaced>): seq<string> { seq(|args|, i requires 0 <= i < |args| => args[i].arg) }

  lemma {:induction false} ReadIsLonger(args: seq<Spaced>)
    ensures |Read(args)| >= |args|
  {
    if args != [] {
      ReadIsLonger(args[1..]);
    }
  }

  /** Exactly the arguments come back if and only if no call but the last is followed by spaces. */
  lemma {:induction false} ReadIsArgsIff(args: seq<Spaced>)
    ensures Read(args) == Args(args) <==>
              forall i :: 0 <= i < |args| - 1 && IsCall(args[i].arg) ==> args[i].after == 0
    decreases |args|
  {
    if |args| > 1 {
      ReadIsArgsIff(args[1..]);
      ReadIsLonger(args[1..]);
      assert Args(args) == [args[0].arg] + Args(args[1..]);
      if Extra(args[0]) == [] {
        assert Read(args)[1..] == Read(args[1..]) && Args(args)[1..] == Args(args[1..]);
        RestIff(args);
      } else {
        assert |Read(args)| > |Args(args)|;
      }
    }
  }

  lemma RestIff(args: seq<Spaced>)
    requires args != [] && (|args| > 1 && IsCall(args[0].arg) ==> args[0].after == 0)
    ensures (forall i :: 0 <= i < |args| - 1 && IsCall(args[i].arg) ==> args[i].after == 0)
            <==> (forall i :: 0 <= i < |args[1..]| - 1 && IsCall(args[1..][i].arg) ==> args[1..][i].after == 0)
  {
    if forall i :: 0 <= i < |args[1..]| - 1 && IsCall(args[1..][i].arg) ==> args[1..][i].after == 0 {
      forall i | 0 <= i < |args| - 1 && IsCall(args[i].arg) ensures args[i].after == 0 {
        if i > 0 {
          assert args[1..][i - 1] == args[i];
        }
      }
    }
  }

  // ---------- parsing ----------

  /** Task::insertCode for one instruction, up to the creation of the object. */
  function Parse(instr: string): Option<Instruction>
    requires Text(instr)
  {
    match GetToken(instr)
    case None => None
    case Some(token) =>
      match Params(GetParam(instr))
      case None => None
      case Some(args) => Some(Instruction(token, args))
  }

  function ParseEach(instrs: seq<string>): Option<seq<Instruction>>
    requires forall i :: 0 <= i < |instrs| ==> Text(instrs[i])
  {
    if instrs == [] then Some([])
    else
      match (Parse(instrs[0]), ParseEach(instrs[1..]))
      case (Some(x), Some(xs)) => Some([x] + xs)
      case _ => None
  }

  // ---------- what can be rendered ----------

  ghost predicate Free(s: string, cs: set<char>) { forall k :: 0 <= k < |s| ==> s[k] !in cs }

  /** A visible token without '(' or ';'. */
  ghost predicate PlainToken(t: string) {
    t != "" && t[0] != ' ' && t[0] != '\n' && Free(t, {'(', ';'})
  }

  /** A word without separators. */
  ghost predicate PlainWord(a: string) {
    a != "" && a[0] != ' ' && a[|a| - 1] != ' ' && Free(a, {',', '(', ')', ';'})
  }

  /** name(inner) with the '(' at index i; inner may hold commas but no parentheses. */
  ghost predicate PlainCall(a: string, i: nat) {
    && i < |a| - 1 && a[0] != ' ' && a[i] == '(' && a[|a| - 1] == ')'
    && Free(a[..i], {',', '(', ')', ';'})
    && Free(a[i + 1..|a| - 1], {'(', ')', ';'})
  }

  ghost predicate PlainArg(a: string) { PlainWord(a) || exists i :: PlainCall(a, i) }

  /** Spaces and line breaks. */
  ghost predicate White(s: string) { forall k :: 0 <= k < |s| ==> s[k] in {' ', '\n'} }

  ghost predicate PlainArgs(args: seq<Spaced>) { forall i :: 0 <= i < |args| ==> PlainArg(args[i].arg) }

  ghost predicate Plain(x: Written) { White(x.lead) && PlainToken(x.token) && PlainArgs(x.args) && White(x.trail) }

  // ---------- trimming ----------

  lemma {:induction false} SpacesAre(n: nat)
    ensures |Spaces(n)| == n && forall k :: 0 <= k < n ==> Spaces(n)[k] == ' '
  {
    if n > 0 {
      SpacesAre(n - 1);
    }
  }

  lemma {:induction false} FirstInIs(s: string, cs: set<char>, from: nat, i: nat)
    requires from <= i <= |s| && (i < |s| ==> s[i] in cs)
    requires forall k :: from <= k < i ==> s[k] !in cs
    ensures FirstIn(s, cs, from) == i
  {
  }

  lemma {:induction false} EndOfLastInIs(s: string, cs: set<char>, e: nat)
    requires 0 < e <= |s| && s[e - 1] in cs && forall k :: e <= k < |s| ==> s[k] !in cs
    ensures EndOfLastIn(s, cs) == e
  {
  }

  /** Around a text that starts and ends visibly, trimming leaves part of what is before and after it. */
  lemma TrimAround(u: string, core: string, v: string) returns (i: nat, m: nat)
    requires core != "" && core[0] != ' ' && core[|core| - 1] != ' '
    ensures i <= |u| && m <= |v| && Trim(u + core + v) == u[i..] + core + v[..m]
    ensures Free(u[..i], {'\n'}) && (i < |u| ==> u[i] != ' ')
    ensures m > 0 ==> v[m - 1] != ' '
  {
    var s := u + core + v;
    i := FirstNotIn(s, {' '});
    assert s[|u|] == core[0];
    assert i <= |u|;
    assert forall k :: 0 <= k < i ==> s[k] == u[k];
    var a := s[i..];
    var e := EndOfLastNotIn(a, {' '});
    var n := |u| - i + |core|;
    assert a[n - 1] == core[|core| - 1];
    assert e >= n;
    m := e - n;
    assert a == u[i..] + core + v;
    assert a[..e] == u[i..] + core + v[..m];
    assert m > 0 ==> a[e - 1] == v[m - 1];
  }

  lemma TrimSpaced(s: string, n: nat, a: string)
    requires a != "" && a[0] != ' ' && a[|a| - 1] != ' ' && n + |a| <= |s| && s[n..n + |a|] == a
    requires forall k :: 0 <= k < n || n + |a| <= k < |s| ==> s[k] == ' '
    ensures Trim(s) == a
  {
    hide Trim;
    assert s == s[..n] + a + s[n + |a|..];
    var i, m := TrimAround(s[..n], a, s[n + |a|..]);
    assert i == n && m == 0;
    assert s[..n][n..] + a + s[n + |a|..][..0] == a;
  }

  lemma TrimBlank(s: string)
    requires forall k :: 0 <= k < |s| ==> s[k] == ' '
    ensures Trim(s) == ""
  {
    TrimIsTight(s);
  }

  // ---------- the parameters come back ----------

  lemma ArgIsTight(a: string)
    requires PlainArg(a)
    ensures a != "" && a[0] != ' ' && a[|a| - 1] != ' '
    ensures IsCall(a) <==> !PlainWord(a)
  {
    if !PlainWord(a) {
      var i: nat :| PlainCall(a, i);
    }
  }

  function End(start: nat, x: Spaced): nat { start + x.before + |x.arg| + x.after }

  /** p has x at position start, followed by a comma or the end. */
  ghost predicate HasArg(p: string, start: nat, x: Spaced) {
    var a := start + x.before;
    && End(start, x) <= |p|
    && (forall k :: start <= k < a ==> p[k] == ' ')
    && p[a..a + |x.arg|] == x.arg
    && (forall k :: a + |x.arg| <= k < End(start, x) ==> p[k] == ' ')
    && (End(start, x) < |p| ==> p[End(start, x)] == ',')
  }

  /** The piece from the start of x to some place in the spaces after it. */
  lemma TrimArg(p: string, start: nat, x: Spaced, e: nat)
    requires HasArg(p, start, x) && PlainArg(x.arg) && start + x.before + |x.arg| <= e <= End(start, x)
    ensures Trim(p[start..e]) == x.arg
  {
    ArgIsTight(x.arg);
    hide Trim, PlainArg, PlainWord, IsCall;
    var s, n, m := p[start..e], x.before, |x.arg|;
    assert forall k :: 0 <= k < |s| ==> s[k] == p[start + k];
    SliceOfSlice(p, start, e, n, n + m);
    TrimSpaced(s, n, x.arg);
  }

  lemma SliceOfSlice(p: string, start: nat, e: nat, i: nat, j: nat)
    requires start + i <= start + j <= e <= |p|
    ensures p[start..e][i..j] == p[start + i..start + j]
  {
    var s := p[start..e];
    forall k | 0 <= k < j - i ensures s[i..j][k] == p[start + i..start + j][k] {
    }
  }

  lemma ArgEnds(p: string, start: nat, x: Spaced)
    requires HasArg(p, start, x)
    ensures End(start, x) == start + x.before + |x.arg| + x.after
    ensures End(start, x) <= |p| && (End(start, x) < |p| ==> p[End(start, x)] == ',')
    ensures forall k :: start + x.before + |x.arg| <= k < End(start, x) ==> p[k] == ' '
  {
  }

  /** The scan from start to the next symbol, which is a comma, or to the end. */
  lemma ScanToComma(p: string, start: nat, e: nat)
    requires start <= |p| && FirstIn(p, {',', '('}, start) == e && (e < |p| ==> p[e] == ',')
    ensures ScanFrom(p, start) ==
              if e == |p| then Done(Tail(p, start)) else ScanFrom(p, e + 1).Prepend(Trim(p[start..e]))
  {
    hide Trim, FirstIn, Tail, Outcome.Prepend;
  }

  lemma WordSymbols(p: string, start: nat, x: Spaced)
    requires PlainWord(x.arg) && HasArg(p, start, x)
    ensures FirstIn(p, {',', '('}, start) == End(start, x)
  {
    hide FirstIn;
    var a := start + x.before;
    forall k | start <= k < End(start, x) ensures p[k] !in {',', '('} {
      assert a <= k < a + |x.arg| ==> p[k] == p[a..a + |x.arg|][k - a];
    }
    FirstInIs(p, {',', '('}, start, End(start, x));
  }

  lemma ScanWord(p: string, start: nat, x: Spaced)
    requires PlainArg(x.arg) && PlainWord(x.arg) && HasArg(p, start, x) && End(start, x) <= |p|
    ensures ScanFrom(p, start) ==
              if End(start, x) == |p| then Done([x.arg]) else ScanFrom(p, End(start, x) + 1).Prepend(x.arg)
  {
    hide Trim, FirstIn, PlainArg, PlainWord, ScanFrom, HasArg, End, Outcome.Prepend;
    var e := End(start, x);
    ArgEnds(p, start, x);
    WordSymbols(p, start, x);
    TrimArg(p, start, x, e);
    ArgIsTight(x.arg);
    ScanToComma(p, start, e);
    assert e == |p| ==> p[start..] == p[start..e];
  }


  lemma ScanOverCall(p: string, start: nat, i: nat, j: nat)
    requires start <= |p| && FirstIn(p, {',', '('}, start) == i < |p| && p[i] == '('
    requires FirstIn(p, {')'}, i) == j < |p|
    ensures ScanFrom(p, start) == ScanFrom(p, j + 2).Prepend(Trim(p[start..j + 1]))
  {
    hide Trim, FirstIn, Tail, Outcome.Prepend;
  }

  lemma CallSymbols(p: string, start: nat, x: Spaced, i: nat)
    requires PlainCall(x.arg, i) && HasArg(p, start, x)
    ensures FirstIn(p, {',', '('}, start) == start + x.before + i && p[start + x.before + i] == '('
    ensures FirstIn(p, {')'}, start + x.before + i) == start + x.before + |x.arg| - 1
  {
    hide FirstIn;
    var a, n := x.arg, start + x.before;
    assert forall k :: n <= k < n + |a| ==> p[k] == p[n..n + |a|][k - n];
    hide HasArg;
    CallChars(a, i);
    hide PlainCall;
    FirstInIs(p, {',', '('}, start, n + i);
    FirstInIs(p, {')'}, n + i, n + |a| - 1);
  }

  lemma CallChars(a: string, i: nat)
    requires PlainCall(a, i)
    ensures i < |a| - 1 && a[i] == '(' && a[|a| - 1] == ')'
    ensures forall k :: 0 <= k < i ==> a[k] !in {',', '('}
    ensures forall k :: i <= k < |a| - 1 ==> a[k] != ')'
  {
    assert forall k :: 0 <= k < i ==> a[k] == a[..i][k];
    assert forall k :: i < k < |a| - 1 ==> a[k] == a[i + 1..|a| - 1][k - i - 1];
  }

  /** After a call the scan goes on behind the next character, ... */
  lemma ScanPastCall(p: string, start: nat, x: Spaced)
    requires PlainArg(x.arg) && !PlainWord(x.arg) && HasArg(p, start, x)
    ensures start + x.before + |x.arg| <= |p|
    ensures ScanFrom(p, start) == ScanFrom(p, start + x.before + |x.arg| + 1).Prepend(x.arg)
  {
    hide *;
    var i := CallIndex(x.arg);
    var b := start + x.before + |x.arg|;
    ArgIsTight(x.arg);
    ArgEnds(p, start, x);
    CallSymbols(p, start, x, i);
    TrimArg(p, start, x, b);
    ScanOverCall(p, start, start + x.before + i, b - 1);
  }

  lemma CallIndex(a: string) returns (i: nat)
    requires PlainArg(a) && !PlainWord(a)
    ensures PlainCall(a, i)
  {
    i :| PlainCall(a, i);
  }

  /** ... and if that was a space, what is left before the comma is a parameter of its own. */
  lemma ScanCall(p: string, start: nat, x: Spaced)
    requires PlainArg(x.arg) && !PlainWord(x.arg) && HasArg(p, start, x) && End(start, x) <= |p|
    ensures ScanFrom(p, start) ==
              if x.after > 0 && End(start, x) < |p| then
                ScanFrom(p, End(start, x) + 1).Prepend("").Prepend(x.arg)
              else if x.after > 0 then Done([]).Prepend(x.arg)
              else ScanFrom(p, End(start, x) + 1).Prepend(x.arg)
  {
    hide *;
    ScanPastCall(p, start, x);
    ArgEnds(p, start, x);
    if x.after > 0 {
      ScanBlank(p, start + x.before + |x.arg| + 1, End(start, x));
    }
  }

  lemma ScanBlank(p: string, start: nat, e: nat)
    requires start <= e <= |p| && (forall k :: start <= k < e ==> p[k] == ' ') && (e < |p| ==> p[e] == ',')
    ensures ScanFrom(p, start) == if e == |p| then Done([]) else ScanFrom(p, e + 1).Prepend("")
  {
    hide Trim, FirstIn, ScanFrom;
    FirstInIs(p, {',', '('}, start, e);
    TrimBlank(p[start..e]);
    ScanToComma(p, start, e);
    assert e == |p| ==> p[start..] == p[start..e];
  }

  /** What one argument adds, when others follow and when it is the last one. */
  lemma ScanArg(p: string, start: nat, x: Spaced)
    requires PlainArg(x.arg) && HasArg(p, start, x)
    ensures ScanFrom(p, start) ==
              if End(start, x) == |p| then Done([x.arg])
              else Extend([x.arg], Extend(Extra(x), ScanFrom(p, End(start, x) + 1)))
  {
    hide ScanFrom, PlainWord, HasArg, IsCall, PlainArg, Outcome.Prepend, Extend, End;
    ArgIsTight(x.arg);
    ArgEnds(p, start, x);
    ScanEnd(p);
    var o := ScanFrom(p, End(start, x) + 1);
    PrependIs(x.arg, o);
    PrependIs("", o);
    PrependIs(x.arg, Extend([""], o));
    ExtendNothing(o);
    PrependIs(x.arg, Done([]));
    LastIs(x.arg);
    if PlainWord(x.arg) {
      ScanWord(p, start, x);
    } else {
      ScanCall(p, start, x);
    }
  }

  lemma PrependIs(t: string, o: Outcome)
    ensures o.Prepend(t) == Extend([t], o)
  {
  }

  lemma ExtendNothing(o: Outcome)
    ensures Extend([], o) == o
  {
    match o
    case Done(x) => assert [] + x == x;
    case Stuck(x) => assert [] + x == x;
  }

  lemma LastIs(t: string)
    ensures Extend([t], Done([])) == Done([t])
  {
    assert [t] + [] == [t];
  }

  lemma JoinHasArg(p: string, start: nat, args: seq<Spaced>)
    requires start <= |p| && args != [] && p[start..] == Join(args)
    ensures HasArg(p, start, args[0])
    ensures |args| == 1 ==> End(start, args[0]) == |p|
    ensures |args| > 1 ==> End(start, args[0]) < |p| && p[End(start, args[0]) + 1..] == Join(args[1..])
  {
    var x := args[0];
    JoinIs(args);
    var rest := if |args| == 1 then "" else "," + Join(args[1..]);
    hide Join;
    JoinedHasArg(p, start, x, rest);
    hide HasArg;
    if |args| > 1 {
      assert rest[0] == ',' && rest[1..] == Join(args[1..]);
    }
  }

  lemma JoinedHasArg(p: string, start: nat, x: Spaced, rest: string)
    requires start <= |p| && p[start..] == Spaces(x.before) + x.arg + Spaces(x.after) + rest
    requires rest != "" ==> rest[0] == ','
    ensures HasArg(p, start, x) && End(start, x) <= |p| && p[End(start, x)..] == rest
    ensures End(start, x) < |p| <==> rest != ""
    ensures rest != "" ==> p[End(start, x) + 1..] == rest[1..]
  {
    SpacesAre(x.before);
    SpacesAre(x.after);
    hide Spaces;
    PartsAre(p, start, Spaces(x.before), x.arg, Spaces(x.after), rest);
  }

  lemma PartsAre(p: string, start: nat, l: string, a: string, r: string, rest: string)
    requires start <= |p| && p[start..] == l + a + r + rest
    ensures var i, j, n := start + |l|, start + |l| + |a|, start + |l| + |a| + |r|;
            && n <= |p|
            && (forall k :: start <= k < i ==> p[k] == l[k - start])
            && p[i..j] == a
            && (forall k :: j <= k < n ==> p[k] == r[k - j])
            && p[n..] == rest
            && (n < |p| ==> p[n] == rest[0] && p[n + 1..] == rest[1..])
  {
    var s := p[start..];
    assert forall k :: 0 <= k < |s| ==> s[k] == p[start + k];
    assert p[start + |l|..start + |l| + |a|] == s[|l|..|l| + |a|];
    assert p[start + |l| + |a| + |r|..] == s[|l| + |a| + |r|..];
  }

  lemma JoinIs(args: seq<Spaced>)
    requires args != []
    ensures Join(args) == Spaces(args[0].before) + args[0].arg + Spaces(args[0].after)
                          + if |args| == 1 then "" else "," + Join(args[1..])
  {
    hide Spaces;
  }

  lemma {:induction false} ScanJoin(p: string, start: nat, args: seq<Spaced>)
    requires start <= |p| && args != [] && p[start..] == Join(args) && PlainArgs(args)
    ensures ScanFrom(p, start) == Done(Read(args))
    decreases |args|
  {
    hide ScanFrom, PlainArg, PlainWord, Join, HasArg, Extra, Read, End;
    JoinHasArg(p, start, args);
    ScanArg(p, start, args[0]);
    ReadUnfolds(args);
    if |args| > 1 {
      ScanJoin(p, End(start, args[0]) + 1, args[1..]);
    }
  }

  lemma ReadUnfolds(args: seq<Spaced>)
    requires args != []
    ensures Read(args) == if |args| == 1 then [args[0].arg] else [args[0].arg] + (Extra(args[0]) + Read(args[1..]))
  {
    hide Extra;
  }

  /** The parameters of arguments written with spaces around them. */
  lemma ParamsOfInside(x: Written)
    requires PlainArgs(x.args)
    ensures Params(Inside(x)) == Some(Read(x.args))
  {
    var p := Inside(x);
    assert p[0..] == p;
    if x.args == [] {
      SpacesAre(x.blank);
      ScanBlank(p, 0, |p|);
    } else {
      ScanJoin(p, 0, x.args);
    }
  }

  // ---------- the instructions come back ----------

  lemma TokenIs(s: string, l: nat, n: nat)
    requires Text(s) && l < n < |s| && s[l] !in {' ', '\n'} && s[n] == '('
    requires (forall k :: 0 <= k < l ==> s[k] in {' ', '\n'}) && forall k :: 0 <= k < n ==> s[k] != '('
    ensures GetToken(s) == Some(s[l..n])
  {
    hide FirstIn, FirstNotIn;
    FirstInIs(s, {'('}, 0, n);
    FirstVisible(s, l);
  }

  lemma ParamIs(s: string, n: nat, e: nat)
    requires Text(s) && n < e < |s| && s[n] == '(' && s[e] == ')'
    requires (forall k :: 0 <= k < n ==> s[k] != '(') && forall k :: e < k < |s| ==> s[k] != ')'
    ensures GetParam(s) == s[n + 1..e]
  {
    hide FirstIn, EndOfLastIn;
    FirstInIs(s, {'('}, 0, n);
    EndOfLastInIs(s, {')'}, e + 1);
  }

  /** The token and the text between the parentheses, whatever white space is around the call. */
  lemma TokenAndParam(x: Written)
    requires Plain(x) && Text(Render(x))
    ensures GetToken(Render(x)) == Some(x.token)
    ensures GetParam(Render(x)) == Inside(x)
  {
    hide Inside, GetToken, GetParam;
    RenderChars(x.lead, x.token, Inside(x), x.trail);
    var s, l, n := Render(x), |x.lead|, |x.lead| + |x.token|;
    assert s == x.lead + (x.token + "(" + Inside(x) + ")") + x.trail;
    TokenIs(s, l, n);
    ParamIs(s, n, n + 1 + |Inside(x)|);
  }

  lemma RenderChars(lead: string, token: string, inside: string, trail: string)
    ensures var s := lead + (token + "(" + inside + ")") + trail;
            var l, n, e := |lead|, |lead| + |token|, |lead| + |token| + 1 + |inside|;
            && (forall k :: 0 <= k < l ==> s[k] == lead[k])
            && (forall k :: l <= k < n ==> s[k] == token[k - l])
            && s[n] == '(' && s[e] == ')'
            && (forall k :: e < k < |s| ==> s[k] == trail[k - e - 1])
            && s[l..n] == token && s[n + 1..e] == inside
  {
  }

  lemma FirstVisible(s: string, i: nat)
    requires i < |s| && s[i] !in {' ', '\n'} && forall k :: 0 <= k < i ==> s[k] in {' ', '\n'}
    ensures FirstNotIn(s, {' ', '\n'}) == i
  {
    hide FirstNotIn;
  }

  lemma ParseRender(x: Written)
    requires Plain(x) && Text(Render(x))
    ensures Parse(Render(x)) == Some(Meaning(x))
  {
    TokenAndParam(x);
    ParamsOfInside(x);
    hide GetToken, GetParam, Params, Render, Inside, Read;
  }

  // ---------- instructions without a closed call ----------

  /** There is no token exactly when nothing is visible. */
  lemma NoTokenIff(s: string)
    requires Text(s)
    ensures GetToken(s).None? <==> White(s)
  {
    hide FirstNotIn;
  }

  /** Without a parenthesis everything from the first visible character on is the token, and there are no parameters. */
  lemma ParseBare(lead: string, token: string)
    requires White(lead) && PlainToken(token) && Text(lead + token)
    ensures Parse(lead + token) == Some(Instruction(token, []))
  {
    hide FirstIn, FirstNotIn, EndOfLastIn, Params;
    var s, l := lead + token, |lead|;
    assert forall k :: 0 <= k < l ==> s[k] == lead[k];
    assert forall k :: l <= k < |s| ==> s[k] == token[k - l];
    assert forall k :: 0 <= k < |s| ==> s[k] != '(';
    FirstInIs(s, {'('}, 0, |s|);
    FirstVisible(s, l);
    assert s[l..] == token;
    NoParams();
  }

  lemma NoParams()
    ensures Params("") == Some([])
  {
    ScanBlank("", 0, 0);
  }

  /** With no ')' behind the first '(' everything behind that is parameter text, even when a ')' comes before it. */
  lemma ParamOfUnclosed(s: string, n: nat)
    requires Text(s) && n < |s| && s[n] == '(' && (forall k :: 0 <= k < n ==> s[k] != '(')
    requires forall k :: n < k < |s| ==> s[k] != ')'
    ensures GetParam(s) == s[n + 1..]
  {
    hide FirstIn, EndOfLastIn;
    FirstInIs(s, {'('}, 0, n);
    assert EndOfLastIn(s, {')'}) <= n;
  }

  /** Trimming a written instruction leaves it written with less white space around it. */
  lemma TrimRender(x: Written) returns (y: Written)
    requires Plain(x)
    ensures Plain(y) && Trim(Render(x)) == Render(y) && Meaning(y) == Meaning(x)
  {
    var core := Call(x);
    assert core[0] == x.token[0];
    hide Call, Trim;
    var i, m := TrimAround(x.lead, core, x.trail);
    y := x.(lead := x.lead[i..], trail := x.trail[..m]);
    assert Call(y) == Call(x) by { CallIs(x, y); }
  }

  lemma CallIs(x: Written, y: Written)
    requires y.token == x.token && y.args == x.args && y.blank == x.blank
    ensures Call(y) == Call(x)
  {
  }

  lemma {:induction false} JoinHasNoSemicolon(args: seq<Spaced>)
    requires PlainArgs(args)
    ensures Free(Join(args), {';'})
    decreases |args|
  {
    if args != [] {
      SpacesAre(args[0].before);
      SpacesAre(args[0].after);
      ArgHasNoSemicolon(args[0].arg);
      JoinIs(args);
      hide Join, PlainArg;
      if |args| > 1 {
        JoinHasNoSemicolon(args[1..]);
      }
    }
  }

  lemma ArgHasNoSemicolon(a: string)
    requires PlainArg(a)
    ensures Free(a, {';'})
  {
    if !PlainWord(a) {
      var i: nat :| PlainCall(a, i);
      forall k | 0 <= k < |a| ensures a[k] != ';' {
        if k < i {
          assert a[k] == a[..i][k];
        } else if i < k < |a| - 1 {
          assert a[k] == a[i + 1..|a| - 1][k - i - 1];
        }
      }
    }
  }

  lemma RenderHasNoSemicolon(x: Written)
    requires Plain(x)
    ensures Free(Render(x), {';'})
  {
    assert Free(Inside(x), {';'}) by {
      JoinHasNoSemicolon(x.args);
      SpacesAre(x.blank);
    }
    hide Inside;
  }

  lemma StatementsOfRender(x: Written, rest: string)
    requires Plain(x)
    ensures Statements(Render(x) + ";" + rest) == [Trim(Render(x))] + Statements(rest)
  {
    var s := Render(x);
    var code := s + ";" + rest;
    RenderHasNoSemicolon(x);
    hide Render, Trim;
    assert forall k :: 0 <= k < |s| ==> code[k] == s[k];
    FirstInIs(code, {';'}, 0, |s|);
    FirstStatement(code);
    hide Statements, FirstIn;
    assert code[..|s|] == s && code[|s| + 1..] == rest;
  }

  lemma NoStatement(rest: string)
    requires Free(rest, {';'})
    ensures Statements(rest) == []
  {
    FirstInIs(rest, {';'}, 0, |rest|);
  }

  function Meanings(xs: seq<Written>): seq<Instruction> { seq(|xs|, i requires 0 <= i < |xs| => Meaning(xs[i])) }

  /** Parsing a list of written instructions, and any text without a semicolon after the last one, gives back their
      tokens and arguments, up to the empty parameters of Read. */
  lemma {:induction false} ParseRenderAll(xs: seq<Written>, rest: string)
    requires (forall i :: 0 <= i < |xs| ==> Plain(xs[i])) && Free(rest, {';'})
    requires Text(RenderAll(xs) + rest)
    ensures forall i :: 0 <= i < |Statements(RenderAll(xs) + rest)| ==> Text(Statements(RenderAll(xs) + rest)[i])
    ensures ParseEach(Statements(RenderAll(xs) + rest)) == Some(Meanings(xs))
    decreases |xs|
  {
    hide Parse, Render, Statements, Plain, Meaning, Trim;
    if xs == [] {
      assert RenderAll(xs) + rest == rest;
      NoStatement(rest);
    } else {
      var code := RenderAll(xs[1..]) + rest;
      assert RenderAll(xs) + rest == Render(xs[0]) + ";" + code;
      ParseRenderAll(xs[1..], rest);
      StatementsOfRender(xs[0], code);
      var y := TrimRender(xs[0]);
      assert |Render(y)| <= |Render(xs[0])|;
      ParseRender(y);
      ParseCons(Render(y), Statements(code));
      assert Meanings(xs) == [Meaning(xs[0])] + Meanings(xs[1..]);
    }
  }

  lemma ParseCons(s: string, ss: seq<string>)
    requires Text(s) && forall i :: 0 <= i < |ss| ==> Text(ss[i])
    ensures forall i :: 0 <= i < |[s] + ss| ==> Text(([s] + ss)[i])
    ensures ParseEach([s] + ss) ==
              match (Parse(s), ParseEach(ss))
              case (Some(x), Some(xs)) => Some([x] + xs)
              case _ => None
  {
    assert ([s] + ss)[1..] == ss;
  }

  /** Task::insertCode up to the creation of the instruction objects: None when a token is missing or a
      parameter list never ends. */
  method InsertCode(code: string) returns (r: Option<seq<Instruction>>)
    requires Text(code)
    ensures forall i :: 0 <= i < |Statements(code)| ==> Text(Statements(code)[i])
    ensures r == ParseEach(Statements(code))
  {
    hide Parse, Statements;
    StatementsAreTexts(code);
    var instr := SplitInstr(code);
    var xs: seq<Instruction> := [];
    ghost var all := ParseEach(instr);
    assert instr[0..] == instr;
    PrefixedNothing(all);
    for i := 0 to |instr|
      invariant all == Prefixed(xs, ParseEach(instr[i..]))
    {
      assert instr[i..] == [instr[i]] + instr[i + 1..];
      ParseCons(instr[i], instr[i + 1..]);
      var token := GetToken(instr[i]);
      var args := SplitParam(GetParam(instr[i]));
      ParseIs(instr[i]);
      if token.None? || args.None? {
        return None;
      }
      PrefixedNext(xs, Instruction(token.value, args.value), ParseEach(instr[i + 1..]));
      xs := xs + [Instruction(token.value, args.value)];
    }
    assert ParseEach(instr[|instr|..]) == Some([]) && xs + [] == xs;
    return Some(xs);
  }

  function Prefixed(xs: seq<Instruction>, r: Option<seq<Instruction>>): Option<seq<Instruction>> {
    match r
    case Some(ys) => Some(xs + ys)
    case None => None
  }

  lemma PrefixedNothing(r: Option<seq<Instruction>>)
    ensures Prefixed([], r) == r
  {
    if r.Some? {
      assert [] + r.value == r.value;
    }
  }

  lemma PrefixedNext(xs: seq<Instruction>, x: Instruction, r: Option<seq<Instruction>>)
    ensures Prefixed(xs + [x], r) == Prefixed(xs, match r case Some(ys) => Some([x] + ys) case None => None)
  {
    if r.Some? {
      assert xs + [x] + r.value == xs + ([x] + r.value);
    }
  }

  lemma ParseIs(instr: string)
    requires Text(instr)
    ensures var token, args := GetToken(instr), Params(GetParam(instr));
            Parse(instr) == if token.None? || args.None? then None else Some(Instruction(token.value, args.value))
  {
  }

  lemma {:induction false} StatementsAreTexts(code: string)
    requires Text(code)
    ensures forall i :: 0 <= i < |Statements(code)| ==> Text(Statements(code)[i])
  {
    var i := FirstIn(code, {';'}, 0);
    if i < |code| {
      StatementsAreTexts(code[i + 1..]);
    }
  }
}
