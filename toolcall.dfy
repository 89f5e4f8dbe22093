/**
 * `parse_tool_call` of orchestrator.py: the search for
 * `TOOL_CALL:\s*(\w+)\((.*?)\)` (with `re.DOTALL`) in the model's reply, then
 * `re.finditer` of `(\w+)\s*=\s*"([^"]*)"` over the stripped argument text,
 * filling a dictionary in match order.
 *
 * Neither pattern has anchors or look-behind, so whether a match starts at
 * position `i` depends only on the suffix from `i`; the matchers below work
 * on suffixes. Both patterns are deterministic here: `\s`, `\w` and the
 * punctuation that follows each run are pairwise disjoint, so every greedy
 * run is maximal and the lazy group ends at the first `)`.
 */
module ToolCalls {
  import opened Wrappers
  import opened Text

  /** The end of the run of word characters that starts at `from`. */
  function WordEnd(s: string, from: nat): (j: nat)
    requires from <= |s|
    ensures from <= j <= |s|
    ensures forall k :: from <= k < j ==> IsWordChar(s[k])
    ensures j < |s| ==> !IsWordChar(s[j])
    decreases |s| - from
  {
    if from == |s| || !IsWordChar(s[from]) then from else WordEnd(s, from + 1)
  }

  /** The end of the run of whitespace that starts at `from`. */
  function SpaceEnd(s: string, from: nat): (j: nat)
    requires from <= |s|
    ensures from <= j <= |s|
    ensures forall k :: from <= k < j ==> IsSpace(s[k])
    ensures j < |s| ==> !IsSpace(s[j])
    decreases |s| - from
  {
    if from == |s| || !IsSpace(s[from]) then from else SpaceEnd(s, from + 1)
  }

  predicate WordName(s: string) {
    s != [] && forall i :: 0 <= i < |s| ==> IsWordChar(s[i])
  }

  const Marker := "TOOL_CALL:"

  /** The match of the directive pattern at the start of `s`: the tool name and the raw argument text. */
  function MatchCall(s: string): (r: Option<(string, string)>)
    ensures r.Some? ==> WordName(r.value.0) && ')' !in r.value.1
  {
    if !StartsWith(s, Marker) then None
    else
      var a := SpaceEnd(s, |Marker|);
      var b := WordEnd(s, a);
      if a < b < |s| && s[b] == '(' then
        var c := IndexOf(s, b + 1, ')');
        if c < |s| then
          var args := s[b + 1..c];
          assert forall k :: 0 <= k < |args| ==> args[k] == s[b + 1 + k];
          Some((s[a..b], args))
        else None
      else None
  }

  /** `re.search`: the match at the leftmost position that has one. */
  function SearchCall(s: string): (r: Option<(string, string)>)
    ensures r.None? <==> forall i :: 0 <= i <= |s| ==> MatchCall(s[i..]).None?
    ensures r.Some? ==> exists i :: 0 <= i <= |s| && MatchCall(s[i..]) == r && forall j :: 0 <= j < i ==> MatchCall(s[j..]).None?
    decreases |s|
  {
    if MatchCall(s).Some? then
      assert s[0..] == s;
      MatchCall(s)
    else if s == [] then
      assert forall i :: 0 <= i <= |s| ==> s[i..] == s;
      None
    else
      var r := SearchCall(s[1..]);
      assert forall i :: 0 <= i <= |s[1..]| ==> s[1..][i..] == s[i + 1..];
      assert s[0..] == s;
      assert r.None? ==> forall i :: 0 <= i <= |s| ==> MatchCall(s[i..]).None? by {
        if r.None? {
          forall i | 0 <= i <= |s| ensures MatchCall(s[i..]).None? {
            if i > 0 {
              assert MatchCall(s[1..][i - 1..]).None?;
            }
          }
        }
      }
      assert r.Some? ==> exists i :: 0 <= i <= |s| && MatchCall(s[i..]) == r && forall j :: 0 <= j < i ==> MatchCall(s[j..]).None? by {
        if r.Some? {
          var i :| 0 <= i <= |s[1..]| && MatchCall(s[1..][i..]) == r && forall j :: 0 <= j < i ==> MatchCall(s[1..][j..]).None?;
          forall j | 0 <= j < i + 1 ensures MatchCall(s[j..]).None? {
            if j > 0 {
              assert MatchCall(s[1..][j - 1..]).None?;
            }
          }
          assert MatchCall(s[i + 1..]) == r;
        }
      }
      r
  }

  /** The match of the argument pattern at the start of `s`: name, value and the length matched. */
  function MatchArg(s: string): (r: Option<(string, string, nat)>)
    ensures r.Some? ==> 0 < r.value.2 <= |s| && WordName(r.value.0) && '"' !in r.value.1
  {
    var w := WordEnd(s, 0);
    if w == 0 then None
    else
      var a := SpaceEnd(s, w);
      if a < |s| && s[a] == '=' then
        var b := SpaceEnd(s, a + 1);
        if b < |s| && s[b] == '"' then
          var c := IndexOf(s, b + 1, '"');
          if c < |s| then
            var value := s[b + 1..c];
            assert forall k :: 0 <= k < |value| ==> value[k] == s[b + 1 + k];
            Some((s[..w], value, c + 1))
          else None
        else None
      else None
  }

  /** `re.finditer` of the argument pattern: the non-overlapping matches from left to right. */
  function ArgPairs(s: string): (r: seq<(string, string)>)
    ensures forall i :: 0 <= i < |r| ==> WordName(r[i].0) && '"' !in r[i].1
    decreases |s|
  {
    if s == [] then []
    else
      match MatchArg(s)
      case None => ArgPairs(s[1..])
      case Some((k, v, n)) => [(k, v)] + ArgPairs(s[n..])
  }

  /** The dictionary filled in match order: every name that occurs, with a value that occurs with it. */
  function ToMap(pairs: seq<(string, string)>): (m: map<string, string>)
    ensures forall k :: k in m <==> exists i :: 0 <= i < |pairs| && pairs[i].0 == k
    ensures forall k :: k in m ==> exists i :: 0 <= i < |pairs| && pairs[i] == (k, m[k])
  {
    if pairs == [] then map[]
    else
      var prior, last := pairs[..|pairs| - 1], pairs[|pairs| - 1];
      assert forall i :: 0 <= i < |prior| ==> prior[i] == pairs[i];
      ToMap(prior)[last.0 := last.1]
  }

  /** When a name repeats, the last value given for it wins. */
  lemma {:induction false} LastValueWins(pairs: seq<(string, string)>, i: nat)
    requires i < |pairs|
    requires forall j :: i < j < |pairs| ==> pairs[j].0 != pairs[i].0
    ensures pairs[i].0 in ToMap(pairs) && ToMap(pairs)[pairs[i].0] == pairs[i].1
  {
    if i < |pairs| - 1 {
      var prior := pairs[..|pairs| - 1];
      LastValueWins(prior, i);
    }
  }

  /**
   * `parse_tool_call`: the tool name and the argument dictionary of the
   * leftmost directive, or nothing when the reply holds none.
   */
  function ParseToolCall(text: string): (r: Option<(string, map<string, string>)>)
    ensures r.None? <==> forall i :: 0 <= i <= |text| ==> MatchCall(text[i..]).None?
    ensures r.Some? ==> WordName(r.value.0)
    ensures r.Some? ==> forall k :: k in r.value.1 ==> WordName(k) && '"' !in r.value.1[k]
  {
    match SearchCall(text)
    case None => None
    case Some((name, args)) =>
      var argsStr := Strip(args);
      Some((name, if argsStr != [] then ToMap(ArgPairs(argsStr)) else map[]))
  }

  // ------------------------------------------------------------ round trip

  /** One argument as the system prompt teaches it: `name="value"`. */
  function ArgText(arg: (string, string)): string {
    arg.0 + "=\"" + arg.1 + "\""
  }

  /** The arguments separated by `", "`. */
  function ArgsText(args: seq<(string, string)>): string {
    if args == [] then ""
    else if |args| == 1 then ArgText(args[0])
    else ArgText(args[0]) + ", " + ArgsText(args[1..])
  }

  /** `TOOL_CALL: name(arg1="value1", arg2="value2")`. */
  function Directive(name: string, args: seq<(string, string)>): string {
    Marker + " " + name + "(" + ArgsText(args) + ")"
  }

  /** Argument names made of word characters, values without `"` or `)`. */
  predicate PlainArgs(args: seq<(string, string)>) {
    forall i :: 0 <= i < |args| ==> WordName(args[i].0) && '"' !in args[i].1 && ')' !in args[i].1
  }

  lemma MatchArgText(arg: (string, string), t: string)
    requires WordName(arg.0) && '"' !in arg.1
    ensures MatchArg(ArgText(arg) + t) == Some((arg.0, arg.1, |ArgText(arg)|))
  {
    var s := ArgText(arg) + t;
    var k, v := arg.0, arg.1;
    assert s[|k|] == '=' && s[|k| + 1] == '"';
    assert forall i :: 0 <= i < |k| ==> s[i] == k[i];
    var w := WordEnd(s, 0);
    assert w == |k|;
    assert SpaceEnd(s, w) == |k|;
    assert SpaceEnd(s, |k| + 1) == |k| + 1;
    assert forall i :: 0 <= i < |v| ==> s[|k| + 2 + i] == v[i];
    assert s[|k| + 2 + |v|] == '"';
    var c := IndexOf(s, |k| + 2, '"');
    assert c == |k| + 2 + |v|;
    assert s[..w] == k;
    assert s[|k| + 2..c] == v;
  }

  /** A separator before an argument produces no match of its own. */
  lemma SkipSeparator(x: string)
    ensures ArgPairs(", " + x) == ArgPairs(x)
  {
    var s := ", " + x;
    assert WordEnd(s, 0) == 0;
    assert s[1..] == " " + x;
    assert WordEnd(s[1..], 0) == 0;
    assert s[1..][1..] == x;
  }

  /** Arguments written the taught way are read back exactly, in order. */
  lemma {:induction false} ArgPairsOfArgsText(args: seq<(string, string)>)
    requires PlainArgs(args)
    ensures ArgPairs(ArgsText(args)) == args
  {
    if |args| == 1 {
      MatchArgText(args[0], "");
      assert ArgText(args[0]) + "" == ArgText(args[0]);
      assert ArgText(args[0])[|ArgText(args[0])|..] == [];
    } else if |args| > 1 {
      var rest := ", " + ArgsText(args[1..]);
      var s := ArgText(args[0]) + rest;
      MatchArgText(args[0], rest);
      assert s[|ArgText(args[0])|..] == rest;
      SkipSeparator(ArgsText(args[1..]));
      ArgPairsOfArgsText(args[1..]);
      assert ArgsText(args) == s;
    }
  }

  lemma {:induction false} ArgsTextShape(args: seq<(string, string)>)
    requires PlainArgs(args)
    ensures ')' !in ArgsText(args)
    ensures args != [] ==> ArgsText(args) != [] && ArgsText(args)[0] == args[0].0[0]
                           && ArgsText(args)[|ArgsText(args)| - 1] == '"'
  {
    if |args| >= 1 {
      var a := ArgText(args[0]);
      assert ')' !in a by {
        assert a == args[0].0 + ['=', '"'] + args[0].1 + ['"'];
        assert forall i :: 0 <= i < |args[0].0| ==> IsWordChar(args[0].0[i]);
      }
      if |args| > 1 {
        ArgsTextShape(args[1..]);
      }
    }
  }

  /**
   * A reply that starts with a directive written the way the system prompt
   * teaches parses to that tool name and the dictionary of its arguments.
   */
  lemma DirectiveRoundTrip(name: string, args: seq<(string, string)>, rest: string)
    requires WordName(name) && PlainArgs(args)
    ensures ParseToolCall(Directive(name, args) + rest) == Some((name, ToMap(args)))
  {
    var text := Directive(name, args) + rest;
    var argText := ArgsText(args);
    ArgsTextShape(args);
    MatchDirective(name, argText, rest);
    assert text == Marker + " " + name + "(" + argText + ")" + rest;
    assert SearchCall(text) == Some((name, argText));
    StripArgsText(args);
    if args != [] {
      ArgPairsOfArgsText(args);
    }
  }

  lemma StripArgsText(args: seq<(string, string)>)
    requires PlainArgs(args)
    ensures Strip(ArgsText(args)) == ArgsText(args)
    ensures ArgsText(args) == [] <==> args == []
  {
    var argText := ArgsText(args);
    ArgsTextShape(args);
    if args != [] {
      assert IsWordChar(args[0].0[0]);
      assert !IsSpace(argText[0]) && !IsSpace(argText[|argText| - 1]);
      StripNoSpaceEnds(argText);
    }
  }

  lemma MatchDirective(name: string, argText: string, rest: string)
    requires WordName(name) && ')' !in argText
    ensures MatchCall(Marker + " " + name + "(" + argText + ")" + rest) == Some((name, argText))
  {
    var s := Marker + " " + name + "(" + argText + ")" + rest;
    var m := |Marker|;
    assert s[..m] == Marker;
    assert s[m] == ' ' && s[m + 1] == name[0];
    assert forall i :: 0 <= i < |name| ==> s[m + 1 + i] == name[i];
    var a := SpaceEnd(s, m);
    assert a == m + 1;
    var b := WordEnd(s, a);
    assert s[m + 1 + |name|] == '(';
    assert b == m + 1 + |name|;
    assert forall i :: 0 <= i < |argText| ==> s[b + 1 + i] == argText[i];
    assert s[b + 1 + |argText|] == ')';
    var c := IndexOf(s, b + 1, ')');
    assert c == b + 1 + |argText|;
    assert s[a..b] == name;
    assert s[b + 1..c] == argText;
  }
}
