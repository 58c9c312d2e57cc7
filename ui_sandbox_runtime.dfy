/**
 * The bookkeeping of the QuickJS sandbox that runs chart-editor UI code
 * (src/ui/libs/DatalensChartkit/modules/data-provider/charts/ui-sandbox-runtime.ts):
 * the rewriting of the error stack of a failed call, the arguments and the
 * context handed to the sandbox as JSON text, the conversion of host values
 * into sandbox handles, the recognition of callbacks, and the rule that the
 * VM is torn down only once no long-lived callback handle is alive.
 *
 * The QuickJS engine itself is not modelled: a handle is a number, the engine
 * keeps the set of handles that are alive, `vm.dump` and `JSON.stringify` are
 * parameters, and the global properties the runtime sets are a map.
 */
module UiSandboxRuntime {
  import opened Js

  // ---------------------------------------------------------------------------
  // Text helpers

  /** A match of `pattern` in `s` at index `j`. */
  predicate Occurs(s: string, pattern: string, j: nat)
  {
    j + |pattern| <= |s| && s[j..j + |pattern|] == pattern
  }

  /** `s.indexOf(pattern, from)`: the first match at or after `from`. */
  function IndexOf(s: string, pattern: string, from: nat): (r: Option<nat>)
    requires from <= |s|
    decreases |s| - from
    ensures r.Some? ==> from <= r.value && Occurs(s, pattern, r.value)
    ensures r.Some? ==> forall j :: from <= j < r.value ==> !Occurs(s, pattern, j)
    ensures r.None? ==> forall j :: from <= j <= |s| ==> !Occurs(s, pattern, j)
  {
    if Occurs(s, pattern, from) then Some(from)
    else if from == |s| then None
    else IndexOf(s, pattern, from + 1)
  }

  /** `s.replace(pattern, replacement)` with a string pattern: only the first
      match is replaced. */
  function ReplaceFirst(s: string, pattern: string, replacement: string): (r: string)
  {
    match IndexOf(s, pattern, 0)
    case None => s
    case Some(i) => s[..i] + replacement + s[i + |pattern|..]
  }

  /** The first match is the one replaced: whatever precedes it is kept and
      what follows it is kept, even when it holds further matches. */
  lemma ReplaceFirstAt(a: string, pattern: string, b: string, replacement: string)
    requires forall j :: 0 <= j < |a| ==> !Occurs(a + pattern + b, pattern, j)
    ensures ReplaceFirst(a + pattern + b, pattern, replacement) == a + replacement + b
  {
    var s := a + pattern + b;
    assert s[|a|..|a| + |pattern|] == pattern;
    assert Occurs(s, pattern, |a|);
    var r := IndexOf(s, pattern, 0);
    assert r == Some(|a|);
    assert s[..|a|] == a;
    assert s[|a| + |pattern|..] == b;
  }

  /** A text without a match is left alone. */
  lemma ReplaceFirstWithoutMatch(s: string, pattern: string, replacement: string)
    requires forall j :: 0 <= j <= |s| ==> !Occurs(s, pattern, j)
    ensures ReplaceFirst(s, pattern, replacement) == s
  {
  }

  /** `s.split('\n')` */
  function SplitLines(s: string): (r: seq<string>)
    ensures |r| >= 1
    ensures forall i :: 0 <= i < |r| ==> '\n' !in r[i]
    ensures Join(r, "\n") == s
  {
    if s == [] then [""]
    else
      var rest := SplitLines(s[1..]);
      if s[0] == '\n' then
        assert Join([""] + rest, "\n") == "" + "\n" + Join(rest, "\n");
        [""] + rest
      else
        var r := [[s[0]] + rest[0]] + rest[1..];
        assert |rest| > 1 ==> Join(rest, "\n") == rest[0] + "\n" + Join(rest[1..], "\n");
        assert |rest| > 1 ==> Join(r, "\n") == r[0] + "\n" + Join(r[1..], "\n");
        assert r[1..] == rest[1..];
        assert s == [s[0]] + s[1..];
        r
  }

  lemma {:induction false} SplitLineWithoutBreak(a: string)
    requires '\n' !in a
    ensures SplitLines(a) == [a]
  {
    if a != [] {
      SplitLineWithoutBreak(a[1..]);
      assert [a[0]] + a[1..] == a;
    }
  }

  lemma {:induction false} SplitLinesAfter(a: string, rest: string)
    requires '\n' !in a
    ensures SplitLines(a + "\n" + rest) == [a] + SplitLines(rest)
  {
    var s := a + "\n" + rest;
    if a == [] {
      assert s[1..] == rest;
    } else {
      assert s[1..] == a[1..] + "\n" + rest;
      SplitLinesAfter(a[1..], rest);
      assert [a[0]] + a[1..] == a;
    }
  }

  /** Splitting the joined lines gives the lines back, so the rewritten stack
      text carries exactly the rewritten lines. */
  lemma {:induction false} SplitJoin(lines: seq<string>)
    requires |lines| >= 1
    requires forall i :: 0 <= i < |lines| ==> '\n' !in lines[i]
    ensures SplitLines(Join(lines, "\n")) == lines
  {
    if |lines| == 1 {
      SplitLineWithoutBreak(lines[0]);
    } else {
      SplitJoin(lines[1..]);
      SplitLinesAfter(lines[0], Join(lines[1..], "\n"));
      assert [lines[0]] + lines[1..] == lines;
    }
  }

  /** The characters `String.prototype.trim` removes: white space and line
      terminators. */
  predicate IsSpace(c: char)
  {
    c == ' ' || c == '\t' || c == '\n' || c == '\r' || c == '\U{000B}' || c == '\U{000C}'
    || c == '\U{00A0}' || c == '\U{1680}' || ('\U{2000}' <= c <= '\U{200A}')
    || c == '\U{2028}' || c == '\U{2029}' || c == '\U{202F}' || c == '\U{205F}'
    || c == '\U{3000}' || c == '\U{FEFF}'
  }

  function TrimStart(s: string): (r: string)
    ensures |r| <= |s| && r == s[|s| - |r|..]
    ensures r == [] || !IsSpace(r[0])
    ensures forall i :: 0 <= i < |s| - |r| ==> IsSpace(s[i])
  {
    if s != [] && IsSpace(s[0]) then TrimStart(s[1..]) else s
  }

  function TrimEnd(s: string): (r: string)
    ensures |r| <= |s| && r == s[..|r|]
    ensures r == [] || !IsSpace(r[|r| - 1])
    ensures forall i :: |r| <= i < |s| ==> IsSpace(s[i])
  {
    if s != [] && IsSpace(s[|s| - 1]) then TrimEnd(s[..|s| - 1]) else s
  }

  /** `s.trim()` */
  function Trim(s: string): string
  {
    TrimEnd(TrimStart(s))
  }

  predicate Blank(s: string)
  {
    forall i :: 0 <= i < |s| ==> IsSpace(s[i])
  }

  /** `Boolean(s.trim())` is false exactly for the lines made of white space. */
  lemma TrimEmptyIffBlank(s: string)
    ensures Trim(s) == "" <==> Blank(s)
  {
    var t := TrimStart(s);
    if Blank(s) {
      BlankTrimsAway(s);
    }
    if Trim(s) == "" {
      assert t == "";
    }
  }

  lemma {:induction false} BlankTrimsAway(s: string)
    requires Blank(s)
    ensures TrimStart(s) == ""
  {
    if s != [] {
      BlankTrimsAway(s[1..]);
    }
  }

  // ---------------------------------------------------------------------------
  // Renumbering the line numbers of a stack line

  /** `s[j..k]` is the last run of digits of `s`: the run the pattern
      `/\d+(?=\D*$)/` matches. */
  predicate LastRun(s: string, j: nat, k: nat)
  {
    j < k <= |s| && AllDigits(s[j..k]) && (j == 0 || !IsDigit(s[j - 1]))
    && forall i :: k <= i < |s| ==> !IsDigit(s[i])
  }

  lemma LastRunUnique(s: string, j: nat, k: nat, j': nat, k': nat)
    requires LastRun(s, j, k) && LastRun(s, j', k')
    ensures j == j' && k == k'
  {
    assert IsDigit(s[j..k][k - 1 - j]) && IsDigit(s[j'..k'][k' - 1 - j']);
    assert IsDigit(s[k - 1]) && IsDigit(s[k' - 1]);
    assert forall i :: j <= i < k ==> IsDigit(s[i]) by {
      forall i | j <= i < k ensures IsDigit(s[i]) { assert s[i] == s[j..k][i - j]; }
    }
    assert forall i :: j' <= i < k' ==> IsDigit(s[i]) by {
      forall i | j' <= i < k' ensures IsDigit(s[i]) { assert s[i] == s[j'..k'][i - j']; }
    }
  }

  /** The end of the last digit run (0 when `s` holds no digit). */
  function DigitFreeSuffixStart(s: string): (k: nat)
    ensures k <= |s|
    ensures forall i :: k <= i < |s| ==> !IsDigit(s[i])
    ensures k == 0 || IsDigit(s[k - 1])
  {
    if s == [] then 0
    else if IsDigit(s[|s| - 1]) then |s|
    else DigitFreeSuffixStart(s[..|s| - 1])
  }

  /** The start of the digit run that ends at `k`. */
  function RunStart(s: string, k: nat): (j: nat)
    requires k <= |s|
    ensures j <= k
    ensures forall i :: j <= i < k ==> IsDigit(s[i])
    ensures j == 0 || !IsDigit(s[j - 1])
  {
    if k == 0 || !IsDigit(s[k - 1]) then k else RunStart(s, k - 1)
  }

  /** `s.replace(/\d+(?=\D*$)/, val => String(parseInt(val) - startPoint))` */
  function RenumberLine(s: string, startPoint: int): (r: string)
    ensures '\n' !in s ==> '\n' !in r
  {
    var k := DigitFreeSuffixStart(s);
    if k == 0 then s
    else
      var j := RunStart(s, k);
      s[..j] + LineNumber(s[j..k], startPoint) + s[k..]
  }

  /** `String(parseInt(val) - startPoint)` */
  function LineNumber(digits: string, startPoint: int): (r: string)
    requires AllDigits(digits)
    ensures '\n' !in r
    ensures DigitsValue(digits) >= startPoint ==> r == NatToString(DigitsValue(digits) - startPoint)
    ensures DigitsValue(digits) < startPoint ==> r == "-" + NatToString(startPoint - DigitsValue(digits))
  {
    IntToString(DigitsValue(digits) - startPoint)
  }

  /** The last digit run of the line, and it alone, is replaced by its value
      minus the start point. */
  lemma RenumberRewritesLastRun(s: string, startPoint: int, j: nat, k: nat)
    requires LastRun(s, j, k)
    ensures RenumberLine(s, startPoint) == s[..j] + LineNumber(s[j..k], startPoint) + s[k..]
  {
    var k' := DigitFreeSuffixStart(s);
    assert IsDigit(s[j..k][k - 1 - j]);
    var j' := RunStart(s, k');
    assert AllDigits(s[j'..k']);
    LastRunUnique(s, j, k, j', k');
  }

  /** A line without digits is left alone. */
  lemma LineWithoutDigitsUnchanged(s: string, startPoint: int)
    requires forall i :: 0 <= i < |s| ==> !IsDigit(s[i])
    ensures RenumberLine(s, startPoint) == s
  {
  }

  /** Digit runs printed without superfluous leading zeros. */
  predicate CanonicalRuns(s: string)
  {
    forall j: nat, k: nat | j < k <= |s| :: LastRun(s, j, k) ==> Canonical(s[j..k])
  }

  /** With the default start point 0, line numbers stay as they are. */
  lemma DefaultStartKeepsLine(s: string)
    requires CanonicalRuns(s)
    ensures RenumberLine(s, 0) == s
  {
    var k := DigitFreeSuffixStart(s);
    if k != 0 {
      var j := RunStart(s, k);
      assert LastRun(s, j, k);
      NatToStringOfDigitsValue(s[j..k]);
      assert s[..j] + s[j..k] + s[k..] == s;
    }
  }

  // ---------------------------------------------------------------------------
  // checkCallResult

  function RenumberLines(lines: seq<string>, startPoint: int): (r: seq<string>)
    ensures |r| == |lines|
    ensures forall i :: 0 <= i < |lines| ==> r[i] == RenumberLine(lines[i], startPoint)
  {
    if lines == [] then [] else [RenumberLine(lines[0], startPoint)] + RenumberLines(lines[1..], startPoint)
  }

  /** `.filter(s => Boolean(s.trim()))` */
  function KeepNonBlank(lines: seq<string>): (r: seq<string>)
    ensures |r| <= |lines|
    ensures forall i :: 0 <= i < |r| ==> r[i] in lines && Trim(r[i]) != ""
  {
    if lines == [] then []
    else if Trim(lines[0]) != "" then [lines[0]] + KeepNonBlank(lines[1..])
    else KeepNonBlank(lines[1..])
  }

  /** `.slice(0, -2)` */
  function DropLastTwo<T>(xs: seq<T>): (r: seq<T>)
    ensures |r| == if |xs| <= 2 then 0 else |xs| - 2
    ensures r == xs[..|r|]
  {
    if |xs| <= 2 then [] else xs[..|xs| - 2]
  }

  /** The lines of the rewritten stack: the callee named, the line numbers
      shifted back by `startPoint`, blank lines dropped and the last two
      lines (the sandbox's own frames) cut off. */
  function RewrittenLines(stack: string, name: Value, startPoint: int): seq<string>
  {
    var named := ReplaceFirst(stack, "__fn", ToStr(name));
    DropLastTwo(KeepNonBlank(RenumberLines(SplitLines(named), startPoint)))
  }

  function RewriteStack(stack: string, name: Value, startPoint: int): string
  {
    Join(RewrittenLines(stack, name, startPoint), "\n")
  }

  /** Every line of the rewritten stack has text. */
  lemma RewrittenLinesNonBlank(stack: string, name: Value, startPoint: int)
    ensures var lines := RewrittenLines(stack, name, startPoint);
      forall i :: 0 <= i < |lines| ==> Trim(lines[i]) != ""
  {
    var kept := KeepNonBlank(RenumberLines(SplitLines(ReplaceFirst(stack, "__fn", ToStr(name))), startPoint));
    var lines := DropLastTwo(kept);
    assert forall i :: 0 <= i < |lines| ==> lines[i] == kept[i];
  }

  /** The rewritten stack has two lines fewer than the original has
      non-blank lines. */
  lemma RewrittenLineCount(stack: string, name: Value, startPoint: int)
    ensures var kept := KeepNonBlank(RenumberLines(SplitLines(ReplaceFirst(stack, "__fn", ToStr(name))), startPoint));
      |RewrittenLines(stack, name, startPoint)| == if |kept| <= 2 then 0 else |kept| - 2
  {
  }

  /** The text of the rewritten stack splits back into the rewritten
      lines. */
  lemma RewrittenStackSplits(stack: string, name: Value, startPoint: int)
    requires RewrittenLines(stack, name, startPoint) != []
    ensures SplitLines(RewriteStack(stack, name, startPoint)) == RewrittenLines(stack, name, startPoint)
  {
    var renumbered := RenumberLines(SplitLines(ReplaceFirst(stack, "__fn", ToStr(name))), startPoint);
    var kept := KeepNonBlank(renumbered);
    var lines := DropLastTwo(kept);
    assert forall i :: 0 <= i < |renumbered| ==> '\n' !in renumbered[i];
    assert forall i :: 0 <= i < |kept| ==> '\n' !in kept[i];
    assert forall i :: 0 <= i < |lines| ==> '\n' !in lines[i] by {
      forall i | 0 <= i < |lines| ensures '\n' !in lines[i] { assert lines[i] == kept[i]; }
    }
    SplitJoin(lines);
  }

  /** With the default start point and no padded line numbers, the stack
      keeps its non-blank lines but the last two, with the callee named. */
  lemma DefaultStartKeepsLines(stack: string, name: Value)
    requires forall i :: 0 <= i < |SplitLines(ReplaceFirst(stack, "__fn", ToStr(name)))| ==>
      CanonicalRuns(SplitLines(ReplaceFirst(stack, "__fn", ToStr(name)))[i])
    ensures RewrittenLines(stack, name, 0) == DropLastTwo(KeepNonBlank(SplitLines(ReplaceFirst(stack, "__fn", ToStr(name)))))
  {
    var split := SplitLines(ReplaceFirst(stack, "__fn", ToStr(name)));
    forall i | 0 <= i < |split|
      ensures RenumberLine(split[i], 0) == split[i]
    {
      DefaultStartKeepsLine(split[i]);
    }
    assert RenumberLines(split, 0) == split;
  }

  function StackRewriter(name: Value, startPoint: int): string -> string
  {
    stack => RewriteStack(stack, name, startPoint)
  }

  /** `errorMsg.stack = rewrite(errorMsg.stack)` on the dumped error `err`:
      the error with its stack rewritten, or the TypeError of reading or
      rewriting a stack that is not a string. */
  function ErrorWithStack(err: Value, rewrite: string -> string): (r: Result<Value>)
    ensures r.Ok? <==> Prop(err, "stack").Str?
    ensures r.Ok? ==> (r.value.Obj? && r.value.kind == err.kind
      && r.value.fields.Keys == err.fields.Keys
      && r.value.fields["stack"] == Str(rewrite(err.fields["stack"].s))
      && (forall key :: key in err.fields && key != "stack" ==> r.value.fields[key] == err.fields[key]))
    ensures r.Throws? ==> r.error == TypeError
  {
    var stack := Prop(err, "stack");
    if !stack.Str? then Throws(TypeError)
    else Ok(Obj(err.fields["stack" := Str(rewrite(stack.s))], err.kind))
  }

  // ---------------------------------------------------------------------------
  // Values crossing into the sandbox

  /** `isArrowFunction(value)` as written: `replace(' ', '')` removes only the
      first space. */
  predicate IsArrowFunctionAsWritten(value: string)
  {
    var val := ReplaceFirst(value, " ", "");
    StartsWith(val, "(") && Contains(val, ")=>")
  }

  function RemoveSpaces(s: string): (r: string)
    ensures ' ' !in r
  {
    if s == [] then [] else (if s[0] == ' ' then [] else [s[0]]) + RemoveSpaces(s[1..])
  }

  lemma {:induction false} RemoveSpacesAppend(a: string, b: string)
    ensures RemoveSpaces(a + b) == RemoveSpaces(a) + RemoveSpaces(b)
  {
    if a != [] {
      var head := if a[0] == ' ' then [] else [a[0]];
      assert (a + b)[0] == a[0];
      assert (a + b)[1..] == a[1..] + b;
      RemoveSpacesAppend(a[1..], b);
      calc {
        RemoveSpaces(a + b);
        head + RemoveSpaces(a[1..] + b);
        head + (RemoveSpaces(a[1..]) + RemoveSpaces(b));
        (head + RemoveSpaces(a[1..])) + RemoveSpaces(b);
      }
    } else {
      assert a + b == b;
    }
  }

  /** `isArrowFunction(value)` with every space removed, as its check for
      `(...)=>` intends. */
  predicate IsArrowFunction(value: string)
  {
    var val := RemoveSpaces(value);
    StartsWith(val, "(") && Contains(val, ")=>")
  }

  /** Spacing does not change whether a text is recognised as an arrow
      function. */
  lemma SpacingIrrelevant(a: string, b: string)
    ensures IsArrowFunction(a + " " + b) == IsArrowFunction(a + b)
  {
    RemoveSpacesAppend(a + " ", b);
    RemoveSpacesAppend(a, " ");
    RemoveSpacesAppend(a, b);
    assert RemoveSpaces(" ") == "";
    assert RemoveSpaces(a) + "" == RemoveSpaces(a);
  }

  lemma NoSpaceNoMatch(a: string, b: string)
    requires ' ' !in a
    ensures forall j :: 0 <= j < |a| ==> !Occurs(a + " " + b, " ", j)
  {
    forall j | 0 <= j < |a|
      ensures !Occurs(a + " " + b, " ", j)
    {
      assert (a + " " + b)[j..j + 1][0] == a[j];
    }
  }

  lemma {:induction false} NoParenNoArrow(s: string)
    requires ')' !in s
    ensures !Contains(s, ")=>")
  {
    if s != [] {
      assert s[0] != ')';
      NoParenNoArrow(s[1..]);
    }
  }

  /** As written, one space before the arrow is removed and the arrow found:
      `(p,q) => r` is an arrow function for one-letter names `p`, `q`, `r`. */
  lemma OneSpaceShowsArrow(p: char, q: char, r: char)
    requires p != ' ' && q != ' '
    ensures IsArrowFunctionAsWritten(['(', p, ',', q, ')', ' ', '=', '>', ' ', r])
  {
    var a := ['(', p, ',', q, ')'];
    var b := ['=', '>', ' ', r];
    assert ReplaceFirst(a + " " + b, " ", "") == a + b by {
      NoSpaceNoMatch(a, b);
      ReplaceFirstAt(a, " ", b, "");
      assert a + "" + b == a + b;
    }
    assert a + " " + b == ['(', p, ',', q, ')', ' ', '=', '>', ' ', r];
    var val := a + b;
    assert val[4..][..3] == ")=>";
    ContainsAt(val, ")=>", 4);
  }

  lemma {:induction false} ContainsAt(s: string, part: string, i: nat)
    requires i <= |s| && StartsWith(s[i..], part)
    ensures Contains(s, part)
  {
    if i > 0 {
      assert s[1..][i - 1..] == s[i..];
      ContainsAt(s[1..], part, i - 1);
    }
  }

  /** As written, a second space hides the arrow: in `(p, q) => r` the space
      after the comma is removed and the one before `=>` stays. */
  lemma SecondSpaceHidesArrow(p: char, q: char, r: char)
    requires p != ' ' && p != ')' && q != ')' && r != ')'
    ensures !IsArrowFunctionAsWritten(['(', p, ',', ' ', q, ')', ' ', '=', '>', ' ', r])
  {
    CommaSpaceRemoved(p, q, r);
    NoArrowAfterCommaSpace(p, q, r);
  }

  lemma CommaSpaceRemoved(p: char, q: char, r: char)
    requires p != ' '
    ensures ReplaceFirst(['(', p, ',', ' ', q, ')', ' ', '=', '>', ' ', r], " ", "")
      == ['(', p, ',', q, ')', ' ', '=', '>', ' ', r]
  {
    var a := ['(', p, ','];
    var b := [q, ')', ' ', '=', '>', ' ', r];
    NoSpaceNoMatch(a, b);
    ReplaceFirstAt(a, " ", b, "");
    assert a + "" + b == ['(', p, ',', q, ')', ' ', '=', '>', ' ', r];
    assert a + " " + b == ['(', p, ',', ' ', q, ')', ' ', '=', '>', ' ', r];
  }

  lemma NoArrowAfterCommaSpace(p: char, q: char, r: char)
    requires p != ')' && q != ')' && r != ')'
    ensures !Contains(['(', p, ',', q, ')', ' ', '=', '>', ' ', r], ")=>")
  {
    var val := ['(', p, ',', q, ')', ' ', '=', '>', ' ', r];
    assert val[5..] == [' ', '=', '>', ' ', r];
    NoParenNoArrow(val[5..]);
    ArrowNotAt(val, 4);
    ArrowNotAt(val, 3);
    ArrowNotAt(val, 2);
    ArrowNotAt(val, 1);
    ArrowNotAt(val, 0);
    assert val[0..] == val;
  }

  /** No arrow starts at `i` when the text has no `)=` there. */
  lemma ArrowNotAt(s: string, i: nat)
    requires i + 1 < |s|
    requires s[i] != ')' || s[i + 1] != '='
    ensures Contains(s[i..], ")=>") == Contains(s[i + 1..], ")=>")
  {
    assert s[i..][1..] == s[i + 1..];
    if |s[i..]| >= 3 {
      assert s[i..][..3][0] == s[i] && s[i..][..3][1] == s[i + 1];
      assert ")=>"[0] == ')' && ")=>"[1] == '=';
    }
  }

  /** With every space removed, `(p, q) => r` is an arrow function. */
  lemma SpacedArrowRecognised(p: char, q: char, r: char)
    requires p != ' ' && q != ' ' && r != ' '
    ensures IsArrowFunction(['(', p, ',', ' ', q, ')', ' ', '=', '>', ' ', r])
  {
    CompactArrow(p, q, r);
    SpaceBeforeBody(p, q, r);
    SpaceBeforeArrow(p, q, r);
    SpaceAfterComma(p, q, r);
  }

  lemma CompactArrow(p: char, q: char, r: char)
    requires p != ' ' && q != ' ' && r != ' '
    ensures IsArrowFunction(['(', p, ',', q, ')', '=', '>', r])
  {
    var t := ['(', p, ',', q, ')', '=', '>', r];
    RemoveSpacesNone(t);
    assert t[4..][..3] == ")=>";
    ContainsAt(t, ")=>", 4);
  }

  lemma SpaceBeforeBody(p: char, q: char, r: char)
    ensures IsArrowFunction(['(', p, ',', q, ')', '=', '>', ' ', r])
      == IsArrowFunction(['(', p, ',', q, ')', '=', '>', r])
  {
    var a := ['(', p, ',', q, ')', '=', '>'];
    SpacingIrrelevant(a, [r]);
    assert a + " " + [r] == ['(', p, ',', q, ')', '=', '>', ' ', r];
    assert a + [r] == ['(', p, ',', q, ')', '=', '>', r];
  }

  lemma SpaceBeforeArrow(p: char, q: char, r: char)
    ensures IsArrowFunction(['(', p, ',', q, ')', ' ', '=', '>', ' ', r])
      == IsArrowFunction(['(', p, ',', q, ')', '=', '>', ' ', r])
  {
    var a := ['(', p, ',', q, ')'];
    var b := ['=', '>', ' ', r];
    SpacingIrrelevant(a, b);
    assert a + " " + b == ['(', p, ',', q, ')', ' ', '=', '>', ' ', r];
    assert a + b == ['(', p, ',', q, ')', '=', '>', ' ', r];
  }

  lemma SpaceAfterComma(p: char, q: char, r: char)
    ensures IsArrowFunction(['(', p, ',', ' ', q, ')', ' ', '=', '>', ' ', r])
      == IsArrowFunction(['(', p, ',', q, ')', ' ', '=', '>', ' ', r])
  {
    var a := ['(', p, ','];
    var b := [q, ')', ' ', '=', '>', ' ', r];
    SpacingIrrelevant(a, b);
    assert a + " " + b == ['(', p, ',', ' ', q, ')', ' ', '=', '>', ' ', r];
    assert a + b == ['(', p, ',', q, ')', ' ', '=', '>', ' ', r];
  }

  lemma {:induction false} RemoveSpacesNone(s: string)
    requires ' ' !in s
    ensures RemoveSpaces(s) == s
  {
    if s != [] {
      assert s[0] != ' ';
      RemoveSpacesNone(s[1..]);
      assert [s[0]] + s[1..] == s;
    }
  }

  /** `isFunction(value)`: a string holding a function's source text. */
  predicate IsFunction(value: Value)
  {
    value.Str? && (StartsWith(value.s, "function") || IsArrowFunction(value.s))
  }

  /** Only strings are taken for functions, and every `function` text is one. */
  lemma FunctionTexts(value: Value)
    ensures IsFunction(value) ==> value.Str?
    ensures value.Str? && StartsWith(value.s, "function") ==> IsFunction(value)
  {
  }

  /** The argument list mapped for `JSON.stringify`: functions become their
      source text, everything else stays. */
  function PrepareArgs(args: seq<Value>): (r: seq<Value>)
    ensures |r| == |args|
    ensures forall i :: 0 <= i < |args| ==> !r[i].Func?
    ensures forall i :: 0 <= i < |args| ==> args[i].Func? ==> r[i] == Str(args[i].source)
    ensures forall i :: 0 <= i < |args| ==> !args[i].Func? ==> r[i] == args[i]
  {
    if args == [] then []
    else [if args[0].Func? then Str(args[0].source) else args[0]] + PrepareArgs(args[1..])
  }

  /** The text `defineVmArguments` stores as the global `args`: the JSON of
      the mapped arguments, or `[]` when `JSON.stringify` throws (`None`). */
  function ArgumentsText(args: seq<Value>, stringify: Value -> Option<string>): (r: string)
    ensures stringify(Arr(PrepareArgs(args))).None? ==> r == "[]"
    ensures stringify(Arr(PrepareArgs(args))).Some? ==> r == stringify(Arr(PrepareArgs(args))).value
  {
    match stringify(Arr(PrepareArgs(args)))
    case None => "[]"
    case Some(text) => text
  }

  /** The text `defineVmContext` stores as the global `context`: the JSON of
      the context, or the empty string when `JSON.stringify` throws. */
  function ContextText(context: Value, stringify: Value -> Option<string>): (r: string)
    ensures stringify(context).None? ==> r == ""
    ensures stringify(context).Some? ==> r == stringify(context).value
  {
    match stringify(context)
    case None => ""
    case Some(text) => text
  }

  /** The handle `toHandle` creates for a host value. */
  datatype NewHandle = NewNumber(n: int) | NewString(s: string) | Evaluated(code: string)

  /** `toHandle(value)`: numbers as numbers, values of `typeof` object
      (null and arrays included) through their JSON evaluated in the sandbox,
      everything else as its `String(...)` text. */
  function ToHandle(value: Value, stringify: Value -> Option<string>): (r: Result<NewHandle>)
    ensures r.Ok? && r.value.NewNumber? <==> value.Num?
    ensures value.Num? ==> r == Ok(NewNumber(value.n))
    ensures r.Ok? && r.value.Evaluated? <==> TypeofObject(value) && stringify(value).Some?
    ensures TypeofObject(value) && stringify(value).Some? ==>
      r.value.code == "(" + stringify(value).value + ")"
    ensures r.Throws? <==> TypeofObject(value) && stringify(value).None?
    ensures !value.Num? && !TypeofObject(value) ==> r == Ok(NewString(ToStr(value)))
  {
    if value.Num? then Ok(NewNumber(value.n))
    else if TypeofObject(value) then
      match stringify(value)
      case None => Throws(TypeError)
      case Some(json) => Ok(Evaluated("(" + json + ")"))
    else Ok(NewString(ToStr(value)))
  }

  /** Booleans, undefined and functions reach the sandbox as strings. */
  lemma NonNumericPrimitivesBecomeStrings(b: bool, source: string, stringify: Value -> Option<string>)
    ensures ToHandle(Bool(b), stringify) == Ok(NewString(if b then "true" else "false"))
    ensures ToHandle(Undefined, stringify) == Ok(NewString("undefined"))
    ensures ToHandle(Func(source), stringify) == Ok(NewString(source))
  {
  }

  /** `typeof null === 'object'`: null travels as the JSON text `null`. */
  lemma NullEvaluated(stringify: Value -> Option<string>)
    requires stringify(Null) == Some("null")
    ensures ToHandle(Null, stringify) == Ok(Evaluated("(null)"))
  {
    assert "(" + "null" + ")" == "(null)";
  }

  // ---------------------------------------------------------------------------
  // The runtime

  type Handle = nat

  /** The outcome of `vm.evalCode` or `vm.callFunction`. */
  datatype CallResult = CallValue(value: Handle) | CallError(error: Handle)

  /** What a sandbox argument becomes for the host function: a callback
      wrapping a long-lived handle, or the dumped value. */
  datatype NativeArg = Callback(handle: Handle) | Plain(value: Value)

  function CallbackCount(dumped: seq<Value>): (r: nat)
    ensures r <= |dumped|
  {
    if dumped == [] then 0 else (if IsFunction(dumped[0]) then 1 else 0) + CallbackCount(dumped[1..])
  }

  lemma {:induction false} CallbackCountAppend(dumped: seq<Value>, v: Value)
    ensures CallbackCount(dumped + [v]) == CallbackCount(dumped) + (if IsFunction(v) then 1 else 0)
  {
    if dumped != [] {
      assert (dumped + [v])[1..] == dumped[1..] + [v];
      CallbackCountAppend(dumped[1..], v);
    } else {
      assert [v][1..] == [];
    }
  }

  /** The outcome of `checkCallResult`: true for a value; for an error, the
      dumped error with its stack rewritten, or the TypeError of a stack
      that is not a string. */
  function CheckedCall(result: CallResult, dumpedError: Value, name: Value, startPoint: int): (r: Result<bool>)
    ensures r.Ok? <==> result.CallValue?
    ensures r.Ok? ==> r.value
    ensures result.CallError? && Prop(dumpedError, "stack").Str? ==>
      r.error == ErrorWithStack(dumpedError, StackRewriter(name, startPoint)).value
    ensures result.CallError? && !Prop(dumpedError, "stack").Str? ==> r.error == TypeError
  {
    if result.CallValue? then Ok(true)
    else
      match ErrorWithStack(dumpedError, StackRewriter(name, startPoint))
      case Throws(e) => Throws(e)
      case Ok(errorMsg) => Throws(errorMsg)
  }

  /** A failed call throws its error with the rewritten stack. */
  lemma ThrownStack(result: CallResult, dumpedError: Value, name: Value, startPoint: int)
    requires result.CallError? && Prop(dumpedError, "stack").Str?
    ensures var thrown := CheckedCall(result, dumpedError, name, startPoint).error;
      thrown.Obj? && Prop(thrown, "stack") == Str(RewriteStack(dumpedError.fields["stack"].s, name, startPoint))
  {
  }

  class Runtime {
    /** The long-lived callback handles, in the order they were taken. */
    var pending: seq<Handle>
    /** The handles the engine has not disposed yet. */
    var alive: set<Handle>
    /** The next handle the engine hands out. */
    var nextHandle: nat
    /** String properties set on the sandbox's global object. */
    var globals: map<string, string>
    var vmDisposed: bool
    var runtimeDisposed: bool

    ghost predicate Valid()
      reads this
    {
      (forall i :: 0 <= i < |pending| ==> pending[i] < nextHandle)
      && (forall h :: h in alive ==> h < nextHandle)
      && vmDisposed == runtimeDisposed
    }

    constructor ()
      ensures Valid()
      ensures pending == [] && alive == {} && globals == map[]
      ensures !vmDisposed && !runtimeDisposed
    {
      pending := [];
      alive := {};
      nextHandle := 0;
      globals := map[];
      vmDisposed := false;
      runtimeDisposed := false;
    }

    /** `checkCallResult(result, {name, startPoint})`: true for a value; for
        an error, the dumped error `dumpedError` is thrown with its stack
        rewritten and the error handle disposed. A stack that cannot be
        rewritten throws a TypeError before the handle is disposed. */
    method CheckCallResult(result: CallResult, dumpedError: Value, name: Value, startPoint: int)
      returns (r: Result<bool>)
      requires Valid()
      modifies this
      ensures Valid()
      ensures r == CheckedCall(result, dumpedError, name, startPoint)
      ensures alive == if result.CallError? && ErrorWithStack(dumpedError, StackRewriter(name, startPoint)).Ok?
        then old(alive) - {result.error} else old(alive)
      ensures pending == old(pending) && nextHandle == old(nextHandle) && globals == old(globals)
      ensures vmDisposed == old(vmDisposed) && runtimeDisposed == old(runtimeDisposed)
    {
      if result.CallValue? {
        return Ok(true);
      }
      var errorMsg := ErrorWithStack(dumpedError, StackRewriter(name, startPoint));
      if errorMsg.Throws? {
        return Throws(errorMsg.error);
      }
      alive := alive - {result.error};
      r := Throws(errorMsg.value);
    }

    /** `defineVmContext(context)`: the JSON of the context as the global
        `context`; the temporary string handle is disposed again. */
    method DefineVmContext(context: Value, stringify: Value -> Option<string>)
      requires Valid()
      modifies this
      ensures Valid()
      ensures globals == old(globals)["context" := ContextText(context, stringify)]
      ensures pending == old(pending) && alive == old(alive) && nextHandle == old(nextHandle)
      ensures vmDisposed == old(vmDisposed) && runtimeDisposed == old(runtimeDisposed)
    {
      globals := globals["context" := ContextText(context, stringify)];
    }

    /** `defineVmArguments(args)`: the JSON of the arguments as the global
        `args`. */
    method DefineVmArguments(args: seq<Value>, stringify: Value -> Option<string>)
      requires Valid()
      modifies this
      ensures Valid()
      ensures globals == old(globals)["args" := ArgumentsText(args, stringify)]
      ensures pending == old(pending) && alive == old(alive) && nextHandle == old(nextHandle)
      ensures vmDisposed == old(vmDisposed) && runtimeDisposed == old(runtimeDisposed)
    {
      globals := globals["args" := ArgumentsText(args, stringify)];
    }

    /** `fnArg.dup()` pushed on `pending`: a fresh live handle. */
    method TrackCallback() returns (h: Handle)
      requires Valid()
      modifies this
      ensures Valid()
      ensures h == old(nextHandle) && h !in old(alive)
      ensures pending == old(pending) + [h] && alive == old(alive) + {h}
      ensures nextHandle == old(nextHandle) + 1
      ensures globals == old(globals)
      ensures vmDisposed == old(vmDisposed) && runtimeDisposed == old(runtimeDisposed)
    {
      h := nextHandle;
      nextHandle := nextHandle + 1;
      pending := pending + [h];
      alive := alive + {h};
    }

    /** The arguments a sandbox call passes to a host API function, after
        `vm.dump`: each function text becomes a callback over a fresh
        long-lived handle, every other value is passed as it is. */
    method NativeArguments(dumped: seq<Value>) returns (args: seq<NativeArg>)
      requires Valid()
      modifies this
      ensures Valid()
      ensures |args| == |dumped|
      ensures forall i :: 0 <= i < |dumped| ==> (args[i].Callback? <==> IsFunction(dumped[i]))
      ensures forall i :: 0 <= i < |dumped| ==> !IsFunction(dumped[i]) ==> args[i] == Plain(dumped[i])
      ensures forall i :: 0 <= i < |dumped| ==> args[i].Callback? ==>
        args[i].handle in pending && args[i].handle in alive && args[i].handle !in old(alive)
      ensures |pending| == |old(pending)| + CallbackCount(dumped)
      ensures pending[..|old(pending)|] == old(pending)
      ensures old(alive) <= alive
      ensures globals == old(globals)
      ensures vmDisposed == old(vmDisposed) && runtimeDisposed == old(runtimeDisposed)
    {
      args := [];
      var i := 0;
      while i < |dumped|
        invariant 0 <= i <= |dumped|
        invariant Valid()
        invariant |args| == i
        invariant forall j :: 0 <= j < i ==> (args[j].Callback? <==> IsFunction(dumped[j]))
        invariant forall j :: 0 <= j < i ==> !IsFunction(dumped[j]) ==> args[j] == Plain(dumped[j])
        invariant forall j :: 0 <= j < i ==> args[j].Callback? ==>
          args[j].handle in pending && args[j].handle in alive && args[j].handle !in old(alive)
        invariant |pending| == |old(pending)| + CallbackCount(dumped[..i])
        invariant pending[..|old(pending)|] == old(pending)
        invariant old(alive) <= alive
        invariant forall h :: h in old(alive) ==> h < old(nextHandle)
        invariant old(nextHandle) <= nextHandle
        invariant globals == old(globals)
        invariant vmDisposed == old(vmDisposed) && runtimeDisposed == old(runtimeDisposed)
      {
        CallbackCountAppend(dumped[..i], dumped[i]);
        assert dumped[..i + 1] == dumped[..i] + [dumped[i]];
        if IsFunction(dumped[i]) {
          var h := TrackCallback();
          args := args + [Callback(h)];
        } else {
          args := args + [Plain(dumped[i])];
        }
        i := i + 1;
      }
      assert dumped[..i] == dumped;
    }

    /** `this.pending.some(handle => handle.alive)` */
    method AnyPendingAlive() returns (b: bool)
      ensures b <==> exists i :: 0 <= i < |pending| && pending[i] in alive
    {
      b := false;
      var i := 0;
      while i < |pending|
        invariant 0 <= i <= |pending|
        invariant !b
        invariant forall j :: 0 <= j < i ==> pending[j] !in alive
      {
        if pending[i] in alive {
          return true;
        }
        i := i + 1;
      }
    }

    /** `dispose()`: the VM and the runtime go only when no long-lived
        callback handle is alive any more. */
    method Dispose()
      requires Valid()
      modifies this
      ensures Valid()
      ensures (forall i :: 0 <= i < |pending| ==> pending[i] !in alive) ==> vmDisposed && runtimeDisposed
      ensures (exists i :: 0 <= i < |pending| && pending[i] in alive) ==>
        vmDisposed == old(vmDisposed) && runtimeDisposed == old(runtimeDisposed)
      ensures pending == old(pending) && alive == old(alive) && nextHandle == old(nextHandle)
      ensures globals == old(globals)
    {
      var busy := AnyPendingAlive();
      if !busy {
        vmDisposed := true;
        runtimeDisposed := true;
      }
    }

    /** The timer a callback sets after each call: once the host function
        has returned, the callback's handle is disposed and the runtime
        disposed if nothing else is pending. */
    method CallbackTimeout(h: Handle, callEnded: bool)
      requires Valid()
      modifies this
      ensures Valid()
      ensures !callEnded ==> alive == old(alive) && vmDisposed == old(vmDisposed)
      ensures callEnded ==> alive == old(alive) - {h}
      ensures callEnded && (forall i :: 0 <= i < |pending| ==> pending[i] !in alive) ==> vmDisposed
      ensures vmDisposed && !old(vmDisposed) ==> forall i :: 0 <= i < |pending| ==> pending[i] !in alive
      ensures pending == old(pending) && nextHandle == old(nextHandle) && globals == old(globals)
    {
      if callEnded {
        if h in alive {
          alive := alive - {h};
        }
        Dispose();
      }
    }
  }

  /** The line of the generated code the stack numbers are taken relative
      to: `row.trim().startsWith('const __fn')`. */
  predicate IsMarkerLine(row: string)
  {
    StartsWith(Trim(row), "const __fn")
  }

  /** `lines.findIndex(found)` from `i` on, -1 when there is none. */
  function FindIndex(lines: seq<string>, found: string -> bool, i: nat): (r: int)
    requires i <= |lines|
    decreases |lines| - i
    ensures r == -1 <==> forall j :: i <= j < |lines| ==> !found(lines[j])
    ensures r != -1 ==> (i <= r < |lines| && found(lines[r])
      && forall j :: i <= j < r ==> !found(lines[j]))
  {
    if i == |lines| then -1
    else if found(lines[i]) then i
    else FindIndex(lines, found, i + 1)
  }

  /** `startPoint` of `callFunction`: one past the marker line of the code,
      0 when the code has no marker line. */
  function StartPoint(code: string): (r: nat)
  {
    FindIndex(SplitLines(code), IsMarkerLine, 0) + 1
  }

  /** Without a marker line the start point is 0, so with canonically printed
      line numbers the stack is only named and trimmed. */
  lemma NoMarkerKeepsLineNumbers(code: string, stack: string, name: Value)
    requires forall i :: 0 <= i < |SplitLines(code)| ==> !IsMarkerLine(SplitLines(code)[i])
    requires forall i :: 0 <= i < |SplitLines(ReplaceFirst(stack, "__fn", ToStr(name)))| ==>
      CanonicalRuns(SplitLines(ReplaceFirst(stack, "__fn", ToStr(name)))[i])
    ensures StartPoint(code) == 0
    ensures RewrittenLines(stack, name, StartPoint(code)) ==
      DropLastTwo(KeepNonBlank(SplitLines(ReplaceFirst(stack, "__fn", ToStr(name)))))
  {
    DefaultStartKeepsLines(stack, name);
  }

  /** A marker line sets the start point just past itself, and numbers are
      then shifted back by that much. */
  lemma MarkerSetsStartPoint(code: string, m: nat)
    requires m < |SplitLines(code)| && IsMarkerLine(SplitLines(code)[m])
    requires forall j :: 0 <= j < m ==> !IsMarkerLine(SplitLines(code)[j])
    ensures StartPoint(code) == m + 1
  {
  }
}
