/**
 * The CLI's pure helpers: the scalar parser used by the interactive editor, the ASCII box of
 * one pipeline component, and the lookup of a component's type and parameters.
 */
module Visualize {
  import opened Wrappers
  import opened Types
  import Text
  import Seqs

  // ---------------------------------------------------------------------------------------
  // parse_value

  predicate IsDigit(c: char) { '0' <= c <= '9' }

  predicate AllDigits(d: string) {
    forall i :: 0 <= i < |d| ==> IsDigit(d[i])
  }

  /** The value of a string of decimal digits, most significant first. */
  function DigitsValue(d: string): (n: nat)
    requires AllDigits(d)
    decreases |d|
  {
    if d == [] then 0 else DigitsValue(d[..|d| - 1]) * 10 + (d[|d| - 1] as int - '0' as int)
  }

  /** `t` without its leading sign, if it has one. */
  function Unsigned(t: string): string {
    if t != [] && (t[0] == '+' || t[0] == '-') then t[1..] else t
  }

  /**
   * Python's `int(s)` on an already stripped string, for ASCII input: an optional sign
   * followed by at least one decimal digit, read as a decimal number negated by a minus sign.
   */
  function ParseInt(t: string): (r: Option<int>)
    ensures r.Some? <==> (Unsigned(t) != [] && AllDigits(Unsigned(t)))
    ensures r.Some? ==> t != [] && r.value == (if t[0] == '-' then -1 else 1) * DigitsValue(Unsigned(t))
  {
    if t == [] then None
    else
      var sign := t[0] == '+' || t[0] == '-';
      var d := if sign then t[1..] else t;
      if d == [] || !AllDigits(d) then None
      else
        var v: int := DigitsValue(d);
        Some(if t[0] == '-' then -v else v)
  }

  /** The lower-cased words `parse_value` reads as True, as False and as None. */
  const TrueWords: set<string> := {"true", "yes"}
  const FalseWords: set<string> := {"false", "no"}
  const NoneWords: set<string> := {"none", "null", ""}

  /**
   * `parse_value(value_str)`: the stripped input is tried, in this order, as a boolean word,
   * a None word (both case-insensitively), an integer, a float (`parseFloat` stands for
   * Python's `float()`), and otherwise kept as the stripped string.
   */
  function ParseValue(s: string, parseFloat: string -> Option<real>): Value
  {
    var t := Text.Strip(s);
    var l := Text.Lower(t);
    if l in TrueWords then VBool(true)
    else if l in FalseWords then VBool(false)
    else if l in NoneWords then VNone
    else ParseScalar(t, parseFloat)
  }

  /** The `int()`, then `float()`, then string fallback of `parse_value` on the stripped input. */
  function ParseScalar(t: string, parseFloat: string -> Option<real>): (v: Value)
    ensures !v.VBool? && !v.VNone?
  {
    match ParseInt(t)
    case Some(n) => VInt(n)
    case None =>
      match parseFloat(t)
      case Some(x) => VReal(x)
      case None => VStr(t)
  }

  /** The word checks come first: only "true", "yes", "false" and "no" give a bool, case-insensitively. */
  lemma ParseValueBool(s: string, parseFloat: string -> Option<real>)
    ensures ParseValue(s, parseFloat).VBool? <==> Text.Lower(Text.Strip(s)) in TrueWords + FalseWords
  {
  }

  /** True exactly for "true" and "yes"; the rest of the bool words give False. */
  lemma ParseValueTrue(s: string, parseFloat: string -> Option<real>)
    ensures ParseValue(s, parseFloat) == VBool(true) <==> Text.Lower(Text.Strip(s)) in TrueWords
  {
  }

  /** None exactly for "none", "null" and the blank input. */
  lemma ParseValueNone(s: string, parseFloat: string -> Option<real>)
    ensures ParseValue(s, parseFloat).VNone? <==> Text.Lower(Text.Strip(s)) in NoneWords
  {
  }

  /**
   * Past the word checks, the stripped input is an integer if `int()` accepts it, else a
   * float if `float()` does, else the stripped string itself.
   */
  lemma ParseValueScalars(s: string, parseFloat: string -> Option<real>)
    requires Text.Lower(Text.Strip(s)) !in TrueWords + FalseWords + NoneWords
    ensures ParseInt(Text.Strip(s)).Some? ==> ParseValue(s, parseFloat) == VInt(ParseInt(Text.Strip(s)).value)
    ensures ParseInt(Text.Strip(s)).None? && parseFloat(Text.Strip(s)).Some? ==>
      ParseValue(s, parseFloat) == VReal(parseFloat(Text.Strip(s)).value)
    ensures ParseInt(Text.Strip(s)).None? && parseFloat(Text.Strip(s)).None? ==>
      ParseValue(s, parseFloat) == VStr(Text.Strip(s))
  {
  }

  /** The decimal digits of `n`, most significant first, as Python's `str(n)` writes them. */
  function Digits(n: nat): (d: string)
    ensures d != [] && AllDigits(d)
    ensures DigitsValue(d) == n
  {
    var last := ['0' + ((n % 10) as char)];
    if n < 10 then
      assert last[..0] == [];
      last
    else
      var d := Digits(n / 10) + last;
      assert d[..|d| - 1] == Digits(n / 10);
      d
  }

  /** `str(n)` for any integer. */
  function IntToString(n: int): (s: string)
    ensures s != [] && (s[0] == '-' <==> n < 0)
    ensures Unsigned(s) != [] && AllDigits(Unsigned(s))
    ensures DigitsValue(Unsigned(s)) == if n < 0 then -n else n
  {
    if n < 0 then "-" + Digits(-n) else Digits(n)
  }

  /** A string starting with a digit or a minus sign is none of the words. */
  lemma NotAWord(l: string)
    requires l != [] && (IsDigit(l[0]) || l[0] == '-')
    ensures l !in TrueWords + FalseWords + NoneWords
  {
  }

  /** A string with no whitespace at either end strips to itself. */
  lemma StripUnchanged(s: string)
    requires s != [] && !Text.IsSpace(s[0]) && !Text.IsSpace(s[|s| - 1])
    ensures Text.Strip(s) == s
  {
    assert Text.TrimLeft(s) == s;
    assert Text.TrimRight(s) == s;
  }

  /** `int()` reads back what `str()` wrote. */
  lemma ParseIntOfString(n: int)
    ensures ParseInt(IntToString(n)) == Some(n)
  {
    var s := IntToString(n);
    if n < 0 {
      assert s[1..] == Digits(-n);
    }
  }

  /** Every integer as Python prints it parses back to itself, whatever `float()` would say. */
  lemma ParseIntRoundTrip(n: int, parseFloat: string -> Option<real>)
    ensures ParseValue(IntToString(n), parseFloat) == VInt(n)
  {
    var s := IntToString(n);
    assert IsDigit(s[0]) || s[0] == '-';
    assert IsDigit(s[|s| - 1]);
    StripUnchanged(s);
    var l := Text.Lower(s);
    assert l[0] == Text.LowerChar(s[0]) == s[0];
    NotAWord(l);
    ParseIntOfString(n);
    ParseValueScalars(s, parseFloat);
  }

  /** Whitespace alone, like the empty string, is None. */
  lemma BlankIsNone(s: string, parseFloat: string -> Option<real>)
    requires forall i :: 0 <= i < |s| ==> Text.IsSpace(s[i])
    ensures ParseValue(s, parseFloat) == VNone
  {
  }

  // ---------------------------------------------------------------------------------------
  // ComponentBox.render

  /** The inner width of a box. */
  const Width := 12

  /** The room for the type on its line: the width less `" type: "`. */
  const MaxTypeLen := Width - 7

  const TypeLabel := "│ type: "

  /** A component of the pipeline diagram; the parameters are stored but not drawn. */
  datatype ComponentBox = ComponentBox(name: string, compType: string, params: map<string, Value>) {
    /** The type as shown: its first `MaxTypeLen` characters. */
    function TypeDisplay(): (t: string)
      ensures |t| <= MaxTypeLen && t <= compType
      ensures |compType| <= MaxTypeLen ==> t == compType
      ensures |compType| > MaxTypeLen ==> |t| == MaxTypeLen
    {
      if |compType| > MaxTypeLen then compType[..MaxTypeLen] else compType
    }

    /**
     * `render()`: top border, the name line, a separator, the type line and the bottom border,
     * each border `Width` rules between its two corners.
     */
    function Render(): (lines: seq<string>)
      ensures |lines| == 5 && lines[1] == NameLine() && lines[3] == TypeLine()
      ensures |lines[0]| == Width + 2 && |lines[2]| == Width + 2 && |lines[4]| == Width + 2
      ensures lines[0][0] == '┌' && lines[2][0] == '├' && lines[4][0] == '└'
      ensures lines[0][Width + 1] == '┐' && lines[2][Width + 1] == '┤' && lines[4][Width + 1] == '┘'
      ensures forall i :: 1 <= i <= Width ==> lines[0][i] == '─' && lines[2][i] == '─' && lines[4][i] == '─'
    {
      [Rule('┌', '┐'), NameLine(), Rule('├', '┤'), TypeLine(), Rule('└', '┘')]
    }

    /**
     * `f"│{name.upper():^{WIDTH}}│"`: the upper-cased name centred between two bars, the
     * extra space of an odd padding on the right; a name longer than the box is not cut.
     */
    function NameLine(): (l: string)
      ensures |l| == if |name| <= Width then Width + 2 else |name| + 2
      ensures l[0] == '│' && l[|l| - 1] == '│'
      ensures |name| <= Width ==>
        l[1 + (Width - |name|) / 2..1 + (Width - |name|) / 2 + |name|] == Text.Upper(name)
      ensures |name| > Width ==> l[1..|name| + 1] == Text.Upper(name)
    ensures |name| <= Width ==> forall i ::
      1 <= i <= Width && (i < 1 + (Width - |name|) / 2 || 1 + (Width - |name|) / 2 + |name| <= i) ==> l[i] == ' '
    {
      var u := Text.Upper(name);
      assert |u| == |name|;
      CentredLine(u)
    }

    /** `f"│ type: {type_display:<{max_type_len}}│"`. */
    function TypeLine(): (l: string)
      ensures |l| == Width + 2
      ensures l[..|TypeLabel|] == TypeLabel
      ensures l[|TypeLabel|..|TypeLabel| + |TypeDisplay()|] == TypeDisplay()
      ensures forall i :: |TypeLabel| + |TypeDisplay()| <= i < Width + 1 ==> l[i] == ' '
      ensures l[Width + 1] == '│'
    {
      var t := TypeDisplay();
      var shown := Text.PadRight(t, MaxTypeLen);
      var l := TypeLabel + shown + "│";
      assert l[..|TypeLabel|] == TypeLabel by {
        Seqs.SliceShift([], TypeLabel, shown + "│", 0, |TypeLabel|);
        assert [] + TypeLabel + (shown + "│") == l;
      }
      assert l[|TypeLabel|..|TypeLabel| + |t|] == t by {
        Seqs.SliceShift(TypeLabel, shown, "│", 0, |t|);
        assert shown[0..|t|] == t;
      }
      l
    }
  }

  /** `s` centred in `Width` columns between two bars, never truncated. */
  function CentredLine(s: string): (l: string)
    ensures |l| == if |s| <= Width then Width + 2 else |s| + 2
    ensures l[0] == '│' && l[|l| - 1] == '│'
    ensures |s| <= Width ==> l[1 + (Width - |s|) / 2..1 + (Width - |s|) / 2 + |s|] == s
    ensures |s| > Width ==> l[1..|s| + 1] == s
    ensures |s| <= Width ==> forall i ::
      1 <= i <= Width && (i < 1 + (Width - |s|) / 2 || 1 + (Width - |s|) / 2 + |s| <= i) ==> l[i] == ' '
  {
    var title := Text.PadCenter(s, Width);
    var l := "│" + title + "│";
    assert forall i :: 1 <= i <= |title| ==> l[i] == title[i - 1];
    assert |s| <= Width ==> l[1 + (Width - |s|) / 2..1 + (Width - |s|) / 2 + |s|] == s by {
      if |s| <= Width {
        Text.PadCenterMiddle(s, Width);
        Seqs.SliceShift("│", title, "│", (Width - |s|) / 2, (Width - |s|) / 2 + |s|);
      }
    }
    assert |s| > Width ==> l[1..|s| + 1] == s by {
      if |s| > Width {
        Seqs.MiddleSlice("│", s, "│");
      }
    }
    l
  }

  /** A border line: `left`, `Width` rules, `right`. */
  function Rule(left: char, right: char): (l: string)
    ensures |l| == Width + 2 && l[0] == left && l[Width + 1] == right
    ensures forall i :: 1 <= i <= Width ==> l[i] == '─'
  {
    [left] + Text.Repeat('─', Width) + [right]
  }

  // ---------------------------------------------------------------------------------------
  // PipelineFlowRenderer._get_component_info

  const NoopType := VStr("noop")
  const NoParams := VMap(map[])

  /** Python's `d.get(key, default)`. */
  function GetOr(d: map<string, Value>, key: string, default: Value): Value {
    if key in d then d[key] else default
  }

  /**
   * `_get_component_info(name)` over the pipeline's `components` mapping: the component's
   * `type` and `params`, defaulting to `"noop"` and `{}`; a missing component counts as `{}`,
   * and a component that is not a mapping gives both defaults.
   */
  function ComponentInfo(components: map<string, Value>, name: string): (r: (Value, Value))
    ensures (name !in components || !components[name].VMap?) ==> r == (NoopType, NoParams)
    ensures name in components && components[name].VMap? ==>
      && (r.0 == NoopType <== "type" !in components[name].entries)
      && (r.1 == NoParams <== "params" !in components[name].entries)
      && ("type" in components[name].entries ==> r.0 == components[name].entries["type"])
      && ("params" in components[name].entries ==> r.1 == components[name].entries["params"])
  {
    var comp := GetOr(components, name, VMap(map[]));
    if comp.VMap? then (GetOr(comp.entries, "type", NoopType), GetOr(comp.entries, "params", NoParams))
    else (NoopType, NoParams)
  }

  /** A configured reranker, an absent scheduler and a component given as a bare string. */
  lemma ComponentInfoExamples()
    ensures var cs := map["reranker" := VMap(map["type" := VStr("simulated")]), "retriever" := VStr("bm25")];
      && ComponentInfo(cs, "reranker") == (VStr("simulated"), NoParams)
      && ComponentInfo(cs, "scheduler") == (NoopType, NoParams)
      && ComponentInfo(cs, "retriever") == (NoopType, NoParams)
  {
  }
}
