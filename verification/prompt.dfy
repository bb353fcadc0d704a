/** The prompt sent to the image provider: a fixed template with the faith
    tradition and the development goal quoted verbatim on the first line, an
    optional extra-context line, and a fixed style line. */
module Prompt {
  import opened JsValues

  const Opening := "Create a faith-based infographic about \""
  const Between := "\" and the Sustainable Development Goal \""
  const Closing := "\"."
  const ExtraLabel := "Extra context: "
  const StyleLine := "Style: modern, clean infographic with icons, short text, and balanced color scheme."

  /** The middle line: empty unless the description is truthy, in which case
      it is the label followed by the description verbatim. */
  function ExtraContext(description: Option<string>): (m: string)
    ensures m == "" <==> !Truthy(description)
    ensures Truthy(description) ==> |m| == |ExtraLabel| + |description.value|
    ensures Truthy(description) ==> m[..|ExtraLabel|] == ExtraLabel
    ensures Truthy(description) ==> m[|ExtraLabel|..] == description.value
  {
    if Truthy(description) then ExtraLabel + description.value else ""
  }

  /** Length of the first line, which ends just before the first separator newline. */
  function HeadLength(faith: string, sdg: string): nat {
    |Opening| + |faith| + |Between| + |sdg| + |Closing|
  }

  /** `s` occurs in `p` starting at offset `i`. */
  predicate At(p: string, i: nat, s: string) {
    i + |s| <= |p| && p[i..i + |s|] == s
  }

  /** The composed prompt: the first line quoting both fields, the middle
      line and the style line, separated by single newlines. No escaping is
      done, so every field lands verbatim in its slot. */
  function Compose(faith: string, sdg: string, description: Option<string>): (p: string)
    ensures |p| == HeadLength(faith, sdg) + 1 + |ExtraContext(description)| + 1 + |StyleLine|
    ensures At(p, |Opening|, faith)
    ensures At(p, |Opening| + |faith| + |Between|, sdg)
    ensures At(p, HeadLength(faith, sdg) + 1, ExtraContext(description))
  {
    var mid := ExtraContext(description);
    ThreeLines(Opening, faith, Between, sdg, Closing, mid, StyleLine);
    Opening + faith + Between + sdg + Closing + "\n" + mid + "\n" + StyleLine
  }

  /** Where each piece of a three-line text sits, whatever the pieces are. */
  lemma ThreeLines(o: string, f: string, b: string, g: string, c: string, m: string, st: string)
    ensures var p := o + f + b + g + c + "\n" + m + "\n" + st;
      var h := |o| + |f| + |b| + |g| + |c|;
      && |p| == h + 1 + |m| + 1 + |st|
      && At(p, 0, o)
      && At(p, |o|, f)
      && At(p, |o| + |f|, b)
      && At(p, |o| + |f| + |b|, g)
      && At(p, h - |c|, c)
      && At(p, h, "\n")
      && At(p, h + 1, m)
      && At(p, h + 1 + |m|, "\n")
      && At(p, h + 2 + |m|, st)
  {
    var head := o + f + b + g + c;
    var p := head + "\n" + m + "\n" + st;
    Layout(o, f, b, g, c);
    Layout(head, "\n", m, "\n", st);
    Within(p, head, 0, o);
    Within(p, head, |o|, f);
    Within(p, head, |o| + |f|, b);
    Within(p, head, |o| + |f| + |b|, g);
    Within(p, head, |o| + |f| + |b| + |g|, c);
  }

  /** Where each of five concatenated pieces sits. */
  lemma Layout(a: string, b: string, c: string, d: string, e: string)
    ensures var s := a + b + c + d + e;
      && At(s, 0, a)
      && At(s, |a|, b)
      && At(s, |a| + |b|, c)
      && At(s, |a| + |b| + |c|, d)
      && At(s, |a| + |b| + |c| + |d|, e)
  {
    assert At(a, 0, a) by { assert a[0..|a|] == a; }
    AtBack(a, b);
    Extend(a, b, 0, a);
    var s2 := a + b;
    AtBack(s2, c);
    Extend(s2, c, 0, a);
    Extend(s2, c, |a|, b);
    var s3 := s2 + c;
    AtBack(s3, d);
    Extend(s3, d, 0, a);
    Extend(s3, d, |a|, b);
    Extend(s3, d, |a| + |b|, c);
    var s4 := s3 + d;
    AtBack(s4, e);
    Extend(s4, e, 0, a);
    Extend(s4, e, |a|, b);
    Extend(s4, e, |a| + |b|, c);
    Extend(s4, e, |a| + |b| + |c|, d);
  }

  /** An occurrence survives appending text. */
  lemma Extend(x: string, y: string, i: nat, s: string)
    requires At(x, i, s)
    ensures At(x + y, i, s)
  {
    assert (x + y)[i..i + |s|] == x[i..i + |s|];
  }

  /** A string occurs at the back of any concatenation it ends. */
  lemma AtBack(x: string, y: string)
    ensures At(x + y, |x|, y)
  {
    assert (x + y)[|x|..|x| + |y|] == y;
  }

  /** An occurrence inside an occurrence is an occurrence, at the summed offset. */
  lemma Within(p: string, x: string, i: nat, s: string)
    requires At(p, 0, x) && At(x, i, s)
    ensures At(p, i, s)
  {
    assert p[i..i + |s|] == p[0..|x|][i..i + |s|];
  }

  /** The fixed text of the first line surrounds the two fields. */
  lemma FirstLineFrame(faith: string, sdg: string, description: Option<string>)
    ensures var p := Compose(faith, sdg, description);
      && At(p, 0, Opening)
      && At(p, |Opening| + |faith|, Between)
      && At(p, HeadLength(faith, sdg) - |Closing|, Closing)
  {
    ThreeLines(Opening, faith, Between, sdg, Closing, ExtraContext(description), StyleLine);
  }

  /** The first line ends in a newline, the middle line ends in a newline, and
      the style line closes the prompt. */
  lemma LineBreaks(faith: string, sdg: string, description: Option<string>)
    ensures var p := Compose(faith, sdg, description);
      var h := HeadLength(faith, sdg);
      && At(p, h, "\n")
      && At(p, h + 1 + |ExtraContext(description)|, "\n")
      && At(p, |p| - |StyleLine|, StyleLine)
  {
    ThreeLines(Opening, faith, Between, sdg, Closing, ExtraContext(description), StyleLine);
  }

  /** Both fields appear verbatim in the prompt, each enclosed in double quotes. */
  lemma FieldsQuotedVerbatim(faith: string, sdg: string, description: Option<string>)
    ensures var p := Compose(faith, sdg, description);
      var f := |Opening|;
      var g := |Opening| + |faith| + |Between|;
      && p[f - 1] == '"' && At(p, f, faith) && p[f + |faith|] == '"'
      && p[g - 1] == '"' && At(p, g, sdg) && p[g + |sdg|] == '"'
  {
    var p := Compose(faith, sdg, description);
    var f := |Opening|;
    FirstLineFrame(faith, sdg, description);
    Char(p, 0, Opening, |Opening| - 1);
    Char(p, f + |faith|, Between, 0);
    Char(p, f + |faith|, Between, |Between| - 1);
    Char(p, HeadLength(faith, sdg) - |Closing|, Closing, 0);
  }

  /** A character of an occurrence is a character of the text at the shifted index. */
  lemma Char(p: string, i: nat, s: string, k: nat)
    requires At(p, i, s) && k < |s|
    ensures p[i + k] == s[k]
  {
    assert p[i..i + |s|][k] == p[i + k];
  }

  /** When the description is missing or empty, the closing quote and full
      stop of the first line are followed by two newlines and the style line:
      the prompt ends in `".` newline newline `Style: ...`. */
  lemma NoExtraLineWhenNoDescription(faith: string, sdg: string, description: Option<string>)
    requires !Truthy(description)
    ensures var p := Compose(faith, sdg, description);
      p[HeadLength(faith, sdg) - |Closing|..] == Closing + "\n\n" + StyleLine
  {
    EmptyMiddle(Opening, faith, Between, sdg, Closing, StyleLine);
  }

  /** With an empty middle line, the text from the last piece of the first
      line onwards is that piece, two newlines and the last line. */
  lemma EmptyMiddle(o: string, f: string, b: string, g: string, c: string, st: string)
    ensures (o + f + b + g + c + "\n" + "" + "\n" + st)[|o| + |f| + |b| + |g|..] == c + "\n\n" + st
  {
    var x := o + f + b + g;
    assert o + f + b + g + c + "\n" + "" + "\n" + st == x + (c + "\n\n" + st);
  }

  /** For fixed faith and goal, the prompt determines the middle line, and
      with it whether a description was given and, if so, which one. */
  lemma PromptDeterminesDescription(faith: string, sdg: string, d1: Option<string>, d2: Option<string>)
    requires Compose(faith, sdg, d1) == Compose(faith, sdg, d2)
    ensures Truthy(d1) <==> Truthy(d2)
    ensures Truthy(d1) ==> d1.value == d2.value
  {
    var p := Compose(faith, sdg, d1);
    assert ExtraContext(d1) == p[HeadLength(faith, sdg) + 1..|p| - |StyleLine| - 1] == ExtraContext(d2);
    if Truthy(d1) {
      assert d1.value == ExtraContext(d1)[|ExtraLabel|..] == ExtraContext(d2)[|ExtraLabel|..] == d2.value;
    }
  }
}
