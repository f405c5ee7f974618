/**
 * The code-element renderer and the memo comparator of the Markdown
 * component (components/markdown.tsx). The renderer looks for
 * `/language-(\w+)/` in the element's class name and chooses between a
 * highlighted `<pre>` block and inline `<code>`.
 */
module Markdown {
  import opened Wrappers

  datatype Mode = Light | Dark

  /** The component's props; `mode` is optional. */
  datatype Props = Props(children: string, mode: Option<Mode>)

  /** The fixed utility classes appended after an element's own class name. */
  datatype Styling = BlockLight | BlockDark | InlineLight | InlineDark

  /** A class attribute `${className} <styling classes>`. */
  datatype ClassAttr = ClassAttr(own: string, styling: Styling)

  /** How a `code` element is rendered: a `<pre>` wrapping a `<code>` whose
      class is the language, or a lone inline `<code>`. */
  datatype CodeView =
    | Block(pre: ClassAttr, codeClass: string)
    | InlineCode(code: ClassAttr)

  const Prefix := "language-"

  /** `\w`: an ASCII letter, digit or underscore. */
  predicate IsWordChar(c: char) {
    ('a' <= c <= 'z') || ('A' <= c <= 'Z') || ('0' <= c <= '9') || c == '_'
  }

  /** The pattern `language-\w` starts at index i of s. */
  predicate MatchesAt(s: string, i: nat) {
    i + |Prefix| < |s| && s[i..i + |Prefix|] == Prefix && IsWordChar(s[i + |Prefix|])
  }

  /** The length of the run of word characters starting at index i (what the
      greedy `\w+` consumes). */
  function WordRunLength(s: string, i: nat): (n: nat)
    requires i <= |s|
    ensures i + n <= |s|
    ensures forall k :: i <= k < i + n ==> IsWordChar(s[k])
    ensures i + n == |s| || !IsWordChar(s[i + n])
    decreases |s| - i
  {
    if i < |s| && IsWordChar(s[i]) then 1 + WordRunLength(s, i + 1) else 0
  }

  /** The leftmost index at or after `from` where the pattern matches. */
  function FirstMatch(s: string, from: nat): (r: Option<nat>)
    ensures r.Some? ==> from <= r.value && MatchesAt(s, r.value)
    ensures forall j: nat :: from <= j && (r.None? || j < r.value) ==> !MatchesAt(s, j)
    decreases |s| - from
  {
    if from + |Prefix| >= |s| then None
    else if MatchesAt(s, from) then Some(from)
    else FirstMatch(s, from + 1)
  }

  /** `/language-(\w+)/.exec(className || "")`, giving the captured group. */
  function LanguageOf(className: Option<string>): (r: Option<string>)
    ensures var s := MatchInput(className);
      && (r.Some? <==> exists i: nat :: MatchesAt(s, i))
      && (r.Some? ==> exists i: nat ::
            && MatchesAt(s, i)
            && (forall j: nat :: j < i ==> !MatchesAt(s, j))
            && i + |Prefix| + |r.value| <= |s|
            && r.value == s[i + |Prefix| .. i + |Prefix| + |r.value|]
            && |r.value| >= 1
            && (forall k :: 0 <= k < |r.value| ==> IsWordChar(r.value[k]))
            && (i + |Prefix| + |r.value| == |s| || !IsWordChar(s[i + |Prefix| + |r.value|])))
  {
    var s := MatchInput(className);
    match FirstMatch(s, 0)
    case None => None
    case Some(i) =>
      var start := i + |Prefix|;
      var n := WordRunLength(s, start);
      var lang := s[start .. start + n];
      assert forall k :: 0 <= k < |lang| ==> lang[k] == s[start + k];
      Some(lang)
  }

  /** `className || ""`: an absent or empty class name reads as "". */
  function MatchInput(className: Option<string>): string {
    match className
    case Some(c) => c
    case None => ""
  }

  /** `${className}` inside a template literal: an absent class name prints as "undefined". */
  function Interpolated(className: Option<string>): string {
    match className
    case Some(c) => c
    case None => "undefined"
  }

  /** `mode === "dark"`, with `mode` defaulting to light. */
  predicate IsDark(mode: Option<Mode>) {
    mode == Some(Dark)
  }

  /** The `code` renderer: a block when the element is not inline and a
      language was found, inline code otherwise; either way the element keeps
      the given class name and gets the dark styling iff the mode is dark. */
  function RenderCode(inline: bool, className: Option<string>, mode: Option<Mode>): (v: CodeView)
    ensures v.Block? <==> !inline && LanguageOf(className).Some?
    ensures v.Block? ==> v.codeClass == LanguageOf(className).value
    ensures var attr := if v.Block? then v.pre else v.code;
      && attr.own == Interpolated(className)
      && (attr.styling in {BlockDark, InlineDark} <==> IsDark(mode))
    ensures v.Block? ==> v.pre.styling == (if IsDark(mode) then BlockDark else BlockLight)
    ensures v.InlineCode? ==> v.code.styling == (if IsDark(mode) then InlineDark else InlineLight)
  {
    var attr := ClassAttr(Interpolated(className), if IsDark(mode) then BlockDark else BlockLight);
    match LanguageOf(className)
    case Some(lang) =>
      if !inline then Block(attr, lang)
      else InlineCode(attr.(styling := if IsDark(mode) then InlineDark else InlineLight))
    case None => InlineCode(attr.(styling := if IsDark(mode) then InlineDark else InlineLight))
  }

  /** The classes shared by both modes of a block and of inline code. */
  const BlockBase := "text-sm w-[80dvw] md:max-w-[500px] overflow-x-scroll p-2 rounded mt-2 "
  const InlineBase := "text-sm py-0.5 px-1 rounded "

  /** The utility classes of each styling, as the template literals spell them out. */
  function StylingClasses(styling: Styling): string {
    match styling
    case BlockLight => BlockBase + "bg-zinc-100"
    case BlockDark => BlockBase + "bg-zinc-800 text-zinc-200"
    case InlineLight => InlineBase + "bg-zinc-100"
    case InlineDark => InlineBase + "bg-zinc-800"
  }

  /** The class text `${className} <classes>` of an attribute: the element's
      own class name, a space, then the styling's classes. */
  function ClassText(attr: ClassAttr): (r: string)
    ensures |attr.own| < |r| && r[..|attr.own|] == attr.own && r[|attr.own|] == ' '
    ensures r[|attr.own| + 1..] == StylingClasses(attr.styling)
  {
    attr.own + " " + StylingClasses(attr.styling)
  }

  /** Different stylings give an element different class text, so the
      `Styling` tag loses nothing of the rendered class attribute. */
  lemma ClassTextInjective(own: string, a: Styling, b: Styling)
    ensures ClassText(ClassAttr(own, a)) == ClassText(ClassAttr(own, b)) ==> a == b
  {
    if ClassText(ClassAttr(own, a)) == ClassText(ClassAttr(own, b)) {
      assert StylingClasses(a) == StylingClasses(b);
      StylingClassesDistinct(a, b);
    }
  }

  lemma StylingClassesDistinct(a: Styling, b: Styling)
    requires StylingClasses(a) == StylingClasses(b)
    ensures a == b
  {
    LengthAndShade(a);
    LengthAndShade(b);
  }

  /** The length of a styling's classes tells block from inline (and the dark
      block from the rest); the digit of its `bg-zinc-…` shade tells light
      from dark. */
  lemma LengthAndShade(styling: Styling)
    ensures var x := StylingClasses(styling);
      && |x| == (if styling.BlockLight? || styling.BlockDark? then |BlockBase| else |InlineBase|)
                + (if styling.BlockDark? then 25 else 11)
      && x[|x| - 3] == (if styling.BlockLight? || styling.InlineLight? then '1'
                        else if styling.BlockDark? then '2' else '8')
  {
  }

  /** The `React.memo` comparator: re-render is skipped when both `children`
      and `mode` are unchanged. */
  predicate SameProps(prev: Props, next: Props): (same: bool)
    ensures same <==> prev == next
  {
    prev.children == next.children && prev.mode == next.mode
  }

  /** The comparator is an equivalence. */
  lemma SamePropsIsEquivalence(a: Props, b: Props, c: Props)
    ensures SameProps(a, a)
    ensures SameProps(a, b) <==> SameProps(b, a)
    ensures SameProps(a, b) && SameProps(b, c) ==> SameProps(a, c)
    ensures SameProps(a, b) <==> a == b
  {
  }

  /** Skipping a re-render is safe: props the comparator calls equal render
      every code element alike. It is not complete: an absent mode and an
      explicit light mode render alike but compare unequal. */
  lemma SamePropsSound(p: Props, q: Props, inline: bool, className: Option<string>)
    ensures SameProps(p, q) ==> RenderCode(inline, className, p.mode) == RenderCode(inline, className, q.mode)
    ensures RenderCode(inline, className, None) == RenderCode(inline, className, Some(Light))
    ensures !SameProps(Props(p.children, None), Props(p.children, Some(Light)))
  {
  }

  /** A class name `language-<lang>` followed by nothing or by a non-word
      character yields exactly `<lang>`. */
  lemma {:induction false} LanguageOfPrefixed(lang: string, rest: string)
    requires |lang| >= 1 && forall k :: 0 <= k < |lang| ==> IsWordChar(lang[k])
    requires rest == [] || !IsWordChar(rest[0])
    ensures LanguageOf(Some(Prefix + lang + rest)) == Some(lang)
  {
    var s := Prefix + lang + rest;
    assert s[..|Prefix|] == Prefix;
    assert MatchesAt(s, 0) by { assert s[|Prefix|] == lang[0]; }
    assert FirstMatch(s, 0) == Some(0);
    WordRunOfPrefix(s, |Prefix|, lang, rest);
    assert s[|Prefix| .. |Prefix| + |lang|] == lang;
  }

  lemma {:induction false} WordRunOfPrefix(s: string, start: nat, lang: string, rest: string)
    requires start + |lang| + |rest| == |s|
    requires s[start..] == lang + rest
    requires forall k :: 0 <= k < |lang| ==> IsWordChar(lang[k])
    requires rest == [] || !IsWordChar(rest[0])
    ensures WordRunLength(s, start) == |lang|
    decreases |lang|
  {
    if |lang| == 0 {
      if rest != [] { assert s[start] == s[start..][0] == rest[0]; }
    } else {
      assert s[start] == s[start..][0] == lang[0];
      assert s[start + 1..] == lang[1..] + rest by {
        assert s[start + 1..] == s[start..][1..];
      }
      WordRunOfPrefix(s, start + 1, lang[1..], rest);
    }
  }
}
