/**
 * The `html` and `css` template tags of tags/index.js.
 *
 * A tagged template literal hands the tag its literal segments `strings`
 * and its interpolated values; `None` stands for `null` or `undefined`.
 * Values are modelled as strings, so JavaScript's `String(value)` is the
 * identity here.
 */
module Tags {
  import opened Wrappers
  import opened Strings

  /** The table `htmlEscapeCodes`: the five characters `html` escapes and their entities. */
  const HtmlEscapeCodes: map<char, string> :=
    map['&' := "&amp;", '<' := "&lt;", '>' := "&gt;", '"' := "&quot;", '\'' := "&#039;"]

  /** A character that the pattern `/&|<|>|"|'/g` matches. */
  predicate IsSpecial(c: char) {
    c in HtmlEscapeCodes
  }

  predicate NoSpecial(s: string) {
    forall i :: 0 <= i < |s| ==> !IsSpecial(s[i])
  }

  /** The replacement the callback `(m) => htmlEscapeCodes[m]` gives one character. */
  function EntityFor(c: char): string {
    if IsSpecial(c) then HtmlEscapeCodes[c] else [c]
  }

  /**
   * `String(value).replace(/&|<|>|"|'/g, ...)`: one left-to-right pass that
   * replaces every special character by its entity and copies the others.
   */
  function EscapeHtml(s: string): (r: string)
    ensures NoSpecial(s) ==> r == s
    ensures !NoSpecial(s) ==> |r| > |s|
    ensures |r| >= |s|
  {
    if |s| == 0 then "" else EntityFor(s[0]) + EscapeHtml(s[1..])
  }

  /** Text that begins with one of the five entities. */
  predicate StartsWithEntity(t: string) {
    exists c :: c in HtmlEscapeCodes && HtmlEscapeCodes[c] <= t
  }

  /**
   * Text that is safe to place between tags or inside a quoted attribute:
   * no `<`, `>`, `"` or `'`, and every `&` opens an entity.
   */
  predicate Safe(t: string) {
    forall i :: 0 <= i < |t| ==>
      t[i] != '<' && t[i] != '>' && t[i] != '"' && t[i] != '\'' &&
      (t[i] == '&' ==> StartsWithEntity(t[i..]))
  }

  /** A decoder for the five entities, the inverse of `EscapeHtml`. */
  function Unescape(t: string): string
    decreases |t|
  {
    if |t| == 0 then ""
    else if t[0] != '&' then [t[0]] + Unescape(t[1..])
    else if "&amp;" <= t then "&" + Unescape(t[5..])
    else if "&lt;" <= t then "<" + Unescape(t[4..])
    else if "&gt;" <= t then ">" + Unescape(t[4..])
    else if "&quot;" <= t then "\"" + Unescape(t[6..])
    else if "&#039;" <= t then "'" + Unescape(t[6..])
    else [t[0]] + Unescape(t[1..])
  }

  /** `null` and `undefined` become the empty string. */
  function Text(val: Option<string>): string {
    val.GetOr("")
  }

  /** A segment that the regular expression `/\$$/` matches. */
  predicate EndsWithSentinel(pre: string) {
    |pre| > 0 && pre[|pre| - 1] == '$'
  }

  /** The segment with the one trailing `$` that `pre.replace(/\$$/, '')` removes. */
  function StripSentinel(pre: string): string {
    if EndsWithSentinel(pre) then pre[..|pre| - 1] else pre
  }

  // ---------------------------------------------------------------------------
  // Escaping, character by character

  /** Escaping works on each character alone: a pass over `a + b` is a pass over `a`, then over `b`. */
  lemma {:induction false} EscapeHtmlAppend(a: string, b: string)
    ensures EscapeHtml(a + b) == EscapeHtml(a) + EscapeHtml(b)
  {
    if |a| == 0 {
      assert a + b == b;
    } else {
      assert (a + b)[0] == a[0];
      assert (a + b)[1..] == a[1..] + b;
      EscapeHtmlAppend(a[1..], b);
    }
  }

  /** Each special character becomes its entity and every other character stays as it is. */
  lemma EscapeHtmlChar(c: char)
    ensures IsSpecial(c) ==> EscapeHtml([c]) == HtmlEscapeCodes[c]
    ensures !IsSpecial(c) ==> EscapeHtml([c]) == [c]
  {
    assert [c][1..] == "";
  }

  lemma EntityIsSafe(c: char)
    ensures Safe(EntityFor(c))
  {
    if IsSpecial(c) {
      var e := HtmlEscapeCodes[c];
      assert e[0..] == e && HtmlEscapeCodes[c] <= e[0..];
      EntityTail(c);
    }
  }

  /** After its opening `&`, an entity holds only letters, digits, `#` and `;`. */
  lemma EntityTail(c: char)
    requires IsSpecial(c)
    ensures forall i :: 1 <= i < |HtmlEscapeCodes[c]| ==>
      var d := HtmlEscapeCodes[c][i]; d == '#' || d == ';' || 'a' <= d <= 'z' || '0' <= d <= '9'
  {
    if c == '&' {
      assert HtmlEscapeCodes[c] == "&amp;";
    } else if c == '<' {
      assert HtmlEscapeCodes[c] == "&lt;";
    } else if c == '>' {
      assert HtmlEscapeCodes[c] == "&gt;";
    } else if c == '"' {
      assert HtmlEscapeCodes[c] == "&quot;";
    } else {
      assert HtmlEscapeCodes[c] == "&#039;";
    }
  }

  lemma {:induction false} SafeAppend(a: string, b: string)
    requires Safe(a) && Safe(b)
    ensures Safe(a + b)
  {
    forall i | 0 <= i < |a + b| && (a + b)[i] == '&'
      ensures StartsWithEntity((a + b)[i..])
    {
      if i < |a| {
        assert (a + b)[i..] == a[i..] + b;
        var c :| c in HtmlEscapeCodes && HtmlEscapeCodes[c] <= a[i..];
        assert HtmlEscapeCodes[c] <= (a + b)[i..];
      } else {
        assert (a + b)[i..] == b[i - |a|..];
        assert b[i - |a|] == '&';
      }
    }
  }

  /** An escaped value holds none of `<`, `>`, `"`, `'`, and each `&` in it opens an entity. */
  lemma {:induction false} EscapedIsSafe(s: string)
    ensures Safe(EscapeHtml(s))
  {
    if |s| > 0 {
      EntityIsSafe(s[0]);
      EscapedIsSafe(s[1..]);
      SafeAppend(EntityFor(s[0]), EscapeHtml(s[1..]));
    }
  }

  lemma UnescapeEntity(c: char, rest: string)
    ensures Unescape(EntityFor(c) + rest) == [c] + Unescape(rest)
  {
    var t := EntityFor(c) + rest;
    if c == '&' {
      assert t[..5] == "&amp;" && t[5..] == rest;
    } else if c == '<' {
      assert t[..4] == "&lt;" && t[4..] == rest;
      assert !("&amp;" <= t) by { assert t[1] == 'l'; }
    } else if c == '>' {
      assert t[..4] == "&gt;" && t[4..] == rest;
      assert !("&amp;" <= t) && !("&lt;" <= t) by { assert t[1] == 'g'; }
    } else if c == '"' {
      assert t[..6] == "&quot;" && t[6..] == rest;
      assert !("&amp;" <= t) && !("&lt;" <= t) && !("&gt;" <= t) by { assert t[1] == 'q'; }
    } else if c == '\'' {
      assert t[..6] == "&#039;" && t[6..] == rest;
      assert !("&amp;" <= t) && !("&lt;" <= t) && !("&gt;" <= t) && !("&quot;" <= t) by {
        assert t[1] == '#';
      }
    } else {
      assert t[0] == c && t[1..] == rest;
    }
  }

  /** Escaping loses nothing: decoding the five entities gives the value back. */
  lemma {:induction false} UnescapeEscape(s: string)
    ensures Unescape(EscapeHtml(s)) == s
  {
    if |s| > 0 {
      UnescapeEntity(s[0], EscapeHtml(s[1..]));
      UnescapeEscape(s[1..]);
      assert s == [s[0]] + s[1..];
    }
  }

  // ---------------------------------------------------------------------------
  // One segment and the value after it

  /** `escape(pre, val)`: one segment and the value after it, as `html` emits them. */
  function Escape(pre: string, val: Option<string>): string {
    if EndsWithSentinel(pre) then pre[..|pre| - 1] + Text(val) else pre + EscapeHtml(Text(val))
  }

  /**
   * The sentinel rule: a segment ending in `$` loses exactly that `$` and is
   * followed by the value unescaped; any other segment is kept verbatim and
   * followed by the value's safe escaped form, from which the value decodes.
   */
  lemma EscapeSegment(pre: string, val: Option<string>)
    ensures EndsWithSentinel(pre) ==> Escape(pre, val) == pre[..|pre| - 1] + Text(val)
    ensures !EndsWithSentinel(pre) ==>
      var r := Escape(pre, val);
      pre <= r && Safe(r[|pre|..]) && Unescape(r[|pre|..]) == Text(val)
  {
    if !EndsWithSentinel(pre) {
      var e := EscapeHtml(Text(val));
      EscapedIsSafe(Text(val));
      UnescapeEscape(Text(val));
      assert (pre + e)[|pre|..] == e;
    }
  }

  /** `combine(pre, val)`: the segment and the value, no escaping and no sentinel. */
  function Combine(pre: string, val: Option<string>): string {
    pre + Text(val)
  }

  /** `values[i]`, which JavaScript reads as `undefined` past the end. */
  function ValueAt(values: seq<Option<string>>, i: nat): Option<string> {
    if i < |values| then values[i] else None
  }

  /** `escape` is `combine` applied to the stripped segment and the prepared value. */
  lemma EscapeAsCombine(pre: string, val: Option<string>)
    ensures Escape(pre, val) ==
      Combine(StripSentinel(pre), Some(if EndsWithSentinel(pre) then Text(val) else EscapeHtml(Text(val))))
  {
  }

  // ---------------------------------------------------------------------------
  // The two tags

  /** What `ret` holds in `html` after `n` rounds of its loop. */
  function HtmlPrefix(strings: seq<string>, values: seq<Option<string>>, n: nat): string
    requires n <= |strings|
  {
    if n == 0 then "" else HtmlPrefix(strings, values, n - 1) + Escape(strings[n - 1], ValueAt(values, n - 1))
  }

  function HtmlText(strings: seq<string>, values: seq<Option<string>>): string {
    HtmlPrefix(strings, values, |strings|)
  }

  /** What `ret` holds in `css` after `n` rounds of its loop. */
  function CssPrefix(strings: seq<string>, values: seq<Option<string>>, n: nat): string
    requires n <= |strings|
  {
    if n == 0 then "" else CssPrefix(strings, values, n - 1) + Combine(strings[n - 1], ValueAt(values, n - 1))
  }

  function CssText(strings: seq<string>, values: seq<Option<string>>): string {
    CssPrefix(strings, values, |strings|)
  }

  /** The `html` tag. */
  method Html(strings: seq<string>, values: seq<Option<string>>) returns (ret: string)
    ensures ret == HtmlText(strings, values)
  {
    ret := "";
    var len := |strings|;
    for i := 0 to len
      invariant ret == HtmlPrefix(strings, values, i)
    {
      var x := strings[i];
      var v := ValueAt(values, i);
      ret := ret + Escape(x, v);
    }
  }

  /** The `css` tag. */
  method Css(strings: seq<string>, values: seq<Option<string>>) returns (ret: string)
    ensures ret == CssText(strings, values)
  {
    ret := "";
    var len := |strings|;
    for i := 0 to len
      invariant ret == CssPrefix(strings, values, i)
    {
      var x := strings[i];
      var v := ValueAt(values, i);
      ret := ret + Combine(x, v);
    }
  }

  // ---------------------------------------------------------------------------
  // Properties of the tags

  /**
   * A template literal as written: `strings[0] + v0 + strings[1] + ... + strings[N]`,
   * with one segment more than values.
   */
  function Interleave(strings: seq<string>, values: seq<Option<string>>): string
    requires |strings| == |values| + 1
    decreases |values|
  {
    if |values| == 0 then strings[0]
    else strings[0] + Text(values[0]) + Interleave(strings[1..], values[1..])
  }

  lemma {:induction false} CssPrefixFront(strings: seq<string>, values: seq<Option<string>>, n: nat)
    requires 1 <= n <= |strings|
    ensures CssPrefix(strings, values, n) ==
      Combine(strings[0], ValueAt(values, 0)) + CssPrefix(strings[1..], if |values| > 0 then values[1..] else [], n - 1)
  {
    if n > 1 {
      CssPrefixFront(strings, values, n - 1);
      assert ValueAt(if |values| > 0 then values[1..] else [], n - 2) == ValueAt(values, n - 1);
    }
  }

  /** `css` is the plain concatenation of segments and values: nothing is escaped and no `$` is removed. */
  lemma {:induction false} CssIsInterleave(strings: seq<string>, values: seq<Option<string>>)
    requires |strings| == |values| + 1
    ensures CssText(strings, values) == Interleave(strings, values)
    decreases |values|
  {
    CssPrefixFront(strings, values, |strings|);
    if |values| > 0 {
      CssIsInterleave(strings[1..], values[1..]);
      assert ValueAt(values, 0) == values[0];
      assert CssText(strings, values) == Combine(strings[0], values[0]) + CssText(strings[1..], values[1..]);
      assert Interleave(strings, values) ==
        strings[0] + Text(values[0]) + Interleave(strings[1..], values[1..]);
    } else {
      assert CssText(strings, values) == Combine(strings[0], None) + "";
    }
  }

  /** The segments as `html` emits them: sentinels removed. */
  function StrippedSegments(strings: seq<string>): (r: seq<string>)
    ensures |r| == |strings|
  {
    seq(|strings|, i requires 0 <= i < |strings| => StripSentinel(strings[i]))
  }

  /** The values as `html` emits them: raw after a sentinel, escaped otherwise. */
  function PreparedValues(strings: seq<string>, values: seq<Option<string>>): (r: seq<Option<string>>)
    ensures |r| == |strings|
  {
    seq(|strings|, i requires 0 <= i < |strings| =>
      Some(if EndsWithSentinel(strings[i]) then Text(ValueAt(values, i)) else EscapeHtml(Text(ValueAt(values, i)))))
  }

  /** `html` and `css` agree on a prefix when they agree round by round. */
  lemma {:induction false} PrefixesAgree(strings: seq<string>, values: seq<Option<string>>,
                                         segments: seq<string>, prepared: seq<Option<string>>, n: nat)
    requires n <= |strings| && n <= |segments|
    requires forall i :: 0 <= i < n ==>
      Escape(strings[i], ValueAt(values, i)) == Combine(segments[i], ValueAt(prepared, i))
    ensures HtmlPrefix(strings, values, n) == CssPrefix(segments, prepared, n)
  {
    if n > 0 {
      PrefixesAgree(strings, values, segments, prepared, n - 1);
      PrefixStep(strings, values, segments, prepared, n);
    }
  }

  /** One more round on each side keeps the prefixes equal. */
  lemma PrefixStep(strings: seq<string>, values: seq<Option<string>>,
                   segments: seq<string>, prepared: seq<Option<string>>, n: nat)
    requires 0 < n <= |strings| && n <= |segments|
    requires HtmlPrefix(strings, values, n - 1) == CssPrefix(segments, prepared, n - 1)
    requires Escape(strings[n - 1], ValueAt(values, n - 1)) == Combine(segments[n - 1], ValueAt(prepared, n - 1))
    ensures HtmlPrefix(strings, values, n) == CssPrefix(segments, prepared, n)
  {
  }

  /** Round `i` of `html` is round `i` of `css` over the stripped segments and prepared values. */
  lemma PreparedAt(strings: seq<string>, values: seq<Option<string>>, i: nat)
    requires i < |strings|
    ensures Escape(strings[i], ValueAt(values, i)) ==
      Combine(StrippedSegments(strings)[i], ValueAt(PreparedValues(strings, values), i))
  {
    EscapeAsCombine(strings[i], ValueAt(values, i));
  }

  /**
   * `html` is `css` applied after the sentinel rule: segments ending in `$`
   * lose it and their value goes in raw, every other value is escaped.
   */
  lemma HtmlIsCssOfPrepared(strings: seq<string>, values: seq<Option<string>>)
    ensures HtmlText(strings, values) == CssText(StrippedSegments(strings), PreparedValues(strings, values))
  {
    forall i | 0 <= i < |strings|
      ensures Escape(strings[i], ValueAt(values, i)) ==
        Combine(StrippedSegments(strings)[i], ValueAt(PreparedValues(strings, values), i))
    {
      PreparedAt(strings, values, i);
    }
    PrefixesAgree(strings, values, StrippedSegments(strings), PreparedValues(strings, values), |strings|);
  }

  lemma EscapeAgreesWithCombine(pre: string, val: Option<string>)
    requires !EndsWithSentinel(pre) && NoSpecial(Text(val))
    ensures Escape(pre, val) == Combine(pre, val)
  {
  }

  /** With no sentinel and no special character in any value, `html` and `css` give the same string. */
  lemma HtmlAgreesWithCss(strings: seq<string>, values: seq<Option<string>>)
    requires forall i :: 0 <= i < |strings| ==> !EndsWithSentinel(strings[i])
    requires forall i :: 0 <= i < |values| ==> NoSpecial(Text(values[i]))
    ensures HtmlText(strings, values) == CssText(strings, values)
  {
    forall i | 0 <= i < |strings|
      ensures Escape(strings[i], ValueAt(values, i)) == Combine(strings[i], ValueAt(values, i))
    {
      EscapeAgreesWithCombine(strings[i], ValueAt(values, i));
    }
    PrefixesAgree(strings, values, strings, values, |strings|);
  }

  lemma {:induction false} LiteralPrefixVerbatim(strings: seq<string>, values: seq<Option<string>>, n: nat)
    requires n <= |strings|
    requires forall i :: 0 <= i < |strings| ==> !EndsWithSentinel(strings[i]) && ValueAt(values, i) == None
    ensures HtmlPrefix(strings, values, n) == Concat(strings[..n])
    ensures CssPrefix(strings, values, n) == Concat(strings[..n])
  {
    if n > 0 {
      LiteralPrefixVerbatim(strings, values, n - 1);
      assert strings[..n] == strings[..n - 1] + [strings[n - 1]];
      ConcatSnoc(strings[..n - 1], strings[n - 1]);
    }
  }

  /**
   * Segments that do not end in `$`, with no value or only `null`/`undefined`
   * values, come out verbatim from both tags.
   */
  lemma LiteralsVerbatim(strings: seq<string>, values: seq<Option<string>>)
    requires forall i :: 0 <= i < |strings| ==> !EndsWithSentinel(strings[i]) && ValueAt(values, i) == None
    ensures HtmlText(strings, values) == Concat(strings)
    ensures CssText(strings, values) == Concat(strings)
  {
    LiteralPrefixVerbatim(strings, values, |strings|);
    assert strings[..|strings|] == strings;
  }

  /** A template with no interpolation: the one segment, minus a final `$`. */
  lemma HtmlSingleSegment(s: string)
    ensures HtmlText([s], []) == StripSentinel(s)
    ensures CssText([s], []) == s
  {
    EscapeAsCombine(s, None);
    assert HtmlText([s], []) == HtmlPrefix([s], [], 0) + Escape(s, ValueAt([], 0));
    assert CssText([s], []) == CssPrefix([s], [], 0) + Combine(s, ValueAt([], 0));
  }

  /**
   * The last segment of a template literal has no value of its own, so a
   * final `$` is simply dropped.
   */
  lemma FinalSentinelDropped(strings: seq<string>, values: seq<Option<string>>)
    requires |strings| == |values| + 1
    requires EndsWithSentinel(strings[|strings| - 1])
    ensures HtmlText(strings, values) ==
      HtmlPrefix(strings, values, |values|) + strings[|values|][..|strings[|values|]| - 1]
  {
  }

  /** A `null` or `undefined` value contributes nothing to either tag. */
  lemma AbsentValueContributesNothing(strings: seq<string>, values: seq<Option<string>>, i: nat)
    requires i < |strings| && ValueAt(values, i) == None
    ensures HtmlPrefix(strings, values, i + 1) == HtmlPrefix(strings, values, i) + StripSentinel(strings[i])
    ensures CssPrefix(strings, values, i + 1) == CssPrefix(strings, values, i) + strings[i]
  {
  }

  // ---------------------------------------------------------------------------
  // The cases of tags/index.test.js

  lemma PlainHtmlExample()
    ensures HtmlText(["<div>hello <span>world</span></div>"], []) == "<div>hello <span>world</span></div>"
  {
    HtmlSingleSegment("<div>hello <span>world</span></div>");
  }

  lemma TwoSegments(a: string, b: string, v: Option<string>)
    ensures HtmlText([a, b], [v]) == Escape(a, v) + Escape(b, None)
    ensures CssText([a, b], [v]) == Combine(a, v) + Combine(b, None)
  {
    assert HtmlPrefix([a, b], [v], 1) == Escape(a, v);
    assert CssPrefix([a, b], [v], 1) == Combine(a, v);
  }

  /** The shape of the escaping case: the value goes in escaped between the two segments. */
  lemma EscapedValueShape(v: string)
    ensures HtmlText(["<div>hello ", "</div>"], [Some(v)]) == "<div>hello " + EscapeHtml(v) + "</div>"
  {
    TwoSegments("<div>hello ", "</div>", Some(v));
    assert !EndsWithSentinel("<div>hello ") && !EndsWithSentinel("</div>");
    assert Escape("</div>", None) == "</div>";
  }

  /** The shape of the `$` case: nested output goes in unescaped and the `$` is gone. */
  lemma RawValueShape(inner: string)
    ensures HtmlText(["<div>hello $", "</div>"], [Some(inner)]) == "<div>hello " + inner + "</div>"
  {
    TwoSegments("<div>hello $", "</div>", Some(inner));
    assert EndsWithSentinel("<div>hello $") && !EndsWithSentinel("</div>");
    assert "<div>hello $"[..|"<div>hello $"| - 1] == "<div>hello ";
    assert Escape("</div>", None) == "</div>";
  }

  /** A plain word between two special characters: the word between their two entities. */
  lemma EscapeBracketed(c: char, word: string, d: char)
    requires IsSpecial(c) && NoSpecial(word) && IsSpecial(d)
    ensures EscapeHtml([c] + word + [d]) == HtmlEscapeCodes[c] + word + HtmlEscapeCodes[d]
  {
    EscapeHtmlAppend([c] + word, [d]);
    EscapeHtmlAppend([c], word);
    EscapeHtmlChar(c);
    EscapeHtmlChar(d);
  }

  // The tests' texts are written below as concatenations of short pieces, and
  // separate lemmas show that the pieces spell out the tests' strings. A single
  // string literal passed to a recursive function such as `EscapeHtml` makes the
  // verifier unroll the function character by character, which costs far more
  // than escaping a few pieces and joining the results.

  /** The escaping test's value `<span>"tom" & 'jerry'</span>`. */
  const TomAndJerry: string :=
    ("<" + "span" + ">") + ("\"" + "tom" + "\"") + (" " + "&" + " ") + ("'" + "jerry" + "'") + ("<" + "/span" + ">")

  lemma TomAndJerryText()
    ensures TomAndJerry == "<span>\"tom\" & 'jerry'</span>"
  {
    assert "<" + "span" + ">" == "<span>";
    assert "<span>" + ("\"" + "tom" + "\"") == "<span>\"tom\"";
    assert "<span>\"tom\"" + (" " + "&" + " ") == "<span>\"tom\" & ";
    assert "<span>\"tom\" & " + ("'" + "jerry" + "'") == "<span>\"tom\" & 'jerry'";
  }

  /** The text `&lt;span&gt;&quot;tom&quot; &amp; &#039;jerry&#039;&lt;/span&gt;`, piece by piece. */
  const EscapedTomAndJerry: string :=
    ("&lt;" + "span" + "&gt;") + ("&quot;" + "tom" + "&quot;") + (" " + "&amp;" + " ") +
    ("&#039;" + "jerry" + "&#039;") + ("&lt;" + "/span" + "&gt;")

  /** Escaping five pieces in a row is escaping each of them. */
  lemma EscapeFive(p1: string, p2: string, p3: string, p4: string, p5: string)
    ensures EscapeHtml(p1 + p2 + p3 + p4 + p5) ==
      EscapeHtml(p1) + EscapeHtml(p2) + EscapeHtml(p3) + EscapeHtml(p4) + EscapeHtml(p5)
  {
    EscapeHtmlAppend(p1 + p2 + p3 + p4, p5);
    EscapeHtmlAppend(p1 + p2 + p3, p4);
    EscapeHtmlAppend(p1 + p2, p3);
    EscapeHtmlAppend(p1, p2);
  }

  lemma EscapeAmpersand()
    ensures EscapeHtml(" " + "&" + " ") == " " + "&amp;" + " "
  {
    EscapeHtmlAppend(" " + "&", " ");
    EscapeHtmlAppend(" ", "&");
    EscapeHtmlChar(' ');
    EscapeHtmlChar('&');
  }

  lemma EscapeSpanOpen()
    ensures EscapeHtml("<" + "span" + ">") == "&lt;" + "span" + "&gt;"
  {
    EscapeBracketed('<', "span", '>');
  }

  lemma EscapeTom()
    ensures EscapeHtml("\"" + "tom" + "\"") == "&quot;" + "tom" + "&quot;"
  {
    EscapeBracketed('"', "tom", '"');
  }

  lemma EscapeJerry()
    ensures EscapeHtml("'" + "jerry" + "'") == "&#039;" + "jerry" + "&#039;"
  {
    EscapeBracketed('\'', "jerry", '\'');
  }

  lemma EscapeSpanClose()
    ensures EscapeHtml("<" + "/span" + ">") == "&lt;" + "/span" + "&gt;"
  {
    EscapeBracketed('<', "/span", '>');
  }

  /** The test's value escapes piece by piece. */
  lemma EscapeTomAndJerryPieces()
    ensures EscapeHtml(TomAndJerry) ==
      EscapeHtml("<" + "span" + ">") + EscapeHtml("\"" + "tom" + "\"") + EscapeHtml(" " + "&" + " ") +
      EscapeHtml("'" + "jerry" + "'") + EscapeHtml("<" + "/span" + ">")
  {
    EscapeFive("<" + "span" + ">", "\"" + "tom" + "\"", " " + "&" + " ", "'" + "jerry" + "'", "<" + "/span" + ">");
  }

  /** Each piece of the test's value escapes on its own, and the escaped pieces join up. */
  lemma EscapeTomAndJerry()
    ensures EscapeHtml(TomAndJerry) == EscapedTomAndJerry
  {
    EscapeTomAndJerryPieces();
    EscapeSpanOpen();
    EscapeTom();
    EscapeAmpersand();
    EscapeJerry();
    EscapeSpanClose();
  }

  /** The expected text of the escaping test, assembled left to right. */
  lemma EscapedPageFront()
    ensures "<div>hello " + ("&lt;" + "span" + "&gt;") + ("&quot;" + "tom" + "&quot;") ==
      "<div>hello &lt;span&gt;&quot;tom&quot;"
  {
    assert "<div>hello " + ("&lt;" + "span" + "&gt;") == "<div>hello &lt;span&gt;";
  }

  lemma EscapedPageMiddle()
    ensures "<div>hello &lt;span&gt;&quot;tom&quot;" + (" " + "&amp;" + " ") + ("&#039;" + "jerry" + "&#039;") ==
      "<div>hello &lt;span&gt;&quot;tom&quot; &amp; &#039;jerry&#039;"
  {
    assert "<div>hello &lt;span&gt;&quot;tom&quot;" + (" " + "&amp;" + " ") ==
      "<div>hello &lt;span&gt;&quot;tom&quot; &amp; ";
  }

  lemma EscapedPageBack()
    ensures "<div>hello &lt;span&gt;&quot;tom&quot; &amp; &#039;jerry&#039;" + ("&lt;" + "/span" + "&gt;") + "</div>" ==
      "<div>hello &lt;span&gt;&quot;tom&quot; &amp; &#039;jerry&#039;&lt;/span&gt;</div>"
  {
    assert "<div>hello &lt;span&gt;&quot;tom&quot; &amp; &#039;jerry&#039;" + ("&lt;" + "/span" + "&gt;") ==
      "<div>hello &lt;span&gt;&quot;tom&quot; &amp; &#039;jerry&#039;&lt;/span&gt;";
  }

  lemma EscapedPageText()
    ensures "<div>hello " + EscapedTomAndJerry + "</div>" ==
      "<div>hello &lt;span&gt;&quot;tom&quot; &amp; &#039;jerry&#039;&lt;/span&gt;</div>"
  {
    EscapedPageFront();
    EscapedPageMiddle();
    EscapedPageBack();
  }

  /** The escaping test: every special character of the value becomes its entity. */
  lemma EscapedValueExample()
    ensures TomAndJerry == "<span>\"tom\" & 'jerry'</span>"
    ensures HtmlText(["<div>hello ", "</div>"], [Some(TomAndJerry)]) ==
      "<div>hello &lt;span&gt;&quot;tom&quot; &amp; &#039;jerry&#039;&lt;/span&gt;</div>"
  {
    TomAndJerryText();
    EscapedValueShape(TomAndJerry);
    EscapeTomAndJerry();
    EscapedPageText();
  }

  /** The `$` test's value `'jerry'`. */
  const Jerry: string := "'" + "jerry" + "'"

  /** The `$` test's inner call, `html` over `<span>"tom" & ${jerry}</span>`. */
  function TomAndJerryHtml(): string {
    HtmlText(["<span>\"tom\" & ", "</span>"], [Some(Jerry)])
  }

  /** The inner call's output, piece by piece. */
  lemma TomAndJerryHtmlPieces()
    ensures TomAndJerryHtml() == "<span>\"tom\" & " + ("&#039;" + "jerry" + "&#039;") + "</span>"
  {
    TwoSegments("<span>\"tom\" & ", "</span>", Some(Jerry));
    assert !EndsWithSentinel("<span>\"tom\" & ") && !EndsWithSentinel("</span>");
    assert Escape("</span>", None) == "</span>";
    EscapeBracketed('\'', "jerry", '\'');
  }

  lemma TomAndJerryHtmlText()
    ensures Jerry == "'jerry'"
    ensures "<span>\"tom\" & " + ("&#039;" + "jerry" + "&#039;") + "</span>" ==
      "<span>\"tom\" & &#039;jerry&#039;</span>"
  {
    assert "<span>\"tom\" & " + ("&#039;" + "jerry" + "&#039;") == "<span>\"tom\" & &#039;jerry&#039;";
  }

  lemma RawPageFront()
    ensures "<div>hello " + "<span>\"tom\" & " + ("&#039;" + "jerry" + "&#039;") ==
      "<div>hello <span>\"tom\" & &#039;jerry&#039;"
  {
    assert "<div>hello " + "<span>\"tom\" & " == "<div>hello <span>\"tom\" & ";
  }

  /** The expected text of the `$` test, assembled left to right. */
  lemma RawPageText()
    ensures "<div>hello " + ("<span>\"tom\" & " + ("&#039;" + "jerry" + "&#039;") + "</span>") + "</div>" ==
      "<div>hello <span>\"tom\" & &#039;jerry&#039;</span></div>"
  {
    RawPageFront();
    assert "<div>hello <span>\"tom\" & &#039;jerry&#039;" + "</span>" ==
      "<div>hello <span>\"tom\" & &#039;jerry&#039;</span>";
  }

  /**
   * The `$` test: the inner `html` call escapes `jerry`, and the outer one
   * drops the `$` and takes the inner output as it is.
   */
  lemma RawValueExample()
    ensures Jerry == "'jerry'"
    ensures TomAndJerryHtml() == "<span>\"tom\" & &#039;jerry&#039;</span>"
    ensures HtmlText(["<div>hello $", "</div>"], [Some(TomAndJerryHtml())]) ==
      "<div>hello <span>\"tom\" & &#039;jerry&#039;</span></div>"
  {
    TomAndJerryHtmlPieces();
    TomAndJerryHtmlText();
    RawValueShape(TomAndJerryHtml());
    RawPageText();
  }

  lemma CssPlainExample()
    ensures CssText(["html body { color: black }"], []) == "html body { color: black }"
  {
    HtmlSingleSegment("html body { color: black }");
  }

  /** The css test's `style`, `{ color: black }`. */
  const Style: string := "{ color: " + "black }"

  lemma StyleText()
    ensures Style == "{ color: black }"
    ensures "html body " + Style == "html body { color: black }"
  {
    assert "html body " + "{ color: " == "html body { color: ";
  }

  /** The css case with a value: the style goes in as it is. */
  lemma CssValueExample()
    ensures Style == "{ color: black }"
    ensures CssText(["html body ", ""], [Some(Style)]) == "html body { color: black }"
  {
    TwoSegments("html body ", "", Some(Style));
    assert Combine("", None) == "";
    StyleText();
  }
}
