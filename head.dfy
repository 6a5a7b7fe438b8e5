/**
 * Head-content assembly and page wrapping of main.js: the module state
 * `headContent` and `htmxToInclude`, the head part of `init`, and `htmx(body)`.
 *
 * A configuration entry is a bare URL or an object; an object is its list of
 * own keys and values in insertion order, which is the order `for..in`
 * visits them. A thrown error is an `InitError`.
 */
module Head {
  import opened Wrappers
  import opened Strings

  type Attribute = (string, string)

  /** `SrcUrl` / `HrefUrl`: a URL string, or an object whose keys become tag attributes. */
  datatype ResourceRef = Url(url: string) | Attrs(attrs: seq<Attribute>)

  /** The four kinds of head entry, in the order `init` emits them. */
  datatype Category = Favicon | Link | Stylesheet | Script

  datatype InitError =
    | InvalidSpec(category: Category, entry: ResourceRef)  // the `throw new Error(...)` of each callback
    | ScriptsNotIterable                                    // spreading an absent `options.js`

  /** `htmxToInclude`: the library script that heads every script list. */
  const HtmxToInclude: ResourceRef := Attrs([
    ("src", "https://unpkg.com/htmx.org@1.9.5/dist/htmx.min.js"),
    ("integrity", "sha384-xcuj3WpfgjlKF+FXhSQFQ0ZNr39ln+hwjN3npfM9VBnUskLolQAcN80McRIVOPuO"),
    ("crossorigin", "anonymous")
  ])

  /** JavaScript truthiness of an entry: the empty string is falsy, every object is truthy. */
  predicate Truthy(r: ResourceRef) {
    r.Url? ==> r.url != ""
  }

  /** `obj[key]`: the value last bound to `key`. */
  function Get(attrs: seq<Attribute>, key: string): Option<string> {
    if |attrs| == 0 then None
    else if attrs[|attrs| - 1].0 == key then Some(attrs[|attrs| - 1].1)
    else Get(attrs[..|attrs| - 1], key)
  }

  /** `obj.key` is truthy: present and not the empty string. */
  predicate HasTruthy(attrs: seq<Attribute>, key: string) {
    Get(attrs, key).Some? && Get(attrs, key).value != ""
  }

  /** The key an object entry of each category must carry. */
  function KeyOf(cat: Category): string {
    match cat
    case Favicon => "href"
    case Link => "rel"
    case Stylesheet => "href"
    case Script => "src"
  }

  /** The callbacks' validation: a URL is accepted except as a link; an object needs its key. */
  predicate Accepts(cat: Category, entry: ResourceRef) {
    match entry
    case Url(_) => cat != Link
    case Attrs(attrs) => HasTruthy(attrs, KeyOf(cat))
  }

  /** One element of `params`: `k="v"`. */
  function AttrText(a: Attribute): string {
    a.0 + "=\"" + a.1 + "\""
  }

  /** The `params` array that the `for..in` loop builds. */
  function Params(attrs: seq<Attribute>): seq<string> {
    seq(|attrs|, i requires 0 <= i < |attrs| => AttrText(attrs[i]))
  }

  /** The tag a URL entry renders as (a URL link is rejected, so its text is never used). */
  function UrlTag(cat: Category, url: string): string {
    match cat
    case Favicon => "<link rel=\"icon\" type=\"image/png\" href=\"" + url + "\"></link>"
    case Link => ""
    case Stylesheet => "<link rel=\"stylesheet\" href=\"" + url + "\"></link>"
    case Script => "<script src=\"" + url + "\"></script>"
  }

  /** The text before the attributes of an object entry. */
  function OpenTag(cat: Category): string {
    match cat
    case Favicon => "<link rel=\"icon\" "
    case Link => "<link "
    case Stylesheet => "<link rel=\"stylesheet\" "
    case Script => "<script "
  }

  /**
   * The text after the attributes of an object entry. The three `<link>`
   * forms carry a stray `"` before `></link>`; the script form does not.
   */
  function CloseTag(cat: Category): string {
    match cat
    case Script => "></script>"
    case _ => "\"></link>"
  }

  /** What the `init` callback for `cat` returns for `entry`, or the error it throws. */
  function Tag(cat: Category, entry: ResourceRef): (r: Result<string, InitError>)
    ensures r.Err? <==> !Accepts(cat, entry)
    ensures r.Err? ==> r.error == InvalidSpec(cat, entry)
  {
    match entry
    case Url(url) =>
      if cat == Link then Err(InvalidSpec(cat, entry)) else Ok(UrlTag(cat, url))
    case Attrs(attrs) =>
      if HasTruthy(attrs, KeyOf(cat)) then
        Ok(OpenTag(cat) + Join(Params(attrs), " ") + CloseTag(cat))
      else
        Err(InvalidSpec(cat, entry))
  }

  /**
   * An accepted object renders as its tag's opening text, a non-empty
   * attribute list (it holds at least the required key) and the closing text.
   */
  lemma TagShape(cat: Category, attrs: seq<Attribute>)
    requires Accepts(cat, Attrs(attrs))
    ensures var r := Tag(cat, Attrs(attrs));
      && r.Ok? && OpenTag(cat) <= r.value && |r.value| > |OpenTag(cat)| + |CloseTag(cat)|
      && r.value[|r.value| - |CloseTag(cat)|..] == CloseTag(cat)
  {
    var attrsText := Join(Params(attrs), " ");
    GetIsListed(attrs, KeyOf(cat));
    var i :| 0 <= i < |attrs| && attrs[i] == (KeyOf(cat), Get(attrs, KeyOf(cat)).value);
    assert |Params(attrs)[i]| > 0;
    JoinNonEmpty(Params(attrs), " ");
    var t := OpenTag(cat) + attrsText + CloseTag(cat);
    assert t[..|OpenTag(cat)|] == OpenTag(cat);
    assert t[|t| - |CloseTag(cat)|..] == CloseTag(cat);
  }

  lemma {:induction false} GetIsListed(attrs: seq<Attribute>, key: string)
    requires Get(attrs, key).Some?
    ensures exists i :: 0 <= i < |attrs| && attrs[i] == (key, Get(attrs, key).value)
  {
    var n := |attrs|;
    if attrs[n - 1].0 != key {
      GetIsListed(attrs[..n - 1], key);
      var i :| 0 <= i < n - 1 && attrs[..n - 1][i] == (key, Get(attrs, key).value);
      assert attrs[i] == (key, Get(attrs, key).value);
    }
  }

  lemma {:induction false} JoinNonEmpty(parts: seq<string>, sep: string)
    requires exists i :: 0 <= i < |parts| && |parts[i]| > 0
    ensures |Join(parts, sep)| > 0
  {
    if |parts| > 1 && |parts[0]| == 0 {
      var i :| 0 <= i < |parts| && |parts[i]| > 0;
      assert parts[1..][i - 1] == parts[i];
      JoinNonEmpty(parts[1..], sep);
    }
  }

  /**
   * The `map` over one category: the tags of all entries, or an error as soon
   * as one entry is rejected, since `map` stops at the first throw.
   */
  function Tags(cat: Category, entries: seq<ResourceRef>): (r: Result<seq<string>, InitError>)
    ensures r.Ok? <==> forall i :: 0 <= i < |entries| ==> Accepts(cat, entries[i])
    ensures r.Ok? ==> |r.value| == |entries|
    decreases |entries|
  {
    if |entries| == 0 then Ok([])
    else
      var n := |entries|;
      var front := entries[..n - 1];
      assert forall i :: 0 <= i < n - 1 ==> front[i] == entries[i];
      match Tags(cat, front)
      case Err(e) => Err(e)
      case Ok(ts) =>
        match Tag(cat, entries[n - 1])
        case Err(e) => Err(e)
        case Ok(t) => Ok(ts + [t])
  }

  /** A successful `map` holds each entry's tag, in the entries' order. */
  lemma {:induction false} TagsInOrder(cat: Category, entries: seq<ResourceRef>)
    requires Tags(cat, entries).Ok?
    ensures forall i :: 0 <= i < |entries| ==> Tag(cat, entries[i]) == Ok(Tags(cat, entries).value[i])
    decreases |entries|
  {
    if |entries| > 0 {
      var n := |entries|;
      var front := entries[..n - 1];
      TagsInOrder(cat, front);
      TagsLast(cat, entries);
      forall i | 0 <= i < n - 1
        ensures Tag(cat, entries[i]) == Ok(Tags(cat, entries).value[i])
      {
        assert entries[i] == front[i];
      }
    }
  }

  /** A successful `map` ends with the last entry's tag. */
  lemma TagsLast(cat: Category, entries: seq<ResourceRef>)
    requires |entries| > 0 && Tags(cat, entries).Ok?
    ensures var n := |entries|;
      && Tags(cat, entries[..n - 1]).Ok?
      && Tags(cat, entries).value == Tags(cat, entries[..n - 1]).value + [Tag(cat, entries[n - 1]).value]
      && Tag(cat, entries[n - 1]) == Ok(Tags(cat, entries).value[n - 1])
  {
  }

  /** The rejected entry that ends the `map` is the first one rejected. */
  lemma {:induction false} TagsFirstError(cat: Category, entries: seq<ResourceRef>, i: nat)
    requires i < |entries| && Tags(cat, entries[..i]).Ok? && !Accepts(cat, entries[i])
    ensures Tags(cat, entries) == Err(InvalidSpec(cat, entries[i]))
    decreases |entries|
  {
    var n := |entries|;
    var front := entries[..n - 1];
    if i < n - 1 {
      assert front[..i] == entries[..i] && front[i] == entries[i];
      TagsFirstError(cat, front, i);
      assert Tags(cat, front).Err?;
    } else {
      assert front == entries[..i];
      var ts := Tags(cat, front);
      assert ts.Ok? && Tag(cat, entries[n - 1]).Err?;
    }
  }

  /**
   * Whenever the `map` fails, its error names an entry that is rejected and
   * that comes after only accepted ones.
   */
  lemma {:induction false} TagsErrorIsFirstRejected(cat: Category, entries: seq<ResourceRef>)
    requires Tags(cat, entries).Err?
    ensures exists k ::
      && 0 <= k < |entries| && !Accepts(cat, entries[k])
      && (forall j :: 0 <= j < k ==> Accepts(cat, entries[j]))
      && Tags(cat, entries).error == InvalidSpec(cat, entries[k])
    decreases |entries|
  {
    var n := |entries|;
    var front := entries[..n - 1];
    if Tags(cat, front).Err? {
      TagsErrorIsFirstRejected(cat, front);
      var k :| && 0 <= k < |front| && !Accepts(cat, front[k])
               && (forall j :: 0 <= j < k ==> Accepts(cat, front[j]))
               && Tags(cat, front).error == InvalidSpec(cat, front[k]);
      assert forall j :: 0 <= j < k ==> front[j] == entries[j];
      assert front[k] == entries[k];
    } else {
      assert forall j :: 0 <= j < n - 1 ==> front[j] == entries[j];
      assert Tags(cat, entries).error == InvalidSpec(cat, entries[n - 1]);
    }
  }

  /** One more accepted entry adds its tag at the end. */
  lemma TagsSnoc(cat: Category, entries: seq<ResourceRef>, i: nat)
    requires i < |entries| && Tags(cat, entries[..i]).Ok? && Accepts(cat, entries[i])
    ensures Tags(cat, entries[..i + 1]) == Ok(Tags(cat, entries[..i]).value + [Tag(cat, entries[i]).value])
  {
    assert entries[..i + 1][..i] == entries[..i];
  }

  /** What one category appends to `headContent`: its tags joined by newlines. */
  function CategoryText(cat: Category, entries: seq<ResourceRef>): Result<string, InitError> {
    match Tags(cat, entries)
    case Ok(ts) => Ok(Join(ts, "\n"))
    case Err(e) => Err(e)
  }

  // ---------------------------------------------------------------------------
  // The callbacks, as the JavaScript code runs them

  /** The `for..in` loop: one `k="v"` per attribute, in insertion order. */
  method AttributeParams(attrs: seq<Attribute>) returns (params: seq<string>)
    ensures |params| == |attrs|
    ensures forall i :: 0 <= i < |attrs| ==> params[i] == attrs[i].0 + "=\"" + attrs[i].1 + "\""
  {
    params := [];
    for i := 0 to |attrs|
      invariant |params| == i
      invariant forall j :: 0 <= j < i ==> params[j] == attrs[j].0 + "=\"" + attrs[j].1 + "\""
    {
      var (k, v) := attrs[i];
      params := params + [k + "=\"" + v + "\""];
    }
  }

  /** One callback of `init`: the tag for `entry`, or the error it throws. */
  method RenderTag(cat: Category, entry: ResourceRef) returns (r: Result<string, InitError>)
    ensures r == Tag(cat, entry)
  {
    match entry
    case Url(url) =>
      if cat == Link {
        r := Err(InvalidSpec(cat, entry));
      } else {
        r := Ok(UrlTag(cat, url));
      }
    case Attrs(attrs) =>
      if HasTruthy(attrs, KeyOf(cat)) {
        var params := AttributeParams(attrs);
        assert params == Params(attrs);
        r := Ok(OpenTag(cat) + Join(params, " ") + CloseTag(cat));
      } else {
        r := Err(InvalidSpec(cat, entry));
      }
  }

  /** `entries.map(callback).join('\n')`. */
  method RenderCategory(cat: Category, entries: seq<ResourceRef>) returns (r: Result<string, InitError>)
    ensures r == CategoryText(cat, entries)
  {
    var tags := [];
    for i := 0 to |entries|
      invariant Tags(cat, entries[..i]) == Ok(tags)
    {
      var t := RenderTag(cat, entries[i]);
      if t.Err? {
        TagsFirstError(cat, entries, i);
        return Err(t.error);
      }
      TagsSnoc(cat, entries, i);
      tags := tags + [t.value];
    }
    assert entries[..|entries|] == entries;
    r := Ok(Join(tags, "\n"));
  }

  // ---------------------------------------------------------------------------
  // The whole head step of `init`

  /** The fields of `options` that `init` reads; `None` is an absent or `undefined` field. */
  datatype Config = Config(
    htmx: Option<ResourceRef>,
    favicon: Option<ResourceRef>,
    link: Option<seq<ResourceRef>>,
    css: Option<seq<ResourceRef>>,
    js: Option<seq<ResourceRef>>)

  /** An optional entry that is present and truthy. */
  predicate Given(o: Option<ResourceRef>) {
    o.Some? && Truthy(o.value)
  }

  /** main.js:189-194: a truthy `htmx` is `unshift`ed into `js`, which is created if absent. */
  function Unshifted(c: Config): Config {
    if Given(c.htmx) then c.(js := Some([c.htmx.value] + c.js.GetOr([]))) else c
  }

  /** The full script list `[htmxToInclude, ...options.js]`, absent when `js` is. */
  function ScriptEntries(js: Option<seq<ResourceRef>>): Option<seq<ResourceRef>> {
    if js.None? then None else Some([HtmxToInclude] + js.value)
  }

  function FaviconStep(favicon: Option<ResourceRef>): Result<string, InitError> {
    if Given(favicon) then Tag(Favicon, favicon.value) else Ok("")
  }

  function ListStep(cat: Category, entries: Option<seq<ResourceRef>>): Result<string, InitError> {
    if entries.Some? then CategoryText(cat, entries.value) else Ok("")
  }

  function ScriptStep(js: Option<seq<ResourceRef>>): Result<string, InitError> {
    match ScriptEntries(js)
    case None => Err(ScriptsNotIterable)
    case Some(entries) => CategoryText(Script, entries)
  }

  /** The four appends of `init`, in the order `init` runs them, for the options after the `unshift`. */
  function Steps(c: Config): seq<Result<string, InitError>> {
    [FaviconStep(c.favicon), ListStep(Link, c.link), ListStep(Stylesheet, c.css), ScriptStep(c.js)]
  }

  /** What a run of `init` appends to `headContent`, and the error that stopped it, if any. */
  datatype Assembly = Assembly(appended: string, error: Option<InitError>)

  /** Running appends in order: each completed one stays, the first failing one ends the run. */
  function Chain(steps: seq<Result<string, InitError>>): Assembly {
    if |steps| == 0 then Assembly("", None)
    else match steps[0]
      case Err(e) => Assembly("", Some(e))
      case Ok(t) =>
        var rest := Chain(steps[1..]);
        Assembly(t + rest.appended, rest.error)
  }

  function Assemble(c: Config): Assembly {
    Chain(Steps(Unshifted(c)))
  }

  predicate AllOk(steps: seq<Result<string, InitError>>) {
    forall i :: 0 <= i < |steps| ==> steps[i].Ok?
  }

  function OkTexts(steps: seq<Result<string, InitError>>): (r: seq<string>)
    requires AllOk(steps)
    ensures |r| == |steps|
  {
    seq(|steps|, i requires 0 <= i < |steps| && AllOk(steps) => steps[i].value)
  }

  /** When every category succeeds, all of them are appended, in order, with no separator. */
  lemma {:induction false} ChainAllOk(steps: seq<Result<string, InitError>>)
    requires AllOk(steps)
    ensures Chain(steps) == Assembly(Concat(OkTexts(steps)), None)
  {
    if |steps| > 0 {
      assert AllOk(steps[1..]) by {
        forall i | 0 <= i < |steps[1..]| ensures steps[1..][i].Ok? {
          assert steps[1..][i] == steps[i + 1];
        }
      }
      ChainAllOk(steps[1..]);
      assert OkTexts(steps)[1..] == OkTexts(steps[1..]);
    }
  }

  /**
   * All or nothing per category: when step `k` is the first to fail, exactly
   * the steps before it have been appended and its error is reported.
   */
  lemma {:induction false} ChainFirstFailure(steps: seq<Result<string, InitError>>, k: nat)
    requires k < |steps| && steps[k].Err?
    requires AllOk(steps[..k])
    ensures Chain(steps) == Assembly(Concat(OkTexts(steps[..k])), Some(steps[k].error))
  {
    if k > 0 {
      var front, tail := steps[..k], steps[1..][..k - 1];
      assert steps[0] == front[0];
      assert tail == front[1..];
      assert AllOk(tail) by {
        forall i | 0 <= i < |tail| ensures tail[i].Ok? {
          assert tail[i] == front[i + 1];
        }
      }
      ChainFirstFailure(steps[1..], k - 1);
      assert OkTexts(steps[..k])[1..] == OkTexts(steps[1..][..k - 1]);
    }
  }

  /** Four appends that all succeed leave their texts in order. */
  lemma FourInOrder(a: Result<string, InitError>, b: Result<string, InitError>,
                    c: Result<string, InitError>, d: Result<string, InitError>)
    requires a.Ok? && b.Ok? && c.Ok? && d.Ok?
    ensures Chain([a, b, c, d]) == Assembly(a.value + b.value + c.value + d.value, None)
  {
    var steps := [a, b, c, d];
    ChainAllOk(steps);
    assert OkTexts(steps) == [a.value, b.value, c.value, d.value];
    ConcatFew(a.value, b.value, c.value, d.value);
  }

  /** Of four appends, the first that fails ends the run and keeps the ones before it. */
  lemma FourStop(a: Result<string, InitError>, b: Result<string, InitError>,
                 c: Result<string, InitError>, d: Result<string, InitError>)
    ensures var s := [a, b, c, d];
      && (a.Err? ==> Chain(s) == Assembly("", Some(a.error)))
      && (a.Ok? && b.Err? ==> Chain(s) == Assembly(a.value, Some(b.error)))
      && (a.Ok? && b.Ok? && c.Err? ==> Chain(s) == Assembly(a.value + b.value, Some(c.error)))
      && (a.Ok? && b.Ok? && c.Ok? && d.Err? ==>
            Chain(s) == Assembly(a.value + b.value + c.value, Some(d.error)))
  {
    var s := [a, b, c, d];
    if a.Err? {
      ChainFirstFailure(s, 0);
      assert OkTexts(s[..0]) == [];
      ConcatFew("", "", "", "");
    } else if b.Err? {
      ChainFirstFailure(s, 1);
      assert OkTexts(s[..1]) == [a.value];
      ConcatFew(a.value, "", "", "");
    } else if c.Err? {
      ChainFirstFailure(s, 2);
      assert OkTexts(s[..2]) == [a.value, b.value];
      ConcatFew(a.value, b.value, "", "");
    } else if d.Err? {
      ChainFirstFailure(s, 3);
      assert OkTexts(s[..3]) == [a.value, b.value, c.value];
      ConcatFew(a.value, b.value, c.value, "");
    }
  }

  /**
   * When nothing fails, the head text is the favicon, link, stylesheet and
   * script texts (the four steps), in that order and with no separator.
   */
  lemma RunInOrder(c: Config)
    requires var s := Steps(c); s[0].Ok? && s[1].Ok? && s[2].Ok? && s[3].Ok?
    ensures var s := Steps(c);
      Chain(s) == Assembly(s[0].value + s[1].value + s[2].value + s[3].value, None)
  {
    var s := Steps(c);
    FourInOrder(s[0], s[1], s[2], s[3]);
  }

  /**
   * All or nothing per category, for the four steps of `init`: the first step
   * that fails ends the run, and exactly the steps before it stay appended.
   */
  lemma RunStopsAtFirstFailure(c: Config)
    ensures var s := Steps(c);
      && (s[0].Err? ==> Chain(s) == Assembly("", Some(s[0].error)))
      && (s[0].Ok? && s[1].Err? ==> Chain(s) == Assembly(s[0].value, Some(s[1].error)))
      && (s[0].Ok? && s[1].Ok? && s[2].Err? ==>
            Chain(s) == Assembly(s[0].value + s[1].value, Some(s[2].error)))
      && (s[0].Ok? && s[1].Ok? && s[2].Ok? && s[3].Err? ==>
            Chain(s) == Assembly(s[0].value + s[1].value + s[2].value, Some(s[3].error)))
  {
    var s := Steps(c);
    FourStop(s[0], s[1], s[2], s[3]);
  }

  /**
   * Scripts are the default library first, then a truthy `htmx`, then the
   * caller's `js`; the list is missing only when both `js` and `htmx` are.
   */
  lemma ScriptOrder(c: Config)
    ensures ScriptEntries(Unshifted(c).js).None? <==> c.js.None? && !Given(c.htmx)
    ensures ScriptEntries(Unshifted(c).js).Some? ==>
      ScriptEntries(Unshifted(c).js).value ==
        [HtmxToInclude] + (if Given(c.htmx) then [c.htmx.value] else []) + c.js.GetOr([])
  {
  }

  /** The default library carries a non-empty `src`, so its callback never throws. */
  lemma DefaultAccepted()
    ensures Accepts(Script, HtmxToInclude)
    ensures Tag(Script, HtmxToInclude).Ok?
  {
    var a := HtmxToInclude.attrs;
    assert a[..2][..1] == [a[0]];
  }

  /** When the scripts are rendered, the default library's tag opens their text. */
  lemma DefaultScriptFirst(c: Config)
    requires ScriptStep(Unshifted(c).js).Ok?
    ensures Tag(Script, HtmxToInclude).Ok?
    ensures Tag(Script, HtmxToInclude).value <= ScriptStep(Unshifted(c).js).value
  {
    DefaultAccepted();
    var entries := ScriptEntries(Unshifted(c).js).value;
    var ts := Tags(Script, entries).value;
    TagsInOrder(Script, entries);
    assert Tag(Script, entries[0]) == Ok(ts[0]);
    JoinFirst(ts, "\n");
  }

  /**
   * A failing script step either finds no list to spread or names a rejected
   * entry of the list after the default library: a truthy `htmx` or an entry
   * of the caller's `js`, never the default itself.
   */
  lemma ScriptErrorNamesCallerEntry(js: Option<seq<ResourceRef>>)
    requires ScriptStep(js).Err?
    ensures js.None? <==> ScriptStep(js).error == ScriptsNotIterable
    ensures js.Some? ==> exists k ::
      && 0 <= k < |js.value| && !Accepts(Script, js.value[k])
      && ScriptStep(js).error == InvalidSpec(Script, js.value[k])
  {
    if js.Some? {
      var entries := [HtmxToInclude] + js.value;
      TagsErrorIsFirstRejected(Script, entries);
      var k :| && 0 <= k < |entries| && !Accepts(Script, entries[k])
               && Tags(Script, entries).error == InvalidSpec(Script, entries[k]);
      DefaultAccepted();
      assert k != 0;
      assert entries[k] == js.value[k - 1];
    }
  }

  // ---------------------------------------------------------------------------
  // The calls of the `init` test

  /**
   * Options with no `js` and no truthy `htmx`, such as `{}`, `{favicon: ...}`,
   * `{link: [...]}` or `{css: [...]}`: `init` always throws, at the spread of
   * `options.js` unless an earlier category throws first. When the earlier
   * categories succeed they stay appended, then `ScriptsNotIterable` is raised
   * (the `init` test expects these calls to succeed).
   */
  lemma NoScriptsFails(c: Config)
    requires !Given(c.htmx) && c.js.None?
    ensures Assemble(c).error.Some?
    ensures var s := Steps(c); s[0].Ok? && s[1].Ok? && s[2].Ok? ==>
      Assemble(c) == Assembly(s[0].value + s[1].value + s[2].value, Some(ScriptsNotIterable))
    ensures c.favicon.None? && c.link.None? && c.css.None? ==>
      Assemble(c) == Assembly("", Some(ScriptsNotIterable))
    ensures c.favicon.Some? && c.favicon.value.Url? && c.favicon.value.url != "" && c.link.None? && c.css.None? ==>
      Assemble(c) == Assembly(UrlTag(Favicon, c.favicon.value.url), Some(ScriptsNotIterable))
  {
    RunStopsAtFirstFailure(c);
  }

  /** `init(app, "", {htmx: "http://example.com"})`: the `unshift` makes the script list. */
  lemma HtmxAloneSucceeds(c: Config)
    requires c == Config(Some(Url("http://example.com")), None, None, None, None)
    ensures Assemble(c).error == None
  {
    var s := Steps(Unshifted(c));
    var entries := [HtmxToInclude, Url("http://example.com")];
    assert Unshifted(c).js == Some([Url("http://example.com")] + []);
    assert [Url("http://example.com")] + [] == [Url("http://example.com")];
    assert [HtmxToInclude] + [Url("http://example.com")] == entries;
    assert ScriptEntries(Unshifted(c).js) == Some(entries);
    assert Accepts(Script, entries[0]) && Accepts(Script, entries[1]);
    RunInOrder(Unshifted(c));
  }

  /** `{favicon: {}}`: a favicon object without `href` throws before anything is appended. */
  lemma FaviconWithoutHrefFails(c: Config)
    requires c.favicon == Some(Attrs([]))
    ensures Assemble(c) == Assembly("", Some(InvalidSpec(Favicon, Attrs([]))))
  {
    RunStopsAtFirstFailure(Unshifted(c));
  }

  /** `{link: [{}]}` and `{css: [{}]}`: an object without its key throws, and nothing is appended. */
  lemma ListEntryWithoutKeyFails(c: Config)
    requires c.favicon.None?
    ensures c.link == Some([Attrs([])]) ==>
      Assemble(c) == Assembly("", Some(InvalidSpec(Link, Attrs([]))))
    ensures c.link.None? && c.css == Some([Attrs([])]) ==>
      Assemble(c) == Assembly("", Some(InvalidSpec(Stylesheet, Attrs([]))))
  {
    RunStopsAtFirstFailure(Unshifted(c));
    assert Tags(Link, [Attrs([])]).Err?;
    assert Tags(Stylesheet, [Attrs([])]).Err?;
  }

  /** `{js: [{}]}`: the default library is accepted, the object without `src` throws. */
  lemma ScriptWithoutSrcFails(c: Config)
    requires c == Config(None, None, None, None, Some([Attrs([])]))
    ensures Assemble(c) == Assembly("", Some(InvalidSpec(Script, Attrs([]))))
  {
    var entries := [HtmxToInclude, Attrs([])];
    assert [HtmxToInclude] + [Attrs([])] == entries;
    assert ScriptEntries(c.js) == Some(entries);
    assert Accepts(Script, entries[0]);
    TagsFirstError(Script, entries, 1);
    RunStopsAtFirstFailure(c);
  }

  // ---------------------------------------------------------------------------
  // The process-wide state

  /** The `options` object; `init` writes back only its `js` field. */
  class Options {
    const htmx: Option<ResourceRef>
    const favicon: Option<ResourceRef>
    const link: Option<seq<ResourceRef>>
    const css: Option<seq<ResourceRef>>
    var js: Option<seq<ResourceRef>>

    constructor (c: Config)
      ensures Value() == c
    {
      htmx, favicon, link, css, js := c.htmx, c.favicon, c.link, c.css, c.js;
    }

    function Value(): Config
      reads this
    {
      Config(htmx, favicon, link, css, js)
    }
  }

  const PageOpen: string := "<html>\n<head>\n"
  const PageMid: string := "\n</head>\n<body>"
  const PageClose: string := "</body>\n</html>\n"

  /** The module-level `headContent`, which `init` appends to and `htmx(body)` reads. */
  class HeadBuilder {
    var headContent: string

    constructor ()
      ensures headContent == ""
    {
      headContent := "";
    }

    /**
     * `htmx(body)`: the page shell. The head content and the body sit verbatim
     * at fixed places, between the fixed opening, middle and closing text.
     */
    function Page(body: string): (page: string)
      reads this
      ensures |page| == |PageOpen| + |headContent| + |PageMid| + |body| + |PageClose|
      ensures page[..|PageOpen|] == PageOpen
      ensures page[|PageOpen|..|PageOpen| + |headContent|] == headContent
      ensures page[|PageOpen| + |headContent|..|PageOpen| + |headContent| + |PageMid|] == PageMid
      ensures page[|page| - |PageClose| - |body|..|page| - |PageClose|] == body
      ensures page[|page| - |PageClose|..] == PageClose
    {
      PageOpen + headContent + PageMid + body + PageClose
    }

    /**
     * The head part of `init(app, componentsDir, options)`: a falsy `options`
     * changes nothing; otherwise `options.js` receives the `unshift`, and each
     * category that succeeds is appended before the next one is tried.
     */
    method Init(options: Options?) returns (err: Option<InitError>)
      modifies this, options
      ensures old(headContent) <= headContent
      ensures options == null ==> headContent == old(headContent) && err == None
      ensures options != null ==> options.Value() == Unshifted(old(options.Value()))
      ensures options != null ==>
        headContent == old(headContent) + Assemble(old(options.Value())).appended &&
        err == Assemble(old(options.Value())).error
    {
      err := None;
      if options == null {
        return;
      }
      Unshift(options);
      err := AppendHead(options.Value());
    }

    /** main.js:189-194: a truthy `htmx` goes to the front of `options.js`, which is created if absent. */
    static method Unshift(options: Options)
      modifies options
      ensures options.Value() == Unshifted(old(options.Value()))
    {
      if options.htmx.Some? && Truthy(options.htmx.value) {
        if options.js.None? {
          options.js := Some([]);
        }
        options.js := Some([options.htmx.value] + options.js.value);
      }
    }

    /** main.js:195-260: the four appends, each one all or nothing, stopping at the first error. */
    method AppendHead(c: Config) returns (err: Option<InitError>)
      modifies this
      ensures headContent == old(headContent) + Chain(Steps(c)).appended
      ensures err == Chain(Steps(c)).error
    {
      ghost var steps := Steps(c);
      ghost var start := headContent;
      RunStopsAtFirstFailure(c);
      err := None;

      var r0 := AppendFavicon(c.favicon);
      if r0.Err? {
        err := Some(r0.error);
        return;
      }
      var r1 := AppendList(Link, c.link);
      if r1.Err? {
        err := Some(r1.error);
        return;
      }
      AppendAssoc(start, r0.value, r1.value);
      var r2 := AppendList(Stylesheet, c.css);
      if r2.Err? {
        err := Some(r2.error);
        return;
      }
      AppendAssoc(start, r0.value + r1.value, r2.value);
      var r3 := AppendScripts(c.js);
      if r3.Err? {
        err := Some(r3.error);
        return;
      }
      AppendAssoc(start, r0.value + r1.value + r2.value, r3.value);
      RunInOrder(c);
    }

    /** main.js:195-209: the favicon, when one is given. */
    method AppendFavicon(favicon: Option<ResourceRef>) returns (r: Result<string, InitError>)
      modifies this
      ensures r == FaviconStep(favicon)
      ensures headContent == old(headContent) + (if r.Ok? then r.value else "")
    {
      r := Ok("");
      if favicon.Some? && Truthy(favicon.value) {
        r := RenderTag(Favicon, favicon.value);
        if r.Ok? {
          headContent := headContent + r.value;
        }
      }
    }

    /** main.js:210-243: the links or the stylesheets, when the list is given. */
    method AppendList(cat: Category, entries: Option<seq<ResourceRef>>) returns (r: Result<string, InitError>)
      modifies this
      ensures r == ListStep(cat, entries)
      ensures headContent == old(headContent) + (if r.Ok? then r.value else "")
    {
      r := Ok("");
      if entries.Some? {
        r := RenderCategory(cat, entries.value);
        if r.Ok? {
          headContent := headContent + r.value;
        }
      }
    }

    /** main.js:244-260: the scripts, after the default library; spreading an absent `js` throws. */
    method AppendScripts(js: Option<seq<ResourceRef>>) returns (r: Result<string, InitError>)
      modifies this
      ensures r == ScriptStep(js)
      ensures headContent == old(headContent) + (if r.Ok? then r.value else "")
    {
      if js.None? {
        return Err(ScriptsNotIterable);
      }
      r := RenderCategory(Script, [HtmxToInclude] + js.value);
      if r.Ok? {
        headContent := headContent + r.value;
      }
    }
  }

  // ---------------------------------------------------------------------------
  // Repeated calls

  /**
   * Without a truthy `htmx`, `init` leaves the options as they were, so a
   * second call with the same object appends the same text once more.
   */
  lemma RepeatWithoutHtmx(c: Config)
    requires !Given(c.htmx)
    ensures Unshifted(c) == c
    ensures Assemble(Unshifted(c)) == Assemble(c)
  {
  }

  /** With a truthy `htmx`, each call to `init` with the same object adds it to `js` again. */
  lemma RepeatWithHtmx(c: Config)
    requires Given(c.htmx)
    ensures Unshifted(Unshifted(c)).js == Some([c.htmx.value, c.htmx.value] + c.js.GetOr([]))
  {
    var h := c.htmx.value;
    assert [h] + ([h] + c.js.GetOr([])) == [h, h] + c.js.GetOr([]);
  }

  /** Two calls with the same options and no `htmx`: the head text is duplicated. */
  method InitTwice(builder: HeadBuilder, options: Options)
    requires !Given(options.htmx)
    modifies builder, options
    ensures var a := Assemble(old(options.Value()));
      builder.headContent == old(builder.headContent) + a.appended + a.appended
  {
    ghost var c := options.Value();
    var _ := builder.Init(options);
    RepeatWithoutHtmx(c);
    var _ := builder.Init(options);
  }
}
