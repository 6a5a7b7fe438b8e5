# express-htmx-components, modelled in Dafny

This project models the core of express-htmx-components. That library lets an
Express application serve HTML components for htmx. The model covers three
parts:

- **The template tags** (`tags/index.js`), in module `Tags` (`tags.dfy`).
  `html` concatenates the literal segments of a tagged template with its
  values. Each value is HTML-escaped through the `htmlEscapeCodes` table,
  except a value that follows a segment ending in `$`. That `$` is removed
  and the value goes in raw. `css` concatenates segments and values verbatim.
  `null` and `undefined` values contribute nothing to either tag.
- **The page head** (`main.js`), in module `Head` (`head.dfy`):
  - The fields:
    - `headContent` is a field of the class `HeadBuilder`.
    - `htmxToInclude` is a constant.
  - `init` (the head part) first unshifts a truthy `options.htmx` into
    `options.js`. The `options` object is the class `Options`, and its `js`
    field is the one `init` writes. Then `init` appends four things to
    `headContent`, in order: the favicon, the links, the stylesheets and the
    scripts.
  - Each category is computed in full before it is appended. The first entry
    that is rejected throws, so a failing category appends nothing. The
    categories before it stay appended.
  - `htmx(body)` wraps `headContent` and a body in the page shell.
- **The props merge** of `makeComponent` (`main.js`), in module `Props`
  (`props.dfy`). The request body, route parameters and query string are
  spread in that order. Then `session` is set and, for `use` routes,
  `method`.

`wrappers.dfy` holds `Option` and `Result`. `strings.dfy` models
concatenation over many pieces and `Array.prototype.join`.

How JavaScript values are modelled:

- A configuration entry (`ResourceRef`) is either a URL string or an object.
- An object is its own keys and values in insertion order. That is the order
  its `for..in` loop visits them.
- `obj.key` reads the last binding of `key`.
- Truthiness follows JavaScript:
  - the empty string is falsy;
  - every object is truthy;
  - an attribute is truthy when it is present and non-empty.
- A thrown error is an `InitError` value:
  - `InvalidSpec(category, entry)` is the `throw new Error(...)` of each
    callback;
  - `ScriptsNotIterable` is the `TypeError` of spreading an absent
    `options.js`.

Where the code and its tests disagree, the model follows the code:

- `init` throws for every `options` value that has no `js` and no truthy
  `htmx`. It throws at `main.js:244`, where `[htmxToInclude, ...options.js]`
  spreads `undefined`, unless an earlier category throws first (a favicon,
  link or stylesheet object the callback rejects, `main.js:207`, `:220`,
  `:239`). Yet `__tests__/init.test.js:31`, `:33`, `:34`, `:36` and
  `:38-40` make such calls (`{}`, a favicon, links, stylesheets) expecting
  success. `Head.NoScriptsFails` states what the code does: an error always
  results, and when the earlier categories succeed they stay appended, then
  `ScriptsNotIterable` is raised.
- The object forms of the favicon, link and stylesheet tags end in
  `"></link>`, a stray quote after the last attribute (`main.js:204`,
  `main.js:217`, `main.js:236`). The script form ends in `></script>`.
  `Head.CloseTag` keeps these texts as the code writes them.

## Model

| member | source | states |
|---|---|---|
| Tags.EscapeHtml | tags/index.js:31-32 | text with no special character is unchanged; otherwise escaping makes it strictly longer; never shorter |
| Tags.EscapeHtmlChar | tags/index.js:3-9 | each of `& < > " '` becomes its table entity, every other character stays itself |
| Tags.EscapeHtmlAppend | tags/index.js:31-32 | the global replace works character by character: escaping `a + b` is escaping `a` then `b` |
| Tags.EntityIsSafe | tags/index.js:3-9 | every replacement the table gives is safe text |
| Tags.EscapedIsSafe | tags/index.js:31-32 | an escaped value holds no `<`, `>`, `"`, `'`, and every `&` in it starts one of the five entities |
| Tags.UnescapeEscape | tags/index.js:31-32 | escaping loses nothing: decoding the five entities gives the original value back |
| Tags.EscapeSegment | tags/index.js:21-33 | a segment ending in `$` loses exactly that `$` and is followed by the value raw; any other segment is kept whole and followed by safe text that decodes to the value (`null`/`undefined` as empty) |
| Tags.EscapeAsCombine | tags/index.js:11-33 | `escape` is `combine` of the stripped segment and the raw-or-escaped value |
| Tags.Html | tags/index.js:35-47 | the loop computes the `html` text of its segments and values, reading `undefined` past the last value |
| Tags.Css | tags/index.js:49-61 | the loop computes the `css` text of its segments and values |
| Tags.CssIsInterleave | tags/index.js:49-61 | for a template literal (one segment more than values), `css` is segment, value, segment, …, segment, with nothing escaped or removed |
| Tags.HtmlIsCssOfPrepared | tags/index.js:35-47 | `html` is `css` over segments with their final `$` removed and values raw after a `$`, escaped elsewhere |
| Tags.HtmlAgreesWithCss | tags/index.js:21-61 | with no `$` sentinel and no special character in any value, `html` and `css` give the same text |
| Tags.LiteralsVerbatim | tags/index.js:35-61 | segments without sentinels and with only absent values come out of both tags concatenated verbatim |
| Tags.HtmlSingleSegment | tags/index.js:28-30 | a template without interpolation gives its segment, minus a final `$` in `html` |
| Tags.FinalSentinelDropped | tags/index.js:40-43 | the last segment reads `values[len-1]` as `undefined`, so its final `$` is simply dropped |
| Tags.AbsentValueContributesNothing | tags/index.js:14-16 | a `null`/`undefined` value adds nothing beyond its segment, in both tags |
| Tags.PlainHtmlExample | tags/index.test.js:3-6 | plain markup passes through `html` unchanged |
| Tags.EscapedValueExample | tags/index.test.js:8-13 | `html` over `<div>hello ${tomAndJerry}</div>` with the test's value gives exactly the test's escaped text |
| Tags.RawValueExample | tags/index.test.js:15-21 | the inner `html` call gives `<span>"tom" & &#039;jerry&#039;</span>`, and the outer `$` call gives exactly the test's expected text |
| Tags.CssPlainExample | tags/index.test.js:23-26 | plain text passes through `css` unchanged |
| Tags.CssValueExample | tags/index.test.js:28-33 | `css` over `html body ${style}` with the test's style gives exactly `html body { color: black }` |
| Head.Tag | main.js:196-258 | a callback throws exactly when the entry is rejected (a URL given as a link; an object without its `href`, `rel`, `href` or `src`), and the error names that entry |
| Head.TagShape | main.js:199-204 | an accepted object renders as its tag's opening text, a non-empty attribute list and the closing text (`"></link>` for links, `></script>` for scripts) |
| Head.Tags | main.js:211-222 | the `map` succeeds exactly when every entry is accepted, with one tag per entry |
| Head.TagsInOrder | main.js:211-222 | a successful `map` holds each entry's tag, in the entries' order |
| Head.TagsErrorIsFirstRejected | main.js:211-222 | a failing `map` names a rejected entry that comes after only accepted ones |
| Head.TagsFirstError | main.js:211-222 | when the entries before `i` are accepted and entry `i` is rejected, the `map` fails naming entry `i` |
| Head.AttributeParams | main.js:201-204 | the `for..in` loop gives one `k="v"` per attribute, in insertion order |
| Head.RenderTag | main.js:196-258 | the callback computes the tag of the entry, or its error |
| Head.RenderCategory | main.js:225-243 | the `map` loop, stopping at the first throw, then `join('\n')`, gives the category text or the first entry's error |
| Head.ChainAllOk | main.js:195-260 | when every append succeeds, the head text is their texts concatenated in order |
| Head.ChainFirstFailure | main.js:195-260 | when append `k` is the first to fail, exactly the appends before it are kept and its error is reported |
| Head.RunInOrder | main.js:195-260 | without errors, the head gets favicon, links, stylesheets, scripts, in that order and with no separator |
| Head.RunStopsAtFirstFailure | main.js:195-260 | for each of the four categories, its failure keeps exactly the earlier categories and reports its error |
| Head.ScriptOrder | main.js:189-244 | the script list is `htmxToInclude`, then a truthy `htmx`, then the caller's `js`; it is missing exactly when both `js` and `htmx` are |
| Head.DefaultAccepted | main.js:7-11 | the default library has a non-empty `src`, so its callback never throws |
| Head.DefaultScriptFirst | main.js:244-258 | when the scripts are rendered, the default library's tag opens their text |
| Head.ScriptErrorNamesCallerEntry | main.js:244-258 | a failing script step is `ScriptsNotIterable` exactly when `js` is absent; otherwise it names a rejected entry of the unshifted `js`, never the default library |
| Head.NoScriptsFails | main.js:244 | with no `js` and no truthy `htmx`, `init` always raises an error; when the favicon, links and stylesheets succeed it keeps their text and raises `ScriptsNotIterable` |
| Head.HtmxAloneSucceeds | __tests__/init.test.js:32 | `{htmx: "http://example.com"}` completes without error |
| Head.FaviconWithoutHrefFails | __tests__/init.test.js:35 | a favicon object without `href` throws before anything is appended |
| Head.ListEntryWithoutKeyFails | __tests__/init.test.js:37-41 | a link without `rel`, or a stylesheet object without `href`, throws and nothing is appended |
| Head.ScriptWithoutSrcFails | __tests__/init.test.js:45 | a script object without `src` throws and nothing is appended |
| Head.HeadBuilder.constructor | main.js:6 | `headContent` starts empty |
| Head.HeadBuilder.Page | main.js:13-21 | the page is the fixed opening, the head content, the fixed middle, the body and the fixed closing, each at its offset |
| Head.HeadBuilder.Init | main.js:188-261 | `headContent` only grows; a null `options` changes nothing; otherwise `js` receives the unshift and the head gains the assembled text, reporting the first error |
| Head.HeadBuilder.Unshift | main.js:189-194 | a truthy `htmx` goes to the front of `js`, which is created when absent |
| Head.HeadBuilder.AppendHead | main.js:195-260 | the four steps append exactly the text of the successful categories before the first failure |
| Head.HeadBuilder.AppendFavicon | main.js:195-209 | a truthy favicon's tag is appended, a falsy one is skipped; a rejected one appends nothing |
| Head.HeadBuilder.AppendList | main.js:210-243 | a given list's joined tags are appended; a rejected entry appends nothing |
| Head.HeadBuilder.AppendScripts | main.js:244-260 | the default library's tag, then the `js` entries' tags, joined by `\n`, are appended; an absent `js` raises `ScriptsNotIterable` |
| Head.RepeatWithoutHtmx | main.js:188-194 | without a truthy `htmx`, `init` leaves the options as they were |
| Head.RepeatWithHtmx | main.js:189-194 | each call with a truthy `htmx` unshifts it into `js` once more |
| Head.InitTwice | main.js:188-261 | two calls with the same options and no `htmx` append the same head text twice |
| Props.MergeProps | main.js:79-98 | the keys are those of body, params and query plus `session` (and `method` for `use`); `session` and `method` hold the values set last; every other key takes query over params over body |
| Props.MethodOnlyForUse | main.js:96-98 | on a route other than `use`, `method` is present only when the request carries it, with the request's value |
| Props.SessionNotOverridable | main.js:79-94 | the props are the same as if no request field carried a `session` key: the body, parameters or query cannot override the session |
| Props.HelloFromQueryOrBody | __tests__/main.test.js:223-246 | on a `use` route a query field and a body field both reach the component |

## Left out

- Express routing: the handler registration in `makeComponent` (`route[method](...)`, `res.send`, `headersSent`, `next(err)`) and the `get`/`post`/`put`/`patch`/`del`/`use` wrappers. These are framework plumbing.
- `saveSession` and the `hx` helpers (`redirect`, `set`, `get`). They work through external response and session objects. `hx.get` also refers to an undefined `v`.
- Component discovery through `find.eachfile` and `require`, and `app.use` of the router. These are file-system and module-loading I/O.
- `main.d.ts` and `__mocks__/find.js`: types and test scaffolding, with no logic.
- Values are strings: JavaScript's `String(value)` coercion of numbers, arrays and other objects is not modelled. A `null` or `undefined` entry in a configuration list is not modelled either (reading its property throws a `TypeError`).
- `for..in` order is taken to be insertion order. JavaScript visits integer-like keys first and also visits inherited enumerable keys.
- An object is a list of bindings. A repeated key keeps its first position and its last value in JavaScript; the model emits every binding. Only `Get` reads the last one.
- The text of the error messages: an error is its kind and the entry it names.
- The `async` handler and concurrent requests: `init` and the handler are modelled as single, uninterrupted calls.
- Head.HeadBuilder.Unshift: `options.js.unshift(...)` updates the caller's array in place. The model keeps `js` as a sequence in the `Options` object, so the update is seen only through that object. Another reference to the same array, such as a second options object sharing `js`, is not modelled.
- Head.HtmxAloneSucceeds: states only that no error is raised, not the script text appended.
