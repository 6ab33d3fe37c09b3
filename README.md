# RemexHtml tree-builder pieces, modelled in Dafny

This project models three small parts of RemexHtml, an HTML5 parser written in PHP:

- **The "before html" insertion mode** of the balancing tree builder (section 8.2.5.4.2 of the
  W3C HTML5 Recommendation). This is `Balancer.BeforeHtml` in `before_html.dfy`. The handler's
  collaborators are the balancer and the dispatcher. They are represented by an event log of
  the calls the handler makes on them:
  - `Insert` is the balancer's `startTag`.
  - `Error` is the balancer's `error`.
  - `SwitchMode` is the dispatcher's `switchMode`.
  - `Replay` is the same token handed on to the handler that `switchMode` returned.

  A `mode` field stands for the dispatcher's current mode. The class invariant `Valid()` says
  that `mode` is the mode that the logged switches lead to. Each handler method is proved to
  append exactly the events of a specification function (`CharactersEvents`, `StartTagEvents`,
  `EndTagEvents`). Lemmas then state what those sequences are.
- **The fast serializer formatter** (`Serializer` in `fast_formatter.dfy`). Each operation is
  a string function. `element` keeps its accumulation loop as the method `Element`, which is
  proved equal to the specification `ElementText`.
- **The dispatch tracer** (`TreeBuilder` in `dispatch_tracer.dfy`). It has two pure string
  helpers: `Excerpt`, and `HandlerName` (the source's `getHandlerName`). The class
  `DispatchTracer` keeps one ordered log, `steps`, of what it does: a `Line` for each message
  passed to the trace callback and a `Forwarded` step for each call made on the dispatcher. So
  the contracts state the order of tracing and forwarding. The `Dispatcher` records the calls
  it receives and holds the class name of its current handler.

`php.dfy` holds the PHP built-ins these rely on (`substr` and `strrpos`) and the tokenizer's
attribute type. `Option`'s `None` stands for PHP's `null`, except in `Strrpos`, where it
stands for the `false` that `strrpos` returns when the byte is absent.

Strings are `seq<char>`, and each `char` stands for one byte of a PHP byte string. Source
offsets and lengths are `nat`, because the tokenizer never passes negative ones.

## Model

| member | source | states |
|---|---|---|
| `Php.Substr` | src/Serializer/FastFormatter.php:22 | the result holds at most `length` bytes of `s`, taken from `start` on, and stops early only at the end of `s` |
| `Php.Strrpos` | src/TreeBuilder/DispatchTracer.php:43 | `None` (PHP's `false`) exactly when the byte does not occur; otherwise a position holding the byte with no occurrence after it |
| `Balancer.WhitespaceSpan` | src/Balancer/BeforeHtml.php:10 | the length of the longest prefix made only of tab, LF, FF, CR and space |
| `Balancer.WhitespaceRunIgnored` | src/Balancer/BeforeHtml.php:10-14 | a character run produces no call at all (no insert, no switch, no replay) if and only if it is entirely whitespace |
| `Balancer.NonWhitespaceRunReplayed` | src/Balancer/BeforeHtml.php:10-19 | a run with other content gives exactly: one implied `html` insert (empty attributes, not self-closing, source length 0), then the switch to BEFORE_HEAD, then a replay. The replayed run drops only the leading whitespace: it starts at `start + ws`, ends where the original ended, starts with a non-whitespace byte, and keeps sourceStart/sourceLength |
| `Balancer.RejectedEndTag` | src/Balancer/BeforeHtml.php:34-37 | an end tag other than head, body, html or br yields exactly one error "end tag not allowed before html" at sourceStart, and the mode does not change |
| `Balancer.AllowedEndTagReplayed` | src/Balancer/BeforeHtml.php:39-41 | an allowed end tag yields the implied `html` insert, the switch to BEFORE_HEAD and a replay of the same end tag with the same offsets |
| `Balancer.OtherStartTagInserted` | src/Balancer/BeforeHtml.php:23-25 | a start tag other than `html` is inserted with its own attributes, flag and offsets, then the mode switches to BEFORE_HEAD, and nothing is replayed |
| `Balancer.HtmlStartTagReplayed` | src/Balancer/BeforeHtml.php:26-29 | a start tag `html` inserts a plain `html` (empty attributes, length 0), switches to BEFORE_HEAD and replays the original tag, attributes included |
| `Balancer.ModeAfterHandling` | src/Balancer/BeforeHtml.php:8-42 | after any token the mode is BEFORE_HEAD, except for a whitespace-only run or a rejected end tag, which leave it as it was; every replay comes right after the switch to BEFORE_HEAD |
| `Balancer.ReplayReachesBeforeHead` | src/Balancer/BeforeHtml.php:17-41 | from any starting mode, a replay happens exactly for a run with non-whitespace content, a start tag `html` and an allowed end tag. It is the handler's last call, it is made once the mode is BEFORE_HEAD, and it hands on a token of the kind received |
| `Balancer.ModeAfterAppend` | src/Balancer/BeforeHtml.php:18-40 | the mode after two event sequences is the mode after the first, continued by the second (the last switch wins) |
| `Balancer.BeforeHtml.Characters` | src/Balancer/BeforeHtml.php:8-20 | appends exactly `CharactersEvents` to the log and keeps the invariant that the mode is the one the logged switches lead to |
| `Balancer.BeforeHtml.StartTag` | src/Balancer/BeforeHtml.php:22-31 | appends exactly `StartTagEvents`; the mode afterwards is BEFORE_HEAD |
| `Balancer.BeforeHtml.EndTag` | src/Balancer/BeforeHtml.php:33-42 | appends exactly `EndTagEvents`; the mode becomes BEFORE_HEAD for an allowed tag and is unchanged otherwise |
| `Serializer.StartDocument` | src/Serializer/FastFormatter.php:10-16 | the output is non-empty exactly when the fragment namespace is null, and then it is `<!DOCTYPE html>\n` |
| `Serializer.Doctype` | src/Serializer/FastFormatter.php:18-19 | a doctype produces no output |
| `Serializer.Characters` | src/Serializer/FastFormatter.php:21-23 | in bounds, the output is exactly the `length` bytes of `text` from `start`; it is never longer than `length` |
| `Serializer.Element` | src/Serializer/FastFormatter.php:25-36 | the attribute loop builds exactly `ElementText(name, attrs, contents)`. That value does not involve the namespace argument |
| `Serializer.AttributesTextAppend` | src/Serializer/FastFormatter.php:27-29 | attributes are written in `getValues()` order, each independently: the text for `a + b` is the text for `a` followed by the text for `b` |
| `Serializer.AttributesTextFirst` | src/Serializer/FastFormatter.php:27-29 | the first attribute is written first, as ` name="value"`, before the others |
| `Serializer.AttributesTextLength` | src/Serializer/FastFormatter.php:27-29 | the attribute text is empty exactly when there are no attributes. Its length is the sum of name and value lengths plus four per attribute, so nothing is escaped or added |
| `Serializer.SelfClosingElement` | src/Serializer/FastFormatter.php:26-31 | with null contents the output is `<name`, then the attribute text, then `/>` |
| `Serializer.ElementWithContents` | src/Serializer/FastFormatter.php:26-33 | with contents the output starts with `<name` and ends with `</name>`. The contents follow the start tag's `>` and can be read back from that position |
| `Serializer.Comment` | src/Serializer/FastFormatter.php:38-40 | a comment is `<!--`, the text and `-->`, and stripping the first four and last three bytes gives the text back |
| `Serializer.CommentInjective` | src/Serializer/FastFormatter.php:38-40 | two different comment texts never give the same output |
| `TreeBuilder.EscapeNewlines` | src/TreeBuilder/DispatchTracer.php:26 | the result has no line feed and is between one and two times the input's length |
| `TreeBuilder.EscapeNewlinesRoundTrip` | src/TreeBuilder/DispatchTracer.php:26 | on text without backslashes, reading `\n` back as a line feed undoes the escaping |
| `TreeBuilder.EscapeNewlinesIdentity` | src/TreeBuilder/DispatchTracer.php:26 | escaping leaves a text unchanged if and only if it has no line feed |
| `TreeBuilder.EscapeNewlinesAppend` | src/TreeBuilder/DispatchTracer.php:26 | escaping distributes over concatenation |
| `TreeBuilder.Excerpt` | src/TreeBuilder/DispatchTracer.php:22-27 | an excerpt never contains a line feed |
| `TreeBuilder.ExcerptShort` | src/TreeBuilder/DispatchTracer.php:22-27 | text of at most 20 bytes is shown whole, except that each line feed becomes the two characters `\n` |
| `TreeBuilder.ExcerptLong` | src/TreeBuilder/DispatchTracer.php:23-26 | longer text is shown as its first 20 bytes, newline-escaped, followed by `...` |
| `TreeBuilder.ExcerptLength` | src/TreeBuilder/DispatchTracer.php:22-27 | an excerpt is at most 43 bytes long |
| `TreeBuilder.HandlerName` | src/TreeBuilder/DispatchTracer.php:41-49 | the result is a suffix of the class name and contains no backslash; a name without a backslash is returned whole |
| `TreeBuilder.QualifiedHandlerName` | src/TreeBuilder/DispatchTracer.php:41-49 | for `ns\Class` with a backslash-free `Class`, the handler name is exactly `Class`, whatever `ns` is |
| `TreeBuilder.TraceLine` | src/TreeBuilder/DispatchTracer.php:18-20 | every message reaches the callback as `[Dispatch] ` followed by the message, which can be read back after the prefix |
| `TreeBuilder.WrapStepsShape` | src/TreeBuilder/DispatchTracer.php:29-39 | a wrapped event is the line `func prev "excerpt"`, then the call forwarded exactly once, then the line `prev -> new` exactly when the handler names differ; so one or two lines per event |
| `TreeBuilder.WrapStepsLines` | src/TreeBuilder/DispatchTracer.php:29-39 | the callback receives the event line and, only when the handler changed, the transition line; forwarding adds no line |
| `TreeBuilder.LinesAppend` | src/TreeBuilder/DispatchTracer.php:18-20 | the callback's lines after more steps are the earlier lines followed by the lines of the new steps |
| `TreeBuilder.DispatchTracer.Trace` | src/TreeBuilder/DispatchTracer.php:18-20 | appends exactly one step: the line `[Dispatch] ` followed by the message; every line in the log keeps that prefix |
| `TreeBuilder.DispatchTracer.Wrap` | src/TreeBuilder/DispatchTracer.php:29-39 | appends exactly `WrapSteps`: the event line, then the forwarded call, then the transition line only if the handler name changed. The dispatcher receives the call once and ends with the handler `next` |
| `TreeBuilder.DispatchTracer.StartDocument` | src/TreeBuilder/DispatchTracer.php:51-61 | appends the line `startDocument prev ns name`, with `NULL` for a null ns or name, then the forwarded call, then a transition line only if the handler changed |
| `TreeBuilder.DispatchTracer.EndDocument` | src/TreeBuilder/DispatchTracer.php:63-65 | appends `WrapSteps` with an empty excerpt, because the end of the document covers no source bytes |
| `TreeBuilder.DispatchTracer.Error` | src/TreeBuilder/DispatchTracer.php:67-71 | appends exactly the line `error handler "text"` and then the forwarded call; never a transition line, even if the handler changed |
| `TreeBuilder.DispatchTracer.Characters` | src/TreeBuilder/DispatchTracer.php:73-75 | appends `WrapSteps`: the line with the excerpt of the input at its source offsets, then the call forwarded with all its arguments, then a transition line only if the handler changed |
| `TreeBuilder.DispatchTracer.StartTag` | src/TreeBuilder/DispatchTracer.php:77-79 | appends `WrapSteps`: the line with the excerpt of the input at its source offsets, then the call forwarded with all its arguments, then a transition line only if the handler changed |
| `TreeBuilder.DispatchTracer.EndTag` | src/TreeBuilder/DispatchTracer.php:81-83 | appends `WrapSteps`: the line with the excerpt of the input at its source offsets, then the call forwarded with all its arguments, then a transition line only if the handler changed |
| `TreeBuilder.DispatchTracer.Doctype` | src/TreeBuilder/DispatchTracer.php:85-87 | appends `WrapSteps`: the line with the excerpt of the input at its source offsets, then the call forwarded with all its arguments, then a transition line only if the handler changed |
| `TreeBuilder.DispatchTracer.Comment` | src/TreeBuilder/DispatchTracer.php:89-91 | appends `WrapSteps`: the line with the excerpt of the input at its source offsets, then the call forwarded with all its arguments, then a transition line only if the handler changed |

## Left out

- The balancer's real tree mutation, the BEFORE_HEAD handler that receives replays, and the dispatcher's mode handling are not modelled. Their calls are events in a log. The recorded mode therefore stays BEFORE_HEAD after a replay, even where the real BEFORE_HEAD handler would switch further.
- Comment and doctype tokens in the "before html" mode are handled by the `InsertionMode` base class, which is not part of this model.
- `Attributes`/`PlainAttributes` are modelled as the ordered list that `getValues()` yields. `new PlainAttributes` is the empty list.
- Balancer.BeforeHtml.Characters requires `start + length` to lie within `text`. That is the tokenizer's promise for character runs; PHP's `strspn` clamping of out-of-range offsets is not modelled.
- Php.Substr models `substr` only for non-negative start and length. PHP's negative offsets count from the end, and no caller here uses them.
- `Serializer.Doctype` returns PHP `null`, which is modelled as the empty string because it contributes nothing when concatenated.
- In the tracer, `call_user_func` on the callback is a `Line` step appended to `steps`. `call_user_func_array` on the dispatcher is `DispatchTracer.Forward`, which calls `Dispatcher.Receive` and appends a `Forwarded` step. `get_class` of the dispatcher's handler is the string `handlerClass`. Each forwarding method takes the class of the handler the dispatcher selects (`next`) as a parameter, because the dispatcher's behaviour is not modelled.
- The tracer's constructor, the `FastFormatter` constructor (which ignores its options), and the fragment name passed to `startDocument` (which the formatter ignores) have no properties to state.
- Byte strings are `seq<char>` with one `char` per byte. No UTF-8 decoding is modelled, so an excerpt cut at 20 bytes may end inside a multi-byte character, exactly as in PHP.
