/** The dispatch tracer: a token handler that sits in front of the dispatcher, writes one
    trace line for every token event it forwards, and a further line whenever forwarding the
    event changed the dispatcher's current insertion-mode handler. */
module TreeBuilder {
  import opened Php
  import opened Tokenizer

  const Backslash: char := '\\'
  const TracePrefix: string := "[Dispatch] "
  const ExcerptLimit: nat := 20

  /** `str_replace("\n", "\\n", s)`: every line feed becomes a backslash followed by `n`. */
  function EscapeNewlines(s: string): (r: string)
    ensures '\n' !in r
    ensures |s| <= |r| <= 2 * |s|
  {
    if s == [] then ""
    else (if s[0] == '\n' then "\\n" else [s[0]]) + EscapeNewlines(s[1..])
  }

  /** Reads `\n` back as a line feed; the inverse of `EscapeNewlines` on text without backslashes. */
  function UnescapeNewlines(s: string): string {
    if s == [] then ""
    else if |s| >= 2 && s[0] == Backslash && s[1] == 'n' then "\n" + UnescapeNewlines(s[2..])
    else [s[0]] + UnescapeNewlines(s[1..])
  }

  /** The text shown for an event: at most 20 bytes, with `...` when cut, and newlines escaped. */
  function Excerpt(text: string): (r: string)
    ensures '\n' !in r
  {
    EscapeNewlines(if |text| > ExcerptLimit then Substr(text, 0, ExcerptLimit) + "..." else text)
  }

  /** The class name without its namespace: what follows the last backslash, or all of it. */
  function HandlerName(className: string): (r: string)
    ensures Backslash !in r
    ensures |r| <= |className| && r == className[|className| - |r|..]
    ensures Backslash !in className ==> r == className
  {
    match Strrpos(className, Backslash)
    case None => className
    case Some(slashPos) => className[slashPos + 1..]
  }

  /** What the callback receives for a message. */
  function TraceLine(msg: string): (r: string)
    ensures |r| == |TracePrefix| + |msg| && r[..|TracePrefix|] == TracePrefix && r[|TracePrefix|..] == msg
  {
    TracePrefix + msg
  }

  predicate IsTraceLine(line: string) {
    |TracePrefix| <= |line| && line[..|TracePrefix|] == TracePrefix
  }

  /** One effect of the tracer, in the order it happens: a message passed to the callback,
      or a call forwarded to the dispatcher. */
  datatype Step = Line(text: string) | Forwarded(call: Call)

  /** The messages among `steps`, in order: what the callback received. */
  function Lines(steps: seq<Step>): seq<string> {
    if steps == [] then []
    else Lines(steps[..|steps| - 1]) + (match steps[|steps| - 1] case Line(l) => [l] case Forwarded(_) => [])
  }

  /** The line reporting that the current handler changed from `prev` to `next`, if it did. */
  function TransitionSteps(prev: string, next: string): seq<Step> {
    if prev != next then [Line(TraceLine(prev + " -> " + next))] else []
  }

  /** The steps of one wrapped event: its line, the forwarded call, and the transition line. */
  function WrapSteps(funcName: string, prev: string, excerpt: string, next: string, call: Call): seq<Step> {
    [Line(TraceLine(funcName + " " + prev + " \"" + excerpt + "\"")), Forwarded(call)] + TransitionSteps(prev, next)
  }

  /** `startDocument` shows a missing namespace or name as `NULL`. */
  function NullOr(s: Option<string>): string {
    match s
    case None => "NULL"
    case Some(v) => v
  }

  /** A call the tracer forwards to the dispatcher, with the arguments it received. */
  datatype Call =
    | StartDocumentCall(ns: Option<string>, fragmentName: Option<string>)
    | EndDocumentCall(pos: nat)
    | ErrorCall(text: string, pos: nat)
    | CharactersCall(text: string, start: nat, length: nat, sourceStart: nat, sourceLength: nat)
    | StartTagCall(name: string, attrs: Attributes, selfClose: bool, sourceStart: nat, sourceLength: nat)
    | EndTagCall(name: string, sourceStart: nat, sourceLength: nat)
    | DoctypeCall(doctypeName: Option<string>, public: Option<string>, system: Option<string>, quirks: bool,
                  sourceStart: nat, sourceLength: nat)
    | CommentCall(text: string, sourceStart: nat, sourceLength: nat)

  /** `str_replace` escapes every line feed and nothing else: on text without backslashes it
      is undone by `UnescapeNewlines`. */
  lemma {:induction false} EscapeNewlinesRoundTrip(s: string)
    requires Backslash !in s
    ensures UnescapeNewlines(EscapeNewlines(s)) == s
  {
    if s != [] {
      var rest := EscapeNewlines(s[1..]);
      assert Backslash !in s[1..] by {
        forall c | c in s[1..] ensures c != Backslash { assert c in s; }
      }
      EscapeNewlinesRoundTrip(s[1..]);
      if s[0] == '\n' {
        assert ("\\n" + rest)[2..] == rest;
      } else {
        assert ([s[0]] + rest)[1..] == rest;
      }
    }
  }

  /** Escaping leaves a text unchanged exactly when it has no line feed. */
  lemma {:induction false} EscapeNewlinesIdentity(s: string)
    ensures EscapeNewlines(s) == s <==> '\n' !in s
  {
    if s != [] && '\n' !in s {
      assert '\n' !in s[1..] by {
        forall c | c in s[1..] ensures c != '\n' { assert c in s; }
      }
      EscapeNewlinesIdentity(s[1..]);
      assert s == [s[0]] + s[1..];
    }
  }

  /** Escaping works byte by byte, so it distributes over concatenation. */
  lemma {:induction false} EscapeNewlinesAppend(a: string, b: string)
    ensures EscapeNewlines(a + b) == EscapeNewlines(a) + EscapeNewlines(b)
  {
    if a == [] {
      assert a + b == b;
    } else {
      var head := if a[0] == '\n' then "\\n" else [a[0]];
      assert (a + b)[0] == a[0] && (a + b)[1..] == a[1..] + b;
      assert EscapeNewlines(a + b) == head + EscapeNewlines(a[1..] + b);
      EscapeNewlinesAppend(a[1..], b);
      assert EscapeNewlines(a) == head + EscapeNewlines(a[1..]);
    }
  }

  /** Text of at most 20 bytes is shown whole, only with its newlines escaped. */
  lemma ExcerptShort(text: string)
    requires |text| <= ExcerptLimit
    ensures Excerpt(text) == EscapeNewlines(text)
  {
  }

  /** Longer text is shown as its first 20 bytes, escaped, followed by `...`. */
  lemma ExcerptLong(text: string)
    requires |text| > ExcerptLimit
    ensures Excerpt(text) == EscapeNewlines(text[..ExcerptLimit]) + "..."
  {
    SubstrInBounds(text, 0, ExcerptLimit);
    EscapeNewlinesAppend(text[..ExcerptLimit], "...");
    assert EscapeNewlines("...") == "..." by {
      EscapeNewlinesIdentity("...");
    }
  }

  /** An excerpt is never longer than 43 bytes: 20 bytes that may all be escaped line feeds,
      and the three dots. */
  lemma ExcerptLength(text: string)
    ensures |Excerpt(text)| <= 2 * ExcerptLimit + 3
  {
    if |text| > ExcerptLimit {
      ExcerptLong(text);
    }
  }

  /** A class name qualified by a namespace loses exactly that namespace. */
  lemma QualifiedHandlerName(namespace: string, className: string)
    requires Backslash !in className
    ensures HandlerName(namespace + [Backslash] + className) == className
  {
    var full := namespace + [Backslash] + className;
    assert full[|namespace|] == Backslash;
    assert full[|namespace| + 1..] == className;
  }

  /** One wrapped event: the event line comes first, the call is forwarded exactly once and
      right after it, and a transition line follows exactly when the handler changed. The
      callback therefore receives one line, or two when the handler changed. */
  lemma WrapStepsShape(funcName: string, prev: string, excerpt: string, next: string, call: Call)
    ensures var steps := WrapSteps(funcName, prev, excerpt, next, call);
      (|steps| == 3 <==> prev != next) && 2 <= |steps| <= 3
      && steps[0] == Line(TracePrefix + funcName + " " + prev + " \"" + excerpt + "\"")
      && steps[1] == Forwarded(call)
      && (forall k | 0 <= k < |steps| :: steps[k].Forwarded? <==> k == 1)
      && (|steps| == 3 ==> steps[2] == Line(TracePrefix + prev + " -> " + next))
  {
  }

  /** What the callback receives for one wrapped event: the event line, then the transition
      line when the handler changed; the forwarded call adds no line. */
  lemma WrapStepsLines(funcName: string, prev: string, excerpt: string, next: string, call: Call)
    ensures Lines(WrapSteps(funcName, prev, excerpt, next, call))
            == [TraceLine(funcName + " " + prev + " \"" + excerpt + "\"")]
               + (if prev != next then [TraceLine(prev + " -> " + next)] else [])
  {
    var first := Line(TraceLine(funcName + " " + prev + " \"" + excerpt + "\""));
    LinesAppend([first, Forwarded(call)], TransitionSteps(prev, next));
    LinesAppend([first], [Forwarded(call)]);
    assert [first] + [Forwarded(call)] == [first, Forwarded(call)];
    assert [first][..0] == [];
    assert [Forwarded(call)][..0] == [];
    if prev != next {
      assert TransitionSteps(prev, next)[..0] == [];
    }
  }

  /** The callback's lines of a log continued by more steps are its old lines followed by the
      lines of the new steps. */
  lemma {:induction false} LinesAppend(a: seq<Step>, b: seq<Step>)
    ensures Lines(a + b) == Lines(a) + Lines(b)
  {
    if b == [] {
      assert a + b == a;
    } else {
      assert (a + b)[..|a + b| - 1] == a + b[..|b| - 1];
      LinesAppend(a, b[..|b| - 1]);
    }
  }

  /** The dispatcher as the tracer sees it: the class of its current handler and the calls
      forwarded to it. How it picks its next handler is not modelled. */
  class Dispatcher {
    var handlerClass: string
    var received: seq<Call>

    constructor (handlerClass: string)
      ensures this.handlerClass == handlerClass && received == []
    {
      this.handlerClass := handlerClass;
      received := [];
    }

    /** Processes `call`, after which the current handler is the one of class `next`. */
    method Receive(call: Call, next: string)
      modifies this
      ensures received == old(received) + [call]
      ensures handlerClass == next
    {
      received := received + [call];
      handlerClass := next;
    }
  }

  class DispatchTracer {
    /** The source text the offsets refer to. */
    const input: string
    const dispatcher: Dispatcher
    /** The messages passed to the callback and the calls forwarded to the dispatcher, in order. */
    var steps: seq<Step>

    /** Every message carries the `[Dispatch] ` prefix. */
    ghost predicate Valid()
      reads this
    {
      forall i | 0 <= i < |steps| && steps[i].Line? :: IsTraceLine(steps[i].text)
    }

    constructor (input: string, dispatcher: Dispatcher)
      ensures Valid() && this.input == input && this.dispatcher == dispatcher && steps == []
    {
      this.input := input;
      this.dispatcher := dispatcher;
      steps := [];
    }

    /** Passes `"[Dispatch] " + msg` to the callback. */
    method Trace(msg: string)
      requires Valid()
      modifies this
      ensures Valid()
      ensures steps == old(steps) + [Line(TraceLine(msg))]
    {
      steps := steps + [Line(TraceLine(msg))];
    }

    /** Calls the dispatcher, after which its handler is the one of class `next`. */
    method Forward(call: Call, next: string)
      requires Valid()
      modifies this, dispatcher
      ensures Valid()
      ensures steps == old(steps) + [Forwarded(call)]
      ensures dispatcher.received == old(dispatcher.received) + [call]
      ensures dispatcher.handlerClass == next
    {
      dispatcher.Receive(call, next);
      steps := steps + [Forwarded(call)];
    }

    /** Writes the event line, forwards the call, then writes the transition line when the
        handler changed. `next` is the class of the handler the dispatcher selects. */
    method Wrap(funcName: string, sourceStart: nat, sourceLength: nat, call: Call, next: string)
      requires Valid()
      modifies this, dispatcher
      ensures Valid()
      ensures steps == old(steps) + WrapSteps(funcName, HandlerName(old(dispatcher.handlerClass)),
                                              Excerpt(Substr(input, sourceStart, sourceLength)), HandlerName(next), call)
      ensures dispatcher.received == old(dispatcher.received) + [call]
      ensures dispatcher.handlerClass == next
    {
      ghost var before := steps;
      var prevHandler := HandlerName(dispatcher.handlerClass);
      var excerpt := Excerpt(Substr(input, sourceStart, sourceLength));
      var msg := funcName + " " + prevHandler + " \"" + excerpt + "\"";
      Trace(msg);
      Forward(call, next);
      var handler := HandlerName(dispatcher.handlerClass);
      if prevHandler != handler {
        Trace(prevHandler + " -> " + handler);
      }
      assert steps == before + [Line(TraceLine(msg)), Forwarded(call)] + TransitionSteps(prevHandler, handler);
    }

    method StartDocument(ns: Option<string>, name: Option<string>, next: string)
      requires Valid()
      modifies this, dispatcher
      ensures Valid()
      ensures steps == old(steps) + [Line(TraceLine("startDocument " + HandlerName(old(dispatcher.handlerClass))
                                                    + " " + NullOr(ns) + " " + NullOr(name))),
                                     Forwarded(StartDocumentCall(ns, name))]
                      + TransitionSteps(HandlerName(old(dispatcher.handlerClass)), HandlerName(next))
      ensures dispatcher.received == old(dispatcher.received) + [StartDocumentCall(ns, name)]
      ensures dispatcher.handlerClass == next
    {
      var prevHandler := HandlerName(dispatcher.handlerClass);
      var nsMsg := NullOr(ns);
      var nameMsg := NullOr(name);
      Trace("startDocument " + prevHandler + " " + nsMsg + " " + nameMsg);
      Forward(StartDocumentCall(ns, name), next);
      var handler := HandlerName(dispatcher.handlerClass);
      if prevHandler != handler {
        Trace(prevHandler + " -> " + handler);
      }
    }

    /** The end of the document covers no source bytes, so its excerpt is empty. */
    method EndDocument(pos: nat, next: string)
      requires Valid()
      modifies this, dispatcher
      ensures Valid()
      ensures steps == old(steps) + WrapSteps("endDocument", HandlerName(old(dispatcher.handlerClass)), "",
                                              HandlerName(next), EndDocumentCall(pos))
      ensures dispatcher.received == old(dispatcher.received) + [EndDocumentCall(pos)]
      ensures dispatcher.handlerClass == next
    {
      Wrap("endDocument", pos, 0, EndDocumentCall(pos), next);
    }

    /** A parse error gives exactly one line, before the call is forwarded, and never a
        transition line. */
    method Error(text: string, pos: nat, next: string)
      requires Valid()
      modifies this, dispatcher
      ensures Valid()
      ensures steps == old(steps) + [Line(TraceLine("error " + HandlerName(old(dispatcher.handlerClass)) + " \"" + text + "\"")),
                                     Forwarded(ErrorCall(text, pos))]
      ensures dispatcher.received == old(dispatcher.received) + [ErrorCall(text, pos)]
      ensures dispatcher.handlerClass == next
    {
      var handler := HandlerName(dispatcher.handlerClass);
      Trace("error " + handler + " \"" + text + "\"");
      Forward(ErrorCall(text, pos), next);
    }

    method Characters(text: string, start: nat, length: nat, sourceStart: nat, sourceLength: nat, next: string)
      requires Valid()
      modifies this, dispatcher
      ensures Valid()
      ensures steps == old(steps) + WrapSteps("characters", HandlerName(old(dispatcher.handlerClass)),
                                              Excerpt(Substr(input, sourceStart, sourceLength)), HandlerName(next),
                                              CharactersCall(text, start, length, sourceStart, sourceLength))
      ensures dispatcher.received == old(dispatcher.received) + [CharactersCall(text, start, length, sourceStart, sourceLength)]
      ensures dispatcher.handlerClass == next
    {
      Wrap("characters", sourceStart, sourceLength, CharactersCall(text, start, length, sourceStart, sourceLength), next);
    }

    method StartTag(name: string, attrs: Attributes, selfClose: bool, sourceStart: nat, sourceLength: nat, next: string)
      requires Valid()
      modifies this, dispatcher
      ensures Valid()
      ensures steps == old(steps) + WrapSteps("startTag", HandlerName(old(dispatcher.handlerClass)),
                                              Excerpt(Substr(input, sourceStart, sourceLength)), HandlerName(next),
                                              StartTagCall(name, attrs, selfClose, sourceStart, sourceLength))
      ensures dispatcher.received == old(dispatcher.received) + [StartTagCall(name, attrs, selfClose, sourceStart, sourceLength)]
      ensures dispatcher.handlerClass == next
    {
      Wrap("startTag", sourceStart, sourceLength, StartTagCall(name, attrs, selfClose, sourceStart, sourceLength), next);
    }

    method EndTag(name: string, sourceStart: nat, sourceLength: nat, next: string)
      requires Valid()
      modifies this, dispatcher
      ensures Valid()
      ensures steps == old(steps) + WrapSteps("endTag", HandlerName(old(dispatcher.handlerClass)),
                                              Excerpt(Substr(input, sourceStart, sourceLength)), HandlerName(next),
                                              EndTagCall(name, sourceStart, sourceLength))
      ensures dispatcher.received == old(dispatcher.received) + [EndTagCall(name, sourceStart, sourceLength)]
      ensures dispatcher.handlerClass == next
    {
      Wrap("endTag", sourceStart, sourceLength, EndTagCall(name, sourceStart, sourceLength), next);
    }

    method Doctype(name: Option<string>, public: Option<string>, system: Option<string>, quirks: bool,
                   sourceStart: nat, sourceLength: nat, next: string)
      requires Valid()
      modifies this, dispatcher
      ensures Valid()
      ensures steps == old(steps) + WrapSteps("doctype", HandlerName(old(dispatcher.handlerClass)),
                                              Excerpt(Substr(input, sourceStart, sourceLength)), HandlerName(next),
                                              DoctypeCall(name, public, system, quirks, sourceStart, sourceLength))
      ensures dispatcher.received == old(dispatcher.received) + [DoctypeCall(name, public, system, quirks, sourceStart, sourceLength)]
      ensures dispatcher.handlerClass == next
    {
      Wrap("doctype", sourceStart, sourceLength, DoctypeCall(name, public, system, quirks, sourceStart, sourceLength), next);
    }

    method Comment(text: string, sourceStart: nat, sourceLength: nat, next: string)
      requires Valid()
      modifies this, dispatcher
      ensures Valid()
      ensures steps == old(steps) + WrapSteps("comment", HandlerName(old(dispatcher.handlerClass)),
                                              Excerpt(Substr(input, sourceStart, sourceLength)), HandlerName(next),
                                              CommentCall(text, sourceStart, sourceLength))
      ensures dispatcher.received == old(dispatcher.received) + [CommentCall(text, sourceStart, sourceLength)]
      ensures dispatcher.handlerClass == next
    {
      Wrap("comment", sourceStart, sourceLength, CommentCall(text, sourceStart, sourceLength), next);
    }
  }
}
