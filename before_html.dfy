/** The "before html" insertion mode of the tree builder (section 8.2.5.4.2 of the
    W3C HTML5 Recommendation), as the balancing tree builder implements it.

    The handler acts only through its collaborators: it asks the balancer to insert an
    element or to report an error, asks the dispatcher to switch mode, and may hand the
    token on to the handler that the switch returned. Those calls are recorded, in order,
    as an event log; what the collaborators then do with them is not part of this model. */
module Balancer {
  import opened Tokenizer

  /** The dispatcher's insertion modes that this handler involves. */
  datatype Mode = InitialMode | BeforeHtmlMode | BeforeHeadMode

  /** A token as the handler receives it, with its source offsets. */
  datatype Token =
    | CharacterRun(text: string, start: nat, length: nat, sourceStart: nat, sourceLength: nat)
    | StartTagToken(name: string, attrs: Attributes, selfClose: bool, sourceStart: nat, sourceLength: nat)
    | EndTagToken(name: string, sourceStart: nat, sourceLength: nat)

  /** One call made by the handler. */
  datatype Event =
    | Insert(name: string, attrs: Attributes, selfClose: bool, sourceStart: nat, sourceLength: nat)  // balancer->startTag
    | Error(message: string, pos: nat)                                                              // balancer->error
    | SwitchMode(mode: Mode)                                                                        // dispatcher->switchMode
    | Replay(token: Token)                                    // the same call on the handler switchMode returned

  /** The bytes `strspn` skips here: tab, line feed, form feed, carriage return and space. */
  predicate IsWhitespace(c: char) {
    c == '\t' || c == '\n' || c == '\U{000C}' || c == '\r' || c == ' '
  }

  /** The end tags that imply an `<html>` start tag; every other one is rejected. */
  predicate IsAllowedEndTag(name: string) {
    name == "head" || name == "body" || name == "html" || name == "br"
  }

  const EndTagError: string := "end tag not allowed before html"

  /** The synthetic `<html>` start tag: no attributes, not self-closing, no source bytes. */
  function ImpliedHtml(sourceStart: nat): Event {
    Insert("html", [], false, sourceStart, 0)
  }

  /** The length of the longest prefix of `s` made only of whitespace
      (`strspn($s, "\t\n\f\r ")`). */
  function WhitespaceSpan(s: string): (n: nat)
    ensures n <= |s|
    ensures forall i | 0 <= i < n :: IsWhitespace(s[i])
    ensures n < |s| ==> !IsWhitespace(s[n])
  {
    if s != [] && IsWhitespace(s[0]) then 1 + WhitespaceSpan(s[1..]) else 0
  }

  /** The calls `characters` makes for the run `text[start..start + length]`. */
  function CharactersEvents(text: string, start: nat, length: nat, sourceStart: nat, sourceLength: nat): seq<Event>
    requires start + length <= |text|
  {
    var ws := WhitespaceSpan(text[start..start + length]);
    if length - ws == 0 then []
    else [ImpliedHtml(sourceStart), SwitchMode(BeforeHeadMode),
          Replay(CharacterRun(text, start + ws, length - ws, sourceStart, sourceLength))]
  }

  /** The calls `startTag` makes. */
  function StartTagEvents(name: string, attrs: Attributes, selfClose: bool, sourceStart: nat, sourceLength: nat): seq<Event> {
    if name != "html" then
      [Insert(name, attrs, selfClose, sourceStart, sourceLength), SwitchMode(BeforeHeadMode)]
    else
      [ImpliedHtml(sourceStart), SwitchMode(BeforeHeadMode),
       Replay(StartTagToken(name, attrs, selfClose, sourceStart, sourceLength))]
  }

  /** The calls `endTag` makes. */
  function EndTagEvents(name: string, sourceStart: nat, sourceLength: nat): seq<Event> {
    if !IsAllowedEndTag(name) then [Error(EndTagError, sourceStart)]
    else [ImpliedHtml(sourceStart), SwitchMode(BeforeHeadMode), Replay(EndTagToken(name, sourceStart, sourceLength))]
  }

  /** A token whose offsets lie inside its own text (the tokenizer's promise for character runs). */
  predicate WellFormed(t: Token) {
    t.CharacterRun? ==> t.start + t.length <= |t.text|
  }

  /** The calls the handler makes for any token. */
  function HandleEvents(t: Token): seq<Event>
    requires WellFormed(t)
  {
    match t
    case CharacterRun(text, start, length, sourceStart, sourceLength) =>
      CharactersEvents(text, start, length, sourceStart, sourceLength)
    case StartTagToken(name, attrs, selfClose, sourceStart, sourceLength) =>
      StartTagEvents(name, attrs, selfClose, sourceStart, sourceLength)
    case EndTagToken(name, sourceStart, sourceLength) =>
      EndTagEvents(name, sourceStart, sourceLength)
  }

  /** A run that is entirely whitespace. */
  predicate IsWhitespaceRun(text: string, start: nat, length: nat)
    requires start + length <= |text|
  {
    forall i | start <= i < start + length :: IsWhitespace(text[i])
  }

  /** The tokens the handler drops without a mode switch: whitespace runs and rejected end tags. */
  predicate IsIgnored(t: Token)
    requires WellFormed(t)
  {
    (t.CharacterRun? && IsWhitespaceRun(t.text, t.start, t.length))
    || (t.EndTagToken? && !IsAllowedEndTag(t.name))
  }

  /** The dispatcher's mode after the calls `events`, starting from mode `m`: the last switch wins. */
  function ModeAfter(m: Mode, events: seq<Event>): Mode {
    if events == [] then m
    else match events[|events| - 1]
      case SwitchMode(next) => next
      case _ => ModeAfter(m, events[..|events| - 1])
  }

  /** Playing two logs one after the other is playing their concatenation. */
  lemma {:induction false} ModeAfterAppend(m: Mode, a: seq<Event>, b: seq<Event>)
    ensures ModeAfter(m, a + b) == ModeAfter(ModeAfter(m, a), b)
  {
    if b != [] {
      assert (a + b)[..|a + b| - 1] == a + b[..|b| - 1];
      ModeAfterAppend(m, a, b[..|b| - 1]);
    } else {
      assert a + b == a;
    }
  }

  /** A character run made only of whitespace produces no call at all, and a run with
      any other byte produces some. */
  lemma WhitespaceRunIgnored(text: string, start: nat, length: nat, sourceStart: nat, sourceLength: nat)
    requires start + length <= |text|
    ensures CharactersEvents(text, start, length, sourceStart, sourceLength) == []
            <==> IsWhitespaceRun(text, start, length)
  {
    var s := text[start..start + length];
    var ws := WhitespaceSpan(s);
    if !IsWhitespaceRun(text, start, length) {
      var k :| start <= k < start + length && !IsWhitespace(text[k]);
      assert s[k - start] == text[k];
    }
  }

  /** A run with a non-whitespace byte: exactly one implied `<html>` insert, then the switch to
      "before head", then the run replayed with only its leading whitespace stripped. The
      stripped bytes are all whitespace, the replayed run starts with a non-whitespace byte and
      ends where the original did, and the source offsets are passed on unchanged. */
  lemma NonWhitespaceRunReplayed(text: string, start: nat, length: nat, sourceStart: nat, sourceLength: nat)
    requires start + length <= |text|
    requires !IsWhitespaceRun(text, start, length)
    ensures var events := CharactersEvents(text, start, length, sourceStart, sourceLength);
      |events| == 3 && events[0] == ImpliedHtml(sourceStart) && events[1] == SwitchMode(BeforeHeadMode)
      && events[2].Replay? && events[2].token.CharacterRun?
      && var run := events[2].token;
      && run.text == text && run.sourceStart == sourceStart && run.sourceLength == sourceLength
      && start <= run.start && run.start + run.length == start + length && run.length > 0
      && (forall i | start <= i < run.start :: IsWhitespace(text[i]))
      && !IsWhitespace(text[run.start])
  {
    WhitespaceRunIgnored(text, start, length, sourceStart, sourceLength);
    var s := text[start..start + length];
    var ws := WhitespaceSpan(s);
    assert ws < length;
    assert s[ws] == text[start + ws];
    forall i | start <= i < start + ws
      ensures IsWhitespace(text[i])
    {
      assert s[i - start] == text[i];
    }
  }

  /** An end tag other than head, body, html or br yields exactly one parse error at its
      source position, and nothing else: no insert and no mode switch. */
  lemma RejectedEndTag(name: string, sourceStart: nat, sourceLength: nat)
    requires !IsAllowedEndTag(name)
    ensures EndTagEvents(name, sourceStart, sourceLength) == [Error(EndTagError, sourceStart)]
    ensures forall m :: ModeAfter(m, EndTagEvents(name, sourceStart, sourceLength)) == m
  {
    var events := EndTagEvents(name, sourceStart, sourceLength);
    forall m ensures ModeAfter(m, events) == m {
      assert events[..0] == [];
    }
  }

  /** An allowed end tag implies `<html>`, switches to "before head" and replays the very
      same end tag with the same offsets. */
  lemma AllowedEndTagReplayed(name: string, sourceStart: nat, sourceLength: nat)
    requires IsAllowedEndTag(name)
    ensures EndTagEvents(name, sourceStart, sourceLength)
            == [ImpliedHtml(sourceStart), SwitchMode(BeforeHeadMode), Replay(EndTagToken(name, sourceStart, sourceLength))]
  {
  }

  /** A start tag other than `html` is inserted as it is, with its own attributes, flag and
      offsets, after which the mode is "before head"; it is not replayed. */
  lemma OtherStartTagInserted(name: string, attrs: Attributes, selfClose: bool, sourceStart: nat, sourceLength: nat)
    requires name != "html"
    ensures var events := StartTagEvents(name, attrs, selfClose, sourceStart, sourceLength);
      events == [Insert(name, attrs, selfClose, sourceStart, sourceLength), SwitchMode(BeforeHeadMode)]
      && forall e | e in events :: !e.Replay?
  {
  }

  /** A start tag `html` inserts a plain `<html>` (its own attributes are not used there),
      switches to "before head" and replays the original tag, attributes included. */
  lemma HtmlStartTagReplayed(attrs: Attributes, selfClose: bool, sourceStart: nat, sourceLength: nat)
    ensures StartTagEvents("html", attrs, selfClose, sourceStart, sourceLength)
            == [Insert("html", [], false, sourceStart, 0), SwitchMode(BeforeHeadMode),
                Replay(StartTagToken("html", attrs, selfClose, sourceStart, sourceLength))]
  {
  }

  /** Every token is either ignored, leaving the mode as it was, or leaves the mode at
      "before head"; and whatever the handler replays, it replays after that switch. */
  lemma {:induction false} ModeAfterHandling(m: Mode, t: Token)
    requires WellFormed(t)
    ensures ModeAfter(m, HandleEvents(t)) == if IsIgnored(t) then m else BeforeHeadMode
    ensures forall k | 0 <= k < |HandleEvents(t)| && HandleEvents(t)[k].Replay? ::
              0 < k && HandleEvents(t)[k - 1] == SwitchMode(BeforeHeadMode)
  {
    var events := HandleEvents(t);
    match t
    case CharacterRun(text, start, length, sourceStart, sourceLength) =>
      WhitespaceRunIgnored(text, start, length, sourceStart, sourceLength);
      if !IsWhitespaceRun(text, start, length) {
        NonWhitespaceRunReplayed(text, start, length, sourceStart, sourceLength);
        assert events[..2][..1] == [events[0]];
      }
    case StartTagToken(name, attrs, selfClose, sourceStart, sourceLength) =>
      if name == "html" {
        assert events[..2][..1] == [events[0]];
      }
    case EndTagToken(name, sourceStart, sourceLength) =>
      if IsAllowedEndTag(name) {
        assert events[..2][..1] == [events[0]];
      } else {
        RejectedEndTag(name, sourceStart, sourceLength);
      }
  }

  /** Whatever the mode before the token, a replay is the last call the handler makes, it is
      made once the recorded mode is "before head", and it hands on a token of the same kind as
      the one received: a replay never returns to this handler. A replay happens exactly for
      a run with non-whitespace content, a start tag `html` and an allowed end tag. */
  lemma {:induction false} ReplayReachesBeforeHead(m: Mode, t: Token)
    requires WellFormed(t)
    ensures forall k | 0 <= k < |HandleEvents(t)| && HandleEvents(t)[k].Replay? ::
              k == |HandleEvents(t)| - 1 && ModeAfter(m, HandleEvents(t)[..k]) == BeforeHeadMode
              && HandleEvents(t)[k].token.CharacterRun? == t.CharacterRun?
              && HandleEvents(t)[k].token.StartTagToken? == t.StartTagToken?
    ensures (exists k | 0 <= k < |HandleEvents(t)| :: HandleEvents(t)[k].Replay?)
            <==> !IsIgnored(t) && !(t.StartTagToken? && t.name != "html")
  {
    var events := HandleEvents(t);
    match t
    case CharacterRun(text, start, length, sourceStart, sourceLength) =>
      WhitespaceRunIgnored(text, start, length, sourceStart, sourceLength);
      if !IsWhitespaceRun(text, start, length) {
        NonWhitespaceRunReplayed(text, start, length, sourceStart, sourceLength);
        assert events[..2][..1] == [events[0]];
        assert events[2].Replay?;
      }
    case StartTagToken(name, attrs, selfClose, sourceStart, sourceLength) =>
      if name == "html" {
        assert events[..2][..1] == [events[0]];
        assert events[2].Replay?;
      }
    case EndTagToken(name, sourceStart, sourceLength) =>
      if IsAllowedEndTag(name) {
        assert events[..2][..1] == [events[0]];
        assert events[2].Replay?;
      }
  }

  /** The handler object. `mode` stands for the dispatcher's current mode and `events` for
      the calls made so far on the balancer and the dispatcher. */
  class BeforeHtml {
    var mode: Mode
    var events: seq<Event>
    ghost const initialMode: Mode

    /** The dispatcher's mode is the one the recorded switches lead to. */
    ghost predicate Valid()
      reads this
    {
      mode == ModeAfter(initialMode, events)
    }

    constructor (m: Mode)
      ensures Valid() && mode == m && events == []
    {
      mode := m;
      events := [];
      initialMode := m;
    }

    /** `balancer->startTag`: records the insert; the mode is untouched. */
    method InsertElement(name: string, attrs: Attributes, selfClose: bool, sourceStart: nat, sourceLength: nat)
      requires Valid()
      modifies this
      ensures Valid()
      ensures events == old(events) + [Insert(name, attrs, selfClose, sourceStart, sourceLength)]
      ensures mode == old(mode)
    {
      ModeAfterAppend(initialMode, events, [Insert(name, attrs, selfClose, sourceStart, sourceLength)]);
      events := events + [Insert(name, attrs, selfClose, sourceStart, sourceLength)];
    }

    /** `dispatcher->switchMode`: records the switch and makes `next` the current mode. */
    method Switch(next: Mode)
      requires Valid()
      modifies this
      ensures Valid()
      ensures events == old(events) + [SwitchMode(next)]
      ensures mode == next
    {
      ModeAfterAppend(initialMode, events, [SwitchMode(next)]);
      events := events + [SwitchMode(next)];
      mode := next;
    }

    /** Passes `t` on to the handler returned by the switch; that handler is not modelled. */
    method Forward(t: Token)
      requires Valid()
      modifies this
      ensures Valid()
      ensures events == old(events) + [Replay(t)]
      ensures mode == old(mode)
    {
      ModeAfterAppend(initialMode, events, [Replay(t)]);
      events := events + [Replay(t)];
    }

    method Characters(text: string, start: nat, length: nat, sourceStart: nat, sourceLength: nat)
      requires Valid()
      requires start + length <= |text|
      modifies this
      ensures Valid()
      ensures events == old(events) + CharactersEvents(text, start, length, sourceStart, sourceLength)
      ensures mode == ModeAfter(old(mode), CharactersEvents(text, start, length, sourceStart, sourceLength))
    {
      ghost var expected := CharactersEvents(text, start, length, sourceStart, sourceLength);
      // Ignore whitespace
      var wsLength := WhitespaceSpan(text[start..start + length]);
      var len := length - wsLength;
      if len == 0 {
        assert expected == [];
        assert old(events) + expected == old(events);
        return;
      }
      var from := start + wsLength;
      assert expected == [ImpliedHtml(sourceStart), SwitchMode(BeforeHeadMode),
                          Replay(CharacterRun(text, from, len, sourceStart, sourceLength))];
      assert expected[..2][..1] == [expected[0]];
      assert ModeAfter(old(mode), expected) == BeforeHeadMode;
      ghost var before := events;
      // Generate the missing <html> tag
      InsertElement("html", [], false, sourceStart, 0);
      Switch(BeforeHeadMode);
      Forward(CharacterRun(text, from, len, sourceStart, sourceLength));
      assert events == before + expected;
    }

    method StartTag(name: string, attrs: Attributes, selfClose: bool, sourceStart: nat, sourceLength: nat)
      requires Valid()
      modifies this
      ensures Valid()
      ensures events == old(events) + StartTagEvents(name, attrs, selfClose, sourceStart, sourceLength)
      ensures mode == BeforeHeadMode
    {
      if name != "html" {
        InsertElement(name, attrs, selfClose, sourceStart, sourceLength);
        Switch(BeforeHeadMode);
      } else {
        InsertElement("html", [], false, sourceStart, 0);
        Switch(BeforeHeadMode);
        Forward(StartTagToken(name, attrs, selfClose, sourceStart, sourceLength));
      }
    }

    method EndTag(name: string, sourceStart: nat, sourceLength: nat)
      requires Valid()
      modifies this
      ensures Valid()
      ensures events == old(events) + EndTagEvents(name, sourceStart, sourceLength)
      ensures mode == if IsAllowedEndTag(name) then BeforeHeadMode else old(mode)
    {
      if !IsAllowedEndTag(name) {
        ModeAfterAppend(initialMode, events, [Error(EndTagError, sourceStart)]);
        events := events + [Error(EndTagError, sourceStart)];
        return;
      }
      InsertElement("html", [], false, sourceStart, 0);
      Switch(BeforeHeadMode);
      Forward(EndTagToken(name, sourceStart, sourceLength));
    }
  }
}
