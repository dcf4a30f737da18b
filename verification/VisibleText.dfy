/** The stack machine that extracts visible text from a stream of HTML events.

    Tags are in lower case. Whether an element's attributes hide it, what a reference decodes to, and
    which characters are control-like come with the event or as a parameter. */
module VisibleText {
  import opened Domain

  const SKIPPED: set<string> := {
    "head", "script", "style", "template", "form", "iframe", "object", "applet", "canvas", "button", "input",
    "select", "textarea", "noscript", "svg", "math", "ix:hidden" }

  const BLOCKS: set<string> := {
    "address", "article", "aside", "blockquote", "br", "div", "footer", "h1", "h2", "h3", "h4", "h5", "h6", "header",
    "hr", "li", "main", "nav", "p", "section", "table", "tr" }

  const VOIDS: set<string> := {
    "area", "base", "br", "col", "embed", "hr", "img", "input", "link", "meta", "source", "track", "wbr" }

  const ACTIVE: set<string> := {
    "applet", "button", "canvas", "form", "iframe", "noscript", "object", "script", "select", "style", "template", "textarea" }

  /** No active container is a block element, and each hides its content. */
  lemma ActiveTag(tag: string)
    requires tag in ACTIVE
    ensures tag !in BLOCKS && tag !in VOIDS && tag in SKIPPED
  {
  }

  datatype Event =
    | StartTag(tag: string, hides: bool)
    | StartEndTag(tag: string, hides: bool)
    | EndTag(tag: string)
    | Data(text: string)
    | EntityRef(value: Option<string>)
    | CharRef(code: Option<char>)

  datatype Entry = Entry(tag: string, hidden: bool)

  datatype State = State(stack: seq<Entry>, skipDepth: int, text: string, characters: nat, failedClosed: bool)

  type Control = char -> bool

  const START := State([], 0, "", 0, false)

  predicate IsHidden(tag: string, hides: bool) {
    tag in SKIPPED || hides
  }

  function Clean(s: string, control: Control): (r: string)
    ensures |r| == |s| && forall i | 0 <= i < |s| :: r[i] == if control(s[i]) then ' ' else s[i]
  {
    if s == "" then "" else [if control(s[0]) then ' ' else s[0]] + Clean(s[1..], control)
  }

  /** The number of hidden entries. */
  function HiddenCount(stack: seq<Entry>): nat {
    if stack == [] then 0
    else HiddenCount(stack[..|stack| - 1]) + if stack[|stack| - 1].hidden then 1 else 0
  }

  /** The topmost entry with this tag. */
  function Nearest(stack: seq<Entry>, tag: string): (r: Option<nat>)
    ensures r.Some? ==> r.value < |stack| && stack[r.value].tag == tag && forall j | r.value < j < |stack| :: stack[j].tag != tag
    ensures r.None? ==> forall j | 0 <= j < |stack| :: stack[j].tag != tag
  {
    if stack == [] then None
    else if stack[|stack| - 1].tag == tag then Some(|stack| - 1)
    else Nearest(stack[..|stack| - 1], tag)
  }

  // ---------------------------------------------------------------- one event; none is the size error

  function Append(s: State, value: string, limit: nat, control: Control): Option<State> {
    if s.failedClosed then Some(s)
    else if s.characters + |value| > limit then None
    else Some(s.(text := s.text + Clean(value, control), characters := s.characters + |value|))
  }

  function Push(s: State, tag: string, hidden: bool): State {
    s.(stack := s.stack + [Entry(tag, hidden)], skipDepth := s.skipDepth + if hidden then 1 else 0)
  }

  function Break(s: State, tag: string, visible: bool, limit: nat, control: Control): Option<State> {
    if visible && tag in BLOCKS then Append(s, "\n\n", limit, control) else Some(s)
  }

  predicate BuriesActive(stack: seq<Entry>, index: nat)
    requires index < |stack|
  {
    exists j | index < j < |stack| :: stack[j].tag in ACTIVE && stack[j].hidden
  }

  function Pop(s: State, tag: string): State {
    var index := Nearest(s.stack, tag);
    if index.None? then s
    else s.(stack := s.stack[..index.value],
            skipDepth := s.skipDepth - HiddenCount(s.stack[index.value..]),
            failedClosed := s.failedClosed || BuriesActive(s.stack, index.value))
  }

  function Step(s: State, e: Event, limit: nat, control: Control): Option<State> {
    match e
    case StartTag(tag, hides) =>
      var hidden := s.skipDepth > 0 || IsHidden(tag, hides);
      Break(if tag in VOIDS then s else Push(s, tag, hidden), tag, !hidden, limit, control)
    case StartEndTag(tag, hides) =>
      if tag in ACTIVE then Some(Push(s, tag, s.skipDepth > 0 || IsHidden(tag, hides)))
      else Break(s, tag, s.skipDepth == 0 && !IsHidden(tag, hides), limit, control)
    case EndTag(tag) => Break(Pop(s, tag), tag, !(s.skipDepth > 0), limit, control)
    case Data(text) => if s.skipDepth == 0 then Append(s, text, limit, control) else Some(s)
    case EntityRef(value) => if s.skipDepth == 0 && value.Some? then Append(s, value.value, limit, control) else Some(s)
    case CharRef(code) =>
      if s.skipDepth > 0 || code.None? || control(code.value) then Some(s) else Append(s, [code.value], limit, control)
  }

  function Feed(s: State, events: seq<Event>, limit: nat, control: Control): Option<State>
    decreases |events|
  {
    if events == [] then Some(s)
    else
      var next := Step(s, events[0], limit, control);
      if next.None? then None else Feed(next.value, events[1..], limit, control)
  }

  /** Searches the stack from the top. */
  method FindNearest(stack: seq<Entry>, tag: string) returns (index: Option<nat>)
    ensures index == Nearest(stack, tag)
  {
    var i := |stack|;
    while i > 0
      invariant 0 <= i <= |stack| && forall j | i <= j < |stack| :: stack[j].tag != tag
    {
      i := i - 1;
      if stack[i].tag == tag {
        return Some(i);
      }
    }
    return None;
  }

  /** Whether a hidden active container lies above `index`, and how many hidden entries go with it. */
  method Examine(stack: seq<Entry>, index: nat) returns (buried: bool, removed: nat)
    requires index < |stack|
    ensures buried == BuriesActive(stack, index) && removed == HiddenCount(stack[index..])
  {
    buried, removed := false, 0;
    var j := index;
    while j < |stack|
      invariant index <= j <= |stack| && removed == HiddenCount(stack[index..j])
      invariant buried <==> exists k | index < k < j :: stack[k].tag in ACTIVE && stack[k].hidden
    {
      HiddenCountNext(stack, index, j);
      removed := removed + if stack[j].hidden then 1 else 0;
      buried := buried || (j > index && stack[j].tag in ACTIVE && stack[j].hidden);
      j := j + 1;
    }
    assert stack[index..j] == stack[index..];
  }

  // ---------------------------------------------------------------- the parser object

  class VisibleTextParser {
    const maximum: nat
    const control: Control
    var stack: seq<Entry>
    var skipDepth: int
    var parts: seq<string>
    var characters: nat
    var failedClosed: bool

    constructor (maximum: nat, control: Control)
      ensures this.maximum == maximum && this.control == control && Current() == START
    {
      this.maximum, this.control := maximum, control;
      stack, skipDepth, parts, characters, failedClosed := [], 0, [], 0, false;
    }

    function Current(): State
      reads this
    {
      State(stack, skipDepth, Joined(parts), characters, failedClosed)
    }

    /** The handlers answer whether the event was taken; false stands for the text-limit exception. */
    method AppendText(value: string) returns (ok: bool)
      modifies this
      ensures var next := Append(old(Current()), value, maximum * 4, control);
              ok == next.Some? && (ok ==> Current() == next.value)
    {
      if failedClosed {
        return true;
      }
      var safe := Clean(value, control);
      characters := characters + |safe|;
      if characters > maximum * 4 {
        return false;
      }
      JoinedAppend(parts, safe);
      parts := parts + [safe];
      return true;
    }

    method HandleStartTag(tag: string, hides: bool) returns (ok: bool)
      modifies this
      ensures var next := Step(old(Current()), StartTag(tag, hides), maximum * 4, control);
              ok == next.Some? && (ok ==> Current() == next.value)
    {
      var hidden := skipDepth > 0 || IsHidden(tag, hides);
      if tag !in VOIDS {
        stack := stack + [Entry(tag, hidden)];
        if hidden {
          skipDepth := skipDepth + 1;
        }
      }
      ok := true;
      if !hidden && tag in BLOCKS {
        ok := AppendText("\n\n");
      }
    }

    method HandleStartEndTag(tag: string, hides: bool) returns (ok: bool)
      modifies this
      ensures var next := Step(old(Current()), StartEndTag(tag, hides), maximum * 4, control);
              ok == next.Some? && (ok ==> Current() == next.value)
    {
      if tag in ACTIVE {
        var hidden := skipDepth > 0 || IsHidden(tag, hides);
        stack := stack + [Entry(tag, hidden)];
        if hidden {
          skipDepth := skipDepth + 1;
        }
        return true;
      }
      ok := true;
      if skipDepth == 0 && !IsHidden(tag, hides) && tag in BLOCKS {
        ok := AppendText("\n\n");
      }
    }

    /** Closes the nearest open element with this tag and everything above it. */
    method Close(tag: string)
      modifies this
      ensures Current() == Pop(old(Current()), tag)
    {
      hide Nearest, HiddenCount, BuriesActive, Joined;
      var index := FindNearest(stack, tag);
      if index.Some? {
        var buried, removed := Examine(stack, index.value);
        failedClosed := failedClosed || buried;
        stack := stack[..index.value];
        skipDepth := skipDepth - removed;
      }
    }

    method HandleEndTag(tag: string) returns (ok: bool)
      modifies this
      ensures var next := Step(old(Current()), EndTag(tag), maximum * 4, control);
              ok == next.Some? && (ok ==> Current() == next.value)
    {
      var closingHidden := skipDepth > 0;
      Close(tag);
      ok := true;
      if !closingHidden && tag in BLOCKS {
        ok := AppendText("\n\n");
      }
    }

    method HandleText(e: Event) returns (ok: bool)
      requires e.Data? || e.EntityRef? || e.CharRef?
      modifies this
      ensures var next := Step(old(Current()), e, maximum * 4, control); ok == next.Some? && (ok ==> Current() == next.value)
    {
      ok := true;
      match e
      case Data(text) =>
        if skipDepth == 0 {
          ok := AppendText(text);
        }
      case EntityRef(value) =>
        if skipDepth == 0 && value.Some? {
          ok := AppendText(value.value);
        }
      case CharRef(code) =>
        if skipDepth > 0 || code.None? {
          return;
        }
        if !control(code.value) {
          ok := AppendText([code.value]);
        }
    }
  }

  function Joined(parts: seq<string>): string {
    if parts == [] then "" else Joined(parts[..|parts| - 1]) + parts[|parts| - 1]
  }

  lemma JoinedAppend(parts: seq<string>, part: string)
    ensures Joined(parts + [part]) == Joined(parts) + part
  {
    assert (parts + [part])[..|parts|] == parts;
  }

  lemma HiddenCountNext(stack: seq<Entry>, i: nat, j: nat)
    requires i <= j < |stack|
    ensures HiddenCount(stack[i..j + 1]) == HiddenCount(stack[i..j]) + if stack[j].hidden then 1 else 0
  {
    assert stack[i..j + 1][..j - i] == stack[i..j];
  }

  // ---------------------------------------------------------------- every stream of events

  /** Hidden flags form a suffix of the stack, the skip depth counts them, and the text is bounded. */
  ghost predicate Sound(s: State, limit: nat) {
    && s.skipDepth == HiddenCount(s.stack)
    && HiddenSuffix(s.stack)
    && s.characters == |s.text| <= limit
  }

  lemma {:induction false} HiddenSplit(stack: seq<Entry>, i: nat)
    requires i <= |stack|
    ensures HiddenCount(stack) == HiddenCount(stack[..i]) + HiddenCount(stack[i..])
  {
    if i < |stack| {
      HiddenSplit(stack[..|stack| - 1], i);
      assert stack[..|stack| - 1][..i] == stack[..i] && stack[..|stack| - 1][i..] == stack[i..][..|stack| - 1 - i];
    } else {
      assert stack[..i] == stack;
    }
  }

  lemma {:induction false} NoneHidden(stack: seq<Entry>)
    requires HiddenCount(stack) == 0
    ensures forall i | 0 <= i < |stack| :: !stack[i].hidden
  {
    if stack != [] {
      NoneHidden(stack[..|stack| - 1]);
    }
  }

  lemma HiddenPush(stack: seq<Entry>, e: Entry)
    ensures HiddenCount(stack + [e]) == HiddenCount(stack) + if e.hidden then 1 else 0
  {
    assert (stack + [e])[..|stack|] == stack;
  }

  ghost predicate HiddenSuffix(stack: seq<Entry>) {
    forall i, j | 0 <= i < j < |stack| && stack[i].hidden :: stack[j].hidden
  }

  lemma SuffixPush(stack: seq<Entry>, e: Entry)
    requires HiddenSuffix(stack) && (HiddenCount(stack) > 0 ==> e.hidden)
    ensures HiddenSuffix(stack + [e])
  {
    if HiddenCount(stack) == 0 {
      NoneHidden(stack);
    }
  }

  lemma PushSound(s: State, tag: string, hidden: bool, limit: nat)
    requires Sound(s, limit) && (s.skipDepth > 0 ==> hidden)
    ensures Sound(Push(s, tag, hidden), limit)
  {
    hide HiddenCount, HiddenSuffix;
    HiddenPush(s.stack, Entry(tag, hidden));
    SuffixPush(s.stack, Entry(tag, hidden));
  }

  lemma PopSound(s: State, tag: string, limit: nat)
    requires Sound(s, limit)
    ensures Sound(Pop(s, tag), limit)
  {
    var index := Nearest(s.stack, tag);
    if index.Some? {
      HiddenSplit(s.stack, index.value);
    }
  }

  lemma StepSound(s: State, e: Event, limit: nat, control: Control)
    requires Sound(s, limit)
    ensures var t := Step(s, e, limit, control);
            t.Some? ==> Sound(t.value, limit) && s.text <= t.value.text && (s.failedClosed ==> t.value.failedClosed && t.value.text == s.text)
  {
    hide HiddenCount, Nearest, Clean;
    match e
    case StartTag(tag, hides) => PushSound(s, tag, s.skipDepth > 0 || IsHidden(tag, hides), limit);
    case StartEndTag(tag, hides) => PushSound(s, tag, s.skipDepth > 0 || IsHidden(tag, hides), limit);
    case EndTag(tag) => PopSound(s, tag, limit);
    case _ =>
  }

  /** On every stream: the skip depth is the number of hidden entries, which form a suffix of the
      stack; the text never exceeds the limit, only grows, and is frozen once the parser failed closed. */
  lemma {:induction false} FeedSound(s: State, events: seq<Event>, limit: nat, control: Control)
    requires Sound(s, limit)
    ensures var t := Feed(s, events, limit, control);
            t.Some? ==> Sound(t.value, limit) && s.text <= t.value.text && (s.failedClosed ==> t.value.failedClosed && t.value.text == s.text)
    decreases |events|
  {
    hide Sound, Step;
    if events != [] {
      StepSound(s, events[0], limit, control);
      var next := Step(s, events[0], limit, control);
      if next.Some? {
        FeedSound(next.value, events[1..], limit, control);
      }
    }
  }

  predicate IsText(e: Event) {
    e.Data? || e.EntityRef? || e.CharRef?
  }

  /** The stream without the text events that arrive inside hidden elements. */
  function Erased(s: State, events: seq<Event>, limit: nat, control: Control): seq<Event>
    decreases |events|
  {
    if events == [] then []
    else
      var next := Step(s, events[0], limit, control);
      var rest := if next.None? then [] else Erased(next.value, events[1..], limit, control);
      (if s.skipDepth > 0 && IsText(events[0]) then [] else [events[0]]) + rest
  }

  /** Erasing every text event inside hidden elements changes nothing. */
  lemma {:induction false} HiddenTextIrrelevant(s: State, events: seq<Event>, limit: nat, control: Control)
    ensures Feed(s, Erased(s, events, limit, control), limit, control) == Feed(s, events, limit, control)
    decreases |events|
  {
    if events != [] {
      var next := Step(s, events[0], limit, control);
      if next.Some? {
        var rest := Erased(next.value, events[1..], limit, control);
        HiddenTextIrrelevant(next.value, events[1..], limit, control);
        if s.skipDepth > 0 && IsText(events[0]) {
          assert next.value == s;
          assert Erased(s, events, limit, control) == rest;
        } else {
          assert Erased(s, events, limit, control) == [events[0]] + rest;
          assert ([events[0]] + rest)[1..] == rest;
        }
      }
    }
  }

  // ---------------------------------------------------------------- well-nested trees

  /** `Element` may open with a self-closing tag when it is an active container, as the parser then
      waits for its end tag; `Void` and `Closed` have no end tag. */
  datatype Node =
    | Element(tag: string, hides: bool, selfClosing: bool, children: seq<Node>)
    | Void(tag: string, hides: bool)
    | Closed(tag: string, hides: bool)
    | Text(event: Event)
  {
    predicate WellFormed() {
      match this
      case Element(tag, _, selfClosing, children) =>
        tag !in VOIDS && (selfClosing ==> tag in ACTIVE) && forall c | c in children :: c.WellFormed()
      case Void(tag, _) => tag in VOIDS
      case Closed(tag, _) => tag !in ACTIVE
      case Text(e) => IsText(e)
    }
  }

  function Events(n: Node): seq<Event>
    decreases n, 0
  {
    match n
    case Element(tag, hides, selfClosing, children) =>
      [if selfClosing then StartEndTag(tag, hides) else StartTag(tag, hides)] + AllEvents(children) + [EndTag(tag)]
    case Void(tag, hides) => [StartTag(tag, hides)]
    case Closed(tag, hides) => [StartEndTag(tag, hides)]
    case Text(e) => [e]
  }

  function AllEvents(nodes: seq<Node>): seq<Event> {
    if nodes == [] then [] else Events(nodes[0]) + AllEvents(nodes[1..])
  }

  function TextOf(e: Event, control: Control): string {
    match e
    case Data(text) => Clean(text, control)
    case EntityRef(value) => if value.Some? then Clean(value.value, control) else ""
    case CharRef(code) => if code.Some? && !control(code.value) then [code.value] else ""
    case _ => ""
  }

  function BlockBreak(tag: string, control: Control): string {
    if tag in BLOCKS then Clean("\n\n", control) else ""
  }

  /** The visible text of a tree, by recursion: nothing of a hidden element, and a blank line around
      the content of a block. */
  function Visible(n: Node, control: Control): string {
    match n
    case Element(tag, hides, _, children) =>
      if tag in SKIPPED || hides then ""
      else BlockBreak(tag, control) + VisibleAll(children, control) + BlockBreak(tag, control)
    case Void(tag, hides) => if tag in SKIPPED || hides then "" else BlockBreak(tag, control)
    case Closed(tag, hides) => if tag in SKIPPED || hides then "" else BlockBreak(tag, control)
    case Text(e) => TextOf(e, control)
  }

  function VisibleAll(nodes: seq<Node>, control: Control): string {
    if nodes == [] then "" else Visible(nodes[0], control) + VisibleAll(nodes[1..], control)
  }

  /** The state after visible text was added, or none when it exceeds the limit. */
  function Grown(s: State, text: string, limit: nat): Option<State> {
    if s.characters + |text| > limit then None
    else Some(s.(text := s.text + text, characters := s.characters + |text|))
  }

  lemma {:induction false} FeedAppend(s: State, a: seq<Event>, b: seq<Event>, limit: nat, control: Control)
    ensures Feed(s, a + b, limit, control)
              == var t := Feed(s, a, limit, control); if t.None? then None else Feed(t.value, b, limit, control)
    decreases |a|
  {
    if a == [] {
      assert a + b == b;
    } else {
      assert (a + b)[0] == a[0] && (a + b)[1..] == a[1..] + b;
      var next := Step(s, a[0], limit, control);
      if next.Some? {
        FeedAppend(next.value, a[1..], b, limit, control);
      }
    }
  }

  lemma HiddenTop(s: State, hides: bool, tag: string, limit: nat)
    requires Sound(s, limit)
    ensures var pushed := Push(s, tag, hides); Nearest(pushed.stack, tag) == Some(|s.stack|) && Pop(pushed, tag) == s
  {
    var pushed := Push(s, tag, hides);
    assert pushed.stack[..|s.stack|] == s.stack;
    assert pushed.stack[|s.stack|..] == [Entry(tag, hides)];
    assert HiddenCount([Entry(tag, hides)]) == HiddenCount([]) + if hides then 1 else 0 by {
      assert [Entry(tag, hides)][..0] == [];
    }
  }

  /** Inside a hidden element a well-nested tree leaves the state unchanged. */
  lemma {:induction false} HiddenTree(s: State, n: Node, limit: nat, control: Control)
    requires Sound(s, limit) && s.skipDepth > 0 && n.WellFormed()
    ensures Feed(s, Events(n), limit, control) == Some(s)
    decreases n, 0
  {
    match n
    case Element(tag, hides, selfClosing, children) =>
      var open := if selfClosing then StartEndTag(tag, hides) else StartTag(tag, hides);
      var inside := Push(s, tag, true);
      assert Step(s, open, limit, control) == Some(inside);
      PushSound(s, tag, true, limit);
      HiddenForest(inside, children, limit, control);
      HiddenTop(s, true, tag, limit);
      assert Step(inside, EndTag(tag), limit, control) == Some(s);
      Bracket(s, inside, inside, Some(s), open, AllEvents(children), EndTag(tag), limit, control);
    case _ => One(s, Events(n)[0], limit, control);
  }

  lemma {:induction false} HiddenForest(s: State, nodes: seq<Node>, limit: nat, control: Control)
    requires Sound(s, limit) && s.skipDepth > 0 && forall n | n in nodes :: n.WellFormed()
    ensures Feed(s, AllEvents(nodes), limit, control) == Some(s)
    decreases nodes
  {
    if nodes != [] {
      HiddenTree(s, nodes[0], limit, control);
      HiddenForest(s, nodes[1..], limit, control);
      FeedAppend(s, Events(nodes[0]), AllEvents(nodes[1..]), limit, control);
    }
  }

  lemma One(s: State, e: Event, limit: nat, control: Control)
    ensures Feed(s, [e], limit, control) == Step(s, e, limit, control)
  {
    var next := Step(s, e, limit, control);
    if next.Some? {
      assert Feed(next.value, [e][1..], limit, control) == next;
    }
  }

  /** An opening event, what is between, and a closing event. */
  lemma Bracket(s: State, inside: State, before: State, closed: Option<State>, open: Event, inner: seq<Event>, close: Event,
                limit: nat, control: Control)
    requires Step(s, open, limit, control) == Some(inside)
    requires Feed(inside, inner, limit, control) == Some(before)
    requires Step(before, close, limit, control) == closed
    ensures Feed(s, [open] + inner + [close], limit, control) == closed
  {
    One(s, open, limit, control);
    One(before, close, limit, control);
    FeedAppend(inside, inner, [close], limit, control);
    FeedAppend(s, [open], inner + [close], limit, control);
    assert [open] + inner + [close] == [open] + (inner + [close]);
  }

  lemma GrownTwice(s: State, a: string, b: string, limit: nat)
    ensures var t := Grown(s, a, limit);
            Grown(s, a + b, limit) == if t.None? then None else Grown(t.value, b, limit)
  {
    var t := Grown(s, a, limit);
    if t.Some? {
      assert s.text + (a + b) == (s.text + a) + b;
    }
  }

  lemma GrownSound(s: State, text: string, limit: nat)
    requires Sound(s, limit)
    ensures Grown(s, text, limit).Some? ==> Sound(Grown(s, text, limit).value, limit)
  {
  }

  ghost predicate Ready(s: State, limit: nat) {
    Sound(s, limit) && s.skipDepth == 0 && !s.failedClosed
  }

  lemma BreakGrows(s: State, tag: string, limit: nat, control: Control)
    requires !s.failedClosed
    ensures Break(s, tag, true, limit, control) == if tag in BLOCKS then Grown(s, BlockBreak(tag, control), limit) else Some(s)
  {
  }

  /** On the events of any well-nested tree the parser appends exactly the tree's visible text, or
      raises the size error exactly when that text does not fit. */
  lemma {:induction false} TreeText(s: State, n: Node, limit: nat, control: Control)
    requires Ready(s, limit) && n.WellFormed()
    ensures Feed(s, Events(n), limit, control) == Grown(s, Visible(n, control), limit)
    decreases n, 1
  {
    if n.Element? {
      ElementText(s, n, limit, control);
    } else {
      One(s, Events(n)[0], limit, control);
      LeafText(s, n, limit, control);
    }
  }

  lemma LeafText(s: State, n: Node, limit: nat, control: Control)
    requires Ready(s, limit) && n.WellFormed() && !n.Element?
    ensures Step(s, Events(n)[0], limit, control) == Grown(s, Visible(n, control), limit)
  {
    assert s.text + "" == s.text;
    if n.Text? && n.event.CharRef? && n.event.code.Some? && !control(n.event.code.value) {
      assert Clean([n.event.code.value], control) == [n.event.code.value];
    }
  }

  lemma {:induction false} ForestText(s: State, nodes: seq<Node>, limit: nat, control: Control)
    requires Ready(s, limit) && forall n | n in nodes :: n.WellFormed()
    ensures Feed(s, AllEvents(nodes), limit, control) == Grown(s, VisibleAll(nodes, control), limit)
    decreases nodes
  {
    if nodes == [] {
      assert s.text + "" == s.text;
    } else {
      TreeText(s, nodes[0], limit, control);
      FeedAppend(s, Events(nodes[0]), AllEvents(nodes[1..]), limit, control);
      GrownTwice(s, Visible(nodes[0], control), VisibleAll(nodes[1..], control), limit);
      var t := Grown(s, Visible(nodes[0], control), limit);
      if t.Some? {
        GrownSound(s, Visible(nodes[0], control), limit);
        ForestText(t.value, nodes[1..], limit, control);
      }
    }
  }

  lemma GrownPush(s: State, tag: string, text: string, limit: nat)
    ensures var t := Grown(s, text, limit);
            Grown(Push(s, tag, false), text, limit) == if t.None? then None else Some(Push(t.value, tag, false))
  {
  }

  lemma OpenVisible(s: State, tag: string, limit: nat, control: Control)
    requires Ready(s, limit) && tag !in VOIDS && !IsHidden(tag, false)
    ensures var t := Grown(s, BlockBreak(tag, control), limit);
            && Step(s, StartTag(tag, false), limit, control) == (if t.None? then None else Some(Push(t.value, tag, false)))
            && (t.Some? ==> Ready(t.value, limit) && Ready(Push(t.value, tag, false), limit))
  {
    GrownPush(s, tag, BlockBreak(tag, control), limit);
    BreakGrows(Push(s, tag, false), tag, limit, control);
    var t := Grown(s, BlockBreak(tag, control), limit);
    GrownSound(s, BlockBreak(tag, control), limit);
    if t.Some? {
      PushSound(t.value, tag, false, limit);
    }
    assert s.text + "" == s.text;
  }

  lemma CloseVisible(s: State, tag: string, limit: nat, control: Control)
    requires Ready(s, limit)
    ensures Step(Push(s, tag, false), EndTag(tag), limit, control) == Grown(s, BlockBreak(tag, control), limit)
  {
    HiddenTop(s, false, tag, limit);
    BreakGrows(s, tag, limit, control);
    assert s.text + "" == s.text;
  }

  lemma HiddenMeans(tag: string, hides: bool)
    ensures IsHidden(tag, hides) <==> tag in SKIPPED || hides
  {
  }

  lemma {:induction false} ElementText(s: State, n: Node, limit: nat, control: Control)
    requires Ready(s, limit) && n.WellFormed() && n.Element?
    ensures Feed(s, Events(n), limit, control) == Grown(s, Visible(n, control), limit)
    decreases n, 0
  {
    hide IsHidden, Break, Nearest, Sound, BlockBreak, Grown, Step, Pop;
    var tag, inner, close := n.tag, AllEvents(n.children), EndTag(n.tag);
    HiddenMeans(n.tag, n.hides);
    if IsHidden(tag, n.hides) {
      HiddenElement(s, n, limit, control);
    } else {
      VisibleElementShape(n);
      var open := StartTag(tag, false);
      var edge, content := BlockBreak(tag, control), VisibleAll(n.children, control);
      OpenVisible(s, tag, limit, control);
      One(s, open, limit, control);
      FeedAppend(s, [open], inner + [close], limit, control);
      assert Events(n) == [open] + (inner + [close]);
      GrownTwice(s, edge, content + edge, limit);
      assert Visible(n, control) == edge + (content + edge);
      var u1 := Grown(s, edge, limit);
      if u1.Some? {
        var inside := Push(u1.value, tag, false);
        ForestText(inside, n.children, limit, control);
        GrownPush(u1.value, tag, content, limit);
        FeedAppend(inside, inner, [close], limit, control);
        GrownTwice(u1.value, content, edge, limit);
        var u2 := Grown(u1.value, content, limit);
        if u2.Some? {
          GrownReady(u1.value, content, limit);
          CloseVisible(u2.value, tag, limit, control);
          One(Push(u2.value, tag, false), close, limit, control);
        }
      }
    }
  }

  lemma GrownReady(s: State, text: string, limit: nat)
    requires Ready(s, limit)
    ensures Grown(s, text, limit).Some? ==> Ready(Grown(s, text, limit).value, limit)
  {
    GrownSound(s, text, limit);
  }

  /** A visible element is opened by an ordinary start tag with nothing hiding it. */
  lemma VisibleElementShape(n: Node)
    requires n.Element? && n.WellFormed() && !IsHidden(n.tag, n.hides)
    ensures !n.selfClosing && !n.hides && n.tag !in VOIDS && !IsHidden(n.tag, false)
  {
    if n.selfClosing {
      ActiveTag(n.tag);
    }
  }

  lemma HiddenElement(s: State, n: Node, limit: nat, control: Control)
    requires Ready(s, limit) && n.WellFormed() && n.Element? && IsHidden(n.tag, n.hides)
    ensures Feed(s, Events(n), limit, control) == Grown(s, Visible(n, control), limit)
  {
    hide IsHidden;
    HiddenMeans(n.tag, n.hides);
    var open := if n.selfClosing then StartEndTag(n.tag, n.hides) else StartTag(n.tag, n.hides);
    var inside := Push(s, n.tag, true);
    PushSound(s, n.tag, true, limit);
    HiddenForest(inside, n.children, limit, control);
    HiddenTop(s, true, n.tag, limit);
    assert Step(s, open, limit, control) == Some(inside);
    assert Step(inside, EndTag(n.tag), limit, control) == Some(s);
    Bracket(s, inside, inside, Some(s), open, AllEvents(n.children), EndTag(n.tag), limit, control);
    assert s.text + "" == s.text;
  }

  /** The parser, started afresh on a well-nested document, answers its visible text exactly when that
      fits four times the maximum. */
  lemma DocumentText(nodes: seq<Node>, maximum: nat, control: Control)
    requires forall n | n in nodes :: n.WellFormed()
    ensures var text := VisibleAll(nodes, control); var t := Feed(START, AllEvents(nodes), maximum * 4, control);
            && (t.Some? <==> |text| <= maximum * 4)
            && (t.Some? ==> t.value == State([], 0, text, |text|, false))
  {
    ForestText(START, nodes, maximum * 4, control);
  }
}
