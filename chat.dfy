/** The chat domain shared by the screen, the push client and the
    monolithic script: messages, how a message becomes a line of the
    message list, groups with their message logs, and operator commands. */
module Chat {
  import opened Common

  /** The `text` attribute of a message as the service delivers it: a
      string, JSON `null` (a message with only attachments) or absent. */
  datatype TextField = Str(s: string) | Null | Undefined

  datatype Message = Message(
    id: string,
    groupId: string,
    userId: string,
    name: string,
    text: TextField,
    createdAt: int)

  /** What a template literal `${message.text}` produces: a string as it is,
      and a visible word, never an empty line part, for null or absent. */
  function Show(t: TextField): (r: string)
    ensures t.Str? ==> r == t.s
    ensures !t.Str? ==> r in {"null", "undefined"} && |r| >= 4
  {
    match t
    case Str(s) => s
    case Null => "null"
    case Undefined => "undefined"
  }

  /** JavaScript truthiness of `message.text`: only a non-empty string is
      truthy; `""`, `null` and an absent text are falsy, even though the last
      two show as visible words. */
  predicate HasText(m: Message): (b: bool)
    ensures b ==> Show(m.text) != "" && m.text == Str(Show(m.text))
    ensures !b <==> Show(m.text) in {"", "null", "undefined"} && (m.text.Str? ==> m.text.s == "")
  {
    m.text.Str? && m.text.s != ""
  }

  /** The sender name the service uses for its own system messages. */
  const SystemSender: string := "GroupMe"

  predicate StartsWith(s: string, prefix: string) {
    |prefix| <= |s| && s[..|prefix|] == prefix
  }

  predicate EndsWith(s: string, suffix: string) {
    |suffix| <= |s| && s[|s| - |suffix|..] == suffix
  }

  /** `_formatMessage` in Screen.js and `formatMessage` in main.js (the two
      are the same expression): system messages in green, every other
      message as its sender's name in bold followed by the text. */
  function Format(m: Message): (line: string)
    ensures StartsWith(line, "{green-fg}") <==> m.name == SystemSender
    ensures m.name == SystemSender ==>
      EndsWith(line, Show(m.text) + "{/green-fg}") && |line| == |Show(m.text)| + 21
    ensures m.name != SystemSender ==>
      && StartsWith(line, "{bold}" + m.name + ":{/bold} ") && EndsWith(line, Show(m.text))
      && |line| == |m.name| + 15 + |Show(m.text)|
  {
    if m.name == SystemSender then
      "{green-fg}" + Show(m.text) + "{/green-fg}"
    else
      var line := "{bold}" + m.name + ":{/bold} " + Show(m.text);
      assert line[1] == 'b' != "{green-fg}"[1];
      line
  }

  /** The header text `GroupMe: ${x}` used for the top bar and for
      notification titles. */
  function Heading(x: string): string {
    "GroupMe: " + x
  }

  /** The lines a full redraw of a log shows: each message with text,
      formatted, in log order. Built from the back, as the `forEach` loops
      that draw a log add one line at a time. */
  function Rendered(log: seq<Message>): (lines: seq<string>)
    ensures |lines| <= |log|
    ensures |lines| == |log| <==> forall i :: 0 <= i < |log| ==> HasText(log[i])
    ensures lines == [] <==> forall i :: 0 <= i < |log| ==> !HasText(log[i])
    decreases |log|
  {
    if log == [] then []
    else
      var init, last := log[..|log| - 1], log[|log| - 1];
      assert forall i :: 0 <= i < |log| ==> log[i] == if i < |init| then init[i] else last;
      Rendered(init) + (if HasText(last) then [Format(last)] else [])
  }

  lemma RenderedAppend(log: seq<Message>, m: Message)
    ensures Rendered(log + [m]) == Rendered(log) + (if HasText(m) then [Format(m)] else [])
  {
    assert (log + [m])[..|log|] == log;
  }

  /** Redrawing a log and drawing it in two parts give the same lines. */
  lemma {:induction false} RenderedConcat(a: seq<Message>, b: seq<Message>)
    ensures Rendered(a + b) == Rendered(a) + Rendered(b)
    decreases |b|
  {
    if b == [] {
      assert a + b == a;
    } else {
      var init := b[..|b| - 1];
      var last := b[|b| - 1];
      assert b == init + [last];
      assert a + b == (a + init) + [last];
      RenderedConcat(a, init);
      RenderedAppend(a + init, last);
      RenderedAppend(init, last);
    }
  }

  /** The redraw is exactly "keep the messages with text, then format each":
      nothing reordered, nothing dropped that has text, nothing added. */
  lemma {:induction false} RenderedIsFormattedTexted(log: seq<Message>)
    ensures Rendered(log) == MapSeq(Filter(log, HasText), Format)
    decreases |log|
  {
    if log != [] {
      var init := log[..|log| - 1];
      var last := log[|log| - 1];
      assert log == init + [last];
      RenderedIsFormattedTexted(init);
      FilterConcat(init, [last], HasText);
      assert Filter([last], HasText) == if HasText(last) then [last] else [];
    }
  }

  /** Appending one formatted line to a drawn log matches redrawing the
      longer log exactly when the new message has text. */
  lemma IncrementalMatchesRedraw(log: seq<Message>, m: Message)
    ensures Rendered(log + [m]) == Rendered(log) + [Format(m)] <==> HasText(m)
  {
    RenderedAppend(log, m);
    if !HasText(m) {
      assert |Rendered(log + [m])| != |Rendered(log) + [Format(m)]|;
    }
  }

  /** A group as the client holds it in memory; its log is an array the
      push client appends to in place. */
  class Group {
    const id: string
    const name: string
    var messages: seq<Message>

    constructor (id: string, name: string, messages: seq<Message>)
      ensures this.id == id && this.name == name && this.messages == messages
    {
      this.id := id;
      this.name := name;
      this.messages := messages;
    }
  }

  /** The keys the client looks groups up by, with `find`. */
  function GroupId(g: Group): string { g.id }
  function GroupName(g: Group): string { g.name }

  /** What submitting the input bar asks for. */
  datatype Command = Quit | Send(groupId: string, text: string)

  predicate IsQuitCommand(text: string) {
    text == "/q" || text == "/quit"
  }
}
