/** The view state of the terminal screen of the component-based client:
    the top bar text, the lines of the message list and the current group.
    Widget construction, layout, keys and rendering are not part of it. */
module ScreenView {
  import opened Common
  import opened Chat

  class Screen {
    const groups: seq<Group>
    var currentGroup: Group
    var topBar: string
    var messageList: seq<string>

    /** The message list shows the full redraw of the current group's log. */
    ghost predicate InSync()
      reads this, currentGroup
    {
      messageList == Rendered(currentGroup.messages)
    }

    /** Builds the view and selects the first group. With no groups the
        source fails on `groups[0].name`. */
    constructor (groups: seq<Group>)
      requires |groups| > 0
      ensures this.groups == groups && currentGroup == groups[0]
      ensures topBar == Heading(groups[0].name) && InSync()
    {
      this.groups := groups;
      currentGroup := groups[0];
      topBar := "GroupMe:";
      messageList := [];
      new;
      SelectGroup(groups[0]);
    }

    /** Clears the list, titles the top bar, makes `g` current and adds one
        formatted line per message with text; `g`'s log is only read. */
    method SelectGroup(g: Group)
      modifies this
      ensures currentGroup == g && topBar == Heading(g.name)
      ensures messageList == Rendered(g.messages) && g.messages == old(g.messages)
    {
      messageList := [];
      topBar := Heading(g.name);
      currentGroup := g;
      var i := 0;
      while i < |g.messages|
        invariant 0 <= i <= |g.messages|
        invariant currentGroup == g && topBar == Heading(g.name)
        invariant messageList == Rendered(g.messages[..i])
      {
        var m := g.messages[i];
        assert g.messages[..i + 1] == g.messages[..i] + [m];
        RenderedAppend(g.messages[..i], m);
        if HasText(m) {
          messageList := messageList + [Format(m)];
        }
        i := i + 1;
      }
      assert g.messages[..i] == g.messages;
    }

    /** Appends one line to the message list. */
    method AddMessage(line: string)
      modifies this`messageList
      ensures messageList == old(messageList) + [line]
    {
      messageList := messageList + [line];
    }

    /** The `select item` listener: the first group named `content` becomes
        current; a name no group has changes nothing. */
    method SelectItem(content: string)
      modifies this
      ensures match FindFirst(groups, GroupName, content)
        case None =>
          currentGroup == old(currentGroup) && topBar == old(topBar) && messageList == old(messageList)
        case Some(i) =>
          currentGroup == groups[i] && topBar == Heading(content) && InSync()
    {
      var found := FindFirst(groups, GroupName, content);
      if found.Some? {
        SelectGroup(groups[found.value]);
      }
    }

    /** The `submit` listener: `/q` and `/quit` quit, anything else is sent
        to the current group. */
    method Submit(text: string) returns (cmd: Command)
      ensures cmd == Quit <==> IsQuitCommand(text)
      ensures cmd.Send? ==> cmd.groupId == currentGroup.id && cmd.text == text
    {
      if IsQuitCommand(text) {
        cmd := Quit;
      } else {
        cmd := Send(currentGroup.id, text);
      }
    }
  }
}
