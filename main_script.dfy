/** The single-file variant of the client (main.js). It keeps the group
    listing as plain records and never stores messages in it: the message
    list is filled from a fresh page whenever a group is selected, and live
    messages only go to the screen. */
module MainScript {
  import opened Common
  import opened Chat
  import opened Bayeux
  import opened ApiClient

  /** The module-level `currentGroup`: the group `find` returned, or
      undefined when no group had the name. */
  datatype Selection = Picked(group: GroupInfo) | Missing

  /** The keys `groups.find` compares by. */
  function InfoName(g: GroupInfo): string { g.name }
  function InfoId(g: GroupInfo): string { g.id }

  /** This variant's `getMessages`: its own URL carries the access token
      and no other parameter, so no page limit is asked for. */
  function FetchMessages(groupId: string, accessToken: string): (r: HttpRequest)
    ensures r.Get? && r.url.prefix == ApiBase + MessagesPath(groupId) + "?"
    ensures Lookup(r.url.query, TokenKey) == Some(Text(accessToken))
    ensures Lookup(r.url.query, "limit") == None && |r.url.query| == 1
  {
    Get(Url(ApiBase + MessagesPath(groupId) + "?", [(TokenKey, Text(accessToken))]))
  }

  const LoadingLine: string := "loading messages..."

  class App {
    const groups: seq<GroupInfo>
    const userId: string
    const accessToken: string
    var selection: Selection
    var topBar: string
    var messageList: seq<string>
    /** Frames written to the socket, oldest first. */
    var sent: seq<OutFrame>
    /** Desktop notifications raised, oldest first. */
    var notices: seq<Notice>
    /** Message pages asked for, oldest first. */
    var requests: seq<HttpRequest>

    /** The state once the group listing has arrived: the list shows the
        group names and the first one is being loaded. With no groups the
        source fails on `currentGroup.id` before any handler runs. */
    constructor (groups: seq<GroupInfo>, userId: string, accessToken: string)
      requires |groups| > 0
      ensures this.groups == groups && this.userId == userId && this.accessToken == accessToken
      ensures selection == Picked(groups[0]) && topBar == "GroupMe:" && messageList == [LoadingLine]
      ensures requests == [FetchMessages(groups[0].id, accessToken)]
      ensures sent == [] && notices == []
    {
      this.groups := groups;
      this.userId := userId;
      this.accessToken := accessToken;
      selection := Missing;
      topBar := "GroupMe:";
      messageList := [];
      sent, notices, requests := [], [], [];
      new;
      var outcome := UpdateSelectedGroup(groups[0].name);
    }

    /** `updateSelectedGroup`, up to the pending fetch: the first group with
        the name becomes current and its page is asked for; when no group has
        the name, reading its id throws. */
    method UpdateSelectedGroup(groupName: string) returns (outcome: Outcome)
      modifies this
      ensures match FindFirst(groups, InfoName, groupName)
        case None =>
          selection == Missing && outcome == Threw(NoSelectedGroup) && requests == old(requests)
        case Some(i) =>
          && selection == Picked(groups[i]) && outcome == Done
          && requests == old(requests) + [FetchMessages(groups[i].id, accessToken)]
      ensures messageList == [LoadingLine]
      ensures topBar == old(topBar) && sent == old(sent) && notices == old(notices)
    {
      var found := FindFirst(groups, InfoName, groupName);
      selection := if found.Some? then Picked(groups[found.value]) else Missing;
      messageList := [LoadingLine];
      if found.Some? {
        requests := requests + [FetchMessages(groups[found.value].id, accessToken)];
        outcome := Done;
      } else {
        outcome := Threw(NoSelectedGroup);
      }
    }

    /** The continuation of `updateSelectedGroup` once the page (newest
        first) has arrived: the list shows the page oldest-first, keeping
        the messages with text, and the top bar the name that was selected. */
    method OnMessagesLoaded(groupName: string, page: seq<Message>)
      modifies this
      ensures messageList == Rendered(Reverse(page)) && topBar == Heading(groupName)
      ensures selection == old(selection) && requests == old(requests)
      ensures sent == old(sent) && notices == old(notices)
    {
      messageList := [];
      var log := Reverse(page);
      var i := 0;
      while i < |log|
        invariant 0 <= i <= |log|
        invariant messageList == Rendered(log[..i])
        invariant selection == old(selection) && requests == old(requests)
        invariant sent == old(sent) && notices == old(notices)
      {
        var m := log[i];
        assert log[..i + 1] == log[..i] + [m];
        RenderedAppend(log[..i], m);
        if HasText(m) {
          messageList := messageList + [Format(m)];
        }
        i := i + 1;
      }
      assert log[..i] == log;
      topBar := Heading(groupName);
    }

    /** The `submit` listener: `/q` and `/quit` exit, anything else is sent
        to the current group, whose id cannot be read when it is undefined. */
    method Submit(text: string) returns (r: Result<Command>)
      ensures r == Ok(Quit) <==> IsQuitCommand(text)
      ensures !IsQuitCommand(text) && selection.Picked? ==> r == Ok(Send(selection.group.id, text))
      ensures !IsQuitCommand(text) && selection.Missing? ==> r == Err(NoSelectedGroup)
    {
      if IsQuitCommand(text) {
        r := Ok(Quit);
      } else if selection.Picked? {
        r := Ok(Send(selection.group.id, text));
      } else {
        r := Err(NoSelectedGroup);
      }
    }

    /** The `open` handler: exactly one frame, the handshake request. */
    method OnOpen()
      modifies this
      ensures sent == old(sent) + [HandshakeFrame()]
      ensures notices == old(notices) && messageList == old(messageList)
      ensures selection == old(selection) && topBar == old(topBar) && requests == old(requests)
    {
      sent := sent + [HandshakeFrame()];
    }

    /** The `message` handler for the decoded frame `f`; `now` stands for
        `Date.now()`. Nothing it does touches `groups`, the selection or the
        top bar. */
    method OnMessage(f: Frame, now: nat) returns (outcome: Outcome)
      modifies this
      ensures RouteOf(f.channel, userId) == MetaHandshake ==>
        && outcome == Done
        && sent == old(sent) + [SubscribeFrame(f.clientId, userId, accessToken, now)]
        && messageList == old(messageList) && notices == old(notices)
      ensures RouteOf(f.channel, userId) != MetaHandshake ==> sent == old(sent)
      ensures RouteOf(f.channel, userId) == MetaSubscribe ==>
        outcome == Done && messageList == old(messageList) && notices == old(notices)
      // an unknown channel is shown as one line of the message list
      ensures RouteOf(f.channel, userId) == OtherChannel ==>
        outcome == Done && messageList == old(messageList) + [f.channel] && notices == old(notices)
      ensures RouteOf(f.channel, userId) == UserFeed && !IsLineCreate(f, userId) ==>
        && outcome == (if f.data.None? then Threw(MissingEventData) else Done)
        && messageList == old(messageList) && notices == old(notices)
      // `message.group_id` is read before `currentGroup.id`
      ensures IsLineCreate(f, userId) && f.data.value.subject.None? ==>
        outcome == Threw(MissingSubject) && messageList == old(messageList) && notices == old(notices)
      ensures IsNewMessage(f, userId) && selection.Missing? ==>
        outcome == Threw(NoSelectedGroup) && messageList == old(messageList) && notices == old(notices)
      ensures IsNewMessage(f, userId) && selection.Picked? ==>
        var m := f.data.value.subject.value;
        && messageList ==
             old(messageList) + (if m.groupId == selection.group.id then [Format(m)] else [])
        && (m.userId == userId ==> outcome == Done && notices == old(notices))
        && (m.userId != userId ==>
              match FindFirst(groups, InfoId, m.groupId)
              case None => outcome == Threw(UnknownGroup(m.groupId)) && notices == old(notices)
              case Some(i) => outcome == Done && notices == old(notices) + [MessageNotice(m, groups[i].name)])
      ensures selection == old(selection) && topBar == old(topBar) && requests == old(requests)
    {
      match RouteOf(f.channel, userId)
      case MetaHandshake =>
        sent := sent + [SubscribeFrame(f.clientId, userId, accessToken, now)];
        outcome := Done;
      case MetaSubscribe =>
        outcome := Done;
      case UserFeed =>
        if f.data.None? {
          outcome := Threw(MissingEventData);
        } else if f.data.value.kind != LineCreate {
          outcome := Done;
        } else if f.data.value.subject.None? {
          outcome := Threw(MissingSubject);
        } else if selection.Missing? {
          outcome := Threw(NoSelectedGroup);
        } else {
          var m := f.data.value.subject.value;
          if m.groupId == selection.group.id {
            messageList := messageList + [Format(m)];
          }
          if m.userId != userId {
            var found := FindFirst(groups, InfoId, m.groupId);
            if found.None? {
              outcome := Threw(UnknownGroup(m.groupId));
            } else {
              notices := notices + [MessageNotice(m, groups[found.value].name)];
              outcome := Done;
            }
          } else {
            outcome := Done;
          }
        }
      case OtherChannel =>
        messageList := messageList + [f.channel];
        outcome := Done;
    }
  }
}
