/** The push-frame dispatcher of the component-based client. It shares the
    group objects with the screen, keeps no channel state of its own, and
    records what it sends and the notifications it raises. */
module WebSocketClient {
  import opened Common
  import opened Chat
  import opened Bayeux
  import opened ScreenView

  class PushClient {
    const userId: string
    const accessToken: string
    const groups: seq<Group>
    const screen: Screen
    /** Frames written to the socket, oldest first. */
    var sent: seq<OutFrame>
    /** Desktop notifications raised, oldest first. */
    var notices: seq<Notice>

    /** Opening the socket only raises the "opening" notification. */
    constructor (userId: string, accessToken: string, groups: seq<Group>, screen: Screen)
      ensures this.userId == userId && this.accessToken == accessToken
      ensures this.groups == groups && this.screen == screen
      ensures sent == [] && notices == [Notice("GroupMe", Plain("Websocket opening"))]
    {
      this.userId := userId;
      this.accessToken := accessToken;
      this.groups := groups;
      this.screen := screen;
      sent := [];
      notices := [Notice("GroupMe", Plain("Websocket opening"))];
    }

    /** The `open` handler: exactly one frame, the handshake request. */
    method OnOpen()
      modifies this
      ensures sent == old(sent) + [HandshakeFrame()]
      ensures notices == old(notices) + [Notice("GroupMe", Plain("Websocket opened"))]
    {
      notices := notices + [Notice("GroupMe", Plain("Websocket opened"))];
      sent := sent + [HandshakeFrame()];
    }

    /** The `message` handler, for the decoded frame `f`; `now` stands for
        `Date.now()`. A handshake acknowledgement is answered whenever it
        comes, and user-feed frames are taken whether or not a subscription
        was acknowledged. */
    method OnMessage(f: Frame, now: nat) returns (outcome: Outcome)
      modifies this, screen, groups
      // handshake: one subscribe request carrying the acknowledgement's clientId
      ensures RouteOf(f.channel, userId) == MetaHandshake ==>
        && outcome == Done
        && sent == old(sent) + [SubscribeFrame(f.clientId, userId, accessToken, now)]
        && notices == old(notices) + [Notice(Heading(f.channel), Dump(f))]
      ensures RouteOf(f.channel, userId) != MetaHandshake ==> sent == old(sent)
      // subscribe acknowledgement: a notification and nothing else
      ensures RouteOf(f.channel, userId) == MetaSubscribe ==>
        outcome == Done && notices == old(notices) + [Notice("GroupMe", Plain("Sockets listening"))]
      // any other channel: a diagnostic notification and nothing else
      ensures RouteOf(f.channel, userId) == OtherChannel ==>
        outcome == Done && notices == old(notices) + [Notice(Heading(f.channel), Dump(f))]
      // user feed without a new message
      ensures RouteOf(f.channel, userId) == UserFeed && f.data.None? ==>
        outcome == Threw(MissingEventData) && notices == old(notices)
      ensures RouteOf(f.channel, userId) == UserFeed && f.data.Some? && f.data.value.kind != LineCreate ==>
        outcome == Done && notices == old(notices)
      // a new-message frame without its message throws before any effect
      ensures IsLineCreate(f, userId) && f.data.value.subject.None? ==>
        outcome == Threw(MissingSubject) && notices == old(notices)
      // only a new message touches the screen or a log
      ensures !IsNewMessage(f, userId) ==>
        && screen.messageList == old(screen.messageList)
        && forall g :: g in groups ==> g.messages == old(g.messages)
      // a new message: the screen line comes first, then the log append
      ensures IsNewMessage(f, userId) ==>
        var m := f.data.value.subject.value;
        && screen.messageList ==
             old(screen.messageList) + (if m.groupId == screen.currentGroup.id then [Format(m)] else [])
        && match FindFirst(groups, GroupId, m.groupId)
          case None =>
            && outcome == Threw(UnknownGroup(m.groupId))
            && notices == old(notices)
            && forall g :: g in groups ==> g.messages == old(g.messages)
          case Some(i) =>
            && outcome == Done
            && groups[i].messages == old(groups[i].messages) + [m]
            && (forall g :: g in groups && g != groups[i] ==> g.messages == old(g.messages))
            && notices == old(notices) + (if m.userId != userId then [MessageNotice(m, groups[i].name)] else [])
      // a message for the shown group keeps the screen in step with its log
      // exactly when it has text
      ensures IsNewMessage(f, userId) && old(screen.InSync()) ==>
        var m := f.data.value.subject.value;
        var found := FindFirst(groups, GroupId, m.groupId);
        found.Some? && groups[found.value] == screen.currentGroup ==> (screen.InSync() <==> HasText(m))
      ensures screen.currentGroup == old(screen.currentGroup) && screen.topBar == old(screen.topBar)
    {
      match RouteOf(f.channel, userId)
      case MetaHandshake =>
        notices := notices + [Notice(Heading(f.channel), Dump(f))];
        sent := sent + [SubscribeFrame(f.clientId, userId, accessToken, now)];
        outcome := Done;
      case MetaSubscribe =>
        notices := notices + [Notice("GroupMe", Plain("Sockets listening"))];
        outcome := Done;
      case UserFeed =>
        if f.data.None? {
          outcome := Threw(MissingEventData);
        } else if f.data.value.kind != LineCreate {
          outcome := Done;
        } else if f.data.value.subject.None? {
          outcome := Threw(MissingSubject);
        } else {
          var m := f.data.value.subject.value;
          if m.groupId == screen.currentGroup.id {
            screen.AddMessage(Format(m));
          }
          var found := FindFirst(groups, GroupId, m.groupId);
          if found.None? {
            outcome := Threw(UnknownGroup(m.groupId));
          } else {
            var group := groups[found.value];
            ghost var before := group.messages;
            group.messages := group.messages + [m];
            IncrementalMatchesRedraw(before, m);
            if m.userId != userId {
              notices := notices + [MessageNotice(m, group.name)];
            }
            outcome := Done;
          }
        }
      case OtherChannel =>
        notices := notices + [Notice(Heading(f.channel), Dump(f))];
        outcome := Done;
    }
  }
}
