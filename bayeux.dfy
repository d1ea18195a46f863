/** The part of the Bayeux protocol 1.0 (as served by Faye) that the client
    speaks over the push socket: the handshake request of section 4.1, the
    subscribe request of section 4.4, and routing of decoded inbound frames
    by their `channel`. Also the desktop notifications the handlers raise. */
module Bayeux {
  import opened Common
  import opened Chat

  const HandshakeChannel: string := "/meta/handshake"
  const SubscribeChannel: string := "/meta/subscribe"

  /** The session user's personal feed, `/user/${user.id}`. */
  function UserChannel(userId: string): string {
    "/user/" + userId
  }

  /** The event type tag of a new message. */
  const LineCreate: string := "line.create"

  /** The `data` member of a user-feed frame: a type tag and its subject,
      which a frame may lack. */
  datatype Event = Event(kind: string, subject: Option<Message>)

  /** The first element of a decoded inbound frame array. */
  datatype Frame = Frame(channel: string, clientId: Option<string>, data: Option<Event>)

  datatype Ext = Ext(accessToken: string, timestamp: nat)

  /** Frames the client sends, with the members the source puts in them. */
  datatype OutFrame =
    | HandshakeRequest(channel: string, version: string, supportedConnectionTypes: seq<string>, id: string)
    | SubscribeRequest(channel: string, clientId: Option<string>, subscription: string, id: string, ext: Ext)

  function HandshakeFrame(): OutFrame {
    HandshakeRequest(HandshakeChannel, "1.0", ["websocket"], "1")
  }

  /** The subscribe request answering a handshake acknowledgement: it reuses
      the acknowledgement's `clientId` (absent stays absent, as
      `JSON.stringify` drops an undefined member). */
  function SubscribeFrame(clientId: Option<string>, userId: string, accessToken: string, now: nat): OutFrame {
    SubscribeRequest(SubscribeChannel, clientId, UserChannel(userId), "2", Ext(accessToken, now))
  }

  /** Which arm of `switch (data.channel)` a frame takes. */
  datatype Route = MetaHandshake | MetaSubscribe | UserFeed | OtherChannel

  /** The routing of both push handlers. The cases are tried in source
      order, but they are disjoint, so each is taken exactly when the channel
      equals its name. */
  function RouteOf(channel: string, userId: string): (r: Route)
    ensures r == MetaHandshake <==> channel == HandshakeChannel
    ensures r == MetaSubscribe <==> channel == SubscribeChannel
    ensures r == UserFeed <==> channel == UserChannel(userId)
    ensures r == OtherChannel <==>
      channel != HandshakeChannel && channel != SubscribeChannel && channel != UserChannel(userId)
  {
    UserChannelIsNotMeta(userId);
    if channel == HandshakeChannel then MetaHandshake
    else if channel == SubscribeChannel then MetaSubscribe
    else if channel == UserChannel(userId) then UserFeed
    else OtherChannel
  }

  /** No user id makes the personal feed collide with a meta channel. */
  lemma UserChannelIsNotMeta(userId: string)
    ensures UserChannel(userId) != HandshakeChannel && UserChannel(userId) != SubscribeChannel
  {
    assert UserChannel(userId)[1] == 'u';
    assert HandshakeChannel[1] == 'm' && SubscribeChannel[1] == 'm';
  }

  /** A frame on the session user's feed tagged as a new message. */
  predicate IsLineCreate(f: Frame, userId: string) {
    RouteOf(f.channel, userId) == UserFeed && f.data.Some? && f.data.value.kind == LineCreate
  }

  /** A new-message frame that does carry the message. */
  predicate IsNewMessage(f: Frame, userId: string) {
    IsLineCreate(f, userId) && f.data.value.subject.Some?
  }

  /** The frames the client sends are acknowledged on the channels it
      routes as handshake and subscribe, and the feed it subscribes to is
      exactly the one it routes as the user feed. */
  lemma RequestsMatchRouting(clientId: Option<string>, userId: string, accessToken: string, now: nat)
    ensures RouteOf(HandshakeFrame().channel, userId) == MetaHandshake
    ensures RouteOf(SubscribeFrame(clientId, userId, accessToken, now).channel, userId) == MetaSubscribe
    ensures RouteOf(SubscribeFrame(clientId, userId, accessToken, now).subscription, userId) == UserFeed
  {
  }

  /** The body of a desktop notification: literal text, or a frame dumped
      with `JSON.stringify`. */
  datatype NoticeBody = Plain(text: string) | Dump(frame: Frame)

  datatype Notice = Notice(title: string, body: NoticeBody)

  /** The notification for a new message from someone else. */
  function MessageNotice(m: Message, groupName: string): Notice {
    Notice(Heading(groupName), Plain(m.name + ": " + Show(m.text)))
  }
}
