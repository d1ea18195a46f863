# GroupMe terminal client: the state-update core in Dafny

This project models what a terminal GroupMe client does to its in-memory
state when something arrives: a frame on the Faye push socket, a page of
messages, or an operator action. The client exists in two forms, and both are
modelled:

- The component-based client has four parts. `GroupMeAPIClient.js` builds the
  requests and the startup snapshot. `Screen.js` holds the view state.
  `GroupMeWebSocketClient.js` dispatches push frames. `GroupMe.js` wires them
  together. The group objects of the snapshot are shared: the screen reads
  them and the push client appends to them in place.
- `main.js` is the single-file variant of the client. Its dispatcher never stores
  messages; it writes straight to the message list.

Modules, one per file:

- `Common` (common.dfy): `Option`, the exceptions the handlers throw
  (`Failure`, `Outcome`, `Result`), and the Array operations the client uses.
  `FindFirst` is `find` by a key, and `Reverse` is `reverse`. `Filter` and `MapSeq` are
  reference definitions.
- `Chat` (chat.dfy): messages and their `text` field, the line formatter, the
  redraw of a log (`Rendered`), the `Group` class, the keys groups are looked
  up by, and operator commands.
- `Bayeux` (bayeux.dfy): the subset of the Bayeux protocol 1.0 that the
  client speaks. This is the handshake request of section 4.1 and the
  subscribe request of section 4.4, with routing by `channel` and the
  notification values.
- `ApiClient` (api_client.dfy): query parameters, URLs, request values and
  the snapshot assembly of `getGroups`.
- `ScreenView` (screen.dfy): class `Screen`, holding the top bar text, the
  message-list lines and the current group.
- `WebSocketClient` (websocket_client.dfy): class `PushClient`, holding the
  `open` and `message` handlers with logs of sent frames and raised
  notifications.
- `MainScript` (main_script.dfy): class `App`, the state and handlers of
  `main.js`.

Effects become recorded values. A frame sent on the socket is appended to
`sent`. A desktop notification is appended to `notices`. An HTTP request is
returned, or in `main.js` appended to `requests`. Quitting is the command
`Quit`. An uncaught exception is the outcome `Threw(...)`, and every effect
that happened before it is kept. The access token and `Date.now()` are
parameters.

The code has no channel state machine, so a handshake acknowledgement is
answered whenever it arrives. It keeps no de-duplication by message id, so
every `line.create` is appended. It has no guard for a group id it does not
know, so that case throws. The model follows the code in all three.

The push client and the screen share group objects. As a result, a text-less
`line.create` for the shown group puts the screen out of step with a redraw
of that group's log. The client shows a line such as `{bold}Ann:{/bold} null`
until the group is reselected; the redraw filters that line out.
`PushClient.OnMessage` states this as an if-and-only-if, and
`Chat.IncrementalMatchesRedraw` is the lemma behind it.

## Model

| member | source | states |
|---|---|---|
| `Common.FindFirst` | GroupMeWebSocketClient.js:50 | `find` semantics: the result is the first position whose key equals the one sought, no earlier element has that key, and there is no result exactly when no element has it. All four lookups use it: groups by id (GroupMeWebSocketClient.js:50) and by name (Screen.js:135), listing entries by name (main.js:149) and by id (main.js:226). |
| `Common.Reverse` | GroupMeAPIClient.js:48 | the reversed page has the fetched page's length, and position k holds position n-1-k of the fetched page |
| `Common.ReversePermutes` | GroupMeAPIClient.js:47-48 | the reversed page has the same messages, with the same multiplicities, as the fetched page |
| `Common.ReverseInvolutive` | GroupMeAPIClient.js:48 | reversing loses nothing: reversing twice gives back the fetched order |
| `Common.ReverseFlipsOrder` | GroupMeAPIClient.js:46-49 | a sequence reverses into ascending order by a rank exactly when it was descending by that rank |
| `Chat.Show` | Screen.js:94-96 | a template literal shows a string text as itself, and a `null` or absent text as the non-empty words `null` or `undefined` |
| `Chat.HasText` | Screen.js:106 | a message passes the `if (message.text)` test exactly when its text is a non-empty string; a failing message shows as empty, `null` or `undefined` |
| `Chat.Format` | Screen.js:92-97 | a line starts with `{green-fg}` iff the sender is `GroupMe`. A system line is `{green-fg}` + text + `{/green-fg}`. Any other line is `{bold}` + name + `:{/bold} ` + text. Prefix, suffix and length fix the line. main.js:9-14 is the same expression, and this one function models both. |
| `Chat.Rendered` | Screen.js:105-109 | a redraw has at most one line per message; it has exactly one per message iff every message has text, and none iff no message has text. Which lines they are, and their order, is `Chat.RenderedIsFormattedTexted`. |
| `Chat.RenderedConcat` | Screen.js:105-109 | drawing a log in two parts gives the same lines as drawing it at once |
| `Chat.RenderedIsFormattedTexted` | Screen.js:105-109 | a redraw equals formatting each message with non-empty text, in log order: nothing reordered, nothing with text dropped, nothing added |
| `Chat.IncrementalMatchesRedraw` | GroupMeWebSocketClient.js:47-51 | appending the formatted line of a new message matches redrawing the extended log iff the message has text |
| `Bayeux.RouteOf` | GroupMeWebSocketClient.js:27-62 | a frame takes the handshake, subscribe or user-feed arm iff its channel is `/meta/handshake`, `/meta/subscribe` or `/user/<user id>`, and the default arm iff it is none of them |
| `Bayeux.UserChannelIsNotMeta` | GroupMeWebSocketClient.js:28-44 | no user id makes `/user/<id>` equal a meta channel, so the order of the switch arms does not matter |
| `Bayeux.RequestsMatchRouting` | GroupMeWebSocketClient.js:16-39 | the handshake and subscribe requests use the channels the dispatcher routes as their acknowledgements, and the subscription is exactly the feed routed as the user feed |
| `ApiClient.SetParam` | GroupMeAPIClient.js:15 | after `params.access_token = …` the member has the new value and every other member is unchanged. An existing member keeps its position; a new one adds exactly one member. |
| `ApiClient.SetParamTwice` | GroupMeAPIClient.js:15 | assigning a member twice equals assigning it once with the last value |
| `ApiClient.ApiUrl` | GroupMeAPIClient.js:11-17 | every URL starts with `https://api.groupme.com/v3` + path + `?`. The query always holds `access_token` set to the token, overriding any caller value. A missing params object counts as empty, and every other member is the caller's. |
| `ApiClient.GetUser` | GroupMeAPIClient.js:32-34 | a GET of `/users/me` carrying only the token |
| `ApiClient.GetMessages` | GroupMeAPIClient.js:36-38 | a GET of `/groups/<id>/messages` with `limit` 100 and the token, and nothing else |
| `ApiClient.SendMessage` | GroupMeAPIClient.js:55-63 | a POST to `/groups/<id>/messages` whose body carries exactly the given text and the `source_guid` timestamp, and whose query is only the token |
| `ApiClient.GetGroups` | GroupMeAPIClient.js:40-53 | the groups come back in the listing's order and number. Each keeps its id and name and gets its fetched page reversed. One `getMessages` request is made per group, in the same order. The group objects are distinct. |
| `ApiClient.SnapshotLogIsReversedPage` | GroupMeAPIClient.js:46-49 | a group's installed log is a permutation of its fetched page. It is oldest-first by `created_at` exactly when the page was newest-first. |
| `ScreenView.Screen.constructor` | Screen.js:86-87 | the screen starts on the first group: that group is current, the top bar names it and the list is its redraw |
| `ScreenView.Screen.SelectGroup` | Screen.js:99-112 | afterwards `g` is current and the top bar reads `GroupMe: ` + `g.name`. The list is exactly the redraw of `g`'s log, with nothing left from before, and `g`'s log is not changed. |
| `ScreenView.Screen.AddMessage` | Screen.js:114-117 | the list gains exactly the given line at its tail; earlier lines, the current group and the top bar are unchanged |
| `ScreenView.Screen.SelectItem` | Screen.js:134-139 | a name no group has leaves current group, top bar and list unchanged. Otherwise the first group with that name is selected. |
| `ScreenView.Screen.Submit` | Screen.js:141-155 | `/q` and `/quit` (and only they) quit and send nothing; any other text is sent, unchanged, to the current group's id |
| `WebSocketClient.PushClient.constructor` | GroupMeWebSocketClient.js:10-12 | a new client has sent nothing and has raised only the "Websocket opening" notification |
| `WebSocketClient.PushClient.OnOpen` | GroupMeWebSocketClient.js:14-22 | opening sends exactly one frame, the handshake (version `1.0`, connection type `websocket`, id `1`), and raises "Websocket opened" |
| `WebSocketClient.PushClient.OnMessage` | GroupMeWebSocketClient.js:24-63 | See "PushClient.OnMessage in detail" below. |
| `MainScript.FetchMessages` | main.js:29-42 | this variant's page request carries only the token: no `limit` |
| `MainScript.App.constructor` | main.js:183-184 | after the listing arrives the first group is current, the list shows the loading line, and one page request has been made for it |
| `MainScript.App.UpdateSelectedGroup` | main.js:148-151 | `currentGroup` becomes the first group with the given name and the list shows the loading line. That group's page is requested. With no such group, `currentGroup` is undefined and the handler throws. |
| `MainScript.App.OnMessagesLoaded` | main.js:152-160 | after a page loads, the list is the redraw of the reversed (oldest-first) page, keeping the messages with text. The top bar is `GroupMe: ` + the selected name. |
| `MainScript.App.Submit` | main.js:167-181 | `/q` and `/quit` (and only they) exit. Other text is sent to the current group; when that group is undefined, submitting throws. |
| `MainScript.App.OnOpen` | main.js:192-199 | opening sends exactly one frame, the handshake. Notices, the message list, the selection, the top bar and the page requests are unchanged. |
| `MainScript.App.OnMessage` | main.js:201-237 | See "App.OnMessage in detail" below. |

### PushClient.OnMessage in detail

The contract of `WebSocketClient.PushClient.OnMessage`
(GroupMeWebSocketClient.js:24-63) states the following:

- A handshake acknowledgement causes exactly one subscribe frame. It carries
  the acknowledgement's `clientId`, the subscription `/user/<user id>`, id `2`,
  the token and the timestamp.
- A subscribe acknowledgement only raises "Sockets listening". This holds
  whatever frames came before.
- Any other channel only raises a diagnostic notification.
- Only a `line.create` on the user feed touches the screen or a log.
- For a `line.create`, the screen gains the formatted line iff its `group_id`
  is the current group's id.
- The first group with that id gets the message at its tail: its log grows by
  one, the earlier entries are unchanged, and every other group is untouched.
- A notice titled `GroupMe: <group name>` is raised iff the sender is not the
  session user.
- An unknown group id throws after the screen step, and no log changes.
- A user-feed frame without `data` throws.
- A `line.create` without `subject` throws when `message.group_id` is read,
  before the screen step, so nothing changes.
- A frame that is not a `line.create` changes neither the screen nor any log.
- A new message for the shown group keeps the screen in step with its log iff
  the message has text.

### App.OnMessage in detail

The contract of `MainScript.App.OnMessage` (main.js:201-237) states the
following:

- A handshake causes exactly one subscribe frame. It carries the
  acknowledgement's `clientId`, the subscription `/user/<user id>` and id `2`.
- A subscribe acknowledgement does nothing.
- An unknown channel appends the channel name as one line.
- For a `line.create`, the formatted line is added iff its `group_id` is the
  current group's id.
- A notice is raised iff the sender is not the session user. That notice
  throws for a group id not in the listing.
- A `line.create` without `subject` throws when `message.group_id` is read.
  This comes before the current group's id is read, so nothing changes.
- An undefined current group throws, and nothing changes.
- A user-feed frame without `data` throws.
- The selection, the top bar and the listing are never written.

## Left out

- Transports: the `ws` socket, `node-fetch`, `JSON.parse` and `JSON.stringify`
  are not modelled. A decoded frame is a `Frame` value (the first element of
  the frame array). `JSON.stringify(data)` in a notice is `Dump(frame)`.
- Percent-encoding: `qs.stringify` is a library whose code is not part of this
  model. A URL is its prefix plus the ordered query members. main.js builds
  `?access_token=…` by hand, without encoding; it is modelled with the same
  `Url` value.
- The blessed widgets are not modelled: construction, layout, rendering,
  focus, mouse handling and the key bindings (`escape`/`q`/`C-c` exit,
  `C-n`/`C-p` move in the group list). Of the widgets, only the top bar text
  and the message-list lines are kept. `setContent('')` is taken as an empty
  list and `setContent(s)` as the single line `s`.
- Clearing the input bar after a successful send is not modelled, because
  the input bar is not part of the model.
- `libnotify.notify` and `console` are not called. Notifications are recorded
  in `notices`.
- `process.exit`, `dotenv` and the environment are not modelled. Quitting is
  the command `Quit`, and the access token is a constructor parameter fixed
  for the session.
- `Date.now()` is the parameter `now`.
- `Promise.all` concurrency in `getGroups` is modelled as a sequential loop;
  `Promise.all` keeps the order. `fetchPage` gives each group's page.
  `_fetch` failures (`handleError` tears down and exits) are not modelled.
- ApiClient.ApiUrl: modelled as a function that returns the new parameter
  list. The source writes `access_token` into the caller's object, but every
  caller passes a fresh object or none, so no caller sees the write.
- ApiClient.GetGroups: `group.messages.reverse()` reverses the fetched array in
  place; the model installs the reversed sequence. In main.js,
  `messages.reverse()` is modelled the same way.
- ScreenView.Screen.constructor: requires a non-empty group list. The source
  throws on `groups[0].name` when there are no groups.
- MainScript.App.constructor: requires a non-empty listing. The source throws
  on `currentGroup.id` (main.js:184, then 151). The `select item` and `submit`
  listeners (main.js:165, 167) are registered by then, but the socket
  handlers (main.js:192, 201) are not. The initial
  `currentGroup = ''` is not modelled; no handler can see it, because the
  first `updateSelectedGroup` runs synchronously before any event can fire.
- `GroupMe.js` only wires the components together and exits on error, so it
  is not modelled. The sharing it sets up is modelled: the screen and the push
  client hold the same group objects.
