/** The request side of the component-based client: how request URLs and
    bodies are assembled, and how the snapshot of groups with their latest
    message page is put together. Requests are values; sending them, and
    the percent-encoding of the query string, are not part of the model. */
module ApiClient {
  import opened Common
  import opened Chat

  const ApiBase: string := "https://api.groupme.com/v3"
  const TokenKey: string := "access_token"

  datatype ParamValue = Text(s: string) | Number(n: int)

  /** A query object: its members in insertion order, as a JavaScript object
      enumerates them. */
  type Params = seq<(string, ParamValue)>

  /** The value of member `k`. */
  function Lookup(ps: Params, k: string): Option<ParamValue> {
    if ps == [] then None
    else if ps[0].0 == k then Some(ps[0].1)
    else Lookup(ps[1..], k)
  }

  /** `params[k] = v`: an existing member keeps its place and takes the new
      value, a new member goes last. */
  function SetParam(ps: Params, k: string, v: ParamValue): (r: Params)
    ensures Lookup(r, k) == Some(v)
    ensures forall k' :: k' != k ==> Lookup(r, k') == Lookup(ps, k')
    ensures |r| == if Lookup(ps, k).Some? then |ps| else |ps| + 1
    ensures forall i :: 0 <= i < |ps| ==> r[i].0 == ps[i].0
  {
    if ps == [] then [(k, v)]
    else if ps[0].0 == k then [(k, v)] + ps[1..]
    else [ps[0]] + SetParam(ps[1..], k, v)
  }

  /** Setting the same member twice is setting it once, to the last value. */
  lemma {:induction false} SetParamTwice(ps: Params, k: string, v: ParamValue, w: ParamValue)
    ensures SetParam(SetParam(ps, k, v), k, w) == SetParam(ps, k, w)
  {
    if ps != [] && ps[0].0 != k {
      SetParamTwice(ps[1..], k, v, w);
    }
  }

  /** A request URL: the text before the query string and the query members
      that `qs.stringify` encodes after it. */
  datatype Url = Url(prefix: string, query: Params)

  /** `_apiURL`: missing parameters count as none, and the access token is
      always written into them, over any value the caller gave. */
  function ApiUrl(path: string, params: Option<Params>, accessToken: string): (u: Url)
    ensures u.prefix == ApiBase + path + "?"
    ensures Lookup(u.query, TokenKey) == Some(Text(accessToken))
    ensures forall k :: k != TokenKey ==> Lookup(u.query, k) == Lookup(params.GetOr([]), k)
  {
    Url(ApiBase + path + "?", SetParam(params.GetOr([]), TokenKey, Text(accessToken)))
  }

  datatype MessageBody = MessageBody(sourceGuid: nat, text: string)

  datatype HttpRequest = Get(url: Url) | Post(url: Url, body: MessageBody)

  /** `getUser`: the session user's profile. */
  function GetUser(accessToken: string): (r: HttpRequest)
    ensures r.Get? && r.url.prefix == ApiBase + "/users/me?"
    ensures r.url.query == [(TokenKey, Text(accessToken))]
  {
    Get(ApiUrl("/users/me", None, accessToken))
  }

  function MessagesPath(groupId: string): string {
    "/groups/" + groupId + "/messages"
  }

  /** `getMessages`: one page of at most 100 messages of a group. */
  function GetMessages(groupId: string, accessToken: string): (r: HttpRequest)
    ensures r.Get? && r.url.prefix == ApiBase + MessagesPath(groupId) + "?"
    ensures Lookup(r.url.query, "limit") == Some(Number(100))
    ensures Lookup(r.url.query, TokenKey) == Some(Text(accessToken))
    ensures |r.url.query| == 2
  {
    Get(ApiUrl(MessagesPath(groupId), Some([("limit", Number(100))]), accessToken))
  }

  /** `sendMessage`: a POST whose body carries the text as given and a
      `source_guid`; `now` stands for `Date.now()`. */
  function SendMessage(groupId: string, text: string, now: nat, accessToken: string): (r: HttpRequest)
    ensures r.Post? && r.url.prefix == ApiBase + MessagesPath(groupId) + "?"
    ensures r.body.text == text && r.body.sourceGuid == now
    ensures r.url.query == [(TokenKey, Text(accessToken))]
  {
    Post(ApiUrl(MessagesPath(groupId), None, accessToken), MessageBody(now, text))
  }

  /** An entry of the `/groups` response. */
  datatype GroupInfo = GroupInfo(id: string, name: string)

  /** `getGroups`, given the `/groups` listing and, for each group id, the
      page `getMessages` returns (newest first). Each group keeps its place
      and gets its page reversed into oldest-first order. */
  method GetGroups(listing: seq<GroupInfo>, fetchPage: string -> seq<Message>, accessToken: string)
    returns (groups: seq<Group>, requests: seq<HttpRequest>)
    ensures |groups| == |listing| && |requests| == |listing|
    ensures forall i :: 0 <= i < |listing| ==>
      && groups[i].id == listing[i].id
      && groups[i].name == listing[i].name
      && groups[i].messages == Reverse(fetchPage(listing[i].id))
      && requests[i] == GetMessages(listing[i].id, accessToken)
    ensures forall i :: 0 <= i < |groups| ==> fresh(groups[i])
    ensures forall i, j :: 0 <= i < j < |groups| ==> groups[i] != groups[j]
  {
    groups, requests := [], [];
    var i := 0;
    while i < |listing|
      invariant 0 <= i <= |listing| && |groups| == i && |requests| == i
      invariant forall j :: 0 <= j < i ==>
        && groups[j].id == listing[j].id
        && groups[j].name == listing[j].name
        && groups[j].messages == Reverse(fetchPage(listing[j].id))
        && requests[j] == GetMessages(listing[j].id, accessToken)
      invariant forall j :: 0 <= j < i ==> fresh(groups[j])
      invariant forall j, k :: 0 <= j < k < i ==> groups[j] != groups[k]
    {
      var info := listing[i];
      requests := requests + [GetMessages(info.id, accessToken)];
      var page := fetchPage(info.id);
      var group := new Group(info.id, info.name, Reverse(page));
      groups := groups + [group];
      i := i + 1;
    }
  }

  /** A snapshot log holds the fetched page's messages, each as often as
      the page has it, and is oldest-first exactly when the page is
      newest-first. */
  lemma SnapshotLogIsReversedPage(page: seq<Message>)
    ensures multiset(Reverse(page)) == multiset(page)
    ensures Ascending(Reverse(page), (m: Message) => m.createdAt) <==>
            Descending(page, (m: Message) => m.createdAt)
  {
    ReversePermutes(page);
    ReverseFlipsOrder(page, (m: Message) => m.createdAt);
  }
}
