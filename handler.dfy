/**
 * The POST /interactions handler: given the authenticated, decoded request
 * body, choose the acknowledgment Discord receives.
 */
module Handler {
  import opened Wrappers
  import opened Json
  import opened Python
  import Discord

  /** The one registered slash command. */
  const TestCommand: string := "test"
  /** Content of the reply to /test. */
  const TestReply: string := "テスト成功！Cloud Run のエンドポイントは正常です 🎉"
  /** Content of the reply to everything else. */
  const UnsupportedReply: string := "未対応のコマンドです。"

  /** The two acknowledgments the handler can send. */
  datatype Response = Pong | Message(content: string)

  /**
   * The handler's decision. A KeyError or TypeError raised while reading the
   * body escapes the handler and is the Err case.
   */
  function Dispatch(body: Json): (r: Result<Response, Exception>)
    ensures r.Ok? ==> r.value in {Pong, Message(TestReply), Message(UnsupportedReply)}
    ensures r.Err? ==>
      r.error in {KeyError("type"), KeyError("data"), KeyError("name"), TypeError}
  {
    var kind :- Subscript(body, "type");
    if EqualsInt(kind, Discord.PING) then
      Ok(Pong)
    else if EqualsInt(kind, Discord.APPLICATION_COMMAND) then
      var name :- CommandName(body);
      // str == str: exact, case-sensitive; no other value equals a str
      if name == JString(TestCommand) then Ok(Message(TestReply))
      else Ok(Message(UnsupportedReply))
    else
      Ok(Message(UnsupportedReply))
  }

  /** `body["data"]["name"]` exists: `data` is a dict holding a `name`. */
  predicate NameReadable(fields: Fields) {
    match Get(fields, "data")
    case Some(JObject(data)) => HasKey(data, "name")
    case _ => false
  }

  /** `body["data"]["name"]`, read only for application commands. */
  function CommandName(body: Json): (r: Result<Json, Exception>)
    ensures !body.JObject? ==> r == Err(TypeError)
    ensures body.JObject? && !HasKey(body.fields, "data") ==> r == Err(KeyError("data"))
    ensures body.JObject? ==> (r.Ok? <==> NameReadable(body.fields))
    ensures r.Ok? ==> exists d :: ("data", JObject(d)) in body.fields && ("name", r.value) in d
  {
    var data :- Subscript(body, "data");
    Subscript(data, "name")
  }

  /** The dict literal the handler returns for a response. */
  function Encode(r: Response): (j: Json)
    ensures Valid(j)
    ensures DecodeReply(j) == Some(r)
  {
    match r
    case Pong => JObject([("type", JInt(Discord.PONG))])
    case Message(content) =>
      var data := JObject([("content", JString(content))]);
      assert Valid(data);
      JObject([("type", JInt(Discord.CHANNEL_MESSAGE_WITH_SOURCE)), ("data", data)])
  }

  /**
   * Reads a reply back as an acknowledgment: `{"type": 1}` is a pong and
   * `{"type": 4, "data": {"content": c}}` a message; nothing else is a reply.
   */
  function DecodeReply(j: Json): Option<Response> {
    if j == JObject([("type", JInt(Discord.PONG))]) then
      Some(Pong)
    else if j.JObject? && |j.fields| == 2
      && j.fields[0] == ("type", JInt(Discord.CHANNEL_MESSAGE_WITH_SOURCE))
      && j.fields[1].0 == "data" && j.fields[1].1.JObject?
      && |j.fields[1].1.fields| == 1 && j.fields[1].1.fields[0].0 == "content"
      && j.fields[1].1.fields[0].1.JString? then
      Some(Message(j.fields[1].1.fields[0].1.s))
    else
      None
  }

  /** `interactions`: what the handler returns, or the exception it raises. */
  function Interactions(body: Json): (r: Result<Json, Exception>)
    ensures r.Ok? <==> Dispatch(body).Ok?
    ensures r.Ok? ==> DecodeReply(r.value) == Some(Dispatch(body).value)
    ensures r.Err? ==> r.error == Dispatch(body).error
  {
    match Dispatch(body)
    case Ok(r) => Ok(Encode(r))
    case Err(e) => Err(e)
  }
}
