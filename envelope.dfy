/**
 * The envelope exchanged with a client. The same shape is both the request a
 * client sends and the response the router sends back: a reply is built by
 * setting fields of a copy of the request. JSON encoding is not modelled; a
 * frame on an outbound queue is the envelope value itself.
 */
module Envelope {
  import opened Wrappers

  /** The command of an envelope; any other command string is `Unknown`. */
  datatype Command = UserConnect | MessageSend | GroupJoin | GroupLeave | Unknown(name: string)

  /** Id, name and additional information of a user, channel or group. */
  datatype Profile = Profile(id: string, name: string, info: map<string, string>)

  /** The body text: client text, or one of the two canned notices the router writes. */
  datatype Text = Literal(s: string) | UserConnectSuccessful | GroupJoinNotice

  /** The `type` of every body the router writes itself. */
  const TypeMessageText := "text"

  datatype MessageInfo = MessageInfo(kind: string, text: Text)

  /** The `type` of a target; a type other than direct or group is `OtherTarget`. */
  datatype TargetKind = Direct | ToGroup | OtherTarget(name: string)

  datatype Target = Target(kind: TargetKind, user: Option<Profile>, group: Option<Profile>)

  /** The three response codes the router uses. */
  datatype Code = Success | InvalidPayload | UserTargetNotConnected

  datatype Response = Response(status: bool, code: Code)

  datatype Message = Message(
    command: Command,
    user: Option<Profile>,
    channel: Option<Profile>,
    group: Option<Profile>,
    message: Option<MessageInfo>,
    target: Option<Target>,
    response: Option<Response>)

  /** The reply to `m`: the request with its response set and every other field kept. */
  function Respond(m: Message, status: bool, code: Code): (r: Message)
    ensures r.response == Some(Response(status, code))
    ensures r.(response := m.response) == m
  {
    m.(response := Some(Response(status, code)))
  }

  /** The reply to a valid connect: the canned "connected" body and a success response. */
  function ConnectAccepted(m: Message): (r: Message)
    ensures r.response == Some(Response(true, Success))
    ensures r.message == Some(MessageInfo(TypeMessageText, UserConnectSuccessful))
    ensures r.(message := m.message, response := m.response) == m
  {
    Respond(m.(message := Some(MessageInfo(TypeMessageText, UserConnectSuccessful))), true, Success)
  }
}
