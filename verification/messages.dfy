/** The conversation entries both widgets keep in their local state
    (`type Message = { role: "user" | "bot", content: string }`), and the
    shape they take on the wire, where the role is an arbitrary string. */
module Messages {

  datatype Role = User | Bot

  datatype Message = Message(role: Role, content: string)

  /** A message as the request handler receives it in the JSON body: the
      handler never checks that the role is one of the two the widgets use. */
  datatype WireMessage = WireMessage(role: string, content: string)

  function RoleName(role: Role): (r: string)
    ensures r == "user" <==> role == User
  {
    match role
    case User => "user"
    case Bot => "bot"
  }

  /** `JSON.stringify` of one widget message, as far as the handler can see it. */
  function ToWire(m: Message): (w: WireMessage)
    ensures w.content == m.content
    ensures w.role == "user" <==> m.role == User
  {
    WireMessage(RoleName(m.role), m.content)
  }

  /** The serialised message list of a request body, element by element. */
  function ToWireAll(ms: seq<Message>): (ws: seq<WireMessage>)
    ensures |ws| == |ms|
    ensures forall i :: 0 <= i < |ms| ==> ws[i] == ToWire(ms[i])
  {
    if ms == [] then [] else ToWireAll(ms[..|ms| - 1]) + [ToWire(ms[|ms| - 1])]
  }

  /** Serialising commutes with taking a prefix of the list. */
  lemma ToWirePrefix(ms: seq<Message>, k: nat)
    requires k <= |ms|
    ensures ToWireAll(ms[..k]) == ToWireAll(ms)[..k]
  {
  }

  function UserSays(text: string): Message {
    Message(User, text)
  }

  function BotSays(text: string): Message {
    Message(Bot, text)
  }
}
