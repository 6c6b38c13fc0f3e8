/**
 * The value types of the chat store: messages, their drafts, reply
 * references and users, as src/stores/chat.ts declares them, together with
 * the decimal rendering that turns a clock reading into a guest user id.
 */
module ChatTypes {

  datatype Option<+T> = None | Some(value: T)

  /** The three kinds a stored message may have. */
  datatype MessageType = Text | Image | File

  /** The wire name of a message kind. */
  function TypeName(t: MessageType): (s: string)
    ensures ParseType(s) == Some(t)
  {
    match t
    case Text => "text"
    case Image => "image"
    case File => "file"
  }

  /** Reads a wire name back; any other string names no kind. */
  function ParseType(s: string): Option<MessageType>
  {
    if s == "text" then Some(Text)
    else if s == "image" then Some(Image)
    else if s == "file" then Some(File)
    else None
  }

  datatype Status = Online | Offline | Away | Busy

  /** A snapshot of the message being replied to, not a live link. */
  datatype ReplyRef = ReplyRef(id: int, sender: string, content: string, kind: MessageType)

  /** The reaction ledger: who liked and who disliked a message. */
  datatype Reactions = Reactions(likes: seq<string>, dislikes: seq<string>)

  const NoReactions: Reactions := Reactions([], [])

  datatype Message = Message(
    id: int,
    content: string,
    sender: string,
    timestamp: int,
    kind: MessageType,
    replyTo: Option<ReplyRef>,
    reactions: Reactions)

  /** What a caller hands to addMessage: a message without id, timestamp and reactions. */
  datatype Draft = Draft(content: string, sender: string, kind: MessageType, replyTo: Option<ReplyRef>)

  datatype User = User(id: string, name: string, avatar: string, status: Status, lastActive: int)

  /** The draft a stored message was made from. */
  function DraftOf(m: Message): Draft
  {
    Draft(m.content, m.sender, m.kind, m.replyTo)
  }

  // Decimal rendering of a non-negative clock reading (Number.prototype.toString).

  predicate IsDigit(c: char)
  {
    '0' <= c <= '9'
  }

  predicate AllDigits(s: string)
  {
    forall i :: 0 <= i < |s| ==> IsDigit(s[i])
  }

  function Digit(d: nat): (c: char)
    requires d < 10
    ensures IsDigit(c) && (c as int) - ('0' as int) == d
  {
    (('0' as int) + d) as char
  }

  /** The shortest decimal numeral of n. */
  function DecimalString(n: nat): (s: string)
    ensures |s| > 0 && AllDigits(s)
    ensures s[0] == '0' ==> s == "0"
  {
    if n < 10 then [Digit(n)] else DecimalString(n / 10) + [Digit(n % 10)]
  }

  /** The number a string of decimal digits denotes. */
  function DecimalValue(s: string): nat
    requires AllDigits(s)
  {
    if s == [] then 0
    else 10 * DecimalValue(s[..|s| - 1]) + ((s[|s| - 1] as int) - ('0' as int))
  }

  /** Reading the numeral back gives the clock reading it was made from. */
  lemma {:induction false} DecimalRoundTrip(n: nat)
    ensures DecimalValue(DecimalString(n)) == n
  {
    if n >= 10 {
      DecimalRoundTrip(n / 10);
      var p := DecimalString(n / 10);
      var s := p + [Digit(n % 10)];
      assert s[..|s| - 1] == p;
    }
  }
}
