/** The communication hub's message list filter and its priority colours. */
module CommunicationHub {
  import opened Common

  datatype SenderRole = Coach | ClientRole | SystemRole | Community

  datatype MessagePlatform = ClickUp | Course | Calendar | Direct | CommunityPlatform
  {
    function Slug(): string
    {
      match this
      case ClickUp => "clickup"
      case Course => "course"
      case Calendar => "calendar"
      case Direct => "direct"
      case CommunityPlatform => "community"
    }
  }

  datatype Priority = High | Medium | Low
  {
    function Slug(): string
    {
      match this
      case High => "high"
      case Medium => "medium"
      case Low => "low"
    }
  }

  datatype Message = Message(
    id: string, sender: string, senderRole: SenderRole, subject: string, content: string,
    timestamp: string, platform: MessagePlatform, read: bool, priority: Priority,
    attachments: Option<seq<string>>)

  predicate Shown(m: Message, searchTerm: string, platform: string)
  {
    (MatchesTerm(m.subject, searchTerm) || MatchesTerm(m.content, searchTerm))
    && (platform == "all" || m.platform.Slug() == platform)
  }

  function FilteredMessages(messages: seq<Message>, searchTerm: string, platform: string): (r: seq<Message>)
    ensures forall i :: 0 <= i < |r| ==> r[i] in messages && Shown(r[i], searchTerm, platform)
    ensures forall i :: 0 <= i < |messages| && Shown(messages[i], searchTerm, platform) ==> messages[i] in r
  {
    Filter(messages, (m: Message) => Shown(m, searchTerm, platform))
  }

  /** The filtered list keeps the inbox order, and with an empty search and platform "all"
      it is the whole inbox. */
  lemma FilteredMessagesOrdered(messages: seq<Message>, searchTerm: string, platform: string)
    ensures IsSubsequence(FilteredMessages(messages, searchTerm, platform), messages)
    ensures FilteredMessages(messages, "", "all") == messages
  {
    FilterIsSubsequence(messages, (m: Message) => Shown(m, searchTerm, platform));
    forall i | 0 <= i < |messages|
      ensures Shown(messages[i], "", "all")
    {
      MatchesTermProperties(messages[i].subject, "");
    }
    FilterAll(messages, (m: Message) => Shown(m, "", "all"));
  }

  /** The badge colours of a priority name. */
  function PriorityColor(priority: string): (r: string)
    ensures r == "bg-red-100 text-red-800" <==> priority == "high"
    ensures r == "bg-yellow-100 text-yellow-800" <==> priority == "medium"
    ensures priority != "high" && priority != "medium" ==> r == "bg-gray-100 text-gray-800"
  {
    match priority
    case "high" => "bg-red-100 text-red-800"
    case "medium" => "bg-yellow-100 text-yellow-800"
    case _ => "bg-gray-100 text-gray-800"
  }

  /** The three priorities get three different colours. */
  lemma PriorityColorsDistinct(a: Priority, b: Priority)
    ensures a != b ==> PriorityColor(a.Slug()) != PriorityColor(b.Slug())
  {
  }
}
