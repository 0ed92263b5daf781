/**
 * The team chat (src/components/TeamChatInterface.tsx): a fixed roster of members, a
 * growing list of messages, and the draft in the input box that the send action turns into
 * a message.
 */
module TeamChat {
  import opened Options
  import opened Strings
  import opened Seqs

  datatype Role = Ceo | Staff | Admin
  datatype Presence = Online | Away | Offline
  datatype MessageKind = TextMessage | ImageMessage | FileMessage | SystemMessage

  datatype ChatMessage = ChatMessage(
    id: string,
    senderId: string,
    senderName: string,
    senderRole: Role,
    content: string,
    timestamp: string,
    kind: MessageKind)

  datatype TeamMember = TeamMember(
    id: string,
    name: string,
    role: Role,
    status: Presence,
    avatar: string,
    lastSeen: Option<string>)

  /** The string each role has in the source, which the icon and colour tables key on. */
  function RoleName(r: Role): (n: string)
    ensures RoleIcon(n) == match r case Ceo => Crown case Staff => Shield case Admin => UserIcon
    ensures RoleColor(n) == match r
      case Ceo => "text-luxury-lavender"
      case Staff => "text-neon-blue"
      case Admin => "text-muted-foreground"
  {
    match r
    case Ceo => "ceo"
    case Staff => "staff"
    case Admin => "admin"
  }

  /** The string each presence has in the source, which the status-dot table keys on. */
  function PresenceName(p: Presence): (n: string)
    ensures StatusColor(n) == match p
      case Online => "bg-green-400"
      case Away => "bg-yellow-400"
      case Offline => "bg-gray-400"
  {
    match p
    case Online => "online"
    case Away => "away"
    case Offline => "offline"
  }

  /** `teamMembers.find(m => m.id === id)`. */
  function FindMember(members: seq<TeamMember>, id: string): (r: Option<TeamMember>)
    ensures r.None? <==> forall i :: 0 <= i < |members| ==> members[i].id != id
    ensures r.Some? ==> exists i :: (0 <= i < |members| && members[i] == r.value && r.value.id == id
      && forall j :: 0 <= j < i ==> members[j].id != id)
  {
    var r := FindFirst(members, (m: TeamMember) => m.id == id);
    assert r.Some? ==> exists i :: FirstMatchAt(members, (m: TeamMember) => m.id == id, i) && members[i] == r.value;
    r
  }

  /**
   * The name put on a sent message: "CEO" for the CEO; otherwise the first roster entry
   * with the sender's id, falling back to "You" when there is none or its name is empty.
   */
  function SenderName(role: Role, members: seq<TeamMember>, userId: string): (r: string)
    ensures role == Ceo ==> r == "CEO"
    ensures role != Ceo && FindMember(members, userId).Some? && FindMember(members, userId).value.name != "" ==>
      r == FindMember(members, userId).value.name
    ensures role != Ceo && FindMember(members, userId).Some? && FindMember(members, userId).value.name == "" ==>
      r == "You"
    ensures role != Ceo && (forall i :: 0 <= i < |members| ==> members[i].id != userId) ==> r == "You"
    ensures r != ""
  {
    if role == Ceo then "CEO"
    else
      var m := FindMember(members, userId);
      if m.Some? && m.value.name != "" then m.value.name else "You"
  }

  /** A member's name is used only when it is the first entry with that id. */
  lemma {:induction false} SenderNameFirstEntry(role: Role, members: seq<TeamMember>, userId: string, i: nat)
    requires role != Ceo && i < |members| && members[i].id == userId && members[i].name != ""
    requires forall j :: 0 <= j < i ==> members[j].id != userId
    ensures SenderName(role, members, userId) == members[i].name
  {
    var m := FindMember(members, userId);
    var k :| 0 <= k < |members| && members[k] == m.value && m.value.id == userId
      && forall j :: 0 <= j < k ==> members[j].id != userId;
    assert k == i;
  }

  predicate IsOnline(m: TeamMember) { m.status == Online }
  predicate IsAway(m: TeamMember) { m.status == Away }
  predicate IsOffline(m: TeamMember) { m.status == Offline }

  /** The header's "N online". */
  function OnlineCount(members: seq<TeamMember>): (n: nat)
    ensures n <= |members|
  {
    CountWhere(members, IsOnline)
  }

  /** Every member is online, away or offline: the three counts add up to the roster size. */
  lemma {:induction false} PresencePartition(members: seq<TeamMember>)
    ensures OnlineCount(members) + CountWhere(members, IsAway) + CountWhere(members, IsOffline) == |members|
  {
    if members != [] {
      PresencePartition(members[1..]);
    }
  }

  /** A message is drawn as the current user's own iff its sender id is the current user's id. */
  predicate IsOwnMessage(m: ChatMessage, currentUserId: string)
  {
    m.senderId == currentUserId
  }

  /** Whether a message is drawn as one's own depends on its sender id alone, not on the name or role it carries. */
  lemma OwnershipBySenderId(m: ChatMessage, currentUserId: string, name: string, role: Role)
    ensures IsOwnMessage(m.(senderName := name, senderRole := role), currentUserId) == IsOwnMessage(m, currentUserId)
    ensures m.senderId != currentUserId ==> !IsOwnMessage(m, currentUserId)
  {
  }

  /** `charAt(0)`: the first character, or the empty string for an empty string. */
  function CharAt0(s: string): (r: string)
    ensures s == [] ==> r == ""
    ensures s != [] ==> r == [s[0]]
  {
    if s == [] then "" else [s[0]]
  }

  /** The avatar next to another member's message: the roster avatar, else the sender name's initial. */
  function AvatarFor(members: seq<TeamMember>, m: ChatMessage): (r: string)
    ensures var f := FindMember(members, m.senderId);
      && (f.Some? && f.value.avatar != "" ==> r == f.value.avatar)
      && (f.None? || f.value.avatar == "" ==> r == CharAt0(m.senderName))
  {
    var f := FindMember(members, m.senderId);
    if f.Some? && f.value.avatar != "" then f.value.avatar else CharAt0(m.senderName)
  }

  datatype Icon = Crown | Shield | UserIcon

  function RoleIcon(role: string): (i: Icon)
    ensures role == "ceo" <==> i == Crown
    ensures role == "staff" <==> i == Shield
  {
    if role == "ceo" then Crown else if role == "staff" then Shield else UserIcon
  }

  function RoleColor(role: string): (c: string)
    ensures role == "ceo" ==> c == "text-luxury-lavender"
    ensures role == "staff" ==> c == "text-neon-blue"
    ensures role != "ceo" && role != "staff" ==> c == "text-muted-foreground"
  {
    if role == "ceo" then "text-luxury-lavender"
    else if role == "staff" then "text-neon-blue"
    else "text-muted-foreground"
  }

  function StatusColor(status: string): (c: string)
    ensures status == "online" ==> c == "bg-green-400"
    ensures status == "away" ==> c == "bg-yellow-400"
    ensures status != "online" && status != "away" ==> c == "bg-gray-400"
  {
    if status == "online" then "bg-green-400"
    else if status == "away" then "bg-yellow-400"
    else if status == "offline" then "bg-gray-400"
    else "bg-gray-400"
  }

  /** Admins fall to the default branch of the role tables. */
  lemma AdminTakesDefaults()
    ensures RoleIcon(RoleName(Admin)) == UserIcon
    ensures RoleColor(RoleName(Admin)) == "text-muted-foreground"
  {
    DifferAt(RoleName(Admin), "ceo", 0);
    DifferAt(RoleName(Admin), "staff", 0);
  }

  /** Whether a key event sends: Enter without Shift. */
  predicate SendsOnKey(key: string, shiftKey: bool)
  {
    key == "Enter" && !shiftKey
  }

  class ChatRoom {
    var messages: seq<ChatMessage>
    var newMessage: string
    const teamMembers: seq<TeamMember>
    const currentUserId: string
    const currentUserRole: Role

    constructor (members: seq<TeamMember>, userId: string, role: Role, initial: seq<ChatMessage>)
      ensures teamMembers == members && currentUserId == userId && currentUserRole == role
      ensures messages == initial && newMessage == ""
    {
      teamMembers := members;
      currentUserId := userId;
      currentUserRole := role;
      messages := initial;
      newMessage := "";
    }

    /** Typing into the input box. */
    method SetDraft(text: string)
      modifies this`newMessage
      ensures newMessage == text
    {
      newMessage := text;
    }

    /** The send button is enabled iff the draft is not blank. */
    function CanSend(): (b: bool)
      reads this
      ensures b <==> Trim(newMessage) != ""
    {
      !IsBlank(newMessage)
    }

    /** The message a send composes from the draft, with caller-supplied id and time. */
    function Compose(id: string, timestamp: string, content: string): (m: ChatMessage)
      reads this
      ensures m.senderId == currentUserId && m.senderRole == currentUserRole
      ensures m.senderName == SenderName(currentUserRole, teamMembers, currentUserId)
      ensures m.content == content && m.kind == TextMessage && m.id == id && m.timestamp == timestamp
      ensures IsOwnMessage(m, currentUserId)
    {
      ChatMessage(id, currentUserId, SenderName(currentUserRole, teamMembers, currentUserId),
        currentUserRole, content, timestamp, TextMessage)
    }

    /**
     * `handleSendMessage`: a blank draft changes nothing; otherwise the untrimmed draft is
     * appended as one text message and the draft is cleared.
     */
    method SendMessage(id: string, timestamp: string) returns (sent: bool)
      modifies this`messages, this`newMessage
      ensures sent <==> old(CanSend())
      ensures !sent ==> messages == old(messages) && newMessage == old(newMessage)
      ensures sent ==> messages == old(messages) + [Compose(id, timestamp, old(newMessage))] && newMessage == ""
    {
      if IsBlank(newMessage) {
        return false;
      }
      var message := Compose(id, timestamp, newMessage);
      messages := messages + [message];
      newMessage := "";
      return true;
    }

    /** `handleKeyPress`: Enter without Shift sends; every other key event changes nothing. */
    method KeyPress(key: string, shiftKey: bool, id: string, timestamp: string) returns (sent: bool)
      modifies this`messages, this`newMessage
      ensures sent <==> SendsOnKey(key, shiftKey) && old(CanSend())
      ensures !sent ==> messages == old(messages) && newMessage == old(newMessage)
      ensures sent ==> messages == old(messages) + [Compose(id, timestamp, old(newMessage))] && newMessage == ""
    {
      sent := false;
      if key == "Enter" && !shiftKey {
        sent := SendMessage(id, timestamp);
      }
    }
  }
}
