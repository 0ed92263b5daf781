/**
 * The contact-message inbox (src/components/ContactMessagesPanel.tsx): a fixed list of
 * messages seen through a search field and two drop-down filters, a count of new
 * messages, and the lookup tables for badges and icons.
 */
module Inbox {
  import opened Options
  import opened Strings
  import opened Seqs

  datatype MessageStatus = New | Read | Replied | Archived
  datatype Priority = Low | Medium | High
  datatype Source = ContactForm | Email | Phone

  datatype Message = Message(
    id: string,
    name: string,
    email: string,
    phone: Option<string>,
    subject: string,
    body: string,
    timestamp: string,
    status: MessageStatus,
    priority: Priority,
    source: Source,
    tags: seq<string>)

  /** The string each status has in the source, which the status filter and the badge table key on. */
  function StatusName(s: MessageStatus): (r: string)
    ensures StatusColor(r) == match s
      case New => "bg-blue-400/20 text-blue-400"
      case Read => "bg-yellow-400/20 text-yellow-400"
      case Replied => "bg-green-400/20 text-green-400"
      case Archived => GreyBadge
  {
    match s
    case New => "new"
    case Read => "read"
    case Replied => "replied"
    case Archived => "archived"
  }

  /** The string each priority has in the source, which the priority filter and colour table key on. */
  function PriorityName(p: Priority): (r: string)
    ensures PriorityColor(r) == match p
      case Low => "text-green-400"
      case Medium => "text-yellow-400"
      case High => "text-red-400"
  {
    match p
    case Low => "low"
    case Medium => "medium"
    case High => "high"
  }

  /** The string each source has in the source, which the icon table keys on. */
  function SourceName(s: Source): (r: string)
    ensures SourceIcon(r) == match s
      case ContactForm => MessageCircle
      case Email => Mail
      case Phone => PhoneIcon
  {
    match s
    case ContactForm => "contact-form"
    case Email => "email"
    case Phone => "phone"
  }

  /** Case-insensitive search on the name, the email and the subject only. */
  predicate MatchesSearch(m: Message, term: string)
  {
    var t := ToLower(term);
    Contains(ToLower(m.name), t) || Contains(ToLower(m.email), t) || Contains(ToLower(m.subject), t)
  }

  /** A drop-down filter: "all" lets everything through, any other value demands equality. */
  predicate MatchesChoice(choice: string, value: string)
  {
    choice == "all" || value == choice
  }

  /** The three conditions, all of which a message must meet to be listed. */
  predicate Passes(m: Message, term: string, filterStatus: string, filterPriority: string)
  {
    MatchesSearch(m, term)
    && MatchesChoice(filterStatus, StatusName(m.status))
    && MatchesChoice(filterPriority, PriorityName(m.priority))
  }

  /** `filteredMessages`. */
  function FilteredMessages(messages: seq<Message>, term: string, filterStatus: string, filterPriority: string): (r: seq<Message>)
    ensures IsSubsequence(r, messages)
    ensures forall m :: m in r <==> m in messages && Passes(m, term, filterStatus, filterPriority)
    ensures forall m :: m in messages ==>
      multiset(r)[m] == if Passes(m, term, filterStatus, filterPriority) then multiset(messages)[m] else 0
  {
    var p := (m: Message) => Passes(m, term, filterStatus, filterPriority);
    FilterIsSubsequence(messages, p);
    FilterCounts(messages, p);
    Filter(messages, p)
  }

  /** The search term matches iff its lower-case form occurs in one of the three lower-cased fields. */
  lemma SearchIff(m: Message, term: string)
    ensures MatchesSearch(m, term) <==>
      (exists i :: OccursAt(ToLower(m.name), ToLower(term), i))
      || (exists i :: OccursAt(ToLower(m.email), ToLower(term), i))
      || (exists i :: OccursAt(ToLower(m.subject), ToLower(term), i))
  {
    ContainsIff(ToLower(m.name), ToLower(term));
    ContainsIff(ToLower(m.email), ToLower(term));
    ContainsIff(ToLower(m.subject), ToLower(term));
  }

  /** The case of the search term does not matter. */
  lemma SearchIgnoresTermCase(m: Message, term: string)
    ensures MatchesSearch(m, ToLower(term)) == MatchesSearch(m, term)
  {
    ToLowerIdempotent(term);
  }

  /** The body, the tags, the phone and the other fields are never searched. */
  lemma SearchIgnoresOtherFields(m: Message, body: string, tags: seq<string>, phone: Option<string>, term: string)
    ensures MatchesSearch(m.(body := body, tags := tags, phone := phone), term) == MatchesSearch(m, term)
  {
  }

  /** The status filter "all" accepts every status; any other choice accepts exactly its status. */
  lemma StatusChoice(m: Message, choice: string)
    ensures MatchesChoice("all", StatusName(m.status))
    ensures choice != "all" ==> (MatchesChoice(choice, StatusName(m.status)) <==> StatusName(m.status) == choice)
  {
  }

  /** An empty search with both filters on "all" lists every message, in order. */
  lemma {:induction false} EmptySearchListsAll(messages: seq<Message>)
    ensures FilteredMessages(messages, "", "all", "all") == messages
  {
    forall i | 0 <= i < |messages| ensures Passes(messages[i], "", "all", "all") {
      ContainsEmpty(ToLower(messages[i].name));
    }
  }

  /** Filtering the filtered list again with the same settings changes nothing. */
  lemma FilterTwice(messages: seq<Message>, term: string, filterStatus: string, filterPriority: string)
    ensures var r := FilteredMessages(messages, term, filterStatus, filterPriority);
      FilteredMessages(r, term, filterStatus, filterPriority) == r
  {
    FilterIdempotent(messages, (m: Message) => Passes(m, term, filterStatus, filterPriority));
  }

  predicate IsNew(m: Message)
  {
    m.status == New
  }

  /** The badge's count: new messages among all messages, whatever the filters say. */
  function NewCount(messages: seq<Message>): (n: nat)
    ensures n <= |messages|
    ensures n == 0 <==> forall i :: 0 <= i < |messages| ==> messages[i].status != New
  {
    var r := Filter(messages, IsNew);
    assert r != [] ==> r[0] in r;
    assert forall i :: 0 <= i < |messages| && IsNew(messages[i]) ==> messages[i] in messages && messages[i] in r;
    CountWhere(messages, IsNew)
  }

  /** Choosing "new" with an empty search lists exactly as many messages as the badge counts. */
  lemma {:induction false} NewBadgeMatchesNewFilter(messages: seq<Message>)
    ensures |FilteredMessages(messages, "", "new", "all")| == NewCount(messages)
  {
    forall i | 0 <= i < |messages|
      ensures Passes(messages[i], "", "new", "all") == IsNew(messages[i])
    {
      ContainsEmpty(ToLower(messages[i].name));
      var s := messages[i].status;
      if s != New {
        DifferAt(StatusName(s), "new", 0);
      }
    }
    FilterCongruent(messages, (m: Message) => Passes(m, "", "new", "all"), IsNew);
  }

  // ---------------------------------------------------------------------------
  // Lookup tables: total over strings, anything unknown takes the default branch.

  const GreyBadge := "bg-gray-400/20 text-gray-400"

  function StatusColor(status: string): (c: string)
    ensures status == "new" ==> c == "bg-blue-400/20 text-blue-400"
    ensures status == "read" ==> c == "bg-yellow-400/20 text-yellow-400"
    ensures status == "replied" ==> c == "bg-green-400/20 text-green-400"
    ensures status !in {"new", "read", "replied"} ==> c == GreyBadge
  {
    if status == "new" then "bg-blue-400/20 text-blue-400"
    else if status == "read" then "bg-yellow-400/20 text-yellow-400"
    else if status == "replied" then "bg-green-400/20 text-green-400"
    else if status == "archived" then GreyBadge
    else GreyBadge
  }

  function PriorityColor(priority: string): (c: string)
    ensures priority == "high" ==> c == "text-red-400"
    ensures priority == "medium" ==> c == "text-yellow-400"
    ensures priority == "low" ==> c == "text-green-400"
    ensures priority !in {"high", "medium", "low"} ==> c == "text-gray-400"
  {
    if priority == "high" then "text-red-400"
    else if priority == "medium" then "text-yellow-400"
    else if priority == "low" then "text-green-400"
    else "text-gray-400"
  }

  datatype Icon = MessageCircle | Mail | PhoneIcon

  function SourceIcon(source: string): (i: Icon)
    ensures source == "email" <==> i == Mail
    ensures source == "phone" <==> i == PhoneIcon
    ensures source !in {"email", "phone"} ==> i == MessageCircle
  {
    if source == "contact-form" then MessageCircle
    else if source == "email" then Mail
    else if source == "phone" then PhoneIcon
    else MessageCircle
  }

  /** Every known priority gets its own colour, distinct from the unknown-priority grey. */
  lemma {:induction false} PriorityColorsDistinct(p: Priority, q: Priority)
    ensures PriorityColor(PriorityName(p)) != "text-gray-400"
    ensures PriorityColor(PriorityName(p)) == PriorityColor(PriorityName(q)) <==> p == q
  {
    DifferAt("text-red-400", "text-gray-400", 5);
    DifferAt("text-yellow-400", "text-gray-400", 5);
    DifferAt("text-green-400", "text-gray-400", 7);
    DifferAt("text-red-400", "text-yellow-400", 5);
    DifferAt("text-red-400", "text-green-400", 5);
    DifferAt("text-yellow-400", "text-green-400", 5);
  }
}
