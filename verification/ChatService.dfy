/**
 * The pure core of `ChatService`: titles for new chats, the search filter,
 * the four date buckets, the message list and count kept by `createChat`
 * and `addMessage`, and the newest-first order of `getUserChats`.
 *
 * One user's Firestore collection is a map from chat id to chat; times
 * (`Timestamp.now()`, today's local midnight) are integer milliseconds
 * passed in by the caller.
 */
module ChatService {
  import opened Wrappers
  import opened Strings
  import opened Seqs
  import opened ChatTypes

  // ---------------------------------------------------------------- titles

  const DefaultTitle: string := "Yeni Sohbet"
  const MaxTitleLength: nat := 50
  const CutTitleLength: nat := 47
  const Ellipsis: string := "..."

  /** The title rule: the trimmed message, cut to 47 characters plus `...` when over 50, or the default when empty. */
  ghost predicate IsTitleFor(title: string, firstMessage: string)
  {
    var t := Trim(firstMessage);
    && (|t| == 0 ==> title == DefaultTitle)
    && (0 < |t| <= MaxTitleLength ==> title == t)
    && (|t| > MaxTitleLength ==> title == t[..CutTitleLength] + Ellipsis)
  }

  /** `generateChatTitle`: trim, cut an over-long result, and fall back to the default when empty. */
  method GenerateChatTitle(firstMessage: string) returns (title: string)
    ensures IsTitleFor(title, firstMessage)
  {
    title := Trim(firstMessage);
    if |title| > MaxTitleLength {
      title := title[..CutTitleLength] + Ellipsis;
    }
    if title == "" {
      title := DefaultTitle;
    }
  }

  /** A generated title is never blank and never longer than 50 characters. */
  lemma TitleShape(title: string, firstMessage: string)
    requires IsTitleFor(title, firstMessage)
    ensures 0 < |title| <= MaxTitleLength
    ensures !IsBlank(title)
  {
    var t := Trim(firstMessage);
    if |t| == 0 {
      DefaultTitleShape();
    } else if |t| <= MaxTitleLength {
      NotBlankAt(t, 0);
    } else {
      CutTitleShape(t);
    }
  }

  /** The default title is not blank. */
  lemma DefaultTitleShape()
    ensures |DefaultTitle| == 11 && !IsBlank(DefaultTitle)
  {
    assert DefaultTitle[0] == 'Y';
    NotBlankAt(DefaultTitle, 0);
  }

  /** A cut title is exactly 50 characters long and, starting with a non-space, not blank. */
  lemma CutTitleShape(t: string)
    requires |t| > MaxTitleLength && !IsJsSpace(t[0])
    ensures |t[..CutTitleLength] + Ellipsis| == MaxTitleLength
    ensures !IsBlank(t[..CutTitleLength] + Ellipsis)
  {
    var c := t[..CutTitleLength] + Ellipsis;
    assert c[0] == t[0];
    NotBlankAt(c, 0);
  }

  // ---------------------------------------------------------------- the store

  /** One user's chat collection, keyed by document id. */
  type Store = map<string, ChatHistory>

  /** Every stored chat carries its own id and a `messageCount` equal to its number of messages. */
  ghost predicate Consistent(store: Store)
  {
    forall id :: id in store ==> store[id].id == id && store[id].messageCount == |store[id].messages|
  }

  /**
   * `createChat`: a new document under the fresh id `newId` (Firestore picks
   * it), holding the first message alone, a count of 1 and the derived title.
   */
  method CreateChat(store: Store, newId: string, userEmail: string, firstMessage: Message, model: string, now: int)
    returns (r: Store)
    requires newId !in store
    ensures r.Keys == store.Keys + {newId}
    ensures forall id :: id in store ==> r[id] == store[id]
    ensures r[newId].id == newId && r[newId].userId == userEmail && r[newId].model == model
    ensures r[newId].messages == [firstMessage] && r[newId].messageCount == 1
    ensures r[newId].createdAt == now && r[newId].updatedAt == now
    ensures IsTitleFor(r[newId].title, firstMessage.content) && 0 < |r[newId].title| <= MaxTitleLength
    ensures Consistent(store) ==> Consistent(r)
  {
    var title := GenerateChatTitle(firstMessage.content);
    TitleShape(title, firstMessage.content);
    var chat := ChatHistory(newId, title, now, now, [firstMessage], model, userEmail, 1);
    r := store[newId := chat];
  }

  const ChatNotFound: string := "Chat bulunamadı"

  /**
   * `addMessage`: fails when the chat does not exist; otherwise appends the
   * message, stamps `updatedAt` and sets `messageCount` to the new length.
   * No other chat and no other field changes.
   */
  function AddMessage(store: Store, chatId: string, message: Message, now: int): (r: Result<Store, string>)
    ensures r.Failure? <==> chatId !in store
    ensures r.Failure? ==> r.error == ChatNotFound
    ensures r.Success? ==> r.value.Keys == store.Keys
    ensures r.Success? ==> forall id :: id in store && id != chatId ==> r.value[id] == store[id]
    ensures r.Success? ==>
      var before, after := store[chatId], r.value[chatId];
      && after.messages == before.messages + [message]
      && after.messageCount == |before.messages| + 1
      && after.updatedAt == now
      && after == before.(messages := after.messages, updatedAt := now, messageCount := after.messageCount)
  {
    if chatId !in store then
      Failure(ChatNotFound)
    else
      var chat := store[chatId];
      var updatedMessages := chat.messages + [message];
      Success(store[chatId := chat.(messages := updatedMessages, updatedAt := now, messageCount := |updatedMessages|)])
  }

  /** Adding a message keeps every count in step with its message list. */
  lemma AddMessageKeepsConsistent(store: Store, chatId: string, message: Message, now: int)
    requires Consistent(store)
    ensures AddMessage(store, chatId, message, now).Success? ==> Consistent(AddMessage(store, chatId, message, now).value)
  {
  }

  // ---------------------------------------------------------------- listing

  /** Newest first: `updatedAt` never increases along the list. */
  predicate NewestFirst(s: seq<ChatHistory>)
  {
    forall i, j :: 0 <= i < j < |s| ==> s[i].updatedAt >= s[j].updatedAt
  }

  /** The first `n` cells of `a` are newest first. */
  ghost predicate NewestFirstUpTo(a: array<ChatHistory>, n: int)
    reads a
  {
    forall k, l :: 0 <= k < l < n && l < a.Length ==> a[k].updatedAt >= a[l].updatedAt
  }

  /** The in-place `chats.sort((a, b) => b.updatedAt - a.updatedAt)`, as an insertion sort by adjacent swaps. */
  method SortNewestFirst(a: array<ChatHistory>)
    modifies a
    ensures NewestFirst(a[..])
    ensures multiset(a[..]) == multiset(old(a[..]))
  {
    var i := 1;
    while i < a.Length
      invariant NewestFirstUpTo(a, i)
      invariant multiset(a[..]) == multiset(old(a[..]))
    {
      InsertNewest(a, i);
      i := i + 1;
    }
  }

  /** One insertion step: cell `i` moves down past every older chat, so the first `i + 1` cells are newest first. */
  method InsertNewest(a: array<ChatHistory>, i: nat)
    requires i < a.Length
    requires NewestFirstUpTo(a, i)
    modifies a
    ensures NewestFirstUpTo(a, i + 1)
    ensures multiset(a[..]) == multiset(old(a[..]))
  {
    var j := i;
    while j > 0 && a[j - 1].updatedAt < a[j].updatedAt
      invariant 0 <= j <= i
      invariant forall k, l :: 0 <= k < l <= i && k != j && l != j ==> a[k].updatedAt >= a[l].updatedAt
      invariant forall l :: j < l <= i ==> a[j].updatedAt > a[l].updatedAt
      invariant multiset(a[..]) == multiset(old(a[..]))
    {
      SwapDown(a, j);
      j := j - 1;
    }
  }

  /** Exchange cells `j - 1` and `j`. */
  method SwapDown(a: array<ChatHistory>, j: nat)
    requires 0 < j < a.Length
    modifies a
    ensures a[j - 1] == old(a[j]) && a[j] == old(a[j - 1])
    ensures forall k :: 0 <= k < a.Length && k != j - 1 && k != j ==> a[k] == old(a[k])
    ensures multiset(a[..]) == multiset(old(a[..]))
  {
    a[j - 1], a[j] := a[j], a[j - 1];
  }

  /** `getUserChats`: the fetched documents, all of them, newest first. */
  method GetUserChats(snapshot: seq<ChatHistory>) returns (chats: seq<ChatHistory>)
    ensures NewestFirst(chats)
    ensures multiset(chats) == multiset(snapshot)
  {
    var a := new ChatHistory[|snapshot|](i requires 0 <= i < |snapshot| => snapshot[i]);
    assert a[..] == snapshot;
    SortNewestFirst(a);
    chats := a[..];
  }

  // ---------------------------------------------------------------- date groups

  const DayMs: int := 24 * 60 * 60 * 1000

  /** The bucket of a chat last updated at `updatedAt`, with `todayMidnight` the local midnight that starts today. */
  function Bucket(updatedAt: int, todayMidnight: int): (g: DateGroup)
    ensures g == Today <==> updatedAt >= todayMidnight
    ensures g == Older <==> updatedAt < todayMidnight - 7 * DayMs
  {
    if updatedAt >= todayMidnight then Today
    else if updatedAt >= todayMidnight - DayMs then Yesterday
    else if updatedAt >= todayMidnight - 7 * DayMs then Last7Days
    else Older
  }

  /** Each bucket is one interval of time: today, the day before, the six days before that, and everything earlier. */
  lemma BucketIntervals(updatedAt: int, todayMidnight: int)
    ensures Bucket(updatedAt, todayMidnight) == Today <==> todayMidnight <= updatedAt
    ensures Bucket(updatedAt, todayMidnight) == Yesterday <==> todayMidnight - 86_400_000 <= updatedAt < todayMidnight
    ensures Bucket(updatedAt, todayMidnight) == Last7Days <==> todayMidnight - 604_800_000 <= updatedAt < todayMidnight - 86_400_000
    ensures Bucket(updatedAt, todayMidnight) == Older <==> updatedAt < todayMidnight - 604_800_000
  {
  }

  /** Position of a bucket in the displayed order. */
  function Rank(g: DateGroup): nat
  {
    match g
    case Today => 0
    case Yesterday => 1
    case Last7Days => 2
    case Older => 3
  }

  /** A more recent chat never lands in a later bucket. */
  lemma BucketMonotone(earlier: int, later: int, todayMidnight: int)
    requires earlier <= later
    ensures Rank(Bucket(later, todayMidnight)) <= Rank(Bucket(earlier, todayMidnight))
  {
  }

  function InGroup(g: DateGroup, todayMidnight: int): ChatHistory -> bool
  {
    (c: ChatHistory) => Bucket(c.updatedAt, todayMidnight) == g
  }

  datatype Groups = Groups(today: seq<ChatHistory>, yesterday: seq<ChatHistory>, last7days: seq<ChatHistory>, older: seq<ChatHistory>)
  {
    function Get(g: DateGroup): seq<ChatHistory>
    {
      match g
      case Today => today
      case Yesterday => yesterday
      case Last7Days => last7days
      case Older => older
    }
  }

  /** What `groupChatsByDate` returns: each bucket is the input filtered to that bucket. */
  function Grouped(chats: seq<ChatHistory>, todayMidnight: int): Groups
  {
    Groups(
      Filter(chats, InGroup(Today, todayMidnight)),
      Filter(chats, InGroup(Yesterday, todayMidnight)),
      Filter(chats, InGroup(Last7Days, todayMidnight)),
      Filter(chats, InGroup(Older, todayMidnight)))
  }

  /** `groupChatsByDate`: one pass over the chats, pushing each onto its bucket. */
  method GroupChatsByDate(chats: seq<ChatHistory>, todayMidnight: int) returns (groups: Groups)
    ensures groups == Grouped(chats, todayMidnight)
  {
    var yesterday := todayMidnight - DayMs;
    var last7Days := todayMidnight - 7 * DayMs;
    var today, yest, week, older := [], [], [], [];
    for i := 0 to |chats|
      invariant Groups(today, yest, week, older) == Grouped(chats[..i], todayMidnight)
    {
      var chat := chats[i];
      GroupedStep(chats, i, todayMidnight);
      ghost var next := Push(Groups(today, yest, week, older), chat, todayMidnight);
      if chat.updatedAt >= todayMidnight {
        today := today + [chat];
      } else if chat.updatedAt >= yesterday {
        yest := yest + [chat];
      } else if chat.updatedAt >= last7Days {
        week := week + [chat];
      } else {
        older := older + [chat];
      }
      assert Groups(today, yest, week, older) == next;
    }
    assert chats[..|chats|] == chats;
    groups := Groups(today, yest, week, older);
  }

  /** `g` with `c` pushed onto the end of the bucket its update time selects. */
  function Push(g: Groups, c: ChatHistory, todayMidnight: int): Groups
  {
    match Bucket(c.updatedAt, todayMidnight)
    case Today => g.(today := g.today + [c])
    case Yesterday => g.(yesterday := g.yesterday + [c])
    case Last7Days => g.(last7days := g.last7days + [c])
    case Older => g.(older := g.older + [c])
  }

  /** One more chat at the end of the input goes to the end of its own bucket and nowhere else. */
  lemma GroupedSnoc(chats: seq<ChatHistory>, c: ChatHistory, todayMidnight: int)
    ensures Grouped(chats + [c], todayMidnight) == Push(Grouped(chats, todayMidnight), c, todayMidnight)
  {
    FilterSnoc(chats, c, InGroup(Today, todayMidnight));
    FilterSnoc(chats, c, InGroup(Yesterday, todayMidnight));
    FilterSnoc(chats, c, InGroup(Last7Days, todayMidnight));
    FilterSnoc(chats, c, InGroup(Older, todayMidnight));
  }

  /** Every chat of the four buckets, counted with repetition. */
  ghost function Pooled(g: Groups): multiset<ChatHistory>
  {
    multiset(g.today) + multiset(g.yesterday) + multiset(g.last7days) + multiset(g.older)
  }

  /** The loop step of `groupChatsByDate`: one more chat of the input is pushed onto its bucket. */
  lemma GroupedStep(chats: seq<ChatHistory>, i: nat, todayMidnight: int)
    requires i < |chats|
    ensures Grouped(chats[..i + 1], todayMidnight) == Push(Grouped(chats[..i], todayMidnight), chats[i], todayMidnight)
  {
    assert chats[..i + 1] == chats[..i] + [chats[i]];
    GroupedSnoc(chats[..i], chats[i], todayMidnight);
  }

  /** Pushing a chat adds exactly that chat to the pooled buckets. */
  lemma PooledPush(g: Groups, c: ChatHistory, todayMidnight: int)
    ensures Pooled(Push(g, c, todayMidnight)) == Pooled(g) + multiset{c}
  {
    var a, b, d, e := multiset(g.today), multiset(g.yesterday), multiset(g.last7days), multiset(g.older);
    match Bucket(c.updatedAt, todayMidnight)
    case Today =>
      assert multiset(g.today + [c]) == a + multiset{c};
    case Yesterday =>
      assert multiset(g.yesterday + [c]) == b + multiset{c};
    case Last7Days =>
      assert multiset(g.last7days + [c]) == d + multiset{c};
    case Older =>
      assert multiset(g.older + [c]) == e + multiset{c};
  }

  /** The buckets partition the input: together they hold every chat exactly as often as the input does. */
  lemma {:induction false} GroupingPartition(chats: seq<ChatHistory>, todayMidnight: int)
    ensures Pooled(Grouped(chats, todayMidnight)) == multiset(chats)
  {
    if chats != [] {
      var init, c := chats[..|chats| - 1], chats[|chats| - 1];
      assert chats == init + [c];
      GroupingPartition(init, todayMidnight);
      GroupedSnoc(init, c, todayMidnight);
      PooledPush(Grouped(init, todayMidnight), c, todayMidnight);
    }
  }

  /** The bucket sizes add up to the number of chats. */
  lemma GroupSizes(chats: seq<ChatHistory>, todayMidnight: int)
    ensures var g := Grouped(chats, todayMidnight);
      |g.today| + |g.yesterday| + |g.last7days| + |g.older| == |chats|
  {
    GroupingPartition(chats, todayMidnight);
    var g := Grouped(chats, todayMidnight);
    assert |Pooled(g)| == |multiset(g.today)| + |multiset(g.yesterday)| + |multiset(g.last7days)| + |multiset(g.older)|;
  }

  /** A chat appears in a bucket exactly when that is its bucket, and each bucket keeps the input order. */
  lemma GroupMembership(chats: seq<ChatHistory>, todayMidnight: int, g: DateGroup)
    ensures forall c :: c in Grouped(chats, todayMidnight).Get(g) <==> c in chats && Bucket(c.updatedAt, todayMidnight) == g
    ensures IsSubseq(Grouped(chats, todayMidnight).Get(g), chats)
  {
  }

  // ---------------------------------------------------------------- search

  /** The lowered title, or the lowered content of some message, contains `term`. */
  predicate MatchesTerm(chat: ChatHistory, term: string)
  {
    || Contains(Lower(chat.title), term)
    || exists i :: 0 <= i < |chat.messages| && Contains(Lower(chat.messages[i].content), term)
  }

  function Matching(term: string): ChatHistory -> bool
  {
    (c: ChatHistory) => MatchesTerm(c, term)
  }

  /**
   * `searchChats`: a blank term returns the list unchanged; otherwise the
   * chats matching the lowered (untrimmed) term, in their original order.
   */
  function SearchChats(chats: seq<ChatHistory>, searchTerm: string): (r: seq<ChatHistory>)
    ensures IsBlank(searchTerm) ==> r == chats
    ensures !IsBlank(searchTerm) ==> forall c :: c in r <==> c in chats && MatchesTerm(c, Lower(searchTerm))
    ensures !IsBlank(searchTerm) ==> forall c :: c in chats ==>
      multiset(r)[c] == if MatchesTerm(c, Lower(searchTerm)) then multiset(chats)[c] else 0
    ensures IsSubseq(r, chats)
  {
    if Trim(searchTerm) == [] then
      IsSubseqRefl(chats);
      chats
    else Filter(chats, Matching(Lower(searchTerm)))
  }
}
