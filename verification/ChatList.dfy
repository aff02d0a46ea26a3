/**
 * The sidebar chat list: its `chats`, `searchTerm` and `isLoading` state,
 * the delete and rename handlers that update the list once the store call
 * has returned, and what the list shows.
 */
module ChatList {
  import opened Wrappers
  import opened Strings
  import opened Seqs
  import opened ChatTypes
  import opened ChatService

  /** `!session?.user?.email` is false: there is an email and it is not empty. */
  predicate SignedIn(email: Option<string>)
  {
    email.Some? && email.value != []
  }

  /** `prev.filter(chat => chat.id !== chatId)`: every other chat, in order, and none with that id. */
  function WithoutChat(chats: seq<ChatHistory>, chatId: string): (r: seq<ChatHistory>)
    ensures forall c :: c in r ==> c.id != chatId
    ensures forall c :: c in chats && c.id != chatId ==> c in r
    ensures forall c :: c in chats ==> multiset(r)[c] == if c.id != chatId then multiset(chats)[c] else 0
    ensures IsSubseq(r, chats)
  {
    Filter(chats, (c: ChatHistory) => c.id != chatId)
  }

  /** `prev.map(chat => chat.id === chatId ? { ...chat, title } : chat)`: only titles of that id change. */
  function RenameIn(chats: seq<ChatHistory>, chatId: string, newTitle: string): (r: seq<ChatHistory>)
    ensures |r| == |chats|
    ensures forall i :: 0 <= i < |chats| ==> r[i].(title := chats[i].title) == chats[i]
    ensures forall i :: 0 <= i < |chats| && chats[i].id == chatId ==> r[i].title == newTitle
    ensures forall i :: 0 <= i < |chats| && chats[i].id != chatId ==> r[i] == chats[i]
  {
    seq(|chats|, i requires 0 <= i < |chats| => if chats[i].id == chatId then chats[i].(title := newTitle) else chats[i])
  }

  /** What the list area shows. */
  datatype ListView =
    | LoginRequired
    | Loading
    | EmptyList(noSearchResults: bool)
    | Sections(groups: Groups)

  class ChatListState {
    var chats: seq<ChatHistory>
    var searchTerm: string
    var isLoading: bool
    /** The `selectedChatId` prop; the parent passes a new value whenever the user picks a chat. */
    var selectedChatId: Option<string>

    constructor(selectedChatId: Option<string>)
      ensures chats == [] && searchTerm == [] && isLoading
      ensures this.selectedChatId == selectedChatId
    {
      chats := [];
      searchTerm := [];
      isLoading := true;
      this.selectedChatId := selectedChatId;
    }

    /**
     * `loadChats`: `fetched` is what `getUserChats` returned, or None when it
     * threw, in which case the list is kept. Loading ends either way.
     */
    method LoadChats(fetched: Option<seq<ChatHistory>>)
      modifies this
      ensures chats == (if fetched.Some? then fetched.value else old(chats))
      ensures !isLoading && searchTerm == old(searchTerm) && selectedChatId == old(selectedChatId)
    {
      isLoading := true;
      if fetched.Some? {
        chats := fetched.value;
      }
      isLoading := false;
    }

    /** A re-render with a new `selectedChatId` prop: the list, the term and loading keep their values. */
    method SetSelectedChatId(chatId: Option<string>)
      modifies this
      ensures selectedChatId == chatId
      ensures chats == old(chats) && searchTerm == old(searchTerm) && isLoading == old(isLoading)
    {
      selectedChatId := chatId;
    }

    /**
     * `handleDeleteChat`: `stored` says whether the store's delete returned
     * (false: it threw). Only then is the chat dropped from the list; the
     * result says whether `onNewChat` is called, which happens when the
     * deleted chat was the selected one.
     */
    method HandleDeleteChat(email: Option<string>, chatId: string, stored: bool) returns (startNewChat: bool)
      modifies this
      ensures SignedIn(email) && stored ==> chats == WithoutChat(old(chats), chatId)
      ensures !(SignedIn(email) && stored) ==> chats == old(chats)
      ensures startNewChat <==> SignedIn(email) && stored && old(selectedChatId) == Some(chatId)
      ensures searchTerm == old(searchTerm) && isLoading == old(isLoading) && selectedChatId == old(selectedChatId)
    {
      startNewChat := false;
      if !SignedIn(email) {
        return;
      }
      if stored {
        chats := WithoutChat(chats, chatId);
        if selectedChatId == Some(chatId) {
          startNewChat := true;
        }
      }
    }

    /** `handleRenameChat`: once the store's update returned, the chat with that id gets the new title. */
    method HandleRenameChat(email: Option<string>, chatId: string, newTitle: string, stored: bool)
      modifies this
      ensures SignedIn(email) && stored ==> chats == RenameIn(old(chats), chatId, newTitle)
      ensures !(SignedIn(email) && stored) ==> chats == old(chats)
      ensures searchTerm == old(searchTerm) && isLoading == old(isLoading) && selectedChatId == old(selectedChatId)
    {
      if !SignedIn(email) {
        return;
      }
      if stored {
        chats := RenameIn(chats, chatId, newTitle);
      }
    }

    /**
     * The rendered list for a given "today" midnight: the login prompt
     * without a session, the spinner while loading, and otherwise the
     * area `Results` describes for the search result.
     */
    function View(hasSession: bool, todayMidnight: int): (v: ListView)
      reads this
      ensures !hasSession <==> v == LoginRequired
      ensures v == Loading <==> hasSession && isLoading
      ensures hasSession && !isLoading ==> v == Results(SearchChats(chats, searchTerm), searchTerm, todayMidnight)
    {
      if !hasSession then LoginRequired
      else if isLoading then Loading
      else Results(SearchChats(chats, searchTerm), searchTerm, todayMidnight)
    }
  }

  /**
   * Picking a chat after the list was built and then deleting that chat
   * starts a new chat: the delete handler reads the current selection.
   */
  method SelectThenDelete(email: Option<string>, chatId: string) returns (startNewChat: bool)
    requires SignedIn(email)
    ensures startNewChat
  {
    var list := new ChatListState(None);
    list.SetSelectedChatId(Some(chatId));
    startNewChat := list.HandleDeleteChat(email, chatId, true);
  }

  /** The loaded list's area for the search result `found`: the empty-state text, or the buckets. */
  function Results(found: seq<ChatHistory>, searchTerm: string, todayMidnight: int): (v: ListView)
    ensures v.EmptyList? || v.Sections?
    ensures v.EmptyList? <==> found == []
    ensures v.EmptyList? ==> (v.noSearchResults <==> searchTerm != [])
    ensures v.Sections? ==> v.groups == Grouped(found, todayMidnight)
    ensures v.Sections? ==>
      |v.groups.today| > 0 || |v.groups.yesterday| > 0 || |v.groups.last7days| > 0 || |v.groups.older| > 0
  {
    if found == [] then EmptyList(searchTerm != [])
    else
      SomeBucketNonEmpty(found, todayMidnight);
      Sections(Grouped(found, todayMidnight))
  }

  /** A non-empty list puts something in at least one bucket. */
  lemma SomeBucketNonEmpty(chats: seq<ChatHistory>, todayMidnight: int)
    requires chats != []
    ensures var g := Grouped(chats, todayMidnight);
      |g.today| > 0 || |g.yesterday| > 0 || |g.last7days| > 0 || |g.older| > 0
  {
    GroupSizes(chats, todayMidnight);
  }

  /** After a delete, the deleted chat appears in no bucket, whatever the search term. */
  lemma DeletedChatNotShown(chats: seq<ChatHistory>, chatId: string, searchTerm: string, todayMidnight: int, g: DateGroup)
    ensures forall c :: c in Grouped(SearchChats(WithoutChat(chats, chatId), searchTerm), todayMidnight).Get(g) ==> c.id != chatId
  {
    var rest := WithoutChat(chats, chatId);
    var found := SearchChats(rest, searchTerm);
    GroupMembership(found, todayMidnight, g);
    forall c | c in found ensures c in rest {
      if !IsBlank(searchTerm) {
        assert c in rest && MatchesTerm(c, Lower(searchTerm));
      }
    }
  }

  /** Renaming keeps every chat's id, so a later delete or rename finds the same chats. */
  lemma RenameKeepsIds(chats: seq<ChatHistory>, chatId: string, newTitle: string)
    ensures forall i :: 0 <= i < |chats| ==> RenameIn(chats, chatId, newTitle)[i].id == chats[i].id
  {
    var r := RenameIn(chats, chatId, newTitle);
    forall i | 0 <= i < |chats| ensures r[i].id == chats[i].id {
      assert r[i].(title := chats[i].title).id == r[i].id;
    }
  }
}
