/**
 * The chat page of one chatroom: the message log, the compose box, the image
 * preview and the "typing" flag, with the log mirrored to storage under a key
 * derived from the room id. The simulated reply, which the page schedules on a
 * two-second timer, is a separate event here.
 */
module Chat {
  import opened Wrappers
  import Text
  import Storage
  import Seqs

  datatype Sender = User | Ai

  datatype Message = Message(id: string, text: string, sender: Sender, timestamp: int, image: Option<string>)

  const KeyPrefix: string := "chat-messages-"

  /** The canned text of every simulated reply. */
  const ReplyText: string := "This is a simulated Gemini response \U{2728}"

  /** The storage key of a room's message log. */
  function StorageKey(chatId: string): string {
    KeyPrefix + chatId
  }

  /** Different rooms never share a storage key. */
  lemma StorageKeyInjective(a: string, b: string)
    ensures StorageKey(a) == StorageKey(b) ==> a == b
  {
    if StorageKey(a) == StorageKey(b) {
      assert a == StorageKey(a)[|KeyPrefix|..];
      assert b == StorageKey(b)[|KeyPrefix|..];
    }
  }

  /** The image preview is a non-empty data URL (a truthy value). */
  predicate HasPreview(preview: Option<string>) {
    preview.Some? && preview.value != ""
  }

  /** The send guard: something other than whitespace was typed, or an image is attached. */
  predicate CanSend(text: string, preview: Option<string>) {
    Text.Trim(text) != "" || HasPreview(preview)
  }

  /** The predicate "this message was sent by `sender`". */
  function IsFrom(sender: Sender): Message -> bool {
    (m: Message) => m.sender == sender
  }

  /** The number of messages in `log` sent by `sender`. */
  function CountFrom(log: seq<Message>, sender: Sender): nat {
    Seqs.Count(log, IsFrom(sender))
  }

  /** Appending one message adds one to its sender's count and leaves the other count alone. */
  lemma CountAppend(log: seq<Message>, m: Message, sender: Sender)
    ensures CountFrom(log + [m], sender) == CountFrom(log, sender) + (if m.sender == sender then 1 else 0)
  {
    Seqs.CountAppend(log, m, IsFrom(sender));
  }

  /** Appending to a log moves only the counts of the new message's sender, also when
    * counting from a mounting point. */
  lemma AppendCounts(log: seq<Message>, from: nat, m: Message)
    requires from <= |log|
    ensures (log + [m])[from..] == log[from..] + [m]
    ensures CountFrom((log + [m])[from..], User) == CountFrom(log[from..], User) + (if m.sender == User then 1 else 0)
    ensures CountFrom((log + [m])[from..], Ai) == CountFrom(log[from..], Ai) + (if m.sender == Ai then 1 else 0)
  {
    assert (log + [m])[from..] == log[from..] + [m];
    CountAppend(log[from..], m, User);
    CountAppend(log[from..], m, Ai);
  }

  class ChatroomPage {
    const chatId: string
    const storageKey: string
    const storage: Storage.LocalStorage<seq<Message>>
    var messages: seq<Message>
    var newMessage: string
    var imagePreview: Option<string>
    var isTyping: bool
    /** The page is mounted. Once it is unmounted, React drops its state updates and its
      * effects no longer run. */
    var live: bool
    /** Replies scheduled and not yet fired. */
    ghost var pendingReplies: nat
    /** Replies that fired after the page was unmounted, and were therefore dropped. */
    ghost var lostReplies: nat
    /** How many messages the log held when the page mounted. */
    ghost var mounted: nat

    /** While the page is mounted, the storage entry mirrors the log and the typing flag is
      * on only while a reply is pending. Since mounting, every user message has been
      * answered, has its reply pending, or had its reply dropped after unmounting, which
      * cannot happen while the page is still mounted. */
    ghost predicate Valid()
      reads this, storage
    {
      && storageKey == StorageKey(chatId)
      && mounted <= |messages|
      && CountFrom(messages[mounted..], User) == CountFrom(messages[mounted..], Ai) + pendingReplies + lostReplies
      && (live ==> storageKey in storage.entries && storage.entries[storageKey] == messages)
      && (live ==> lostReplies == 0 && (isTyping ==> pendingReplies > 0))
    }

    /** Mounting the page for room `chatId`: the log is loaded from storage when an entry
      * exists and is empty otherwise, and is then written back under the room's key. */
    constructor (chatId: string, storage: Storage.LocalStorage<seq<Message>>)
      modifies storage
      ensures Valid() && live && this.chatId == chatId && this.storage == storage
      ensures mounted == |messages| && lostReplies == 0
      ensures messages == (if StorageKey(chatId) in old(storage.entries) then old(storage.entries)[StorageKey(chatId)] else [])
      ensures newMessage == "" && imagePreview == None && !isTyping && pendingReplies == 0
      ensures storage.entries == old(storage.entries)[StorageKey(chatId) := messages]
    {
      this.chatId := chatId;
      this.storageKey := StorageKey(chatId);
      this.storage := storage;
      var saved := storage.GetItem(StorageKey(chatId));
      var log := if saved.Some? then saved.value else [];
      storage.SetItem(StorageKey(chatId), log);
      messages, newMessage, imagePreview, isTyping, live := log, "", None, false, true;
      pendingReplies, lostReplies, mounted := 0, 0, |log|;
    }

    /** `setMessages(prev => [...prev, m])` followed by the effect that writes the whole
      * log to storage. */
    method AppendMessage(m: Message)
      requires storageKey in storage.entries && storage.entries[storageKey] == messages && mounted <= |messages|
      modifies this`messages, storage
      ensures messages == old(messages) + [m]
      ensures storage.entries == old(storage.entries)[storageKey := messages]
      ensures CountFrom(messages[mounted..], User) == CountFrom(old(messages)[mounted..], User) + (if m.sender == User then 1 else 0)
      ensures CountFrom(messages[mounted..], Ai) == CountFrom(old(messages)[mounted..], Ai) + (if m.sender == Ai then 1 else 0)
    {
      AppendCounts(messages, mounted, m);
      messages := messages + [m];
      storage.SetItem(storageKey, messages);
    }

    /** Typing in the compose box of the mounted page. */
    method EditMessage(text: string)
      requires Valid() && live
      modifies this
      ensures Valid() && live
      ensures newMessage == text
      ensures messages == old(messages) && imagePreview == old(imagePreview) && isTyping == old(isTyping)
      ensures pendingReplies == old(pendingReplies) && lostReplies == old(lostReplies) && mounted == old(mounted)
    {
      newMessage := text;
    }

    /** A selected image has been read as a data URL. */
    method SelectImage(dataUrl: string)
      requires Valid() && live
      modifies this
      ensures Valid() && live
      ensures imagePreview == Some(dataUrl)
      ensures messages == old(messages) && newMessage == old(newMessage) && isTyping == old(isTyping)
      ensures pendingReplies == old(pendingReplies) && lostReplies == old(lostReplies) && mounted == old(mounted)
    {
      imagePreview := Some(dataUrl);
    }

    /** `handleSendMessage`, from the send button of the mounted page. When the guard fails
      * nothing changes. Otherwise exactly one user message is appended, carrying the
      * untrimmed text and the image only if a preview exists; the compose state is cleared,
      * the typing flag raised, one reply scheduled, and the whole log written to storage. */
    method SendMessage(freshId: string, now: int)
      requires Valid() && live
      modifies this, storage
      ensures Valid() && live
      ensures lostReplies == old(lostReplies) && mounted == old(mounted)
      ensures !CanSend(old(newMessage), old(imagePreview)) ==>
        && messages == old(messages) && newMessage == old(newMessage)
        && imagePreview == old(imagePreview) && isTyping == old(isTyping)
        && pendingReplies == old(pendingReplies)
        && storage.entries == old(storage.entries)
      ensures CanSend(old(newMessage), old(imagePreview)) ==>
        messages == old(messages) + [Message(freshId, old(newMessage), User, now,
                                             if HasPreview(old(imagePreview)) then old(imagePreview) else None)]
      ensures CanSend(old(newMessage), old(imagePreview)) ==>
        newMessage == "" && imagePreview == None && isTyping && pendingReplies == old(pendingReplies) + 1
      ensures CanSend(old(newMessage), old(imagePreview)) ==>
        storage.entries == old(storage.entries)[storageKey := messages]
    {
      if CanSend(newMessage, imagePreview) {
        var image := if HasPreview(imagePreview) then imagePreview else None;
        AppendMessage(Message(freshId, newMessage, User, now, image));
        newMessage, imagePreview, isTyping := "", None, true;
        pendingReplies := pendingReplies + 1;
      }
    }

    /** A scheduled reply fires. On the mounted page exactly one AI message with the canned
      * text is appended, the typing flag drops, and the whole log is written to storage.
      * On a page that has been unmounted the updates are dropped: nothing changes, and the
      * reply is lost. */
    method ReplyArrives(freshId: string, now: int)
      requires Valid() && pendingReplies > 0
      modifies this, storage
      ensures Valid()
      ensures live == old(live) && mounted == old(mounted)
      ensures newMessage == old(newMessage) && imagePreview == old(imagePreview)
      ensures pendingReplies == old(pendingReplies) - 1
      ensures old(live) ==>
        && messages == old(messages) + [Message(freshId, ReplyText, Ai, now, None)]
        && !isTyping && lostReplies == old(lostReplies)
        && storage.entries == old(storage.entries)[storageKey := messages]
      ensures !old(live) ==>
        && messages == old(messages) && isTyping == old(isTyping)
        && lostReplies == old(lostReplies) + 1
        && storage.entries == old(storage.entries)
    {
      if live {
        AppendMessage(Message(freshId, ReplyText, Ai, now, None));
        isTyping := false;
      } else {
        lostReplies := lostReplies + 1;
      }
      pendingReplies := pendingReplies - 1;
    }

    /** Leaving the page ("Back to Chatrooms" or any other navigation): it is unmounted. */
    method Unmount()
      requires Valid()
      modifies this`live
      ensures Valid() && !live
    {
      live := false;
    }
  }

  /** Leaving a room and opening it again: the old page is unmounted, and the new page
    * shows the log the old one saved, reading and writing the same storage. */
  method Remount(page: ChatroomPage) returns (again: ChatroomPage)
    requires page.Valid() && page.live
    modifies page, page.storage
    ensures fresh(again) && again.storage == page.storage && again.chatId == page.chatId
    ensures again.Valid() && again.live && again.messages == old(page.messages)
    ensures again.newMessage == "" && again.imagePreview == None && !again.isTyping
    ensures again.pendingReplies == 0 && again.lostReplies == 0 && again.mounted == |again.messages|
    ensures page.storage.entries == old(page.storage.entries)
    ensures page.Valid() && !page.live
    ensures page.messages == old(page.messages) && page.pendingReplies == old(page.pendingReplies)
    ensures page.lostReplies == old(page.lostReplies) && page.mounted == old(page.mounted)
  {
    page.Unmount();
    again := new ChatroomPage(page.chatId, page.storage);
  }

  /** Leaving a room while a reply is due, then reopening it: the reply fires on the old,
    * unmounted page and is lost. The stored log and the reopened page keep the user
    * message without its answer, so since the old page mounted, the log holds more user
    * messages than replies. */
  method LeaveBeforeReply(page: ChatroomPage, freshId: string, now: int) returns (again: ChatroomPage)
    requires page.Valid() && page.live && page.pendingReplies > 0
    modifies page, page.storage
    ensures fresh(again) && again.Valid() && again.live
    ensures again.messages == old(page.messages)
    ensures !again.isTyping && again.pendingReplies == 0
    ensures page.storage.entries == old(page.storage.entries)
    ensures page.mounted <= |again.messages|
    ensures CountFrom(again.messages[page.mounted..], User) > CountFrom(again.messages[page.mounted..], Ai)
  {
    again := Remount(page);
    page.ReplyArrives(freshId, now);
  }
}
