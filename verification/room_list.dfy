/**
 * The chatroom list page: its own list of named rooms, a "new name" input,
 * create and delete handlers, and the list mirrored to the `"chatrooms"`
 * storage entry.
 */
module RoomList {
  import Seqs
  import Text
  import Storage

  datatype Room = Room(id: string, name: string)

  function RoomId(room: Room): string { room.id }

  const ListKey: string := "chatrooms"

  class ChatroomListPage {
    const storage: Storage.LocalStorage<seq<Room>>
    var chatrooms: seq<Room>
    var newName: string

    /** The `"chatrooms"` entry mirrors the list. */
    ghost predicate Valid()
      reads this, storage
    {
      ListKey in storage.entries && storage.entries[ListKey] == chatrooms
    }

    /** Mounting the page: the list is loaded from `"chatrooms"` when that entry exists and
      * is empty otherwise, and is then written back. */
    constructor (storage: Storage.LocalStorage<seq<Room>>)
      modifies storage
      ensures Valid() && this.storage == storage
      ensures chatrooms == (if ListKey in old(storage.entries) then old(storage.entries)[ListKey] else [])
      ensures newName == ""
      ensures storage.entries == old(storage.entries)[ListKey := chatrooms]
    {
      this.storage := storage;
      var stored := storage.GetItem(ListKey);
      var rooms := if stored.Some? then stored.value else [];
      storage.SetItem(ListKey, rooms);
      chatrooms, newName := rooms, "";
    }

    /** Typing in the "new chatroom name" input. */
    method EditName(name: string)
      requires Valid()
      modifies this
      ensures Valid() && newName == name && chatrooms == old(chatrooms)
    {
      newName := name;
    }

    /** `createChatroom`. A name that is empty or whitespace-only changes nothing. Otherwise
      * one room named by the trimmed input is appended after the unchanged old rooms, the
      * input is cleared and the list is written to storage. A fresh id keeps the ids distinct. */
    method CreateChatroom(freshId: string)
      requires Valid()
      modifies this, storage
      ensures Valid()
      ensures Text.IsBlank(old(newName)) ==>
        chatrooms == old(chatrooms) && newName == old(newName) && storage.entries == old(storage.entries)
      ensures !Text.IsBlank(old(newName)) ==>
        && chatrooms == old(chatrooms) + [Room(freshId, Text.Trim(old(newName)))]
        && newName == ""
        && storage.entries == old(storage.entries)[ListKey := chatrooms]
      ensures Seqs.DistinctBy(old(chatrooms), RoomId) && Seqs.KeyAbsent(old(chatrooms), RoomId, freshId) ==>
        Seqs.DistinctBy(chatrooms, RoomId)
    {
      var name := Text.Trim(newName);
      if name == "" {
        return;
      }
      var room := Room(freshId, name);
      if Seqs.DistinctBy(chatrooms, RoomId) && Seqs.KeyAbsent(chatrooms, RoomId, freshId) {
        Seqs.AppendFreshKeepsDistinct(chatrooms, room, RoomId);
      }
      chatrooms := chatrooms + [room];
      storage.SetItem(ListKey, chatrooms);
      newName := "";
    }

    /** `deleteChatroom(id)`, i.e. `prev.filter((r) => r.id !== id)`: every room with that
      * id is removed, the others keep their order, and the list is written to storage. */
    method DeleteChatroom(id: string)
      requires Valid()
      modifies this, storage
      ensures Valid()
      ensures chatrooms == Seqs.RemoveKey(old(chatrooms), RoomId, id) && newName == old(newName)
      ensures storage.entries == old(storage.entries)[ListKey := chatrooms]
    {
      chatrooms := Seqs.RemoveKey(chatrooms, RoomId, id);
      storage.SetItem(ListKey, chatrooms);
    }
  }

  /** Leaving the page and coming back: the new page shows the list the old one saved. */
  method Remount(page: ChatroomListPage) returns (again: ChatroomListPage)
    requires page.Valid()
    modifies page.storage
    ensures fresh(again) && again.storage == page.storage
    ensures again.Valid() && again.chatrooms == old(page.chatrooms) && again.newName == ""
    ensures page.storage.entries == old(page.storage.entries)
  {
    again := new ChatroomListPage(page.storage);
  }
}
