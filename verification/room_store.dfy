/**
 * The in-memory chatroom directory: new rooms are appended and handed back to
 * the caller.
 */
module RoomStore {
  import Seqs

  datatype Chatroom = Chatroom(id: string, title: string)

  function RoomId(room: Chatroom): string { room.id }

  class ChatroomStore {
    var chatrooms: seq<Chatroom>

    /** No two rooms share an id. */
    ghost predicate Valid()
      reads this
    {
      Seqs.DistinctBy(chatrooms, RoomId)
    }

    /** `id` is not the id of any room in the store (what a fresh v4 UUID guarantees). */
    ghost predicate IsFreshId(id: string)
      reads this
    {
      Seqs.KeyAbsent(chatrooms, RoomId, id)
    }

    /** The store starts with no rooms. */
    constructor ()
      ensures Valid() && chatrooms == []
    {
      chatrooms := [];
    }

    /** `addChatroom(title)`: appends one room carrying `title` verbatim and returns
      * that same record, which is now the last element. */
    method AddChatroom(title: string, freshId: string) returns (room: Chatroom)
      requires Valid() && IsFreshId(freshId)
      modifies this
      ensures Valid()
      ensures room.id == freshId && room.title == title
      ensures chatrooms == old(chatrooms) + [room]
      ensures chatrooms[|chatrooms| - 1] == room
    {
      room := Chatroom(freshId, title);
      Seqs.AppendFreshKeepsDistinct(chatrooms, room, RoomId);
      chatrooms := chatrooms + [room];
    }
  }
}
