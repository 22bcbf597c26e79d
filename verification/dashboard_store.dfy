/**
 * The persisted chatroom directory used by the dashboard: new rooms go to the
 * front of the list, rooms are deleted by id.
 */
module DashboardStore {
  import Seqs

  /** A chatroom record; `createdAt` is the ISO timestamp taken at creation. */
  datatype Chatroom = Chatroom(id: string, title: string, createdAt: string)

  function RoomId(room: Chatroom): string { room.id }

  /** `rooms.filter((r) => r.id !== id)`. */
  function WithoutId(rooms: seq<Chatroom>, id: string): (r: seq<Chatroom>)
    ensures |r| == Seqs.Count(rooms, Seqs.KeyIsNot(RoomId, id))
    ensures forall i :: 0 <= i < |r| ==> r[i] in rooms && r[i].id != id
    ensures forall i :: 0 <= i < |rooms| && rooms[i].id != id ==> rooms[i] in r
    ensures Seqs.IsSubsequence(r, rooms)
  {
    Seqs.RemoveKey(rooms, RoomId, id)
  }

  /** Deleting an id that no room carries leaves the list as it was. */
  lemma DeleteAbsentIsNoOp(rooms: seq<Chatroom>, id: string)
    requires forall i :: 0 <= i < |rooms| ==> rooms[i].id != id
    ensures WithoutId(rooms, id) == rooms
  {
    Seqs.RemoveAbsentKey(rooms, RoomId, id);
  }

  /** With distinct ids, deleting the id of the room at `i` removes that room and no other. */
  lemma DeletePresentRemovesOne(rooms: seq<Chatroom>, i: nat)
    requires Seqs.DistinctBy(rooms, RoomId) && i < |rooms|
    ensures WithoutId(rooms, rooms[i].id) == rooms[..i] + rooms[i + 1..]
    ensures |WithoutId(rooms, rooms[i].id)| == |rooms| - 1
  {
    Seqs.RemoveUniqueKey(rooms, RoomId, i);
  }

  /** Deleting the same id twice is the same as deleting it once. */
  lemma DeleteIdempotent(rooms: seq<Chatroom>, id: string)
    ensures WithoutId(WithoutId(rooms, id), id) == WithoutId(rooms, id)
  {
    Seqs.RemoveKeyIdempotent(rooms, RoomId, id);
  }

  class ChatroomStore {
    var chatrooms: seq<Chatroom>

    /** No two rooms share an id. */
    ghost predicate Valid()
      reads this
    {
      Seqs.DistinctBy(chatrooms, RoomId)
    }

    /** `id` is not the id of any room in the store (what a fresh random UUID guarantees). */
    ghost predicate IsFreshId(id: string)
      reads this
    {
      Seqs.KeyAbsent(chatrooms, RoomId, id)
    }

    /** The store starts with no rooms. */
    constructor ()
      ensures Valid() && chatrooms == []
    {
      chatrooms := [];
    }

    /** `createChatroom(title)`: the new room, carrying `title` verbatim (no trimming,
      * no validation), goes to index 0; the old rooms follow unchanged and in order. */
    method CreateChatroom(title: string, freshId: string, now: string)
      requires Valid() && IsFreshId(freshId)
      modifies this
      ensures Valid()
      ensures chatrooms == [Chatroom(freshId, title, now)] + old(chatrooms)
    {
      var room := Chatroom(freshId, title, now);
      Seqs.PrependFreshKeepsDistinct(room, chatrooms, RoomId);
      chatrooms := [room] + chatrooms;
    }

    /** `deleteChatroom(id)`: every room with that id is gone, the others keep their order. */
    method DeleteChatroom(id: string)
      requires Valid()
      modifies this
      ensures Valid()
      ensures chatrooms == WithoutId(old(chatrooms), id)
    {
      Seqs.RemoveKeyKeepsDistinct(chatrooms, RoomId, id);
      chatrooms := WithoutId(chatrooms, id);
    }
  }
}
