/**
 * The dashboard's "new chatroom" form: a title field checked for a minimum
 * length, then handed to the persisted directory store.
 */
module RoomForm {
  import DashboardStore

  /** The form schema: a title of at least two characters; nothing else is checked. */
  predicate TitleAccepted(title: string) {
    |title| >= 2
  }

  class ChatroomForm {
    const store: DashboardStore.ChatroomStore
    var title: string

    constructor (store: DashboardStore.ChatroomStore)
      ensures this.store == store && title == ""
    {
      this.store := store;
      title := "";
    }

    /** Typing in the title field. */
    method EditTitle(text: string)
      modifies this
      ensures title == text
    {
      title := text;
    }

    /** Submitting the form. A title shorter than two characters is rejected and the store
      * is left alone. An accepted title, untrimmed, becomes exactly one new room at the front
      * of the store's list, and the form is reset. */
    method Submit(freshId: string, now: string)
      requires store.Valid() && store.IsFreshId(freshId)
      modifies this, store
      ensures store.Valid()
      ensures !TitleAccepted(old(title)) ==> title == old(title) && store.chatrooms == old(store.chatrooms)
      ensures TitleAccepted(old(title)) ==>
        && store.chatrooms == [DashboardStore.Chatroom(freshId, old(title), now)] + old(store.chatrooms)
        && title == ""
    {
      if !TitleAccepted(title) {
        return;
      }
      store.CreateChatroom(title, freshId, now);
      title := "";
    }
  }
}
