/**
 * The dashboard page: a case-insensitive search over the persisted directory
 * store, whose result list is refreshed by a debounced callback.
 */
module Dashboard {
  import Seqs
  import Text
  import DashboardStore

  type Chatroom = DashboardStore.Chatroom

  /** The room's lower-cased title includes the lower-cased term. */
  predicate Matches(room: Chatroom, term: string) {
    Text.Contains(Text.ToLower(room.title), Text.ToLower(term))
  }

  function MatchesTerm(term: string): Chatroom -> bool {
    room => Matches(room, term)
  }

  /** The search filter: exactly the rooms that match the term, in the store's order. */
  function Search(rooms: seq<Chatroom>, term: string): (r: seq<Chatroom>)
    ensures |r| == Seqs.Count(rooms, MatchesTerm(term))
    ensures forall i :: 0 <= i < |r| ==> r[i] in rooms && Matches(r[i], term)
    ensures forall i :: 0 <= i < |rooms| && Matches(rooms[i], term) ==> rooms[i] in r
    ensures Seqs.IsSubsequence(r, rooms)
  {
    Seqs.FilterIsSubsequence(rooms, MatchesTerm(term));
    Seqs.Filter(rooms, MatchesTerm(term))
  }

  /** The empty term finds every room. */
  lemma SearchEmptyTermFindsAll(rooms: seq<Chatroom>)
    ensures Search(rooms, "") == rooms
  {
    forall j | 0 <= j < |rooms| ensures MatchesTerm("")(rooms[j]) {
      Text.ContainsEmpty(Text.ToLower(rooms[j].title));
    }
    Seqs.FilterAllKept(rooms, MatchesTerm(""));
  }

  /** Terms that differ only in the case of their letters find the same rooms. */
  lemma SearchIgnoresCase(rooms: seq<Chatroom>, term1: string, term2: string)
    requires Text.ToLower(term1) == Text.ToLower(term2)
    ensures Search(rooms, term1) == Search(rooms, term2)
  {
    Seqs.FilterExtensional(rooms, MatchesTerm(term1), MatchesTerm(term2));
  }

  /** In particular, searching for a term and for its lower-cased form agree. */
  lemma SearchLowerCasedTerm(rooms: seq<Chatroom>, term: string)
    ensures Search(rooms, Text.ToLower(term)) == Search(rooms, term)
  {
    Text.ToLowerIdempotent(term);
    SearchIgnoresCase(rooms, Text.ToLower(term), term);
  }

  class DashboardPage {
    const store: DashboardStore.ChatroomStore
    var search: string
    var filtered: seq<Chatroom>

    /** Before any search has run, the result list is the whole store list. */
    constructor (store: DashboardStore.ChatroomStore)
      ensures this.store == store && search == "" && filtered == store.chatrooms
    {
      this.store := store;
      search := "";
      filtered := store.chatrooms;
    }

    /** Typing in the search box; the search itself runs later, when the debounce fires. */
    method EditSearch(term: string)
      modifies this
      ensures search == term && filtered == old(filtered)
    {
      search := term;
    }

    /** The debounced search callback fires with `term`: the result list becomes the
      * store's rooms that match it, in the store's order. */
    method SearchFires(term: string)
      modifies this
      ensures search == old(search)
      ensures filtered == Search(store.chatrooms, term)
    {
      filtered := Search(store.chatrooms, term);
    }
  }
}
