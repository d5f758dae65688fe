/** The bookmark list: the client-local ordered collection, filled by a fetch
    from the server and reordered by drag-and-drop. */
module BookmarkList {
  import opened Api

  /** A bookmark as the server returns it; `id` is the server's `_id`. */
  datatype Bookmark = Bookmark(
    id: string, url: string, title: string, summary: string,
    tags: seq<string>, createdAt: string)

  /** The message the list shows when the server answers a fetch with a non-ok
      status, whatever that answer says. */
  const FetchFailed := "Failed to fetch bookmarks"

  /** True when some bookmark in `items` carries `id`. */
  predicate HasId(items: seq<Bookmark>, id: string)
  {
    exists k :: 0 <= k < |items| && items[k].id == id
  }

  /** `items.findIndex(item => item._id === id)`: the first position holding
      `id`, or -1 when there is none. */
  function FindIndex(items: seq<Bookmark>, id: string): (i: int)
    ensures -1 <= i < |items|
    ensures i == -1 <==> !HasId(items, id)
    ensures 0 <= i ==> items[i].id == id
    ensures 0 <= i ==> forall k :: 0 <= k < i ==> items[k].id != id
  {
    if |items| == 0 then -1
    else if items[0].id == id then 0
    else
      var j := FindIndex(items[1..], id);
      assert forall k :: 1 <= k < |items| ==> items[k] == items[1..][k - 1];
      if j == -1 then -1 else j + 1
  }

  /** dnd-kit's `arrayMove(s, from, to)`: take out the element at `from`, then
      insert it so that it sits at `to`. The moved element lands at `to`;
      elements outside the range between the two indices keep their places;
      those inside it shift by one toward `from`. */
  function ArrayMove<T>(s: seq<T>, from: nat, to: nat): (r: seq<T>)
    requires from < |s| && to < |s|
    ensures |r| == |s|
    ensures r[to] == s[from]
    ensures forall k :: 0 <= k < from && k < to ==> r[k] == s[k]
    ensures forall k :: from < k < |s| && to < k ==> r[k] == s[k]
    ensures forall k :: from <= k < to ==> r[k] == s[k + 1]
    ensures forall k :: to < k <= from ==> r[k] == s[k - 1]
  {
    var rest := s[..from] + s[from + 1..];
    rest[..to] + [s[from]] + rest[to..]
  }

  /** A move neither adds, drops nor duplicates an element. */
  lemma ArrayMovePermutes<T>(s: seq<T>, from: nat, to: nat)
    requires from < |s| && to < |s|
    ensures multiset(ArrayMove(s, from, to)) == multiset(s)
  {
    var rest := s[..from] + s[from + 1..];
    assert s == s[..from] + [s[from]] + s[from + 1..];
    assert rest == rest[..to] + rest[to..];
    calc {
      multiset(ArrayMove(s, from, to));
      multiset(rest[..to]) + multiset([s[from]]) + multiset(rest[to..]);
      multiset(rest) + multiset([s[from]]);
      multiset(s[..from]) + multiset(s[from + 1..]) + multiset([s[from]]);
      multiset(s);
    }
  }

  /** Dragging the moved element back to where it came from restores the
      original order. */
  lemma ArrayMoveUndo<T>(s: seq<T>, from: nat, to: nat)
    requires from < |s| && to < |s|
    ensures ArrayMove(ArrayMove(s, from, to), to, from) == s
  {
  }

  /** Dropping an element onto its own place changes nothing. */
  lemma ArrayMoveInPlace<T>(s: seq<T>, i: nat)
    requires i < |s|
    ensures ArrayMove(s, i, i) == s
  {
  }

  /** The updater `handleDragEnd` hands to `setBookmarks`: both ids are looked
      up in the current list and the dragged bookmark is moved to the drop
      target's index. The result is a permutation of the list, and the dragged
      bookmark now sits where the target was. */
  function Reordered(items: seq<Bookmark>, activeId: string, overId: string): (r: seq<Bookmark>)
    requires HasId(items, activeId) && HasId(items, overId)
    ensures |r| == |items|
    ensures multiset(r) == multiset(items)
    ensures r[FindIndex(items, overId)] == items[FindIndex(items, activeId)]
    ensures r[FindIndex(items, overId)].id == activeId
  {
    var oldIndex := FindIndex(items, activeId);
    var newIndex := FindIndex(items, overId);
    ArrayMovePermutes(items, oldIndex, newIndex);
    ArrayMove(items, oldIndex, newIndex)
  }

  /** The updater is the identity when the drop target is the dragged
      bookmark itself, so the guard in front of it only saves a render. */
  lemma ReorderedSameId(items: seq<Bookmark>, id: string)
    requires HasId(items, id)
    ensures Reordered(items, id, id) == items
  {
  }

  /** What the component renders, by precedence. */
  datatype ListView = Spinner | ErrorText(text: string) | EmptyState | Cards(items: seq<Bookmark>)

  /** The `BookmarkList` component's state. `fetched` is the list the server
      last returned: the displayed list is always a reordering of it. */
  class ListComponent {
    var bookmarks: seq<Bookmark>
    var loading: bool
    var error: string
    ghost var fetched: seq<Bookmark>

    ghost predicate Valid()
      reads this
    {
      multiset(bookmarks) == multiset(fetched)
    }

    /** The `useState` initialisers: an empty list, loading, no error. */
    constructor ()
      ensures Valid()
      ensures bookmarks == [] && loading && error == ""
    {
      bookmarks := [];
      loading := true;
      error := "";
      fetched := [];
    }

    /** `fetchBookmarks` once the GET has settled: an ok answer replaces the
        whole list with the server's, in the server's order; a non-ok answer
        stores the fixed message and a thrown error its own message, leaving
        the list as it was; loading ends either way. A success does not clear
        an earlier error. */
    method FetchBookmarks(reply: Reply<seq<Bookmark>>)
      requires Valid()
      modifies this
      ensures Valid()
      ensures !loading
      ensures reply.Ok? ==> bookmarks == reply.body && error == old(error)
      ensures reply.Ok? ==> fetched == reply.body
      ensures !reply.Ok? ==> fetched == old(fetched)
      ensures reply.Rejected? ==> bookmarks == old(bookmarks) && error == FetchFailed
      ensures reply.Thrown? ==> bookmarks == old(bookmarks) && error == reply.message
    {
      match reply {
        case Ok(data) =>
          bookmarks := data;
          fetched := data;
        case Rejected(_) =>
          error := FetchFailed;
        case Thrown(message) =>
          error := message;
      }
      loading := false;
    }

    /** `handleDragEnd` for a drag of `activeId` released over `overId`: when
        the two differ the list is rewritten by the updater, otherwise it is
        left alone. Both ids are on the list when they differ, since dnd-kit
        reports only ids of rendered cards. */
    method HandleDragEnd(activeId: string, overId: string)
      requires Valid()
      requires activeId != overId ==> HasId(bookmarks, activeId) && HasId(bookmarks, overId)
      modifies this`bookmarks
      ensures Valid()
      ensures activeId == overId ==> bookmarks == old(bookmarks)
      ensures activeId != overId ==> bookmarks == Reordered(old(bookmarks), activeId, overId)
    {
      if activeId != overId {
        bookmarks := Reordered(bookmarks, activeId, overId);
      }
    }

    /** The render: the spinner while loading, then a non-empty error, then
        the empty-state message for an empty list, then the cards in list
        order. */
    function Render(): (v: ListView)
      reads this
      ensures v == Spinner <==> loading
      ensures v.ErrorText? <==> !loading && error != ""
      ensures v.ErrorText? ==> v.text == error
      ensures v == EmptyState <==> !loading && error == "" && bookmarks == []
      ensures v.Cards? ==> v.items == bookmarks && |v.items| > 0
    {
      if loading then Spinner
      else if error != "" then ErrorText(error)
      else if |bookmarks| == 0 then EmptyState
      else Cards(bookmarks)
    }
  }
}
