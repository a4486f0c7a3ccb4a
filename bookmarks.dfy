/**
 * The bookmark list hook: the signed-in user's bookmarks, a loading flag, and the
 * requests sent to the record store. Each store call's outcome is an argument, so
 * every success and failure path is covered.
 */
module Bookmarks {
  import opened Wrappers
  import opened Text
  import opened Seqs
  import opened UserTypes

  /** A request made to the record store's bookmark table. */
  datatype BookmarkCall = ListBookmarks(userId: string) | CreateBookmark(bookmark: Bookmark) | DeleteBookmark(id: string)

  /** Some bookmark in `s` is for opportunity `opportunityId`. */
  predicate AnyFor(s: seq<Bookmark>, opportunityId: string) {
    exists i :: 0 <= i < |s| && s[i].opportunityId == opportunityId
  }

  /** `bookmarks.find(b => b.opportunityId === opportunityId)`, as the index of the first match. */
  function FindFor(s: seq<Bookmark>, opportunityId: string): (r: Option<nat>)
    ensures r.Some? ==> r.value < |s| && s[r.value].opportunityId == opportunityId &&
                        forall j :: 0 <= j < r.value ==> s[j].opportunityId != opportunityId
    ensures r.None? <==> !AnyFor(s, opportunityId)
  {
    if s == [] then None
    else if s[0].opportunityId == opportunityId then Some(0)
    else match FindFor(s[1..], opportunityId)
      case None => None
      case Some(k) => Some(k + 1)
  }

  /** `prev.filter(b => b.opportunityId !== opportunityId)`. */
  function WithoutOpportunity(s: seq<Bookmark>, opportunityId: string): (r: seq<Bookmark>)
    ensures IsSubsequence(r, s)
    ensures forall b :: b in r <==> b in s && b.opportunityId != opportunityId
    ensures forall b :: multiset(r)[b] == if b.opportunityId == opportunityId then 0 else multiset(s)[b]
    ensures !AnyFor(r, opportunityId)
  {
    var p := (b: Bookmark) => b.opportunityId != opportunityId;
    FilterIsSubsequence(s, p);
    forall b | b in s && p(b) ensures b in Filter(s, p) {
      FilterKeeps(s, p, b);
    }
    forall b ensures multiset(Filter(s, p))[b] == if b.opportunityId == opportunityId then 0 else multiset(s)[b] {
      FilterMultiset(s, p, b);
    }
    Filter(s, p)
  }

  /** Removing a bookmark that is not there changes nothing. */
  lemma WithoutAbsentIsIdentity(s: seq<Bookmark>, opportunityId: string)
    requires !AnyFor(s, opportunityId)
    ensures WithoutOpportunity(s, opportunityId) == s
  {
    FilterAllPass(s, (b: Bookmark) => b.opportunityId != opportunityId);
  }

  /** The record `addBookmark` builds: the deadline is null unless given and non-empty. */
  function NewBookmark(id: string, userId: string, opportunityId: string, title: string, source: string,
                       category: string, deadline: Option<string>): (b: Bookmark)
    ensures b.id == id && b.userId == userId && b.opportunityId == opportunityId
    ensures b.opportunityTitle == title && b.opportunitySource == source && b.opportunityCategory == category
    ensures b.createdAt.None?
    ensures b.opportunityDeadline.Some? <==> Truthy(deadline)
    ensures b.opportunityDeadline.Some? ==> b.opportunityDeadline == deadline
  {
    Bookmark(id, userId, opportunityId, title, source, category, OrNull(deadline), None)
  }

  class BookmarksHook {
    /** `user?.id`; `None` when nobody is signed in. */
    const userId: Option<string>
    var bookmarks: seq<Bookmark>
    var isLoading: bool
    var storeCalls: seq<BookmarkCall>

    constructor (userId: Option<string>)
      ensures this.userId == userId
      ensures bookmarks == [] && isLoading && storeCalls == []
    {
      this.userId := userId;
      bookmarks := [];
      isLoading := true;
      storeCalls := [];
    }

    predicate SignedIn()
    {
      Truthy(userId)
    }

    /**
     * `isBookmarked(opportunityId)`, a `some` over the list: it holds exactly when the
     * `find` that `removeBookmark` uses has a match.
     */
    predicate IsBookmarked(opportunityId: string)
      reads this
      ensures IsBookmarked(opportunityId) <==> FindFor(bookmarks, opportunityId).Some?
    {
      AnyFor(bookmarks, opportunityId)
    }

    /**
     * `fetchBookmarks`: signed out, the list is emptied; signed in, the user's bookmarks
     * are listed and replace the local list, or a failed listing leaves it as it was.
     * Either way loading ends.
     */
    method FetchBookmarks(listed: Result<seq<Bookmark>, string>)
      modifies this
      ensures !isLoading
      ensures !SignedIn() ==> bookmarks == [] && storeCalls == old(storeCalls)
      ensures SignedIn() ==> storeCalls == old(storeCalls) + [ListBookmarks(userId.value)]
      ensures SignedIn() ==> bookmarks == if listed.Ok? then listed.value else old(bookmarks)
    {
      if !SignedIn() {
        bookmarks := [];
        isLoading := false;
        return;
      }
      isLoading := true;
      storeCalls := storeCalls + [ListBookmarks(userId.value)];
      if listed.Ok? {
        bookmarks := listed.value;
      }
      isLoading := false;
    }

    /**
     * `addBookmark`: creates the bookmark in the store and, once that succeeded, puts it
     * first in the local list. There is no duplicate check. A failed create leaves the
     * list unchanged and its error is passed on. Signed out, nothing happens.
     */
    method AddBookmark(opportunityId: string, title: string, source: string, category: string,
                       deadline: Option<string>, freshId: string, created: Outcome<string>)
      returns (r: Result<Option<Bookmark>, string>)
      modifies this
      ensures isLoading == old(isLoading)
      ensures !SignedIn() ==> r == Ok(None) && bookmarks == old(bookmarks) && storeCalls == old(storeCalls)
      ensures SignedIn() ==>
        var b := NewBookmark(freshId, userId.value, opportunityId, title, source, category, deadline);
        storeCalls == old(storeCalls) + [CreateBookmark(b)] &&
        (created.Pass? ==> r == Ok(Some(b)) && bookmarks == [b] + old(bookmarks)) &&
        (created.Fail? ==> r == Err(created.error) && bookmarks == old(bookmarks))
    {
      if !SignedIn() {
        return Ok(None);
      }
      var b := NewBookmark(freshId, userId.value, opportunityId, title, source, category, deadline);
      storeCalls := storeCalls + [CreateBookmark(b)];
      if created.Fail? {
        return Err(created.error);
      }
      bookmarks := [b] + bookmarks;
      r := Ok(Some(b));
    }

    /**
     * `removeBookmark`: deletes the first matching bookmark from the store and, once
     * that succeeded, drops every local bookmark for the opportunity, keeping the rest in
     * order. Without a match, or signed out, nothing happens. A failed delete leaves the
     * list unchanged and its error is passed on.
     */
    method RemoveBookmark(opportunityId: string, deleted: Outcome<string>) returns (r: Outcome<string>)
      modifies this
      ensures isLoading == old(isLoading)
      ensures !SignedIn() || !old(IsBookmarked(opportunityId)) ==>
        r == Pass && bookmarks == old(bookmarks) && storeCalls == old(storeCalls)
      ensures SignedIn() && old(IsBookmarked(opportunityId)) ==>
        var first := FindFor(old(bookmarks), opportunityId).value;
        storeCalls == old(storeCalls) + [DeleteBookmark(old(bookmarks)[first].id)] &&
        r == deleted &&
        bookmarks == if deleted.Pass? then WithoutOpportunity(old(bookmarks), opportunityId) else old(bookmarks)
    {
      if !SignedIn() {
        return Pass;
      }
      var found := FindFor(bookmarks, opportunityId);
      if found.None? {
        return Pass;
      }
      storeCalls := storeCalls + [DeleteBookmark(bookmarks[found.value].id)];
      if deleted.Fail? {
        return deleted;
      }
      bookmarks := WithoutOpportunity(bookmarks, opportunityId);
      r := Pass;
    }

    /**
     * `toggleBookmark`: removes the opportunity's bookmarks when there is one, adds one
     * otherwise. When signed in and the store call succeeds, the opportunity's bookmarked
     * state is flipped; when it fails, the list is unchanged. Signed out, nothing is sent.
     */
    method ToggleBookmark(opportunityId: string, title: string, source: string, category: string,
                          deadline: Option<string>, freshId: string, created: Outcome<string>,
                          deleted: Outcome<string>) returns (r: Outcome<string>)
      modifies this
      ensures isLoading == old(isLoading)
      ensures r == if !SignedIn() then Pass else if old(IsBookmarked(opportunityId)) then deleted else created
      ensures SignedIn() && r.Pass? ==> IsBookmarked(opportunityId) == !old(IsBookmarked(opportunityId))
      ensures r.Fail? || !SignedIn() ==> bookmarks == old(bookmarks)
      ensures !SignedIn() ==> storeCalls == old(storeCalls)
      ensures SignedIn() && old(IsBookmarked(opportunityId)) ==>
        var first := FindFor(old(bookmarks), opportunityId).value;
        storeCalls == old(storeCalls) + [DeleteBookmark(old(bookmarks)[first].id)] &&
        (deleted.Pass? ==> bookmarks == WithoutOpportunity(old(bookmarks), opportunityId))
      ensures SignedIn() && !old(IsBookmarked(opportunityId)) ==>
        var b := NewBookmark(freshId, userId.value, opportunityId, title, source, category, deadline);
        storeCalls == old(storeCalls) + [CreateBookmark(b)] &&
        (created.Pass? ==> bookmarks == [b] + old(bookmarks))
    {
      if IsBookmarked(opportunityId) {
        r := RemoveBookmark(opportunityId, deleted);
      } else {
        var added := AddBookmark(opportunityId, title, source, category, deadline, freshId, created);
        r := if added.Err? then Fail(added.error) else Pass;
        if SignedIn() && created.Pass? {
          assert bookmarks[0].opportunityId == opportunityId;
        }
      }
    }
  }

  /** Two successful toggles in a row restore whether the opportunity is bookmarked. */
  method ToggleTwice(hook: BookmarksHook, opportunityId: string, title: string, source: string, category: string,
                     deadline: Option<string>, freshId1: string, freshId2: string)
    requires hook.SignedIn()
    modifies hook
    ensures hook.IsBookmarked(opportunityId) == old(hook.IsBookmarked(opportunityId))
  {
    var first := hook.ToggleBookmark(opportunityId, title, source, category, deadline, freshId1, Pass, Pass);
    var second := hook.ToggleBookmark(opportunityId, title, source, category, deadline, freshId2, Pass, Pass);
  }

  /** Adding the same opportunity twice leaves two bookmarks for it. */
  method AddTwice(hook: BookmarksHook, opportunityId: string, title: string, source: string, category: string,
                  deadline: Option<string>, freshId1: string, freshId2: string)
    requires hook.SignedIn()
    modifies hook
    ensures |hook.bookmarks| == |old(hook.bookmarks)| + 2
    ensures hook.bookmarks[0].opportunityId == hook.bookmarks[1].opportunityId == opportunityId
  {
    var first := hook.AddBookmark(opportunityId, title, source, category, deadline, freshId1, Pass);
    var second := hook.AddBookmark(opportunityId, title, source, category, deadline, freshId2, Pass);
  }
}
