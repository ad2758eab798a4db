/**
 * The reply trimming of a thread section on board pages
 * (Section.shiftReplies in client/posts/section.js): when a thread shows
 * more replies than the abbreviation limit, the oldest reply IDs are shifted
 * off the front, each shifted post that the client still holds is removed,
 * and the omitted-post and omitted-image counters grow accordingly.
 */
module PostsSection {

  /** A post number. */
  type ID = nat

  /** The limit on shown replies: ABBREVIATED_REPLIES, one less while a reply form is open. */
  function Limit(abbreviatedReplies: int, postForm: bool): int {
    if postForm then abbreviatedReplies - 1 else abbreviatedReplies
  }

  /**
   * How many reply IDs the counting loop shifts off a list of `n`: none when
   * `n` is within the limit, down to `lim` otherwise (every ID when `lim` is
   * negative, the extra turns shifting from an empty list).
   */
  function ShiftCount(n: nat, lim: int): (k: nat)
    ensures k <= n
    ensures n <= lim ==> k == 0
    ensures lim >= 0 ==> n - k == if n <= lim then n else lim
    ensures lim < 0 ==> k == n
  {
    if n <= lim then 0 else if lim >= 0 then n - lim else n
  }

  /**
   * The posts removed, in order, when the IDs `ids` are shifted against the
   * post store `posts`: each ID found in the store and not already removed
   * by an earlier shift.
   */
  function Removed(ids: seq<ID>, posts: map<ID, bool>): seq<ID>
  {
    if ids == [] then []
    else
      var init, last := ids[..|ids| - 1], ids[|ids| - 1];
      Removed(init, posts) + (if last in posts && last !in init then [last] else [])
  }

  /** How many of the IDs in `s` are stored posts that have an image. */
  function ImagesAmong(s: seq<ID>, posts: map<ID, bool>): nat
  {
    if s == [] then 0
    else
      var last := s[|s| - 1];
      ImagesAmong(s[..|s| - 1], posts) + (if last in posts && posts[last] then 1 else 0)
  }

  /** No ID occurs twice in `s`. */
  predicate Distinct(s: seq<ID>) {
    forall i, j :: 0 <= i < j < |s| ==> s[i] != s[j]
  }

  /** The IDs occurring in `s`. */
  function Elements(s: seq<ID>): set<ID> {
    set x | x in s
  }

  /** Exactly the shifted IDs that were in the store are removed, no others. */
  lemma {:induction false} RemovedMembers(ids: seq<ID>, posts: map<ID, bool>, x: ID)
    ensures x in Removed(ids, posts) <==> x in ids && x in posts
    decreases |ids|
  {
    if ids != [] {
      var init, last := ids[..|ids| - 1], ids[|ids| - 1];
      assert ids == init + [last];
      RemovedMembers(init, posts, x);
    }
  }

  /** No post is removed twice. */
  lemma {:induction false} RemovedDistinct(ids: seq<ID>, posts: map<ID, bool>)
    ensures Distinct(Removed(ids, posts))
    decreases |ids|
  {
    if ids != [] {
      var init, last := ids[..|ids| - 1], ids[|ids| - 1];
      RemovedDistinct(init, posts);
      RemovedMembers(init, posts, last);
    }
  }

  /** A sequence without repetitions has as many elements as its set. */
  lemma {:induction false} DistinctCard(s: seq<ID>)
    requires Distinct(s)
    ensures |Elements(s)| == |s|
    decreases |s|
  {
    if s != [] {
      var init, last := s[..|s| - 1], s[|s| - 1];
      assert Distinct(init);
      DistinctCard(init);
      assert last !in Elements(init);
      assert Elements(s) == Elements(init) + {last};
    }
  }

  /** The number of removed posts is the number of distinct shifted IDs that were stored. */
  lemma RemovedCount(ids: seq<ID>, posts: map<ID, bool>)
    ensures |Removed(ids, posts)| == |Elements(ids) * posts.Keys|
  {
    var r := Removed(ids, posts);
    RemovedDistinct(ids, posts);
    DistinctCard(r);
    forall x ensures x in Elements(r) <==> x in Elements(ids) * posts.Keys {
      RemovedMembers(ids, posts, x);
    }
    assert Elements(r) == Elements(ids) * posts.Keys;
  }

  /** The stored posts with an image among the IDs of `s`. */
  function WithImage(s: seq<ID>, posts: map<ID, bool>): set<ID> {
    set x | x in s && x in posts && posts[x]
  }

  /** Over a sequence without repetitions, the image count is the number of such posts. */
  lemma {:induction false} ImagesAmongCount(s: seq<ID>, posts: map<ID, bool>)
    requires Distinct(s)
    ensures ImagesAmong(s, posts) == |WithImage(s, posts)|
    ensures ImagesAmong(s, posts) <= |s|
    decreases |s|
  {
    if s != [] {
      var init, last := s[..|s| - 1], s[|s| - 1];
      assert Distinct(init);
      ImagesAmongCount(init, posts);
      assert last !in init;
      if last in posts && posts[last] {
        assert WithImage(s, posts) == WithImage(init, posts) + {last};
      } else {
        assert WithImage(s, posts) == WithImage(init, posts);
      }
    }
  }

  /**
   * The omitted-image count grows by the number of distinct shifted IDs that
   * were stored posts with an image, which is at most the growth of the
   * omitted-post count.
   */
  lemma ImagesOfRemoved(ids: seq<ID>, posts: map<ID, bool>)
    ensures ImagesAmong(Removed(ids, posts), posts) == |WithImage(ids, posts)|
    ensures ImagesAmong(Removed(ids, posts), posts) <= |Removed(ids, posts)|
  {
    var r := Removed(ids, posts);
    RemovedDistinct(ids, posts);
    ImagesAmongCount(r, posts);
    forall x ensures x in WithImage(r, posts) <==> x in WithImage(ids, posts) {
      RemovedMembers(ids, posts, x);
    }
    assert WithImage(r, posts) == WithImage(ids, posts);
  }

  /**
   * What one shift touches besides the reply list: the post collection
   * (post ID to whether the post has an image), the posts whose removal was
   * triggered, in order, and the omitted-post and omitted-image counters.
   */
  datatype Tally = Tally(posts: map<ID, bool>, removed: seq<ID>, omit: nat, imageOmit: nat)

  /**
   * One turn of the counting loop on a shifted ID: a post still held is
   * counted (and its image, if any) and removed; an ID naming no held post
   * is skipped.
   */
  function Drop(t: Tally, id: ID): Tally {
    if id in t.posts then
      Tally(t.posts - {id}, t.removed + [id], t.omit + 1,
            if t.posts[id] then t.imageOmit + 1 else t.imageOmit)
    else t
  }

  /** The effect of shifting the IDs `ids`, oldest first. */
  function DropAll(t: Tally, ids: seq<ID>): Tally {
    if ids == [] then t else Drop(DropAll(t, ids[..|ids| - 1]), ids[|ids| - 1])
  }

  /**
   * Shifting `ids` removes exactly the stored posts among them, each once and
   * in order, and counts them and their images.
   */
  lemma {:induction false} DropAllRemoves(t: Tally, ids: seq<ID>)
    ensures var r := DropAll(t, ids);
            var gone := Removed(ids, t.posts);
            && r.posts == t.posts - Elements(ids)
            && r.removed == t.removed + gone
            && r.omit == t.omit + |gone|
            && r.imageOmit == t.imageOmit + ImagesAmong(gone, t.posts)
    decreases |ids|
  {
    if ids != [] {
      var j := |ids| - 1;
      assert ids[..j] == ids[..|ids| - 1];
      DropAllRemoves(t, ids[..j]);
      ShiftStep(ids, t.posts, j);
      assert ids[..j + 1] == ids;
    }
  }

  /**
   * One more shifted ID, at position `j`: how the shifted set, the removed
   * posts and their image count extend.
   */
  lemma ShiftStep(ids: seq<ID>, posts: map<ID, bool>, j: nat)
    requires j < |ids|
    ensures var id, gone := ids[j], Removed(ids[..j], posts);
            var found := id in posts && id !in ids[..j];
            && (id in posts - Elements(ids[..j]) <==> found)
            && (found ==> (posts - Elements(ids[..j]))[id] == posts[id])
            && (found ==> (posts - Elements(ids[..j])) - {id} == posts - Elements(ids[..j + 1]))
            && (!found ==> posts - Elements(ids[..j]) == posts - Elements(ids[..j + 1]))
            && Removed(ids[..j + 1], posts) == gone + (if found then [id] else [])
            && ImagesAmong(Removed(ids[..j + 1], posts), posts)
               == ImagesAmong(gone, posts) + (if found && posts[id] then 1 else 0)
  {
    var id, gone := ids[j], Removed(ids[..j], posts);
    assert ids[..j + 1] == ids[..j] + [id];
    assert ids[..j + 1][..j] == ids[..j];
    assert Elements(ids[..j + 1]) == Elements(ids[..j]) + {id};
    if id in posts && id !in ids[..j] {
      assert Removed(ids[..j + 1], posts) == gone + [id];
      assert (gone + [id])[..|gone|] == gone;
      assert ImagesAmong(gone + [id], posts)
             == ImagesAmong(gone, posts) + (if posts[id] then 1 else 0);
    } else {
      assert Removed(ids[..j + 1], posts) == gone;
    }
  }

  /**
   * The effect of a shift in the terms of its callers: the posts left are
   * the old ones less the shifted IDs; the newly removed posts are exactly
   * the stored ones among the shifted IDs, none twice; the omitted-post
   * count grows by their number and the omitted-image count by the number of
   * them that have an image, which is never more.
   */
  lemma ShiftEffect(t: Tally, ids: seq<ID>)
    ensures var r := DropAll(t, ids);
            && r.posts == t.posts - Elements(ids)
            && |t.removed| <= |r.removed| && r.removed[..|t.removed|] == t.removed
            && Distinct(r.removed[|t.removed|..])
            && Elements(r.removed[|t.removed|..]) == Elements(ids) * t.posts.Keys
            && r.omit == t.omit + |Elements(ids) * t.posts.Keys|
            && r.imageOmit == t.imageOmit + |WithImage(ids, t.posts)|
            && r.imageOmit - t.imageOmit <= r.omit - t.omit
  {
    var r, gone := DropAll(t, ids), Removed(ids, t.posts);
    DropAllRemoves(t, ids);
    assert r.removed[|t.removed|..] == gone;
    RemovedDistinct(ids, t.posts);
    RemovedCount(ids, t.posts);
    ImagesOfRemoved(ids, t.posts);
    forall x ensures x in Elements(gone) <==> x in Elements(ids) * t.posts.Keys {
      RemovedMembers(ids, t.posts, x);
    }
  }

  /**
   * A thread's section on a board or thread page. `replies`, `omit` and
   * `imageOmit` are the thread model's attributes; `posts` is the client's
   * post collection (post ID to whether the post has an image); `removed`
   * records, in order, the posts whose removal was triggered.
   */
  class Section {
    var replies: seq<ID>
    var omit: nat
    var imageOmit: nat
    var posts: map<ID, bool>
    var removed: seq<ID>

    constructor (replies: seq<ID>, omit: nat, imageOmit: nat, posts: map<ID, bool>)
      ensures this.replies == replies && this.omit == omit && this.imageOmit == imageOmit
      ensures this.posts == posts && this.removed == []
    {
      this.replies := replies;
      this.omit := omit;
      this.imageOmit := imageOmit;
      this.posts := posts;
      this.removed := [];
    }

    /** Everything but the reply list. */
    function State(): Tally
      reads this
    {
      Tally(posts, removed, omit, imageOmit)
    }

    /**
     * Trim the replies on a board page. `onThreadPage` is whether the page
     * shows a single thread, `abbreviatedReplies` the configured
     * ABBREVIATED_REPLIES and `postForm` whether a reply form is open.
     */
    method ShiftReplies(onThreadPage: bool, abbreviatedReplies: int, postForm: bool)
      modifies this
      // On a thread page, or within the limit, nothing changes.
      ensures onThreadPage || |old(replies)| <= Limit(abbreviatedReplies, postForm)
              ==> replies == old(replies) && State() == old(State())
      // Otherwise the oldest IDs are shifted off the front and dropped in turn.
      ensures !onThreadPage ==>
        var k := ShiftCount(|old(replies)|, Limit(abbreviatedReplies, postForm));
        && replies == old(replies)[k..]
        && State() == DropAll(old(State()), old(replies)[..k])
    {
      if onThreadPage {
        return;
      }
      var lim := abbreviatedReplies;
      if postForm {
        lim := lim - 1;
      }
      ghost var r0, t0 := replies, State();
      ghost var n := |replies|;
      ghost var j := 0;  // IDs shifted so far
      var i := |replies|;
      while i > lim
        invariant lim < n ==> lim <= i <= n
        invariant n <= lim ==> i == n
        invariant j == if i >= 0 then n - i else n
        invariant replies == r0[j..]
        invariant State() == DropAll(t0, r0[..j])
        decreases i - lim
      {
        // Shifting an empty list yields undefined, which names no post.
        if replies != [] {
          var id := replies[0];
          replies := replies[1..];
          ghost var before := State();
          if id in posts {
            if posts[id] {
              imageOmit := imageOmit + 1;
            }
            omit := omit + 1;
            posts := posts - {id};
            removed := removed + [id];
          }
          assert State() == Drop(before, id);
          assert r0[..j + 1][..j] == r0[..j];
          j := j + 1;
        }
        i := i - 1;
      }
      assert n <= lim ==> r0[..j] == [];
    }
  }
}
