/**
 * The `SocialApp` component's one piece of feed state: the `posts` cell, and
 * the three handlers that overwrite it through the pure updaters of `Feed`.
 */
module App {
  import opened Feed

  class SocialApp {
    /** The feed, newest first. */
    var posts: seq<Post>

    ghost predicate Valid()
      reads this
    {
      WellFormed(posts)
    }

    /** `useState(samplePosts)`. */
    constructor ()
      ensures Valid()
      ensures posts == SamplePosts()
    {
      posts := SamplePosts();
    }

    /**
     * `handlePost`: the caller supplies the identifier `crypto.randomUUID()`
     * would produce; it must not already be in the feed.
     */
    method HandlePost(id: PostId, text: string)
      requires Valid()
      requires IdFree(posts, id)
      modifies this
      ensures Valid()
      ensures posts == Prepend(old(posts), NewPost(id, text))
    {
      PrependWellFormed(posts, NewPost(id, text));
      posts := Prepend(posts, NewPost(id, text));
    }

    /** `handleDialogSubmit`: text posts verbatim, anything else celebrated. */
    method HandleDialogSubmit(id: PostId, payload: Payload)
      requires Valid()
      requires IdFree(posts, id)
      modifies this
      ensures Valid()
      ensures posts == Prepend(old(posts), NewPost(id, DialogText(payload)))
    {
      if payload.kind == "text" {
        HandlePost(id, payload.text);
      } else {
        HandlePost(id, payload.text + " " + Celebration);
      }
    }

    /** `toggleLike`: flips the post with this id; an unknown id changes nothing. */
    method ToggleLike(id: PostId)
      requires Valid()
      modifies this
      ensures Valid()
      ensures posts == Feed.ToggleLike(old(posts), id)
    {
      ToggleLikeWellFormed(posts, id);
      posts := Feed.ToggleLike(posts, id);
    }
  }

  /** Liking and unliking against the seed feed, using only the handlers' contracts. */
  method LikeSession()
  {
    var app := new SocialApp();
    app.ToggleLike("p2");
    assert app.posts[1].liked == false && app.posts[1].likes == 511;
    assert app.posts[0] == SamplePosts()[0];
  }

  /** Posting against the seed feed, using only the handlers' contracts. */
  method PostSession()
  {
    var app := new SocialApp();
    app.HandlePost("u1", "hello");
    assert |app.posts| == 4 && app.posts[0].text == "hello" && app.posts[1..] == SamplePosts();
    app.HandleDialogSubmit("u2", Payload("photo", "New photo post"));
    assert app.posts[0].text == "New photo post " + Celebration;
    assert app.posts[0].id != app.posts[1].id;
  }
}
