/**
 * The feed state model of the social app: the author and post records, the
 * seed data, and the pure updaters that the app hands to its `posts` state
 * cell. Prepending a freshly authored post and toggling a like are the only
 * changes the feed ever sees.
 */
module Feed {

  /** A user who can author posts; immutable display record. */
  datatype Author = Author(id: int, name: string, handle: string, avatar: string)

  type PostId = string

  /** One feed entry. `likes`, `comments` and `shares` are the displayed counters. */
  datatype Post = Post(
    id: PostId,
    author: Author,
    time: string,
    text: string,
    media: string,
    likes: int,
    comments: int,
    shares: int,
    liked: bool,
    tags: seq<string>)

  /** The submission of the create-post dialog: a type tag and a text. */
  datatype Payload = Payload(kind: string, text: string)

  /** The emoji appended to photo and video posts (U+1F389, PARTY POPPER). */
  const Celebration: string := "\U{1F389}"

  function Max(a: int, b: int): (m: int)
    ensures m >= a && m >= b && (m == a || m == b)
  {
    if a < b then b else a
  }

  /** The mock user directory; the first user is the viewer who posts. */
  function Users(): (us: seq<Author>)
    ensures |us| == 5
    ensures forall i :: 0 <= i < |us| ==> us[i].id == i + 1
  {
    [ Author(1, "Ava Stone", "@avastone", "https://i.pravatar.cc/150?img=1"),
      Author(2, "Liam Cole", "@liamcole", "https://i.pravatar.cc/150?img=2"),
      Author(3, "Maya Khan", "@mayak", "https://i.pravatar.cc/150?img=3"),
      Author(4, "Noah Chen", "@noahc", "https://i.pravatar.cc/150?img=4"),
      Author(5, "Zara Ali", "@zarali", "https://i.pravatar.cc/150?img=5") ]
  }

  /** The viewer: the directory entry with id 1. */
  function CurrentUser(): (u: Author)
    ensures u in Users() && u.id == 1
  {
    Users()[0]
  }

  // The long strings of the seed posts, as named constants.
  const LaunchText: string := "Hello world! Kicking off our new launch \U{1F680} \U{2014} drop your thoughts!"
  const LaunchMedia: string := "https://images.unsplash.com/photo-1520975916090-3105956dac38?w=1200&q=80&auto=format&fit=crop"
  const VibesText: string := "Weekend vibes \U{2728}"
  const VibesMedia: string := "https://images.unsplash.com/photo-1500530855697-b586d89ba3ee?w=1200&q=80&auto=format&fit=crop"
  const TipText: string := "Design tip: use consistent spacing scale and 8pt grid for rhythm."

  /** The seed post `p1`. */
  function LaunchPost(): (p: Post)
    ensures p.id == "p1" && CountersNonNegative(p)
  {
    Post("p1", Users()[0], "2h", LaunchText, LaunchMedia, 128, 23, 9, false,
         ["launch", "product", "startup"])
  }

  /** The seed post `p2`, the only one the viewer has already liked. */
  function VibesPost(): (p: Post)
    ensures p.id == "p2" && CountersNonNegative(p) && p.liked
  {
    Post("p2", Users()[2], "5h", VibesText, VibesMedia, 512, 88, 41, true,
         ["travel", "lifestyle"])
  }

  /** The seed post `p3`, the one without media. */
  function TipPost(): (p: Post)
    ensures p.id == "p3" && CountersNonNegative(p) && p.media == ""
  {
    Post("p3", Users()[3], "yesterday", TipText, "", 76, 12, 3, false,
         ["design", "tips"])
  }

  /** The three posts the feed starts with, newest first. */
  function SamplePosts(): (ps: seq<Post>)
    ensures |ps| == 3
    ensures WellFormed(ps)
    ensures ps[0].id == "p1" && ps[1].id == "p2" && ps[2].id == "p3"
  {
    [LaunchPost(), VibesPost(), TipPost()]
  }

  // ---------------------------------------------------------------------
  // Feed invariant
  // ---------------------------------------------------------------------

  /** No post in `ps` carries the identifier `id`. */
  predicate IdFree(ps: seq<Post>, id: PostId) {
    forall i :: 0 <= i < |ps| ==> ps[i].id != id
  }

  /** Distinct positions hold distinct identifiers. */
  predicate UniqueIds(ps: seq<Post>) {
    forall i, j :: 0 <= i < j < |ps| ==> ps[i].id != ps[j].id
  }

  /** The counters of a post are never negative. */
  predicate CountersNonNegative(p: Post) {
    p.likes >= 0 && p.comments >= 0 && p.shares >= 0
  }

  /** The invariant of the feed: unique ids and non-negative counters. */
  predicate WellFormed(ps: seq<Post>) {
    UniqueIds(ps) && forall i :: 0 <= i < |ps| ==> CountersNonNegative(ps[i])
  }

  // ---------------------------------------------------------------------
  // Posting
  // ---------------------------------------------------------------------

  /** The post `handlePost` builds around a caller-supplied identifier. */
  function NewPost(id: PostId, text: string): (p: Post)
    ensures p.id == id && p.text == text && p.author == CurrentUser()
    ensures p.time == "now" && p.media == "" && p.tags == []
    ensures p.likes == 0 && p.comments == 0 && p.shares == 0 && !p.liked
  {
    Post(id, CurrentUser(), "now", text, "", 0, 0, 0, false, [])
  }

  /** The updater `p => [newPost, ...p]`: the new post goes in front. */
  function Prepend(ps: seq<Post>, p: Post): (r: seq<Post>)
    ensures |r| == |ps| + 1 && r[0] == p && r[1..] == ps
  {
    [p] + ps
  }

  /** Prepending a post whose id is fresh keeps the feed invariant. */
  lemma PrependWellFormed(ps: seq<Post>, p: Post)
    requires WellFormed(ps) && IdFree(ps, p.id) && CountersNonNegative(p)
    ensures WellFormed(Prepend(ps, p))
  {
  }

  /** The text `handleDialogSubmit` posts for a dialog payload. */
  function DialogText(payload: Payload): (t: string)
    ensures |payload.text| <= |t| && t[..|payload.text|] == payload.text
    ensures t == payload.text <==> payload.kind == "text"
    ensures payload.kind != "text" ==> t[|payload.text|..] == " " + Celebration
  {
    if payload.kind == "text" then payload.text else payload.text + " " + Celebration
  }

  // ---------------------------------------------------------------------
  // Liking
  // ---------------------------------------------------------------------

  /** A post with its like flipped and its like counter adjusted, clamped at zero. */
  function Toggle(p: Post): (q: Post)
    ensures q == p.(liked := q.liked, likes := q.likes)
    ensures q.liked == !p.liked
    ensures !p.liked ==> q.likes == p.likes + 1
    ensures p.liked && p.likes >= 1 ==> q.likes == p.likes - 1
    ensures p.liked && p.likes < 1 ==> q.likes == 0
    ensures p.likes >= 0 ==> q.likes >= 0
  {
    p.(liked := !p.liked, likes := if p.liked then Max(0, p.likes - 1) else p.likes + 1)
  }

  /**
   * The updater `p.map(post => post.id === id ? toggled : post)`: every post
   * whose id is `id` is toggled, every other post is kept, in place.
   */
  function ToggleLike(ps: seq<Post>, id: PostId): (r: seq<Post>)
    ensures |r| == |ps|
    ensures forall i :: 0 <= i < |ps| && ps[i].id == id ==> r[i] == Toggle(ps[i])
    ensures forall i :: 0 <= i < |ps| && ps[i].id != id ==> r[i] == ps[i]
    ensures IdFree(ps, id) ==> r == ps
  {
    if ps == [] then []
    else [if ps[0].id == id then Toggle(ps[0]) else ps[0]] + ToggleLike(ps[1..], id)
  }

  /** Toggling keeps every id where it was and so keeps the feed invariant. */
  lemma ToggleLikeWellFormed(ps: seq<Post>, id: PostId)
    requires WellFormed(ps)
    ensures WellFormed(ToggleLike(ps, id))
    ensures forall i :: 0 <= i < |ps| ==> ToggleLike(ps, id)[i].id == ps[i].id
  {
  }

  /** With unique ids, toggling the id at position `k` replaces exactly that slot. */
  lemma ToggleLikeReplacesOne(ps: seq<Post>, k: nat)
    requires UniqueIds(ps) && k < |ps|
    ensures ToggleLike(ps, ps[k].id) == ps[k := Toggle(ps[k])]
  {
  }

  /**
   * Two toggles of one post restore its flag; they restore its count too,
   * except that a liked post with no likes comes back with one like.
   */
  lemma ToggleTwicePost(p: Post)
    requires p.likes >= 0
    ensures Toggle(Toggle(p)) == if p.liked && p.likes == 0 then p.(likes := 1) else p
  {
  }

  /**
   * Two toggles on the same id restore the feed, except for the posts caught
   * by the clamp: those that were liked with zero likes end with one like.
   */
  lemma ToggleTwice(ps: seq<Post>, id: PostId)
    requires forall i :: 0 <= i < |ps| && ps[i].id == id ==> ps[i].likes >= 0
    ensures |ToggleLike(ToggleLike(ps, id), id)| == |ps|
    ensures forall i :: 0 <= i < |ps| ==>
      ToggleLike(ToggleLike(ps, id), id)[i] ==
        if ps[i].id == id && ps[i].liked && ps[i].likes == 0 then ps[i].(likes := 1) else ps[i]
    ensures (forall i :: 0 <= i < |ps| && ps[i].id == id ==> !(ps[i].liked && ps[i].likes == 0))
      ==> ToggleLike(ToggleLike(ps, id), id) == ps
  {
  }
}
