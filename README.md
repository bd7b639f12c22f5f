# Feed state model of the social app

The social app is a single React component. Beneath its view markup it has one piece of real state: the ordered list `posts`, newest first. That list starts as the three seed posts. Three handlers change it:

- `handlePost` puts a freshly authored post in front.
- `toggleLike` flips the like flag of the post with a given id and adjusts that post's like counter. The counter never goes below zero.
- `handleDialogSubmit` posts the create-dialog's text. Text posts are posted verbatim; photo and video posts get `" "` and the party-popper emoji U+1F389 appended (see `Feed.DialogText` under Left out for how the source file spells it).

The project also models the class-name helper `cx`. It drops falsy arguments and joins the rest with single spaces.

Layout:

- `feed.dfy` (module `Feed`): the `Author`, `Post` and `Payload` records, the seed data, the feed invariant, and the pure updaters the handlers pass to `setPosts`, with lemmas about them.
- `app.dfy` (module `App`): class `SocialApp`, whose `posts` field is the `useState` cell. Its methods `HandlePost`, `HandleDialogSubmit` and `ToggleLike` overwrite that field using the `Feed` updaters. Two client methods derive concrete outcomes from the method contracts alone.
- `class_names.dfy` (module `ClassNames`): `cx`, built from a truthiness filter, a renderer and `join`. It comes with its emptiness and concatenation laws.

Every handler keeps the class invariant `Valid()`. That invariant is `Feed.WellFormed`: ids are pairwise distinct and the like, comment and share counters are non-negative.

Decisions:

- The post id that `crypto.randomUUID()` would produce is a parameter of `HandlePost` and `HandleDialogSubmit`. It must not already be in the feed.
- The dialog payload's `type` is kept as a string, and only the exact string `"text"` counts as a text post. This matches the source's `payload.type === "text"`.
- In the source text, the emoji literals (the party popper at `SocialApp.jsx:635`, and the rocket, dash and sparkles in the seed posts) appear as UTF-8 bytes misread as Windows-1252. The model uses the characters those bytes encode, for example U+1F389 for the suffix `" 🎉"`. It does not use the mis-decoded four-character sequences.
- The author of a new post is the fixed `users[0]`, not a parameter, and `ToggleLike` accepts any id. An id that matches no post is a no-op, as the code's `map` makes it.
- The `Math.max(0, likes - 1)` clamp is modelled exactly, so it holds even for a counter that is already negative.

## Model

| member | source | states |
|---|---|---|
| `Feed.Users` | SocialApp.jsx:74-80 | the mock directory holds five users, whose ids are 1 to 5 in order |
| `Feed.CurrentUser` | SocialApp.jsx:618 | the author of every new post is a member of the user directory with id 1; since directory ids are 1 to 5 in order, that is `users[0]` |
| `Feed.Max` | SocialApp.jsx:647 | `Math.max` returns one of its two arguments and is at least both |
| `Feed.LaunchPost` | SocialApp.jsx:85-96 | the seed post `p1` has id `p1` and non-negative counters |
| `Feed.VibesPost` | SocialApp.jsx:97-108 | the seed post `p2` has id `p2`, non-negative counters, and is already liked by the viewer |
| `Feed.TipPost` | SocialApp.jsx:109-120 | the seed post `p3` has id `p3`, non-negative counters, and no media |
| `Feed.SamplePosts` | SocialApp.jsx:84-121 | the seed feed holds three posts, ids `p1`, `p2`, `p3` in that order, and meets the feed invariant (distinct ids, non-negative counters) |
| `Feed.NewPost` | SocialApp.jsx:616-627 | a new post carries the given id and text, is authored by `users[0]`, is timed `"now"`, has no media and no tags, has all three counters at 0, and is not liked |
| `Feed.Prepend` | SocialApp.jsx:628 | the new post is first, the old list follows unchanged, and the length grows by exactly one |
| `Feed.PrependWellFormed` | SocialApp.jsx:615-629 | prepending a post whose id is fresh and whose counters are non-negative keeps ids distinct and counters non-negative |
| `Feed.DialogText` | SocialApp.jsx:632-636 | the payload text is always a prefix of what is posted; the posted text equals the payload text exactly when the type is `"text"`; otherwise the rest is `" "` followed by U+1F389 |
| `Feed.Toggle` | SocialApp.jsx:645-647 | only `liked` and `likes` change; `liked` is negated; an unliked post gains one like; a liked post loses one like, floored at 0; a non-negative count stays non-negative |
| `Feed.ToggleLike` | SocialApp.jsx:641-651 | length and order are kept; each post with the id becomes its toggled version; each other post is left as it was; an id that matches no post leaves the list identical |
| `Feed.ToggleLikeWellFormed` | SocialApp.jsx:641-651 | toggling keeps every post's id in its slot and so keeps the feed invariant |
| `Feed.ToggleLikeReplacesOne` | SocialApp.jsx:641-651 | with distinct ids, toggling the id found at position k is the same as replacing slot k by its toggled post |
| `Feed.ToggleTwicePost` | SocialApp.jsx:646-647 | for a non-negative count, two toggles restore the post, except that a liked post with 0 likes comes back with 1 like |
| `Feed.ToggleTwice` | SocialApp.jsx:640-652 | whenever the posts with the id have non-negative likes, two toggles of that id restore every post, except matching posts that were liked with 0 likes, which end liked with 1 like; when no post hits that case the feed is restored exactly |
| `App.SocialApp.constructor` | SocialApp.jsx:610 | the state cell starts as the seed posts and meets the invariant |
| `App.SocialApp.HandlePost` | SocialApp.jsx:615-629 | given a fresh id, the feed becomes the new post followed by the old feed, and the invariant is kept |
| `App.SocialApp.HandleDialogSubmit` | SocialApp.jsx:631-638 | exactly one post is prepended, whose text is the dialog text for the payload, and the invariant is kept |
| `App.SocialApp.ToggleLike` | SocialApp.jsx:640-652 | the feed becomes its toggled version for the id, and the invariant is kept |
| `ClassNames.Rendered` | SocialApp.jsx:136 | `join` turns a truthy argument into a non-empty string: a class name stays itself and `true` becomes `"true"` |
| `ClassNames.RenderAll` | SocialApp.jsx:136 | the truthy arguments are rendered one for one, in order, each by `Rendered` |
| `ClassNames.Truthies` | SocialApp.jsx:136 | `filter(Boolean)` keeps only truthy arguments (truthiness as `Truthy`: a non-empty name, or `true`); it keeps every argument when all are truthy; it is empty exactly when none is truthy |
| `ClassNames.TruthiesAppend` | SocialApp.jsx:136 | filtering keeps the original order: filtering a concatenation gives the concatenation of the two filtered halves |
| `ClassNames.JoinAppend` | SocialApp.jsx:136 | joining a concatenation puts exactly one separator between two non-empty halves, and nothing when either half is empty |
| `ClassNames.Join` | SocialApp.jsx:136 | `join(sep)` of a single part is that part; the result starts with the first part; over non-empty parts it gives the empty string exactly when there are no parts |
| `ClassNames.Cx` | SocialApp.jsx:136 | `cx` returns `""` exactly when no argument is truthy |
| `ClassNames.CxAppend` | SocialApp.jsx:136 | `cx` of two argument lists is the two results joined by one space, with an empty result adding nothing |
| `ClassNames.CxSingle` | SocialApp.jsx:136 | `cx` of a single argument is that argument's text when it is truthy, and `""` otherwise |
| `ClassNames.LikeButtonClasses` | SocialApp.jsx:394 | the like button's classes are `"gap-2 text-red-500"` for a liked post and `"gap-2"` otherwise |

## Left out

- All JSX components (`TopNav`, `SideNav`, `StoriesStrip`, `Composer`, `Post`, `RightRail`, `NotificationsPanel`, `MessagesDrawer`, `CreatePostDialog`): they only render. The one exception is the like button's class expression `cx("gap-2", post.liked && "text-red-500")` in `Post` (SocialApp.jsx:394). It is kept, as `ClassNames.LikeButtonClasses`, because it is the only caller of `cx`.
- `useTheme`: it changes the DOM `classList`.
- The framer-motion animations and the Recharts chart over `analyticsData`: third-party rendering.
- The shadcn/ui primitives: their code is not part of this model.
- The open/closed panel flags (`openCreate`, `openMsgs`, `openNotifs`), including the `setOpenCreate(false)` at the end of `handleDialogSubmit`, and the dialog's tab and text reset effect: UI state outside the feed.
- `crypto.randomUUID()`: it is a source of randomness. It is replaced by an id parameter that the caller guarantees is fresh.
- The blank-text guard `!text.trim()` on the Post buttons: it lives in the calling components. `HandlePost` accepts any text, including an empty one, exactly as `handlePost` does.
- React's batching and functional updater mechanics: each handler is modelled as one synchronous overwrite of `posts`.
- ClassNames.Truthies: numbers, objects and the other JavaScript value kinds are not modelled as `cx` arguments. The source passes only strings and the booleans produced by `cond && "name"`. `Absent` stands for `null`/`undefined`.
- Feed.Toggle: the counters are unbounded integers, not JavaScript numbers (IEEE doubles). So the model does not capture that `likes + 1` stops changing once the count passes 2^53. None of the feed's rules depends on counts that large.
- Feed.DialogText: in the source file as stored, the suffix at SocialApp.jsx:635 is the four characters U+00F0 U+0178 U+017D U+2030 (bytes `c3 b0 c5 b8 c5 bd e2 80 b0`). That is the UTF-8 encoding of U+1F389, read as Windows-1252. A program run from that file would append those four characters. The model appends the single intended character U+1F389 instead.
