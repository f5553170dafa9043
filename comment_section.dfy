/**
 * The comment list of a challenge page: adding a comment optimistically
 * (a new top-level comment goes first, a reply goes at the end of its
 * parent's replies) and selecting the top-level comments to display.
 */
module CommentSection {
  import opened Wrappers

  /** The signed-in user of the session, as far as comments use it. */
  datatype User = User(name: Option<string>, image: Option<string>)

  /** A comment; `None` stands for a field that is `undefined` or `null`. */
  datatype Comment = Comment(
    id: string,
    text: string,
    author: string,
    authorImage: Option<string>,
    createdAt: string,
    votes: int,
    replies: Option<seq<Comment>>,
    parentId: Option<string>)

  /** JavaScript truthiness of an optional string: present and not empty. */
  predicate Truthy(s: Option<string>) {
    s.Some? && s.value != ""
  }

  /** `s || fallback` for an optional string. */
  function OrElse(s: Option<string>, fallback: string): (r: string)
    ensures Truthy(s) ==> r == s.value
    ensures !Truthy(s) ==> r == fallback
  {
    if Truthy(s) then s.value else fallback
  }

  /** `comment.replies || []`. */
  function RepliesOf(c: Comment): seq<Comment> {
    c.replies.GetOr([])
  }

  /** The comment built for `text` by `user`, with the caller's temporary
      `id` standing for `temp-${Date.now()}`. */
  function NewComment(id: string, text: string, user: User, parentId: Option<string>): (c: Comment)
    ensures c.id == id && c.text == text && c.votes == 1 && c.parentId == parentId
    ensures c.author == if Truthy(user.name) then user.name.value else "Usuario Anónimo"
    ensures c.authorImage == if Truthy(user.image) then user.image else None
    ensures c.replies == None
  {
    Comment(
      id := id,
      text := text,
      author := OrElse(user.name, "Usuario Anónimo"),
      authorImage := if Truthy(user.image) then user.image else None,
      createdAt := "Ahora mismo",
      votes := 1,
      replies := None,
      parentId := parentId)
  }

  /** The `map` callback: append `reply` to `c`'s replies when `c` is the
      parent, keep `c` otherwise. */
  function ReplyTo(c: Comment, parentId: string, reply: Comment): (r: Comment)
    ensures r.(replies := c.replies) == c
    ensures c.id == parentId ==> RepliesOf(r) == RepliesOf(c) + [reply] && r.replies.Some?
    ensures c.id != parentId ==> r == c
  {
    if c.id == parentId then c.(replies := Some(RepliesOf(c) + [reply])) else c
  }

  /** `comments.map(...)`: one level only, nested replies are not searched. */
  function AddReply(comments: seq<Comment>, parentId: string, reply: Comment): (r: seq<Comment>)
    ensures |r| == |comments|
    decreases |comments|
  {
    if comments == [] then []
    else [ReplyTo(comments[0], parentId, reply)] + AddReply(comments[1..], parentId, reply)
  }

  /** `handleAddComment(text, parentId)` as the new comment list: nothing
      happens without a signed-in user; a truthy `parentId` adds a reply,
      anything else puts the new comment in front. */
  function AddComment(comments: seq<Comment>, user: Option<User>, id: string, text: string, parentId: Option<string>): (r: seq<Comment>)
    ensures user.None? ==> r == comments
    ensures user.Some? && Truthy(parentId) ==> |r| == |comments|
    ensures user.Some? && !Truthy(parentId) ==> |r| == |comments| + 1
  {
    if user.None? then
      comments
    else
      var newComment := NewComment(id, text, user.value, parentId);
      if Truthy(parentId) then AddReply(comments, parentId.value, newComment)
      else [newComment] + comments
  }

  /** A reply lands at the end of the replies of every entry whose id is the
      parent's, and every other entry is returned as it was. */
  lemma {:induction false} AddReplyAt(comments: seq<Comment>, parentId: string, reply: Comment, i: int)
    requires 0 <= i < |comments|
    ensures comments[i].id == parentId ==>
              AddReply(comments, parentId, reply)[i]
                == comments[i].(replies := Some(RepliesOf(comments[i]) + [reply]))
    ensures comments[i].id != parentId ==> AddReply(comments, parentId, reply)[i] == comments[i]
    decreases |comments|
  {
    if i > 0 {
      AddReplyAt(comments[1..], parentId, reply, i - 1);
    }
  }

  /** A reply to an id that no entry of the list carries (a reply's own id,
      say) leaves the list as it was. */
  lemma {:induction false} AddReplyUnknownParent(comments: seq<Comment>, parentId: string, reply: Comment)
    requires forall i :: 0 <= i < |comments| ==> comments[i].id != parentId
    ensures AddReply(comments, parentId, reply) == comments
    decreases |comments|
  {
    if comments != [] {
      AddReplyUnknownParent(comments[1..], parentId, reply);
    }
  }

  /** A top-level add puts the new comment at index 0 and shifts every
      existing entry by one, in order. */
  lemma AddTopLevel(comments: seq<Comment>, user: User, id: string, text: string, parentId: Option<string>)
    requires !Truthy(parentId)
    ensures var r := AddComment(comments, Some(user), id, text, parentId);
            && r[0] == NewComment(id, text, user, parentId)
            && r[1..] == comments
  {
  }

  /** `comments.filter(comment => !comment.parentId)`. */
  function TopLevel(comments: seq<Comment>): (r: seq<Comment>)
    ensures |r| <= |comments|
    ensures forall k :: 0 <= k < |r| ==> !Truthy(r[k].parentId)
    ensures forall k :: 0 <= k < |comments| && !Truthy(comments[k].parentId) ==> comments[k] in r
    decreases |comments|
  {
    if comments == [] then []
    else (if Truthy(comments[0].parentId) then [] else [comments[0]]) + TopLevel(comments[1..])
  }

  /** The filter neither invents nor repeats entries: each comment with a
      falsy parentId is kept exactly as often as the input holds it, and
      every other comment is dropped. */
  lemma {:induction false} TopLevelCounts(comments: seq<Comment>, x: Comment)
    ensures multiset(TopLevel(comments))[x] == if Truthy(x.parentId) then 0 else multiset(comments)[x]
    decreases |comments|
  {
    if comments != [] {
      assert comments == [comments[0]] + comments[1..];
      TopLevelCounts(comments[1..], x);
    }
  }

  /** The filter keeps the original order: filtering a concatenation is
      concatenating the filtered parts. */
  lemma {:induction false} TopLevelAppend(a: seq<Comment>, b: seq<Comment>)
    ensures TopLevel(a + b) == TopLevel(a) + TopLevel(b)
    decreases |a|
  {
    if a == [] {
      assert a + b == b;
    } else {
      assert (a + b)[0] == a[0];
      assert (a + b)[1..] == a[1..] + b;
      TopLevelAppend(a[1..], b);
    }
  }

  /** A comment added without a truthy parent id is shown first among the
      top-level comments, ahead of those shown before. */
  lemma AddTopLevelShownFirst(comments: seq<Comment>, user: User, id: string, text: string, parentId: Option<string>)
    requires !Truthy(parentId)
    ensures TopLevel(AddComment(comments, Some(user), id, text, parentId))
         == [NewComment(id, text, user, parentId)] + TopLevel(comments)
  {
  }

  /** Adding a reply never changes which entries are shown at the top level,
      nor their ids or order. */
  lemma {:induction false} AddReplyKeepsTopLevelIds(comments: seq<Comment>, parentId: string, reply: Comment)
    ensures |TopLevel(AddReply(comments, parentId, reply))| == |TopLevel(comments)|
    ensures forall k :: 0 <= k < |TopLevel(comments)| ==>
              TopLevel(AddReply(comments, parentId, reply))[k].id == TopLevel(comments)[k].id
    decreases |comments|
  {
    if comments != [] {
      AddReplyKeepsTopLevelIds(comments[1..], parentId, reply);
    }
  }
}
