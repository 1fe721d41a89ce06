/** The local store behind the forum and the contact list: posts and
    contacts are lists the provider replaces on every operation, each
    replacement a spread or a `map` over the previous list. Ids and
    timestamps come from the clock and are parameters here. */
module Database {
  import opened Optional

  datatype Comment = Comment(id: string, author: string, content: string, timestamp: string, userId: string)

  datatype Post = Post(
    id: string,
    author: string,
    title: string,
    content: string,
    timestamp: string,
    likes: nat,
    comments: seq<Comment>,
    category: string,
    userId: string)

  datatype Contact = Contact(
    id: string,
    name: string,
    relationship: string,
    lastSeen: string,
    faceData: Option<string>,
    userId: string)

  // ---------------------------------------------------------------------
  // The list transforms

  /** likePost's map: one more like on every post with the id. */
  function Liked(posts: seq<Post>, postId: string): (r: seq<Post>)
    ensures |r| == |posts|
    ensures forall i :: 0 <= i < |posts| && posts[i].id == postId ==>
      r[i] == posts[i].(likes := posts[i].likes + 1)
    ensures forall i :: 0 <= i < |posts| && posts[i].id != postId ==> r[i] == posts[i]
  {
    if posts == [] then []
    else
      [if posts[0].id == postId then posts[0].(likes := posts[0].likes + 1) else posts[0]]
      + Liked(posts[1..], postId)
  }

  /** addComment's map: the comment goes at the end of every post with the
      id. */
  function Commented(posts: seq<Post>, postId: string, c: Comment): (r: seq<Post>)
    ensures |r| == |posts|
    ensures forall i :: 0 <= i < |posts| && posts[i].id == postId ==>
      r[i] == posts[i].(comments := posts[i].comments + [c])
    ensures forall i :: 0 <= i < |posts| && posts[i].id != postId ==> r[i] == posts[i]
  {
    if posts == [] then []
    else
      [if posts[0].id == postId then posts[0].(comments := posts[0].comments + [c]) else posts[0]]
      + Commented(posts[1..], postId, c)
  }

  /** updateContactLastSeen's map: a new last-seen time on every contact
      with the id. */
  function Seen(contacts: seq<Contact>, contactId: string, now: string): (r: seq<Contact>)
    ensures |r| == |contacts|
    ensures forall i :: 0 <= i < |contacts| && contacts[i].id == contactId ==>
      r[i] == contacts[i].(lastSeen := now)
    ensures forall i :: 0 <= i < |contacts| && contacts[i].id != contactId ==> r[i] == contacts[i]
  {
    if contacts == [] then []
    else
      [if contacts[0].id == contactId then contacts[0].(lastSeen := now) else contacts[0]]
      + Seen(contacts[1..], contactId, now)
  }

  // ---------------------------------------------------------------------
  // Counting measures for the lemmas

  function TotalLikes(posts: seq<Post>): nat
  {
    if posts == [] then 0 else posts[0].likes + TotalLikes(posts[1..])
  }

  function TotalComments(posts: seq<Post>): nat
  {
    if posts == [] then 0 else |posts[0].comments| + TotalComments(posts[1..])
  }

  /** The number of posts carrying the id. */
  function Matches(posts: seq<Post>, postId: string): nat
  {
    if posts == [] then 0 else (if posts[0].id == postId then 1 else 0) + Matches(posts[1..], postId)
  }

  /** A like adds exactly one to the total for each post with the id (one,
      when ids are unique). */
  lemma {:induction false} LikedTotal(posts: seq<Post>, postId: string)
    ensures TotalLikes(Liked(posts, postId)) == TotalLikes(posts) + Matches(posts, postId)
  {
    if posts != [] {
      LikedTotal(posts[1..], postId);
      assert Liked(posts, postId)[1..] == Liked(posts[1..], postId);
    }
  }

  /** A comment adds exactly one to the total for each post with the id. */
  lemma {:induction false} CommentedTotal(posts: seq<Post>, postId: string, c: Comment)
    ensures TotalComments(Commented(posts, postId, c)) == TotalComments(posts) + Matches(posts, postId)
  {
    if posts != [] {
      CommentedTotal(posts[1..], postId, c);
      assert Commented(posts, postId, c)[1..] == Commented(posts[1..], postId, c);
    }
  }

  /** Liking or commenting on an id no post carries leaves the list equal
      to the old one. */
  lemma AbsentPostUnchanged(posts: seq<Post>, postId: string, c: Comment)
    requires forall i :: 0 <= i < |posts| ==> posts[i].id != postId
    ensures Liked(posts, postId) == posts
    ensures Commented(posts, postId, c) == posts
  {
  }

  /** Updating the last-seen time keeps every contact's id, name,
      relationship, face data and owner. */
  lemma SeenKeepsIdentity(contacts: seq<Contact>, contactId: string, now: string)
    ensures forall i :: 0 <= i < |contacts| ==>
      Seen(contacts, contactId, now)[i].(lastSeen := "") == contacts[i].(lastSeen := "")
  {
  }

  // ---------------------------------------------------------------------
  // The provider

  class Store {
    var posts: seq<Post>
    var contacts: seq<Contact>
    /** The lists last written to local storage. */
    var savedPosts: seq<Post>
    var savedContacts: seq<Contact>

    /** The provider after loading: the lists it read or seeded. */
    constructor (posts: seq<Post>, contacts: seq<Contact>)
      ensures this.posts == posts && this.contacts == contacts
      ensures savedPosts == posts && savedContacts == contacts
    {
      this.posts := posts;
      this.contacts := contacts;
      savedPosts := posts;
      savedContacts := contacts;
    }

    /** addPost: the new post goes first, with no likes and no comments. */
    method AddPost(author: string, title: string, content: string, category: string, userId: string,
                   id: string, timestamp: string)
      modifies this`posts, this`savedPosts
      ensures posts == [Post(id, author, title, content, timestamp, 0, [], category, userId)] + old(posts)
      ensures savedPosts == posts
    {
      var post := Post(id, author, title, content, timestamp, 0, [], category, userId);
      posts := [post] + posts;
      savedPosts := posts;
    }

    method LikePost(postId: string)
      modifies this`posts, this`savedPosts
      ensures posts == Liked(old(posts), postId)
      ensures savedPosts == posts
    {
      posts := Liked(posts, postId);
      savedPosts := posts;
    }

    method AddComment(postId: string, author: string, content: string, userId: string,
                      id: string, timestamp: string)
      modifies this`posts, this`savedPosts
      ensures posts == Commented(old(posts), postId, Comment(id, author, content, timestamp, userId))
      ensures savedPosts == posts
    {
      posts := Commented(posts, postId, Comment(id, author, content, timestamp, userId));
      savedPosts := posts;
    }

    /** addContact: the new contact goes last, seen now. */
    method AddContact(name: string, relationship: string, faceData: Option<string>, userId: string,
                      id: string, now: string)
      modifies this`contacts, this`savedContacts
      ensures contacts == old(contacts) + [Contact(id, name, relationship, now, faceData, userId)]
      ensures savedContacts == contacts
    {
      contacts := contacts + [Contact(id, name, relationship, now, faceData, userId)];
      savedContacts := contacts;
    }

    method UpdateContactLastSeen(contactId: string, now: string)
      modifies this`contacts, this`savedContacts
      ensures contacts == Seen(old(contacts), contactId, now)
      ensures savedContacts == contacts
    {
      contacts := Seen(contacts, contactId, now);
      savedContacts := contacts;
    }
  }
}
