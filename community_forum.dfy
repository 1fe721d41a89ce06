/** The forum screen's category selector over its fixed posts. */
module CommunityForum {
  import opened Seqs

  datatype Post = Post(
    id: string,
    author: string,
    title: string,
    content: string,
    timestamp: string,
    likes: nat,
    comments: nat,
    category: string)

  const Posts: seq<Post> := [
    Post("1", "Sarah M.", "Great grocery shopping app recommendation",
         "I found this amazing app that reads out product names when you scan them. Has anyone tried similar tools?",
         "2 hours ago", 12, 5, "Technology"),
    Post("2", "Michael R.", "Navigation tips for busy intersections",
         "I wanted to share some techniques I learned for safely crossing busy intersections using audio cues...",
         "5 hours ago", 8, 3, "Daily Living"),
    Post("3", "Emily Chen", "Volunteer appreciation post",
         "Huge thanks to all the volunteers who help us navigate daily challenges. Your support means everything!",
         "1 day ago", 24, 12, "Community")
  ]

  /** The selector's choices. */
  const Categories: seq<string> := ["All", "Technology", "Daily Living", "Community", "Support"]

  /** filteredPosts: every post for 'All', otherwise exactly the posts of
      that category, in their order. */
  function FilteredPosts(posts: seq<Post>, selected: string): (r: seq<Post>)
    ensures selected == "All" ==> r == posts
    ensures selected != "All" ==>
      (forall i :: 0 <= i < |r| ==> r[i] in posts && r[i].category == selected) &&
      (forall i :: 0 <= i < |posts| && posts[i].category == selected ==> posts[i] in r)
    ensures IsSubsequence(r, posts)
  {
    if selected == "All" then
      assert IsSubsequence(posts, posts) by { SubsequenceOfItself(posts); }
      posts
    else
      FilterSubsequence(posts, (p: Post) => p.category == selected);
      Filter(posts, (p: Post) => p.category == selected)
  }

  lemma {:induction false} SubsequenceOfItself(s: seq<Post>)
    ensures IsSubsequence(s, s)
  {
    if s != [] {
      SubsequenceOfItself(s[1..]);
    }
  }

  /** 'Support' is offered but no post carries it: the list is empty and
      the screen shows its empty-state message. */
  lemma SupportIsEmpty()
    ensures "Support" in Categories
    ensures FilteredPosts(Posts, "Support") == []
  {
    FilterNone(Posts, (p: Post) => p.category == "Support");
  }
}
