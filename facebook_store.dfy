/** The Facebook-group store: group statistics, posts, members, the connection flags and the
    newest-first list of content syndicated to the group. */
module FacebookStore {
  import opened Common

  datatype Author = Author(name: string, profilePicture: string, id: string)

  datatype AttachmentType = ImageAttachment | VideoAttachment | LinkAttachment
  datatype Attachment = Attachment(kind: AttachmentType, url: string, title: Option<string>, description: Option<string>)

  datatype PostType = TextPost | ImagePost | VideoPost | LinkPost

  datatype Post = Post(
    id: string,
    message: string,
    author: Author,
    createdTime: string,
    likes: int,
    comments: int,
    shares: int,
    hashtags: seq<string>,
    persona: Option<seq<string>>,
    engagement: int,
    kind: PostType,
    attachments: Option<seq<Attachment>>)

  datatype ContributionLevel = Lurker | Participant | Contributor | Expert

  datatype Member = Member(
    id: string, name: string, profilePicture: string, joinDate: string, engagementScore: int,
    persona: Option<string>, isWebsiteMember: bool, lastActivity: string, contributionLevel: ContributionLevel)

  datatype GroupStats = GroupStats(
    totalMembers: int, activeMembers: int, postsToday: int, engagementRate: real, growthRate: real,
    topHashtags: seq<string>)

  datatype SyndicationStatus = Draft | Scheduled | Posted | Failed

  datatype Performance = Performance(reach: int, engagement: int, clicks: int, conversions: int)

  datatype Syndication = Syndication(
    id: string,
    title: string,
    content: string,
    targetPersonas: seq<string>,
    hashtags: seq<string>,
    scheduledTime: Option<string>,
    status: SyndicationStatus,
    performance: Option<Performance>)

  /** A post is tagged with a persona when it has a persona list that contains it. */
  predicate TaggedWith(post: Post, persona: string)
  {
    post.persona.Some? && persona in post.persona.value
  }

  function PersonaFilteredPosts(posts: seq<Post>, persona: string): (r: seq<Post>)
    ensures forall i :: 0 <= i < |r| ==> r[i] in posts && TaggedWith(r[i], persona)
    ensures forall i :: 0 <= i < |posts| && TaggedWith(posts[i], persona) ==> posts[i] in r
  {
    Filter(posts, (p: Post) => TaggedWith(p, persona))
  }

  /** The filtered posts keep their original order, and a post without a persona list is
      never among them. */
  lemma PersonaFilteredPostsOrdered(posts: seq<Post>, persona: string)
    ensures IsSubsequence(PersonaFilteredPosts(posts, persona), posts)
    ensures forall i :: 0 <= i < |PersonaFilteredPosts(posts, persona)| ==> PersonaFilteredPosts(posts, persona)[i].persona.Some?
  {
    FilterIsSubsequence(posts, (p: Post) => TaggedWith(p, persona));
  }

  function WithSyndicationStatus(items: seq<Syndication>, id: string, status: SyndicationStatus): (r: seq<Syndication>)
    ensures |r| == |items|
    ensures forall i :: 0 <= i < |r| && items[i].id == id ==> r[i] == items[i].(status := status)
    ensures forall i :: 0 <= i < |r| && items[i].id != id ==> r[i] == items[i]
  {
    MapWhere(items, (s: Syndication) => s.id == id, (s: Syndication) => s.(status := status))
  }

  /** An id that no item carries changes nothing. */
  lemma UnknownSyndicationUnchanged(items: seq<Syndication>, id: string, status: SyndicationStatus)
    requires forall i :: 0 <= i < |items| ==> items[i].id != id
    ensures WithSyndicationStatus(items, id, status) == items
  {
  }

  class FacebookStore {
    var groupStats: Option<GroupStats>
    var recentPosts: seq<Post>
    var featuredPosts: seq<Post>
    var groupMembers: seq<Member>
    var isGroupMember: bool
    var userFacebookId: Option<string>
    var contentSyndications: seq<Syndication>
    var isConnected: bool
    var lastSync: Option<string>

    constructor()
      ensures groupStats == None && recentPosts == [] && featuredPosts == [] && groupMembers == []
      ensures !isGroupMember && userFacebookId == None && contentSyndications == []
      ensures !isConnected && lastSync == None
    {
      groupStats := None;
      recentPosts := [];
      featuredPosts := [];
      groupMembers := [];
      isGroupMember := false;
      userFacebookId := None;
      contentSyndications := [];
      isConnected := false;
      lastSync := None;
    }

    method SetGroupStats(stats: GroupStats)
      modifies this
      ensures groupStats == Some(stats)
      ensures recentPosts == old(recentPosts) && featuredPosts == old(featuredPosts) && groupMembers == old(groupMembers)
      ensures isGroupMember == old(isGroupMember) && userFacebookId == old(userFacebookId)
      ensures contentSyndications == old(contentSyndications) && isConnected == old(isConnected) && lastSync == old(lastSync)
    {
      groupStats := Some(stats);
    }

    method SetRecentPosts(posts: seq<Post>)
      modifies this
      ensures recentPosts == posts
      ensures groupStats == old(groupStats) && featuredPosts == old(featuredPosts) && groupMembers == old(groupMembers)
      ensures isGroupMember == old(isGroupMember) && userFacebookId == old(userFacebookId)
      ensures contentSyndications == old(contentSyndications) && isConnected == old(isConnected) && lastSync == old(lastSync)
    {
      recentPosts := posts;
    }

    method SetFeaturedPosts(posts: seq<Post>)
      modifies this
      ensures featuredPosts == posts
      ensures groupStats == old(groupStats) && recentPosts == old(recentPosts) && groupMembers == old(groupMembers)
      ensures isGroupMember == old(isGroupMember) && userFacebookId == old(userFacebookId)
      ensures contentSyndications == old(contentSyndications) && isConnected == old(isConnected) && lastSync == old(lastSync)
    {
      featuredPosts := posts;
    }

    method SetGroupMembers(members: seq<Member>)
      modifies this
      ensures groupMembers == members
      ensures groupStats == old(groupStats) && recentPosts == old(recentPosts) && featuredPosts == old(featuredPosts)
      ensures isGroupMember == old(isGroupMember) && userFacebookId == old(userFacebookId)
      ensures contentSyndications == old(contentSyndications) && isConnected == old(isConnected) && lastSync == old(lastSync)
    {
      groupMembers := members;
    }

    method SetIsGroupMember(isMember: bool)
      modifies this
      ensures isGroupMember == isMember
      ensures groupStats == old(groupStats) && recentPosts == old(recentPosts) && featuredPosts == old(featuredPosts)
      ensures groupMembers == old(groupMembers) && userFacebookId == old(userFacebookId)
      ensures contentSyndications == old(contentSyndications) && isConnected == old(isConnected) && lastSync == old(lastSync)
    {
      isGroupMember := isMember;
    }

    method SetUserFacebookId(id: Option<string>)
      modifies this
      ensures userFacebookId == id
      ensures groupStats == old(groupStats) && recentPosts == old(recentPosts) && featuredPosts == old(featuredPosts)
      ensures groupMembers == old(groupMembers) && isGroupMember == old(isGroupMember)
      ensures contentSyndications == old(contentSyndications) && isConnected == old(isConnected) && lastSync == old(lastSync)
    {
      userFacebookId := id;
    }

    method SetIsConnected(connected: bool)
      modifies this
      ensures isConnected == connected
      ensures groupStats == old(groupStats) && recentPosts == old(recentPosts) && featuredPosts == old(featuredPosts)
      ensures groupMembers == old(groupMembers) && isGroupMember == old(isGroupMember) && userFacebookId == old(userFacebookId)
      ensures contentSyndications == old(contentSyndications) && lastSync == old(lastSync)
    {
      isConnected := connected;
    }

    method AddContentSyndication(item: Syndication)
      modifies this
      ensures contentSyndications == [item] + old(contentSyndications)
      ensures groupStats == old(groupStats) && recentPosts == old(recentPosts) && featuredPosts == old(featuredPosts)
      ensures groupMembers == old(groupMembers) && isGroupMember == old(isGroupMember) && userFacebookId == old(userFacebookId)
      ensures isConnected == old(isConnected) && lastSync == old(lastSync)
    {
      contentSyndications := [item] + contentSyndications;
    }

    method UpdateSyndicationStatus(id: string, status: SyndicationStatus)
      modifies this
      ensures contentSyndications == WithSyndicationStatus(old(contentSyndications), id, status)
      ensures groupStats == old(groupStats) && recentPosts == old(recentPosts) && featuredPosts == old(featuredPosts)
      ensures groupMembers == old(groupMembers) && isGroupMember == old(isGroupMember) && userFacebookId == old(userFacebookId)
      ensures isConnected == old(isConnected) && lastSync == old(lastSync)
    {
      contentSyndications := WithSyndicationStatus(contentSyndications, id, status);
    }

    /** A query: it changes no field. */
    method GetPersonaFilteredPosts(persona: string) returns (r: seq<Post>)
      ensures r == PersonaFilteredPosts(recentPosts, persona)
    {
      r := PersonaFilteredPosts(recentPosts, persona);
    }
  }
}
