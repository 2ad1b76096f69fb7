/** The content-syndication manager: the new-post form, the comma-separated hashtag field, the
    persona checkboxes and the "Post Now" action on drafts. */
module SyndicationManager {
  import opened Common
  import opened FacebookStore

  /** The form's fields, all of them text except the list of checked persona ids. */
  datatype NewPost = NewPost(title: string, content: string, hashtags: string, targetPersonas: seq<string>, scheduledTime: string)

  const EmptyPost: NewPost := NewPost("", "", "", [], "")

  /** Trimming only removes characters: whatever is in the result was in the input. */
  lemma TrimKeepsChars(s: string)
    ensures forall c :: c in Trim(s) ==> c in s
  {
    var t := TrimStart(s);
    assert forall c :: c in t ==> c in s;
    assert forall c :: c in TrimEnd(t) ==> c in t;
  }

  /** A tag is trimmed: it neither starts nor ends with white space. */
  predicate Trimmed(t: string)
  {
    t == [] || (!IsSpace(t[0]) && !IsSpace(t[|t| - 1]))
  }

  /** Trimming pieces that hold no comma gives trimmed tags that hold no comma. */
  lemma TrimPieces(pieces: seq<string>)
    requires forall k :: 0 <= k < |pieces| ==> ',' !in pieces[k]
    ensures forall i :: 0 <= i < |pieces| ==> ',' !in MapStrings(Trim, pieces)[i] && Trimmed(MapStrings(Trim, pieces)[i])
  {
    var r := MapStrings(Trim, pieces);
    forall i | 0 <= i < |pieces|
      ensures ',' !in r[i] && Trimmed(r[i])
    {
      assert r[i] == Trim(pieces[i]);
      TrimKeepsChars(pieces[i]);
    }
  }

  /** `hashtags.split(",").map((tag) => tag.trim())`. */
  function Hashtags(field: string): (r: seq<string>)
    ensures |r| == CountChar(field, ',') + 1
    ensures forall i :: 0 <= i < |r| ==> ',' !in r[i] && Trimmed(r[i])
    ensures forall i :: 0 <= i < |r| ==> r[i] == Trim(Split(field, ',')[i])
  {
    TrimPieces(Split(field, ','));
    MapStrings(Trim, Split(field, ','))
  }

  /** An empty field still gives one, empty, tag; a field without commas gives a single tag. */
  lemma HashtagsEdgeCases(field: string)
    ensures Hashtags("") == [""]
    ensures ',' !in field ==> Hashtags(field) == [Trim(field)]
  {
    SingleTag("");
    assert Trim("") == "";
    if ',' !in field {
      SingleTag(field);
    }
  }

  lemma SingleTag(field: string)
    requires ',' !in field
    ensures Hashtags(field) == [Trim(field)]
  {
    SplitNoSep(field, ',');
    assert MapStrings(Trim, [field]) == [Trim(field)];
  }

  /** The draft a filled-in form becomes: title, content and personas as typed, the tags
      split, an empty schedule read as none, status draft and no performance yet. */
  function NewSyndication(post: NewPost, id: string): (s: Syndication)
    ensures s.id == id && s.status == Draft && s.performance == None
    ensures s.title == post.title && s.content == post.content && s.targetPersonas == post.targetPersonas
    ensures s.hashtags == Hashtags(post.hashtags)
    ensures s.scheduledTime == (if post.scheduledTime == "" then None else Some(post.scheduledTime))
  {
    Syndication(id, post.title, post.content, post.targetPersonas, Hashtags(post.hashtags),
      if post.scheduledTime != "" then Some(post.scheduledTime) else None, Draft, None)
  }

  /** A persona checkbox: checking appends the id, unchecking removes every occurrence. */
  function TogglePersona(personas: seq<string>, id: string, checked: bool): (r: seq<string>)
    ensures checked ==> r == personas + [id]
    ensures !checked ==> id !in r && IsSubsequence(r, personas)
    ensures !checked ==> forall p :: p in personas && p != id ==> p in r
  {
    if checked then personas + [id]
    else
      FilterIsSubsequence(personas, (p: string) => p != id);
      Filter(personas, (p: string) => p != id)
  }

  /** Unchecking what was just checked restores a list that did not hold the id. */
  lemma CheckThenUncheck(personas: seq<string>, id: string)
    requires id !in personas
    ensures TogglePersona(TogglePersona(personas, id, true), id, false) == personas
  {
    FilterAll(personas, (p: string) => p != id);
    assert Filter(personas + [id], (p: string) => p != id) == Filter(personas, (p: string) => p != id) by {
      FilterDropLast(personas, id);
    }
  }

  lemma {:induction false} FilterDropLast(s: seq<string>, id: string)
    ensures Filter(s + [id], (p: string) => p != id) == Filter(s, (p: string) => p != id)
  {
    if s != [] {
      assert (s + [id])[1..] == s[1..] + [id];
      FilterDropLast(s[1..], id);
    } else {
      assert [] + [id] == [id];
    }
  }

  /** "Post Now" is offered for drafts only. */
  predicate OffersPostNow(s: Syndication)
  {
    s.status == Draft
  }

  class Manager {
    var newPost: NewPost

    constructor()
      ensures newPost == EmptyPost
    {
      newPost := EmptyPost;
    }

    /** Adds the draft built from the form, newest first, and clears the form. */
    method HandleCreateSyndication(store: FacebookStore, id: string)
      modifies this, store
      ensures store.contentSyndications == [NewSyndication(old(newPost), id)] + old(store.contentSyndications)
      ensures newPost == EmptyPost
      ensures store.recentPosts == old(store.recentPosts) && store.isConnected == old(store.isConnected)
      ensures store.groupStats == old(store.groupStats) && store.featuredPosts == old(store.featuredPosts)
      ensures store.groupMembers == old(store.groupMembers) && store.isGroupMember == old(store.isGroupMember)
      ensures store.userFacebookId == old(store.userFacebookId) && store.lastSync == old(store.lastSync)
    {
      var draft := NewSyndication(newPost, id);
      newPost := EmptyPost;
      store.AddContentSyndication(draft);
    }

    /** The text inputs each replace their own field of the form. */
    method EditTitle(title: string)
      modifies this
      ensures newPost == old(newPost).(title := title)
    {
      newPost := newPost.(title := title);
    }

    method EditContent(content: string)
      modifies this
      ensures newPost == old(newPost).(content := content)
    {
      newPost := newPost.(content := content);
    }

    method EditHashtags(hashtags: string)
      modifies this
      ensures newPost == old(newPost).(hashtags := hashtags)
    {
      newPost := newPost.(hashtags := hashtags);
    }

    method EditScheduledTime(scheduledTime: string)
      modifies this
      ensures newPost == old(newPost).(scheduledTime := scheduledTime)
    {
      newPost := newPost.(scheduledTime := scheduledTime);
    }

    method HandleTogglePersona(id: string, checked: bool)
      modifies this
      ensures newPost == old(newPost).(targetPersonas := TogglePersona(old(newPost).targetPersonas, id, checked))
    {
      newPost := newPost.(targetPersonas := TogglePersona(newPost.targetPersonas, id, checked));
    }
  }

  /** Posting marks the item posted, after which it no longer offers "Post Now"; the alert is
      not modelled. */
  method HandlePostToGroup(store: FacebookStore, id: string)
    modifies store
    ensures store.contentSyndications == WithSyndicationStatus(old(store.contentSyndications), id, Posted)
    ensures forall i :: 0 <= i < |store.contentSyndications| && store.contentSyndications[i].id == id ==>
              !OffersPostNow(store.contentSyndications[i])
    ensures store.recentPosts == old(store.recentPosts) && store.isConnected == old(store.isConnected)
    ensures store.groupStats == old(store.groupStats) && store.featuredPosts == old(store.featuredPosts)
    ensures store.groupMembers == old(store.groupMembers) && store.isGroupMember == old(store.isGroupMember)
    ensures store.userFacebookId == old(store.userFacebookId) && store.lastSync == old(store.lastSync)
  {
    store.UpdateSyndicationStatus(id, Posted);
  }
}
