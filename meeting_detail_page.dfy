/** src/pages/MeetingDetailPage.jsx: one meeting, its posts, the follow-up
    email, the post generator's platform and automation selection, and the
    "Copied!" marker. */
module MeetingDetail {
  import opened Outcomes
  import opened Entities
  import Lists

  const DefaultPlatform := "linkedin"
  const EmailErrorText := "Error generating email. Please try again."

  /** All state fields of the page. */
  datatype DetailState = DetailState(
    meeting: Option<Meeting>,
    posts: seq<Post>,
    loading: bool,
    email: Option<string>,
    generatingEmail: bool,
    generatingPost: bool,
    selectedPlatform: string,
    selectedAutomation: string,
    automations: seq<Automation>,
    copiedPostId: Option<string>)

  /** The body of POST /api/generate-followup-email. */
  datatype EmailRequest = EmailRequest(meetingId: string, transcript: string)

  /** The body of POST /api/generate-post; `automationId` is null when no
      automation is selected. */
  datatype PostRequest = PostRequest(meetingId: string, platform: string, automationId: Option<string>, transcript: string)

  /** `meeting?.transcript || ""`. */
  function RequestTranscript(meeting: Option<Meeting>): (t: string)
    ensures t != "" ==> meeting.Some? && meeting.value.transcript == Some(t)
    ensures meeting.Some? && meeting.value.transcript.Some? ==> t == meeting.value.transcript.value
  {
    if meeting.Some? && meeting.value.transcript.Some? then meeting.value.transcript.value else ""
  }

  /** `posts.map(p => p.id === postId ? updated : p)`. */
  function ReplaceById(posts: seq<Post>, postId: string, updated: Post): (r: seq<Post>)
    ensures |r| == |posts|
    ensures forall i :: 0 <= i < |posts| && posts[i].id == postId ==> r[i] == updated
    ensures forall i :: 0 <= i < |posts| && posts[i].id != postId ==> r[i] == posts[i]
  {
    if posts == [] then []
    else [if posts[0].id == postId then updated else posts[0]] + ReplaceById(posts[1..], postId, updated)
  }

  /** Replacing a post by one with the same id is idempotent, and publishing
      an id no post has changes nothing. */
  lemma {:induction false} ReplaceByIdStable(posts: seq<Post>, postId: string, updated: Post)
    ensures updated.id == postId ==> ReplaceById(ReplaceById(posts, postId, updated), postId, updated) == ReplaceById(posts, postId, updated)
    ensures (forall i :: 0 <= i < |posts| ==> posts[i].id != postId) ==> ReplaceById(posts, postId, updated) == posts
  {
    if posts != [] {
      ReplaceByIdStable(posts[1..], postId, updated);
      var once := ReplaceById(posts, postId, updated);
      assert once[1..] == ReplaceById(posts[1..], postId, updated);
    }
  }

  /** The automation choices for a platform, in their original order. */
  function AutomationsFor(automations: seq<Automation>, platform: string): seq<Automation>
  {
    Lists.Filter(automations, OnPlatform(platform))
  }

  /** `a => a.platform === platform`. */
  function OnPlatform(platform: string): Automation -> bool
  {
    (a: Automation) => a.platform == platform
  }

  /** The offered automations are exactly those of the selected platform,
      with their order kept. */
  lemma AutomationsForSelectsPlatform(automations: seq<Automation>, more: seq<Automation>, platform: string)
    ensures forall a :: a in AutomationsFor(automations, platform) <==> a in automations && a.platform == platform
    ensures AutomationsFor(automations + more, platform) == AutomationsFor(automations, platform) + AutomationsFor(more, platform)
  {
    Lists.FilterAppend(automations, more, OnPlatform(platform));
    var r := AutomationsFor(automations, platform);
    forall a ensures a in r <==> a in automations && a.platform == platform {
      if a in r {
        var i :| 0 <= i < |r| && r[i] == a;
      }
      if a in automations && a.platform == platform {
        var i :| 0 <= i < |automations| && automations[i] == a;
      }
    }
  }

  /** The Publish button is shown only for drafts. */
  predicate ShowsPublish(post: Post)
  {
    post.status == "draft"
  }

  /** The caption of a post's copy button. */
  function CopyCaption(copiedPostId: Option<string>, post: Post): (caption: string)
    ensures caption == "Copied!" <==> copiedPostId == Some(post.id)
    ensures caption != "Copied!" ==> caption == "Copy"
  {
    if copiedPostId == Some(post.id) then "Copied!" else "Copy"
  }

  class MeetingDetailPage {
    /** The `:id` route parameter. */
    const meetingId: string
    var meeting: Option<Meeting>
    var posts: seq<Post>
    var loading: bool
    var email: Option<string>
    var generatingEmail: bool
    var generatingPost: bool
    var selectedPlatform: string
    var selectedAutomation: string
    var automations: seq<Automation>
    var copiedPostId: Option<string>

    function State(): DetailState
      reads this
    {
      DetailState(meeting, posts, loading, email, generatingEmail, generatingPost,
                  selectedPlatform, selectedAutomation, automations, copiedPostId)
    }

    constructor(meetingId: string)
      ensures this.meetingId == meetingId
      ensures State() == DetailState(None, [], true, None, false, false, DefaultPlatform, "", [], None)
    {
      this.meetingId := meetingId;
      meeting, posts, loading, email := None, [], true, None;
      generatingEmail, generatingPost := false, false;
      selectedPlatform, selectedAutomation, automations, copiedPostId := DefaultPlatform, "", [], None;
    }

    /** `loadMeeting`: the decoded meeting (None for a null body) replaces the
        old one; loading ends whatever the outcome. */
    method LoadMeeting(reply: Outcome<Option<Meeting>>)
      modifies this
      ensures State() == old(State()).(meeting := if reply.Success? then reply.value else old(meeting), loading := false)
    {
      if reply.Success? {
        meeting := reply.value;
      }
      loading := false;
    }

    /** `loadPosts`. */
    method LoadPosts(reply: Outcome<seq<Post>>)
      modifies this
      ensures State() == old(State()).(posts := if reply.Success? then reply.value else old(posts))
    {
      if reply.Success? {
        posts := reply.value;
      }
    }

    /** `loadAutomations`. */
    method LoadAutomations(reply: Outcome<seq<Automation>>)
      modifies this
      ensures State() == old(State()).(automations := if reply.Success? then reply.value else old(automations))
    {
      if reply.Success? {
        automations := reply.value;
      }
    }

    /** `generateEmail` up to its await: the button is disabled and the
        request carries the meeting's transcript, or "" without one. */
    method BeginGenerateEmail() returns (req: EmailRequest)
      modifies this
      ensures req == EmailRequest(meetingId, RequestTranscript(meeting))
      ensures State() == old(State()).(generatingEmail := true)
    {
      generatingEmail := true;
      req := EmailRequest(meetingId, RequestTranscript(meeting));
    }

    /** `generateEmail` after its await: the reply's email is shown, or the
        fixed error text on failure; the button is enabled again. */
    method FinishGenerateEmail(reply: Outcome<string>)
      modifies this
      ensures State() == old(State()).(email := Some(if reply.Success? then reply.value else EmailErrorText), generatingEmail := false)
    {
      if reply.Success? {
        email := Some(reply.value);
      } else {
        email := Some(EmailErrorText);
      }
      generatingEmail := false;
    }

    /** `generatePost` up to its await: the request carries the selection,
        an empty automation being sent as null. */
    method BeginGeneratePost() returns (req: PostRequest)
      modifies this
      ensures req == PostRequest(meetingId, selectedPlatform,
                                 if selectedAutomation == "" then None else Some(selectedAutomation),
                                 RequestTranscript(meeting))
      ensures State() == old(State()).(generatingPost := true)
    {
      generatingPost := true;
      var automationId := if selectedAutomation == "" then None else Some(selectedAutomation);
      req := PostRequest(meetingId, selectedPlatform, automationId, RequestTranscript(meeting));
    }

    /** `generatePost` after its await: the new post is appended and the
        selection reset to LinkedIn with no automation; a failure keeps the
        posts and the selection. The button is enabled again either way. */
    method FinishGeneratePost(reply: Outcome<Post>)
      modifies this
      ensures reply.Success? ==> State() == old(State()).(posts := old(posts) + [reply.value],
        selectedPlatform := DefaultPlatform, selectedAutomation := "", generatingPost := false)
      ensures reply.Failure? ==> State() == old(State()).(generatingPost := false)
    {
      if reply.Success? {
        posts := posts + [reply.value];
        selectedPlatform := DefaultPlatform;
        selectedAutomation := "";
      }
      generatingPost := false;
    }

    /** `publishPost(postId)`: the returned post replaces every post with that
        id; a failure leaves the list as it was. Returns the request path. */
    method PublishPost(postId: string, reply: Outcome<Post>) returns (path: string)
      modifies this
      ensures path == "/api/posts/" + postId + "/publish"
      ensures State() == old(State()).(posts := if reply.Success? then ReplaceById(old(posts), postId, reply.value) else old(posts))
    {
      path := "/api/posts/" + postId + "/publish";
      if reply.Success? {
        posts := ReplaceById(posts, postId, reply.value);
      }
    }

    /** The platform select: choosing a platform clears the automation. */
    method SelectPlatform(platform: string)
      modifies this
      ensures State() == old(State()).(selectedPlatform := platform, selectedAutomation := "")
    {
      selectedPlatform := platform;
      selectedAutomation := "";
    }

    /** The automation select. */
    method SelectAutomation(automationId: string)
      modifies this
      ensures State() == old(State()).(selectedAutomation := automationId)
    {
      selectedAutomation := automationId;
    }

    /** `copyToClipboard(text, postId)`: marks that post as copied (the
        clipboard write itself is not modelled). */
    method CopyToClipboard(postId: string)
      modifies this
      ensures State() == old(State()).(copiedPostId := Some(postId))
      ensures forall p :: CopyCaption(copiedPostId, p) == "Copied!" <==> p.id == postId
    {
      copiedPostId := Some(postId);
    }

    /** The 2000 ms timer of `copyToClipboard` firing. */
    method CopiedTimerFired()
      modifies this
      ensures State() == old(State()).(copiedPostId := None)
      ensures forall p :: CopyCaption(copiedPostId, p) == "Copy"
    {
      copiedPostId := None;
    }

    /** `filteredAutomations`: the automations offered for the selected
        platform. */
    function FilteredAutomations(): (offered: seq<Automation>)
      reads this
      ensures forall i :: 0 <= i < |offered| ==> offered[i] in automations && offered[i].platform == selectedPlatform
      ensures forall i :: 0 <= i < |automations| && automations[i].platform == selectedPlatform ==> automations[i] in offered
    {
      AutomationsFor(automations, selectedPlatform)
    }
  }

  /** Publishing "p1" as in the page's test fixture: the single draft is
      replaced by the returned published post, which shows no Publish
      button. */
  lemma PublishScenario()
    ensures var draft := Post("p1", "linkedin", "Post content here.", "draft");
            var published := draft.(status := "published");
            ReplaceById([draft], "p1", published) == [published] && ShowsPublish(draft) && !ShowsPublish(published)
  {
  }
}
