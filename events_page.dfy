/** src/pages/EventsPage.jsx: the upcoming events, the notetaker flags and the
    `loading` flag of the refresh button. */
module Events {
  import opened Outcomes
  import opened Entities
  import opened Flags
  import Text

  /** All state fields of the page, for stating what a handler leaves alone. */
  datatype EventsState = EventsState(events: seq<CalendarEvent>, flags: FlagMap, loading: bool)

  /** The body of POST /api/toggle-notetaker. */
  datatype ToggleRequest = ToggleRequest(id: string, enabled: bool)

  class EventsPage {
    var events: seq<CalendarEvent>
    var flags: FlagMap
    var loading: bool

    function State(): EventsState
      reads this
    {
      EventsState(events, flags, loading)
    }

    constructor()
      ensures State() == EventsState([], map[], false)
    {
      events, flags, loading := [], map[], false;
    }

    /** `loadEvents` up to its await: the button shows "Loading...". */
    method BeginLoadEvents()
      modifies this
      ensures State() == old(State()).(loading := true)
    {
      loading := true;
    }

    /** `loadEvents` after its await: a decoded list replaces the events, a
        failure keeps the previous ones; either way loading ends. */
    method FinishLoadEvents(reply: Outcome<seq<CalendarEvent>>)
      modifies this
      ensures State() == old(State()).(events := if reply.Success? then reply.value else old(events), loading := false)
    {
      if reply.Success? {
        events := reply.value;
      }
      loading := false;
    }

    /** `loadFlags`: a decoded map replaces the flags; a failure keeps them. */
    method LoadFlags(reply: Outcome<FlagMap>)
      modifies this
      ensures State() == old(State()).(flags := if reply.Success? then reply.value else old(flags))
    {
      if reply.Success? {
        flags := reply.value;
      }
    }

    /** `toggleFlag(id, v)`: once the request completes the flag of `id`
        becomes `v`; a rejected request changes nothing. */
    method ToggleFlag(id: string, v: bool, reply: Outcome<()>) returns (req: ToggleRequest)
      modifies this
      ensures req == ToggleRequest(id, v)
      ensures State() == old(State()).(flags := if reply.Success? then SetFlag(old(flags), id, v) else old(flags))
      ensures reply.Success? ==> Checked(id) == v
    {
      req := ToggleRequest(id, v);
      if reply.Success? {
        flags := SetFlag(flags, id, v);
      }
    }

    /** The checkbox of event `id`. */
    predicate Checked(id: string)
      reads this
    {
      IsChecked(flags, id)
    }
  }

  /** The video label of an event: none without a (non-empty) `hangoutLink`;
      "Zoom" when the link contains "zoom", matched case-sensitively; "Video"
      otherwise. */
  function VideoLabel(hangoutLink: Option<string>): (caption: Option<string>)
    ensures caption.None? <==> hangoutLink.None? || hangoutLink.value == ""
    ensures caption == Some("Zoom") <==> hangoutLink.Some? && exists i: nat :: Text.OccursAt(hangoutLink.value, "zoom", i)
    ensures caption.Some? ==> caption.value in {"Zoom", "Video"}
  {
    match hangoutLink
    case None => None
    case Some(link) =>
      if link == "" then None
      else if Text.Contains(link, "zoom") then Some("Zoom")
      else Some("Video")
  }

  /** The match is case-sensitive: an upper-case "ZOOM" link is labelled
      "Video". */
  lemma VideoLabelIsCaseSensitive()
    ensures VideoLabel(Some("https://zoom.us/j/1")) == Some("Zoom")
    ensures VideoLabel(Some("ZOOM")) == Some("Video")
  {
    Text.ContainsWitness("https://zoom.us/j/1", "zoom", 8);
    assert "ZOOM"[0] != "zoom"[0];
    assert !Text.Contains("ZOOM"[1..], "zoom");
  }
}
