/** src/pages/PastMeetingsPage.jsx: the past meetings, sorted newest first
    when they arrive, and the card details derived from each meeting. */
module PastMeetings {
  import opened Outcomes
  import opened Entities
  import Text

  /** Meetings ordered by non-increasing start time. */
  ghost predicate NewestFirst(s: seq<Meeting>)
  {
    forall i, j :: 0 <= i < j < |s| ==> s[i].start >= s[j].start
  }

  /** Swaps two neighbouring meetings. */
  method SwapWithPrevious(a: array<Meeting>, j: int)
    requires 0 < j < a.Length
    modifies a
    ensures a[j - 1] == old(a[j]) && a[j] == old(a[j - 1])
    ensures forall k :: 0 <= k < a.Length && k != j - 1 && k != j ==> a[k] == old(a[k])
    ensures multiset(a[..]) == multiset(old(a[..]))
  {
    a[j - 1], a[j] := a[j], a[j - 1];
  }

  /** One insertion step: with a[..i] newest first, moves a[i] left past
      every older meeting, so that a[..i + 1] is newest first. Meetings with
      equal start times are never swapped. */
  method InsertAt(a: array<Meeting>, i: int)
    requires 0 <= i < a.Length
    requires forall k, l :: 0 <= k < l < i ==> a[k].start >= a[l].start
    modifies a
    ensures forall k, l :: 0 <= k < l <= i ==> a[k].start >= a[l].start
    ensures forall k :: i < k < a.Length ==> a[k] == old(a[k])
    ensures multiset(a[..]) == multiset(old(a[..]))
  {
    var j := i;
    while j > 0 && a[j - 1].start < a[j].start
      invariant 0 <= j <= i
      invariant forall k, l :: 0 <= k < l <= i && k != j && l != j ==> a[k].start >= a[l].start
      invariant forall l :: j < l <= i ==> a[j].start >= a[l].start
      invariant forall k :: i < k < a.Length ==> a[k] == old(a[k])
      invariant multiset(a[..]) == multiset(old(a[..]))
    {
      SwapWithPrevious(a, j);
      j := j - 1;
    }
  }

  /** `j.sort((a, b) => new Date(b.start) - new Date(a.start))`: sorts the
      fetched array in place, newest first. */
  method SortNewestFirst(a: array<Meeting>)
    modifies a
    ensures NewestFirst(a[..])
    ensures multiset(a[..]) == multiset(old(a[..]))
  {
    var i := 0;
    while i < a.Length
      invariant 0 <= i <= a.Length
      invariant forall k, l :: 0 <= k < l < i ==> a[k].start >= a[l].start
      invariant multiset(a[..]) == multiset(old(a[..]))
    {
      InsertAt(a, i);
      i := i + 1;
    }
  }

  /** All state fields of the page. */
  datatype PastState = PastState(meetings: seq<Meeting>, loading: bool)

  class PastMeetingsPage {
    var meetings: seq<Meeting>
    var loading: bool

    function State(): PastState
      reads this
    {
      PastState(meetings, loading)
    }

    constructor()
      ensures State() == PastState([], false)
    {
      meetings, loading := [], false;
    }

    /** `loadMeetings` up to its await. */
    method BeginLoadMeetings()
      modifies this
      ensures State() == old(State()).(loading := true)
    {
      loading := true;
    }

    /** `loadMeetings` after its await: the decoded array is sorted newest
        first and stored; a failure keeps the previous meetings. Loading ends
        either way. */
    method FinishLoadMeetings(reply: Outcome<seq<Meeting>>)
      modifies this
      ensures !loading
      ensures reply.Success? ==> NewestFirst(meetings) && multiset(meetings) == multiset(reply.value)
      ensures reply.Failure? ==> meetings == old(meetings)
    {
      if reply.Success? {
        var fetched := reply.value;
        var a := new Meeting[|fetched|](i requires 0 <= i < |fetched| => fetched[i]);
        assert a[..] == fetched;
        SortNewestFirst(a);
        meetings := a[..];
      }
      loading := false;
    }
  }

  const PreviewLength := 100

  /** "...", in code units. */
  const Ellipsis: Text.JsString := [46, 46, 46]

  /** The description line of a card: `substring(0, 100)` followed by "...",
      shown only for a non-empty description. The cut counts UTF-16 code
      units, so it can split a surrogate pair. */
  function DescriptionPreview(description: Option<Text.JsString>): (preview: Option<Text.JsString>)
    ensures preview.Some? <==> description.Some? && description.value != []
    ensures preview.Some? ==> |preview.value| <= PreviewLength + |Ellipsis|
    ensures preview.Some? ==> exists k :: (0 <= k <= PreviewLength && k <= |description.value| &&
      (k == PreviewLength || k == |description.value|) && preview.value == description.value[..k] + Ellipsis)
  {
    match description
    case None => None
    case Some(d) =>
      if d == [] then None
      else
        var k := if |d| < PreviewLength then |d| else PreviewLength;
        Some(d[..k] + Ellipsis)
  }

  /** For text in the Basic Multilingual Plane the cut is after the first
      100 characters (or after all of a shorter text). */
  lemma {:induction false} BmpPreviewCountsCharacters(d: string)
    requires d != []
    requires forall i :: 0 <= i < |d| ==> d[i] as int < 0x1_0000
    ensures var k := if |d| < PreviewLength then |d| else PreviewLength;
            DescriptionPreview(Some(Text.Encode(d))) == Some(Text.Encode(d[..k]) + Ellipsis)
  {
    var k := if |d| < PreviewLength then |d| else PreviewLength;
    assert d == d[..k] + d[k..];
    Text.EncodeAppend(d[..k], d[k..]);
    Text.EncodeBmpLength(d);
    Text.EncodeBmpLength(d[..k]);
  }

  /** Outside that plane the cut counts code units, not characters: 101
      emoji U+1F600 take 202 code units, and the preview keeps 50 of them. */
  lemma AstralPreviewKeepsHalf()
    ensures DescriptionPreview(Some(Text.Encode(seq(101, _ => '\U{1F600}'))))
         == Some(Text.Encode(seq(50, _ => '\U{1F600}')) + Ellipsis)
  {
    var whole, kept, rest := seq(101, _ => '\U{1F600}'), seq(50, _ => '\U{1F600}'), seq(51, _ => '\U{1F600}');
    assert whole == kept + rest;
    Text.EncodeAppend(kept, rest);
    Text.EncodeAstralLength(kept);
    Text.EncodeAstralLength(rest);
  }

  /** The right-hand side of a card. */
  function TranscriptBadge(m: Meeting): (caption: string)
    ensures m.hasTranscript <==> Text.Contains(caption, "Transcript")
  {
    if m.hasTranscript then
      Text.ContainsWitness("\U{2713} Transcript", "Transcript", 2);
      "\U{2713} Transcript"
    else
      var s := "No transcript";
      assert !Text.Contains(s[4..], "Transcript");
      assert s[3] != 'T' && s[2] != 'T' && s[1] != 'T' && s[0] != 'T';
      assert !Text.Contains(s[3..], "Transcript");
      assert !Text.Contains(s[2..], "Transcript");
      assert !Text.Contains(s[1..], "Transcript");
      s
  }
}
