/** The About-page editor (src/components/admin/content/about-content-form.tsx): the page's
    localized texts and SEO, the timeline of events, and the save of both. */
module AboutContentForm {
  import opened Wrappers
  import opened Types
  import opened CmsStore
  import ContentActions
  import Seqs

  /** The six localized texts of the page. */
  datatype AboutField = PageTitle | Story | QualificationsTitle | TestdafTitle | TestdafDescription | TimelineTitle

  function FieldOf(a: AboutContent, field: AboutField): Loc {
    match field
    case PageTitle => a.title
    case Story => a.story
    case QualificationsTitle => a.qualificationsTitle
    case TestdafTitle => a.testdafTitle
    case TestdafDescription => a.testdafDescription
    case TimelineTitle => a.timelineTitle
  }

  function SetField(a: AboutContent, field: AboutField, value: Loc): (r: AboutContent)
    ensures FieldOf(r, field) == value
    ensures forall other :: other != field ==> FieldOf(r, other) == FieldOf(a, other)
    ensures r.seo == a.seo
  {
    match field
    case PageTitle => a.(title := value)
    case Story => a.(story := value)
    case QualificationsTitle => a.(qualificationsTitle := value)
    case TestdafTitle => a.(testdafTitle := value)
    case TestdafDescription => a.(testdafDescription := value)
    case TimelineTitle => a.(timelineTitle := value)
  }

  datatype SeoField = SeoTitle | SeoDescription

  /** The timeline fields an input edits; the title and description are edited per language. */
  datatype EventField = Year | EventTitle | EventDescription

  /** `handleTimelineChange`: an index outside the list changes nothing; the year is set as
      typed; a title or description changes only when a language is given. */
  function TimelineChanged(timeline: seq<TimelineEvent>, index: int, field: EventField, value: string,
                           lang: Option<Language>): (r: seq<TimelineEvent>)
    ensures |r| == |timeline|
    ensures forall i :: 0 <= i < |r| && i != index ==> r[i] == timeline[i]
    ensures !(0 <= index < |timeline|) ==> r == timeline
    ensures 0 <= index < |timeline| && field == Year ==> r[index] == timeline[index].(year := value)
    ensures 0 <= index < |timeline| && field != Year && lang.None? ==> r == timeline
    ensures 0 <= index < |timeline| && field == EventTitle && lang.Some? ==>
      r[index] == timeline[index].(title := timeline[index].title.With(lang.value, value))
    ensures 0 <= index < |timeline| && field == EventDescription && lang.Some? ==>
      r[index] == timeline[index].(description := timeline[index].description.With(lang.value, value))
  {
    if !(0 <= index < |timeline|) then timeline
    else
      var item := timeline[index];
      match field
      case Year => timeline[index := item.(year := value)]
      case EventTitle =>
        if lang.None? then timeline else timeline[index := item.(title := item.title.With(lang.value, value))]
      case EventDescription =>
        if lang.None? then timeline else timeline[index := item.(description := item.description.With(lang.value, value))]
  }

  /** `addTimelineEvent`'s new event: this year, empty texts. */
  function NewEvent(currentYear: string): (r: TimelineEvent)
    ensures r.year == currentYear
    ensures forall lang: Language :: r.title.Get(lang) == "" && r.description.Get(lang) == ""
  {
    TimelineEvent(currentYear, EmptyLoc, EmptyLoc)
  }

  /** `removeTimelineEvent`: `filter((_, i) => i !== index)`. */
  function RemoveAt<T>(s: seq<T>, index: int): (r: seq<T>)
    ensures 0 <= index < |s| ==> |r| == |s| - 1
    ensures 0 <= index < |s| ==> forall i :: 0 <= i < index ==> r[i] == s[i]
    ensures 0 <= index < |s| ==> forall i :: index <= i < |r| ==> r[i] == s[i + 1]
    ensures !(0 <= index < |s|) ==> r == s
  {
    if 0 <= index < |s| then s[..index] + s[index + 1..] else s
  }

  /** Adding an event and removing the last one restores the timeline. */
  lemma AddThenRemove(timeline: seq<TimelineEvent>, currentYear: string)
    ensures RemoveAt(timeline + [NewEvent(currentYear)], |timeline|) == timeline
  {
  }

  /** Removing keeps the other events in their order. */
  lemma RemoveKeepsOrder<T>(s: seq<T>, index: int)
    ensures Seqs.IsSubsequence(RemoveAt(s, index), s)
  {
    if 0 <= index < |s| {
      DropOneIsSubsequence(s, index);
    } else {
      Seqs.FilterAll(s, _ => true);
      Seqs.FilterIsSubsequence(s, _ => true);
    }
  }

  lemma {:induction false} DropOneIsSubsequence<T>(s: seq<T>, index: nat)
    requires index < |s|
    ensures Seqs.IsSubsequence(s[..index] + s[index + 1..], s)
    decreases index
  {
    if index == 0 {
      assert s[..0] + s[1..] == s[1..];
      Seqs.FilterAll(s[1..], _ => true);
      Seqs.FilterIsSubsequence(s[1..], _ => true);
      Seqs.SubsequenceCons(s[1..], s[1..], s[0]);
      assert [s[0]] + s[1..] == s;
    } else {
      var t := s[1..];
      DropOneIsSubsequence(t, index - 1);
      var r := s[..index] + s[index + 1..];
      assert r[1..] == t[..index - 1] + t[index..];
      assert r[0] == s[0];
    }
  }

  /** The description the error toast shows, as written: the About reply's message whenever it
      has one, which a successful About save always has. */
  function ErrorDescriptionAsWritten(about: ContentActions.Reply, timeline: ContentActions.Reply): (r: string)
    ensures about.message != "" ==> r == about.message
    ensures about.message == "" ==> r == timeline.message
  {
    if about.message != "" then about.message else timeline.message
  }

  /** The About text saved, the timeline not: the error toast reads as a success message. */
  lemma TimelineFailureShowsAboutSuccess()
    ensures ErrorDescriptionAsWritten(ContentActions.Succeeded(ContentActions.UpdateSuccessMessage(About)),
                                      ContentActions.Failed(ContentActions.UpdateFailureMessage(Timeline)))
         == "About page content updated successfully!"
  {
  }

  /** The description the error toast should show: the message of a save that failed. */
  function ErrorDescription(about: ContentActions.Reply, timeline: ContentActions.Reply): (r: string)
    requires !(about.success && timeline.success)
    ensures !about.success ==> r == about.message
    ensures about.success ==> r == timeline.message
  {
    if !about.success then about.message else timeline.message
  }

  /** Whatever the outcome, the corrected toast names a failure of the two saves. */
  lemma ErrorDescriptionIsAFailure(configured: bool, aboutIo: Io, timelineIo: Io)
    requires WriteOutcome(configured, aboutIo).Fail? || WriteOutcome(configured, timelineIo).Fail?
    ensures
      var about := ContentActions.UpdateContentReply(configured, About, aboutIo);
      var timeline := ContentActions.UpdateContentReply(configured, Timeline, timelineIo);
      ErrorDescription(about, timeline) in {"Failed to update content.", "Failed to update timeline."}
  {
  }

  /** What the save shows: a refresh, or an error toast with a description. */
  datatype Feedback = Refreshed | ShowError(description: string)

  /** The editor's state: the page texts and the timeline, edited together and saved together. */
  class Editor {
    var aboutData: AboutContent
    var timelineData: seq<TimelineEvent>

    /** The initial state: copies of the props, with an empty SEO block when none is stored. */
    constructor (initial: AboutContent, storedSeo: Option<Seo>, timeline: seq<TimelineEvent>)
      ensures aboutData == initial.(seo := if storedSeo.Some? then storedSeo.value else EmptySeo)
      ensures timelineData == timeline
    {
      aboutData := initial.(seo := if storedSeo.Some? then storedSeo.value else EmptySeo);
      timelineData := timeline;
    }

    /** `handleAboutInputChange`: one language of one page text. */
    method SetText(lang: Language, field: AboutField, value: string)
      modifies this
      ensures aboutData == SetField(old(aboutData), field, FieldOf(old(aboutData), field).With(lang, value))
      ensures timelineData == old(timelineData)
    {
      aboutData := SetField(aboutData, field, FieldOf(aboutData, field).With(lang, value));
    }

    /** `handleSeoInputChange`. */
    method SetSeo(lang: Language, field: SeoField, value: string)
      modifies this
      ensures aboutData == old(aboutData).(seo :=
        if field == SeoTitle then old(aboutData).seo.(title := old(aboutData).seo.title.With(lang, value))
        else old(aboutData).seo.(description := old(aboutData).seo.description.With(lang, value)))
      ensures timelineData == old(timelineData)
    {
      if field == SeoTitle {
        aboutData := aboutData.(seo := aboutData.seo.(title := aboutData.seo.title.With(lang, value)));
      } else {
        aboutData := aboutData.(seo := aboutData.seo.(description := aboutData.seo.description.With(lang, value)));
      }
    }

    method ChangeEvent(index: int, field: EventField, value: string, lang: Option<Language>)
      modifies this
      ensures timelineData == TimelineChanged(old(timelineData), index, field, value, lang)
      ensures aboutData == old(aboutData)
    {
      timelineData := TimelineChanged(timelineData, index, field, value, lang);
    }

    /** `addTimelineEvent`; the current year is passed in. */
    method AddEvent(currentYear: string)
      modifies this
      ensures timelineData == old(timelineData) + [NewEvent(currentYear)]
      ensures aboutData == old(aboutData)
    {
      timelineData := timelineData + [NewEvent(currentYear)];
    }

    method RemoveEvent(index: int)
      modifies this
      ensures timelineData == RemoveAt(old(timelineData), index)
      ensures aboutData == old(aboutData)
    {
      timelineData := RemoveAt(timelineData, index);
    }

    /** `handleFormAction`: save the page, then the timeline; refresh when both succeed,
        otherwise show the failed save's message. */
    method Submit(s: Store, aboutIo: Io, timelineIo: Io) returns (f: Feedback)
      requires s.Valid()
      modifies s
      ensures s.Valid() && s.configured == old(s.configured) && s.env == old(s.env) && s.empty == old(s.empty)
      ensures s.blobs == WriteEffect(s.configured, WriteEffect(s.configured, old(s.blobs), DataPath(About), AboutV(aboutData), aboutIo),
                                     DataPath(Timeline), TimelineV(timelineData), timelineIo)
      ensures f == Refreshed <==> WriteOutcome(s.configured, aboutIo).Pass? && WriteOutcome(s.configured, timelineIo).Pass?
      ensures f.ShowError? ==>
        f.description == ErrorDescription(ContentActions.UpdateContentReply(s.configured, About, aboutIo),
                                          ContentActions.UpdateContentReply(s.configured, Timeline, timelineIo))
      ensures f.ShowError? ==> f.description in {"Failed to update content.", "Failed to update timeline."}
    {
      var aboutResult := ContentActions.UpdateContent(s, About, AboutV(aboutData), aboutIo);
      var timelineResult := ContentActions.UpdateContent(s, Timeline, TimelineV(timelineData), timelineIo);
      if aboutResult.success && timelineResult.success {
        f := Refreshed;
      } else {
        f := ShowError(ErrorDescription(aboutResult, timelineResult));
      }
    }
  }
}
