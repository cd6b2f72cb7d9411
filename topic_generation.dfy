/** The topic-generation page: a preview job proposes topics, the admin prunes them, and
    a generation job turns the rest into lessons.  Both jobs are watched by polling a
    progress report; each poll result is one input event, and a boolean per job stands
    for its interval slot. */
module TopicGeneration {
  import opened Common
  import opened Text
  import opened Entities

  datatype JobStatus = InProgress | Completed

  /** A progress snapshot: `{total, completed, failed, current, status}`. */
  datatype Progress = Progress(total: int, completed: int, failed: int, current: Option<string>, status: JobStatus)

  /** One entry of a preview job's `generated` list: a bare string or a
      `{topic, category}` record (an absent category is the empty string). */
  datatype Generated = Plain(text: string) | Record(topic: string, category: string)

  /** A preview failure; an absent index is `None`. */
  datatype PreviewFailure = PreviewFailure(index: Option<int>, error: string)
  datatype GenerationFailure = GenerationFailure(topic: string, error: string)

  /** What a poll of the preview job returns; an absent list is `None`. */
  datatype PreviewReport = PreviewReport(progress: Progress, generated: Option<seq<Generated>>, errors: seq<PreviewFailure>)
  /** What a poll of the generation job returns; an absent list is `None`, and absent
      errors are the empty sequence. */
  datatype GenerationReport = GenerationReport(progress: Progress, generated: Option<seq<Lesson>>, errors: seq<GenerationFailure>)

  datatype PreviewTopic = PreviewTopic(topic: string, category: string, index: int)
  datatype TopicStatus = Pending | Generating | Done | Failed
  datatype TopicRequest = TopicRequest(topic: string, category: string)

  datatype PreviewRequest = PreviewRequest(count: int, category: Option<string>, progressId: string)
  datatype GenerateRequest = GenerateRequest(topics: seq<TopicRequest>, progressId: string)

  const MinCount := 1
  const MaxCount := 50

  /** `t.topic || t`. */
  function TopicOf(g: Generated): string
  {
    match g
    case Plain(text) => text
    case Record(topic, _) => topic
  }

  /** `t.category || 'General'`. */
  function CategoryOf(g: Generated): (c: string)
    ensures c != ""
    ensures g.Record? && g.category != "" ==> c == g.category
  {
    match g
    case Plain(_) => "General"
    case Record(_, category) => if category != "" then category else "General"
  }

  /** The completed preview's items as preview topics, numbered from 1 in order. */
  function ToPreviewTopics(generated: seq<Generated>): (r: seq<PreviewTopic>)
    ensures |r| == |generated|
    ensures forall i :: 0 <= i < |r| ==>
              r[i].index == i + 1 && r[i].topic == TopicOf(generated[i]) && r[i].category == CategoryOf(generated[i])
  {
    seq(|generated|, i requires 0 <= i < |generated| =>
      PreviewTopic(TopicOf(generated[i]), CategoryOf(generated[i]), i + 1))
  }

  /** No two preview topics share an index. */
  ghost predicate UniqueIndices(topics: seq<PreviewTopic>)
  {
    forall i, j :: 0 <= i < j < |topics| ==> topics[i].index != topics[j].index
  }

  predicate HasIndex(topics: seq<PreviewTopic>, index: int)
  {
    exists t :: t in topics && t.index == index
  }

  /** A fresh preview has unique indices and every category filled in. */
  lemma FreshPreviewIsNumbered(generated: seq<Generated>)
    ensures UniqueIndices(ToPreviewTopics(generated))
    ensures forall t :: t in ToPreviewTopics(generated) ==> t.category != "" && 1 <= t.index <= |generated|
  {
    var r := ToPreviewTopics(generated);
    forall t | t in r ensures t.category != "" && 1 <= t.index <= |generated| {
      var i :| 0 <= i < |r| && r[i] == t;
    }
  }

  /** `prev.filter(t => t.index !== index)`. */
  function RemoveIndex(topics: seq<PreviewTopic>, index: int): (r: seq<PreviewTopic>)
    ensures |r| <= |topics|
    ensures forall t :: t in r <==> t in topics && t.index != index
  {
    if topics == [] then []
    else if topics[0].index != index then [topics[0]] + RemoveIndex(topics[1..], index)
    else RemoveIndex(topics[1..], index)
  }

  /** The filter works piecewise, so it keeps the survivors in their original order. */
  lemma {:induction false} RemoveIndexAppend(a: seq<PreviewTopic>, b: seq<PreviewTopic>, index: int)
    ensures RemoveIndex(a + b, index) == RemoveIndex(a, index) + RemoveIndex(b, index)
  {
    if a == [] {
      assert a + b == b;
    } else {
      assert (a + b)[0] == a[0];
      assert (a + b)[1..] == a[1..] + b;
      RemoveIndexAppend(a[1..], b, index);
    }
  }

  /** Removing an index that is not there changes nothing. */
  lemma {:induction false} RemoveAbsentIndex(topics: seq<PreviewTopic>, index: int)
    requires !HasIndex(topics, index)
    ensures RemoveIndex(topics, index) == topics
  {
    if topics != [] {
      assert topics[0] in topics;
      assert !HasIndex(topics[1..], index) by {
        forall t | t in topics[1..] ensures t.index != index {
          assert t in topics;
        }
      }
      RemoveAbsentIndex(topics[1..], index);
    }
  }

  /** With unique indices the list shrinks by exactly one when the index is present and
      stays as it is when it is not. */
  lemma {:induction false} RemoveShrinksByOneIffPresent(topics: seq<PreviewTopic>, index: int)
    requires UniqueIndices(topics)
    ensures HasIndex(topics, index) ==> |RemoveIndex(topics, index)| == |topics| - 1
    ensures !HasIndex(topics, index) ==> RemoveIndex(topics, index) == topics
  {
    if !HasIndex(topics, index) {
      RemoveAbsentIndex(topics, index);
    } else {
      var tail := topics[1..];
      assert UniqueIndices(tail) by {
        forall i, j | 0 <= i < j < |tail| ensures tail[i].index != tail[j].index {
          assert tail[i] == topics[i + 1] && tail[j] == topics[j + 1];
        }
      }
      if topics[0].index == index {
        assert !HasIndex(tail, index) by {
          forall t | t in tail ensures t.index != index {
            var j :| 0 <= j < |tail| && tail[j] == t;
            assert topics[j + 1] == t;
          }
        }
        RemoveAbsentIndex(tail, index);
      } else {
        var t :| t in topics && t.index == index;
        assert t in tail by {
          var j :| 0 <= j < |topics| && topics[j] == t;
          assert j != 0;
          assert tail[j - 1] == t;
        }
        RemoveShrinksByOneIffPresent(tail, index);
      }
    }
  }

  /** Removal keeps indices unique, so the shrink property holds after every removal. */
  lemma {:induction false} RemoveKeepsIndicesUnique(topics: seq<PreviewTopic>, index: int)
    requires UniqueIndices(topics)
    ensures UniqueIndices(RemoveIndex(topics, index))
  {
    if topics != [] {
      var tail := topics[1..];
      assert UniqueIndices(tail) by {
        forall i, j | 0 <= i < j < |tail| ensures tail[i].index != tail[j].index {
          assert tail[i] == topics[i + 1] && tail[j] == topics[j + 1];
        }
      }
      RemoveKeepsIndicesUnique(tail, index);
      var rest := RemoveIndex(tail, index);
      if topics[0].index != index {
        var r := [topics[0]] + rest;
        forall i, j | 0 <= i < j < |r| ensures r[i].index != r[j].index {
          if i == 0 {
            assert r[j] in tail;
            var k :| 0 <= k < |tail| && tail[k] == r[j];
            assert topics[k + 1] == r[j];
          } else {
            assert r[i] == rest[i - 1] && r[j] == rest[j - 1];
          }
        }
      }
    }
  }

  /** `previewTopics.forEach(t => initialStatuses.set(t.topic, 'pending'))`: every
      topic, and nothing else, starts out pending. */
  method InitialStatuses(topics: seq<PreviewTopic>) returns (statuses: map<string, TopicStatus>)
    ensures statuses.Keys == set t | t in topics :: t.topic
    ensures forall k :: k in statuses ==> statuses[k] == Pending
  {
    statuses := map[];
    var i := 0;
    while i < |topics|
      invariant 0 <= i <= |topics|
      invariant statuses.Keys == set t | t in topics[..i] :: t.topic
      invariant forall k :: k in statuses ==> statuses[k] == Pending
    {
      assert topics[..i + 1] == topics[..i] + [topics[i]];
      statuses := statuses[topics[i].topic := Pending];
      i := i + 1;
    }
    assert topics[..i] == topics;
  }

  /** `previewTopics.map(t => ({topic, category}))`. */
  function TopicRequests(topics: seq<PreviewTopic>): (r: seq<TopicRequest>)
    ensures |r| == |topics|
    ensures forall i :: 0 <= i < |r| ==> r[i] == TopicRequest(topics[i].topic, topics[i].category)
  {
    seq(|topics|, i requires 0 <= i < |topics| => TopicRequest(topics[i].topic, topics[i].category))
  }

  /** `Topic ${e.index || ''}: ${e.error}`; a zero index prints nothing either. */
  function PreviewFailureText(e: PreviewFailure): string
  {
    var index := match e.index
      case None => ""
      case Some(n) => if n == 0 then "" else IntToString(n);
    "Topic " + index + ": " + e.error
  }

  function PreviewFailureMessage(errors: seq<PreviewFailure>): string
  {
    "Some topics failed to preview: "
      + Join(seq(|errors|, i requires 0 <= i < |errors| => PreviewFailureText(errors[i])), ", ")
  }

  function GenerationFailureMessage(errors: seq<GenerationFailure>): string
  {
    "Some lessons failed to generate: "
      + Join(seq(|errors|, i requires 0 <= i < |errors| => errors[i].topic + ": " + errors[i].error), ", ")
  }

  function SuccessMessage(p: Progress): string
  {
    "Successfully generated " + IntToString(p.completed) + " out of " + IntToString(p.total) + " lessons!"
  }

  class Page {
    var count: int
    var category: string
    var previewLoading: bool
    var generating: bool
    var error: string
    var success: string
    var previewTopics: seq<PreviewTopic>
    /** `None` once a poll has installed an absent list (`undefined`). */
    var generatedTopics: Option<seq<Lesson>>
    var topicStatuses: map<string, TopicStatus>
    var generationProgress: Option<Progress>
    var previewProgress: Option<Progress>
    var progressId: Option<string>
    var previewProgressId: Option<string>
    /** Whether `previewProgressIntervalRef` holds a running interval. */
    var previewPolling: bool
    /** Whether `progressIntervalRef` holds a running interval. */
    var generationPolling: bool

    /** A job is polled exactly while its loading flag is up, and a polled job has an id
        and a progress snapshot. */
    ghost predicate Valid()
      reads this
    {
      && previewPolling == previewLoading
      && generationPolling == generating
      && (previewLoading ==> previewProgressId.Some? && previewProgress.Some?)
      && (generating ==> progressId.Some? && generationProgress.Some?)
    }

    constructor ()
      ensures Valid()
      ensures count == 5 && category == "" && !previewLoading && !generating
      ensures error == "" && success == "" && previewTopics == [] && generatedTopics == Some([])
      ensures topicStatuses == map[] && generationProgress == None && previewProgress == None
      ensures progressId == None && previewProgressId == None
    {
      count, category := 5, "";
      previewLoading, generating := false, false;
      error, success := "", "";
      previewTopics, generatedTopics := [], Some([]);
      topicStatuses := map[];
      generationProgress, previewProgress := None, None;
      progressId, previewProgressId := None, None;
      previewPolling, generationPolling := false, false;
    }

    /** `setCount(parseInt(value) || 1)`; `parsed` is `None` for input that is not a
        number. */
    method SetCount(parsed: Option<int>)
      modifies this`count
      ensures count != 0
      ensures parsed.Some? && parsed.value != 0 ==> count == parsed.value
      ensures parsed.None? || parsed.value == 0 ==> count == 1
    {
      count := if parsed.Some? && parsed.value != 0 then parsed.value else 1;
    }

    method SetCategory(value: string)
      modifies this`category
      ensures category == value
    {
      category := value;
    }

    /** `handlePreview`.  Out of range, only the error changes and no job starts;
        otherwise the preview restarts from an empty slate and its job is requested with
        the fresh id `freshId`, `category || undefined` and the count. */
    method HandlePreview(freshId: string) returns (request: Option<PreviewRequest>)
      requires Valid()
      modifies this`previewLoading, this`error, this`success, this`previewTopics, this`generatedTopics
      modifies this`previewProgress, this`previewProgressId, this`previewPolling
      ensures Valid()
      ensures count < MinCount || count > MaxCount ==>
                request == None && error == "Count must be between 1 and 50"
                && previewLoading == old(previewLoading) && success == old(success)
                && previewTopics == old(previewTopics) && generatedTopics == old(generatedTopics)
                && previewProgress == old(previewProgress) && previewProgressId == old(previewProgressId)
                && previewPolling == old(previewPolling)
      ensures MinCount <= count <= MaxCount ==>
                request == Some(PreviewRequest(count, NonEmptyOrAbsent(category), freshId))
                && previewLoading && previewPolling && error == "" && success == ""
                && previewTopics == [] && generatedTopics == Some([])
                && previewProgress == Some(Progress(count, 0, 0, None, InProgress))
                && previewProgressId == Some(freshId)
    {
      if count < MinCount || count > MaxCount {
        error := "Count must be between 1 and 50";
        return None;
      }
      previewLoading := true;
      error := "";
      success := "";
      previewTopics := [];
      generatedTopics := Some([]);
      previewProgress := Some(Progress(count, 0, 0, None, InProgress));
      previewProgressId := Some(freshId);
      previewPolling := true;
      request := Some(PreviewRequest(count, NonEmptyOrAbsent(category), freshId));
    }

    /** The preview request's `.catch`: the error is shown and loading ends, which tears
        the interval down. */
    method PreviewRequestFailed(message: string)
      requires Valid()
      modifies this`error, this`previewLoading, this`previewPolling
      ensures Valid()
      ensures error == MessageOr(message, "Failed to preview topics")
      ensures !previewLoading && !previewPolling
    {
      error := MessageOr(message, "Failed to preview topics");
      previewLoading := false;
      previewPolling := false;
    }

    /** One tick of the preview interval; `report` is `None` when the progress request
        failed.  Without a running interval there is no tick. */
    method PreviewTick(report: Option<PreviewReport>)
      requires Valid()
      modifies this`previewProgress, this`previewLoading, this`previewPolling, this`previewTopics, this`error
      ensures Valid()
      ensures !old(previewPolling) || report.None? ==>
                previewProgress == old(previewProgress) && previewLoading == old(previewLoading)
                && previewTopics == old(previewTopics) && error == old(error)
                && previewPolling == old(previewPolling)
      ensures old(previewPolling) && report.Some? ==> previewProgress == Some(report.value.progress)
      ensures old(previewPolling) && report.Some? && report.value.progress.status == InProgress ==>
                previewLoading && previewPolling && previewTopics == old(previewTopics) && error == old(error)
      ensures old(previewPolling) && report.Some? && report.value.progress.status == Completed ==>
                !previewLoading && !previewPolling
                && previewTopics == (if report.value.generated.Some?
                                     then ToPreviewTopics(report.value.generated.value)
                                     else old(previewTopics))
                && error == (if |report.value.errors| > 0
                             then PreviewFailureMessage(report.value.errors)
                             else old(error))
    {
      if !previewPolling || report.None? {
        return;
      }
      var progress := report.value.progress;
      previewProgress := Some(progress);
      if progress.status == Completed {
        previewLoading := false;
        previewPolling := false;
        if report.value.generated.Some? {
          previewTopics := ToPreviewTopics(report.value.generated.value);
        }
        if |report.value.errors| > 0 {
          error := PreviewFailureMessage(report.value.errors);
        }
      }
    }

    /** `handleRemoveTopic`. */
    method HandleRemoveTopic(index: int)
      modifies this`previewTopics
      ensures previewTopics == RemoveIndex(old(previewTopics), index)
    {
      previewTopics := RemoveIndex(previewTopics, index);
    }

    /** `handleGenerateSelected`.  With nothing to generate only the error changes;
        otherwise progress counts the topics, every topic starts pending, and the topics
        are requested in order under the fresh id. */
    method HandleGenerateSelected(freshId: string) returns (request: Option<GenerateRequest>)
      requires Valid()
      modifies this`generating, this`error, this`success, this`generatedTopics, this`generationProgress
      modifies this`topicStatuses, this`progressId, this`generationPolling
      ensures Valid()
      ensures previewTopics == [] ==>
                request == None && error == "Please preview and select at least one topic to generate"
                && generating == old(generating) && success == old(success)
                && generatedTopics == old(generatedTopics) && generationProgress == old(generationProgress)
                && topicStatuses == old(topicStatuses) && progressId == old(progressId)
                && generationPolling == old(generationPolling)
      ensures previewTopics != [] ==>
                request == Some(GenerateRequest(TopicRequests(previewTopics), freshId))
                && generating && generationPolling && error == "" && success == "" && generatedTopics == Some([])
                && generationProgress == Some(Progress(|previewTopics|, 0, 0, None, InProgress))
                && topicStatuses.Keys == (set t | t in previewTopics :: t.topic)
                && (forall k :: k in topicStatuses ==> topicStatuses[k] == Pending)
                && progressId == Some(freshId)
    {
      if previewTopics == [] {
        error := "Please preview and select at least one topic to generate";
        return None;
      }
      generating := true;
      error := "";
      success := "";
      generatedTopics := Some([]);
      generationProgress := Some(Progress(|previewTopics|, 0, 0, None, InProgress));
      topicStatuses := InitialStatuses(previewTopics);
      progressId := Some(freshId);
      generationPolling := true;
      request := Some(GenerateRequest(TopicRequests(previewTopics), freshId));
    }

    /** The generation request's `.catch`. */
    method GenerateRequestFailed(message: string)
      requires Valid()
      modifies this`error, this`generating, this`generationPolling
      ensures Valid()
      ensures error == MessageOr(message, "Failed to generate lessons")
      ensures !generating && !generationPolling
    {
      error := MessageOr(message, "Failed to generate lessons");
      generating := false;
      generationPolling := false;
    }

    /** One tick of the generation interval.  Every report replaces the progress and
        the generated lessons, with no fallback when the list is absent; a completed one also ends generation, reports success and
        failures, and clears the preview. */
    method GenerationTick(report: Option<GenerationReport>)
      requires Valid()
      modifies this`generationProgress, this`generatedTopics, this`generating, this`generationPolling
      modifies this`success, this`error, this`previewTopics
      ensures Valid()
      ensures !old(generationPolling) || report.None? ==>
                generationProgress == old(generationProgress) && generatedTopics == old(generatedTopics)
                && generating == old(generating) && generationPolling == old(generationPolling)
                && success == old(success) && error == old(error) && previewTopics == old(previewTopics)
      ensures old(generationPolling) && report.Some? ==>
                generationProgress == Some(report.value.progress) && generatedTopics == report.value.generated
      ensures old(generationPolling) && report.Some? && report.value.progress.status == InProgress ==>
                generating && generationPolling && success == old(success) && error == old(error)
                && previewTopics == old(previewTopics)
      ensures old(generationPolling) && report.Some? && report.value.progress.status == Completed ==>
                !generating && !generationPolling && previewTopics == []
                && success == SuccessMessage(report.value.progress)
                && error == (if |report.value.errors| > 0
                             then GenerationFailureMessage(report.value.errors)
                             else old(error))
    {
      if !generationPolling || report.None? {
        return;
      }
      var progress := report.value.progress;
      generationProgress := Some(progress);
      generatedTopics := report.value.generated;
      if progress.status == Completed {
        generating := false;
        generationPolling := false;
        success := SuccessMessage(progress);
        if |report.value.errors| > 0 {
          error := GenerationFailureMessage(report.value.errors);
        }
        previewTopics := [];
      }
    }

    /** Leaving the page runs both effect cleanups: no interval survives. */
    method Unmount()
      modifies this`previewPolling, this`generationPolling
      ensures !previewPolling && !generationPolling
    {
      previewPolling, generationPolling := false, false;
    }
  }

  /** Example: the three items of the scenario below, converted. */
  lemma ExampleTopics()
    ensures ToPreviewTopics([Plain("A"), Record("B", "Science"), Record("C", "")])
            == [PreviewTopic("A", "General", 1), PreviewTopic("B", "Science", 2), PreviewTopic("C", "General", 3)]
  {
    var topics := ToPreviewTopics([Plain("A"), Record("B", "Science"), Record("C", "")]);
    assert topics[0] == PreviewTopic("A", "General", 1);
    assert topics[1] == PreviewTopic("B", "Science", 2);
    assert topics[2] == PreviewTopic("C", "General", 3);
  }

  /** Example: the one failure of the scenario below, as the page words it. */
  lemma ExampleFailureMessage()
    ensures PreviewFailureMessage([PreviewFailure(Some(4), "timeout")])
            == "Some topics failed to preview: Topic 4: timeout"
  {
    var failures := [PreviewFailure(Some(4), "timeout")];
    assert IntToString(4) == "4";
    assert PreviewFailureText(failures[0]) == "Topic " + "4" + ": " + "timeout";
    var texts := seq(|failures|, i requires 0 <= i < |failures| => PreviewFailureText(failures[i]));
    assert texts[0] == "Topic 4: timeout";
    assert texts == ["Topic 4: timeout"];
  }

  /** A count of 4 whose preview completes with three topics and one failure shows the
      three topics, numbered 1 to 3, and one error naming the failed item. */
  method PreviewWithOneFailure() returns (shown: seq<PreviewTopic>, message: string)
    ensures shown == [PreviewTopic("A", "General", 1), PreviewTopic("B", "Science", 2), PreviewTopic("C", "General", 3)]
    ensures message == "Some topics failed to preview: Topic 4: timeout"
  {
    var page := new Page();
    page.SetCount(Some(4));
    var request := page.HandlePreview("preview_1");
    var generated := [Plain("A"), Record("B", "Science"), Record("C", "")];
    var failures := [PreviewFailure(Some(4), "timeout")];
    page.PreviewTick(Some(PreviewReport(Progress(4, 3, 1, None, Completed), Some(generated), failures)));
    ExampleTopics();
    ExampleFailureMessage();
    shown, message := page.previewTopics, page.error;
  }
}
