/** The classification helpers used when preparing video material for a
    repository: the content type, the tags, the target audience and the
    upload slot. Each is a first-match decision list or a bounded list
    builder. The repository's age in whole days is an input. */
module VideoHelpers {
  import opened Repository
  import opened Text

  // ---------------------------------------------------------------------
  // Shared: topic tests on lower-cased topics

  const AiTopics: set<string> := {"ai", "machine-learning", "data-science"}
  const WebTopics: set<string> := {"web", "frontend", "react", "javascript"}

  /** `any(t in S for t in [t.lower() for t in topics])`. */
  function AnyTopicIn(topics: seq<string>, s: set<string>): (r: bool)
    ensures r <==> exists k :: 0 <= k < |topics| && Lower(topics[k]) in s
  {
    if topics == [] then false
    else if Lower(topics[0]) in s then true
    else
      var r := AnyTopicIn(topics[1..], s);
      assert forall k :: 1 <= k < |topics| ==> topics[k] == topics[1..][k - 1];
      r
  }

  /** The text of a field, with a missing or null value read as `''`. */
  function TextOrEmpty(t: JsonText): string
  {
    if t.Text? then t.value else ""
  }

  // ---------------------------------------------------------------------
  // determine_content_type

  datatype ContentType = PopularSpotlight | RisingStar | HiddenGem | AiToolReview | DeepDive
  {
    function Label(): string
    {
      match this
      case PopularSpotlight => "🌟 Popular Repository Spotlight"
      case RisingStar => "🚀 Rising Star Analysis"
      case HiddenGem => "💎 Hidden Gem Discovery"
      case AiToolReview => "🤖 AI Tool Review"
      case DeepDive => "🔍 Repository Deep Dive"
    }
  }

  /** The content type chosen from stars, age and forks alone, when one of
      the first three rules applies. */
  function PopularityContentType(r: Repo, ageDays: int): Option<ContentType>
  {
    if r.stars > 10000 then Some(PopularSpotlight)
    else if ageDays < 30 && r.stars > 100 then Some(RisingStar)
    else if r.stars < 1000 && r.forks > 50 then Some(HiddenGem)
    else None
  }

  /** The last two rules, given the description text. */
  function TopicContentType(description: string, topics: seq<string>): ContentType
  {
    if Contains(Lower(description), "ai") || "machine-learning" in topics then AiToolReview
    else DeepDive
  }

  /** `determine_content_type` as written: None where it raises, which is
      when `description` is JSON null and none of the first three rules
      applies (`None.lower()`). */
  function ContentTypeAsWritten(r: Repo, ageDays: int): (c: Option<ContentType>)
    ensures c.None? <==>
      && r.description.Null? && r.stars <= 10000
      && !(ageDays < 30 && r.stars > 100) && !(r.stars < 1000 && r.forks > 50)
  {
    var early := PopularityContentType(r, ageDays);
    if early.Some? then early
    else
      match r.description.GetOr("")
      case None => None
      case Some(d) => Some(TopicContentType(d, r.topics))
  }

  /** `determine_content_type` with a null description read like a missing
      one, as the `''` default evidently intends. */
  function DetermineContentType(r: Repo, ageDays: int): (c: ContentType)
    ensures ContentTypeAsWritten(r, ageDays).Some? ==> ContentTypeAsWritten(r, ageDays) == Some(c)
    // the rules in priority order, each applying only where none before it does
    ensures c == PopularSpotlight <==> r.stars > 10000
    ensures c == RisingStar <==> r.stars <= 10000 && ageDays < 30 && r.stars > 100
    ensures c == HiddenGem <==>
      && r.stars <= 10000 && !(ageDays < 30 && r.stars > 100)
      && r.stars < 1000 && r.forks > 50
    ensures c == AiToolReview <==>
      && r.stars <= 10000 && !(ageDays < 30 && r.stars > 100) && !(r.stars < 1000 && r.forks > 50)
      && (Contains(Lower(TextOrEmpty(r.description)), "ai") || "machine-learning" in r.topics)
    ensures c == DeepDive <==>
      && r.stars <= 10000 && !(ageDays < 30 && r.stars > 100) && !(r.stars < 1000 && r.forks > 50)
      && !Contains(Lower(TextOrEmpty(r.description)), "ai") && "machine-learning" !in r.topics
  {
    var early := PopularityContentType(r, ageDays);
    if early.Some? then early.value
    else TopicContentType(TextOrEmpty(r.description), r.topics)
  }

  /** A null description makes the as-written helper raise, even for a
      repository tagged `machine-learning`; the corrected helper reviews it
      as an AI tool. */
  lemma ContentTypeNullDescription()
    ensures var r := Repo("lib", "owner/lib", 500, 10, 500, 3, true, Text("2020-01-01T00:00:00Z"),
                          Text("Python"), Null, ["machine-learning"]);
      && ContentTypeAsWritten(r, 400) == None
      && DetermineContentType(r, 400) == AiToolReview
  {
  }

  /** The corrected helper cannot tell a null description from a missing
      one, and agrees with the source wherever the source does not raise. */
  lemma ContentTypeNullAsMissing(r: Repo, ageDays: int)
    ensures DetermineContentType(r.(description := Null), ageDays) == DetermineContentType(r.(description := Missing), ageDays)
    ensures r.description != Null ==> ContentTypeAsWritten(r, ageDays) == Some(DetermineContentType(r, ageDays))
  {
  }

  /** The popularity rules come first: when one applies, the description
      and the topics do not matter. */
  lemma ContentTypePopularityFirst(r: Repo, ageDays: int, description: JsonText, topics: seq<string>)
    requires PopularityContentType(r, ageDays).Some?
    ensures DetermineContentType(r.(description := description, topics := topics), ageDays) == PopularityContentType(r, ageDays).value
    ensures ContentTypeAsWritten(r.(description := description, topics := topics), ageDays) == PopularityContentType(r, ageDays)
  {
  }

  // ---------------------------------------------------------------------
  // generate_video_tags

  const BaseTags: seq<string> := ["github", "programming", "coding", "opensource", "developer"]

  function Min(a: int, b: int): int
  {
    if a <= b then a else b
  }

  /** The lower-cased language, when `repo.get('language')` is truthy. */
  function LanguageTag(language: JsonText): seq<string>
  {
    if language.IsTruthy() then [Lower(language.value)] else []
  }

  /** `generate_video_tags`: the five fixed tags, the lower-cased language
      if there is one, then the first five topics in order. */
  method GenerateVideoTags(r: Repo) returns (tags: seq<string>)
    ensures tags == BaseTags + LanguageTag(r.language) + r.topics[..Min(5, |r.topics|)]
    ensures tags[..5] == BaseTags
    ensures |tags| == 5 + |LanguageTag(r.language)| + Min(5, |r.topics|) <= 11
  {
    tags := BaseTags;
    if r.language.IsTruthy() {
      tags := tags + [Lower(r.language.value)];
    }
    var first := r.topics[..Min(5, |r.topics|)];
    for k := 0 to |first|
      invariant tags == BaseTags + LanguageTag(r.language) + first[..k]
    {
      tags := tags + [first[k]];
      assert first[..k + 1] == first[..k] + [first[k]];
    }
    assert first[..|first|] == first;
  }

  // ---------------------------------------------------------------------
  // get_target_audience

  datatype Audience = AiMlEngineers | FrontendDevelopers | PythonDevelopers | DevOpsEngineers | GeneralDevelopers
  {
    function Label(): string
    {
      match this
      case AiMlEngineers => "AI/ML Engineers, Data Scientists"
      case FrontendDevelopers => "Frontend Developers, Full-stack Engineers"
      case PythonDevelopers => "Python Developers, Backend Engineers"
      case DevOpsEngineers => "DevOps Engineers, System Administrators"
      case GeneralDevelopers => "General Developers, Programming Enthusiasts"
    }
  }

  /** The decision list over the lower-cased language and the topics. */
  function AudienceFor(language: string, topics: seq<string>): Audience
  {
    if AnyTopicIn(topics, {"machine-learning", "ai"}) then AiMlEngineers
    else if language in ["javascript", "typescript", "react"] then FrontendDevelopers
    else if language in ["python"] then PythonDevelopers
    else if AnyTopicIn(topics, {"devops"}) || language in ["dockerfile", "kubernetes"] then DevOpsEngineers
    else GeneralDevelopers
  }

  /** `get_target_audience` as written: None where it raises, which is
      whenever `language` is JSON null (`None.lower()`). */
  function AudienceAsWritten(r: Repo): (a: Option<Audience>)
    ensures a.None? <==> r.language.Null?
  {
    match r.language.GetOr("")
    case None => None
    case Some(l) => Some(AudienceFor(Lower(l), r.topics))
  }

  /** `get_target_audience` with a null language read like a missing one. */
  function TargetAudience(r: Repo): (a: Audience)
    ensures AudienceAsWritten(r).Some? ==> AudienceAsWritten(r) == Some(a)
    // an AI or machine-learning topic decides, whatever the language
    ensures a == AiMlEngineers <==> exists k :: 0 <= k < |r.topics| && Lower(r.topics[k]) in {"machine-learning", "ai"}
    // then the lower-cased language, first the web languages, then Python
    ensures a == FrontendDevelopers <==>
      && !(exists k :: 0 <= k < |r.topics| && Lower(r.topics[k]) in {"machine-learning", "ai"})
      && Lower(TextOrEmpty(r.language)) in {"javascript", "typescript", "react"}
    ensures a == PythonDevelopers <==>
      && !(exists k :: 0 <= k < |r.topics| && Lower(r.topics[k]) in {"machine-learning", "ai"})
      && Lower(TextOrEmpty(r.language)) == "python"
    // then a devops topic or a container language
    ensures a == DevOpsEngineers <==>
      && !(exists k :: 0 <= k < |r.topics| && Lower(r.topics[k]) in {"machine-learning", "ai"})
      && Lower(TextOrEmpty(r.language)) !in {"javascript", "typescript", "react", "python"}
      && ((exists k :: 0 <= k < |r.topics| && Lower(r.topics[k]) == "devops")
          || Lower(TextOrEmpty(r.language)) in {"dockerfile", "kubernetes"})
    // and the general audience when nothing applies
    ensures a == GeneralDevelopers <==>
      && !(exists k :: 0 <= k < |r.topics| && Lower(r.topics[k]) in {"machine-learning", "ai", "devops"})
      && Lower(TextOrEmpty(r.language)) !in {"javascript", "typescript", "react", "python", "dockerfile", "kubernetes"}
    // so a Python repository without such a topic is for Python developers
    ensures a != AiMlEngineers && r.language == Text("Python") ==> a == PythonDevelopers
  {
    assert Lower("Python") == "python" by {
      assert forall k :: 0 <= k < 6 ==> Lower("Python")[k] == "python"[k];
    }
    AudienceFor(Lower(TextOrEmpty(r.language)), r.topics)
  }

  /** Repositories without a detected language carry `"language": null`; for
      such a record the as-written helper raises. */
  lemma AudienceNullLanguage(topics: seq<string>)
    ensures var r := Repo("notes", "owner/notes", 12, 1, 12, 0, false, Text("2024-05-01T00:00:00Z"),
                          Null, Missing, topics);
      && AudienceAsWritten(r) == None
      && TargetAudience(r) == TargetAudience(r.(language := Missing))
  {
  }

  /** The corrected helper agrees with the source wherever the source does
      not raise. */
  lemma AudienceAgrees(r: Repo)
    requires r.language != Null
    ensures AudienceAsWritten(r) == Some(TargetAudience(r))
  {
  }

  // ---------------------------------------------------------------------
  // get_optimal_upload_time

  datatype UploadSlot = TuesdayTenAm | WednesdayNineAm | MidweekMorning
  {
    function Label(): string
    {
      match this
      case TuesdayTenAm => "Tuesday 10 AM PST (high engagement from tech professionals)"
      case WednesdayNineAm => "Wednesday 9 AM PST (web developers active)"
      case MidweekMorning => "Tuesday-Thursday 9-11 AM PST (general developer audience)"
    }
  }

  /** `get_optimal_upload_time`. */
  function OptimalUploadTime(r: Repo): (slot: UploadSlot)
    ensures slot == TuesdayTenAm <==> exists k :: 0 <= k < |r.topics| && Lower(r.topics[k]) in AiTopics
    ensures slot == MidweekMorning <==> forall k :: 0 <= k < |r.topics| ==> Lower(r.topics[k]) !in AiTopics + WebTopics
  {
    if AnyTopicIn(r.topics, AiTopics) then TuesdayTenAm
    else if AnyTopicIn(r.topics, WebTopics) then WednesdayNineAm
    else MidweekMorning
  }

  /** A repository with both an AI topic and a web topic gets the AI slot. */
  lemma UploadTimeAiFirst(r: Repo, i: int, j: int)
    requires 0 <= i < |r.topics| && Lower(r.topics[i]) in AiTopics
    requires 0 <= j < |r.topics| && Lower(r.topics[j]) in WebTopics
    ensures OptimalUploadTime(r) == TuesdayTenAm
  {
  }
}
