/** The travel guide's question box (src/components/game/AIGuide.tsx): a question is lowered
    and matched by substring, first against the help topics and then against a keyword chain
    that has the last word. */
module AIGuide {
  import opened Resources
  import opened Text

  /** The four subjects the guide has an answer about for every destination. */
  datatype Topic = History | Food | Attractions | Tips

  /** A help topic: its subject, its id and the title on its button. */
  datatype HelpTopic = HelpTopic(topic: Topic, id: string, title: string)

  const helpTopics: seq<HelpTopic> := [
    HelpTopic(History, "history", "Local History"),
    HelpTopic(Food, "food", "Food & Cuisine"),
    HelpTopic(Attractions, "attractions", "Attractions"),
    HelpTopic(Tips, "tips", "Travel Tips")
  ]

  /** What the guide shows: the destination's answer on a topic, or the fallback message. */
  datatype Reply = Fallback | Answer(topic: Topic)

  /** A help topic matches when its id or its lowered title occurs in the lowered question. */
  predicate TopicMatches(lowerQuestion: string, h: HelpTopic)
  {
    Contains(lowerQuestion, h.id) || Contains(lowerQuestion, Lower(h.title))
  }

  /** The first help topic from index `i` on that matches, or the fallback. */
  function FirstTopicFrom(lowerQuestion: string, i: nat): (r: Reply)
    requires i <= |helpTopics|
    ensures r == Fallback <==> forall j :: i <= j < |helpTopics| ==> !TopicMatches(lowerQuestion, helpTopics[j])
    ensures r.Answer? ==> exists j :: i <= j < |helpTopics| && TopicMatches(lowerQuestion, helpTopics[j]) &&
                                      r.topic == helpTopics[j].topic &&
                                      forall k :: i <= k < j ==> !TopicMatches(lowerQuestion, helpTopics[k])
    decreases |helpTopics| - i
  {
    if i == |helpTopics| then Fallback
    else if TopicMatches(lowerQuestion, helpTopics[i]) then Answer(helpTopics[i].topic)
    else FirstTopicFrom(lowerQuestion, i + 1)
  }

  /** The keyword chain, in priority order; `None` when no keyword occurs. */
  function Keyword(lowerQuestion: string): Option<Topic>
  {
    if Contains(lowerQuestion, "eat") || Contains(lowerQuestion, "restaurant") then Some(Food)
    else if Contains(lowerQuestion, "visit") || Contains(lowerQuestion, "see") || Contains(lowerQuestion, "sight") then Some(Attractions)
    else if Contains(lowerQuestion, "history") || Contains(lowerQuestion, "past") || Contains(lowerQuestion, "founded") then Some(History)
    else if Contains(lowerQuestion, "advice") || Contains(lowerQuestion, "tip") || Contains(lowerQuestion, "recommend") then Some(Tips)
    else None
  }

  /** The reply to a lowered question: a keyword decides when one occurs, otherwise the first
      matching help topic, otherwise the fallback. */
  function Respond(lowerQuestion: string): Reply
  {
    match Keyword(lowerQuestion)
    case Some(t) => Answer(t)
    case None => FirstTopicFrom(lowerQuestion, 0)
  }

  /** The delayed body of `handleQuestionSubmit`: the topic loop with its early exit, then the
      keyword chain overwriting the reply. */
  method AnswerQuestion(question: string) returns (bestResponse: Reply)
    ensures bestResponse == Respond(Lower(question))
  {
    var lowerQuestion := Lower(question);
    bestResponse := Fallback;
    var i := 0;
    while i < |helpTopics|
      invariant 0 <= i <= |helpTopics|
      invariant FirstTopicFrom(lowerQuestion, 0) == FirstTopicFrom(lowerQuestion, i)
      invariant bestResponse == Fallback
    {
      var topic := helpTopics[i];
      if Contains(lowerQuestion, topic.id) || Contains(lowerQuestion, Lower(topic.title)) {
        bestResponse := Answer(topic.topic);
        break;
      }
      i := i + 1;
    }
    assert bestResponse == FirstTopicFrom(lowerQuestion, 0);

    if Contains(lowerQuestion, "eat") || Contains(lowerQuestion, "restaurant") {
      bestResponse := Answer(Food);
    } else if Contains(lowerQuestion, "visit") || Contains(lowerQuestion, "see") || Contains(lowerQuestion, "sight") {
      bestResponse := Answer(Attractions);
    } else if Contains(lowerQuestion, "history") || Contains(lowerQuestion, "past") || Contains(lowerQuestion, "founded") {
      bestResponse := Answer(History);
    } else if Contains(lowerQuestion, "advice") || Contains(lowerQuestion, "tip") || Contains(lowerQuestion, "recommend") {
      bestResponse := Answer(Tips);
    }
  }

  /** A question mentioning eating gets the food answer, whatever else it mentions. */
  lemma EatingWins(lowerQuestion: string)
    requires Contains(lowerQuestion, "eat")
    ensures Respond(lowerQuestion) == Answer(Food)
  {
  }

  /** Without any keyword the help topics decide, in their order. */
  lemma TopicsDecideWithoutKeyword(lowerQuestion: string)
    requires Keyword(lowerQuestion) == None
    ensures Respond(lowerQuestion) == FirstTopicFrom(lowerQuestion, 0)
    ensures Respond(lowerQuestion) == Fallback <==> forall h :: h in helpTopics ==> !TopicMatches(lowerQuestion, h)
  {
    if Respond(lowerQuestion) != Fallback {
      var j :| 0 <= j < |helpTopics| && TopicMatches(lowerQuestion, helpTopics[j]);
      assert helpTopics[j] in helpTopics;
    }
  }

  /** Matching is by substring: "great history" gets the food answer, since "eat" occurs in
      "great". */
  lemma GreatHistoryIsFood()
    ensures Respond(Lower("great history")) == Answer(Food)
  {
    var q := Lower("great history");
    assert q == "great history";
    assert OccursAt(q, "eat", 2);
  }

  /** The guide's state cells. */
  class Guide {
    var question: string
    var response: Option<Reply>

    constructor ()
      ensures question == [] && response == None
    {
      question := [];
      response := None;
    }

    /** The question box's change handler. */
    method Type(text: string)
      modifies this
      ensures question == text && response == old(response)
    {
      question := text;
    }

    /** `handleQuestionSubmit`, the delay taken as immediate: a blank (empty or whitespace-only)
        question is ignored; otherwise the reply to the lowered question is shown. */
    method Submit()
      modifies this
      ensures question == old(question)
      ensures (forall k :: 0 <= k < |question| ==> IsSpace(question[k])) ==> response == old(response)
      ensures (exists k :: 0 <= k < |question| && !IsSpace(question[k])) ==> response == Some(Respond(Lower(question)))
    {
      TrimEmptyIffBlank(question);
      if Trim(question) == [] {
        return;
      }
      var reply := AnswerQuestion(question);
      response := Some(reply);
    }

    /** `handleHelpTopicClick`: the topic's answer is shown directly. */
    method HelpTopicClick(topic: Topic)
      modifies this
      ensures question == old(question) && response == Some(Answer(topic))
    {
      response := Some(Answer(topic));
    }
  }
}
