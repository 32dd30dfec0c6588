/** The chat's quick-action buttons (src/components/Chatbot/QuickActions.jsx):
    which buttons a profile is offered and what a click on one emits. */
module QuickActions {
  import opened Common

  /** A button either navigates (`action: 'navigate'` with a `target`) or
      asks a canned question (`query`). */
  datatype ActionKind = Navigate(target: string) | Ask(query: string)

  datatype QuickAction = QuickAction(id: string, text: string, kind: ActionKind)

  /** What `onActionClick` receives: `{type: 'navigate', target}` or
      `{type: 'query', text}`. */
  datatype ActionEvent = NavigateEvent(target: string) | QueryEvent(text: string)

  /** No ids repeat within a list of buttons. */
  predicate DistinctIds(actions: seq<QuickAction>)
  {
    forall i, j :: 0 <= i < j < |actions| ==> actions[i].id != actions[j].id
  }

  /** The buttons for a profile without a stream. */
  const DefaultActions: seq<QuickAction> := [
    QuickAction("take-quiz", "📊 Take Career Quiz", Navigate("/quiz")),
    QuickAction("explore-careers", "🎯 Explore Careers", Ask("What are different career options available?")),
    QuickAction("college-info", "🏫 College Information", Ask("Tell me about top colleges for different streams")),
    QuickAction("help", "❓ How can you help me?", Ask("What can you help me with?"))
  ]

  const ScienceActions: seq<QuickAction> := [
    QuickAction("engineering-colleges", "⚙️ Engineering Colleges", Ask("Show me top engineering colleges")),
    QuickAction("medical-colleges", "🏥 Medical Colleges", Ask("Tell me about medical colleges and admission process")),
    QuickAction("research-careers", "🔬 Research Careers", Ask("What are research career options in science?"))
  ]

  const CommerceActions: seq<QuickAction> := [
    QuickAction("business-colleges", "💼 Business Colleges", Ask("Show me top business and commerce colleges")),
    QuickAction("finance-careers", "💰 Finance Careers", Ask("What are career options in finance and banking?")),
    QuickAction("entrepreneurship", "🚀 Entrepreneurship", Ask("Tell me about starting my own business"))
  ]

  const ArtsActions: seq<QuickAction> := [
    QuickAction("arts-colleges", "🎨 Arts Colleges", Ask("Show me colleges for arts and humanities")),
    QuickAction("creative-careers", "🎭 Creative Careers", Ask("What are creative career options in arts?")),
    QuickAction("civil-services", "🏛️ Civil Services", Ask("Tell me about civil services and government jobs"))
  ]

  /** `streamActions[stream] || streamActions['Science']`: the keys are
      matched exactly, and any other stream gets the Science buttons. */
  function StreamActions(stream: string): (r: seq<QuickAction>)
    ensures |r| == 3
    ensures stream != "Commerce" && stream != "Arts" ==> r == ScienceActions
  {
    if stream == "Science" then ScienceActions
    else if stream == "Commerce" then CommerceActions
    else if stream == "Arts" then ArtsActions
    else ScienceActions
  }

  /** The question behind the `my-recommendations` button. */
  function RecommendationQuery(stream: string): string
  {
    "Show me personalized recommendations for " + stream + " stream"
  }

  /** The two buttons every stream gets first. */
  function BaseActions(stream: string): seq<QuickAction>
  {
    [QuickAction("my-recommendations", "✨ My Recommendations", Ask(RecommendationQuery(stream))),
     QuickAction("admission-help", "📝 Admission Help", Ask("Help me with college admission process"))]
  }

  /** `getQuickActions`, with `userProfile?.stream` as `stream` and the
      empty string for a missing profile or stream (both are falsy). Without
      a stream there are four buttons, the first going to the quiz; with one,
      the two base buttons come before the stream's three. */
  function GetQuickActions(stream: string): (r: seq<QuickAction>)
    ensures stream == "" ==> |r| == 4 && r[0].kind == Navigate("/quiz")
    ensures stream != "" ==> |r| == 5 && r[..2] == BaseActions(stream) && r[2..] == StreamActions(stream)
    ensures stream != "" ==> forall i :: 0 <= i < |r| ==> r[i].kind.Ask?
  {
    if stream == "" then DefaultActions
    else
      var r := BaseActions(stream) + StreamActions(stream);
      assert r[..2] == BaseActions(stream) && r[2..] == StreamActions(stream);
      r
  }

  lemma DefaultIdsDistinct()
    ensures DistinctIds(DefaultActions)
  {
  }

  /** The ids of the base buttons differ from each other and from those of
      the stream buttons. */
  lemma StreamIdsDistinct(stream: string, actions: seq<QuickAction>)
    requires actions == ScienceActions || actions == CommerceActions || actions == ArtsActions
    ensures DistinctIds(BaseActions(stream) + actions)
  {
    var r := BaseActions(stream) + actions;
    assert r[0].id == "my-recommendations" && r[1].id == "admission-help";
    assert forall i :: 2 <= i < 5 ==> r[i] == actions[i - 2];
  }

  /** Button ids never repeat within an offered list. */
  lemma QuickActionIdsDistinct(stream: string)
    ensures DistinctIds(GetQuickActions(stream))
  {
    if stream == "" {
      DefaultIdsDistinct();
    } else {
      StreamIdsDistinct(stream, StreamActions(stream));
    }
  }

  /** An unknown stream is offered exactly what Science is offered, apart
      from the stream named in the recommendation question. */
  lemma UnknownStreamGetsScience(stream: string)
    requires stream != "" && stream != "Science" && stream != "Commerce" && stream != "Arts"
    ensures GetQuickActions(stream)[1..] == GetQuickActions("Science")[1..]
  {
    var r := GetQuickActions(stream);
    var s := GetQuickActions("Science");
    assert r[1..] == [r[1]] + r[2..];
    assert s[1..] == [s[1]] + s[2..];
  }

  /** The recommendation question names the profile's stream. */
  lemma RecommendationNamesStream(stream: string)
    requires stream != ""
    ensures GetQuickActions(stream)[0].kind.Ask?
    ensures Contains(GetQuickActions(stream)[0].kind.query, stream)
  {
    var q := RecommendationQuery(stream);
    var prefix := "Show me personalized recommendations for ";
    assert q[|prefix|..] == stream + " stream";
    ContainsAt(q, stream, |prefix|);
  }

  /** `handleActionClick`, with `hasHandler` telling whether `onActionClick`
      was given: a navigate button emits its target, a question button with
      a non-empty question emits it, anything else emits nothing. */
  function HandleActionClick(a: QuickAction, hasHandler: bool): (r: Option<ActionEvent>)
    ensures r.Some? <==> hasHandler && (a.kind.Navigate? || a.kind.query != "")
    ensures r.Some? && a.kind.Navigate? ==> r.value == NavigateEvent(a.kind.target)
    ensures r.Some? && a.kind.Ask? ==> r.value == QueryEvent(a.kind.query)
  {
    match a.kind
    case Navigate(target) => if hasHandler then Some(NavigateEvent(target)) else None
    case Ask(query) => if query != "" && hasHandler then Some(QueryEvent(query)) else None
  }

  /** With a handler, every offered button emits an event; without a stream
      the only navigation is to the quiz. */
  lemma {:induction false} EveryButtonEmits(stream: string, i: nat)
    requires i < |GetQuickActions(stream)|
    ensures HandleActionClick(GetQuickActions(stream)[i], true).Some?
    ensures HandleActionClick(GetQuickActions(stream)[i], false).None?
    ensures HandleActionClick(GetQuickActions(stream)[i], true).value.NavigateEvent? ==>
      stream == "" && i == 0 && HandleActionClick(GetQuickActions(stream)[i], true).value.target == "/quiz"
  {
    var r := GetQuickActions(stream);
    if stream == "" {
      assert r == DefaultActions;
    } else {
      assert r[i] in r[..2] + r[2..] by { assert r == r[..2] + r[2..]; }
      assert r[i].kind.query != "" by {
        if i < 2 {
          assert r[i] in BaseActions(stream);
        } else {
          var s := StreamActions(stream);
          assert r[i] == s[i - 2];
          assert s == ScienceActions || s == CommerceActions || s == ArtsActions;
        }
      }
    }
  }
}
