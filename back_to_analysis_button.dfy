/**
 * The "back to analysis" button (components/back-to-analysis-button.tsx):
 * one click navigates either back to the comparison page with the current
 * query, or to the results step of the home page. Both looks of the button
 * (arrow and text) bind the same click handler.
 */
module BackToAnalysisButton {
  import opened Wrappers
  import Navigation

  type Query = Navigation.Query

  const ComparisonPath := "/swing-comparison"
  const ComparisonPrefix := ComparisonPath + "?"
  /** `/?currentStep=results`. */
  const ResultsTarget := "/" + "?" + "currentStep" + "=" + "results"

  /** The route a click on the button leads to, for the current query. */
  function BackTarget(q: Query): string {
    if Navigation.GetParam(q, "returnTo") == Some("swing-comparison") then ComparisonPrefix + Navigation.Serialize(q)
    else ResultsTarget
  }

  /**
   * `handleBackToAnalysis`: reads `returnTo`, then pushes the comparison page
   * with a copy of the current query, or the results step. Exactly one route
   * is pushed per click.
   */
  method HandleBackToAnalysis(q: Query, router: Navigation.Router)
    modifies router
    ensures router.pushed == old(router.pushed) + [BackTarget(q)]
  {
    var returnTo := Navigation.GetParam(q, "returnTo");
    if returnTo == Some("swing-comparison") {
      // `new URLSearchParams(searchParams.toString())` copies the pairs unchanged.
      var currentParams := q;
      router.Push(ComparisonPrefix + Navigation.Serialize(currentParams));
    } else {
      router.Push(ResultsTarget);
    }
  }

  /**
   * The comparison page is the target exactly when `returnTo` is
   * "swing-comparison", and then the whole current query follows the `?`
   * unchanged; every other value, a missing one included, leads to the
   * results step.
   */
  lemma BackTargetCases(q: Query)
    ensures var t := BackTarget(q);
      && ((|t| >= |ComparisonPrefix| && t[..|ComparisonPrefix|] == ComparisonPrefix) <==>
          Navigation.GetParam(q, "returnTo") == Some("swing-comparison"))
      && (Navigation.GetParam(q, "returnTo") == Some("swing-comparison") ==>
            t[|ComparisonPrefix|..] == Navigation.Serialize(q))
      && (t == ResultsTarget <==> Navigation.GetParam(q, "returnTo") != Some("swing-comparison"))
  {
    var t := BackTarget(q);
    if Navigation.GetParam(q, "returnTo") == Some("swing-comparison") {
      assert t[..|ComparisonPrefix|] == ComparisonPrefix;
      assert t[1] == 's' != ResultsTarget[1];
    } else {
      assert t[1] == '?' != ComparisonPrefix[1];
    }
  }

  /**
   * Back on the comparison page, the query read from the route is the query
   * the button was clicked with, `returnTo` included.
   */
  lemma ComparisonKeepsQuery(q: Query)
    requires Navigation.PlainQuery(q)
    requires Navigation.GetParam(q, "returnTo") == Some("swing-comparison")
    ensures Navigation.Path(BackTarget(q)) == ComparisonPath
    ensures Navigation.ParseQuery(Navigation.QueryText(BackTarget(q))) == q
    ensures Navigation.RouteParam(BackTarget(q), "returnTo") == Some("swing-comparison")
  {
    var text := Navigation.Serialize(q);
    assert BackTarget(q) == ComparisonPath + "?" + text;
    Navigation.RouteParts(ComparisonPath, text);
    Navigation.ParseSerialize(q);
  }

  /** Without a `returnTo` pair the button leads to the results step. */
  lemma MissingReturnToLeadsToResults(q: Query)
    requires forall i :: 0 <= i < |q| ==> q[i].0 != "returnTo"
    ensures BackTarget(q) == ResultsTarget
    ensures Navigation.Path(BackTarget(q)) == "/"
    ensures Navigation.RouteParam(BackTarget(q), "currentStep") == Some("results")
  {
    Navigation.RouteWithOneParam("/", "currentStep", "results");
  }
}
