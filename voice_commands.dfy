/** The voice-command hook: speech recognition results are turned into page
    navigations by looking for fixed phrases in the latest transcript. */
module VoiceCommands {
  import opened Wrappers
  import opened Text

  const DashboardRoute: string := "/dashboard"
  const HistoryRoute: string := "/history"
  const PredictRoute: string := "/predict"
  const ProfileRoute: string := "/profile"

  /** The route a transcript asks for, if any. The transcript is lower-cased first
      and the phrases are tried in a fixed order, so the first one present wins. */
  function RouteFor(transcript: string): (route: Option<string>)
    ensures var c := ToLowerAscii(transcript);
            && (route == Some(DashboardRoute) <==> Contains(c, "show dashboard"))
            && (route == Some(HistoryRoute) <==>
                  !Contains(c, "show dashboard") && (Contains(c, "show predictions") || Contains(c, "show history")))
            && (route == Some(PredictRoute) <==>
                  !Contains(c, "show dashboard") && !Contains(c, "show predictions") && !Contains(c, "show history")
                  && Contains(c, "new prediction"))
            && (route == Some(ProfileRoute) <==>
                  !Contains(c, "show dashboard") && !Contains(c, "show predictions") && !Contains(c, "show history")
                  && !Contains(c, "new prediction") && Contains(c, "show profile"))
            && (route == None <==>
                  !Contains(c, "show dashboard") && !Contains(c, "show predictions") && !Contains(c, "show history")
                  && !Contains(c, "new prediction") && !Contains(c, "show profile"))
  {
    var command := ToLowerAscii(transcript);
    if Contains(command, "show dashboard") then Some(DashboardRoute)
    else if Contains(command, "show predictions") || Contains(command, "show history") then Some(HistoryRoute)
    else if Contains(command, "new prediction") then Some(PredictRoute)
    else if Contains(command, "show profile") then Some(ProfileRoute)
    else None
  }

  /** `onresult`: only the top alternative of the last result is looked at. The
      recognition service never reports an empty result list or result. */
  function RouteForResults(results: seq<seq<string>>): (route: Option<string>)
    requires |results| > 0 && |results[|results| - 1]| > 0
    ensures route == RouteFor(results[|results| - 1][0])
  {
    var last := |results| - 1;
    RouteFor(results[last][0])
  }

  /** Earlier results play no part: replacing any of them leaves the route as it is. */
  lemma OnlyLastResultCounts(results: seq<seq<string>>, k: nat, other: seq<string>)
    requires |results| > 0 && |results[|results| - 1]| > 0 && k < |results| - 1
    ensures RouteForResults(results[k := other]) == RouteForResults(results)
  {
  }

  /** Lower-casing commutes with concatenation. */
  lemma LowerConcat(a: string, b: string)
    ensures ToLowerAscii(a + b) == ToLowerAscii(a) + ToLowerAscii(b)
  {
  }

  /** A phrase spoken in any letter case, anywhere in the transcript, is found. */
  lemma PhraseFound(a: string, p: string, b: string, phrase: string)
    requires ToLowerAscii(p) == phrase
    ensures Contains(ToLowerAscii(a + p + b), phrase)
  {
    LowerConcat(a + p, b);
    LowerConcat(a, p);
    var c := ToLowerAscii(a + p + b);
    assert c == ToLowerAscii(a) + phrase + ToLowerAscii(b);
    assert c[|a|..|a| + |phrase|] == phrase;
    assert OccursAt(c, phrase, |a|);
    ContainsIff(c, phrase);
  }

  /** "show dashboard", in any letter case and whatever surrounds it, always leads to
      the dashboard. */
  lemma DashboardAnywhere(a: string, p: string, b: string)
    requires ToLowerAscii(p) == "show dashboard"
    ensures RouteFor(a + p + b) == Some(DashboardRoute)
  {
    PhraseFound(a, p, b, "show dashboard");
  }

  /** "new prediction" leads to the prediction form unless a phrase of higher
      priority is also present. */
  lemma NewPredictionAnywhere(a: string, p: string, b: string)
    requires ToLowerAscii(p) == "new prediction"
    ensures RouteFor(a + p + b).Some?
    ensures var c := ToLowerAscii(a + p + b);
            !Contains(c, "show dashboard") && !Contains(c, "show predictions") && !Contains(c, "show history")
            ==> RouteFor(a + p + b) == Some(PredictRoute)
  {
    PhraseFound(a, p, b, "new prediction");
  }

  /** The hook's state; `navigations` records the routes navigated to. */
  class VoiceHook {
    var isListening: bool
    var navigations: seq<string>

    constructor ()
      ensures !isListening && navigations == []
    {
      isListening := false;
      navigations := [];
    }

    /** `startListening`: without the speech API nothing starts and the flag stays;
        with it, recognition starts and the flag waits for the start event. */
    method StartListening(supported: bool) returns (started: bool)
      ensures started == supported
    {
      started := supported;
    }

    /** The recognizer's start and end events. */
    method OnStart()
      modifies this
      ensures isListening && navigations == old(navigations)
    {
      isListening := true;
    }

    method OnEnd()
      modifies this
      ensures !isListening && navigations == old(navigations)
    {
      isListening := false;
    }

    /** `onresult`: at most one navigation per result. */
    method OnResult(results: seq<seq<string>>)
      requires |results| > 0 && |results[|results| - 1]| > 0
      modifies this
      ensures var route := RouteForResults(results);
              navigations == old(navigations) + (if route.Some? then [route.value] else [])
      ensures |navigations| <= |old(navigations)| + 1
      ensures isListening == old(isListening)
    {
      var route := RouteForResults(results);
      if route.Some? {
        navigations := navigations + [route.value];
      }
    }
  }
}
