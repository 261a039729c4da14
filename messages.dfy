/**
 * Topic codec of the provisional Hermes NLU messages `NluTrain` and
 * `NluTrainSuccess`: each builds its topic from a site id and recognises its
 * own topic shape with the anchored pattern `^hermes/nlu/([^/]+)<suffix>$`.
 *
 * The pattern is written out as an explicit segment check. Python's `$`
 * matches at the end of the string and also just before one final newline,
 * so a topic followed by a single "\n" is recognised too.
 */
module Messages {
  import opened Wrappers

  const Prefix: string := "hermes/nlu/"
  const TrainSuffix: string := "/train"
  const TrainSuccessSuffix: string := "/trainSuccess"
  /** The site id `topic` falls back to when no `siteId` keyword is given. */
  const DefaultSiteId: string := "default"

  /** What `[^/]+` matches: a non-empty run of characters other than `/`. */
  predicate IsSegment(s: string) {
    |s| > 0 && forall i :: 0 <= i < |s| ==> s[i] != '/'
  }

  /** The f-string `hermes/nlu/{siteId}<suffix>`; `None` means the keyword was absent. */
  function Topic(suffix: string, siteId: Option<string>): string {
    Prefix + (match siteId case Some(s) => s case None => DefaultSiteId) + suffix
  }

  /** Group 1 of the pattern when `$` matches at the very end of `t`. */
  function ExactSegment(t: string, suffix: string): (r: Option<string>)
    ensures r.Some? ==> IsSegment(r.value) && t == Prefix + r.value + suffix
  {
    if |t| >= |Prefix| + |suffix| && t[..|Prefix|] == Prefix && t[|t| - |suffix|..] == suffix
       && IsSegment(t[|Prefix|..|t| - |suffix|])
    then
      assert t == t[..|Prefix|] + t[|Prefix|..|t| - |suffix|] + t[|t| - |suffix|..];
      Some(t[|Prefix|..|t| - |suffix|])
    else None
  }

  /**
   * `re.match(PATTERN, t)`: `None` when there is no match, otherwise group 1.
   * `$` is tried at the end of `t` first, then before a final "\n".
   */
  function MatchSegment(t: string, suffix: string): (r: Option<string>)
    ensures r.Some? ==> IsSegment(r.value)
    ensures r.Some? ==> t == Prefix + r.value + suffix || t == Prefix + r.value + suffix + "\n"
  {
    if ExactSegment(t, suffix).Some? then ExactSegment(t, suffix)
    else if |t| > 0 && t[|t| - 1] == '\n' then
      assert t == t[..|t| - 1] + "\n";
      ExactSegment(t[..|t| - 1], suffix)
    else None
  }

  /** A suffix that cannot itself supply the newline `$` may skip. */
  predicate PlainSuffix(suffix: string) {
    |suffix| > 0 && suffix[|suffix| - 1] != '\n'
  }

  /** Building a topic and matching it gives back exactly the segments `[^/]+` accepts. */
  lemma {:induction false} MatchTopic(suffix: string, s: string)
    requires PlainSuffix(suffix)
    ensures MatchSegment(Topic(suffix, Some(s)), suffix) == if IsSegment(s) then Some(s) else None
  {
    var t := Topic(suffix, Some(s));
    assert t == Prefix + s + suffix;
    assert t[..|Prefix|] == Prefix;
    assert t[|t| - |suffix|..] == suffix;
    assert t[|Prefix|..|t| - |suffix|] == s;
    assert t[|t| - 1] == suffix[|suffix| - 1];
  }

  /** A topic matches iff it is the prefix, one segment and the suffix, optionally followed by "\n". */
  lemma {:induction false} MatchShape(t: string, suffix: string)
    ensures MatchSegment(t, suffix).Some? <==>
            exists seg :: IsSegment(seg) && (t == Prefix + seg + suffix || t == Prefix + seg + suffix + "\n")
  {
    if exists seg :: IsSegment(seg) && (t == Prefix + seg + suffix || t == Prefix + seg + suffix + "\n") {
      var seg :| IsSegment(seg) && (t == Prefix + seg + suffix || t == Prefix + seg + suffix + "\n");
      var u := Prefix + seg + suffix;
      assert u[..|Prefix|] == Prefix;
      assert u[|u| - |suffix|..] == suffix;
      assert u[|Prefix|..|u| - |suffix|] == seg;
      assert ExactSegment(u, suffix) == Some(seg);
      if t != u {
        assert t[..|t| - 1] == u;
      }
    }
  }

  // ---------------------------------------------------------------- NluTrain

  /** `NluTrain.topic(siteId=...)`. */
  function TrainTopic(siteId: Option<string>): (t: string)
    ensures MatchSegment(t, TrainSuffix) == Some(siteId.GetOr(DefaultSiteId)) <==> IsSegment(siteId.GetOr(DefaultSiteId))
    ensures !IsSegment(siteId.GetOr(DefaultSiteId)) ==> MatchSegment(t, TrainSuffix).None?
  {
    assert IsSegment(DefaultSiteId);
    MatchTopic(TrainSuffix, siteId.GetOr(DefaultSiteId));
    assert Topic(TrainSuffix, siteId) == Topic(TrainSuffix, Some(siteId.GetOr(DefaultSiteId)));
    Topic(TrainSuffix, siteId)
  }

  /** `NluTrain.is_topic(t)`. */
  predicate IsTrainTopic(t: string) {
    MatchSegment(t, TrainSuffix).Some?
  }

  /**
   * `NluTrain.get_siteId(t)`: the site id of a train topic, or the failed
   * assertion "Not a train topic".
   */
  function TrainSiteId(t: string): (r: Result<string>)
    ensures r.Ok? <==> IsTrainTopic(t)
    ensures r.Err? ==> r.error == "Not a train topic"
    ensures r.Ok? ==> IsSegment(r.value)
    ensures r.Ok? ==> t == TrainTopic(Some(r.value)) || t == TrainTopic(Some(r.value)) + "\n"
  {
    match MatchSegment(t, TrainSuffix)
    case Some(s) => Ok(s)
    case None => Err("Not a train topic")
  }

  /** Encoding a site id and decoding the topic gives it back exactly when it is a segment. */
  lemma {:induction false} TrainRoundTrip(s: string)
    ensures IsTrainTopic(TrainTopic(Some(s))) <==> IsSegment(s)
    ensures IsSegment(s) ==> TrainSiteId(TrainTopic(Some(s))) == Ok(s)
    ensures !IsSegment(s) ==> TrainSiteId(TrainTopic(Some(s))).Err?
  {
    MatchTopic(TrainSuffix, s);
  }

  /** Without a site id the topic is `hermes/nlu/default/train`, which decodes to "default". */
  lemma {:induction false} TrainDefaultSite()
    ensures TrainTopic(None) == "hermes/nlu/default/train"
    ensures TrainSiteId(TrainTopic(None)) == Ok(DefaultSiteId)
  {
    assert IsSegment(DefaultSiteId);
    MatchTopic(TrainSuffix, DefaultSiteId);
  }

  /** `NluTrain.is_topic` holds exactly on prefix, one segment, `/train`, and at most a final "\n". */
  lemma {:induction false} TrainTopicShape(t: string)
    ensures IsTrainTopic(t) <==>
            exists seg :: IsSegment(seg) && (t == Prefix + seg + TrainSuffix || t == Prefix + seg + TrainSuffix + "\n")
  {
    MatchShape(t, TrainSuffix);
  }

  // --------------------------------------------------------- NluTrainSuccess

  /** `NluTrainSuccess.topic(siteId=...)`. */
  function TrainSuccessTopic(siteId: Option<string>): (t: string)
    ensures MatchSegment(t, TrainSuccessSuffix) == Some(siteId.GetOr(DefaultSiteId)) <==> IsSegment(siteId.GetOr(DefaultSiteId))
    ensures !IsSegment(siteId.GetOr(DefaultSiteId)) ==> MatchSegment(t, TrainSuccessSuffix).None?
  {
    assert IsSegment(DefaultSiteId);
    MatchTopic(TrainSuccessSuffix, siteId.GetOr(DefaultSiteId));
    assert Topic(TrainSuccessSuffix, siteId) == Topic(TrainSuccessSuffix, Some(siteId.GetOr(DefaultSiteId)));
    Topic(TrainSuccessSuffix, siteId)
  }

  /** `NluTrainSuccess.is_topic(t)`. */
  predicate IsTrainSuccessTopic(t: string) {
    MatchSegment(t, TrainSuccessSuffix).Some?
  }

  /**
   * `NluTrainSuccess.get_siteId(t)`: the site id of a trainSuccess topic, or
   * the failed assertion "Not a trainSuccess topic".
   */
  function TrainSuccessSiteId(t: string): (r: Result<string>)
    ensures r.Ok? <==> IsTrainSuccessTopic(t)
    ensures r.Err? ==> r.error == "Not a trainSuccess topic"
    ensures r.Ok? ==> IsSegment(r.value)
    ensures r.Ok? ==> t == TrainSuccessTopic(Some(r.value)) || t == TrainSuccessTopic(Some(r.value)) + "\n"
  {
    match MatchSegment(t, TrainSuccessSuffix)
    case Some(s) => Ok(s)
    case None => Err("Not a trainSuccess topic")
  }

  /** Encoding a site id and decoding the topic gives it back exactly when it is a segment. */
  lemma {:induction false} TrainSuccessRoundTrip(s: string)
    ensures IsTrainSuccessTopic(TrainSuccessTopic(Some(s))) <==> IsSegment(s)
    ensures IsSegment(s) ==> TrainSuccessSiteId(TrainSuccessTopic(Some(s))) == Ok(s)
    ensures !IsSegment(s) ==> TrainSuccessSiteId(TrainSuccessTopic(Some(s))).Err?
  {
    MatchTopic(TrainSuccessSuffix, s);
  }

  /** Without a site id the topic is `hermes/nlu/default/trainSuccess`, which decodes to "default". */
  lemma {:induction false} TrainSuccessDefaultSite()
    ensures TrainSuccessTopic(None) == "hermes/nlu/default/trainSuccess"
    ensures TrainSuccessSiteId(TrainSuccessTopic(None)) == Ok(DefaultSiteId)
  {
    assert IsSegment(DefaultSiteId);
    MatchTopic(TrainSuccessSuffix, DefaultSiteId);
  }

  /** `NluTrainSuccess.is_topic` holds exactly on prefix, one segment, `/trainSuccess`, and at most a final "\n". */
  lemma {:induction false} TrainSuccessTopicShape(t: string)
    ensures IsTrainSuccessTopic(t) <==>
            exists seg :: IsSegment(seg) && (t == Prefix + seg + TrainSuccessSuffix || t == Prefix + seg + TrainSuccessSuffix + "\n")
  {
    MatchShape(t, TrainSuccessSuffix);
  }

  // ------------------------------------------------------------- both kinds

  /** The last character of `Prefix + seg + suffix`, with or without a final newline. */
  lemma {:induction false} LastBeforeNewline(t: string, seg: string, suffix: string)
    requires |suffix| > 0
    requires t == Prefix + seg + suffix || t == Prefix + seg + suffix + "\n"
    ensures t == Prefix + seg + suffix ==> t[|t| - 1] == suffix[|suffix| - 1]
    ensures t != Prefix + seg + suffix ==> |t| >= 2 && t[|t| - 1] == '\n' && t[|t| - 2] == suffix[|suffix| - 1]
  {
  }

  /** No topic is both a train topic and a trainSuccess topic. */
  lemma {:induction false} TopicsDisjoint(t: string)
    ensures !(IsTrainTopic(t) && IsTrainSuccessTopic(t))
  {
    if IsTrainTopic(t) && IsTrainSuccessTopic(t) {
      var a := TrainSiteId(t).value;
      var b := TrainSuccessSiteId(t).value;
      LastBeforeNewline(t, a, TrainSuffix);
      LastBeforeNewline(t, b, TrainSuccessSuffix);
      assert false;
    }
  }
}
