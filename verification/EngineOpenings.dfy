/** What becomes of an episode that opens: suppressed, refused by a rate limit, or alerted. */
module EngineOpenings {
  import opened Common
  import opened RateLimit
  import opened Policy
  import opened PolicyRuns
  import opened EngineModel

  /** The limiter has no room for one more event at `now`. */
  predicate Full(l: Option<Limiter>, now: Time) {
    l.Some? && l.value.limit > 0 && |Prune(l.value.events, now - l.value.window)| >= l.value.limit
  }

  /** The observation opens an episode: the last of enough consecutive exceedances. */
  predicate Opening(p: PolicyState, risk: real) {
    !p.state.Active? && risk >= EffectiveThreshold(p.p, p.offset) && p.above + 1 >= p.p.minPersistence
  }

  /**
    The limiter that the asset's site has now; it is made on first use, and none
    is used when the class sets no limit.
   */
  function InUse(sites: map<string, Limiter>, site: string, perSite: int): Option<Limiter> {
    if perSite <= 0 then None
    else Some(if site in sites then sites[site] else Limiter(perSite, HOUR, []))
  }

  /**
    The limiter once an event at `now` has asked it: what has left the window is
    dropped, an admitted event is kept.
   */
  function Asked(l: Limiter, now: Time): Limiter {
    if l.limit <= 0 then l
    else l.(events := Prune(l.events, now - l.window) + if Full(Some(l), now) then [] else [now])
  }

  lemma AdmitIs(l: Option<Limiter>, now: Time)
    ensures var (ok, l') := Admit(l, now);
            && (ok <==> !Full(l, now))
            && (l'.Some? <==> l.Some?) && (l.Some? ==> l'.value == Asked(l.value, now))
  {
    if l.Some? {
      assert Prune(l.value.events, now - l.value.window) + [] == Prune(l.value.events, now - l.value.window);
    }
  }

  lemma OpenIs(until: Time, asset: Option<Limiter>, now: Time, site: Option<Limiter>)
    ensures var (o, asset', site') := Open(until, asset, now, site);
            var asksSite := now >= until && !Full(asset, now) && site.Some?;
            && (o.Suppressed? <==> now < until)
            && (o.RateLimited? <==> now >= until && (Full(asset, now) || Full(site, now)))
            && (o.Fire? <==> now >= until && !Full(asset, now) && !Full(site, now))
            && asset' == (if now >= until && asset.Some? then Some(Asked(asset.value, now)) else asset)
            && site' == (if asksSite then Some(Asked(site.value, now)) else site)
  {
    AdmitIs(asset, now);
    AdmitIs(site, now);
    hide Full, Asked, Admit;
  }

  lemma EvaluationOutcome(p: PolicyState, now: Time, risk: real, site: Option<Limiter>)
    ensures var (p', d, site') := Evaluate(p, now, risk, site);
            var o, opens, quiet := d.outcome, Opening(p, risk), now < p.suppressedUntil;
            && (IsOpen(o) <==> opens)
            && (o.Suppressed? <==> opens && quiet)
            && (o.RateLimited? <==> opens && !quiet && (Full(p.limiter, now) || Full(site, now)))
            && (o.Fire? <==> opens && !quiet && !Full(p.limiter, now) && !Full(site, now))
            && p'.limiter == (if opens && !quiet && p.limiter.Some? then Some(Asked(p.limiter.value, now))
                              else p.limiter)
            && site' == (if opens && !quiet && !Full(p.limiter, now) && site.Some?
                         then Some(Asked(site.value, now)) else site)
  {
    hide Open, Mean, EffectiveThreshold, Full, Asked;
    OpenIs(p.suppressedUntil, p.limiter, now, site);
  }

  /**
    An observation that opens an episode is suppressed exactly during the
    suppression time; otherwise it is rate-limited exactly when the asset's limiter
    or the site's is full, and alerts exactly when neither is. The asset's limiter
    is asked unless suppressed, and the site's only if the asset's had room. An
    observation that opens none asks no limiter. Other sites are never touched.
   */
  lemma OpeningOutcome(s: Progress, ts: Time, risk: real)
    ensures var (s', o) := FeedPolicy(s, ts, risk);
            var p, p' := s.asset.policy, s'.asset.policy;
            var site := InUse(s.env.sites, s.asset.site, s.asset.tpl.alerting.maxPerSite);
            var opens, quiet := Opening(p, risk), ts < p.suppressedUntil;
            var asksSite := opens && !quiet && !Full(p.limiter, ts);
            && (IsOpen(o) <==> opens)
            && (o.Suppressed? <==> opens && quiet)
            && (o.RateLimited? <==> opens && !quiet && (Full(p.limiter, ts) || Full(site, ts)))
            && (o.Fire? <==> opens && !quiet && !Full(p.limiter, ts) && !Full(site, ts))
            && p'.limiter == (if opens && !quiet && p.limiter.Some? then Some(Asked(p.limiter.value, ts))
                              else p.limiter)
            && s'.env.sites == (if site.None? then s.env.sites
                                else s.env.sites[s.asset.site := if asksSite then Asked(site.value, ts)
                                  else site.value])
  {
    hide Evaluate, Opening, Full, Asked;
    EvaluationOutcome(s.asset.policy, ts, risk, SiteLimiter(s.env, s.asset));
  }
}
