/** What the rule tools propose, apply and count, in terms of the entries alone. */
module RuleOutcomes {
  import opened Common
  import opened RuleSpec

  // ---- propose ----

  /** A number of the file; a missing one counts as zero. */
  function N(x: Option<real>): real { match x case Some(v) => v case None => 0.0 }

  /** A quarantined rule is proposed for promotion exactly when it needs no transcript, was watched
      in three sessions or more and has a precision of at least 0.7, while the tokens of a session
      fell by at least 5 percent and the mean answer, if known, is at least 0.6. */
  predicate Ripe(e: Entry, r: Rolling) {
    && !e.transcript && N(e.sessions) >= 3.0
    && e.precision.Some? && e.precision.value >= 0.7
    && r.deltaT.Some? && r.deltaT.value <= -5.0
    && (r.eResp.Some? ==> r.eResp.value >= 0.6)
  }

  /** An active rule without a hit in twenty sessions or more. */
  predicate Unused(e: Entry) { N(e.sessions) >= 20.0 && N(e.hits) == 0.0 }

  predicate Wrong(e: Entry) { e.precision.Some? && e.precision.value < 0.4 }

  /** The promotions are those of the ripe rules, in the order of the file. */
  lemma {:induction false} PromotedAre(quarantine: seq<Entry>, r: Rolling)
    ensures Promotions(quarantine, r) == MovesOf(quarantine, e => if Ripe(e, r) then Some(Seasoned) else None)
    decreases |quarantine|
  {
    if quarantine != [] { PromotedAre(quarantine[1..], r); }
  }

  /** The deprecations are those of the unused rules, and of the other imprecise ones, in the order of
      the file. */
  lemma {:induction false} DeprecatedAre(active: seq<Entry>)
    ensures Deprecations(active) ==
      MovesOf(active, e => if Unused(e) then Some(NoHit) else if Wrong(e) then Some(LowPrecision) else None)
    decreases |active|
  {
    if active != [] { DeprecatedAre(active[1..]); }
  }

  /** The rules for which there is a reason, in order. */
  function MovesOf(es: seq<Entry>, reason: Entry -> Option<Reason>): seq<Move> {
    if es == [] then []
    else
      match reason(es[0])
      case Some(why) => [Move(es[0].id, why)] + MovesOf(es[1..], reason)
      case None => MovesOf(es[1..], reason)
  }

  // ---- count ----

  /** The figures of the session for the rule; missing ones count as zero. */
  function Figures(session: map<string, Stat>, id: string): (real, real, real) {
    if id in session then (N(session[id].hits), N(session[id].tp), N(session[id].fp)) else (0.0, 0.0, 0.0)
  }

  /** After a count the rule has one session more, the session's hits and true and false positives
      are added to its own, and its precision is the ratio of the true ones, to four decimals,
      or unknown when there are none of either kind. */
  predicate IsCounted(before: Entry, after: Entry, figures: (real, real, real)) {
    var hits, tp, fp := N(before.hits) + figures.0, N(before.tp) + figures.1, N(before.fp) + figures.2;
    && after == Entry(before.id, true, after.transcript, Some(N(before.sessions) + 1.0), Some(hits), Some(tp), Some(fp),
                      after.precision)
    && (after.precision.Some? <==> tp + fp > 0.0)
    && (tp + fp > 0.0 ==>
          var p, q := after.precision.value, tp / (tp + fp);
          p * 10000.0 == (p * 10000.0).Floor as real && q - 0.00005 < p <= q + 0.00005)
  }

  lemma FourDecimals(x: real)
    ensures var p := Round4(x);
      p * 10000.0 == (p * 10000.0).Floor as real && x - 0.00005 < p <= x + 0.00005
  {
    var n := (x * 10000.0 + 0.5).Floor;
    var p := (n as real) / 10000.0;
    assert p * 10000.0 == n as real;
    assert (n as real).Floor == n;
  }

  lemma CountedEntry(e: Entry, session: map<string, Stat>)
    ensures var after := ApplyStats(e, StatOf(session, e.id));
      IsCounted(e, Emitted(after), Figures(session, e.id)) && after.transcript == e.transcript
  {
    var f := Figures(session, e.id);
    var tp, fp := N(e.tp) + f.1, N(e.fp) + f.2;
    if tp + fp > 0.0 { FourDecimals(tp / (tp + fp)); }
    hide Round4;
  }

  /** A count changes every active and every quarantined rule in this way, where it is; it keeps
      what is deprecated, and active rules never need a transcript. */
  lemma CountedRules(s: Sets, session: map<string, Stat>, i: nat)
    ensures var t := CountedSets(s, session);
      && |t.active| == |s.active| && |t.quarantine| == |s.quarantine| && t.deprecated == s.deprecated
      && (i < |s.active| ==>
            IsCounted(s.active[i], t.active[i], Figures(session, s.active[i].id)) && !t.active[i].transcript)
      && (i < |s.quarantine| ==>
            IsCounted(s.quarantine[i], t.quarantine[i], Figures(session, s.quarantine[i].id))
            && t.quarantine[i].transcript == s.quarantine[i].transcript)
  {
    if i < |s.active| { CountedEntry(s.active[i], session); }
    if i < |s.quarantine| { CountedEntry(s.quarantine[i], session); }
    hide ApplyStats, IsCounted, Figures;
  }

  // ---- apply ----

  /** A promoted rule starts its sessions anew and keeps hits, positives and precision; it needs no
      transcript. */
  lemma PromotedEntry(q: Entry)
    ensures Promoted(q) == Entry(q.id, true, false, Some(0.0), Some(N(q.hits)), Some(N(q.tp)), Some(N(q.fp)),
      q.precision)
  {
  }

  /** The log gets one line per move, promotions first, each with its reason. */
  lemma AppliedLog(r: Repo, i: nat)
    requires Applied(r).1 == Done
    ensures DeltaJson in r.files && r.files[DeltaJson].ProposedDelta?
    ensures var d, log := r.files[DeltaJson].delta, Applied(r).0.changelog;
      var n, p := |r.changelog|, |d.promote|;
      && |log| == n + p + |d.deprecate| && log[..n] == r.changelog
      && (i < p ==> log[n + i] == Change(true, d.promote[i].id, d.promote[i].reason))
      && (i < |d.deprecate| ==> log[n + p + i] == Change(false, d.deprecate[i].id, d.deprecate[i].reason))
  {
    hide DeltaErrors, Clean, WithSets, AppliedSets;
  }
}
