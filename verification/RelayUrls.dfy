/** Loopback substitution of relay URLs (crates/outlay-shim/src/transport.rs). */
module RelayUrls {
  import opened Wire
  import opened ShimConfig

  /** `norm_url`: the canonical form of a relay URL, nothing when it does not parse. */
  type Norm = string -> Option<string>

  function PublicSet(publicUrls: seq<string>, norm: Norm): set<string> {
    set i | 0 <= i < |publicUrls| && norm(publicUrls[i]).Some? :: norm(publicUrls[i]).value
  }

  /** `u` is one of the shim's own URLs. */
  predicate IsSelf(u: string, own: set<string>, norm: Norm) { norm(u).Some? && norm(u).value in own }

  function Rewrite(candidates: seq<string>, own: set<string>, loopback: string, norm: Norm): seq<string> {
    if candidates == [] then [] else
      var first := if IsSelf(candidates[0], own, norm) then loopback else candidates[0];
      [first] + Rewrite(candidates[1..], own, loopback, norm)
  }

  function SubstituteSelf(
    candidates: seq<string>, publicUrls: seq<string>, loopback: Option<string>, norm: Norm): seq<string>
  {
    match loopback
    case None => candidates
    case Some(l) => Rewrite(candidates, PublicSet(publicUrls, norm), l, norm)
  }

  function ResolveRelayUrls(cfg: Config, hints: seq<string>, loopback: Option<string>, norm: Norm): seq<string> {
    var candidates := if hints != [] then hints else cfg.relayUrls;
    var publicUrls := if cfg.publicUrls != [] then cfg.publicUrls else cfg.relayUrls;
    SubstituteSelf(candidates, publicUrls, loopback, norm)
  }

  lemma {:induction false} RewriteAt(candidates: seq<string>, own: set<string>, loopback: string, norm: Norm)
    ensures var out := Rewrite(candidates, own, loopback, norm);
      && |out| == |candidates|
      && forall i :: 0 <= i < |out| ==> out[i] == if IsSelf(candidates[i], own, norm) then loopback else candidates[i]
  {
    if candidates != [] {
      RewriteAt(candidates[1..], own, loopback, norm);
    }
  }

  lemma {:induction false} RewriteIdentity(xs: seq<string>, own: set<string>, loopback: string, norm: Norm)
    requires forall i :: 0 <= i < |xs| ==> xs[i] == loopback || !IsSelf(xs[i], own, norm)
    ensures Rewrite(xs, own, loopback, norm) == xs
  {
    if xs != [] {
      RewriteIdentity(xs[1..], own, loopback, norm);
    }
  }

  /**
   * Length and order are kept and every URL that is not the shim's own is
   * untouched; what is left of the shim's own URLs is only the loopback
   * address; a second pass changes nothing; without a loopback nothing changes.
   */
  lemma SubstituteSelfMeets(candidates: seq<string>, publicUrls: seq<string>, loopback: Option<string>, norm: Norm)
    ensures var out, own := SubstituteSelf(candidates, publicUrls, loopback, norm), PublicSet(publicUrls, norm);
      && |out| == |candidates|
      && (forall i :: 0 <= i < |out| && !IsSelf(candidates[i], own, norm) ==> out[i] == candidates[i])
      && (loopback.Some? ==> forall i :: 0 <= i < |out| && IsSelf(out[i], own, norm) ==> out[i] == loopback.value)
      && (loopback.Some? ==>
            forall i :: 0 <= i < |out| && IsSelf(candidates[i], own, norm) ==> out[i] == loopback.value)
      && (loopback.None? ==> out == candidates)
      && SubstituteSelf(out, publicUrls, loopback, norm) == out
  {
    if loopback.Some? {
      var own := PublicSet(publicUrls, norm);
      RewriteAt(candidates, own, loopback.value, norm);
      RewriteIdentity(Rewrite(candidates, own, loopback.value, norm), own, loopback.value, norm);
    }
  }

  /**
   * The default deployment (no hints, no explicit public URLs, relay on): every
   * configured relay that parses is dialled in-process, and no other changes.
   */
  lemma DefaultDialsLoopback(cfg: Config, loopback: string, norm: Norm)
    requires cfg.publicUrls == []
    ensures var out := ResolveRelayUrls(cfg, [], Some(loopback), norm);
      && |out| == |cfg.relayUrls|
      && forall i :: 0 <= i < |out| ==> out[i] == if norm(cfg.relayUrls[i]).Some? then loopback else cfg.relayUrls[i]
  {
    RewriteAt(cfg.relayUrls, PublicSet(cfg.relayUrls, norm), loopback, norm);
  }

  /**
   * Every case, position by position. The candidates are the hints, or the
   * configured relays when there are none; the shim's own URLs are the explicit
   * public ones, or the configured relays when there are none. A candidate
   * becomes the loopback if and only if there is one and the candidate's
   * canonical form is that of some own URL; all else is dialled as given.
   */
  lemma ResolvedAt(cfg: Config, hints: seq<string>, loopback: Option<string>, norm: Norm)
    ensures var out := ResolveRelayUrls(cfg, hints, loopback, norm);
      var candidates := if |hints| > 0 then hints else cfg.relayUrls;
      var own := if |cfg.publicUrls| > 0 then cfg.publicUrls else cfg.relayUrls;
      && |out| == |candidates|
      && forall i :: 0 <= i < |out| ==>
           out[i] == if loopback.Some? && norm(candidates[i]).Some?
                        && exists j :: 0 <= j < |own| && norm(own[j]) == norm(candidates[i])
                     then loopback.value
                     else candidates[i]
  {
    var candidates := if hints != [] then hints else cfg.relayUrls;
    var own := if cfg.publicUrls != [] then cfg.publicUrls else cfg.relayUrls;
    if loopback.Some? {
      RewriteAt(candidates, PublicSet(own, norm), loopback.value, norm);
      forall u ensures IsSelf(u, PublicSet(own, norm), norm) <==>
          norm(u).Some? && exists j :: 0 <= j < |own| && norm(own[j]) == norm(u)
      {
        assert forall j :: 0 <= j < |own| && norm(own[j]).Some? ==> norm(own[j]).value in PublicSet(own, norm);
      }
    }
  }

  /**
   * Hints replace the configured relays, and an explicit allowlist replaces the
   * inferred one: with both given, the configured relays do not matter, and a
   * hint is dialled as given unless it is one of the explicit public URLs.
   */
  lemma HintsAndAllowlistWin(cfg: Config, other: Config, hints: seq<string>, loopback: Option<string>, norm: Norm)
    requires hints != [] && cfg.publicUrls != [] && other.publicUrls == cfg.publicUrls
    ensures ResolveRelayUrls(cfg, hints, loopback, norm) == ResolveRelayUrls(other, hints, loopback, norm)
    ensures var out := ResolveRelayUrls(cfg, hints, loopback, norm);
      && |out| == |hints|
      && forall i :: 0 <= i < |out| ==>
           out[i] == if loopback.Some? && IsSelf(hints[i], PublicSet(cfg.publicUrls, norm), norm)
                     then loopback.value
                     else hints[i]
  {
    if loopback.Some? {
      RewriteAt(hints, PublicSet(cfg.publicUrls, norm), loopback.value, norm);
    }
  }
}
