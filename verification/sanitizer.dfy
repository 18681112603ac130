/**
 * `_sanitize_effect_bundles` (processor.py:652-685): drops effects without a
 * type and tech-disable effects (type 102) without a tech, keys the survivors
 * 0 .. k-1 in their original order, and flags the bundle as sanitized.
 */
module Sanitizer {
  import opened Seqs
  import opened Records

  const DisableTechEffect := 102

  /** An effect that survives: it has a type, and a tech-disable effect names its tech. */
  predicate Keep(e: Effect) {
    e.typeId >= 0 && !(e.typeId == DisableTechEffect && e.attrD < 0)
  }

  /** The surviving effects in their original order: the reference the pass is measured against. */
  function Survivors(effects: seq<Effect>): seq<Effect> {
    Filter(effects, Keep)
  }

  /**
   * The source's loop over one bundle, building the new effect dict key by key;
   * it produces exactly the survivors, keyed by their rank.
   */
  method SanitizeEffects(effects: seq<Effect>) returns (sanitized: map<int, Effect>, count: nat)
    ensures count == |Survivors(effects)|
    ensures forall i :: i in sanitized <==> 0 <= i < count
    ensures forall i :: 0 <= i < count ==> sanitized[i] == Survivors(effects)[i]
  {
    sanitized := map[];
    var index := 0;
    for n := 0 to |effects|
      invariant index == |Survivors(effects[..n])|
      invariant forall i :: i in sanitized <==> 0 <= i < index
      invariant forall i :: 0 <= i < index ==> sanitized[i] == Survivors(effects[..n])[i]
    {
      var effect := effects[n];
      SurvivorsStep(effects, n);
      if effect.typeId < 0 {
        // the effect has no type
        continue;
      } else if effect.typeId == DisableTechEffect {
        if effect.attrD < 0 {
          // a tech-disable effect without a tech id
          continue;
        }
      }
      sanitized := sanitized[index := effect];
      index := index + 1;
    }
    assert effects[..|effects|] == effects;
    count := index;
  }

  /** One more effect extends the survivors by itself exactly when it is kept. */
  lemma SurvivorsStep(effects: seq<Effect>, n: nat)
    requires n < |effects|
    ensures Survivors(effects[..n + 1]) ==
      if Keep(effects[n]) then Survivors(effects[..n]) + [effects[n]] else Survivors(effects[..n])
  {
    assert effects[..n + 1] == effects[..n] + [effects[n]];
    FilterAppend(effects[..n], [effects[n]], Keep);
  }

  function SanitizeBundle(b: Bundle): (r: Bundle)
    ensures r.sanitized
    ensures forall i :: 0 <= i < |r.effects| ==> Keep(r.effects[i]) && r.effects[i] in b.effects
    ensures forall j :: 0 <= j < |b.effects| && Keep(b.effects[j]) ==> b.effects[j] in r.effects
  {
    Bundle(Survivors(b.effects), true)
  }

  /** Every bundle of the data set, each sanitized in place. */
  function Sanitize(ds: Dataset): (r: Dataset)
    ensures |r.bundles| == |ds.bundles|
    ensures forall i :: 0 <= i < |ds.bundles| ==> r.bundles[i] == SanitizeBundle(ds.bundles[i])
    ensures r == ds.(bundles := r.bundles)
  {
    ds.(bundles := seq(|ds.bundles|, i requires 0 <= i < |ds.bundles| => SanitizeBundle(ds.bundles[i])))
  }

  /**
   * A sanitized bundle holds exactly the surviving effects: each one as often
   * as in the original bundle, and no dropped one at all.
   */
  lemma SanitizedCounts(b: Bundle, e: Effect)
    ensures multiset(SanitizeBundle(b).effects)[e] == if Keep(e) then multiset(b.effects)[e] else 0
  {
    FilterCount(b.effects, Keep, e);
  }

  /**
   * Order is preserved: sanitizing a prefix of the effects yields a prefix of
   * the sanitized bundle, so survivors keep their relative order.
   */
  lemma SanitizedPrefix(effects: seq<Effect>, n: nat)
    requires n <= |effects|
    ensures Survivors(effects[..n]) <= Survivors(effects)
  {
    assert effects == effects[..n] + effects[n..];
    FilterAppend(effects[..n], effects[n..], Keep);
  }

  /** Sanitizing an already sanitized bundle changes nothing. */
  lemma SanitizeIdempotent(b: Bundle)
    ensures SanitizeBundle(SanitizeBundle(b)) == SanitizeBundle(b)
  {
    FilterIdempotent(b.effects, Keep);
  }
}
