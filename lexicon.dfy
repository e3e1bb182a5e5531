/** The sentiment lexicon: a base phrase table overlaid with the gold-specific one. */
module Lexicon {

  /** Phrase to intensity. */
  type Table = map<string, real>

  /** `base.update(domain)`: domain entries are added, and win wherever both tables have the phrase. */
  function Overlay(base: Table, domain: Table): (r: Table)
    ensures r.Keys == base.Keys + domain.Keys
    ensures forall k :: k in domain ==> r[k] == domain[k]
    ensures forall k :: k in base && k !in domain ==> r[k] == base[k]
  {
    base + domain
  }

  /** Overlaying the same table twice has the effect of overlaying it once. */
  lemma OverlayIdempotent(base: Table, domain: Table)
    ensures Overlay(Overlay(base, domain), domain) == Overlay(base, domain)
  {
  }

  /** The part of the sentiment analyzer this model keeps: its mutable lexicon. */
  class Analyzer {
    var lexicon: Table

    /** A fresh analyzer starts from the base (general-purpose) lexicon. */
    constructor (base: Table)
      ensures lexicon == base
    {
      lexicon := base;
    }

    /** `analyzer.lexicon.update(domain)`, in place. */
    method UpdateLexicon(domain: Table)
      modifies this
      ensures lexicon == Overlay(old(lexicon), domain)
      ensures forall k :: k in domain ==> lexicon[k] == domain[k]
      ensures forall k :: k in old(lexicon) && k !in domain ==> lexicon[k] == old(lexicon)[k]
    {
      lexicon := lexicon + domain;
    }
  }
}
