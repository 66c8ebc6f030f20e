/** The consent record the registration form edits through three checkboxes. */
module GdprConsent {

  /** `ConsentOptions`. */
  datatype ConsentOptions = ConsentOptions(necessary: bool, analytics: bool, marketing: bool)

  datatype ConsentKey = Necessary | Analytics | Marketing

  function Get(c: ConsentOptions, k: ConsentKey): bool
  {
    match k
    case Necessary => c.necessary
    case Analytics => c.analytics
    case Marketing => c.marketing
  }

  /** `handleConsentChange(key, value)`: the record it emits, `{ ...consent, [key]: value }`. */
  function Change(c: ConsentOptions, k: ConsentKey, v: bool): (r: ConsentOptions)
    ensures Get(r, k) == v
    ensures forall other: ConsentKey :: other != k ==> Get(r, other) == Get(c, other)
  {
    match k
    case Necessary => c.(necessary := v)
    case Analytics => c.(analytics := v)
    case Marketing => c.(marketing := v)
  }

  /** Setting a field to the value it has emits the same record. */
  lemma ChangeToCurrent(c: ConsentOptions, k: ConsentKey)
    ensures Change(c, k, Get(c, k)) == c
  {
  }

  /** The same change twice is the change once. */
  lemma ChangeIdempotent(c: ConsentOptions, k: ConsentKey, v: bool)
    ensures Change(Change(c, k, v), k, v) == Change(c, k, v)
  {
  }

  /** The `necessary` checkbox is disabled; only the other two fire. */
  predicate Enabled(k: ConsentKey)
  {
    k != Necessary
  }

  /** Applying a series of checkbox changes in order. */
  function ApplyAll(c: ConsentOptions, changes: seq<(ConsentKey, bool)>): (r: ConsentOptions)
    ensures |changes| == 0 ==> r == c
    ensures |changes| > 0 ==> Get(r, changes[|changes| - 1].0) == changes[|changes| - 1].1
    decreases |changes|
  {
    if |changes| == 0 then c
    else ApplyAll(Change(c, changes[0].0, changes[0].1), changes[1..])
  }

  /** Through the interface, `necessary` never changes. */
  lemma {:induction false} InterfaceKeepsNecessary(c: ConsentOptions, changes: seq<(ConsentKey, bool)>)
    requires forall i :: 0 <= i < |changes| ==> Enabled(changes[i].0)
    ensures ApplyAll(c, changes).necessary == c.necessary
    decreases |changes|
  {
    if |changes| > 0 {
      InterfaceKeepsNecessary(Change(c, changes[0].0, changes[0].1), changes[1..]);
    }
  }

  /** A field no change touches keeps its value. */
  lemma {:induction false} UntouchedFieldKept(c: ConsentOptions, changes: seq<(ConsentKey, bool)>, k: ConsentKey)
    requires forall i :: 0 <= i < |changes| ==> changes[i].0 != k
    ensures Get(ApplyAll(c, changes), k) == Get(c, k)
    decreases |changes|
  {
    if |changes| > 0 {
      UntouchedFieldKept(Change(c, changes[0].0, changes[0].1), changes[1..], k);
    }
  }
}
