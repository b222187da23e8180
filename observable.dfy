/**
 * The observable model the bindings subscribe to (loudify's `Loud`), as a
 * listener table: for each key, the ears registered for it, in order.
 * Only the two calls the binding engine makes are modelled: `hear(key, ear)`
 * and `stopHearing(ear)`.
 */
module Observable {
  import opened Values

  /** Identity of one ear (one `onChange` closure). */
  type EarId = nat

  datatype Loud = Loud(data: ModelData, ears: map<Key, seq<EarId>>)

  function Listeners(l: Loud, key: Key): seq<EarId>
  {
    if key in l.ears then l.ears[key] else []
  }

  /** The model still calls `ear` for some key. */
  ghost predicate Hears(l: Loud, ear: EarId)
  {
    exists key :: key in l.ears && ear in l.ears[key]
  }

  /** `hear(key, ear)`: `ear` joins the end of `key`'s listeners; nothing else changes. */
  function Hear(l: Loud, key: Key, ear: EarId): (r: Loud)
    ensures r.data == l.data
    ensures Listeners(r, key) == Listeners(l, key) + [ear]
    ensures forall k :: k != key ==> Listeners(r, k) == Listeners(l, k)
  {
    l.(ears := l.ears[key := Listeners(l, key) + [ear]])
  }

  /** `s` with every occurrence of `ear` taken out, the rest in order. */
  function Without(s: seq<EarId>, ear: EarId): (r: seq<EarId>)
    ensures forall x :: x in r <==> x in s && x != ear
    ensures |r| <= |s|
  {
    if s == [] then []
    else if s[0] == ear then Without(s[1..], ear)
    else [s[0]] + Without(s[1..], ear)
  }

  /** `stopHearing(ear)`: `ear` is called for no key any more; every other ear stays registered. */
  function StopHearing(l: Loud, ear: EarId): (r: Loud)
    ensures r.data == l.data
    ensures !Hears(r, ear)
    ensures forall k, x :: x in Listeners(r, k) <==> x in Listeners(l, k) && x != ear
  {
    l.(ears := map k | k in l.ears :: Without(l.ears[k], ear))
  }

  /** Stopping an ear never makes the model hear an ear it did not hear before. */
  lemma StopHearingOnlyRemoves(l: Loud, ear: EarId, other: EarId)
    ensures Hears(StopHearing(l, ear), other) ==> Hears(l, other)
  {
    var r := StopHearing(l, ear);
    if Hears(r, other) {
      var k :| k in r.ears && other in r.ears[k];
      assert other in Listeners(r, k);
    }
  }

  /** `hear(ks[i], base + i)` for every `i`, in order. */
  function HearAll(l: Loud, ks: seq<Key>, base: EarId): Loud
    decreases |ks|
  {
    if ks == [] then l
    else Hear(HearAll(l, ks[..|ks| - 1], base), ks[|ks| - 1], base + |ks| - 1)
  }

  /** Hearing one more key after `HearAll` over the others is `HearAll` over all of them. */
  lemma HearAllExtend(l: Loud, ks: seq<Key>, base: EarId, before: Loud, next: EarId)
    requires ks != [] && before == HearAll(l, ks[..|ks| - 1], base) && next == base + |ks| - 1
    ensures Hear(before, ks[|ks| - 1], next) == HearAll(l, ks, base)
  {
  }

  /** The ears `base + i` whose key `ks[i]` is `key`, in increasing order. */
  function EarsFor(ks: seq<Key>, key: Key, base: EarId): seq<EarId>
    decreases |ks|
  {
    if ks == [] then []
    else EarsFor(ks[..|ks| - 1], key, base) + (if ks[|ks| - 1] == key then [base + |ks| - 1] else [])
  }

  /**
   * Hearing a list of keys, one ear per key, leaves every key with its old
   * listeners followed by exactly the ears for the positions holding that key.
   */
  lemma {:induction false} HearAllListeners(l: Loud, ks: seq<Key>, base: EarId, key: Key)
    ensures HearAll(l, ks, base).data == l.data
    ensures Listeners(HearAll(l, ks, base), key) == Listeners(l, key) + EarsFor(ks, key, base)
    decreases |ks|
  {
    if ks != [] {
      HearAllListeners(l, ks[..|ks| - 1], base, key);
    }
  }

  /** After `HearAll`, ear `base + i` is among the listeners of `ks[i]`. */
  lemma HearAllHears(l: Loud, ks: seq<Key>, base: EarId)
    ensures forall i :: 0 <= i < |ks| ==> base + i in Listeners(HearAll(l, ks, base), ks[i])
  {
    forall i | 0 <= i < |ks|
      ensures base + i in Listeners(HearAll(l, ks, base), ks[i])
    {
      HearAllListeners(l, ks, base, ks[i]);
      EarsForMembers(ks, ks[i], base, i);
    }
  }

  /** Each ear of `EarsFor` belongs to a position holding `key`. */
  lemma {:induction false} EarsForMembers(ks: seq<Key>, key: Key, base: EarId, i: nat)
    requires i < |ks|
    ensures base + i in EarsFor(ks, key, base) <==> ks[i] == key
    decreases |ks|
  {
    var n := |ks| - 1;
    if i < n {
      EarsForMembers(ks[..n], key, base, i);
      assert ks[..n][i] == ks[i];
      EarsForBelow(ks[..n], key, base);
    } else {
      EarsForBelow(ks[..n], key, base);
    }
  }

  lemma {:induction false} EarsForBelow(ks: seq<Key>, key: Key, base: EarId)
    ensures forall x :: x in EarsFor(ks, key, base) ==> base <= x < base + |ks|
    decreases |ks|
  {
    if ks != [] {
      EarsForBelow(ks[..|ks| - 1], key, base);
    }
  }
}
