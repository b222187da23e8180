/**
 * The binding engine as functions over the page state: the three `onChange`
 * callbacks, `addBinding`, one `bind*` call, and the removal observer's
 * cleanup. The class `Page` (page.dfy) carries out each of these in place
 * and is proved to reach exactly the state given here; the lemmas below
 * state what the engine promises about them.
 */
module Engine {
  import opened Wrappers
  import opened Values
  import opened Sanitize
  import opened Observable
  import opened Dom

  // ---------------------------------------------------------------- callbacks

  /** The string `InnerText.onChange` writes: `xlat(object)`, else the localizer on `object[key]`. */
  function InnerTextValue(xlat: Option<Xlat>, key: Key, data: ModelData, i18n: Value -> string): string
  {
    if xlat.Some? then xlat.value(data) else i18n(Lookup(data, key))
  }

  /** The string `Attr.onChange` writes: `xlat(object)`, else `String(object[key])` (never the localizer). */
  function AttrValue(xlat: Option<Xlat>, key: Key, data: ModelData): string
  {
    if xlat.Some? then xlat.value(data) else JsString(Lookup(data, key))
  }

  /** `InnerText.onChange`: when the element is still alive, its text becomes the derived string. */
  function InnerTextOnChange(els: map<ElemId, Element>, element: ElemId, key: Key, xlat: Option<Xlat>,
                             data: ModelData, i18n: Value -> string): (r: map<ElemId, Element>)
    ensures r.Keys == els.Keys
    ensures forall e :: e in els && e != element ==> r[e] == els[e]
    ensures element in els ==>
              r[element].text == InnerTextValue(xlat, key, data, i18n) && r[element].children == [] &&
              r[element] == els[element].(text := r[element].text, children := [])
  {
    if element in els then els[element := SetInnerText(els[element], InnerTextValue(xlat, key, data, i18n))]
    else els
  }

  /**
   * `Replacer.onChange`: when the element is alive, `NOPE` keeps its children,
   * an array becomes its children in order, and a single element its only child.
   */
  function ReplacerOnChange(els: map<ElemId, Element>, element: ElemId, factory: ModelData -> Fragment,
                            data: ModelData): (r: map<ElemId, Element>)
    ensures r.Keys == els.Keys
    ensures forall e :: e in els && e != element ==> r[e] == els[e]
    ensures element in els && factory(data).Nope? ==> r[element] == els[element]
    ensures element in els && factory(data).Many? ==>
              r[element] == els[element].(text := "", children := factory(data).elements)
    ensures element in els && factory(data).One? ==>
              r[element] == els[element].(text := "", children := [factory(data).element])
  {
    if element !in els then els
    else match factory(data)
      case Nope => els
      case Many(nodes) => els[element := ReplaceChildren(els[element], nodes)]
      case One(node) => els[element := ReplaceChildren(els[element], [node])]
  }

  /**
   * `Attr.onChange`: the protocol check runs on the derived value whether or
   * not the element is still alive; if it throws nothing is written,
   * otherwise exactly the one attribute of the live element is set.
   */
  function AttrOnChange(els: map<ElemId, Element>, element: ElemId, attribute: string, key: Key,
                        xlat: Option<Xlat>, checkURL: bool, data: ModelData,
                        resolve: Resolver): (r: (map<ElemId, Element>, Outcome<Error>))
    ensures r.1 == CheckProtocol(checkURL, attribute, AttrValue(xlat, key, data), resolve)
    ensures r.1.Fail? || element !in els ==> r.0 == els
    ensures r.0.Keys == els.Keys
    ensures forall e :: e in els && e != element ==> r.0[e] == els[e]
    ensures r.1.Pass? && element in els ==>
              r.0[element] == els[element].(attrs := els[element].attrs[attribute := AttrValue(xlat, key, data)])
  {
    var value := AttrValue(xlat, key, data);
    match CheckProtocol(checkURL, attribute, value, resolve)
    case Fail(e) => (els, Fail(e))
    case Pass =>
      if element in els then (els[element := SetAttribute(els[element], attribute, value)], Pass)
      else (els, Pass)
  }

  /** Calls ear `id` on `data`. Only the ear's own element can change, and never its tag, slot or linger flag. */
  function Fire(w: World, id: EarId, data: ModelData, i18n: Value -> string, resolve: Resolver): (r: Run)
    requires id in w.ears
    ensures r.world.models == w.models && r.world.ears == w.ears && r.world.nextEar == w.nextEar
    ensures r.world.elements.Keys == w.elements.Keys
    ensures forall e :: e in w.elements && e != w.ears[id].element ==> r.world.elements[e] == w.elements[e]
    ensures forall e :: e in w.elements ==>
              && r.world.elements[e].tagName == w.elements[e].tagName
              && r.world.elements[e].slot == w.elements[e].slot
              && r.world.elements[e].linger == w.elements[e].linger
    ensures w.ears[id].InnerTextEar? ==>
              && r.outcome.Pass?
              && r.world.elements == InnerTextOnChange(w.elements, w.ears[id].element, w.ears[id].key, w.ears[id].xlat, data, i18n)
    ensures w.ears[id].ReplacerEar? ==>
              && r.outcome.Pass?
              && r.world.elements == ReplacerOnChange(w.elements, w.ears[id].element, w.ears[id].factory, data)
    ensures w.ears[id].AttrEar? ==>
              (r.world.elements, r.outcome) == AttrOnChange(w.elements, w.ears[id].element, w.ears[id].attribute, w.ears[id].key,
                                                           w.ears[id].xlat, w.ears[id].checkURL, data, resolve)
  {
    match w.ears[id]
    case InnerTextEar(element, key, xlat) =>
      Run(w.(elements := InnerTextOnChange(w.elements, element, key, xlat, data, i18n)), Pass)
    case ReplacerEar(element, factory) =>
      Run(w.(elements := ReplacerOnChange(w.elements, element, factory, data)), Pass)
    case AttrEar(element, attribute, key, xlat, checkURL) =>
      var (els, outcome) := AttrOnChange(w.elements, element, attribute, key, xlat, checkURL, data, resolve);
      Run(w.(elements := els), outcome)
  }

  /**
   * `model.hear(key, ear)`: registers the ear, then (as the binding tests
   * show loudify doing) calls it once with the model's current state.
   */
  function HearAndFire(w: World, m: ModelId, key: Key, id: EarId, i18n: Value -> string, resolve: Resolver): (r: Run)
    requires m in w.models && id in w.ears
    ensures r.world.models == w.models[m := Hear(w.models[m], key, id)]
    ensures Listeners(r.world.models[m], key) == Listeners(w.models[m], key) + [id]
    ensures r.world.ears == w.ears && r.world.nextEar == w.nextEar
    ensures r.world.elements.Keys == w.elements.Keys
    ensures forall e :: e in w.elements && e != w.ears[id].element ==> r.world.elements[e] == w.elements[e]
    ensures r.outcome == Fire(w, id, w.models[m].data, i18n, resolve).outcome
    ensures r.world.elements == Fire(w, id, w.models[m].data, i18n, resolve).world.elements
  {
    var registered := w.(models := w.models[m := Hear(w.models[m], key, id)]);
    Fire(registered, id, w.models[m].data, i18n, resolve)
  }

  // ---------------------------------------------------------------- registry

  /**
   * `addBinding`: a lingering element is left alone; an absent slot becomes a
   * one-element list; a list gets the binding at its end; a cleared slot
   * (`undefined`) makes `push` throw.
   */
  function AddToSlot(e: Element, b: Binding): (r: Result<Element, Error>)
    ensures r.Failure? <==> !e.linger && e.slot.Cleared?
    ensures e.linger ==> r == Success(e)
    ensures !e.linger && e.slot.Absent? ==> r == Success(e.(slot := Listed([b])))
    ensures !e.linger && e.slot.Listed? ==> r == Success(e.(slot := Listed(e.slot.bindings + [b])))
  {
    if e.linger then Success(e)
    else match e.slot
      case Absent => Success(e.(slot := Listed([b])))
      case Listed(bs) => Success(e.(slot := Listed(bs + [b])))
      case Cleared => Failure(TypeError("Cannot read properties of undefined (reading 'push')"))
  }

  /** The linger setter: sets the flag and nothing else. */
  function Linger(e: Element): (r: Element)
    ensures r.linger && r == e.(linger := true)
  {
    e.(linger := true)
  }

  // ---------------------------------------------------------------- bind*

  /** A single key is wrapped in a one-element list; a list is taken as it is. */
  function KeyListOf(keys: Keys): (ks: seq<Key>)
    ensures keys.OneKey? ==> ks == [keys.key]
    ensures keys.KeyList? ==> ks == keys.keys
  {
    match keys
    case OneKey(k) => [k]
    case KeyList(ks) => ks
  }

  /** What constructing the strategy's `InnerText`, `Replacer` or `Attr` object throws on this tag; it does not depend on the key. */
  function ConstructionError(s: Strategy, tagName: string): (r: Outcome<Error>)
    ensures !s.AttrStrategy? ==> r == CheckTag(tagName)
    ensures s.AttrStrategy? ==> (r.Fail? <==> NewAttrSpec(tagName, s.attribute).Failure?)
    ensures s.AttrStrategy? && r.Fail? ==> r.error == NewAttrSpec(tagName, s.attribute).error
  {
    match s
    case AttrStrategy(attribute, _) =>
      (match NewAttrSpec(tagName, attribute)
       case Failure(e) => Fail(e)
       case Success(_) => Pass)
    case _ => CheckTag(tagName)
  }

  /** `new InnerText(...)`, `new Replacer(...)` or `new Attr(...)` for one key: its checks, then its ear. */
  function MakeEar(s: Strategy, tagName: string, element: ElemId, key: Key): (r: Result<Ear, Error>)
    ensures r.Failure? <==> ConstructionError(s, tagName).Fail?
    ensures r.Failure? ==> r.error == ConstructionError(s, tagName).error
    ensures r.Success? ==> r.value.element == element
    ensures r.Success? && s.InnerStrategy? ==> r.value == InnerTextEar(element, key, s.xlat)
    ensures r.Success? && s.ReplaceStrategy? ==> r.value == ReplacerEar(element, s.factory)
    ensures r.Success? && s.AttrStrategy? ==>
              r.value == AttrEar(element, ToLower(s.attribute), key, s.xlat, ToLower(s.attribute) in UrlAttrs)
  {
    match s
    case InnerStrategy(xlat) =>
      (match CheckTag(tagName)
       case Fail(e) => Failure(e)
       case Pass => Success(InnerTextEar(element, key, xlat)))
    case ReplaceStrategy(factory) =>
      (match CheckTag(tagName)
       case Fail(e) => Failure(e)
       case Pass => Success(ReplacerEar(element, factory)))
    case AttrStrategy(attribute, xlat) =>
      (match NewAttrSpec(tagName, attribute)
       case Failure(e) => Failure(e)
       case Success(spec) => Success(AttrEar(element, spec.attribute, key, xlat, spec.checkURL)))
  }

  /** What the first write of the strategy's ear throws for `key`: only an attribute write can throw. */
  function WriteCheck(s: Strategy, tagName: string, key: Key, data: ModelData, resolve: Resolver): Outcome<Error>
  {
    match s
    case AttrStrategy(attribute, xlat) =>
      (match NewAttrSpec(tagName, attribute)
       case Success(spec) => CheckProtocol(spec.checkURL, spec.attribute, AttrValue(xlat, key, data), resolve)
       case Failure(_) => Pass)
    case _ => Pass
  }

  /** One iteration of a `bind*` loop: construct the `InnerText`, `Replacer` or `Attr` object, `hear`, then `addBinding`. */
  function BindOne(w: World, el: ElemId, m: ModelId, key: Key, s: Strategy,
                   i18n: Value -> string, resolve: Resolver): (r: Run)
    requires el in w.elements && m in w.models
    ensures r.world.elements.Keys == w.elements.Keys && r.world.models.Keys == w.models.Keys
  {
    match MakeEar(s, w.elements[el].tagName, el, key)
    case Failure(e) => Run(w, Fail(e))
    case Success(ear) =>
      var id := w.nextEar;
      var created := w.(ears := w.ears[id := ear], nextEar := id + 1);
      var heard := HearAndFire(created, m, key, id, i18n, resolve);
      if heard.outcome.Fail? then heard
      else match AddToSlot(heard.world.elements[el], Binding(m, key, id))
        case Failure(e) => Run(heard.world, Fail(e))
        case Success(updated) => Run(heard.world.(elements := heard.world.elements[el := updated]), Pass)
  }

  /** The `bind*` loop over the keys, in order; the first exception ends it. */
  function BindAll(w: World, el: ElemId, m: ModelId, ks: seq<Key>, s: Strategy,
                   i18n: Value -> string, resolve: Resolver): (r: Run)
    requires el in w.elements && m in w.models
    ensures r.world.elements.Keys == w.elements.Keys && r.world.models.Keys == w.models.Keys
    decreases |ks|
  {
    if ks == [] then Run(w, Pass)
    else
      var before := BindAll(w, el, m, ks[..|ks| - 1], s, i18n, resolve);
      if before.outcome.Fail? then before
      else BindOne(before.world, el, m, ks[|ks| - 1], s, i18n, resolve)
  }

  /** One more key after a completed prefix of the loop. */
  lemma BindAllNext(w: World, el: ElemId, m: ModelId, ks: seq<Key>, i: nat, s: Strategy,
                    i18n: Value -> string, resolve: Resolver)
    requires el in w.elements && m in w.models && i < |ks|
    requires BindAll(w, el, m, ks[..i], s, i18n, resolve).outcome.Pass?
    ensures BindAll(w, el, m, ks[..i + 1], s, i18n, resolve)
            == BindOne(BindAll(w, el, m, ks[..i], s, i18n, resolve).world, el, m, ks[i], s, i18n, resolve)
  {
    assert ks[..i + 1][..i] == ks[..i];
  }

  /** The bindings one `bind*` call records: key `ks[i]` with the ear created `i`-th. */
  function NewBindings(m: ModelId, ks: seq<Key>, base: EarId): (bs: seq<Binding>)
    ensures |bs| == |ks|
    ensures forall i :: 0 <= i < |ks| ==> bs[i] == Binding(m, ks[i], base + i)
  {
    seq(|ks|, i requires 0 <= i < |ks| => Binding(m, ks[i], base + i))
  }

  lemma NewBindingsLast(m: ModelId, ks: seq<Key>, base: EarId)
    requires ks != []
    ensures NewBindings(m, ks, base) == NewBindings(m, ks[..|ks| - 1], base) + [Binding(m, ks[|ks| - 1], base + |ks| - 1)]
  {
  }

  /** The slot after `bs` are added one by one: unchanged when lingering or when there are none. */
  function SlotAfter(e: Element, bs: seq<Binding>): Slot
  {
    if e.linger || bs == [] then e.slot else Listed(BindingsOf(e.slot) + bs)
  }

  /** One iteration completes exactly when construction, the first write and `addBinding` all pass. */
  lemma BindOneOutcome(w: World, el: ElemId, m: ModelId, key: Key, s: Strategy,
                       i18n: Value -> string, resolve: Resolver)
    requires el in w.elements && m in w.models
    ensures BindOne(w, el, m, key, s, i18n, resolve).outcome.Pass? <==>
      && ConstructionError(s, w.elements[el].tagName).Pass?
      && WriteCheck(s, w.elements[el].tagName, key, w.models[m].data, resolve).Pass?
      && CanRecord(w.elements[el])
  {
    var tag := w.elements[el].tagName;
    var made := MakeEar(s, tag, el, key);
    if made.Success? {
      var id := w.nextEar;
      var created := w.(ears := w.ears[id := made.value], nextEar := id + 1);
      var registered := created.(models := created.models[m := Hear(created.models[m], key, id)]);
      var heard := HearAndFire(created, m, key, id, i18n, resolve);
      assert heard == Fire(registered, id, w.models[m].data, i18n, resolve);
      assert heard.outcome == WriteCheck(s, tag, key, w.models[m].data, resolve);
    }
  }

  /** A completed iteration: one new ear heard for `key`, one binding appended unless lingering. */
  lemma BindOneEffect(w: World, el: ElemId, m: ModelId, key: Key, s: Strategy,
                      i18n: Value -> string, resolve: Resolver)
    requires el in w.elements && m in w.models
    requires BindOne(w, el, m, key, s, i18n, resolve).outcome.Pass?
    ensures var r := BindOne(w, el, m, key, s, i18n, resolve).world;
      && r.nextEar == w.nextEar + 1
      && r.models[m] == Hear(w.models[m], key, w.nextEar)
      && (forall x :: x in w.models && x != m ==> r.models[x] == w.models[x])
      && (forall e :: e in w.elements && e != el ==> r.elements[e] == w.elements[e])
      && r.elements[el].slot == SlotAfter(w.elements[el], [Binding(m, key, w.nextEar)])
      && r.elements[el].tagName == w.elements[el].tagName
      && r.elements[el].linger == w.elements[el].linger
      && MakeEar(s, w.elements[el].tagName, el, key).Success?
      && r.ears == w.ears[w.nextEar := MakeEar(s, w.elements[el].tagName, el, key).value]
  {
  }

  /** The last iteration of a completed `bind*` loop, in terms of the state the earlier ones left. */
  lemma BindAllStep(w: World, el: ElemId, m: ModelId, ks: seq<Key>, s: Strategy,
                    i18n: Value -> string, resolve: Resolver)
    requires el in w.elements && m in w.models && ks != []
    requires BindAll(w, el, m, ks, s, i18n, resolve).outcome.Pass?
    ensures var before := BindAll(w, el, m, ks[..|ks| - 1], s, i18n, resolve);
      var b := before.world;
      var r := BindAll(w, el, m, ks, s, i18n, resolve).world;
      && before.outcome.Pass?
      && r.nextEar == b.nextEar + 1
      && r.models[m] == Hear(b.models[m], ks[|ks| - 1], b.nextEar)
      && (forall x :: x in b.models && x != m ==> r.models[x] == b.models[x])
      && r.elements.Keys == b.elements.Keys
      && (forall e :: e in b.elements && e != el ==> r.elements[e] == b.elements[e])
      && r.elements[el].slot == SlotAfter(b.elements[el], [Binding(m, ks[|ks| - 1], b.nextEar)])
      && r.elements[el].tagName == b.elements[el].tagName
      && r.elements[el].linger == b.elements[el].linger
      && MakeEar(s, b.elements[el].tagName, el, ks[|ks| - 1]).Success?
      && r.ears == b.ears[b.nextEar := MakeEar(s, b.elements[el].tagName, el, ks[|ks| - 1]).value]
  {
    var before := BindAll(w, el, m, ks[..|ks| - 1], s, i18n, resolve);
    BindOneEffect(before.world, el, m, ks[|ks| - 1], s, i18n, resolve);
  }

  lemma {:induction false} BindAllFailureStays(w: World, el: ElemId, m: ModelId, ks: seq<Key>, n: nat, s: Strategy,
                                               i18n: Value -> string, resolve: Resolver)
    requires el in w.elements && m in w.models && n <= |ks|
    requires BindAll(w, el, m, ks[..n], s, i18n, resolve).outcome.Fail?
    ensures BindAll(w, el, m, ks, s, i18n, resolve) == BindAll(w, el, m, ks[..n], s, i18n, resolve)
    decreases |ks| - n
  {
    if n < |ks| {
      assert ks[..n + 1][..n] == ks[..n];
      BindAllFailureStays(w, el, m, ks, n + 1, s, i18n, resolve);
    } else {
      assert ks[..n] == ks;
    }
  }

  /**
   * A rejected tag or attribute name throws at the first key, before any
   * `hear` or registry change: the page is left exactly as it was.
   */
  lemma {:induction false} BindAllRejected(w: World, el: ElemId, m: ModelId, ks: seq<Key>, s: Strategy,
                                           i18n: Value -> string, resolve: Resolver)
    requires el in w.elements && m in w.models && |ks| > 0
    requires ConstructionError(s, w.elements[el].tagName).Fail?
    ensures BindAll(w, el, m, ks, s, i18n, resolve) == Run(w, ConstructionError(s, w.elements[el].tagName))
    decreases |ks|
  {
    if |ks| > 1 {
      BindAllRejected(w, el, m, ks[..|ks| - 1], s, i18n, resolve);
    } else {
      assert ks[..0] == [];
    }
  }

  /** Chains the element-side effect of the earlier iterations (`w` to `b`) with the last one (`b` to `r`). */
  lemma RecordsCompose(w: World, b: World, r: World, el: ElemId, m: ModelId, ks: seq<Key>)
    requires ks != [] && el in w.elements
    requires b.nextEar == w.nextEar + |ks| - 1
    requires b.elements.Keys == w.elements.Keys
    requires forall e :: e in w.elements && e != el ==> b.elements[e] == w.elements[e]
    requires b.elements[el].slot == SlotAfter(w.elements[el], NewBindings(m, ks[..|ks| - 1], w.nextEar))
    requires b.elements[el].tagName == w.elements[el].tagName
    requires b.elements[el].linger == w.elements[el].linger
    requires r.elements.Keys == b.elements.Keys
    requires forall e :: e in b.elements && e != el ==> r.elements[e] == b.elements[e]
    requires r.elements[el].slot == SlotAfter(b.elements[el], [Binding(m, ks[|ks| - 1], b.nextEar)])
    requires r.elements[el].tagName == b.elements[el].tagName
    requires r.elements[el].linger == b.elements[el].linger
    ensures r.elements.Keys == w.elements.Keys
    ensures forall e :: e in w.elements && e != el ==> r.elements[e] == w.elements[e]
    ensures r.elements[el].slot == SlotAfter(w.elements[el], NewBindings(m, ks, w.nextEar))
    ensures r.elements[el].tagName == w.elements[el].tagName
    ensures r.elements[el].linger == w.elements[el].linger
  {
    NewBindingsLast(m, ks, w.nextEar);
    SlotAfterSnoc(w.elements[el], b.elements[el], NewBindings(m, ks[..|ks| - 1], w.nextEar), Binding(m, ks[|ks| - 1], b.nextEar));
  }

  /** Adding bindings one at a time: the slot after `bs + [x]` is the slot after `bs`, then `x`. */
  lemma SlotAfterSnoc(e: Element, f: Element, bs: seq<Binding>, x: Binding)
    requires f.slot == SlotAfter(e, bs) && f.linger == e.linger
    ensures SlotAfter(e, bs + [x]) == SlotAfter(f, [x])
  {
    if !e.linger && bs != [] {
      assert BindingsOf(e.slot) + (bs + [x]) == (BindingsOf(e.slot) + bs) + [x];
    }
  }

  /**
   * The ears table after a `bind*` call over `ks` that started with ear
   * `base`: ear `base + i` is the `onChange` of the object built for `ks[i]`, no other ear is
   * created, and every ear outside that range is kept.
   */
  ghost predicate EarsAdded(before: map<EarId, Ear>, after: map<EarId, Ear>, s: Strategy, tagName: string,
                            el: ElemId, ks: seq<Key>, base: EarId)
  {
    && (forall i :: 0 <= i < |ks| ==>
          && MakeEar(s, tagName, el, ks[i]).Success?
          && base + i in after
          && after[base + i] == MakeEar(s, tagName, el, ks[i]).value)
    && (forall x :: x in after <==> x in before || base <= x < base + |ks|)
    && (forall x :: x in before && !(base <= x < base + |ks|) ==> after[x] == before[x])
  }

  /** One more ear after the ears of a prefix of the keys. */
  lemma EarsAddedSnoc(w0: map<EarId, Ear>, b: map<EarId, Ear>, r: map<EarId, Ear>, s: Strategy, tagName: string,
                      el: ElemId, ks: seq<Key>, base: EarId, next: EarId, ear: Ear)
    requires ks != [] && EarsAdded(w0, b, s, tagName, el, ks[..|ks| - 1], base)
    requires MakeEar(s, tagName, el, ks[|ks| - 1]) == Success(ear)
    requires next == base + |ks| - 1 && r == b[next := ear]
    ensures EarsAdded(w0, r, s, tagName, el, ks, base)
  {
    var p := ks[..|ks| - 1];
    assert forall i :: 0 <= i < |p| ==> p[i] == ks[i];
  }

  /**
   * A `bind*` call that completes creates one ear and one binding per key:
   * ear `base + i` is the `onChange` of the object built for `ks[i]` and the model hears it
   * for `ks[i]`; every earlier ear is kept; the element's registry gains
   * exactly those bindings at its end (unless it lingers), and no other
   * element changes.
   */
  lemma {:induction false} BindAllRegisters(w: World, el: ElemId, m: ModelId, ks: seq<Key>, s: Strategy,
                                            i18n: Value -> string, resolve: Resolver)
    requires el in w.elements && m in w.models
    requires BindAll(w, el, m, ks, s, i18n, resolve).outcome.Pass?
    ensures var r := BindAll(w, el, m, ks, s, i18n, resolve).world;
      && r.nextEar == w.nextEar + |ks|
      && r.models[m] == HearAll(w.models[m], ks, w.nextEar)
      && (forall x :: x in w.models && x != m ==> r.models[x] == w.models[x])
      && r.elements.Keys == w.elements.Keys
      && (forall e :: e in w.elements && e != el ==> r.elements[e] == w.elements[e])
      && r.elements[el].slot == SlotAfter(w.elements[el], NewBindings(m, ks, w.nextEar))
      && r.elements[el].tagName == w.elements[el].tagName
      && r.elements[el].linger == w.elements[el].linger
      && EarsAdded(w.ears, r.ears, s, w.elements[el].tagName, el, ks, w.nextEar)
    decreases |ks|
  {
    if ks != [] {
      var p := ks[..|ks| - 1];
      BindAllStep(w, el, m, ks, s, i18n, resolve);
      BindAllRegisters(w, el, m, p, s, i18n, resolve);
      var b := BindAll(w, el, m, p, s, i18n, resolve).world;
      var r := BindAll(w, el, m, ks, s, i18n, resolve).world;
      HearAllExtend(w.models[m], ks, w.nextEar, b.models[m], b.nextEar);
      RecordsCompose(w, b, r, el, m, ks);
    }
    BindAllEars(w, el, m, ks, s, i18n, resolve);
  }

  /** The ears half of `BindAllRegisters`. */
  lemma {:induction false} BindAllEars(w: World, el: ElemId, m: ModelId, ks: seq<Key>, s: Strategy,
                                       i18n: Value -> string, resolve: Resolver)
    requires el in w.elements && m in w.models
    requires BindAll(w, el, m, ks, s, i18n, resolve).outcome.Pass?
    ensures var r := BindAll(w, el, m, ks, s, i18n, resolve).world;
      && r.nextEar == w.nextEar + |ks|
      && r.elements[el].tagName == w.elements[el].tagName
      && EarsAdded(w.ears, r.ears, s, w.elements[el].tagName, el, ks, w.nextEar)
    decreases |ks|
  {
    if ks == [] {
      assert BindAll(w, el, m, ks, s, i18n, resolve).world == w;
      assert EarsAdded(w.ears, w.ears, s, w.elements[el].tagName, el, ks, w.nextEar);
      return;
    }
    hide *;
    var p := ks[..|ks| - 1];
    BindAllStep(w, el, m, ks, s, i18n, resolve);
    BindAllEars(w, el, m, p, s, i18n, resolve);
    var b := BindAll(w, el, m, p, s, i18n, resolve).world;
    var r := BindAll(w, el, m, ks, s, i18n, resolve).world;
    var ear := MakeEar(s, w.elements[el].tagName, el, ks[|ks| - 1]).value;
    EarsAddedSnoc(w.ears, b.ears, r.ears, s, w.elements[el].tagName, el, ks, w.nextEar, b.nextEar, ear);
  }

  /** Whether the element's registry can take a binding: it lingers, or its slot is not cleared. */
  predicate CanRecord(e: Element)
  {
    e.linger || !e.slot.Cleared?
  }

  /** The condition under which a `bind*` call over `ks` completes, read off the state before it. */
  predicate AllPass(s: Strategy, e: Element, ks: seq<Key>, data: ModelData, resolve: Resolver)
  {
    || ks == []
    || (&& ConstructionError(s, e.tagName).Pass?
        && CanRecord(e)
        && forall i :: 0 <= i < |ks| ==> WriteCheck(s, e.tagName, ks[i], data, resolve).Pass?)
  }

  /** Chains the outcome of the earlier iterations with that of the last one. */
  lemma CompletesCompose(s: Strategy, e0: Element, eb: Element, m: ModelId, ks: seq<Key>, base: EarId,
                         data: ModelData, dataB: ModelData, resolve: Resolver, passBefore: bool, passAll: bool)
    requires ks != []
    requires passBefore <==> AllPass(s, e0, ks[..|ks| - 1], data, resolve)
    requires !passBefore ==> !passAll
    requires passBefore ==> && eb.tagName == e0.tagName && eb.linger == e0.linger && dataB == data
                            && eb.slot == SlotAfter(e0, NewBindings(m, ks[..|ks| - 1], base))
    requires passBefore ==> (passAll <==> && ConstructionError(s, eb.tagName).Pass?
                                          && WriteCheck(s, eb.tagName, ks[|ks| - 1], dataB, resolve).Pass?
                                          && CanRecord(eb))
    ensures passAll <==> AllPass(s, e0, ks, data, resolve)
  {
    var p := ks[..|ks| - 1];
    assert forall i :: 0 <= i < |p| ==> p[i] == ks[i];
    if !passBefore && p != [] && ConstructionError(s, e0.tagName).Pass? && CanRecord(e0) {
      var i :| 0 <= i < |p| && WriteCheck(s, e0.tagName, p[i], data, resolve).Fail?;
      assert !AllPass(s, e0, ks, data, resolve);
    }
  }

  /**
   * When a `bind*` call completes: exactly when there are no keys, or the
   * object's construction passes, the registry can take a binding, and
   * every key's first write passes its check.
   */
  lemma {:induction false} BindAllCompletes(w: World, el: ElemId, m: ModelId, ks: seq<Key>, s: Strategy,
                                            i18n: Value -> string, resolve: Resolver)
    requires el in w.elements && m in w.models
    ensures BindAll(w, el, m, ks, s, i18n, resolve).outcome.Pass? <==>
      AllPass(s, w.elements[el], ks, w.models[m].data, resolve)
    decreases |ks|
  {
    if ks != [] {
      var p := ks[..|ks| - 1];
      var before := BindAll(w, el, m, p, s, i18n, resolve);
      BindAllCompletes(w, el, m, p, s, i18n, resolve);
      if before.outcome.Pass? {
        BindAllRegisters(w, el, m, p, s, i18n, resolve);
        BindOneOutcome(before.world, el, m, ks[|ks| - 1], s, i18n, resolve);
        HearAllListeners(w.models[m], p, w.nextEar, ks[|ks| - 1]);
      }
      CompletesCompose(s, w.elements[el], before.world.elements[el], m, ks, w.nextEar,
                       w.models[m].data, before.world.models[m].data, resolve,
                       before.outcome.Pass?, BindAll(w, el, m, ks, s, i18n, resolve).outcome.Pass?);
    }
  }

  /**
   * Binding again after cleanup (slot cleared, no linger flag) throws from
   * `addBinding`, but only after the first ear was already registered with
   * the model: that ear is never recorded and so is never cleaned up.
   */
  lemma {:induction false} RebindAfterCleanupThrows(w: World, el: ElemId, m: ModelId, ks: seq<Key>, s: Strategy,
                                                    i18n: Value -> string, resolve: Resolver)
    requires el in w.elements && m in w.models && |ks| > 0
    requires !s.AttrStrategy? && CheckTag(w.elements[el].tagName).Pass?
    requires w.elements[el].slot.Cleared? && !w.elements[el].linger
    ensures var r := BindAll(w, el, m, ks, s, i18n, resolve);
      && r.outcome == Fail(TypeError("Cannot read properties of undefined (reading 'push')"))
      && w.nextEar in Listeners(r.world.models[m], ks[0])
      && r.world.elements[el].slot.Cleared?
    decreases |ks|
  {
    if |ks| > 1 {
      RebindAfterCleanupThrows(w, el, m, ks[..|ks| - 1], s, i18n, resolve);
    } else {
      assert ks[..0] == [];
    }
  }

  // ---------------------------------------------------------------- cleanup

  /** `b.model.deref()?.stopHearing(b.ear)` for each binding in order; a collected model is skipped. */
  function StopAll(models: map<ModelId, Loud>, bs: seq<Binding>): (r: map<ModelId, Loud>)
    ensures r.Keys == models.Keys
    ensures forall m :: m in models ==> r[m].data == models[m].data
    decreases |bs|
  {
    if bs == [] then models
    else
      var before := StopAll(models, bs[..|bs| - 1]);
      var b := bs[|bs| - 1];
      if b.model in before then before[b.model := StopHearing(before[b.model], b.ear)] else before
  }

  /** The observer's work on one removed node. Nodes that are not elements carry no slot. */
  function CleanNode(w: World, n: ElemId): (r: Run)
    ensures r.world.elements.Keys == w.elements.Keys && r.world.models.Keys == w.models.Keys
    ensures r.world.ears == w.ears && r.world.nextEar == w.nextEar
    ensures r.outcome.Fail? <==> n in w.elements && w.elements[n].slot.Cleared?
    ensures r.outcome.Fail? ==> r.world == w
  {
    if n !in w.elements then Run(w, Pass)
    else match w.elements[n].slot
      case Absent => Run(w, Pass)
      case Cleared => Run(w, Fail(TypeError("bindings is not iterable")))
      case Listed(bs) =>
        Run(w.(models := StopAll(w.models, bs), elements := w.elements[n := w.elements[n].(slot := Cleared)]), Pass)
  }

  /** The observer's work on the removed nodes in order; an exception ends the callback. */
  function CleanNodes(w: World, ns: seq<ElemId>): (r: Run)
    ensures r.world.elements.Keys == w.elements.Keys && r.world.models.Keys == w.models.Keys
    ensures r.world.ears == w.ears && r.world.nextEar == w.nextEar
    decreases |ns|
  {
    if ns == [] then Run(w, Pass)
    else
      var before := CleanNodes(w, ns[..|ns| - 1]);
      if before.outcome.Fail? then before else CleanNode(before.world, ns[|ns| - 1])
  }

  /** The removed nodes of a batch of mutation records, in delivery order. */
  function Flatten(batch: seq<seq<ElemId>>): seq<ElemId>
    decreases |batch|
  {
    if batch == [] then [] else Flatten(batch[..|batch| - 1]) + batch[|batch| - 1]
  }

  /** The nodes of the first `j` records come first in the batch's nodes. */
  lemma {:induction false} FlattenGrows(batch: seq<seq<ElemId>>, j: nat)
    requires j <= |batch|
    ensures Flatten(batch[..j]) <= Flatten(batch)
    decreases |batch| - j
  {
    if j < |batch| {
      FlattenGrows(batch, j + 1);
      assert batch[..j + 1][..j] == batch[..j];
    } else {
      assert batch[..j] == batch;
    }
  }

  lemma FlattenNext(batch: seq<seq<ElemId>>, i: nat)
    requires i < |batch|
    ensures Flatten(batch[..i + 1]) == Flatten(batch[..i]) + batch[i]
  {
    assert batch[..i + 1][..i] == batch[..i];
  }

  /** An exception at record `i`'s `k`-th node ends the whole callback there. */
  lemma CleanupStops(w: World, batch: seq<seq<ElemId>>, i: nat, k: nat)
    requires i < |batch| && k <= |batch[i]|
    requires CleanNodes(w, Flatten(batch[..i]) + batch[i][..k]).outcome.Fail?
    ensures CleanNodes(w, Flatten(batch)) == CleanNodes(w, Flatten(batch[..i]) + batch[i][..k])
  {
    FlattenPrefix(batch, i, k);
    CleanNodesFailureStays(w, Flatten(batch), |Flatten(batch[..i])| + k);
  }

  /** Where record `i`'s `k`-th node sits in the batch's nodes. */
  lemma FlattenPrefix(batch: seq<seq<ElemId>>, i: nat, k: nat)
    requires i < |batch| && k <= |batch[i]|
    ensures |Flatten(batch[..i])| + k <= |Flatten(batch)|
    ensures Flatten(batch)[..|Flatten(batch[..i])| + k] == Flatten(batch[..i]) + batch[i][..k]
  {
    FlattenGrows(batch, i + 1);
    assert batch[..i + 1][..i] == batch[..i];
    assert Flatten(batch[..i + 1]) == Flatten(batch[..i]) + batch[i];
  }

  /** One more node after a completed prefix. */
  lemma CleanNodesNext(w: World, ns: seq<ElemId>, n: ElemId)
    requires CleanNodes(w, ns).outcome.Pass?
    ensures CleanNodes(w, ns + [n]) == CleanNode(CleanNodes(w, ns).world, n)
  {
    assert (ns + [n])[..|ns|] == ns;
  }

  lemma {:induction false} CleanNodesFailureStays(w: World, ns: seq<ElemId>, n: nat)
    requires n <= |ns|
    requires CleanNodes(w, ns[..n]).outcome.Fail?
    ensures CleanNodes(w, ns) == CleanNodes(w, ns[..n])
    decreases |ns| - n
  {
    if n < |ns| {
      assert ns[..n + 1][..n] == ns[..n];
      CleanNodesFailureStays(w, ns, n + 1);
    } else {
      assert ns[..n] == ns;
    }
  }

  /** Stopping ears only ever removes listeners. */
  lemma {:induction false} StopAllOnlyRemoves(models: map<ModelId, Loud>, bs: seq<Binding>, m: ModelId, x: EarId)
    requires m in models
    ensures Hears(StopAll(models, bs)[m], x) ==> Hears(models[m], x)
    decreases |bs|
  {
    if bs != [] {
      var before := StopAll(models, bs[..|bs| - 1]);
      StopAllOnlyRemoves(models, bs[..|bs| - 1], m, x);
      var b := bs[|bs| - 1];
      if b.model in before && b.model == m {
        StopHearingOnlyRemoves(before[m], b.ear, x);
      }
    }
  }

  /** An ear that no binding in `bs` names for model `m` stays exactly as subscribed as it was. */
  lemma {:induction false} StopAllKeeps(models: map<ModelId, Loud>, bs: seq<Binding>, m: ModelId, k: Key, x: EarId)
    requires m in models
    requires forall b :: b in bs && b.model == m ==> b.ear != x
    ensures x in Listeners(StopAll(models, bs)[m], k) <==> x in Listeners(models[m], k)
    decreases |bs|
  {
    if bs != [] {
      var p := bs[..|bs| - 1];
      assert forall b :: b in p ==> b in bs;
      StopAllKeeps(models, p, m, k, x);
    }
  }

  /** After `StopAll`, no model that is still alive hears any of the bindings' ears. */
  lemma {:induction false} StopAllSilences(models: map<ModelId, Loud>, bs: seq<Binding>)
    ensures forall b :: b in bs && b.model in models ==> !Hears(StopAll(models, bs)[b.model], b.ear)
    decreases |bs|
  {
    if bs != [] {
      var p := bs[..|bs| - 1];
      var last := bs[|bs| - 1];
      StopAllSilences(models, p);
      forall b | b in bs && b.model in models
        ensures !Hears(StopAll(models, bs)[b.model], b.ear)
      {
        if b != last {
          assert b in p;
          var before := StopAll(models, p);
          if last.model in before && last.model == b.model {
            StopHearingOnlyRemoves(before[b.model], last.ear, b.ear);
          }
        }
      }
    }
  }

  /** Ear `x` is recorded for model `m` in the registry of one of the removed nodes `ns`. */
  ghost predicate RecordedAmong(w: World, ns: seq<ElemId>, m: ModelId, x: EarId)
  {
    exists n, b :: n in ns && n in w.elements && b in BindingsOf(w.elements[n].slot) && b.model == m && b.ear == x
  }

  /**
   * A cleanup that completes clears the slot of every removed node that had
   * bindings and unsubscribes each of their ears from its binding's model
   * (when that model is still alive). It touches no other element — not
   * even the removed nodes' descendants, and whatever their linger flag
   * says — and every ear those registries do not record stays subscribed
   * to exactly the keys it was.
   */
  lemma {:induction false} CleanNodesUnsubscribes(w: World, ns: seq<ElemId>)
    requires CleanNodes(w, ns).outcome.Pass?
    ensures var r := CleanNodes(w, ns).world;
      && r.elements.Keys == w.elements.Keys
      && r.models.Keys == w.models.Keys
      && r.ears == w.ears && r.nextEar == w.nextEar
      && (forall n :: n in w.elements && n !in ns ==> r.elements[n] == w.elements[n])
      && (forall n :: n in w.elements && n in ns ==>
            r.elements[n] == w.elements[n].(slot := if w.elements[n].slot.Absent? then Absent else Cleared))
      && (forall n, b :: n in ns && n in w.elements && b in BindingsOf(w.elements[n].slot) && b.model in w.models ==>
            !Hears(r.models[b.model], b.ear))
      && (forall m, x :: m in w.models && Hears(r.models[m], x) ==> Hears(w.models[m], x))
      && (forall m, k, x :: m in w.models && !RecordedAmong(w, ns, m, x) ==>
            (x in Listeners(r.models[m], k) <==> x in Listeners(w.models[m], k)))
    decreases |ns|, 1
  {
    if ns != [] {
      var p := ns[..|ns| - 1];
      var last := ns[|ns| - 1];
      var before := CleanNodes(w, p);
      assert before.outcome.Pass?;
      CleanNodesUnsubscribes(w, p);
      var bw := before.world;
      var r := CleanNodes(w, ns).world;
      assert forall n :: n in ns <==> n in p || n == last;
      if last in bw.elements && bw.elements[last].slot.Listed? {
        var bs := bw.elements[last].slot.bindings;
        StopAllSilences(bw.models, bs);
        forall m, x | m in w.models && Hears(r.models[m], x)
          ensures Hears(w.models[m], x)
        {
          StopAllOnlyRemoves(bw.models, bs, m, x);
        }
        forall n, b | n in ns && n in w.elements && b in BindingsOf(w.elements[n].slot) && b.model in w.models
          ensures !Hears(r.models[b.model], b.ear)
        {
          if n in p {
            StopAllOnlyRemoves(bw.models, bs, b.model, b.ear);
          }
        }
      }
    }
    forall m, k, x | m in w.models && !RecordedAmong(w, ns, m, x)
      ensures x in Listeners(CleanNodes(w, ns).world.models[m], k) <==> x in Listeners(w.models[m], k)
    {
      CleanNodesKeeps(w, ns, m, k, x);
    }
  }

  /** The frame half of `CleanNodesUnsubscribes`: an ear no removed registry records keeps its keys. */
  lemma {:induction false} CleanNodesKeeps(w: World, ns: seq<ElemId>, m: ModelId, k: Key, x: EarId)
    requires CleanNodes(w, ns).outcome.Pass?
    requires m in w.models && !RecordedAmong(w, ns, m, x)
    ensures x in Listeners(CleanNodes(w, ns).world.models[m], k) <==> x in Listeners(w.models[m], k)
    decreases |ns|, 0
  {
    if ns != [] {
      var p := ns[..|ns| - 1];
      var last := ns[|ns| - 1];
      var bw := CleanNodes(w, p).world;
      var listed := last in bw.elements && bw.elements[last].slot.Listed?;
      var bs := if listed then bw.elements[last].slot.bindings else [];
      assert CleanNodes(w, p).outcome.Pass?;
      assert CleanNodes(w, ns).world.models == if listed then StopAll(bw.models, bs) else bw.models;
      assert forall n :: n in p ==> n in ns;
      assert !RecordedAmong(w, p, m, x);
      if listed {
        CleanNodesUnsubscribes(w, p);
        assert last in w.elements && last !in p && bs == BindingsOf(w.elements[last].slot);
        assert forall b :: b in bs && b.model == m ==> b.ear != x;
      }
      hide *;
      CleanNodesKeeps(w, p, m, k, x);
      if listed {
        StopAllKeeps(bw.models, bs, m, k, x);
      }
    }
  }

  /** A node delivered twice (its slot already cleared) makes the observer throw. */
  lemma RemovedTwiceThrows(w: World, n: ElemId)
    requires n in w.elements && w.elements[n].slot.Listed?
    ensures CleanNodes(w, [n, n]).outcome == Fail(TypeError("bindings is not iterable"))
  {
    assert [n, n][..1] == [n];
    assert [n][..0] == [];
    assert CleanNodes(w, []) == Run(w, Pass);
    var first := CleanNodes(w, [n]);
    assert first == CleanNode(w, n);
    assert first.world.elements[n].slot.Cleared?;
  }

  /** The linger flag does not protect bindings recorded before it was set. */
  lemma LingeringElementIsCleaned(w: World, n: ElemId)
    requires n in w.elements && w.elements[n].linger && w.elements[n].slot.Listed?
    ensures var r := CleanNodes(w, [n]);
      && r.outcome.Pass?
      && r.world.elements[n].slot.Cleared?
      && forall b :: b in w.elements[n].slot.bindings && b.model in w.models ==> !Hears(r.world.models[b.model], b.ear)
  {
    assert [n][..0] == [];
    StopAllSilences(w.models, w.elements[n].slot.bindings);
  }

  /**
   * The observer cleans only the nodes a record lists as removed. An
   * element that leaves the page inside its removed parent is not listed:
   * its registry stays as it was and its ear stays subscribed, while the
   * parent's ear is unsubscribed.
   */
  lemma DescendantKeepsBindings(parent: Element, child: Element, data: ModelData)
    requires parent.children == [1] && !parent.linger && !child.linger
    requires parent.slot == Listed([Binding(0, "n", 0)]) && child.slot == Listed([Binding(0, "n", 1)])
    ensures var w := World(map[0 := parent, 1 := child], map[0 := Loud(data, map["n" := [0, 1]])],
                           map[0 := InnerTextEar(0, "n", None), 1 := InnerTextEar(1, "n", None)], 2);
      var r := CleanNodes(w, [0]);
      && r.outcome.Pass?
      && r.world.elements[0].slot.Cleared?
      && r.world.elements[1] == child
      && 1 in Listeners(r.world.models[0], "n")
      && 0 !in Listeners(r.world.models[0], "n")
  {
    var w := World(map[0 := parent, 1 := child], map[0 := Loud(data, map["n" := [0, 1]])],
                   map[0 := InnerTextEar(0, "n", None), 1 := InnerTextEar(1, "n", None)], 2);
    assert [0][..0] == [];
    assert CleanNodes(w, [0]) == CleanNode(w, 0);
    CleanNodesUnsubscribes(w, [0]);
    assert !RecordedAmong(w, [0], 0, 1);
    assert Hears(w.models[0], 0) by {
      assert 0 in w.models[0].ears["n"];
    }
    assert Listeners(w.models[0], "n") == [0, 1];
  }

  /**
   * An element flagged to linger before it is bound records nothing, so
   * its removal cleans nothing: the page is left as it was, and every ear
   * of the call stays subscribed for its key as the `onChange` of the object built for it.
   */
  lemma LingeringBindingsSurviveRemoval(w: World, el: ElemId, m: ModelId, ks: seq<Key>, s: Strategy,
                                        i18n: Value -> string, resolve: Resolver)
    requires el in w.elements && m in w.models
    requires w.elements[el].linger && w.elements[el].slot.Absent?
    requires BindAll(w, el, m, ks, s, i18n, resolve).outcome.Pass?
    ensures var r := BindAll(w, el, m, ks, s, i18n, resolve).world;
      && CleanNodes(r, [el]) == Run(r, Pass)
      && forall i :: 0 <= i < |ks| ==>
           && w.nextEar + i in Listeners(r.models[m], ks[i])
           && MakeEar(s, w.elements[el].tagName, el, ks[i]).Success?
           && w.nextEar + i in r.ears
           && r.ears[w.nextEar + i] == MakeEar(s, w.elements[el].tagName, el, ks[i]).value
  {
    var r := BindAll(w, el, m, ks, s, i18n, resolve).world;
    BindAllRegisters(w, el, m, ks, s, i18n, resolve);
    assert [el][..0] == [];
    assert r.elements[el].slot.Absent?;
    assert CleanNodes(r, [el]) == CleanNode(r, el) == Run(r, Pass);
    BindAllHears(w, el, m, ks, s, i18n, resolve);
  }

  /** A completed `bind*` call leaves the model hearing ear `base + i` for `ks[i]`, for every `i`. */
  lemma BindAllHears(w: World, el: ElemId, m: ModelId, ks: seq<Key>, s: Strategy,
                     i18n: Value -> string, resolve: Resolver)
    requires el in w.elements && m in w.models
    requires BindAll(w, el, m, ks, s, i18n, resolve).outcome.Pass?
    ensures forall i :: 0 <= i < |ks| ==> w.nextEar + i in Listeners(BindAll(w, el, m, ks, s, i18n, resolve).world.models[m], ks[i])
  {
    hide *;
    BindAllRegisters(w, el, m, ks, s, i18n, resolve);
    HearAllHears(w.models[m], ks, w.nextEar);
  }
}
