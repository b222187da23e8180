/**
 * The page as the running program sees it: elements, models and ears are
 * updated in place by the `onChange` callbacks, the `bind*` loops,
 * `addBinding`, the linger setter and the removal observer. Each method that
 * has a matching `Engine` function is proved to leave exactly the state that
 * function gives; `CreateElement`, `AddModel` and `I18nWith` have none and
 * state their new state directly.
 */
module PageState {
  import opened Wrappers
  import opened Values
  import opened Sanitize
  import opened Observable
  import opened Dom
  import opened Engine

  class Page {
    var elements: map<ElemId, Element>
    var models: map<ModelId, Loud>
    var ears: map<EarId, Ear>
    var nextEar: EarId
    /** The next identity `document.createElement` and `loudify` hand out. */
    var nextElement: ElemId
    var nextModel: ModelId
    /** The module-level `i18n` variable. */
    var i18n: Value -> string
    /** `new URL(value, document.location.href).protocol`, as a fixed outside function. */
    const resolve: Resolver

    function State(): World
      reads this
    {
      World(elements, models, ears, nextEar)
    }

    /** Every element and model identity in use was handed out before the counters. */
    predicate Valid()
      reads this
    {
      && (forall e :: e in elements ==> e < nextElement)
      && (forall m :: m in models ==> m < nextModel)
    }

    /** An empty page whose localizer is the default `String(value)`. */
    constructor (resolve: Resolver)
      ensures State() == World(map[], map[], map[], 0)
      ensures Valid() && nextElement == 0 && nextModel == 0
      ensures this.resolve == resolve
      ensures forall v :: i18n(v) == JsString(v)
    {
      elements := map[];
      models := map[];
      ears := map[];
      nextEar := 0;
      nextElement := 0;
      nextModel := 0;
      i18n := v => JsString(v);
      this.resolve := resolve;
    }

    /**
     * `document.createElement(name)`: a new HTML element, with no attributes,
     * text or children, that nothing is bound to yet. Its `tagName` is the
     * name in capitals.
     */
    method CreateElement(name: string) returns (el: ElemId)
      requires Valid()
      modifies this`elements, this`nextElement
      ensures Valid()
      ensures el !in old(elements)
      ensures elements == old(elements)[el := Element(ToUpper(name), map[], "", [], Absent, false)]
      ensures nextElement == old(nextElement) + 1
    {
      el := nextElement;
      elements := elements[el := Element(ToUpper(name), map[], "", [], Absent, false)];
      nextElement := nextElement + 1;
    }

    /** `loudify(data)`: a new model holding `data` that no ear hears yet. */
    method AddModel(data: ModelData) returns (m: ModelId)
      requires Valid()
      modifies this`models, this`nextModel
      ensures Valid()
      ensures m !in old(models)
      ensures models == old(models)[m := Loud(data, map[])]
      ensures nextModel == old(nextModel) + 1
    {
      m := nextModel;
      models := models[m := Loud(data, map[])];
      nextModel := nextModel + 1;
    }

    /** `i18nWith`: replaces the localizer; nothing already rendered changes. */
    method I18nWith(internationalizer: Value -> string)
      modifies this`i18n
      ensures i18n == internationalizer
      ensures State() == old(State())
    {
      i18n := internationalizer;
    }

    /** `InnerText.onChange` on the page's elements. */
    method InnerTextOnChange(element: ElemId, key: Key, xlat: Option<Xlat>, data: ModelData)
      modifies this`elements
      ensures elements == Engine.InnerTextOnChange(old(elements), element, key, xlat, data, i18n)
      ensures models == old(models) && ears == old(ears) && nextEar == old(nextEar) && i18n == old(i18n)
    {
      if element in elements {
        var text := if xlat.Some? then xlat.value(data) else i18n(Lookup(data, key));
        elements := elements[element := SetInnerText(elements[element], text)];
      }
    }

    /** `Replacer.onChange` on the page's elements. */
    method ReplacerOnChange(element: ElemId, factory: ModelData -> Fragment, data: ModelData)
      modifies this`elements
      ensures elements == Engine.ReplacerOnChange(old(elements), element, factory, data)
      ensures models == old(models) && ears == old(ears) && nextEar == old(nextEar) && i18n == old(i18n)
    {
      if element in elements {
        var newElements := factory(data);
        if newElements.Nope? {
          return;
        } else if newElements.Many? {
          elements := elements[element := ReplaceChildren(elements[element], newElements.elements)];
        } else {
          elements := elements[element := ReplaceChildren(elements[element], [newElements.element])];
        }
      }
    }

    /** `Attr.onChange` on the page's elements; the outcome says whether it threw. */
    method AttrOnChange(element: ElemId, attribute: string, key: Key, xlat: Option<Xlat>, checkURL: bool,
                        data: ModelData) returns (outcome: Outcome<Error>)
      modifies this`elements
      ensures (elements, outcome) == Engine.AttrOnChange(old(elements), element, attribute, key, xlat, checkURL, data, resolve)
      ensures models == old(models) && ears == old(ears) && nextEar == old(nextEar) && i18n == old(i18n)
    {
      var value := if xlat.Some? then xlat.value(data) else JsString(Lookup(data, key));
      outcome := CheckProtocol(checkURL, attribute, value, resolve);
      if outcome.Fail? {
        return;
      }
      if element in elements {
        elements := elements[element := SetAttribute(elements[element], attribute, value)];
      }
    }

    /** The model calls ear `id` with its state `data`. */
    method Fire(id: EarId, data: ModelData) returns (outcome: Outcome<Error>)
      requires id in ears
      modifies this`elements
      ensures Run(State(), outcome) == Engine.Fire(old(State()), id, data, i18n, resolve)
      ensures i18n == old(i18n)
    {
      match ears[id]
      case InnerTextEar(element, key, xlat) =>
        InnerTextOnChange(element, key, xlat, data);
        outcome := Pass;
      case ReplacerEar(element, factory) =>
        ReplacerOnChange(element, factory, data);
        outcome := Pass;
      case AttrEar(element, attribute, key, xlat, checkURL) =>
        outcome := AttrOnChange(element, attribute, key, xlat, checkURL, data);
    }

    /** `model.hear(key, ear)`: the ear joins the key's listeners and is called once. */
    method HearAndFire(m: ModelId, key: Key, id: EarId) returns (outcome: Outcome<Error>)
      requires m in models && id in ears
      modifies this`elements, this`models
      ensures Run(State(), outcome) == Engine.HearAndFire(old(State()), m, key, id, i18n, resolve)
      ensures i18n == old(i18n)
    {
      var data := models[m].data;
      models := models[m := Hear(models[m], key, id)];
      outcome := Fire(id, data);
    }

    /** `addBinding(element, binding)`. */
    method AddBinding(el: ElemId, b: Binding) returns (outcome: Outcome<Error>)
      requires el in elements
      modifies this`elements
      ensures match AddToSlot(old(elements[el]), b)
        case Success(e) => outcome == Pass && elements == old(elements)[el := e]
        case Failure(err) => outcome == Fail(err) && elements == old(elements)
      ensures models == old(models) && ears == old(ears) && nextEar == old(nextEar) && i18n == old(i18n)
    {
      var element := elements[el];
      if element.linger {
        return Pass;
      }
      var bindings: seq<Binding>;
      match element.slot {
        case Listed(bs) =>
          bindings := bs;
        case Cleared =>
          return Fail(TypeError("Cannot read properties of undefined (reading 'push')"));
        case Absent =>
          bindings := [];
      }
      bindings := bindings + [b];
      assert element.slot.Absent? ==> bindings == [b];
      elements := elements[el := element.(slot := Listed(bindings))];
      outcome := Pass;
    }

    /** One iteration of a `bind*` loop: construct the `InnerText`, `Replacer` or `Attr` object, `hear` its ear, record the binding. */
    method BindOne(el: ElemId, m: ModelId, key: Key, s: Strategy) returns (outcome: Outcome<Error>)
      requires el in elements && m in models
      modifies this`elements, this`models, this`ears, this`nextEar
      ensures Run(State(), outcome) == Engine.BindOne(old(State()), el, m, key, s, i18n, resolve)
      ensures i18n == old(i18n)
    {
      var made := MakeEar(s, elements[el].tagName, el, key);
      if made.Failure? {
        return Fail(made.error);
      }
      var id := nextEar;
      ears := ears[id := made.value];
      nextEar := id + 1;
      outcome := HearAndFire(m, key, id);
      if outcome.Fail? {
        return;
      }
      outcome := AddBinding(el, Binding(m, key, id));
    }

    /**
     * The shared body of `bindInner`, `bindReplace` and `bindAttr`: the keys
     * in order, stopping at the first exception; on completion the element
     * itself is returned.
     */
    method Bind(el: ElemId, m: ModelId, keys: Keys, s: Strategy) returns (r: Result<ElemId, Error>)
      requires el in elements && m in models
      modifies this`elements, this`models, this`ears, this`nextEar
      ensures Run(State(), if r.Success? then Pass else Fail(r.error))
              == BindAll(old(State()), el, m, KeyListOf(keys), s, i18n, resolve)
      ensures r.Success? ==> r.value == el
      ensures i18n == old(i18n)
    {
      var ks := KeyListOf(keys);
      ghost var w0 := State();
      var i := 0;
      assert ks[..i] == [];
      assert Run(State(), Pass) == BindAll(w0, el, m, ks[..i], s, i18n, resolve);
      hide *;
      while i < |ks|
        invariant 0 <= i <= |ks|
        invariant el in elements && m in models && i18n == old(i18n)
        invariant Run(State(), Pass) == BindAll(w0, el, m, ks[..i], s, i18n, resolve)
      {
        var outcome := BindKey(el, m, ks, i, s, w0);
        if outcome.Fail? {
          return Failure(outcome.error);
        }
        i := i + 1;
      }
      assert ks[..i] == ks;
      r := Success(el);
    }

    /** The loop body of `Bind` for `ks[i]`, after the keys before it have been bound from `w0`. */
    method BindKey(el: ElemId, m: ModelId, ks: seq<Key>, i: nat, s: Strategy, ghost w0: World)
      returns (outcome: Outcome<Error>)
      requires i < |ks| && el in w0.elements && m in w0.models
      requires Run(State(), Pass) == BindAll(w0, el, m, ks[..i], s, i18n, resolve)
      modifies this`elements, this`models, this`ears, this`nextEar
      ensures outcome.Pass? ==> Run(State(), Pass) == BindAll(w0, el, m, ks[..i + 1], s, i18n, resolve)
      ensures outcome.Fail? ==> Run(State(), outcome) == BindAll(w0, el, m, ks, s, i18n, resolve)
      ensures el in elements && m in models && i18n == old(i18n)
    {
      BindAllNext(w0, el, m, ks, i, s, i18n, resolve);
      outcome := BindOne(el, m, ks[i], s);
      if outcome.Fail? {
        BindAllFailureStays(w0, el, m, ks, i + 1, s, i18n, resolve);
      }
    }

    /** `bindInner(model, keys, xlat?)`. */
    method BindInner(el: ElemId, m: ModelId, keys: Keys, xlat: Option<Xlat>) returns (r: Result<ElemId, Error>)
      requires el in elements && m in models
      modifies this`elements, this`models, this`ears, this`nextEar
      ensures Run(State(), if r.Success? then Pass else Fail(r.error))
              == BindAll(old(State()), el, m, KeyListOf(keys), InnerStrategy(xlat), i18n, resolve)
      ensures r.Success? ==> r.value == el
      ensures i18n == old(i18n)
    {
      r := Bind(el, m, keys, InnerStrategy(xlat));
    }

    /** `bindReplace(model, keys, factory)`. */
    method BindReplace(el: ElemId, m: ModelId, keys: Keys, factory: ModelData -> Fragment) returns (r: Result<ElemId, Error>)
      requires el in elements && m in models
      modifies this`elements, this`models, this`ears, this`nextEar
      ensures Run(State(), if r.Success? then Pass else Fail(r.error))
              == BindAll(old(State()), el, m, KeyListOf(keys), ReplaceStrategy(factory), i18n, resolve)
      ensures r.Success? ==> r.value == el
      ensures i18n == old(i18n)
    {
      r := Bind(el, m, keys, ReplaceStrategy(factory));
    }

    /** `bindAttr(attribute, model, keys, xlat?)`, as first defined. */
    method BindAttr(el: ElemId, attribute: string, m: ModelId, keys: Keys, xlat: Option<Xlat>)
      returns (r: Result<ElemId, Error>)
      requires el in elements && m in models
      modifies this`elements, this`models, this`ears, this`nextEar
      ensures Run(State(), if r.Success? then Pass else Fail(r.error))
              == BindAll(old(State()), el, m, KeyListOf(keys), AttrStrategy(attribute, xlat), i18n, resolve)
      ensures r.Success? ==> r.value == el
      ensures i18n == old(i18n)
    {
      r := Bind(el, m, keys, AttrStrategy(attribute, xlat));
    }

    /** The linger setter: flags the element and returns it. */
    method LingerBindings(el: ElemId) returns (r: ElemId)
      requires el in elements
      modifies this`elements
      ensures r == el
      ensures elements == old(elements)[el := Linger(old(elements[el]))]
      ensures models == old(models) && ears == old(ears) && nextEar == old(nextEar) && i18n == old(i18n)
    {
      elements := elements[el := elements[el].(linger := true)];
      r := el;
    }

    /** `b.model.deref()?.stopHearing(b.ear)` for each of `bindings`, in order. */
    method StopBindings(bindings: seq<Binding>)
      modifies this`models
      ensures models == StopAll(old(models), bindings)
      ensures elements == old(elements) && ears == old(ears) && nextEar == old(nextEar) && i18n == old(i18n)
    {
      var k := 0;
      while k < |bindings|
        invariant 0 <= k <= |bindings|
        invariant elements == old(elements) && ears == old(ears) && nextEar == old(nextEar) && i18n == old(i18n)
        invariant models == StopAll(old(models), bindings[..k])
      {
        assert bindings[..k + 1][..k] == bindings[..k];
        var b := bindings[k];
        if b.model in models {
          models := models[b.model := StopHearing(models[b.model], b.ear)];
        }
        k := k + 1;
      }
      assert bindings[..k] == bindings;
    }

    /** The callback's work on one removed node. */
    method CleanNode(n: ElemId) returns (outcome: Outcome<Error>)
      modifies this`elements, this`models
      ensures Run(State(), outcome) == Engine.CleanNode(old(State()), n)
      ensures i18n == old(i18n)
    {
      if n in elements && !elements[n].slot.Absent? {
        if elements[n].slot.Cleared? {
          return Fail(TypeError("bindings is not iterable"));
        }
        StopBindings(elements[n].slot.bindings);
        elements := elements[n := elements[n].(slot := Cleared)];
      }
      outcome := Pass;
    }

    /**
     * The removal observer's callback on one batch of mutation records, each
     * given by its removed nodes. A node whose slot was already cleared makes
     * the callback throw, and the rest of the batch is not looked at.
     */
    method Cleanup(batch: seq<seq<ElemId>>) returns (outcome: Outcome<Error>)
      modifies this`elements, this`models
      ensures Run(State(), outcome) == CleanNodes(old(State()), Flatten(batch))
      ensures i18n == old(i18n)
    {
      ghost var w0 := State();
      var i := 0;
      while i < |batch|
        invariant 0 <= i <= |batch| && i18n == old(i18n)
        invariant Run(State(), Pass) == CleanNodes(w0, Flatten(batch[..i]))
      {
        var removed := batch[i];
        ghost var done := Flatten(batch[..i]);
        var j := 0;
        assert done + removed[..j] == done;
        while j < |removed|
          invariant 0 <= j <= |removed| && i18n == old(i18n)
          invariant Run(State(), Pass) == CleanNodes(w0, done + removed[..j])
        {
          CleanNodesNext(w0, done + removed[..j], removed[j]);
          assert done + removed[..j + 1] == (done + removed[..j]) + [removed[j]];
          outcome := CleanNode(removed[j]);
          assert Run(State(), outcome) == CleanNodes(w0, done + removed[..j + 1]);
          if outcome.Fail? {
            CleanupStops(w0, batch, i, j + 1);
            return;
          }
          j := j + 1;
        }
        assert removed[..j] == removed;
        FlattenNext(batch, i);
        i := i + 1;
      }
      assert batch[..i] == batch;
      outcome := Pass;
    }
  }

  /**
   * `document.createElement("iframe").bindInner(model, "n")` on a fresh page
   * throws the tag error naming `IFRAME`, the created element's `tagName`.
   */
  method IframeRefusesBinding(resolve: Resolver) returns (r: Result<ElemId, Error>)
    ensures r == Failure(XSSError("XSS: no bindings allowed on " + "IFRAME" + " tag."))
  {
    var page := new Page(resolve);
    var el := page.CreateElement("iframe");
    var m := page.AddModel(map["n" := Num(11)]);
    ghost var w := page.State();
    assert ToUpper("iframe") == "IFRAME";
    assert CheckTag("IFRAME") == Fail(XSSError("XSS: no bindings allowed on " + "IFRAME" + " tag."));
    BindAllRejected(w, el, m, ["n"], InnerStrategy(None), page.i18n, resolve);
    r := page.BindInner(el, m, OneKey("n"), None);
  }
}
