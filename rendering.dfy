/**
 * What a `bind*` call leaves on the element: the first write every new ear
 * makes when `hear` calls it, the exception an unsafe first write raises,
 * and the scenarios the repository's tests describe.
 */
module Rendering {
  import opened Wrappers
  import opened Values
  import opened Sanitize
  import opened Observable
  import opened Dom
  import opened Engine

  /** One `bindInner` iteration on an allowed tag completes and writes the derived text. */
  lemma BindOneInnerText(w: World, el: ElemId, m: ModelId, key: Key, xlat: Option<Xlat>,
                         i18n: Value -> string, resolve: Resolver)
    requires el in w.elements && m in w.models
    requires CheckTag(w.elements[el].tagName).Pass? && CanRecord(w.elements[el])
    ensures var r := BindOne(w, el, m, key, InnerStrategy(xlat), i18n, resolve);
      && r.outcome.Pass?
      && r.world.elements[el].text == InnerTextValue(xlat, key, w.models[m].data, i18n)
      && r.world.elements[el].children == []
      && r.world.elements[el].attrs == w.elements[el].attrs
      && w.nextEar in r.world.ears && r.world.ears[w.nextEar] == InnerTextEar(el, key, xlat)
  {
    var id := w.nextEar;
    var created := w.(ears := w.ears[id := InnerTextEar(el, key, xlat)], nextEar := id + 1);
    var registered := created.(models := created.models[m := Hear(created.models[m], key, id)]);
    var heard := Fire(registered, id, w.models[m].data, i18n, resolve);
    assert HearAndFire(created, m, key, id, i18n, resolve) == heard;
    assert heard.world.elements[el] == SetInnerText(w.elements[el], InnerTextValue(xlat, key, w.models[m].data, i18n));
  }

  /** One `bindAttr` iteration whose checks pass completes and sets the lower-cased attribute. */
  lemma BindOneAttr(w: World, el: ElemId, m: ModelId, key: Key, attribute: string, xlat: Option<Xlat>,
                    i18n: Value -> string, resolve: Resolver)
    requires el in w.elements && m in w.models
    requires NewAttrSpec(w.elements[el].tagName, attribute).Success? && CanRecord(w.elements[el])
    requires WriteCheck(AttrStrategy(attribute, xlat), w.elements[el].tagName, key, w.models[m].data, resolve).Pass?
    ensures var r := BindOne(w, el, m, key, AttrStrategy(attribute, xlat), i18n, resolve);
      && r.outcome.Pass?
      && r.world.elements[el].attrs == w.elements[el].attrs[ToLower(attribute) := AttrValue(xlat, key, w.models[m].data)]
      && r.world.elements[el].text == w.elements[el].text
      && r.world.elements[el].children == w.elements[el].children
  {
    var spec := NewAttrSpec(w.elements[el].tagName, attribute).value;
    var id := w.nextEar;
    var ear := AttrEar(el, spec.attribute, key, xlat, spec.checkURL);
    var created := w.(ears := w.ears[id := ear], nextEar := id + 1);
    var registered := created.(models := created.models[m := Hear(created.models[m], key, id)]);
    var heard := Fire(registered, id, w.models[m].data, i18n, resolve);
    assert HearAndFire(created, m, key, id, i18n, resolve) == heard;
    assert heard.world.elements[el] == SetAttribute(w.elements[el], spec.attribute, AttrValue(xlat, key, w.models[m].data));
  }

  /** The state `b` before the last key of a completed `bind*` call, as the lemmas below need it. */
  lemma BeforeLastKey(w: World, el: ElemId, m: ModelId, ks: seq<Key>, s: Strategy,
                      i18n: Value -> string, resolve: Resolver) returns (b: World)
    requires el in w.elements && m in w.models && ks != []
    requires AllPass(s, w.elements[el], ks, w.models[m].data, resolve)
    ensures el in b.elements && m in b.models
    ensures BindAll(w, el, m, ks, s, i18n, resolve) == BindOne(b, el, m, ks[|ks| - 1], s, i18n, resolve)
    ensures b.elements[el].tagName == w.elements[el].tagName
    ensures CanRecord(b.elements[el])
    ensures b.models[m].data == w.models[m].data
  {
    var p := ks[..|ks| - 1];
    AllPassPrefix(s, w.elements[el], ks, w.models[m].data, resolve);
    assert ks[..|ks|] == ks;
    hide *;
    BindAllCompletes(w, el, m, p, s, i18n, resolve);
    BindAllRegisters(w, el, m, p, s, i18n, resolve);
    HearAllListeners(w.models[m], p, w.nextEar, ks[|ks| - 1]);
    BindAllNext(w, el, m, ks, |ks| - 1, s, i18n, resolve);
    b := BindAll(w, el, m, p, s, i18n, resolve).world;
    RecordingStaysPossible(w.elements[el], b.elements[el], NewBindings(m, p, w.nextEar));
  }

  lemma AllPassPrefix(s: Strategy, e: Element, ks: seq<Key>, data: ModelData, resolve: Resolver)
    requires ks != [] && AllPass(s, e, ks, data, resolve)
    ensures AllPass(s, e, ks[..|ks| - 1], data, resolve)
  {
    var p := ks[..|ks| - 1];
    assert forall i :: 0 <= i < |p| ==> p[i] == ks[i];
  }

  /** Adding bindings never leaves a registry that could take one unable to take the next. */
  lemma RecordingStaysPossible(e: Element, f: Element, bs: seq<Binding>)
    requires f.slot == SlotAfter(e, bs) && f.linger == e.linger && CanRecord(e)
    ensures CanRecord(f)
  {
  }

  /**
   * `bindInner` and `bindReplace` never throw from a first write: an allowed
   * tag and a registry that can take a binding are all they need.
   */
  lemma TagOnlyAllPass(s: Strategy, e: Element, ks: seq<Key>, data: ModelData, resolve: Resolver)
    requires !s.AttrStrategy? && CheckTag(e.tagName).Pass? && CanRecord(e)
    ensures AllPass(s, e, ks, data, resolve)
  {
  }

  /**
   * After `bindInner` on an allowed tag the element shows the text derived
   * for the last key, and nothing else: every key's first write replaced
   * the one before it.
   */
  lemma BindInnerRenders(w: World, el: ElemId, m: ModelId, ks: seq<Key>, xlat: Option<Xlat>,
                         i18n: Value -> string, resolve: Resolver)
    requires el in w.elements && m in w.models && ks != []
    requires CheckTag(w.elements[el].tagName).Pass? && CanRecord(w.elements[el])
    ensures var r := BindAll(w, el, m, ks, InnerStrategy(xlat), i18n, resolve);
      && r.outcome.Pass?
      && r.world.elements[el].text == InnerTextValue(xlat, ks[|ks| - 1], w.models[m].data, i18n)
      && r.world.elements[el].children == []
  {
    hide *;
    TagOnlyAllPass(InnerStrategy(xlat), w.elements[el], ks, w.models[m].data, resolve);
    var b := BeforeLastKey(w, el, m, ks, InnerStrategy(xlat), i18n, resolve);
    BindOneInnerText(b, el, m, ks[|ks| - 1], xlat, i18n, resolve);
  }

  /** One `bindReplace` iteration on an allowed tag completes and applies the factory's result. */
  lemma BindOneReplace(w: World, el: ElemId, m: ModelId, key: Key, factory: ModelData -> Fragment,
                       i18n: Value -> string, resolve: Resolver)
    requires el in w.elements && m in w.models
    requires CheckTag(w.elements[el].tagName).Pass? && CanRecord(w.elements[el])
    ensures var r := BindOne(w, el, m, key, ReplaceStrategy(factory), i18n, resolve);
      var made := factory(w.models[m].data);
      && r.outcome.Pass?
      && (made.Nope? ==> r.world.elements[el].text == w.elements[el].text
                         && r.world.elements[el].children == w.elements[el].children)
      && (made.Many? ==> r.world.elements[el].text == "" && r.world.elements[el].children == made.elements)
      && (made.One? ==> r.world.elements[el].text == "" && r.world.elements[el].children == [made.element])
      && r.world.elements[el].attrs == w.elements[el].attrs
  {
    var id := w.nextEar;
    var created := w.(ears := w.ears[id := ReplacerEar(el, factory)], nextEar := id + 1);
    var registered := created.(models := created.models[m := Hear(created.models[m], key, id)]);
    var heard := Fire(registered, id, w.models[m].data, i18n, resolve);
    assert HearAndFire(created, m, key, id, i18n, resolve) == heard;
  }

  /**
   * After `bindReplace` on an allowed tag whose factory returns elements,
   * those elements, in order, are the element's only children.
   */
  lemma BindReplaceRenders(w: World, el: ElemId, m: ModelId, ks: seq<Key>, factory: ModelData -> Fragment,
                           i18n: Value -> string, resolve: Resolver)
    requires el in w.elements && m in w.models && ks != []
    requires CheckTag(w.elements[el].tagName).Pass? && CanRecord(w.elements[el])
    ensures var r := BindAll(w, el, m, ks, ReplaceStrategy(factory), i18n, resolve);
      var made := factory(w.models[m].data);
      && r.outcome.Pass?
      && (made.Many? ==> r.world.elements[el].text == "" && r.world.elements[el].children == made.elements)
      && (made.One? ==> r.world.elements[el].text == "" && r.world.elements[el].children == [made.element])
  {
    hide *;
    TagOnlyAllPass(ReplaceStrategy(factory), w.elements[el], ks, w.models[m].data, resolve);
    var b := BeforeLastKey(w, el, m, ks, ReplaceStrategy(factory), i18n, resolve);
    BindOneReplace(b, el, m, ks[|ks| - 1], factory, i18n, resolve);
  }

  /** When every check of a `bindAttr` call passes, those of its last key do. */
  lemma AttrLastPasses(e: Element, ks: seq<Key>, attribute: string, xlat: Option<Xlat>,
                       data: ModelData, resolve: Resolver)
    requires ks != [] && AllPass(AttrStrategy(attribute, xlat), e, ks, data, resolve)
    ensures NewAttrSpec(e.tagName, attribute).Success?
    ensures WriteCheck(AttrStrategy(attribute, xlat), e.tagName, ks[|ks| - 1], data, resolve).Pass?
  {
  }

  /** After `bindAttr` whose checks all pass, the lower-cased attribute holds the last key's value. */
  lemma BindAttrRenders(w: World, el: ElemId, m: ModelId, ks: seq<Key>, attribute: string, xlat: Option<Xlat>,
                        i18n: Value -> string, resolve: Resolver)
    requires el in w.elements && m in w.models && ks != []
    requires AllPass(AttrStrategy(attribute, xlat), w.elements[el], ks, w.models[m].data, resolve)
    ensures var r := BindAll(w, el, m, ks, AttrStrategy(attribute, xlat), i18n, resolve);
      && r.outcome.Pass?
      && ToLower(attribute) in r.world.elements[el].attrs
      && r.world.elements[el].attrs[ToLower(attribute)] == AttrValue(xlat, ks[|ks| - 1], w.models[m].data)
  {
    hide *;
    var b := BeforeLastKey(w, el, m, ks, AttrStrategy(attribute, xlat), i18n, resolve);
    AttrLastPasses(w.elements[el], ks, attribute, xlat, w.models[m].data, resolve);
    BindOneAttr(b, el, m, ks[|ks| - 1], attribute, xlat, i18n, resolve);
  }

  /**
   * When the first key's first write is refused, `bindAttr` throws that
   * error after `hear`: the model keeps calling the new ear, yet no
   * binding records it and the element is as it was.
   */
  lemma UnsafeFirstWriteLeavesEar(w: World, el: ElemId, m: ModelId, ks: seq<Key>, attribute: string,
                                  xlat: Option<Xlat>, i18n: Value -> string, resolve: Resolver)
    requires el in w.elements && m in w.models && ks != []
    requires NewAttrSpec(w.elements[el].tagName, attribute).Success?
    requires WriteCheck(AttrStrategy(attribute, xlat), w.elements[el].tagName, ks[0], w.models[m].data, resolve).Fail?
    ensures var r := BindAll(w, el, m, ks, AttrStrategy(attribute, xlat), i18n, resolve);
      && r.outcome == WriteCheck(AttrStrategy(attribute, xlat), w.elements[el].tagName, ks[0], w.models[m].data, resolve)
      && Listeners(r.world.models[m], ks[0]) == Listeners(w.models[m], ks[0]) + [w.nextEar]
      && r.world.elements == w.elements
  {
    var s := AttrStrategy(attribute, xlat);
    assert ks[..0] == [];
    assert BindAll(w, el, m, ks[..0], s, i18n, resolve) == Run(w, Pass);
    hide *;
    BindAllNext(w, el, m, ks, 0, s, i18n, resolve);
    BindOneUnsafe(w, el, m, ks[0], attribute, xlat, i18n, resolve);
    BindAllFailureStays(w, el, m, ks, 1, s, i18n, resolve);
  }

  /** One `bindAttr` iteration whose first write is refused: the ear is heard, nothing is written or recorded. */
  lemma BindOneUnsafe(w: World, el: ElemId, m: ModelId, key: Key, attribute: string, xlat: Option<Xlat>,
                      i18n: Value -> string, resolve: Resolver)
    requires el in w.elements && m in w.models
    requires NewAttrSpec(w.elements[el].tagName, attribute).Success?
    requires WriteCheck(AttrStrategy(attribute, xlat), w.elements[el].tagName, key, w.models[m].data, resolve).Fail?
    ensures var r := BindOne(w, el, m, key, AttrStrategy(attribute, xlat), i18n, resolve);
      && r.outcome == WriteCheck(AttrStrategy(attribute, xlat), w.elements[el].tagName, key, w.models[m].data, resolve)
      && r.world.models[m] == Hear(w.models[m], key, w.nextEar)
      && r.world.elements == w.elements
  {
    var spec := NewAttrSpec(w.elements[el].tagName, attribute).value;
    var id := w.nextEar;
    var created := w.(ears := w.ears[id := AttrEar(el, spec.attribute, key, xlat, spec.checkURL)], nextEar := id + 1);
    var registered := created.(models := created.models[m := Hear(created.models[m], key, id)]);
    assert HearAndFire(created, m, key, id, i18n, resolve) == Fire(registered, id, w.models[m].data, i18n, resolve);
  }

  // ---------------------------------------------------------------- later changes

  /**
   * Every key of a completed `bindInner` call keeps the text current: on a
   * page holding the ears the call added (`EarsAdded`, which
   * `BindAllRegisters` establishes), the ear created for `ks[i]`, called
   * with the model's new state, shows the text derived from that state (with
   * the localizer in force then) and no children.
   */
  lemma InnerEarRerenders(before: map<EarId, Ear>, v: World, tagName: string, el: ElemId, ks: seq<Key>,
                          xlat: Option<Xlat>, base: EarId, i: nat, data: ModelData, i18n: Value -> string,
                          resolve: Resolver)
    requires EarsAdded(before, v.ears, InnerStrategy(xlat), tagName, el, ks, base) && el in v.elements && i < |ks|
    ensures base + i in v.ears && v.ears[base + i] == InnerTextEar(el, ks[i], xlat)
    ensures var f := Fire(v, base + i, data, i18n, resolve);
      && f.outcome.Pass?
      && f.world.ears == v.ears
      && f.world.elements[el].text == InnerTextValue(xlat, ks[i], data, i18n)
      && f.world.elements[el].children == []
  {
    assert MakeEar(InnerStrategy(xlat), tagName, el, ks[i]).Success?;
  }

  /**
   * Every key of a completed `bindReplace` call keeps the children current:
   * the ear created for `ks[i]`, called with a new state, leaves the element
   * alone on `NOPE` and otherwise replaces its children with what the
   * factory returns.
   */
  lemma ReplaceEarRerenders(before: map<EarId, Ear>, v: World, tagName: string, el: ElemId, ks: seq<Key>,
                            factory: ModelData -> Fragment, base: EarId, i: nat, data: ModelData,
                            i18n: Value -> string, resolve: Resolver)
    requires EarsAdded(before, v.ears, ReplaceStrategy(factory), tagName, el, ks, base) && el in v.elements && i < |ks|
    ensures base + i in v.ears && v.ears[base + i] == ReplacerEar(el, factory)
    ensures var f := Fire(v, base + i, data, i18n, resolve);
      && f.outcome.Pass?
      && f.world.ears == v.ears
      && (factory(data).Nope? ==> f.world.elements[el] == v.elements[el])
      && (factory(data).Many? ==> f.world.elements[el].text == "" && f.world.elements[el].children == factory(data).elements)
      && (factory(data).One? ==> f.world.elements[el].text == "" && f.world.elements[el].children == [factory(data).element])
  {
    assert MakeEar(ReplaceStrategy(factory), tagName, el, ks[i]).Success?;
  }

  /**
   * Every key of a completed `bindAttr` call keeps the attribute current:
   * the ear created for `ks[i]`, called with a new state, runs the protocol
   * check on the derived value and, when it passes, sets the lower-cased
   * attribute to it; when it throws, no element changes.
   */
  lemma AttrEarRerenders(before: map<EarId, Ear>, v: World, tagName: string, el: ElemId, ks: seq<Key>,
                         attribute: string, xlat: Option<Xlat>, base: EarId, i: nat, data: ModelData,
                         i18n: Value -> string, resolve: Resolver)
    requires EarsAdded(before, v.ears, AttrStrategy(attribute, xlat), tagName, el, ks, base) && el in v.elements
    requires i < |ks|
    ensures base + i in v.ears
    ensures var name := ToLower(attribute);
      var value := AttrValue(xlat, ks[i], data);
      var f := Fire(v, base + i, data, i18n, resolve);
      && f.outcome == CheckProtocol(name in UrlAttrs, name, value, resolve)
      && f.world.ears == v.ears
      && (f.outcome.Pass? ==> f.world.elements[el] == v.elements[el].(attrs := v.elements[el].attrs[name := value]))
      && (f.outcome.Fail? ==> f.world.elements == v.elements)
  {
    assert MakeEar(AttrStrategy(attribute, xlat), tagName, el, ks[i]).Success?;
  }

  // ---------------------------------------------------------------- scenarios

  /** A page with one element `0` of the given tag and one model `0` holding `data`. */
  function Page1(tagName: string, data: ModelData): (w: World)
    ensures 0 in w.elements && 0 in w.models && w.elements[0].tagName == tagName && w.models[0].data == data
    ensures CanRecord(w.elements[0]) && w.nextEar == 0
  {
    World(map[0 := Element(tagName, map[], "", [], Absent, false)], map[0 := Loud(data, map[])], map[], 0)
  }

  /** `h1.bindInner(model, "n")` on `{n: 11}` shows "11"; after `model.n = 22` the ear shows "22". */
  lemma InnerTextSimpleCase(resolve: Resolver)
    ensures var w := Page1("H1", map["n" := Num(11)]);
      var r := BindAll(w, 0, 0, ["n"], InnerStrategy(None), JsString, resolve);
      && r.outcome.Pass?
      && r.world.elements[0].text == "11"
      && Fire(r.world, w.nextEar, map["n" := Num(22)], JsString, resolve).world.elements[0].text == "22"
  {
    var w := Page1("H1", map["n" := Num(11)]);
    var s := InnerStrategy(None);
    assert ["n"][..0] == [] && ["n"][..1] == ["n"];
    assert BindAll(w, 0, 0, [], s, JsString, resolve) == Run(w, Pass);
    assert JsString(Num(11)) == "11" && JsString(Num(22)) == "22" by {
      assert Digits(11) == "11" && Digits(22) == "22";
    }
    hide BindAll, BindOne, JsString;
    BindAllNext(w, 0, 0, ["n"], 0, s, JsString, resolve);
    BindOneInnerText(w, 0, 0, "n", None, JsString, resolve);
  }

  /** After `i18nWith(f)`, a default `bindInner` renders with `f`. */
  lemma LocalizedInnerText(f: Value -> string, resolve: Resolver)
    ensures var w := Page1("H1", map["s" := Str("abc")]);
      BindAll(w, 0, 0, ["s"], InnerStrategy(None), f, resolve).world.elements[0].text == f(Str("abc"))
  {
    BindInnerRenders(Page1("H1", map["s" := Str("abc")]), 0, 0, ["s"], None, f, resolve);
  }

  /** With a derivation function over several keys, the text is that function of the whole model. */
  lemma MultipleKeysTranslate(xlat: Xlat, i18n: Value -> string, resolve: Resolver)
    ensures var w := Page1("H1", map["firstName" := Str("Anastasia"), "lastName" := Str("Beaverhausen")]);
      var r := BindAll(w, 0, 0, ["firstName", "lastName"], InnerStrategy(Some(xlat)), i18n, resolve);
      && r.outcome.Pass?
      && r.world.elements[0].text == xlat(w.models[0].data)
  {
    var w := Page1("H1", map["firstName" := Str("Anastasia"), "lastName" := Str("Beaverhausen")]);
    BindInnerRenders(w, 0, 0, ["firstName", "lastName"], Some(xlat), i18n, resolve);
  }

  /** `iframe.bindInner(model, "n")` and `script.bindReplace(model, "n", factory)` throw the tag error. */
  lemma TagErrorScenarios(factory: ModelData -> Fragment, i18n: Value -> string, resolve: Resolver)
    ensures var w := Page1("IFRAME", map["n" := Num(11)]);
      BindAll(w, 0, 0, ["n"], InnerStrategy(None), i18n, resolve)
        == Run(w, Fail(XSSError("XSS: no bindings allowed on " + "IFRAME" + " tag.")))
    ensures var w := Page1("SCRIPT", map["n" := Num(11)]);
      BindAll(w, 0, 0, ["n"], ReplaceStrategy(factory), i18n, resolve)
        == Run(w, Fail(XSSError("XSS: no bindings allowed on " + "SCRIPT" + " tag.")))
  {
    var w1 := Page1("IFRAME", map["n" := Num(11)]);
    var w2 := Page1("SCRIPT", map["n" := Num(11)]);
    assert CheckTag("IFRAME").Fail? && CheckTag("SCRIPT").Fail?;
    hide *;
    BindAllRejected(w1, 0, 0, ["n"], InnerStrategy(None), i18n, resolve);
    BindAllRejected(w2, 0, 0, ["n"], ReplaceStrategy(factory), i18n, resolve);
  }

  /** `script.bindAttr("data-test", model, "n")` throws the tag error and changes nothing. */
  lemma AttrIllegalTag(xlat: Option<Xlat>, i18n: Value -> string, resolve: Resolver)
    ensures var w := Page1("SCRIPT", map["n" := Num(11)]);
      BindAll(w, 0, 0, ["n"], AttrStrategy("data-test", xlat), i18n, resolve)
        == Run(w, Fail(XSSError("XSS: no bindings allowed on " + "SCRIPT" + " tag.")))
  {
    var w := Page1("SCRIPT", map["n" := Num(11)]);
    var s := AttrStrategy("data-test", xlat);
    assert ConstructionError(s, "SCRIPT") == Fail(XSSError("XSS: no bindings allowed on " + "SCRIPT" + " tag."));
    hide *;
    BindAllRejected(w, 0, 0, ["n"], s, i18n, resolve);
  }

  /** `img.bindAttr("onerror", model, "n")` throws a plain `Error` and changes nothing. */
  lemma AttrEventHandler(xlat: Option<Xlat>, i18n: Value -> string, resolve: Resolver)
    ensures var w := Page1("IMG", map["n" := Num(11)]);
      BindAll(w, 0, 0, ["n"], AttrStrategy("onerror", xlat), i18n, resolve)
        == Run(w, Fail(PlainError("XSS: not allowing binding to " + "onerror" + " event handler.")))
  {
    var w := Page1("IMG", map["n" := Num(11)]);
    var s := AttrStrategy("onerror", xlat);
    assert ToLower("onerror") == "onerror";
    assert CheckTag("IMG").Pass? && IsEventHandlerName("onerror");
    assert ConstructionError(s, "IMG") == Fail(PlainError("XSS: not allowing binding to " + "onerror" + " event handler."));
    hide *;
    BindAllRejected(w, 0, 0, ["n"], s, i18n, resolve);
  }

  /** The checks of `img.bindAttr("src", ...)` for a value resolving to `javascript:`. */
  lemma JavascriptSrcRefused(data: ModelData, resolve: Resolver)
    requires data == map["url" := Str("javascript:alert(1)")]
    requires resolve("javascript:alert(1)") == Some("javascript:")
    ensures NewAttrSpec("IMG", "src").Success?
    ensures WriteCheck(AttrStrategy("src", None), "IMG", "url", data, resolve)
         == Fail(XSSError("XSS: not allowing " + "javascript:" + " protocol in a " + "src" + " attribute."))
  {
    SrcSpec();
    assert Lookup(data, "url") == Str("javascript:alert(1)");
    hide NewAttrSpec, ToLower, CheckTag, JsString, Lookup;
  }

  /** `src` on an `IMG`: allowed, stored as it is, and checked as a URL. */
  lemma SrcSpec()
    ensures NewAttrSpec("IMG", "src") == Success(AttrSpec("src", true))
  {
    assert ToLower("src") == "src";
    assert CheckTag("IMG").Pass? && !IsEventHandlerName("src");
  }

  /**
   * `img.bindAttr("src", model, "url")` on a `javascript:` URL throws the
   * protocol error; the ear it registered stays with the model.
   */
  lemma AttrUnsafeProtocol(i18n: Value -> string, resolve: Resolver)
    requires resolve("javascript:alert(1)") == Some("javascript:")
    ensures var w := Page1("IMG", map["url" := Str("javascript:alert(1)")]);
      var r := BindAll(w, 0, 0, ["url"], AttrStrategy("src", None), i18n, resolve);
      && r.outcome == Fail(XSSError("XSS: not allowing " + "javascript:" + " protocol in a " + "src" + " attribute."))
      && Listeners(r.world.models[0], "url") == [0]
  {
    var data := map["url" := Str("javascript:alert(1)")];
    var w := Page1("IMG", data);
    JavascriptSrcRefused(data, resolve);
    assert Listeners(w.models[0], "url") == [] && w.nextEar == 0;
    hide *;
    UnsafeFirstWriteLeavesEar(w, 0, 0, ["url"], "src", None, i18n, resolve);
  }

  /** The checks of `div.bindAttr("data-test", model, "n")`: none of them throws. */
  lemma DataTestChecks(e: Element, data: ModelData, resolve: Resolver)
    requires e.tagName == "DIV" && CanRecord(e)
    ensures ToLower("data-test") == "data-test"
    ensures AllPass(AttrStrategy("data-test", None), e, ["n"], data, resolve)
  {
    assert ToLower("data-test") == "data-test";
    assert CheckTag("DIV").Pass? && !IsEventHandlerName("data-test");
    assert NewAttrSpec("DIV", "data-test") == Success(AttrSpec("data-test", false));
  }

  /** `div.bindAttr("data-test", model, "n")` on `{n: 111}` sets the attribute to "111". */
  lemma AttrSimpleCase(i18n: Value -> string, resolve: Resolver)
    ensures var w := Page1("DIV", map["n" := Num(111)]);
      var r := BindAll(w, 0, 0, ["n"], AttrStrategy("data-test", None), i18n, resolve);
      && r.outcome.Pass?
      && "data-test" in r.world.elements[0].attrs
      && r.world.elements[0].attrs["data-test"] == "111"
  {
    var data := map["n" := Num(111)];
    var w := Page1("DIV", data);
    DataTestChecks(w.elements[0], data, resolve);
    assert AttrValue(None, "n", data) == "111" by {
      assert Digits(111) == "111";
    }
    hide *;
    BindAttrRenders(w, 0, 0, ["n"], "data-test", None, i18n, resolve);
  }

  /** Then `model.n = 222`: the ear `bindAttr` registered sets the attribute to "222". */
  lemma AttrSimpleCaseUpdate(i18n: Value -> string, resolve: Resolver)
    ensures var w := Page1("DIV", map["n" := Num(111)]);
      var r := BindAll(w, 0, 0, ["n"], AttrStrategy("data-test", None), i18n, resolve).world;
      && 0 in r.ears
      && var f := Fire(r, 0, map["n" := Num(222)], i18n, resolve);
         && f.outcome.Pass?
         && "data-test" in f.world.elements[0].attrs
         && f.world.elements[0].attrs["data-test"] == "222"
  {
    hide *;
    var w := Page1("DIV", map["n" := Num(111)]);
    var s := AttrStrategy("data-test", None);
    var data := map["n" := Num(222)];
    AttrSimpleCase(i18n, resolve);
    BindAllEars(w, 0, 0, ["n"], s, i18n, resolve);
    DataTestWrite(data);
    var r := BindAll(w, 0, 0, ["n"], s, i18n, resolve).world;
    AttrEarRerenders(w.ears, r, "DIV", 0, ["n"], "data-test", None, 0, 0, data, i18n, resolve);
  }

  /** What the ear of `div.bindAttr("data-test", model, "n")` writes on `{n: 222}`. */
  lemma DataTestWrite(data: ModelData)
    requires data == map["n" := Num(222)]
    ensures ToLower("data-test") == "data-test" && "data-test" !in UrlAttrs
    ensures AttrValue(None, "n", data) == "222"
  {
    assert ToLower("data-test") == "data-test";
    assert Digits(222) == "222";
  }

  /**
   * Then `model.firstName = "Karen"` and `model.lastName = "Walker"`: each
   * change calls the ear created for its key, and each time the text is the
   * derivation function of the whole new state.
   */
  lemma MultipleKeysUpdate(xlat: Xlat, d1: ModelData, d2: ModelData, i18n: Value -> string, resolve: Resolver)
    ensures var w := Page1("H1", map["firstName" := Str("Anastasia"), "lastName" := Str("Beaverhausen")]);
      var r := BindAll(w, 0, 0, ["firstName", "lastName"], InnerStrategy(Some(xlat)), i18n, resolve).world;
      && Listeners(r.models[0], "firstName") == [0]
      && Listeners(r.models[0], "lastName") == [1]
      && 0 in r.ears && 1 in r.ears
      && var f1 := Fire(r, 0, d1, i18n, resolve).world;
         && f1.elements[0].text == xlat(d1)
         && 1 in f1.ears
         && Fire(f1, 1, d2, i18n, resolve).world.elements[0].text == xlat(d2)
  {
    var w := Page1("H1", map["firstName" := Str("Anastasia"), "lastName" := Str("Beaverhausen")]);
    var ks := ["firstName", "lastName"];
    var s := InnerStrategy(Some(xlat));
    MultipleKeysTranslate(xlat, i18n, resolve);
    BindAllRegisters(w, 0, 0, ks, s, i18n, resolve);
    ListenersOfDistinctKeys(w, ks);
    hide *;
    var r := BindAll(w, 0, 0, ks, s, i18n, resolve).world;
    InnerEarRerenders(w.ears, r, "H1", 0, ks, Some(xlat), 0, 0, d1, i18n, resolve);
    var f1 := Fire(r, 0, d1, i18n, resolve).world;
    InnerEarRerenders(w.ears, f1, "H1", 0, ks, Some(xlat), 0, 1, d2, i18n, resolve);
  }

  /** The `HearAll` of two different keys on a model nobody hears yet. */
  lemma ListenersOfDistinctKeys(w: World, ks: seq<Key>)
    requires ks == ["firstName", "lastName"] && 0 in w.models && w.models[0] == Loud(w.models[0].data, map[])
    ensures Listeners(HearAll(w.models[0], ks, 0), "firstName") == [0]
    ensures Listeners(HearAll(w.models[0], ks, 0), "lastName") == [1]
  {
    var first := ks[..1];
    assert first == ["firstName"] && first[..0] == [];
    assert "firstName" != "lastName" by {
      assert "firstName"[0] != "lastName"[0];
    }
    assert EarsFor(first, "firstName", 0) == [0] && EarsFor(first, "lastName", 0) == [];
    assert EarsFor(ks, "firstName", 0) == [0] && EarsFor(ks, "lastName", 0) == [1];
    HearAllListeners(w.models[0], ks, 0, "firstName");
    HearAllListeners(w.models[0], ks, 0, "lastName");
  }

  /**
   * `div.bindReplace(model, "n", factory)` with a factory that makes `n`
   * children: one child on `{n: 1}`, then two after `model.n = 2`.
   */
  lemma ReplaceMultipleChildren(factory: ModelData -> Fragment, i18n: Value -> string, resolve: Resolver)
    requires factory(map["n" := Num(1)]).Many? && |factory(map["n" := Num(1)]).elements| == 1
    requires factory(map["n" := Num(2)]).Many? && |factory(map["n" := Num(2)]).elements| == 2
    ensures var w := Page1("DIV", map["n" := Num(1)]);
      var r := BindAll(w, 0, 0, ["n"], ReplaceStrategy(factory), i18n, resolve);
      && r.outcome.Pass?
      && |r.world.elements[0].children| == 1
      && 0 in r.world.ears
      && |Fire(r.world, 0, map["n" := Num(2)], i18n, resolve).world.elements[0].children| == 2
  {
    var w := Page1("DIV", map["n" := Num(1)]);
    var s := ReplaceStrategy(factory);
    assert CheckTag("DIV").Pass?;
    BindReplaceRenders(w, 0, 0, ["n"], factory, i18n, resolve);
    BindAllEars(w, 0, 0, ["n"], s, i18n, resolve);
    hide *;
    var r := BindAll(w, 0, 0, ["n"], s, i18n, resolve).world;
    ReplaceEarRerenders(w.ears, r, "DIV", 0, ["n"], factory, 0, 0, map["n" := Num(2)], i18n, resolve);
  }
}
