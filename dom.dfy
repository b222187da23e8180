/**
 * The abstract state the binding engine reads and writes: elements (with
 * the hidden registry slot and linger flag), bindings, ears and the whole
 * page as a side table keyed by identity.
 */
module Dom {
  import opened Wrappers
  import opened Values
  import opened Sanitize
  import opened Observable

  type ElemId = nat
  type ModelId = nat

  /** One subscription: a weak model reference, the watched key, and the ear registered for it. */
  datatype Binding = Binding(model: ModelId, key: Key, ear: EarId)

  /**
   * The element's `bindingsSymbol` property: never set, set to `undefined`
   * by cleanup (the property stays present), or holding the binding list.
   */
  datatype Slot = Absent | Cleared | Listed(bindings: seq<Binding>)

  /** The bindings a slot holds; a cleared slot holds none. */
  function BindingsOf(slot: Slot): seq<Binding>
  {
    if slot.Listed? then slot.bindings else []
  }

  datatype Element = Element(
    tagName: string,
    attrs: map<string, string>,
    text: string,
    children: seq<ElemId>,
    slot: Slot,    // bindingsSymbol
    linger: bool)  // lingerSymbol in element

  /** What a replacement factory returns: the `NOPE` sentinel, an array of elements, or one element. */
  datatype Fragment = Nope | Many(elements: seq<ElemId>) | One(element: ElemId)

  /** A derivation function over the model's current state. */
  type Xlat = ModelData -> string

  /** The `onChange` closure of one `InnerText`, `Replacer` or `Attr` object, with what it closes over. */
  datatype Ear =
    | InnerTextEar(element: ElemId, key: Key, xlat: Option<Xlat>)
    | ReplacerEar(element: ElemId, factory: ModelData -> Fragment)
    | AttrEar(element: ElemId, attribute: string, key: Key, xlat: Option<Xlat>, checkURL: bool)

  /** Which of the `InnerText`, `Replacer` and `Attr` objects a `bind*` entry point constructs per key. */
  datatype Strategy =
    | InnerStrategy(xlat: Option<Xlat>)
    | ReplaceStrategy(factory: ModelData -> Fragment)
    | AttrStrategy(attribute: string, xlat: Option<Xlat>)

  /** A key, or a list of keys, as the `bind*` entry points accept it. */
  datatype Keys = OneKey(key: Key) | KeyList(keys: seq<Key>)

  /** The page: every live element and model, and every ear ever created. */
  datatype World = World(
    elements: map<ElemId, Element>,
    models: map<ModelId, Loud>,
    ears: map<EarId, Ear>,
    nextEar: EarId)

  /** The state after an operation and whether it completed or threw; a throw does not undo earlier writes. */
  datatype Run = Run(world: World, outcome: Outcome<Error>)

  /** Setting `innerText`: the text replaces every child. */
  function SetInnerText(e: Element, text: string): Element
  {
    e.(text := text, children := [])
  }

  /** `setAttribute(name, value)`. */
  function SetAttribute(e: Element, name: string, value: string): Element
  {
    e.(attrs := e.attrs[name := value])
  }

  /** `replaceChildren(...nodes)`: the old children, text included, are gone. */
  function ReplaceChildren(e: Element, nodes: seq<ElemId>): Element
  {
    e.(text := "", children := nodes)
  }
}
