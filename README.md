# loudo-bind: a verified model of the binding engine

loudo-bind adds three data-binding methods to every `HTMLElement`. Each one ties part of an element to one or more keys of an observable model (a loudify `Loud` object):

- `bindInner` sets the element's text;
- `bindReplace` sets its children, from a factory;
- `bindAttr` sets one attribute.

Every binding is guarded against cross-site scripting:

- no bindings on `SCRIPT`, `STYLE` or `IFRAME`;
- no binding to an `on…` event-handler attribute;
- a URL attribute accepts only `http:` and `https:` values.

Each element keeps a hidden registry of the bindings made on it. A `MutationObserver` unsubscribes those ears when the element is removed from the page, unless the element was flagged to linger before the bindings were added. Only the elements a mutation record lists in `removedNodes` are cleaned (index.ts:29-30). The descendants of a removed element leave the page with it but keep their subscriptions.

This project models that engine (`index.ts`) in Dafny and proves what it does.

- `wrappers.dfy`: `Option`, `Outcome` (pass or throw) and `Result`.
- `values.dfy`: model values, `object[key]`, and `String(value)`, which is both the default localizer and the default attribute derivation.
- `sanitize.dfy`: the gate.
  - `checkTag` and its deny-list.
  - The `Attr` constructor's checks: lower-casing, the `on` prefix, and the seven URL attributes.
  - The write-time protocol check.
- `observable.dfy`: a model's listener table. `hear(key, ear)` appends; `stopHearing(ear)` removes the ear everywhere.
- `dom.dfy`: the page state.
  - Elements carry their tag, attributes, text, children, registry slot and linger flag.
  - Bindings, ears and strategies (which of the `InnerText`, `Replacer` and `Attr` objects a `bind*` method builds).
  - The registry slot has three states: absent, cleared (`undefined`, with the property still present), and a list.
- `engine.dfy`: the engine as functions over the page state, with lemmas about them.
  - The three `onChange` callbacks, `addBinding` and the linger setter.
  - One iteration of a `bind*` loop (`BindOne`) and the whole loop (`BindAll`).
  - The observer's cleanup of one removed node (`CleanNode`) and of a batch (`CleanNodes`).
- `page.dfy`: class `Page`, the page updated in place. Its methods are the callbacks, `addBinding`, the `bind*` loops, the linger setter, `i18nWith` and the observer's nested loops, plus `document.createElement` and `loudify` to fill the page. Each method that has a matching `Engine` function is proved to reach exactly the state that function gives. `CreateElement`, `AddModel` and `I18nWith` have none and state their new state directly.
- `rendering.dfy`: what a `bind*` call leaves on the element, what its ears do on a later change, and the scenarios of `index.test.ts`.
- `prototypes.dfy`: how the module installs its methods on `HTMLElement.prototype`, including the defect listed under Findings.

An exception never undoes what ran before it. A `Run` is the state at the throw together with the error, and the model keeps that state. In particular, `hear` has already registered an ear when that ear's first write throws, or when `addBinding` throws. That ear stays subscribed with no binding recording it (`Engine.RebindAfterCleanupThrows`, `Rendering.UnsafeFirstWriteLeavesEar`).

Assumptions about code outside `index.ts`:

- loudify's `hear(key, ear)` registers the ear and then calls it once with the model's current state. The tests show this first write at bind time (index.test.ts:22-23, 84-85). `Engine.HearAndFire` states it as an assumption.
- `stopHearing(ear)` removes the ear from the listeners of every key.
- `new URL(value, document.location.href).protocol` is an outside function, `Resolver`. `None` stands for a URL the constructor rejects.
- A `WeakRef` that no longer resolves is an id missing from the page's element or model map.

## Model

| member | source | states |
|---|---|---|
| Sanitize.CheckTag | index.ts:49-55 | Throws exactly when the tag name is `SCRIPT`, `STYLE` or `IFRAME`, with the `XSSError` message naming the tag. |
| Sanitize.ToLower | index.ts:191 | `toLowerCase` keeps the length, lowers every ASCII capital, and leaves no capital behind. |
| Sanitize.ToUpper | index.test.ts:7-8 | The `tagName` of an element created under a name keeps the length, capitalises every ASCII small letter, and leaves no small letter behind (`script` gives `SCRIPT`). |
| Sanitize.UpperMatchesIgnoringCase | index.test.ts:7-8 | Upper-casing a name gives an all-capitals name exactly when the two are equal once both are lower-cased. |
| Sanitize.CreatedTagRefused | index.ts:49-55 | An element created under any spelling of `script`, `style` or `iframe` is refused by `checkTag`, and one created under any other name is not. |
| Sanitize.LoweredPrefixIsCaseInsensitive | index.ts:191-192 | Testing the lower-cased name for `on` is the same as a case-insensitive test of the original name (`onError` is refused too). |
| Sanitize.NewAttrSpec | index.ts:189-200 | The constructor fails exactly when the tag is denied or the name is an event handler; the tag check comes first. A plain `Error` names the lower-cased attribute. On success it stores the lower-cased name, and `checkURL` holds exactly when that name is in the seven URL attributes. |
| Sanitize.CheckProtocol | index.ts:205-210 | The write check passes exactly when the attribute is not a URL attribute or the value resolves to `http:` or `https:`. Any other protocol throws the `XSSError` that names the protocol and the attribute. |
| Values.JsString | index.ts:3-5 | `String()` of a string is that string; of any other value it is non-empty, and for an integer it starts with `-` exactly when the integer is negative. `Values.NumberStringRoundTrip` carries the round trip. |
| Values.NumberStringRoundTrip | index.ts:3-5 | `String()` of an integer reads back as the same integer. |
| Values.DigitsRoundTrip | index.ts:3-5 | The decimal digits of a natural number read back as that number. |
| Observable.Hear | index.ts:117 | `hear(key, ear)` appends the ear to that key's listeners. No other key and no data change. |
| Observable.StopHearing | index.ts:33 | After `stopHearing(ear)` the model hears that ear for no key. Every other ear stays registered for the keys it had, and the data do not change. |
| Observable.StopHearingOnlyRemoves | index.ts:33 | Stopping an ear never makes the model hear an ear it did not hear before. |
| Observable.HearAllListeners | index.ts:115-124 | Hearing one ear per key leaves each key with its old listeners followed by the ears created for it, in order. The data do not change. |
| Observable.EarsForMembers | index.ts:115-124 | The ear created for position `i` listens to a key exactly when `ks[i]` is that key. |
| Engine.InnerTextOnChange | index.ts:93-102 | A gone element is left alone. Otherwise its text becomes `xlat(object)`, or the localizer applied to `object[key]`, and its children are gone. No other element changes. |
| Engine.ReplacerOnChange | index.ts:140-152 | A gone element is left alone. `NOPE` changes nothing, an array becomes the children in order, and one element becomes the only child. No other element changes. |
| Engine.AttrOnChange | index.ts:202-212 | The protocol check runs whether or not the element is alive. If it throws, nothing is written; otherwise exactly that one attribute of the live element is set to the derived value. No other element changes. |
| Engine.HearAndFire | index.ts:117 | `model.hear(key, ear)`: the model gains the ear at the end of that key's listeners and no other model changes. Then the ear is called once with the model's state, which is the stated assumption about loudify: the outcome and the elements are exactly those of `Engine.Fire` on that state, so registering the ear does not change what it does. Ears do not change, and no element other than the ear's own does. |
| Engine.Fire | index.ts:93-212 | Calling an ear runs its own callback: an `InnerText` ear passes and leaves the elements `InnerTextOnChange` gives (index.ts:93-102), a `Replacer` ear passes and leaves those `ReplacerOnChange` gives (index.ts:140-152), and an `Attr` ear leaves the elements and the outcome `AttrOnChange` gives (index.ts:202-212). It changes only its own element, and never that element's tag, registry slot or linger flag. Models and ears do not change. |
| Engine.AddToSlot | index.ts:65-77 | With the linger flag the element is unchanged. An absent slot becomes a one-binding list, and a list gains the binding at its end. A cleared slot makes `push` throw. |
| Engine.Linger | index.ts:240-241 | The linger setter sets the flag and changes nothing else. |
| Engine.KeyListOf | index.ts:112-114 | A single key becomes a one-element list; a list is kept as it is. |
| Engine.ConstructionError | index.ts:86-194 | Construction of `InnerText` (index.ts:86-91) or `Replacer` (index.ts:134-138) fails exactly as `checkTag` does. Construction of `Attr` (index.ts:189-194) fails exactly as the `Attr` constructor does. |
| Engine.MakeEar | index.ts:189-200 | Construction fails exactly when `ConstructionError` throws, with that error. Otherwise the ear is the `onChange` of the strategy's object for that element and key. For `Attr` it holds the lower-cased name, and `checkURL` holds exactly when that name is one of the seven URL attributes. |
| Engine.BindOneOutcome | index.ts:226-234 | One iteration completes exactly when construction passes, the first write passes its check, and the registry can take a binding. |
| Engine.BindOneEffect | index.ts:115-124 | A completed iteration creates one ear, under the next id: the `onChange` of the object `MakeEar` builds for the key. Every earlier ear is kept. The model hears the new ear for the key, and the slot gains one binding unless the element lingers. No other model or element changes. |
| Engine.BindAllFailureStays | index.ts:115-124 | Once an iteration throws, the later keys change nothing. |
| Engine.BindAllRejected | index.ts:226-228 | A rejected tag or attribute name throws at the first key, before any `hear` or registry change. The page is left exactly as it was. |
| Engine.BindAllRegisters | index.ts:115-124 | A completed call creates ears `base .. base + n - 1` and no others. Ear `base + i` is the `onChange` of the object `MakeEar` builds for `ks[i]`, every earlier ear is kept, and the model hears ear `base + i` for `ks[i]`. The registry gains exactly those bindings at its end, unless the element lingers. No other model or element changes. |
| Engine.BindAllCompletes | index.ts:223-236 | A call completes exactly when there are no keys, or when construction passes, the registry can take a binding, and every key's first write passes. |
| Engine.RebindAfterCleanupThrows | index.ts:70-76 | Binding again after cleanup throws from `push` on `undefined`. The first ear is already subscribed and recorded nowhere. |
| Engine.BindOne | index.ts:226-234 | One loop iteration keeps the sets of elements and models. `Engine.BindOneOutcome` and `Engine.BindOneEffect` carry when it completes and what it leaves. |
| Engine.BindAll | index.ts:223-236 | The key loop keeps the sets of elements and models. `Engine.BindAllCompletes`, `Engine.BindAllRegisters`, `Engine.BindAllRejected` and `Engine.BindAllFailureStays` carry the rest. |
| Engine.StopAll | index.ts:32-34 | The binding loop keeps every model and its data. `Engine.StopAllSilences`, `Engine.StopAllOnlyRemoves` and `Engine.StopAllKeeps` carry which listeners go and which stay. |
| Engine.StopAllOnlyRemoves | index.ts:32-34 | Stopping a list of bindings only ever removes listeners. |
| Engine.StopAllSilences | index.ts:32-34 | After the loop, no live model hears any of the bindings' ears. |
| Engine.StopAllKeeps | index.ts:32-34 | An ear that no binding of the list names for a model stays registered for exactly the keys it had. |
| Engine.CleanNode | index.ts:30-36 | The work on one removed node keeps the elements, models and ears. It throws exactly when the node's slot was already cleared, and then changes nothing. |
| Engine.CleanNodes | index.ts:28-38 | The work on the removed nodes keeps the sets of elements and models, and the ears. `Engine.CleanNodesUnsubscribes` and `Engine.CleanNodesFailureStays` carry the rest. |
| Engine.CleanNodesUnsubscribes | index.ts:27-39 | A completed cleanup clears the slot of every removed node that had one. Each ear those slots record is unsubscribed from its binding's model, if that model is alive. Nodes without a slot, descendants and other elements are untouched. No model gains a listener. Every ear that the removed nodes' registries do not record for a model stays registered there for exactly the keys it had. |
| Engine.CleanNodesFailureStays | index.ts:28-38 | Once one node throws, the rest of the batch changes nothing. |
| Engine.CleanupStops | index.ts:28-38 | A throw at any node of any mutation record ends the whole callback there. |
| Engine.RemovedTwiceThrows | index.ts:30-35 | A node delivered again after its slot was cleared makes the callback throw (`for … of undefined`). |
| Engine.LingeringElementIsCleaned | index.ts:27-39 | The linger flag does not protect bindings recorded before it was set: they are still unsubscribed. |
| Engine.DescendantKeepsBindings | index.ts:29-36 | When a parent is removed with its child, only the listed parent is cleaned. The child's registry is unchanged and its ear stays subscribed, while the parent's ear is unsubscribed. |
| Engine.LingeringBindingsSurviveRemoval | index.ts:65-68 | An element flagged to linger before it is bound records nothing, so its removal changes nothing. Every ear of the call stays subscribed for its key and stays the `onChange` of the object built for it. |
| PageState.Page.constructor | index.ts:3-5 | The page starts empty, and the localizer is `String(value)`. |
| PageState.Page.CreateElement | index.test.ts:7-8 | `document.createElement(name)` adds a new element under an unused id. Its `tagName` is the name upper-cased, and it has no attributes, text or children, and no registry. Nothing else changes, and every id in use stays below the counters. |
| PageState.IframeRefusesBinding | index.test.ts:77-81 | On a fresh page, `document.createElement("iframe").bindInner(model, "n")` throws the tag error naming `IFRAME`. |
| PageState.Page.AddModel | index.test.ts:21 | `loudify(data)` adds a new model under an unused id, holding `data` with no listeners. Nothing else changes, and every id in use stays below the counters. |
| PageState.Page.I18nWith | index.ts:7-9 | `i18nWith` replaces the localizer and changes nothing already rendered. |
| PageState.Page.InnerTextOnChange | index.ts:93-102 | The in-place callback reaches exactly `Engine.InnerTextOnChange`'s elements and changes nothing else. |
| PageState.Page.ReplacerOnChange | index.ts:140-152 | The in-place callback reaches exactly `Engine.ReplacerOnChange`'s elements and changes nothing else. |
| PageState.Page.AttrOnChange | index.ts:202-212 | The in-place callback reaches exactly `Engine.AttrOnChange`'s elements and outcome, and changes nothing else. |
| PageState.Page.Fire | index.ts:93-212 | Calling an ear in place reaches exactly `Engine.Fire`'s state and outcome. |
| PageState.Page.HearAndFire | index.ts:117 | `model.hear` in place: the ear is registered and called once, as `Engine.HearAndFire` says. |
| PageState.Page.AddBinding | index.ts:65-77 | `addBinding` in place reaches exactly `Engine.AddToSlot`'s element, or its exception with the page unchanged. |
| PageState.Page.BindOne | index.ts:226-234 | One loop iteration in place reaches exactly `Engine.BindOne`'s state and outcome. |
| PageState.Page.Bind | index.ts:223-236 | The key loop in place ends in exactly `Engine.BindAll`'s state and outcome, and on completion returns the element itself. |
| PageState.Page.BindInner | index.ts:106-126 | `bindInner` is the key loop with the `InnerText` object. |
| PageState.Page.BindReplace | index.ts:156-176 | `bindReplace` is the key loop with the `Replacer` object. |
| PageState.Page.BindAttr | index.ts:216-237 | `bindAttr`, as first defined, is the key loop with the `Attr` object. |
| PageState.Page.LingerBindings | index.ts:239-242 | The linger setter flags the element and returns it; nothing else changes. |
| PageState.Page.StopBindings | index.ts:32-34 | The binding loop leaves exactly the models that `Engine.StopAll` gives, and no element changes. |
| PageState.Page.CleanNode | index.ts:30-36 | The observer's work on one node in place reaches exactly `Engine.CleanNode`'s state and outcome. |
| PageState.Page.Cleanup | index.ts:27-39 | The observer's nested loops over a batch end in exactly `Engine.CleanNodes` over the batch's removed nodes in order. |
| Rendering.TagOnlyAllPass | index.ts:86-91 | For `bindInner` and `bindReplace`, an allowed tag and a registry that can take a binding are all a call needs to complete. |
| Rendering.BindOneInnerText | index.ts:115-124 | One `bindInner` iteration on an allowed tag completes and shows the derived text. The attributes are unchanged, and the new ear is that key's `InnerText` ear. |
| Rendering.BindOneReplace | index.ts:165-174 | One `bindReplace` iteration on an allowed tag completes and applies the factory's result (`NOPE`, an array, or one element). |
| Rendering.BindOneAttr | index.ts:226-234 | One `bindAttr` iteration whose checks pass sets the lower-cased attribute to the derived value. Text and children are unchanged. |
| Rendering.BindOneUnsafe | index.ts:227-228 | When the first write is refused, the ear is already heard, the error is thrown, and no element changes. |
| Rendering.BindInnerRenders | index.ts:106-126 | After `bindInner` on an allowed tag, the element shows the text derived for the last key and has no children. |
| Rendering.BindReplaceRenders | index.ts:156-176 | After `bindReplace` on an allowed tag, a factory returning elements leaves exactly those elements, in order, as the children. |
| Rendering.BindAttrRenders | index.ts:216-237 | After a `bindAttr` call whose checks all pass, the lower-cased attribute holds the value derived for the last key. |
| Rendering.InnerEarRerenders | index.ts:93-102 | On any page that holds the ears a `bindInner` call added, ear `base + i` is the `onChange` of the `InnerText` object for `ks[i]`. Calling it with a new state makes the element show the text derived from that state, with the localizer in force then, and no children. Ears do not change. |
| Rendering.ReplaceEarRerenders | index.ts:140-152 | On any page that holds the ears a `bindReplace` call added, ear `base + i` is the `Replacer` for the element. Calling it with a new state leaves the element alone on `NOPE`. Otherwise the element's children become what the factory returns for that state. Ears do not change. |
| Rendering.AttrEarRerenders | index.ts:202-212 | On any page that holds the ears a `bindAttr` call added, calling ear `base + i` with a new state runs the protocol check on the value derived from that state. When the check passes, the lower-cased attribute is set to that value; when it throws, no element changes. Ears do not change. |
| Rendering.UnsafeFirstWriteLeavesEar | index.ts:226-234 | When the first key's write is refused, the call throws that error. The model keeps the new ear for that key, and no element changes. |
| Rendering.InnerTextSimpleCase | index.test.ts:82-88 | `h1.bindInner(model, "n")` on `{n: 11}` shows "11". The ear then shows "22" for `n = 22`. |
| Rendering.MultipleKeysTranslate | index.test.ts:89-97 | With keys `firstName` and `lastName` and a derivation function, the text is that function of the model. |
| Rendering.LocalizedInnerText | index.test.ts:103-109 | After `i18nWith(f)`, a default `bindInner` renders `f` of the property. |
| Rendering.TagErrorScenarios | index.test.ts:77-81 | `iframe.bindInner` (and `script.bindReplace`, index.test.ts:48-52) throw the tag error and change nothing. |
| Rendering.AttrIllegalTag | index.test.ts:5-9 | `script.bindAttr("data-test", …)` throws the tag error and changes nothing. This runs the attribute binder of index.ts:216-237, which the assignment at index.ts:239 overwrites (see Findings). |
| Rendering.AttrEventHandler | index.test.ts:10-14 | `img.bindAttr("onerror", …)` throws the plain `Error` and changes nothing. This runs the attribute binder of index.ts:216-237, which the assignment at index.ts:239 overwrites (see Findings). |
| Rendering.AttrUnsafeProtocol | index.test.ts:15-19 | `img.bindAttr("src", …)` on `javascript:alert(1)` throws the protocol error, and the ear stays subscribed. This runs the attribute binder of index.ts:216-237, which the assignment at index.ts:239 overwrites (see Findings). |
| Rendering.AttrSimpleCase | index.test.ts:20-23 | `div.bindAttr("data-test", model, "n")` on `{n: 111}` sets the attribute to "111". This runs the attribute binder of index.ts:216-237, which the assignment at index.ts:239 overwrites (see Findings). |
| Rendering.AttrSimpleCaseUpdate | index.test.ts:24-25 | Then `model.n = 222`: the ear that call registered sets the attribute to "222". |
| Rendering.MultipleKeysUpdate | index.test.ts:98-101 | With keys `firstName` and `lastName`, the model hears ear 0 for `firstName` and ear 1 for `lastName`. Calling ear 0 with a new state shows the derivation function of that state; calling ear 1 after it with another state shows the function of that one. |
| Rendering.ReplaceMultipleChildren | index.test.ts:60-73 | With a factory that makes `n` children, `bindReplace` on `{n: 1}` leaves one child, and the ear called for `{n: 2}` leaves two. |
| Prototypes.InstallDefines | index.ts:106-242 | After the prototype assignments, a name is defined exactly when some assignment names it or it was defined before. |
| Prototypes.InstallLastWins | index.ts:216-242 | The last assignment to a name decides its value. |
| Prototypes.BindAttrIsOverwritten | index.ts:239-242 | As written, `bindAttr` ends up as the linger setter: nothing can bind an attribute, and `lingerBindings` is undefined. |
| Prototypes.IntendedPrototypeResolves | index.ts:15-22 | With the setter assigned to `lingerBindings`, each declared method is defined as its own operation. |

## Left out

- DOM primitives are not modelled as code. `innerText`, `setAttribute` and `replaceChildren` are updates of the abstract element, and `replaceChildren` does not move a node out of its previous parent or reject an ancestor.
- Dom.ReplaceChildren: keeps every copy of an element the factory returns more than once. The DOM's `replaceChildren` leaves only one copy of a repeated node.
- `MutationObserver` is not modelled. The asynchronous batching of records and the `observe(document.body, …)` call are left out. The callback is a method over a batch of records, each given by its removed nodes.
- Only the `hear` and `stopHearing` calls of loudify are modelled. Its change notification is left out.
- The first write at `hear` time is an assumption (see above).
- The URL parser is an outside function `Resolver`. Relative-URL resolution is not modelled.
- `WeakRef` and garbage collection are not modelled. A collected element or model is an id missing from the page's maps.
- A derivation function (`xlat`, factory, localizer) that throws is not modelled: they are total functions here.
- The wording of the runtime's own `TypeError` messages is a placeholder. Only the kind of exception is meant.
- TypeScript global declarations (index.ts:15-22) are modelled only through `Prototypes`. So are the prototype assignments themselves (index.ts:106, 156, 216, 239).
- The test harness and `jest.config.ts` are not part of this model.
- Values.JsString: `String(value)` covers `undefined`, `null`, booleans, integers and strings only. Non-integer numbers, exponent notation, objects and arrays are not modelled.
- Sanitize.ToLower: lower-cases ASCII letters only. The Unicode case mappings of `toLowerCase` are not modelled.
- Sanitize.ToUpper: capitalises ASCII letters only. `createElement` outside the HTML namespace, which keeps the name's case, is not modelled.
- Dom.SetAttribute: never fails. The DOM's `setAttribute` throws `InvalidCharacterError` for a name that is not a valid XML name, such as `""` or `"data test"`. The `Attr` constructor (index.ts:189-200) lets such a name through, so at index.ts:211 the first write would throw after `hear`, leaving the ear subscribed. Name validity and this error are not modelled.
- Engine.BindOneOutcome: "completes exactly when" holds only for attribute names that are valid XML names (see `Dom.SetAttribute`).
- Engine.BindAllCompletes: "completes exactly when" holds only for attribute names that are valid XML names (see `Dom.SetAttribute`).
- Rendering.BindReplaceRenders: says nothing about a factory that returns `NOPE`. There the children left by earlier writes stay, and proving that needs an induction over the loop that this model does not carry out.

## Findings

| source | as written | input that shows it | evidently intended | confidence | as-written member | corrected member |
|---|---|---|---|---|---|---|
| index.ts:239-242 | The linger setter is assigned to `HTMLElement.prototype.bindAttr`. This replaces the attribute binder of index.ts:216-237, and `lingerBindings` (declared at index.ts:20) is never defined. | `img.bindAttr("onerror", model, "n")` sets the linger flag and returns the element without throwing, while index.test.ts:13 expects the event-handler error. `el.lingerBindings()` is not a function. | Assign the setter to `HTMLElement.prototype.lingerBindings`. `PageState.Page.BindAttr` and `PageState.Page.LingerBindings` model that intended pair. | high (not executed) | Prototypes.BindAttrIsOverwritten | Prototypes.IntendedPrototypeResolves |
