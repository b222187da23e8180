/**
 * The sanitization gate: the tag denylist checked when any binding is
 * constructed, the event-handler denylist and URL-attribute list checked
 * when an attribute binding is constructed, and the protocol allowlist
 * checked on every attribute write.
 */
module Sanitize {
  import opened Wrappers

  /** The three kinds of exception the binding engine can raise. */
  datatype Error =
    | XSSError(message: string)    // class XSSError extends Error
    | PlainError(message: string)  // new Error(...)
    | TypeError(message: string)   // raised by the runtime, not by the engine's own code

  const BadTags: set<string> := {"SCRIPT", "STYLE", "IFRAME"}

  const UrlAttrs: set<string> := {"href", "src", "srcdoc", "data", "xlink:href", "action", "formaction"}

  /** `checkTag`: throws when the tag name is on the denylist (exact, case-sensitive match). */
  function CheckTag(tagName: string): (r: Outcome<Error>)
    ensures r.Fail? <==> tagName == "SCRIPT" || tagName == "STYLE" || tagName == "IFRAME"
    ensures r.Fail? ==> r.error == XSSError("XSS: no bindings allowed on " + tagName + " tag.")
  {
    if tagName in BadTags then Fail(XSSError("XSS: no bindings allowed on " + tagName + " tag.")) else Pass
  }

  predicate IsUpper(c: char) { 'A' <= c <= 'Z' }

  /** `toLowerCase` on one character (ASCII letters only). */
  function LowerChar(c: char): (r: char)
    ensures !IsUpper(r)
    ensures IsUpper(c) ==> r as int == c as int + 32
    ensures !IsUpper(c) ==> r == c
  {
    if IsUpper(c) then (c as int + 32) as char else c
  }

  /** `toLowerCase`: same length, every ASCII capital replaced by its small letter. */
  function ToLower(s: string): (r: string)
    ensures |r| == |s|
    ensures forall i :: 0 <= i < |s| ==> r[i] == LowerChar(s[i])
    ensures forall i :: 0 <= i < |r| ==> !IsUpper(r[i])
  {
    seq(|s|, i requires 0 <= i < |s| => LowerChar(s[i]))
  }

  predicate IsLower(c: char) { 'a' <= c <= 'z' }

  /** Upper-casing one character, as `document.createElement` does to an HTML tag name (ASCII letters only). */
  function UpperChar(c: char): (r: char)
    ensures !IsLower(r)
    ensures IsLower(c) ==> r as int == c as int - 32
    ensures !IsLower(c) ==> r == c
  {
    if IsLower(c) then (c as int - 32) as char else c
  }

  /** The `tagName` of an HTML element created under `name`: same length, every ASCII small letter capitalised. */
  function ToUpper(s: string): (r: string)
    ensures |r| == |s|
    ensures forall i :: 0 <= i < |s| ==> r[i] == UpperChar(s[i])
    ensures forall i :: 0 <= i < |r| ==> !IsLower(r[i])
  {
    seq(|s|, i requires 0 <= i < |s| => UpperChar(s[i]))
  }

  /**
   * Upper-casing a name gives an all-capitals name `t` exactly when the two
   * agree once both are lower-cased: the case of the name does not matter.
   */
  lemma UpperMatchesIgnoringCase(s: string, t: string)
    requires forall i :: 0 <= i < |t| ==> IsUpper(t[i])
    ensures ToUpper(s) == t <==> ToLower(s) == ToLower(t)
  {
    if |s| == |t| {
      forall i | 0 <= i < |s|
        ensures UpperChar(s[i]) == t[i] <==> LowerChar(s[i]) == LowerChar(t[i])
      {
      }
      if ToLower(s) == ToLower(t) {
        assert forall i :: 0 <= i < |s| ==> LowerChar(s[i]) == ToLower(t)[i];
        assert ToUpper(s) == t;
      }
      if ToUpper(s) == t {
        assert forall i :: 0 <= i < |s| ==> UpperChar(s[i]) == t[i];
        assert ToLower(s) == ToLower(t);
      }
    }
  }

  /**
   * An element created under any spelling of `script`, `style` or `iframe`
   * is refused by `checkTag`, and no other name is.
   */
  lemma CreatedTagRefused(name: string)
    ensures CheckTag(ToUpper(name)).Fail? <==> ToLower(name) in {"script", "style", "iframe"}
  {
    assert ToLower("SCRIPT") == "script" && ToLower("STYLE") == "style" && ToLower("IFRAME") == "iframe";
    UpperMatchesIgnoringCase(name, "SCRIPT");
    UpperMatchesIgnoringCase(name, "STYLE");
    UpperMatchesIgnoringCase(name, "IFRAME");
  }

  predicate StartsWith(s: string, prefix: string)
  {
    |prefix| <= |s| && s[..|prefix|] == prefix
  }

  /** An event-handler attribute name: it begins with "on" in any mix of cases. */
  predicate IsEventHandlerName(attribute: string)
  {
    |attribute| >= 2 && (attribute[0] == 'o' || attribute[0] == 'O') && (attribute[1] == 'n' || attribute[1] == 'N')
  }

  /** What the `Attr` constructor stores about its attribute. */
  datatype AttrSpec = AttrSpec(attribute: string, checkURL: bool)

  /**
   * The checks of the `Attr` constructor, in its order: the tag, then the
   * lower-cased name against the "on" prefix; on success the stored name is
   * the lower-cased one and `checkURL` says whether it is a URL attribute.
   */
  function NewAttrSpec(tagName: string, attribute: string): (r: Result<AttrSpec, Error>)
    ensures r.Failure? <==> CheckTag(tagName).Fail? || IsEventHandlerName(attribute)
    ensures CheckTag(tagName).Fail? ==> r == Failure(CheckTag(tagName).error)
    ensures CheckTag(tagName).Pass? && IsEventHandlerName(attribute) ==>
              r == Failure(PlainError("XSS: not allowing binding to " + ToLower(attribute) + " event handler."))
    ensures r.Success? ==> r.value.attribute == ToLower(attribute)
    ensures r.Success? ==> (r.value.checkURL <==> ToLower(attribute) in UrlAttrs)
  {
    match CheckTag(tagName)
    case Fail(e) => Failure(e)
    case Pass =>
      var lowered := ToLower(attribute);
      if StartsWith(lowered, "on") then
        Failure(PlainError("XSS: not allowing binding to " + lowered + " event handler."))
      else
        Success(AttrSpec(lowered, lowered in UrlAttrs))
  }

  /** `new URL(value, document.location.href).protocol`; `None` when the URL constructor throws. */
  type Resolver = string -> Option<string>

  predicate SafeProtocol(protocol: string)
  {
    protocol == "http:" || protocol == "https:"
  }

  /**
   * The write-time check of `Attr.onChange`: for a URL attribute the value
   * must resolve to the http: or https: protocol.
   */
  function CheckProtocol(checkURL: bool, attribute: string, value: string, resolve: Resolver): (r: Outcome<Error>)
    ensures r.Pass? <==> !checkURL || (resolve(value).Some? && SafeProtocol(resolve(value).value))
    ensures checkURL && resolve(value).Some? && !SafeProtocol(resolve(value).value) ==>
              r == Fail(XSSError("XSS: not allowing " + resolve(value).value + " protocol in a " + attribute + " attribute."))
  {
    if !checkURL then Pass
    else match resolve(value)
      case None => Fail(TypeError("Invalid URL"))
      case Some(protocol) =>
        if protocol != "https:" && protocol != "http:" then
          Fail(XSSError("XSS: not allowing " + protocol + " protocol in a " + attribute + " attribute."))
        else
          Pass
  }

  /** The "on" test on the lower-cased name is a case-insensitive prefix test. */
  lemma LoweredPrefixIsCaseInsensitive(attribute: string)
    ensures StartsWith(ToLower(attribute), "on") <==> IsEventHandlerName(attribute)
  {
    var lowered := ToLower(attribute);
    if |attribute| >= 2 {
      assert lowered[..2] == [lowered[0], lowered[1]];
    }
  }
}
