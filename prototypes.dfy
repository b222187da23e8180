/**
 * How the module installs its entry points on `HTMLElement.prototype`: a
 * sequence of property assignments, later ones replacing earlier ones of
 * the same name. The module as written assigns the linger setter to
 * `bindAttr` a second time; the declared `lingerBindings` is never set.
 */
module Prototypes {
  /** The operations the module defines, each of them modelled by a `Page` method. */
  datatype Operation = BindInnerOp | BindReplaceOp | BindAttrOp | LingerOp

  type Prototype = map<string, Operation>

  /** `HTMLElement.prototype[name] = op`. */
  datatype Assignment = Assign(name: string, op: Operation)

  /** The methods the global `HTMLElement` interface declares. */
  const Declared: set<string> := {"bindAttr", "bindInner", "bindReplace", "lingerBindings"}

  /** The assignments in the order the module runs them. */
  const AsWritten: seq<Assignment> :=
    [Assign("bindInner", BindInnerOp), Assign("bindReplace", BindReplaceOp),
     Assign("bindAttr", BindAttrOp), Assign("bindAttr", LingerOp)]

  /** The same assignments with the linger setter under its declared name. */
  const Intended: seq<Assignment> :=
    [Assign("bindInner", BindInnerOp), Assign("bindReplace", BindReplaceOp),
     Assign("bindAttr", BindAttrOp), Assign("lingerBindings", LingerOp)]

  /** Runs the assignments in order. */
  function Install(proto: Prototype, assignments: seq<Assignment>): Prototype
    decreases |assignments|
  {
    if assignments == [] then proto
    else
      var last := assignments[|assignments| - 1];
      Install(proto, assignments[..|assignments| - 1])[last.name := last.op]
  }

  /** Whether no assignment after position `i` names `name`. */
  predicate LastFor(assignments: seq<Assignment>, i: nat, name: string)
    requires i < |assignments|
  {
    forall j :: i < j < |assignments| ==> assignments[j].name != name
  }

  /** After the assignments a name is defined exactly when it was before or some assignment names it. */
  lemma {:induction false} InstallDefines(proto: Prototype, assignments: seq<Assignment>, name: string)
    ensures name in Install(proto, assignments) <==>
            name in proto || exists i :: 0 <= i < |assignments| && assignments[i].name == name
    decreases |assignments|
  {
    if assignments != [] {
      var n := |assignments| - 1;
      var prefix := assignments[..n];
      InstallDefines(proto, prefix, name);
      assert forall i :: 0 <= i < n ==> prefix[i] == assignments[i];
      if (exists i :: 0 <= i < |assignments| && assignments[i].name == name) && assignments[n].name != name {
        var i :| 0 <= i < |assignments| && assignments[i].name == name;
        assert prefix[i].name == name;
      }
    }
  }

  /** The last assignment naming a name decides its value. */
  lemma {:induction false} InstallLastWins(proto: Prototype, assignments: seq<Assignment>, i: nat)
    requires i < |assignments| && LastFor(assignments, i, assignments[i].name)
    ensures assignments[i].name in Install(proto, assignments)
    ensures Install(proto, assignments)[assignments[i].name] == assignments[i].op
    decreases |assignments|
  {
    var n := |assignments| - 1;
    if i < n {
      var prefix := assignments[..n];
      assert prefix[i] == assignments[i];
      assert LastFor(prefix, i, prefix[i].name);
      InstallLastWins(proto, prefix, i);
    }
  }

  /**
   * As written, `bindAttr` ends up as the linger setter: no element can
   * bind an attribute, and `lingerBindings` is not defined at all.
   */
  lemma BindAttrIsOverwritten()
    ensures var p := Install(map[], AsWritten);
      && p["bindAttr"] == LingerOp
      && "lingerBindings" !in p
      && (forall name :: name in p ==> p[name] != BindAttrOp)
      && p.Keys < Declared
  {
    var p := Install(map[], AsWritten);
    InstallLastWins(map[], AsWritten, 0);
    InstallLastWins(map[], AsWritten, 1);
    InstallLastWins(map[], AsWritten, 3);
    InstallDefines(map[], AsWritten, "lingerBindings");
    forall name | name in p
      ensures p[name] != BindAttrOp && name in Declared
    {
      InstallDefines(map[], AsWritten, name);
    }
    assert "lingerBindings" in Declared - p.Keys;
  }

  /** With the intended assignment every declared method is defined, each as its own operation. */
  lemma IntendedPrototypeResolves()
    ensures var p := Install(map[], Intended);
      && p.Keys == Declared
      && p["bindInner"] == BindInnerOp
      && p["bindReplace"] == BindReplaceOp
      && p["bindAttr"] == BindAttrOp
      && p["lingerBindings"] == LingerOp
  {
    var p := Install(map[], Intended);
    InstallLastWins(map[], Intended, 0);
    InstallLastWins(map[], Intended, 1);
    InstallLastWins(map[], Intended, 2);
    InstallLastWins(map[], Intended, 3);
    forall name | name in p
      ensures name in Declared
    {
      InstallDefines(map[], Intended, name);
    }
  }
}
