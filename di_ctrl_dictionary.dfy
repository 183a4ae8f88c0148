/** The registry of double-integrator controller classes, keyed by name.
    An inner controller is chosen by looking its name up here. */
module DoubleIntegratorControllers {
  import opened Wrappers

  /** The four double-integrator controller classes the registry refers to. */
  datatype DIClass =
    | DoubleIntegratorController
    | DoubleIntegratorNeutralController
    | DoubleIntegratorBoundedAndComponentWiseController
    | DoubleIntegratorBoundedNotComponentWiseController

  /** A registry maps names to classes. */
  type Registry = map<string, DIClass>

  /** The class's own `__name__`. */
  function ClassName(c: DIClass): string {
    match c
    case DoubleIntegratorController => "DoubleIntegratorController"
    case DoubleIntegratorNeutralController => "DoubleIntegratorNeutralController"
    case DoubleIntegratorBoundedAndComponentWiseController => "DoubleIntegratorBoundedAndComponentWiseController"
    case DoubleIntegratorBoundedNotComponentWiseController => "DoubleIntegratorBoundedNotComponentWiseController"
  }

  /** The alias under which the neutral controller is also registered. */
  const DefaultAlias: string := "DoubleIntegratorDefaultController"

  /** `di_ctrl_dictionary`: five names, two of them for the neutral controller. */
  const DiCtrlDictionary: Registry := map[
    "DoubleIntegratorController" := DoubleIntegratorController,
    "DoubleIntegratorDefaultController" := DoubleIntegratorNeutralController,
    "DoubleIntegratorNeutralController" := DoubleIntegratorNeutralController,
    "DoubleIntegratorBoundedAndComponentWiseController" := DoubleIntegratorBoundedAndComponentWiseController,
    "DoubleIntegratorBoundedNotComponentWiseController" := DoubleIntegratorBoundedNotComponentWiseController
  ]

  /** The registered names: every class under its own name, plus the alias. */
  function RegisteredNames(): (names: set<string>)
    ensures DefaultAlias in names
    ensures forall c: DIClass :: ClassName(c) in names
    ensures |names| == 5
  {
    var names := {ClassName(DoubleIntegratorController), DefaultAlias,
                  ClassName(DoubleIntegratorNeutralController),
                  ClassName(DoubleIntegratorBoundedAndComponentWiseController),
                  ClassName(DoubleIntegratorBoundedNotComponentWiseController)};
    DistinctNames();
    names
  }

  /** The five names are pairwise different strings. */
  lemma DistinctNames()
    ensures |{ClassName(DoubleIntegratorController), DefaultAlias,
              ClassName(DoubleIntegratorNeutralController),
              ClassName(DoubleIntegratorBoundedAndComponentWiseController),
              ClassName(DoubleIntegratorBoundedNotComponentWiseController)}| == 5
  {
    var a, b, c, d, e := ClassName(DoubleIntegratorController), DefaultAlias,
                         ClassName(DoubleIntegratorNeutralController),
                         ClassName(DoubleIntegratorBoundedAndComponentWiseController),
                         ClassName(DoubleIntegratorBoundedNotComponentWiseController);
    assert |a| == 26 && |b| == 33 && |c| == 33 && |d| == 49 && |e| == 49;
    assert b[16] == 'D' && c[16] == 'N';
    assert d[23] == 'A' && e[23] == 'N';
    assert {a, b, c, d, e} == {a} + {b} + {c} + {d} + {e};
  }

  /** `value[name]`: the class registered under `name`, or nothing, which the
      source reports as a KeyError. */
  function Lookup(registry: Registry, name: string): (r: Option<DIClass>)
    ensures r.Some? <==> name in registry
    ensures r.Some? ==> registry[name] == r.value
  {
    if name in registry then Some(registry[name]) else None
  }

  /** Exactly five names are registered. */
  lemma RegistryHasFiveNames()
    ensures DiCtrlDictionary.Keys == RegisteredNames()
    ensures |DiCtrlDictionary| == 5
  {
    var names := RegisteredNames();
    assert DiCtrlDictionary.Keys == names;
  }

  /** Every class is registered under its own `__name__`, and that name
      resolves back to the class. */
  lemma ClassNameResolves(c: DIClass)
    ensures Lookup(DiCtrlDictionary, ClassName(c)) == Some(c)
  {
  }

  /** The default alias and the neutral name resolve to the same class. */
  lemma DefaultIsNeutral()
    ensures Lookup(DiCtrlDictionary, DefaultAlias) == Some(DoubleIntegratorNeutralController)
    ensures Lookup(DiCtrlDictionary, DefaultAlias) == Lookup(DiCtrlDictionary, ClassName(DoubleIntegratorNeutralController))
  {
  }

  /** Five keys, four distinct classes: apart from the alias, different names
      resolve to different classes. */
  lemma FourDistinctClasses()
    ensures DiCtrlDictionary.Values == {DoubleIntegratorController, DoubleIntegratorNeutralController,
                                        DoubleIntegratorBoundedAndComponentWiseController,
                                        DoubleIntegratorBoundedNotComponentWiseController}
    ensures |DiCtrlDictionary.Values| == 4
    ensures forall n1, n2 ::
              (n1 in DiCtrlDictionary && n2 in DiCtrlDictionary && n1 != n2 && DiCtrlDictionary[n1] == DiCtrlDictionary[n2])
              ==> {n1, n2} == {DefaultAlias, ClassName(DoubleIntegratorNeutralController)}
  {
    var vs := DiCtrlDictionary.Values;
    forall c: DIClass ensures c in vs {
      ClassNameResolves(c);
    }
    assert vs == {DoubleIntegratorController, DoubleIntegratorNeutralController,
                  DoubleIntegratorBoundedAndComponentWiseController,
                  DoubleIntegratorBoundedNotComponentWiseController};
    RegistryHasFiveNames();
  }

  /** Any name outside the five fails to resolve. */
  lemma UnregisteredNameFails(name: string)
    requires name !in RegisteredNames()
    ensures Lookup(DiCtrlDictionary, name) == None
  {
    RegistryHasFiveNames();
  }

  /** "DefaultDIC" is not one of the five names: this registry has no
      default entry under that key. */
  lemma DefaultDicUnregistered()
    ensures Lookup(DiCtrlDictionary, "DefaultDIC") == None
  {
    UnregisteredNameFails("DefaultDIC");
  }
}
