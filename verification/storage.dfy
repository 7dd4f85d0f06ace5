/** `CalculatorStorage` of js/storage.js, in memory: named calculator
    profiles, each a saved history, and the name of the current one. Every
    operation keeps the profile "default" and keeps the current name naming
    a profile. Writing to and reading from the browser's storage is not
    modelled; what the constructor reads from it is a parameter of `Load`.

    The source tests membership by the truthiness of `calculators[name]`,
    which is also true for the names a plain object inherits. The functions
    without a suffix use own keys only; the `...AsWritten` ones keep the
    inherited names, and the lemmas after them show where the two differ. */
module Storage {
  import opened Errors
  import JsObjects
  import Calculation

  type History = seq<Calculation.Entry>

  const Default: string := "default"

  datatype Profiles = Profiles(calculators: map<string, History>, current: string)

  /** The invariant: the default profile exists and the current name is a
      profile. */
  predicate Valid(p: Profiles) {
    Default in p.calculators && p.current in p.calculators
  }

  /** What the constructor finds under the key 'calculators': nothing (or an
      empty string), text that is not JSON, or a saved map. */
  datatype Saved = Missing | Malformed | Saved(calculators: map<string, History>)

  /** `loadCalculators` run by the constructor. A saved current name is
      taken unless the saved map failed to parse (the failure skips the rest
      of the `try`), even when no map was saved at all, and it is not
      checked against the profiles. */
  function Load(saved: Saved, savedCurrent: Option<string>): (r: Profiles)
    ensures Default in r.calculators
    ensures saved.Saved? ==> r.calculators.Keys == saved.calculators.Keys + {Default}
    ensures saved.Saved? ==> forall x :: x in saved.calculators ==> r.calculators[x] == saved.calculators[x]
    ensures !saved.Saved? ==> r.calculators == map[Default := []]
    ensures saved.Malformed? || savedCurrent.None? || savedCurrent == Some("") ==> r.current == Default
    ensures !saved.Malformed? && savedCurrent.Some? && savedCurrent.value != "" ==> r.current == savedCurrent.value
    ensures Valid(r) <==> r.current == Default || (saved.Saved? && r.current in saved.calculators)
  {
    var calculators := if saved.Saved? then saved.calculators else map[];
    var current :=
      if !saved.Malformed? && savedCurrent.Some? && savedCurrent.value != "" then savedCurrent.value
      else Default;
    var withDefault := if Default in calculators then calculators else calculators[Default := []];
    Profiles(withDefault, current)
  }

  /** Saved state whose current name has no profile loads into a state that
      breaks the invariant. The two keys are written together by every
      operation, so only a damaged or partly cleared store has this — for
      instance one where the map is gone but the current name is not. */
  lemma LoadTrustsSavedCurrent()
    ensures !Valid(Load(Saved(map[]), Some("work")))
    ensures !Valid(Load(Missing, Some("work")))
  {
    assert Load(Saved(map[]), Some("work")).current == "work";
    assert Load(Missing, Some("work")).current == "work";
  }

  /** `getCalculatorNames`, as a set: the order `Object.keys` gives is not
      modelled. */
  function Names(p: Profiles): (r: set<string>)
    ensures Valid(p) ==> Default in r && p.current in r
    ensures forall x :: x in r <==> x in p.calculators
  {
    p.calculators.Keys
  }

  /** `getCalculatorHistory`: the saved history, or an empty one for a name
      with no profile. */
  function HistoryOf(p: Profiles, name: string): (r: History)
    ensures name in p.calculators ==> r == p.calculators[name]
    ensures name !in p.calculators ==> r == []
  {
    if name in p.calculators then p.calculators[name] else []
  }

  /** `setCalculatorHistory`: replaces the history of `name`, creating the
      profile if there is none; the current name stays. */
  function SetHistory(p: Profiles, name: string, history: History): (r: Profiles)
    ensures r.current == p.current
    ensures r.calculators.Keys == p.calculators.Keys + {name}
    ensures r.calculators[name] == history
    ensures forall x :: x in p.calculators && x != name ==> r.calculators[x] == p.calculators[x]
    ensures Valid(p) ==> Valid(r)
  {
    p.(calculators := p.calculators[name := history])
  }

  /** What is saved is what is read back, and no other profile changes. */
  lemma SetThenGetHistory(p: Profiles, name: string, history: History, other: string)
    ensures HistoryOf(SetHistory(p, name, history), name) == history
    ensures other != name ==> HistoryOf(SetHistory(p, name, history), other) == HistoryOf(p, other)
  {
  }

  /** `createCalculator`: refuses an empty name or one already in use;
      otherwise adds an empty profile and makes it current. */
  function Create(p: Profiles, name: string): (r: (Profiles, bool))
    ensures r.1 <==> name != "" && name !in p.calculators
    ensures !r.1 ==> r.0 == p
    ensures r.1 ==> r.0 == Profiles(p.calculators[name := []], name)
    ensures Valid(p) ==> Valid(r.0)
  {
    if name == "" || name in p.calculators then (p, false)
    else (Profiles(p.calculators[name := []], name), true)
  }

  /** `deleteCalculator`: refuses "default" and names with no profile;
      otherwise removes the profile, and falls back to "default" if it was
      the current one. */
  function Delete(p: Profiles, name: string): (r: (Profiles, bool))
    ensures r.1 <==> name != Default && name in p.calculators
    ensures !r.1 ==> r.0 == p
    ensures r.1 ==> r.0.calculators == p.calculators - {name}
    ensures r.1 ==> r.0.current == (if p.current == name then Default else p.current)
    ensures Valid(p) ==> Valid(r.0)
  {
    if name == Default || name !in p.calculators then (p, false)
    else (Profiles(p.calculators - {name}, if p.current == name then Default else p.current), true)
  }

  /** `setCurrentCalculator`: switches only to an existing profile. */
  function SetCurrent(p: Profiles, name: string): (r: (Profiles, bool))
    ensures r.1 <==> name in p.calculators
    ensures r.0.calculators == p.calculators
    ensures r.0.current == (if r.1 then name else p.current)
    ensures Valid(p) ==> Valid(r.0)
  {
    if name !in p.calculators then (p, false) else (p.(current := name), true)
  }

  /** Creating a profile and deleting it again restores the profiles and
      leaves "default" current. */
  lemma CreateThenDelete(p: Profiles, name: string)
    requires Valid(p) && Create(p, name).1
    ensures Delete(Create(p, name).0, name) == (Profiles(p.calculators, Default), true)
  {
    var created := Create(p, name).0;
    assert created.calculators - {name} == p.calculators;
  }

  // ----- membership as written ----------------------------------------------

  /** `calculators[name]` is truthy: an own profile (every array is truthy)
      or an inherited member. */
  predicate Truthy(p: Profiles, name: string) {
    name in p.calculators || name in JsObjects.InheritedNames
  }

  function CreateAsWritten(p: Profiles, name: string): (r: (Profiles, bool))
    ensures name !in JsObjects.InheritedNames ==> r == Create(p, name)
  {
    if name == "" || Truthy(p, name) then (p, false)
    else (Profiles(p.calculators[name := []], name), true)
  }

  function DeleteAsWritten(p: Profiles, name: string): (r: (Profiles, bool))
    ensures name !in JsObjects.InheritedNames ==> r == Delete(p, name)
  {
    if name == Default || !Truthy(p, name) then (p, false)
    else (Profiles(p.calculators - {name}, if p.current == name then Default else p.current), true)
  }

  function SetCurrentAsWritten(p: Profiles, name: string): (r: (Profiles, bool))
    ensures name !in JsObjects.InheritedNames ==> r == SetCurrent(p, name)
  {
    if !Truthy(p, name) then (p, false) else (p.(current := name), true)
  }

  /** A new profile called "constructor" is refused as if it existed. */
  lemma CreateConstructorRefused(p: Profiles)
    requires "constructor" !in p.calculators
    ensures CreateAsWritten(p, "constructor") == (p, false)
    ensures Create(p, "constructor").1
  {
  }

  /** Switching to "toString" succeeds and leaves a current name with no
      profile. */
  lemma SetCurrentToStringBreaksInvariant(p: Profiles)
    requires Valid(p) && "toString" !in p.calculators
    ensures SetCurrentAsWritten(p, "toString").1
    ensures !Valid(SetCurrentAsWritten(p, "toString").0)
    ensures SetCurrent(p, "toString") == (p, false)
  {
  }

  /** Deleting "toString" reports success though nothing is removed. */
  lemma DeleteToStringReportsSuccess(p: Profiles)
    requires "toString" !in p.calculators
    ensures DeleteAsWritten(p, "toString").1
    ensures DeleteAsWritten(p, "toString").0.calculators == p.calculators
    ensures !Delete(p, "toString").1
  {
  }
}
