/**
 * The in-memory coDECLARE process model: two ordered activity lists
 * (environment and system) and two ordered lists of template instances
 * (assumptions and guarantees), with the dictionary form it is saved in
 * and rebuilt from.
 */
module CodeclareModel {
  import opened Wrappers

  type Activity = string
  type TemplateId = string

  /** One constraint: a template name applied to a list of activities. */
  datatype TemplateInstance = TemplateInstance(template: TemplateId, activities: seq<Activity>)

  /** A snapshot of the four fields of a model. */
  datatype ModelState = ModelState(
    environment: seq<Activity>,
    system: seq<Activity>,
    assumptions: seq<TemplateInstance>,
    guarantees: seq<TemplateInstance>)

  /**
   * The dictionary a model is saved as: one entry per key the model reads,
   * `None` where the key is absent.
   */
  datatype ModelDict = ModelDict(
    environment: Option<seq<Activity>>,
    system: Option<seq<Activity>>,
    assumptions: Option<seq<TemplateInstance>>,
    guarantees: Option<seq<TemplateInstance>>)

  predicate NoDuplicates<T(==)>(xs: seq<T>) {
    forall i, j :: 0 <= i < j < |xs| ==> xs[i] != xs[j]
  }

  /**
   * The activity list after an insert-if-absent: the old list is kept as a
   * prefix, the name is present afterwards, and the list grows only when the
   * name was missing.
   */
  function AddIfAbsent(xs: seq<Activity>, name: Activity): (r: seq<Activity>)
    ensures xs <= r
    ensures name in r
    ensures |r| == if name in xs then |xs| else |xs| + 1
    ensures forall a :: a in r <==> a in xs || a == name
    ensures NoDuplicates(xs) ==> NoDuplicates(r)
  {
    if name in xs then xs else xs + [name]
  }

  /** Inserting the same name twice gives the same list as inserting it once. */
  lemma AddIfAbsentIdempotent(xs: seq<Activity>, name: Activity)
    ensures AddIfAbsent(AddIfAbsent(xs, name), name) == AddIfAbsent(xs, name)
  {
  }

  /** The activity list after inserting each of `names` in turn, if absent. */
  function AddAllIfAbsent(xs: seq<Activity>, names: seq<Activity>): (r: seq<Activity>)
    ensures xs <= r
    ensures forall a :: a in r <==> a in xs || a in names
    ensures NoDuplicates(xs) ==> NoDuplicates(r)
    decreases |names|
  {
    if names == [] then xs
    else
      var k := |names| - 1;
      assert names == names[..k] + [names[k]];
      AddIfAbsent(AddAllIfAbsent(xs, names[..k]), names[k])
  }

  lemma NoDuplicatesPrefix<T>(xs: seq<T>, k: nat)
    requires k <= |xs|
    requires NoDuplicates(xs)
    ensures NoDuplicates(xs[..k])
  {
  }

  /**
   * Inserting names that are pairwise distinct and not yet in the list
   * appends them all, in order.
   */
  lemma {:induction false} AddAllIfAbsentDistinct(xs: seq<Activity>, names: seq<Activity>)
    requires NoDuplicates(xs + names)
    ensures AddAllIfAbsent(xs, names) == xs + names
  {
    if names != [] {
      var k := |names| - 1;
      assert xs + names[..k] == (xs + names)[..|xs| + k];
      NoDuplicatesPrefix(xs + names, |xs| + k);
      AddAllIfAbsentDistinct(xs, names[..k]);
      assert (xs + names)[|xs| + k] == names[k];
      assert names[k] !in xs + names[..k] by {
        forall i | 0 <= i < |xs| + k
          ensures (xs + names[..k])[i] != names[k]
        {
          assert (xs + names[..k])[i] == (xs + names)[i];
        }
      }
      assert xs + names[..k] + [names[k]] == xs + names;
    }
  }

  /** Inserting names that are all present already changes nothing. */
  lemma {:induction false} AddAllIfAbsentPresent(xs: seq<Activity>, names: seq<Activity>)
    requires forall a :: a in names ==> a in xs
    ensures AddAllIfAbsent(xs, names) == xs
  {
    if names != [] {
      var k := |names| - 1;
      AddAllIfAbsentPresent(xs, names[..k]);
    }
  }

  /** Inserting the same list of names twice gives the same list as once. */
  lemma AddAllIfAbsentIdempotent(xs: seq<Activity>, names: seq<Activity>)
    ensures AddAllIfAbsent(AddAllIfAbsent(xs, names), names) == AddAllIfAbsent(xs, names)
  {
    AddAllIfAbsentPresent(AddAllIfAbsent(xs, names), names);
  }

  /**
   * The model rebuilt from a dictionary: each present key is copied as it
   * is, each missing key becomes the empty list; nothing is checked.
   */
  function FromDict(d: ModelDict): (s: ModelState)
    ensures d.environment.Some? ==> s.environment == d.environment.value
    ensures d.system.Some? ==> s.system == d.system.value
    ensures d.assumptions.Some? ==> s.assumptions == d.assumptions.value
    ensures d.guarantees.Some? ==> s.guarantees == d.guarantees.value
    ensures d.environment.None? ==> s.environment == []
    ensures d.system.None? ==> s.system == []
    ensures d.assumptions.None? ==> s.assumptions == []
    ensures d.guarantees.None? ==> s.guarantees == []
  {
    ModelState(
      d.environment.GetOr([]),
      d.system.GetOr([]),
      d.assumptions.GetOr([]),
      d.guarantees.GetOr([]))
  }

  /**
   * Rebuilding does not restore the no-duplicates property of the activity
   * lists: a dictionary with a repeated activity yields a model with one.
   */
  lemma FromDictKeepsDuplicates()
    ensures !NoDuplicates(FromDict(ModelDict(Some(["a", "a"]), None, None, None)).environment)
  {
    var s := FromDict(ModelDict(Some(["a", "a"]), None, None, None));
    assert s.environment[0] == s.environment[1];
  }

  class CoDeclareModel {
    var environment: seq<Activity>
    var system: seq<Activity>
    var assumptions: seq<TemplateInstance>
    var guarantees: seq<TemplateInstance>

    function State(): ModelState
      reads this
    {
      ModelState(environment, system, assumptions, guarantees)
    }

    /** A new model has four empty lists. */
    constructor ()
      ensures environment == [] && system == []
      ensures assumptions == [] && guarantees == []
    {
      environment := [];
      system := [];
      assumptions := [];
      guarantees := [];
    }

    /** Appends `name` to the environment activities unless it is there already. */
    method AddEnvironmentActivity(name: Activity)
      modifies this
      ensures environment == AddIfAbsent(old(environment), name)
      ensures NoDuplicates(old(environment)) ==> NoDuplicates(environment)
      ensures system == old(system)
      ensures assumptions == old(assumptions) && guarantees == old(guarantees)
    {
      if name !in environment {
        environment := environment + [name];
      }
    }

    /**
     * Appends `name` to the system activities unless it is there already;
     * the environment activities are not consulted.
     */
    method AddSystemActivity(name: Activity)
      modifies this
      ensures system == AddIfAbsent(old(system), name)
      ensures NoDuplicates(old(system)) ==> NoDuplicates(system)
      ensures environment == old(environment)
      ensures assumptions == old(assumptions) && guarantees == old(guarantees)
    {
      if name !in system {
        system := system + [name];
      }
    }

    /** Appends one assumption record, without any check. */
    method AddAssumption(template: TemplateId, activities: seq<Activity>)
      modifies this
      ensures assumptions == old(assumptions) + [TemplateInstance(template, activities)]
      ensures environment == old(environment) && system == old(system)
      ensures guarantees == old(guarantees)
    {
      assumptions := assumptions + [TemplateInstance(template, activities)];
    }

    /** Appends one guarantee record, without any check. */
    method AddGuarantee(template: TemplateId, activities: seq<Activity>)
      modifies this
      ensures guarantees == old(guarantees) + [TemplateInstance(template, activities)]
      ensures environment == old(environment) && system == old(system)
      ensures assumptions == old(assumptions)
    {
      guarantees := guarantees + [TemplateInstance(template, activities)];
    }

    /**
     * The dictionary form of the model: all four keys are present, and
     * rebuilding a model from it gives back the same four fields.
     */
    function ToDict(): (d: ModelDict)
      reads this
      ensures d.environment.Some? && d.system.Some?
      ensures d.assumptions.Some? && d.guarantees.Some?
      ensures FromDict(d) == State()
    {
      ModelDict(Some(environment), Some(system), Some(assumptions), Some(guarantees))
    }

    /**
     * A new model whose fields are taken from the dictionary `data` as
     * `FromDict` says; a dictionary holding all four keys reads back unchanged.
     */
    static method FromJson(data: ModelDict) returns (model: CoDeclareModel)
      ensures fresh(model)
      ensures model.State() == FromDict(data)
      ensures (data.environment.Some? && data.system.Some? &&
               data.assumptions.Some? && data.guarantees.Some?) ==> model.ToDict() == data
    {
      var s := FromDict(data);
      model := new CoDeclareModel();
      model.environment := s.environment;
      model.system := s.system;
      model.assumptions := s.assumptions;
      model.guarantees := s.guarantees;
    }
  }
}
