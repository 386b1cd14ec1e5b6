/**
 * The order-handling demonstration model: the sequence of calls that builds
 * it, and what that sequence leaves in the model.
 */
module OrderDemo {
  import opened CodeclareModel

  const EnvironmentNames: seq<Activity> := ["regaddr", "pay", "reqc", "open"]
  const SystemNames: seq<Activity> := ["skip", "ship", "cancel", "refund"]

  const Assumptions: seq<TemplateInstance> := [
    TemplateInstance("precedence", ["regaddr", "ship"]),
    TemplateInstance("responded_existence", ["open", "regaddr"]),
    TemplateInstance("absence2", ["pay"])
  ]

  const Guarantees: seq<TemplateInstance> := [
    TemplateInstance("neg_succession", ["reqc", "pay"]),
    TemplateInstance("response", ["reqc", "cancel", "refund"]),
    TemplateInstance("not_coexistence", ["cancel", "refund"]),
    TemplateInstance("succession", ["pay", "ship"])
  ]

  lemma DemoNamesDistinct()
    ensures NoDuplicates(EnvironmentNames)
    ensures NoDuplicates(SystemNames)
  {
    var e, s := EnvironmentNames, SystemNames;
    assert e[0][2] != e[3][2] && |e[0]| != |e[1]| && |e[0]| != |e[3]|;
    assert |e[1]| != |e[2]| && |e[1]| != |e[3]| && e[2][0] != e[3][0];
    assert s[0][1] != s[1][1] && |s[0]| != |s[2]| && |s[0]| != |s[3]|;
    assert |s[1]| != |s[2]| && |s[1]| != |s[3]| && s[2][0] != s[3][0];
  }

  /** The demonstration's activity names are distinct, so each insertion appends. */
  lemma DemoActivitiesAppended()
    ensures AddAllIfAbsent([], EnvironmentNames) == EnvironmentNames
    ensures AddAllIfAbsent([], SystemNames) == SystemNames
  {
    DemoNamesDistinct();
    assert [] + EnvironmentNames == EnvironmentNames;
    assert [] + SystemNames == SystemNames;
    AddAllIfAbsentDistinct([], EnvironmentNames);
    AddAllIfAbsentDistinct([], SystemNames);
  }

  /** Adds each of `names` as an environment activity, in order. */
  method AddEnvironmentActivities(model: CoDeclareModel, names: seq<Activity>)
    modifies model
    ensures model.environment == AddAllIfAbsent(old(model.environment), names)
    ensures model.system == old(model.system)
    ensures model.assumptions == old(model.assumptions) && model.guarantees == old(model.guarantees)
  {
    for i := 0 to |names|
      invariant model.environment == AddAllIfAbsent(old(model.environment), names[..i])
      invariant model.system == old(model.system)
      invariant model.assumptions == old(model.assumptions) && model.guarantees == old(model.guarantees)
    {
      assert names[..i + 1][..i] == names[..i];
      model.AddEnvironmentActivity(names[i]);
    }
    assert names[..|names|] == names;
  }

  /** Adds each of `names` as a system activity, in order. */
  method AddSystemActivities(model: CoDeclareModel, names: seq<Activity>)
    modifies model
    ensures model.system == AddAllIfAbsent(old(model.system), names)
    ensures model.environment == old(model.environment)
    ensures model.assumptions == old(model.assumptions) && model.guarantees == old(model.guarantees)
  {
    for i := 0 to |names|
      invariant model.system == AddAllIfAbsent(old(model.system), names[..i])
      invariant model.environment == old(model.environment)
      invariant model.assumptions == old(model.assumptions) && model.guarantees == old(model.guarantees)
    {
      assert names[..i + 1][..i] == names[..i];
      model.AddSystemActivity(names[i]);
    }
    assert names[..|names|] == names;
  }

  /** Adds the three assumptions of the demonstration, in order. */
  method AddDemoAssumptions(model: CoDeclareModel)
    modifies model
    ensures model.assumptions == old(model.assumptions) + Assumptions
    ensures model.environment == old(model.environment) && model.system == old(model.system)
    ensures model.guarantees == old(model.guarantees)
  {
    model.AddAssumption("precedence", ["regaddr", "ship"]);
    model.AddAssumption("responded_existence", ["open", "regaddr"]);
    model.AddAssumption("absence2", ["pay"]);
  }

  /** Adds the four guarantees of the demonstration, in order. */
  method AddDemoGuarantees(model: CoDeclareModel)
    modifies model
    ensures model.guarantees == old(model.guarantees) + Guarantees
    ensures model.environment == old(model.environment) && model.system == old(model.system)
    ensures model.assumptions == old(model.assumptions)
  {
    model.AddGuarantee("neg_succession", ["reqc", "pay"]);
    model.AddGuarantee("response", ["reqc", "cancel", "refund"]);
    model.AddGuarantee("not_coexistence", ["cancel", "refund"]);
    model.AddGuarantee("succession", ["pay", "ship"]);
  }

  /**
   * Builds the demonstration model by the calls the script makes: the four
   * environment activities and the four system activities in that order,
   * then three assumptions and four guarantees in call order.
   */
  method BuildOrderModel() returns (model: CoDeclareModel)
    ensures fresh(model)
    ensures model.environment == ["regaddr", "pay", "reqc", "open"]
    ensures model.system == ["skip", "ship", "cancel", "refund"]
    ensures model.assumptions == Assumptions
    ensures model.guarantees == Guarantees
  {
    model := new CoDeclareModel();
    AddEnvironmentActivities(model, EnvironmentNames);
    AddSystemActivities(model, SystemNames);
    DemoActivitiesAppended();
    AddDemoAssumptions(model);
    AddDemoGuarantees(model);
  }

  /**
   * Adding one name as both an environment and a system activity is
   * accepted: the two lists are not checked against each other.
   */
  method SharedActivity(name: Activity) returns (model: CoDeclareModel)
    ensures fresh(model)
    ensures model.environment == [name] && model.system == [name]
  {
    model := new CoDeclareModel();
    model.AddEnvironmentActivity(name);
    model.AddSystemActivity(name);
  }
}
