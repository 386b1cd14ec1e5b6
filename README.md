# coDECLARE process model

This project models the in-memory coDECLARE process model of coDeclare2LTLf,
the `CoDeclareModel` class. A model holds four ordered lists:

- the **environment** activities (the inputs of the later synthesis step);
- the **system** activities (its outputs);
- the **assumptions**, each a template instance: a template name and a list of activities;
- the **guarantees**, in the same form.

Activities are added with insert-if-absent, so an activity list never gains a
duplicate and keeps its insertion order. Assumptions and guarantees are
appended unconditionally. A model is saved as a dictionary with the four keys
and rebuilt from such a dictionary, where a missing key becomes an empty list.

Files:

- `wrappers.dfy`: module `Wrappers`, an `Option` type for a dictionary key that may be absent.
- `codeclare_model.dfy`: module `CodeclareModel`, the class `CoDeclareModel`. Its
  four fields are `seq` fields that its `modifies this` methods reassign. It also
  holds the pure functions that specify them and the lemmas about those
  functions. `AddIfAbsent` specifies the two activity methods, and `FromDict`
  specifies `FromJson`. `AddAllIfAbsent` is repeated insertion of a list of
  names; it specifies the insertion loops `OrderDemo.AddEnvironmentActivities`
  and `OrderDemo.AddSystemActivities`.
- `order_demo.dfy`: module `OrderDemo`, the order-handling demonstration. It is the
  call sequence of `order.py` that builds the model, with the model it produces
  proved in the postcondition of `BuildOrderModel`.

The code performs no validation beyond insert-if-absent:

- Environment and system activities are not checked for disjointness. `SharedActivity`
  puts the same name in both lists.
- Template names, their arity and the activities they refer to are never validated.
- Rebuilding from a dictionary copies lists verbatim. It does not restore the
  no-duplicates property (`FromDictKeepsDuplicates`).

## Model

| member | source | states |
|---|---|---|
| `CodeclareModel.CoDeclareModel.constructor` | models/codeclare_model.py:13-17 | a new model has empty environment, system, assumptions and guarantees |
| `CodeclareModel.AddIfAbsent` | models/codeclare_model.py:19-25 | insert-if-absent keeps the old list as a prefix and leaves the name present; the list grows by one exactly when the name was missing, its members are the old ones plus the name, and a duplicate-free list stays duplicate-free |
| `CodeclareModel.AddIfAbsentIdempotent` | models/codeclare_model.py:19-25 | inserting the same name twice gives the same list as inserting it once |
| `CodeclareModel.CoDeclareModel.AddEnvironmentActivity` | models/codeclare_model.py:19-21 | environment becomes the insert-if-absent of the name into the old environment; it stays duplicate-free if it was; system, assumptions and guarantees are unchanged |
| `CodeclareModel.CoDeclareModel.AddSystemActivity` | models/codeclare_model.py:23-25 | system becomes the insert-if-absent of the name into the old system, without consulting environment; it stays duplicate-free if it was; the other three fields are unchanged |
| `CodeclareModel.CoDeclareModel.AddAssumption` | models/codeclare_model.py:27-31 | exactly one record of the template and activities is appended at the end of assumptions, with no check of any kind; the other three fields are unchanged |
| `CodeclareModel.CoDeclareModel.AddGuarantee` | models/codeclare_model.py:33-37 | exactly one record of the template and activities is appended at the end of guarantees, with no check of any kind; environment, system and assumptions are unchanged |
| `CodeclareModel.CoDeclareModel.ToDict` | models/codeclare_model.py:39-45 | the dictionary holds all four keys, and rebuilding a model from it yields the same four field values (round trip with `FromDict`) |
| `CodeclareModel.FromDict` | models/codeclare_model.py:58-63 | each present key is copied verbatim into its field and each missing key becomes the empty list |
| `CodeclareModel.CoDeclareModel.FromJson` | models/codeclare_model.py:58-63 | returns a new model whose fields are `FromDict` of the dictionary; a dictionary holding all four keys reads back from the model unchanged |
| `CodeclareModel.FromDictKeepsDuplicates` | models/codeclare_model.py:58-63 | a dictionary whose environment repeats an activity gives a model whose environment has a duplicate: rebuilding does not restore the invariant |
| `CodeclareModel.AddAllIfAbsent` | order.py:9-12 | inserting a list of names one by one keeps the old list as a prefix; the members are the old ones plus the names; a duplicate-free list stays duplicate-free |
| `CodeclareModel.AddAllIfAbsentDistinct` | order.py:9-12 | when the old list and the names are together duplicate-free, inserting the names one by one appends them all in order |
| `CodeclareModel.AddAllIfAbsentPresent` | models/codeclare_model.py:19-25 | inserting names that are all present already leaves the list unchanged |
| `CodeclareModel.AddAllIfAbsentIdempotent` | models/codeclare_model.py:19-25 | inserting the same list of names a second time changes nothing |
| `OrderDemo.AddEnvironmentActivities` | order.py:9-10 | the loop of environment insertions leaves environment equal to `AddAllIfAbsent` of the old environment and the names; other fields unchanged |
| `OrderDemo.AddSystemActivities` | order.py:11-12 | the loop of system insertions leaves system equal to `AddAllIfAbsent` of the old system and the names; other fields unchanged |
| `OrderDemo.DemoActivitiesAppended` | order.py:9-12 | the demonstration's activity names are distinct, so inserting them into an empty list gives exactly those names in order |
| `OrderDemo.AddDemoAssumptions` | order.py:15-17 | the three assumption calls append precedence, responded_existence and absence2 records in call order |
| `OrderDemo.AddDemoGuarantees` | order.py:20-23 | the four guarantee calls append neg_succession, response, not_coexistence and succession records in call order |
| `OrderDemo.BuildOrderModel` | order.py:6-23 | a fresh model after the script's calls has environment [regaddr, pay, reqc, open], system [skip, ship, cancel, refund], and 3 assumptions and 4 guarantees in call order |
| `OrderDemo.SharedActivity` | models/codeclare_model.py:19-25 | one name can be added as both an environment and a system activity; both lists then hold it |

## Left out

- File I/O: `to_json` (open, `json.dump`, the printed message) and the file read in `from_json` are not modelled. Only the dictionary-level conversion is.
- JSON typing: the dictionary is a record with one optional entry per key the model reads. A key holding a value of another JSON type cannot be represented. The source would store such a value as it is. Entries of other shapes cannot be represented either: every activity is a string, and every assumption or guarantee is a record of a template name and an activity list. The source stores any entry as it is, for example one without "activities" or with a non-string activity. Extra keys are not represented, and the source ignores them.
- Aliasing: the source's lists are shared references. `to_dict` returns the live lists, and `add_assumption`/`add_guarantee` store the caller's list object. Here lists are immutable sequences, so later mutation through such an alias is not captured.
- The script parts of `order.py` (creating the input folder, saving the model, launching the pipeline as a subprocess) are not modelled. Only its call sequence is.
- `codeclare/main.py` is not part of this model. It handles Docker and subprocess orchestration of the synthesis tool, argument parsing, file writes and diagram display.
- The template-to-LTLf translation, contract assembly and TLSF export (`codeclare/parser`, `codeclare/contract_builder`, `codeclare/tlsf_exporter`, imported at codeclare/main.py:6-8) are outside this model; no template encoding, arity check or disjointness check is modelled.
