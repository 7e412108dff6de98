/**
 * What the validator says about the shipped templates: the lead-scoring and customer-health
 * workflows are clean, while the content-distribution workflow, whose RSS trigger is not one of
 * the validator's trigger types, is valid with two warnings.
 */
module TemplateChecks {
  import opened Wrappers
  import opened Graph
  import opened Validator
  import opened Templates

  // ---------------------------------------------------------------- short connection lists

  lemma TargetsOfTo(a: string, b: string)
    ensures MainTargets([To(a)]) == [a]
    ensures MainTargets([To(a), To(b)]) == [a, b]
    ensures MainTargets([To(a), Outputs([])]) == [a]
  {
    assert [Target(a, "main", Some(0))][..0] == [] && [Target(b, "main", Some(0))][..0] == [];
    assert GroupTargets([Target(a, "main", Some(0))]) == [a] && GroupTargets([Target(b, "main", Some(0))]) == [b];
    assert [To(a)][..0] == [];
    assert [To(a), To(b)][..1] == [To(a)];
    assert [To(a), Outputs([])][..1] == [To(a)];
  }

  lemma TargetsOfTwo(a: (string, Connection), b: (string, Connection))
    ensures AllTargets([a, b]) == ConnectionTargets(a.1) + ConnectionTargets(b.1)
  {
    assert [a, b][..1] == [a];
    assert [a][..0] == [];
    assert AllTargets([a]) == ConnectionTargets(a.1);
  }

  lemma TargetsOfThree(a: (string, Connection), b: (string, Connection), c: (string, Connection))
    ensures AllTargets([a, b, c]) == ConnectionTargets(a.1) + ConnectionTargets(b.1) + ConnectionTargets(c.1)
  {
    assert [a, b, c][..2] == [a, b];
    TargetsOfTwo(a, b);
  }

  // ---------------------------------------------------------------- lead scoring

  lemma LeadScoringTargets()
    ensures AllTargets(LeadScoringConnections()) == ["Calculate Score", "Check Score", "Alert Sales", "Add to Nurture"]
  {
    var conns := LeadScoringConnections();
    TargetsOfThree(conns[0], conns[1], conns[2]);
    TargetsOfTo("Calculate Score", "");
    TargetsOfTo("Check Score", "");
    TargetsOfTo("Alert Sales", "Add to Nurture");
  }

  lemma LeadScoringNodesClean()
    ensures var nodes := AsRaw(LeadScoringWorkflow()).nodes.value;
            && NodeErrors(nodes) == [] && HasTrigger(nodes) && |nodes| == 5
  {
    var nodes := AsRaw(LeadScoringWorkflow()).nodes.value;
    DistinctNodesNoErrors(nodes);
    HasTriggerIff(nodes);
    assert WellFormed(nodes[0]) && IsTrigger(nodes[0]);
  }

  lemma LeadScoringConnectionsClean()
    ensures var nodes := AsRaw(LeadScoringWorkflow()).nodes.value;
            ConnectionErrors(LeadScoringConnections(), NodeNames(nodes)) == []
  {
    var nodes := AsRaw(LeadScoringWorkflow()).nodes.value;
    var conns := LeadScoringConnections();
    var names := NodeNames(nodes);
    LeadScoringTargets();
    WellFormedNameKnown(nodes, 0);
    WellFormedNameKnown(nodes, 1);
    WellFormedNameKnown(nodes, 2);
    WellFormedNameKnown(nodes, 3);
    WellFormedNameKnown(nodes, 4);
    assert forall i :: 0 <= i < |conns| ==> conns[i].0 == nodes[i].name.value;
    assert forall x :: x in AllTargets(conns) ==> x in names;
    ResolvedConnectionsNoErrors(conns, names);
  }

  lemma LeadScoringNoOrphans()
    ensures var conns := LeadScoringConnections();
            OrphanWarnings(AsRaw(LeadScoringWorkflow()).nodes.value, Connected(Some(conns)), Some(conns)) == []
  {
    var nodes := AsRaw(LeadScoringWorkflow()).nodes.value;
    var conns := LeadScoringConnections();
    LeadScoringTargets();
    forall i | 0 <= i < |nodes|
      ensures !IsOrphan(nodes[i], Connected(Some(conns)), Some(conns))
    {
      if i == 0 {
        assert IsTrigger(nodes[0]);
      } else {
        assert nodes[i].name.value == AllTargets(conns)[i - 1];
      }
    }
    NoOrphanWarnings(nodes, Connected(Some(conns)), Some(conns));
  }

  /** The lead-scoring workflow is valid with no errors and no warnings. */
  lemma LeadScoringValid()
    ensures Validate(AsRaw(LeadScoringWorkflow())) == ValidationResult(true, [], [])
  {
    var w := LeadScoringWorkflow();
    var nodes := AsRaw(w).nodes.value;
    LeadScoringNodesClean();
    LeadScoringConnectionsClean();
    LeadScoringNoOrphans();
    assert AsRaw(w) == WorkflowObject(Some(w.name), Some(nodes), Some(LeadScoringConnections()));
    ErrorFreeIsValid(AsRaw(w));
    assert Warnings(nodes, Some(LeadScoringConnections())) == [];
  }

  // ---------------------------------------------------------------- customer health

  lemma CustomerHealthTargets()
    ensures AllTargets(CustomerHealthConnections()) == ["Fetch Customers", "Check Activity", "Alert Team"]
  {
    var conns := CustomerHealthConnections();
    TargetsOfThree(conns[0], conns[1], conns[2]);
    TargetsOfTo("Fetch Customers", "");
    TargetsOfTo("Check Activity", "");
    TargetsOfTo("Alert Team", "");
  }

  lemma CustomerHealthNodesClean()
    ensures var nodes := AsRaw(CustomerHealthWorkflow()).nodes.value;
            && NodeErrors(nodes) == [] && HasTrigger(nodes) && |nodes| == 4
  {
    var nodes := AsRaw(CustomerHealthWorkflow()).nodes.value;
    DistinctNodesNoErrors(nodes);
    HasTriggerIff(nodes);
    assert WellFormed(nodes[0]) && IsTrigger(nodes[0]);
  }

  lemma CustomerHealthConnectionsClean()
    ensures var nodes := AsRaw(CustomerHealthWorkflow()).nodes.value;
            ConnectionErrors(CustomerHealthConnections(), NodeNames(nodes)) == []
  {
    var nodes := AsRaw(CustomerHealthWorkflow()).nodes.value;
    var conns := CustomerHealthConnections();
    var names := NodeNames(nodes);
    CustomerHealthTargets();
    WellFormedNameKnown(nodes, 0);
    WellFormedNameKnown(nodes, 1);
    WellFormedNameKnown(nodes, 2);
    WellFormedNameKnown(nodes, 3);
    assert forall i :: 0 <= i < |conns| ==> conns[i].0 == nodes[i].name.value;
    assert forall x :: x in AllTargets(conns) ==> x in names;
    ResolvedConnectionsNoErrors(conns, names);
  }

  lemma CustomerHealthNoOrphans()
    ensures var conns := CustomerHealthConnections();
            OrphanWarnings(AsRaw(CustomerHealthWorkflow()).nodes.value, Connected(Some(conns)), Some(conns)) == []
  {
    var nodes := AsRaw(CustomerHealthWorkflow()).nodes.value;
    var conns := CustomerHealthConnections();
    CustomerHealthTargets();
    forall i | 0 <= i < |nodes|
      ensures !IsOrphan(nodes[i], Connected(Some(conns)), Some(conns))
    {
      if i == 0 {
        assert IsTrigger(nodes[0]);
      } else {
        assert nodes[i].name.value == AllTargets(conns)[i - 1];
      }
    }
    NoOrphanWarnings(nodes, Connected(Some(conns)), Some(conns));
  }

  /** The customer-health workflow is valid with no errors and no warnings. */
  lemma CustomerHealthValid()
    ensures Validate(AsRaw(CustomerHealthWorkflow())) == ValidationResult(true, [], [])
  {
    var w := CustomerHealthWorkflow();
    var nodes := AsRaw(w).nodes.value;
    CustomerHealthNodesClean();
    CustomerHealthConnectionsClean();
    CustomerHealthNoOrphans();
    assert AsRaw(w) == WorkflowObject(Some(w.name), Some(nodes), Some(CustomerHealthConnections()));
    ErrorFreeIsValid(AsRaw(w));
    assert Warnings(nodes, Some(CustomerHealthConnections())) == [];
  }

  // ---------------------------------------------------------------- content distribution

  lemma ContentDistributionTargets()
    ensures AllTargets(ContentDistributionConnections()) == ["Generate Posts", "Notify Team"]
  {
    var conns := ContentDistributionConnections();
    TargetsOfTwo(conns[0], conns[1]);
    TargetsOfTo("Generate Posts", "");
    TargetsOfTo("Notify Team", "");
  }

  /** The RSS trigger is not one of the validator's trigger types, so the workflow has no trigger. */
  lemma ContentDistributionNodesClean()
    ensures var nodes := AsRaw(ContentDistributionWorkflow()).nodes.value;
            && NodeErrors(nodes) == [] && !HasTrigger(nodes) && |nodes| == 3
  {
    var nodes := AsRaw(ContentDistributionWorkflow()).nodes.value;
    DistinctNodesNoErrors(nodes);
    HasTriggerIff(nodes);
    assert !IsTrigger(nodes[0]) && !IsTrigger(nodes[1]) && !IsTrigger(nodes[2]);
  }

  lemma ContentDistributionConnectionsClean()
    ensures var nodes := AsRaw(ContentDistributionWorkflow()).nodes.value;
            ConnectionErrors(ContentDistributionConnections(), NodeNames(nodes)) == []
  {
    var nodes := AsRaw(ContentDistributionWorkflow()).nodes.value;
    var conns := ContentDistributionConnections();
    var names := NodeNames(nodes);
    ContentDistributionTargets();
    WellFormedNameKnown(nodes, 0);
    WellFormedNameKnown(nodes, 1);
    WellFormedNameKnown(nodes, 2);
    assert forall i :: 0 <= i < |conns| ==> conns[i].0 == nodes[i].name.value;
    assert forall x :: x in AllTargets(conns) ==> x in names;
    ResolvedConnectionsNoErrors(conns, names);
  }

  /** 'New Blog Post' is not a trigger here, feeds a connection and is fed by none: an orphan. */
  lemma ContentDistributionOrphan()
    ensures var conns := ContentDistributionConnections();
            OrphanWarnings(AsRaw(ContentDistributionWorkflow()).nodes.value, Connected(Some(conns)), Some(conns))
              == [OrphanMsg("New Blog Post")]
  {
    var nodes := AsRaw(ContentDistributionWorkflow()).nodes.value;
    var conns := ContentDistributionConnections();
    ContentDistributionTargets();
    assert HasKey(conns, "New Blog Post") by {
      assert conns[0].0 == "New Blog Post";
    }
    assert "New Blog Post" !in Connected(Some(conns));
    forall i | 1 <= i < |nodes|
      ensures !IsOrphan(nodes[i], Connected(Some(conns)), Some(conns))
    {
      assert nodes[i].name.value == AllTargets(conns)[i - 1];
    }
    OnlyFirstOrphan(nodes, Connected(Some(conns)), Some(conns));
  }

  /**
   * The content-distribution workflow is valid, with exactly two warnings: no trigger, and an
   * orphan 'New Blog Post'.
   */
  lemma ContentDistributionWarned()
    ensures Validate(AsRaw(ContentDistributionWorkflow())) ==
              ValidationResult(true, [], [NoTriggerMsg, OrphanMsg("New Blog Post")])
  {
    var w := ContentDistributionWorkflow();
    var nodes := AsRaw(w).nodes.value;
    ContentDistributionNodesClean();
    ContentDistributionConnectionsClean();
    ContentDistributionOrphan();
    assert AsRaw(w) == WorkflowObject(Some(w.name), Some(nodes), Some(ContentDistributionConnections()));
    ErrorFreeIsValid(AsRaw(w));
    assert Warnings(nodes, Some(ContentDistributionConnections())) == [NoTriggerMsg, OrphanMsg("New Blog Post")];
  }
}
