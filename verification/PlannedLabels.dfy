/** The label column decodes, for every id the service accepts and every list
    the planner makes of them. */
module PlannedLabels {
  import opened ExpiryRules
  import opened Schedules
  import opened Ordering
  import opened Inventory
  import opened Labels
  import Planner

  lemma ValidIdsHaveNoSeparator(id: string)
    requires ValidId(id)
    ensures SEPARATOR !in id
  {
  }

  /** The column of any non-empty list of accepted ids splits back into them. */
  lemma AcceptedIdsDecode(labels: seq<string>)
    requires labels != [] && forall id :: id in labels ==> ValidId(id)
    ensures Split(Join(labels)) == labels
  {
    forall id | id in labels ensures SEPARATOR !in id { ValidIdsHaveNoSeparator(id); }
    SplitUndoesJoin(labels);
  }

  /** So two lists with one column are one list. */
  lemma JoinIsInjective(a: seq<string>, b: seq<string>)
    requires a != [] && b != [] && (forall id :: id in a ==> ValidId(id)) && (forall id :: id in b ==> ValidId(id))
    ensures Join(a) == Join(b) ==> a == b
  {
    AcceptedIdsDecode(a);
    AcceptedIdsDecode(b);
  }

  /** Every label column the planner can produce decodes to its labels. */
  lemma PlannedLabelsDecode(s: Schedule, t: int, out: seq<ActiveExpiry>, a: ActiveExpiry)
    requires RulesValid(s.rules) && IsInventory(s, t, out) && a in out
    ensures Split(Join(a.labels)) == a.labels
  {
    hide Planner.IsProjection;
    forall id | id in a.labels ensures ValidId(id) {
      assert id in Elements(a.labels);
    }
    AcceptedIdsDecode(a.labels);
  }
}
