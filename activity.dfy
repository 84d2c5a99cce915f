/** One activity summary as the activity-search endpoint lists it, and when two summaries are taken for the same activity. */
module Activity {

  /** An `ActivityListItem`: numeric id, display name, local and UTC start time strings. */
  datatype ActivityListItem = ActivityListItem(
    activityId: int,
    activityName: string,
    startTimeLocal: string,
    startTimeGMT: string)

  /**
   * What `Equals` may be handed as its `interface{}` argument: an item by value,
   * a pointer to an item (identified by its address), or a value of any other type.
   */
  datatype Operand = ItemValue(item: ActivityListItem) | ItemPointer(address: nat) | Foreign

  /**
   * `(*ActivityListItem).Equals` called through the pointer `self`, which points
   * at `a`: the argument is the receiver's own pointer, or an item value whose
   * id, UTC start time or local start time equals the receiver's.
   */
  function Equals(self: nat, a: ActivityListItem, obj: Operand): bool {
    if obj.ItemPointer? && obj.address == self then true
    else if !obj.ItemValue? then false
    else if a.activityId == obj.item.activityId then true
    else if a.startTimeGMT == obj.item.startTimeGMT then true
    else if a.startTimeLocal == obj.item.startTimeLocal then true
    else false
  }

  /** On an item value, `Equals` holds exactly when the ids, the UTC start times or the local start times agree. */
  lemma EqualsOnValues(self: nat, a: ActivityListItem, b: ActivityListItem)
    ensures Equals(self, a, ItemValue(b)) <==>
      (a.activityId == b.activityId || a.startTimeGMT == b.startTimeGMT || a.startTimeLocal == b.startTimeLocal)
  {
  }

  /** Items that differ in id, UTC start time and local start time are never equal. */
  lemma DifferentEverywhereNotEqual(self: nat, a: ActivityListItem, b: ActivityListItem)
    requires a.activityId != b.activityId
    requires a.startTimeGMT != b.startTimeGMT
    requires a.startTimeLocal != b.startTimeLocal
    ensures !Equals(self, a, ItemValue(b))
  {
  }

  /** The display name never takes part: renaming either side leaves the answer unchanged. */
  lemma NameIrrelevant(self: nat, a: ActivityListItem, b: ActivityListItem, n1: string, n2: string)
    ensures Equals(self, a.(activityName := n1), ItemValue(b.(activityName := n2))) == Equals(self, a, ItemValue(b))
  {
  }

  /** Every item equals a copy of itself. */
  lemma EqualsReflexive(self: nat, a: ActivityListItem)
    ensures Equals(self, a, ItemValue(a))
  {
  }

  /** Comparing by value is symmetric, wherever the two items live. */
  lemma EqualsSymmetric(p: nat, q: nat, a: ActivityListItem, b: ActivityListItem)
    ensures Equals(p, a, ItemValue(b)) == Equals(q, b, ItemValue(a))
  {
  }

  /**
   * The rule is not transitive: the first two items share an id, the last two
   * a local start time, and the first and last share nothing.
   */
  lemma EqualsNotTransitive(self: nat)
    ensures var a := ActivityListItem(1, "ride", "2021-05-01 08:00:00", "2021-05-01 00:00:00");
            var b := ActivityListItem(1, "ride", "2021-05-02 09:00:00", "2021-05-02 01:00:00");
            var c := ActivityListItem(2, "run", "2021-05-02 09:00:00", "2021-05-03 01:00:00");
            Equals(self, a, ItemValue(b)) && Equals(self, b, ItemValue(c)) && !Equals(self, a, ItemValue(c))
  {
  }

  /** Two items whose UTC start times are both empty compare equal, whatever their ids. */
  lemma EmptyGmtMatchesAnything(self: nat, a: ActivityListItem, b: ActivityListItem)
    requires a.startTimeGMT == "" && b.startTimeGMT == ""
    ensures Equals(self, a, ItemValue(b))
  {
  }

  /** An argument that is neither the receiver's pointer nor an item value yields false; the receiver's own pointer yields true. */
  lemma EqualsOnNonValues(self: nat, a: ActivityListItem, obj: Operand)
    requires !obj.ItemValue?
    ensures Equals(self, a, obj) <==> obj == ItemPointer(self)
  {
  }
}
