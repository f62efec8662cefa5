/**
 * The budget list of client/src/components/BudgetManager.jsx: how a saved
 * budget enters the list and a deleted one leaves it, how a load result
 * becomes the list, and the month and year choices of the period selector.
 * Every update builds a new list from the previous one.
 */
module BudgetManager {
  import opened Models
  import opened Sequences

  // ------------------------------------------------------------- save, delete

  /** `budgets.findIndex(b => b.id === id)`: the first position holding `id`, or -1. */
  function FindIndex(bs: seq<Budget>, id: nat): (r: int)
    ensures -1 <= r < |bs|
    ensures r == -1 <==> forall k | 0 <= k < |bs| :: bs[k].id != id
    ensures r >= 0 ==> bs[r].id == id && forall k | 0 <= k < r :: bs[k].id != id
  {
    if bs == [] then -1
    else if bs[0].id == id then 0
    else
      var r := FindIndex(bs[1..], id);
      if r == -1 then -1 else r + 1
  }

  /** `handleBudgetSaved`: the entry with the saved budget's id is replaced in place, or the budget is appended. */
  function Saved(bs: seq<Budget>, nb: Budget): seq<Budget> {
    var i := FindIndex(bs, nb.id);
    if i >= 0 then bs[..i] + [nb] + bs[i + 1..] else bs + [nb]
  }

  /** `budget => budget.id !== id` */
  function IdIsNot(id: nat): Budget -> bool {
    (b: Budget) => b.id != id
  }

  /** `handleBudgetDeleted` */
  function Deleted(bs: seq<Budget>, id: nat): seq<Budget> {
    Filter(bs, IdIsNot(id))
  }

  /** No id occurs twice in the list. */
  ghost predicate UniqueIds(bs: seq<Budget>) {
    forall i, j | 0 <= i < j < |bs| :: bs[i].id != bs[j].id
  }

  /** Saving a budget already listed overwrites its first entry and leaves every other entry where it was. */
  lemma SaveReplaces(bs: seq<Budget>, nb: Budget, i: nat)
    requires i < |bs| && bs[i].id == nb.id
    requires forall k | 0 <= k < i :: bs[k].id != nb.id
    ensures Saved(bs, nb) == bs[i := nb]
    ensures |Saved(bs, nb)| == |bs|
  {
    assert FindIndex(bs, nb.id) == i;
  }

  /** Saving a budget with an id not in the list appends it at the end. */
  lemma SaveAppends(bs: seq<Budget>, nb: Budget)
    requires forall k | 0 <= k < |bs| :: bs[k].id != nb.id
    ensures Saved(bs, nb) == bs + [nb]
    ensures |Saved(bs, nb)| == |bs| + 1
  {
  }

  /** After a save the budget is listed, and the list grows by one exactly when its id was new. */
  lemma SavedSpec(bs: seq<Budget>, nb: Budget)
    ensures nb in Saved(bs, nb)
    ensures |Saved(bs, nb)| == if exists k | 0 <= k < |bs| :: bs[k].id == nb.id then |bs| else |bs| + 1
  {
    var i := FindIndex(bs, nb.id);
    if i >= 0 {
      assert Saved(bs, nb)[i] == nb;
    } else {
      assert Saved(bs, nb)[|bs|] == nb;
    }
  }

  /** A save keeps the ids of the list unique. */
  lemma SavedUniqueIds(bs: seq<Budget>, nb: Budget)
    requires UniqueIds(bs)
    ensures UniqueIds(Saved(bs, nb))
  {
    var i := FindIndex(bs, nb.id);
    var r := Saved(bs, nb);
    if i >= 0 {
      assert r == bs[i := nb];
      forall a, b | 0 <= a < b < |r| ensures r[a].id != r[b].id {
        assert r[a].id == bs[a].id && r[b].id == bs[b].id;
      }
    } else {
      forall a, b | 0 <= a < b < |r| ensures r[a].id != r[b].id {
        if b < |bs| {
          assert r[a] == bs[a] && r[b] == bs[b];
        } else {
          assert r[a] == bs[a];
        }
      }
    }
  }

  /** A budget survives a delete exactly when it was listed under another id. */
  lemma DeletedMembers(bs: seq<Budget>, id: nat, b: Budget)
    ensures b in Deleted(bs, id) <==> b in bs && b.id != id
  {
    FilterMembership(bs, IdIsNot(id), b);
  }

  /** Deleting an id that is not listed changes nothing. */
  lemma DeleteAbsent(bs: seq<Budget>, id: nat)
    requires forall k | 0 <= k < |bs| :: bs[k].id != id
    ensures Deleted(bs, id) == bs
  {
    FilterAll(bs, IdIsNot(id));
  }

  /** A delete works entry by entry: the survivors of two parts, in the order of the parts. */
  lemma {:induction false} DeletedConcat(a: seq<Budget>, b: seq<Budget>, id: nat)
    ensures Deleted(a + b, id) == Deleted(a, id) + Deleted(b, id)
  {
    if b != [] {
      var init, last := b[..|b| - 1], b[|b| - 1];
      assert (a + b)[..|a + b| - 1] == a + init;
      DeletedConcat(a, init, id);
    } else {
      assert a + b == a;
    }
  }

  /** Deleting a budget that was just added restores the list. */
  lemma DeleteUndoesAdd(bs: seq<Budget>, nb: Budget)
    requires forall k | 0 <= k < |bs| :: bs[k].id != nb.id
    ensures Deleted(Saved(bs, nb), nb.id) == bs
  {
    SaveAppends(bs, nb);
    DeleteAbsent(bs, nb.id);
    FilterSnoc(bs, nb, IdIsNot(nb.id));
  }

  /** A delete keeps the ids of the list unique. */
  lemma {:induction false} DeletedUniqueIds(bs: seq<Budget>, id: nat)
    requires UniqueIds(bs)
    ensures UniqueIds(Deleted(bs, id))
  {
    if bs != [] {
      var init, last := bs[..|bs| - 1], bs[|bs| - 1];
      assert bs == init + [last];
      var d := Deleted(init, id);
      assert UniqueIds(init) by {
        forall i, j | 0 <= i < j < |init| ensures init[i].id != init[j].id {
          assert init[i] == bs[i] && init[j] == bs[j];
        }
      }
      DeletedUniqueIds(init, id);
      FilterSnoc(init, last, IdIsNot(id));
      forall k | 0 <= k < |d| ensures d[k].id != last.id {
        var x := d[k];
        DeletedMembers(init, id, x);
        var p :| 0 <= p < |init| && init[p] == x;
        assert bs[p] == x;
      }
    }
  }

  // -------------------------------------------------------------------- loading

  /** What `fetchBudgets` delivers: a list, some other value, or an error. */
  datatype Fetched = List(budgets: seq<Budget>) | NotAList | Failed

  /** The state of the component that a load sets. */
  datatype View = View(budgets: seq<Budget>, loading: bool, error: string)

  const LoadError := "Failed to load budgets"

  /**
   * The period effect: with the API available, a list is shown as it came,
   * anything else as an empty list, and an error also sets the message;
   * without the API nothing is fetched. Loading ends either way.
   */
  function AfterLoad(apiAvailable: bool, fetched: Fetched, before: View): View {
    if !apiAvailable then before.(loading := false)
    else match fetched
      case List(d) => before.(budgets := d, loading := false)
      case NotAList => before.(budgets := [], loading := false)
      case Failed => View([], false, LoadError)
  }

  /**
   * Loading always ends; the list is the fetched one exactly when a list
   * arrived, and empty for any other answer; the error message is set only
   * by a failed fetch, and an earlier message is not cleared by a later success.
   */
  lemma AfterLoadSpec(apiAvailable: bool, fetched: Fetched, before: View)
    ensures var v := AfterLoad(apiAvailable, fetched, before);
      && !v.loading
      && (apiAvailable && fetched.List? ==> v.budgets == fetched.budgets)
      && (apiAvailable && !fetched.List? ==> v.budgets == [])
      && (!apiAvailable ==> v.budgets == before.budgets)
      && (v.error == LoadError <==> (apiAvailable && fetched.Failed?) || before.error == LoadError)
      && (!(apiAvailable && fetched.Failed?) ==> v.error == before.error)
  {
  }

  // ---------------------------------------------------------- period selector

  datatype MonthOption = MonthOption(value: int, name: string)

  const MonthOptions: seq<MonthOption> := [
    MonthOption(1, "January"), MonthOption(2, "February"), MonthOption(3, "March"),
    MonthOption(4, "April"), MonthOption(5, "May"), MonthOption(6, "June"),
    MonthOption(7, "July"), MonthOption(8, "August"), MonthOption(9, "September"),
    MonthOption(10, "October"), MonthOption(11, "November"), MonthOption(12, "December")
  ]

  /** The months 1 to 12 in calendar order, each with its own name. */
  lemma MonthOptionsSpec()
    ensures |MonthOptions| == 12
    ensures forall i | 0 <= i < 12 :: MonthOptions[i].value == i + 1
    ensures forall i, j | 0 <= i < j < 12 :: MonthOptions[i].name != MonthOptions[j].name
  {
  }

  /** The year choices around the current year. */
  function YearOptions(currentYear: int): (r: seq<int>)
    ensures |r| == 5
    ensures forall i | 0 <= i < 5 :: r[i] == currentYear - 2 + i
  {
    [currentYear - 2, currentYear - 1, currentYear, currentYear + 1, currentYear + 2]
  }

  /** Five consecutive years, ascending, the current one in the middle, none further than two years off. */
  lemma YearOptionsSpec(currentYear: int)
    ensures var r := YearOptions(currentYear);
      && r[2] == currentYear
      && (forall i, j | 0 <= i < j < 5 :: r[i] < r[j])
      && (forall y :: y in r <==> currentYear - 2 <= y <= currentYear + 2)
  {
    var r := YearOptions(currentYear);
    forall y ensures y in r <==> currentYear - 2 <= y <= currentYear + 2 {
      if currentYear - 2 <= y <= currentYear + 2 {
        assert r[y - currentYear + 2] == y;
      }
    }
  }
}
