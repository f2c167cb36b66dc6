/** The warranty card (src/components/dashboard/warranty-status.tsx): the machines whose warranty
    ends within the next 90 days, each with its days left.

    Reading the clock and parsing the expiry date are outside the model: `daysLeft` gives, for a
    machine, the whole days from the card's single `today` to its expiry, or `None` when the expiry
    text is not a date (then every comparison with the day count is false). */
module WarrantyStatus {
  import opened Wrappers
  import opened Types
  import opened Lists

  const Window := 90
  const NothingExpiring := "No warranties expiring in the next 90 days."

  datatype Entry = Entry(machine: Machine, daysLeft: int)

  datatype View = Expiring(entries: seq<Entry>) | NoneExpiring(message: string)

  /** The filter's test: strictly after today and at most 90 days away. */
  predicate ExpiresSoon(days: Option<int>)
  {
    days.Some? && 0 < days.value <= Window
  }

  /** `expiringSoon`. */
  function ExpiringSoon(machines: seq<Machine>, daysLeft: Machine -> Option<int>): (r: seq<Machine>)
    ensures forall i :: 0 <= i < |r| ==> ExpiresSoon(daysLeft(r[i]))
    ensures forall i :: 0 <= i < |machines| && ExpiresSoon(daysLeft(machines[i])) ==> machines[i] in r
  {
    Filter(machines, m => ExpiresSoon(daysLeft(m)))
  }

  /** The card: one entry per listed machine with the days left computed from the same `today`, or
      the fixed message when none is listed. */
  function Card(machines: seq<Machine>, daysLeft: Machine -> Option<int>): (r: View)
    ensures r.NoneExpiring? <==> ExpiringSoon(machines, daysLeft) == []
    ensures r.NoneExpiring? ==> r.message == NothingExpiring
    ensures r.Expiring? ==>
              var soon := ExpiringSoon(machines, daysLeft);
              && |r.entries| == |soon|
              && forall i :: 0 <= i < |soon| ==>
                   r.entries[i].machine == soon[i] && Some(r.entries[i].daysLeft) == daysLeft(soon[i])
  {
    var soon := ExpiringSoon(machines, daysLeft);
    if soon == [] then NoneExpiring(NothingExpiring)
    else Expiring(seq(|soon|, i requires 0 <= i < |soon| => Entry(soon[i], daysLeft(soon[i]).value)))
  }

  /** A machine is listed exactly when its day count is between 1 and 90; an expired warranty, one
      ending today, one 91 or more days away, and an unreadable date are all left out. */
  lemma ListedIffWithinWindow(machines: seq<Machine>, daysLeft: Machine -> Option<int>, k: nat)
    requires k < |machines|
    ensures machines[k] in ExpiringSoon(machines, daysLeft) <==> ExpiresSoon(daysLeft(machines[k]))
  {
    var soon := ExpiringSoon(machines, daysLeft);
    if machines[k] in soon {
      var i :| 0 <= i < |soon| && soon[i] == machines[k];
      assert ExpiresSoon(daysLeft(soon[i]));
    }
  }

  /** Every badge shows a number from 1 to 90, and the entries follow the machine list's order. */
  lemma BadgesWithinWindow(machines: seq<Machine>, daysLeft: Machine -> Option<int>)
    ensures Card(machines, daysLeft).Expiring? ==>
              var entries := Card(machines, daysLeft).entries;
              forall i :: 0 <= i < |entries| ==> 1 <= entries[i].daysLeft <= Window
    ensures IsSubsequence(ExpiringSoon(machines, daysLeft), machines)
  {
    FilterIsSubsequence(machines, m => ExpiresSoon(daysLeft(m)));
  }

  /** The window's edges: day 1 and day 90 are in, day 0 and day 91 are out. */
  lemma WindowEdges()
    ensures ExpiresSoon(Some(1)) && ExpiresSoon(Some(90))
    ensures !ExpiresSoon(Some(0)) && !ExpiresSoon(Some(91)) && !ExpiresSoon(None)
  {
  }
}
