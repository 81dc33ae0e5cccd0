/** The monthly tracking grid: which student paid for which month, the
    paid / unpaid / all filter over the students, and the counts shown above
    the grid. The selected year is only displayed: neither the filter nor
    the counts take it as an input. */
module MonthlyTracking {
  import opened Common
  import opened Records

  /** The five years the year selector offers around `currentYear`, the
      year the clock reports. */
  function Years(currentYear: int): (r: seq<int>)
    ensures |r| == 5
    ensures r[0] == currentYear - 2 && r[2] == currentYear && r[4] == currentYear + 2
    ensures forall i :: 0 <= i < 4 ==> r[i + 1] == r[i] + 1
  {
    seq(5, i => currentYear - 2 + i)
  }

  /** Whether a payment is the one of student `eleveId` for month `mois`,
      both compared exactly. */
  function Matches(eleveId: int, mois: string): Paiement -> bool {
    (p: Paiement) => p.eleveId == eleveId && p.mois == mois
  }

  /** `hasPaiement`. */
  function HasPaiement(paiements: seq<Paiement>, eleveId: int, mois: string): (r: bool)
    ensures r <==> exists i :: 0 <= i < |paiements| && paiements[i].eleveId == eleveId && paiements[i].mois == mois
  {
    Any(paiements, Matches(eleveId, mois))
  }

  /** `getPaiement`: the first payment of the student for the month, in list
      order; there is one exactly when `hasPaiement` holds. */
  function GetPaiement(paiements: seq<Paiement>, eleveId: int, mois: string): (r: Option<Paiement>)
    ensures r.Some? <==> HasPaiement(paiements, eleveId, mois)
    ensures r.Some? ==> r.value.eleveId == eleveId && r.value.mois == mois
    ensures r.Some? ==> exists i :: FirstMatch(paiements, Matches(eleveId, mois), i) && paiements[i] == r.value
  {
    Find(paiements, Matches(eleveId, mois))
  }

  /** Whether student `eleveId` has a payment for month `mois`. */
  function PaidFor(paiements: seq<Paiement>, eleveId: int): string -> bool {
    (mois: string) => HasPaiement(paiements, eleveId, mois)
  }

  /** `MOIS.some((mois) => hasPaiement(id, mois))`: the student has a payment
      whose month is one of the twelve labels. A payment under any other
      label, or with no month, does not count. */
  function PaidSomeMonth(paiements: seq<Paiement>, eleveId: int): (r: bool)
    ensures r <==> exists i :: 0 <= i < |paiements| && paiements[i].eleveId == eleveId && paiements[i].mois in MOIS
  {
    PaidForSome(paiements, eleveId, MOIS);
    Any(MOIS, PaidFor(paiements, eleveId))
  }

  /** `months.some((mois) => hasPaiement(id, mois))` holds exactly when a
      payment of the student carries one of the `months`. */
  lemma PaidForSome(paiements: seq<Paiement>, eleveId: int, months: seq<string>)
    ensures Any(months, PaidFor(paiements, eleveId))
            <==> exists i :: 0 <= i < |paiements| && paiements[i].eleveId == eleveId && paiements[i].mois in months
  {
    if Any(months, PaidFor(paiements, eleveId)) {
      var j :| 0 <= j < |months| && PaidFor(paiements, eleveId)(months[j]);
      assert HasPaiement(paiements, eleveId, months[j]);
    }
    if exists i :: 0 <= i < |paiements| && paiements[i].eleveId == eleveId && paiements[i].mois in months {
      var i :| 0 <= i < |paiements| && paiements[i].eleveId == eleveId && paiements[i].mois in months;
      var j :| 0 <= j < |months| && months[j] == paiements[i].mois;
      assert PaidFor(paiements, eleveId)(months[j]);
    }
  }

  /** The student paid for at least one month. */
  function Paid(paiements: seq<Paiement>): Eleve -> bool {
    (e: Eleve) => PaidSomeMonth(paiements, e.id)
  }

  /** The predicate the `filteredEleves` filter applies for `filterType`. */
  function Keep(filterType: string, paiements: seq<Paiement>): Eleve -> bool {
    (e: Eleve) =>
      if filterType == "tous" then true
      else if filterType == "payes" then PaidSomeMonth(paiements, e.id)
      else if filterType == "nonPayes" then !PaidSomeMonth(paiements, e.id)
      else true
  }

  /** `filteredEleves`: the students the grid shows, in list order. */
  function FilteredEleves(eleves: seq<Eleve>, paiements: seq<Paiement>, filterType: string): (r: seq<Eleve>)
    ensures IsSubsequence(r, eleves)
    ensures filterType == "payes" ==> forall i :: 0 <= i < |r| ==> PaidSomeMonth(paiements, r[i].id)
    ensures filterType == "nonPayes" ==> forall i :: 0 <= i < |r| ==> !PaidSomeMonth(paiements, r[i].id)
  {
    Filter(eleves, Keep(filterType, paiements))
  }

  /** `'tous'`, and any value other than `'payes'` and `'nonPayes'`, shows
      every student. */
  lemma FilterAllStudents(eleves: seq<Eleve>, paiements: seq<Paiement>, filterType: string)
    requires filterType != "payes" && filterType != "nonPayes"
    ensures FilteredEleves(eleves, paiements, filterType) == eleves
  {
    FilterKeepsAll(eleves, Keep(filterType, paiements));
  }

  /** `'payes'` keeps exactly the students who paid for some month, and
      `'nonPayes'` exactly the others. */
  lemma FilterPaidStudents(eleves: seq<Eleve>, paiements: seq<Paiement>)
    ensures FilteredEleves(eleves, paiements, "payes") == Filter(eleves, Paid(paiements))
    ensures FilteredEleves(eleves, paiements, "nonPayes") == Filter(eleves, Not(Paid(paiements)))
  {
    FilterCongruent(eleves, Keep("payes", paiements), Paid(paiements));
    FilterCongruent(eleves, Keep("nonPayes", paiements), Not(Paid(paiements)));
  }

  /** No student is both in the paid list and in the unpaid list. */
  lemma PaidUnpaidDisjoint(eleves: seq<Eleve>, paiements: seq<Paiement>)
    ensures var payes := FilteredEleves(eleves, paiements, "payes");
            var nonPayes := FilteredEleves(eleves, paiements, "nonPayes");
            forall i, j :: 0 <= i < |payes| && 0 <= j < |nonPayes| ==> payes[i] != nonPayes[j]
  {
  }

  /** The counts shown above the grid. */
  datatype Stats = Stats(total: nat, payes: nat, nonPayes: nat)

  /** `stats`: every student is counted once, as paid or as unpaid, and each
      count is the length of the list the matching filter shows. */
  function ComputeStats(eleves: seq<Eleve>, paiements: seq<Paiement>): (r: Stats)
    ensures r.total == |eleves|
    ensures r.payes + r.nonPayes == r.total
    ensures r.payes == |FilteredEleves(eleves, paiements, "payes")|
    ensures r.nonPayes == |FilteredEleves(eleves, paiements, "nonPayes")|
  {
    FilterPartition(eleves, Paid(paiements));
    FilterPaidStudents(eleves, paiements);
    Stats(|eleves|, |Filter(eleves, Paid(paiements))|, |Filter(eleves, Not(Paid(paiements)))|)
  }
}
