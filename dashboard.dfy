/** The dashboard's figures: the two counts, the total collected, the
    number of students per level and the sum of payments per month. */
module Dashboard {
  import opened Common
  import opened Records
  import opened Grouping

  /** The group a payment without a month is counted under. */
  const NON_SPECIFIE: string := "Non spécifié"

  /** `totalEleves`: the number of students, which is also what the
      students-per-level figures add up to. */
  function TotalEleves(eleves: seq<Eleve>): (r: nat)
    ensures ValidTally(Repartition(eleves)) && r == Total(Repartition(eleves))
  {
    RepartitionFacts(eleves);
    |eleves|
  }

  /** `totalPaiements`: every payment counts, whether its amount can be read
      or not. */
  function TotalPaiements(paiements: seq<Paiement>): (r: nat)
    ensures r == |Filter(paiements, Readable)| + |Filter(paiements, Not(Readable))|
  {
    FilterPartition(paiements, Readable);
    |paiements|
  }

  /** `totalEncaisse`: the amounts added up from the first payment to the
      last, an amount `parseFloat` cannot read counting 0. */
  function TotalEncaisse(paiements: seq<Paiement>): int {
    if |paiements| == 0 then 0
    else TotalEncaisse(paiements[..|paiements| - 1]) + Amount(paiements[|paiements| - 1])
  }

  /** The amount of the payment can be read. */
  predicate Readable(p: Paiement) {
    p.montant.Some?
  }

  lemma TotalEncaisseAppend(paiements: seq<Paiement>, p: Paiement)
    ensures TotalEncaisse(paiements + [p]) == TotalEncaisse(paiements) + Amount(p)
  {
    assert (paiements + [p])[..|paiements|] == paiements;
  }

  /** The total over two lists of payments is the sum of their totals. */
  lemma {:induction false} TotalEncaisseConcat(a: seq<Paiement>, b: seq<Paiement>)
    ensures TotalEncaisse(a + b) == TotalEncaisse(a) + TotalEncaisse(b)
    decreases |b|
  {
    if |b| > 0 {
      var front, last := b[..|b| - 1], b[|b| - 1];
      assert a + b == (a + front) + [last];
      assert b == front + [last];
      TotalEncaisseConcat(a, front);
      TotalEncaisseAppend(a + front, last);
      TotalEncaisseAppend(front, last);
    } else {
      assert a + b == a;
    }
  }

  /** The total collected is the sum of the amounts that could be read: the
      payments whose amount is unreadable can be removed without changing it. */
  lemma {:induction false} TotalEncaisseOfReadable(paiements: seq<Paiement>)
    ensures TotalEncaisse(paiements) == TotalEncaisse(Filter(paiements, Readable))
  {
    if |paiements| > 0 {
      var front := paiements[..|paiements| - 1];
      var last := paiements[|paiements| - 1];
      var kept := Filter(front, Readable);
      assert TotalEncaisse(paiements) == TotalEncaisse(front) + Amount(last);
      TotalEncaisseOfReadable(front);
      FilterLast(paiements, Readable);
      if Readable(last) {
        assert Filter(paiements, Readable) == kept + [last];
        TotalEncaisseAppend(kept, last);
      } else {
        assert Filter(paiements, Readable) == kept;
      }
    }
  }

  /** A payment with an unreadable amount is still a payment: it adds one to
      the count and nothing to the total. */
  lemma UnreadableAmountCounts(paiements: seq<Paiement>, p: Paiement)
    requires p.montant.None?
    ensures TotalPaiements(paiements + [p]) == TotalPaiements(paiements) + 1
    ensures TotalEncaisse(paiements + [p]) == TotalEncaisse(paiements)
  {
    TotalEncaisseAppend(paiements, p);
  }

  // ---------------------------------------------------------------------
  // Students per level.

  /** The entries the level count folds over: one per student, worth 1. */
  function LevelEntries(eleves: seq<Eleve>): (entries: seq<(string, int)>)
    ensures |entries| == |eleves|
    ensures forall i :: 0 <= i < |eleves| ==> entries[i] == (eleves[i].niveau, 1)
  {
    seq(|eleves|, i requires 0 <= i < |eleves| => (eleves[i].niveau, 1))
  }

  /** Whether a student is of level `niveau`. */
  function OfLevel(niveau: string): Eleve -> bool {
    (e: Eleve) => e.niveau == niveau
  }

  /** The number of students whose level is `niveau`, as a filter counts them. */
  function CountLevel(eleves: seq<Eleve>, niveau: string): nat {
    |Filter(eleves, OfLevel(niveau))|
  }

  lemma {:induction false} LevelEntriesSums(eleves: seq<Eleve>, niveau: string)
    ensures SumFor(LevelEntries(eleves), niveau) == CountLevel(eleves, niveau)
  {
    if |eleves| > 0 {
      var front := eleves[..|eleves| - 1];
      var last := eleves[|eleves| - 1];
      var entries := LevelEntries(eleves);
      LevelEntriesSums(front, niveau);
      assert entries[..|eleves| - 1] == LevelEntries(front);
      assert SumFor(entries, niveau) == SumFor(LevelEntries(front), niveau) + (if last.niveau == niveau then 1 else 0);
      FilterLast(eleves, OfLevel(niveau));
      assert OfLevel(niveau)(last) == (last.niveau == niveau);
    }
  }

  lemma {:induction false} LevelEntriesTotal(eleves: seq<Eleve>)
    ensures SumAll(LevelEntries(eleves)) == |eleves|
  {
    if |eleves| > 0 {
      var front := eleves[..|eleves| - 1];
      LevelEntriesTotal(front);
      assert LevelEntries(eleves)[..|eleves| - 1] == LevelEntries(front);
    }
  }

  lemma LevelEntriesSnoc(eleves: seq<Eleve>, i: nat)
    requires i < |eleves|
    ensures LevelEntries(eleves[..i + 1]) == LevelEntries(eleves[..i]) + [(eleves[i].niveau, 1)]
  {
    var a := LevelEntries(eleves[..i + 1]);
    var b := LevelEntries(eleves[..i]) + [(eleves[i].niveau, 1)];
    forall k | 0 <= k <= i
      ensures a[k] == b[k]
    {
      assert eleves[..i + 1][k] == eleves[k];
      if k < i {
        assert eleves[..i][k] == eleves[k];
      }
    }
  }

  /** The number of students per level, as the fold over the students
      computes it. */
  function Repartition(eleves: seq<Eleve>): Tally<string> {
    Tallied(LevelEntries(eleves))
  }

  /** One more student is one more step of the fold. */
  lemma RepartitionSnoc(eleves: seq<Eleve>, i: nat)
    requires i < |eleves|
    ensures Repartition(eleves[..i + 1]) == Bump(Repartition(eleves[..i]), eleves[i].niveau, 1)
  {
    LevelEntriesSnoc(eleves, i);
    TalliedSnoc(LevelEntries(eleves[..i]), eleves[i].niveau, 1);
  }

  /** The students per level: the keys are exactly the levels that occur,
      each value counts the students of that level, and the values add up
      to the number of students. */
  lemma RepartitionFacts(eleves: seq<Eleve>)
    ensures ValidTally(Repartition(eleves))
    ensures forall niveau :: niveau in Repartition(eleves).value
                             <==> exists i :: 0 <= i < |eleves| && eleves[i].niveau == niveau
    ensures forall niveau :: niveau in Repartition(eleves).value
                             ==> Repartition(eleves).value[niveau] == CountLevel(eleves, niveau)
    ensures Total(Repartition(eleves)) == |eleves|
  {
    var entries := LevelEntries(eleves);
    var t := Repartition(eleves);
    TalliedTotal(entries);
    TalliedKeys(entries);
    TalliedValues(entries);
    LevelEntriesTotal(eleves);
    forall niveau
      ensures niveau in t.value <==> exists i :: 0 <= i < |eleves| && eleves[i].niveau == niveau
      ensures niveau in t.value ==> t.value[niveau] == CountLevel(eleves, niveau)
    {
      LevelEntriesSums(eleves, niveau);
      if exists i :: 0 <= i < |eleves| && eleves[i].niveau == niveau {
        var i :| 0 <= i < |eleves| && eleves[i].niveau == niveau;
        assert entries[i].0 == niveau;
      }
    }
  }

  /** `repartitionNiveau`: the loop that builds the object of students per
      level, proved to build the fold's result. */
  method RepartitionNiveau(eleves: seq<Eleve>) returns (r: Tally<string>)
    ensures r == Repartition(eleves)
    ensures ValidTally(r)
    ensures forall niveau :: niveau in r.value <==> exists i :: 0 <= i < |eleves| && eleves[i].niveau == niveau
    ensures forall niveau :: niveau in r.value ==> r.value[niveau] == CountLevel(eleves, niveau)
    ensures Total(r) == TotalEleves(eleves)
  {
    var order: seq<string> := [];
    var acc: map<string, int> := map[];
    for i := 0 to |eleves|
      invariant Tally(order, acc) == Repartition(eleves[..i])
    {
      var key := eleves[i].niveau;
      RepartitionSnoc(eleves, i);
      var previous := if key in acc then acc[key] else 0;
      if key !in acc {
        order := order + [key];
      }
      acc := acc[key := previous + 1];
    }
    r := Tally(order, acc);
    assert eleves[..|eleves|] == eleves;
    RepartitionFacts(eleves);
  }

  // ---------------------------------------------------------------------
  // Payments per month.

  /** The group a payment is counted under: its month, or `Non spécifié`
      when the month is missing. */
  function MoisKey(p: Paiement): (r: string)
    ensures r != ""
    ensures p.mois != "" ==> r == p.mois
    ensures p.mois == "" ==> r == NON_SPECIFIE
  {
    if p.mois == "" then NON_SPECIFIE else p.mois
  }

  /** The entries the monthly sum folds over: one per payment, worth its amount. */
  function MonthEntries(paiements: seq<Paiement>): (entries: seq<(string, int)>)
    ensures |entries| == |paiements|
    ensures forall i :: 0 <= i < |paiements| ==> entries[i] == (MoisKey(paiements[i]), Amount(paiements[i]))
  {
    seq(|paiements|, i requires 0 <= i < |paiements| => (MoisKey(paiements[i]), Amount(paiements[i])))
  }

  /** Whether a payment is counted under `mois`. */
  function InGroup(mois: string): Paiement -> bool {
    (p: Paiement) => MoisKey(p) == mois
  }

  /** What the payments grouped under `mois` add up to. */
  function MonthSum(paiements: seq<Paiement>, mois: string): int {
    TotalEncaisse(Filter(paiements, InGroup(mois)))
  }

  lemma {:induction false} MonthEntriesSums(paiements: seq<Paiement>, mois: string)
    ensures SumFor(MonthEntries(paiements), mois) == MonthSum(paiements, mois)
  {
    if |paiements| > 0 {
      var front := paiements[..|paiements| - 1];
      var last := paiements[|paiements| - 1];
      var entries := MonthEntries(paiements);
      var kept := Filter(front, InGroup(mois));
      MonthEntriesSums(front, mois);
      assert entries[..|paiements| - 1] == MonthEntries(front);
      assert SumFor(entries, mois) == SumFor(MonthEntries(front), mois) + (if MoisKey(last) == mois then Amount(last) else 0);
      FilterLast(paiements, InGroup(mois));
      if MoisKey(last) == mois {
        assert Filter(paiements, InGroup(mois)) == kept + [last];
        TotalEncaisseAppend(kept, last);
      } else {
        assert Filter(paiements, InGroup(mois)) == kept;
      }
    }
  }

  lemma {:induction false} MonthEntriesTotal(paiements: seq<Paiement>)
    ensures SumAll(MonthEntries(paiements)) == TotalEncaisse(paiements)
  {
    if |paiements| > 0 {
      var front := paiements[..|paiements| - 1];
      MonthEntriesTotal(front);
      assert MonthEntries(paiements)[..|paiements| - 1] == MonthEntries(front);
    }
  }

  lemma MonthEntriesSnoc(paiements: seq<Paiement>, i: nat)
    requires i < |paiements|
    ensures MonthEntries(paiements[..i + 1])
            == MonthEntries(paiements[..i]) + [(MoisKey(paiements[i]), Amount(paiements[i]))]
  {
    var a := MonthEntries(paiements[..i + 1]);
    var b := MonthEntries(paiements[..i]) + [(MoisKey(paiements[i]), Amount(paiements[i]))];
    forall k | 0 <= k <= i
      ensures a[k] == b[k]
    {
      assert paiements[..i + 1][k] == paiements[k];
      if k < i {
        assert paiements[..i][k] == paiements[k];
      }
    }
  }

  /** The sum of the payments per month, as the fold over the payments
      computes it. */
  function ParMois(paiements: seq<Paiement>): Tally<string> {
    Tallied(MonthEntries(paiements))
  }

  /** One more payment is one more step of the fold. */
  lemma ParMoisSnoc(paiements: seq<Paiement>, i: nat)
    requires i < |paiements|
    ensures ParMois(paiements[..i + 1]) == Bump(ParMois(paiements[..i]), MoisKey(paiements[i]), Amount(paiements[i]))
  {
    MonthEntriesSnoc(paiements, i);
    TalliedSnoc(MonthEntries(paiements[..i]), MoisKey(paiements[i]), Amount(paiements[i]));
  }

  /** The groups of the payments per month: every payment is counted under
      its month, or under `Non spécifié` when it has none, so none is
      dropped. */
  lemma ParMoisKeys(paiements: seq<Paiement>)
    ensures ValidTally(ParMois(paiements))
    ensures forall mois :: mois in ParMois(paiements).value
                           <==> exists i :: 0 <= i < |paiements| && MoisKey(paiements[i]) == mois
    ensures forall i :: 0 <= i < |paiements| && paiements[i].mois == "" ==> NON_SPECIFIE in ParMois(paiements).value
  {
    var entries := MonthEntries(paiements);
    var t := ParMois(paiements);
    TalliedTotal(entries);
    TalliedKeys(entries);
    forall mois
      ensures mois in t.value <==> exists i :: 0 <= i < |paiements| && MoisKey(paiements[i]) == mois
    {
      if exists i :: 0 <= i < |paiements| && MoisKey(paiements[i]) == mois {
        var i :| 0 <= i < |paiements| && MoisKey(paiements[i]) == mois;
        assert entries[i].0 == mois;
      }
    }
  }

  /** The sums of the payments per month: each value is the total of its
      group, and the values add up to the total collected. */
  lemma ParMoisValues(paiements: seq<Paiement>)
    ensures ValidTally(ParMois(paiements))
    ensures forall mois :: mois in ParMois(paiements).value
                           ==> ParMois(paiements).value[mois] == MonthSum(paiements, mois)
    ensures Total(ParMois(paiements)) == TotalEncaisse(paiements)
  {
    var entries := MonthEntries(paiements);
    TalliedTotal(entries);
    TalliedValues(entries);
    MonthEntriesTotal(paiements);
    forall mois | mois in ParMois(paiements).value
      ensures ParMois(paiements).value[mois] == MonthSum(paiements, mois)
    {
      MonthEntriesSums(paiements, mois);
    }
  }

  /** `paiementsParMois`: the loop that builds the object of sums per month,
      proved to build the fold's result. */
  method PaiementsParMois(paiements: seq<Paiement>) returns (r: Tally<string>)
    ensures r == ParMois(paiements)
    ensures ValidTally(r)
    ensures forall mois :: mois in r.value <==> exists i :: 0 <= i < |paiements| && MoisKey(paiements[i]) == mois
    ensures forall i :: 0 <= i < |paiements| && paiements[i].mois == "" ==> NON_SPECIFIE in r.value
    ensures forall mois :: mois in r.value ==> r.value[mois] == MonthSum(paiements, mois)
    ensures Total(r) == TotalEncaisse(paiements)
  {
    var order: seq<string> := [];
    var acc: map<string, int> := map[];
    for i := 0 to |paiements|
      invariant Tally(order, acc) == ParMois(paiements[..i])
    {
      var key := MoisKey(paiements[i]);
      ParMoisSnoc(paiements, i);
      var previous := if key in acc then acc[key] else 0;
      if key !in acc {
        order := order + [key];
      }
      acc := acc[key := previous + Amount(paiements[i])];
    }
    r := Tally(order, acc);
    assert paiements[..|paiements|] == paiements;
    ParMoisKeys(paiements);
    ParMoisValues(paiements);
  }
}
