/** The two entities of the tutoring centre, a student (`eleve`) and a
    payment (`paiement`), as the components receive them, and the shared
    conventions about their fields. */
module Records {
  import opened Common

  /** A student. A field the record lacks is modelled as the empty string.
      Most readers treat a missing field and an empty one alike; the level
      grouping and the name search do not, and the model does not follow
      them there. */
  datatype Eleve = Eleve(
    id: int,
    nom: string,
    niveau: string,
    dateInscription: string,
    typeCours: string)

  /** A payment. `montant` is the number `parseFloat` reads from the stored
      amount; `None` stands for a value it cannot read (NaN). An empty
      `mois` is a payment whose month is missing. */
  datatype Paiement = Paiement(
    id: int,
    eleveId: int,
    montant: Option<int>,
    mois: string,
    dateVersement: string)

  /** JavaScript's `s || d` for a string `s`: the empty string is falsy. */
  function OrElse(s: string, d: string): (r: string)
    ensures r == s || r == d
    ensures s != "" ==> r == s
    ensures s == "" ==> r == d
  {
    if s == "" then d else s
  }

  /** `parseFloat(p.montant) || 0`: what a payment adds to a total. */
  function Amount(p: Paiement): int {
    p.montant.GetOr(0)
  }

  /** The twelve month labels a payment's `mois` is chosen from (`MOIS` in
      the monthly tracking grid, `moisOptions` in the payment form). */
  const MOIS: seq<string> := [
    "Janvier", "Février", "Mars", "Avril", "Mai", "Juin",
    "Juillet", "Août", "Septembre", "Octobre", "Novembre", "Décembre"
  ]

  /** The course type a new or incomplete student record gets. */
  const DEFAULT_TYPE_COURS: string := "classe"
}
