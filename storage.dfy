/** The browser-storage layer: the lists of students, payments and levels
    kept under three keys, the completion of records before they are saved,
    and the seeding of an empty store. */
module Storage {
  import opened Common
  import opened Records

  const ELEVES_KEY: string := "eleves"
  const PAIEMENTS_KEY: string := "paiements"
  const NIVEAUX_KEY: string := "niveaux"

  /** The levels offered before any have been saved. */
  const DEFAULT_NIVEAUX: seq<string> := ["BAC D", "BAC A", "BAC C", "BAC B", "Seconde", "Première", "Terminale"]

  /** The students an empty store starts with. */
  const INITIAL_ELEVES: seq<Eleve> := [
    Eleve(1, "Benine Abdel Aziz", "BAC D", "2024-01-15", "classe"),
    Eleve(2, "Boubekar Maham", "BAC D", "2024-01-16", "classe"),
    Eleve(3, "Hamoud med babe", "BAC D", "2024-01-17", "particulier"),
    Eleve(4, "محمد بوحمادي", "BAC D", "2024-01-18", "classe"),
    Eleve(5, "محمد الأمين التراد", "BAC D", "2024-01-19", "particulier")
  ]

  // ---------------------------------------------------------------------
  // Completing records before they are saved.

  /** A student record as the application hands it over to be saved: any
      field but the id may be missing (`None`). */
  datatype EleveInput = EleveInput(
    id: int,
    nom: Option<string>,
    niveau: Option<string>,
    dateInscription: Option<string>,
    typeCours: Option<string>)

  /** A payment record as it is handed over to be saved. */
  datatype PaiementInput = PaiementInput(
    id: int,
    eleveId: int,
    montant: Option<int>,
    mois: Option<string>,
    dateVersement: Option<string>)

  /** JavaScript's `v || d` for a string property that may be missing: a
      missing or empty value gives `d`. */
  function Or(v: Option<string>, d: string): (r: string)
    ensures v.None? || v == Some("") ==> r == d
    ensures v.Some? && v.value != "" ==> r == v.value
  {
    match v
    case None => d
    case Some(s) => OrElse(s, d)
  }

  /** A student record completed for saving (`today` is the date the source
      reads from the clock): a missing name or level becomes empty, a
      missing date becomes today and a missing course type `classe`;
      present values are kept. */
  function CompleteEleve(x: EleveInput, today: string): (r: Eleve)
    ensures r.id == x.id
    ensures x.nom.Some? ==> r.nom == x.nom.value
    ensures x.nom.None? ==> r.nom == ""
    ensures x.niveau.Some? ==> r.niveau == x.niveau.value
    ensures x.niveau.None? ==> r.niveau == ""
    ensures x.dateInscription.Some? && x.dateInscription.value != "" ==> r.dateInscription == x.dateInscription.value
    ensures (x.dateInscription.None? || x.dateInscription == Some("")) ==> r.dateInscription == today
    ensures x.typeCours.Some? && x.typeCours.value != "" ==> r.typeCours == x.typeCours.value
    ensures (x.typeCours.None? || x.typeCours == Some("")) ==> r.typeCours == DEFAULT_TYPE_COURS
  {
    Eleve(x.id, Or(x.nom, ""), Or(x.niveau, ""), Or(x.dateInscription, today), Or(x.typeCours, DEFAULT_TYPE_COURS))
  }

  /** The `map` in `saveEleves`. */
  function CompleteEleves(xs: seq<EleveInput>, today: string): (r: seq<Eleve>)
    ensures |r| == |xs|
    ensures forall i :: 0 <= i < |xs| ==> r[i] == CompleteEleve(xs[i], today)
  {
    seq(|xs|, i requires 0 <= i < |xs| => CompleteEleve(xs[i], today))
  }

  /** A payment record completed for saving: id, student id and amount are
      kept as they are, a missing month becomes empty and a missing payment
      date becomes today. */
  function CompletePaiement(x: PaiementInput, today: string): (r: Paiement)
    ensures r.id == x.id && r.eleveId == x.eleveId && r.montant == x.montant
    ensures x.mois.Some? ==> r.mois == x.mois.value
    ensures x.mois.None? ==> r.mois == ""
    ensures x.dateVersement.Some? && x.dateVersement.value != "" ==> r.dateVersement == x.dateVersement.value
    ensures (x.dateVersement.None? || x.dateVersement == Some("")) ==> r.dateVersement == today
  {
    Paiement(x.id, x.eleveId, x.montant, Or(x.mois, ""), Or(x.dateVersement, today))
  }

  /** The `map` in `savePaiements`. */
  function CompletePaiements(xs: seq<PaiementInput>, today: string): (r: seq<Paiement>)
    ensures |r| == |xs|
    ensures forall i :: 0 <= i < |xs| ==> r[i] == CompletePaiement(xs[i], today)
  {
    seq(|xs|, i requires 0 <= i < |xs| => CompletePaiement(xs[i], today))
  }

  /** A stored student handed back to be saved, every field present. */
  function EleveInputOf(e: Eleve): EleveInput {
    EleveInput(e.id, Some(e.nom), Some(e.niveau), Some(e.dateInscription), Some(e.typeCours))
  }

  function PaiementInputOf(p: Paiement): PaiementInput {
    PaiementInput(p.id, p.eleveId, p.montant, Some(p.mois), Some(p.dateVersement))
  }

  /** A student whose date and course type are filled in is saved as it is. */
  lemma CompleteEleveKeepsComplete(e: Eleve, today: string)
    requires e.dateInscription != "" && e.typeCours != ""
    ensures CompleteEleve(EleveInputOf(e), today) == e
  {
  }

  /** Completing is idempotent: saving a saved list again stores the same
      list, whatever the day. */
  lemma {:induction false} CompleteElevesIdempotent(xs: seq<EleveInput>, today: string, later: string)
    requires today != ""
    ensures var saved := CompleteEleves(xs, today);
            CompleteEleves(seq(|saved|, i requires 0 <= i < |saved| => EleveInputOf(saved[i])), later) == saved
  {
    var saved := CompleteEleves(xs, today);
    var again := CompleteEleves(seq(|saved|, i requires 0 <= i < |saved| => EleveInputOf(saved[i])), later);
    forall i | 0 <= i < |saved|
      ensures again[i] == saved[i]
    {
      CompleteEleveKeepsComplete(saved[i], later);
    }
  }

  lemma {:induction false} CompletePaiementsIdempotent(xs: seq<PaiementInput>, today: string, later: string)
    requires today != ""
    ensures var saved := CompletePaiements(xs, today);
            CompletePaiements(seq(|saved|, i requires 0 <= i < |saved| => PaiementInputOf(saved[i])), later) == saved
  {
    var saved := CompletePaiements(xs, today);
    var again := CompletePaiements(seq(|saved|, i requires 0 <= i < |saved| => PaiementInputOf(saved[i])), later);
    forall i | 0 <= i < |saved|
      ensures again[i] == saved[i]
    {
      assert saved[i].dateVersement != "";
    }
  }

  /** The seed students are complete: saving them changes nothing. */
  lemma SeedIsComplete(today: string)
    ensures CompleteEleves(seq(5, i requires 0 <= i < 5 => EleveInputOf(INITIAL_ELEVES[i])), today) == INITIAL_ELEVES
  {
    forall i | 0 <= i < 5
      ensures CompleteEleve(EleveInputOf(INITIAL_ELEVES[i]), today) == INITIAL_ELEVES[i]
    {
      CompleteEleveKeepsComplete(INITIAL_ELEVES[i], today);
    }
  }

  /** The seed students have the ids 1 to 5, in order. */
  lemma SeedIds()
    ensures |INITIAL_ELEVES| == 5
    ensures forall i :: 0 <= i < 5 ==> INITIAL_ELEVES[i].id == i + 1
  {
  }

  // ---------------------------------------------------------------------
  // The store.

  /** What a key holds: one of the three lists (the source keeps them as
      JSON text; the text is not modelled). */
  datatype Stored =
    | ElevesData(eleves: seq<Eleve>)
    | PaiementsData(paiements: seq<Paiement>)
    | NiveauxData(niveaux: seq<string>)

  /** The browser's key-value store, as far as the application uses it. */
  class LocalStore {
    var items: map<string, Stored>

    /** Each key holds the list it is named after. */
    ghost predicate Valid()
      reads this
    {
      && (ELEVES_KEY in items ==> items[ELEVES_KEY].ElevesData?)
      && (PAIEMENTS_KEY in items ==> items[PAIEMENTS_KEY].PaiementsData?)
      && (NIVEAUX_KEY in items ==> items[NIVEAUX_KEY].NiveauxData?)
    }

    /** A store holding nothing, as on a first visit. */
    constructor()
      ensures Valid() && items == map[]
    {
      items := map[];
    }

    /** `getEleves`: the stored students; an empty store is first seeded
        with the initial students, which are returned. */
    method GetEleves() returns (r: seq<Eleve>)
      requires Valid()
      modifies this
      ensures Valid()
      ensures ELEVES_KEY in old(items) ==> r == old(items)[ELEVES_KEY].eleves && items == old(items)
      ensures ELEVES_KEY !in old(items) ==>
                r == INITIAL_ELEVES && items == old(items)[ELEVES_KEY := ElevesData(INITIAL_ELEVES)]
    {
      if ELEVES_KEY in items {
        return items[ELEVES_KEY].eleves;
      }
      items := items[ELEVES_KEY := ElevesData(INITIAL_ELEVES)];
      r := INITIAL_ELEVES;
    }

    /** `saveEleves`: the completed students replace the stored ones. When
        the browser refuses the write (`refused`, e.g. the quota is full),
        the error is only logged and the store is unchanged. */
    method SaveEleves(xs: seq<EleveInput>, today: string, refused: bool)
      requires Valid()
      modifies this
      ensures Valid()
      ensures !refused ==> items == old(items)[ELEVES_KEY := ElevesData(CompleteEleves(xs, today))]
      ensures refused ==> items == old(items)
    {
      if !refused {
        items := items[ELEVES_KEY := ElevesData(CompleteEleves(xs, today))];
      }
    }

    /** `getPaiements`: the stored payments, or none; nothing is written. */
    method GetPaiements() returns (r: seq<Paiement>)
      requires Valid()
      ensures PAIEMENTS_KEY in items ==> r == items[PAIEMENTS_KEY].paiements
      ensures PAIEMENTS_KEY !in items ==> r == []
    {
      if PAIEMENTS_KEY in items {
        r := items[PAIEMENTS_KEY].paiements;
      } else {
        r := [];
      }
    }

    /** `savePaiements`: the completed payments replace the stored ones,
        unless the browser refuses the write. */
    method SavePaiements(xs: seq<PaiementInput>, today: string, refused: bool)
      requires Valid()
      modifies this
      ensures Valid()
      ensures !refused ==> items == old(items)[PAIEMENTS_KEY := PaiementsData(CompletePaiements(xs, today))]
      ensures refused ==> items == old(items)
    {
      if !refused {
        items := items[PAIEMENTS_KEY := PaiementsData(CompletePaiements(xs, today))];
      }
    }

    /** `getNiveaux`: the stored levels; an empty store is first seeded with
        the default levels, which are returned. */
    method GetNiveaux() returns (r: seq<string>)
      requires Valid()
      modifies this
      ensures Valid()
      ensures NIVEAUX_KEY in old(items) ==> r == old(items)[NIVEAUX_KEY].niveaux && items == old(items)
      ensures NIVEAUX_KEY !in old(items) ==>
                r == DEFAULT_NIVEAUX && items == old(items)[NIVEAUX_KEY := NiveauxData(DEFAULT_NIVEAUX)]
    {
      if NIVEAUX_KEY in items {
        return items[NIVEAUX_KEY].niveaux;
      }
      items := items[NIVEAUX_KEY := NiveauxData(DEFAULT_NIVEAUX)];
      r := DEFAULT_NIVEAUX;
    }

    /** `saveNiveaux`: the levels replace the stored ones, as given. */
    method SaveNiveaux(niveaux: seq<string>)
      requires Valid()
      modifies this
      ensures Valid()
      ensures items == old(items)[NIVEAUX_KEY := NiveauxData(niveaux)]
    {
      items := items[NIVEAUX_KEY := NiveauxData(niveaux)];
    }
  }

  /** Saved levels are read back as saved, and the read writes nothing. */
  method SaveThenGetNiveaux(store: LocalStore, niveaux: seq<string>) returns (r: seq<string>)
    requires store.Valid()
    modifies store
    ensures store.Valid()
    ensures r == niveaux
    ensures store.items == old(store.items)[NIVEAUX_KEY := NiveauxData(niveaux)]
  {
    store.SaveNiveaux(niveaux);
    r := store.GetNiveaux();
  }

  /** A first read of a new store seeds it, and a second read returns the
      same students without writing again. */
  method ReadTwiceFromEmpty() returns (first: seq<Eleve>, second: seq<Eleve>)
    ensures first == INITIAL_ELEVES && second == INITIAL_ELEVES
  {
    var store := new LocalStore();
    first := store.GetEleves();
    second := store.GetEleves();
  }

  /** Saved students are read back completed, and the other keys are not
      touched. */
  method SaveThenGetEleves(store: LocalStore, xs: seq<EleveInput>, today: string) returns (r: seq<Eleve>)
    requires store.Valid()
    modifies store
    ensures store.Valid()
    ensures r == CompleteEleves(xs, today)
    ensures |r| == |xs| && forall i :: 0 <= i < |xs| ==> r[i].id == xs[i].id
    ensures forall k :: k != ELEVES_KEY && k in old(store.items) ==> k in store.items && store.items[k] == old(store.items)[k]
  {
    store.SaveEleves(xs, today, false);
    r := store.GetEleves();
  }
}
