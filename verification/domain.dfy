/** The business-domain tagger `extraire_domaine` of the cleaning stage: an
    ordered list of keyword rules over the lower-cased title, the first rule
    with a keyword inside the title wins, and "Autre" is the fallback. */
module Domain {
  import opened Wrappers
  import opened Text

  /** One rule: the tag it assigns and the keywords that trigger it. */
  datatype Rule = Rule(tag: string, keywords: seq<string>)

  const Autre: string := "Autre"

  const RestaurationKeywords: seq<string> :=
    ["cuisinier", "serveur", "restauration", "hôtel", "hotel", "chef de rang", "restaurant"]
  const LogistiqueKeywords: seq<string> :=
    ["logistique", "chauffeur", "livreur", "transport", "pl de nuit", "magasinier", "cariste"]
  const BtpKeywords: seq<string> :=
    ["conducteur de travaux", "chantier", "géotechnique", "geotechnique", "ingénieur travaux",
     "travaux publics", "bâtiment", "batiment", "scierie"]
  const EnergieKeywords: seq<string> :=
    ["électricien", "electricien", "électricité", "electricite", "électrique", "electric",
     "énergie", "energie", "technicien", "maintenance"]
  const QualiteKeywords: seq<string> :=
    ["qhse", "qse", "qualité", "qualite", "sécurité", "securite", "hse"]
  const FinanceKeywords: seq<string> :=
    ["actuaire", "risques", "assurances", "assurance", "comptable", "comptabilité", "audit",
     "contrôle de gestion", "controle de gestion"]
  const InformatiqueKeywords: seq<string> :=
    ["développeur", "developpeur", "développeuse", "developer",
     "informatique", "data", "si ", "système d'information", "systèmes d'information",
     "logiciel", "software", "it", "tech", "numérique", "digital", "progiciel"]
  const CommerceKeywords: seq<string> :=
    ["commercial", "vente", "vendeur", "magasin", "magasinier",
     "conseiller de vente", "conseiller client", "relation client",
     "directeur de magasin", "responsable magasin"]
  const AdministrationKeywords: seq<string> :=
    ["assistant", "assistante", "administratif", "administrative",
     "gestionnaire", "secrétaire", "back office"]
  const ManagementKeywords: seq<string> :=
    ["manager", "responsable", "directeur", "directrice",
     "chef de projet", "chef de département", "chef d'équipe", "chef d equipe",
     "responsable agence", "responsable des projets"]

  /** The rule table, highest priority first. */
  const Rules: seq<Rule> := [
    Rule("Restauration", RestaurationKeywords),
    Rule("Logistique", LogistiqueKeywords),
    Rule("BTP", BtpKeywords),
    Rule("Énergie / Technique", EnergieKeywords),
    Rule("Qualité / QHSE", QualiteKeywords),
    Rule("Finance / Assurance", FinanceKeywords),
    Rule("Informatique", InformatiqueKeywords),
    Rule("Commerce", CommerceKeywords),
    Rule("Administration", AdministrationKeywords),
    Rule("Management", ManagementKeywords)
  ]

  /** Every tag the tagger can produce. */
  const Tags: set<string> :=
    {"Restauration", "Logistique", "BTP", "Énergie / Technique", "Qualité / QHSE",
     "Finance / Assurance", "Informatique", "Commerce", "Administration", "Management", Autre}

  /** Python's `any(m in t for m in rule.keywords)`. */
  predicate Fires(t: string, rule: Rule) {
    ContainsAny(t, rule.keywords)
  }

  /** The index of the first rule with a keyword inside `t`. */
  function FirstMatch(t: string, rules: seq<Rule>): (r: Option<nat>)
    ensures r.Some? ==> r.value < |rules| && Fires(t, rules[r.value])
    ensures forall j :: 0 <= j < |rules| && (r.None? || j < r.value) ==> !Fires(t, rules[j])
  {
    if rules == [] then None
    else if Fires(t, rules[0]) then Some(0)
    else
      match FirstMatch(t, rules[1..])
      case None => None
      case Some(i) => Some(i + 1)
  }

  /** `extraire_domaine`: the tag of the earliest rule that fires on the
      lower-cased title, or "Autre" when none does. */
  function ExtraireDomaine(titre: string): (r: string)
    ensures r in Tags
    ensures r == Autre <==> forall j :: 0 <= j < |Rules| ==> !Fires(Lower(titre), Rules[j])
    ensures r != Autre ==>
      exists i :: 0 <= i < |Rules| && Rules[i].tag == r
        && Fires(Lower(titre), Rules[i])
        && forall j :: 0 <= j < i ==> !Fires(Lower(titre), Rules[j])
  {
    match FirstMatch(Lower(titre), Rules)
    case None => Autre
    case Some(i) => Rules[i].tag
  }

  /** The rule table entry by entry. */
  lemma RulesTable()
    ensures |Rules| == 10
    ensures Rules[0] == Rule("Restauration", RestaurationKeywords)
    ensures Rules[1] == Rule("Logistique", LogistiqueKeywords)
    ensures Rules[2] == Rule("BTP", BtpKeywords)
    ensures Rules[3] == Rule("Énergie / Technique", EnergieKeywords)
    ensures Rules[4] == Rule("Qualité / QHSE", QualiteKeywords)
    ensures Rules[5] == Rule("Finance / Assurance", FinanceKeywords)
    ensures Rules[6] == Rule("Informatique", InformatiqueKeywords)
    ensures Rules[7] == Rule("Commerce", CommerceKeywords)
    ensures Rules[8] == Rule("Administration", AdministrationKeywords)
    ensures Rules[9] == Rule("Management", ManagementKeywords)
  {
  }

  /** A rule that fires, with no earlier rule firing, decides the tag. */
  lemma FirstFiringRuleWins(titre: string, i: nat)
    requires i < |Rules| && Fires(Lower(titre), Rules[i])
    requires forall j :: 0 <= j < i ==> !Fires(Lower(titre), Rules[j])
    ensures ExtraireDomaine(titre) == Rules[i].tag
  {
    var m := FirstMatch(Lower(titre), Rules);
    assert m.Some?;
    assert m.value == i;
  }

  /** Matching ignores case: tagging a title and its lower-case form agree. */
  lemma CaseInsensitive(titre: string)
    ensures ExtraireDomaine(Lower(titre)) == ExtraireDomaine(titre)
  {
    LowerOfLower(Lower(titre));
  }
}
