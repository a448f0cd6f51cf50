/** Concrete titles run through the domain tagger. Each example is proved by
    walking the lower-cased title position by position: every keyword of the
    rules that must not fire is shown absent, and one keyword of the winning
    rule is shown present. */
module DomainExamples {
  import opened Text
  import opened Domain

  /** The characters of "magasinier", one by one. */
  lemma MagasinierChars(t: string)
    requires t == "magasinier"
    ensures |t| == 10
    ensures t[0] == 'm'
    ensures t[1] == 'a'
    ensures t[2] == 'g'
    ensures t[3] == 'a'
    ensures t[4] == 's'
    ensures t[5] == 'i'
    ensures t[6] == 'n'
    ensures t[7] == 'i'
    ensures t[8] == 'e'
    ensures t[9] == 'r'
  {
  }

  lemma MagasinierNotRestauration(t: string)
    requires t == "magasinier"
    ensures forall k :: k in RestaurationKeywords ==> !Contains(t, k)
  {
    MagasinierChars(t);
    assert !Contains(t, "cuisinier") by {
      var w := "cuisinier";
      assert !ContainsFrom(t, w, 2);
      assert t[1] != w[0];
      assert !ContainsFrom(t, w, 1);
      assert t[0] != w[0];
      assert !ContainsFrom(t, w, 0);
      ContainsByWalk(t, w);
    }
    assert !Contains(t, "serveur") by {
      var w := "serveur";
      assert !ContainsFrom(t, w, 4);
      assert t[3] != w[0];
      assert !ContainsFrom(t, w, 3);
      assert t[2] != w[0];
      assert !ContainsFrom(t, w, 2);
      assert t[1] != w[0];
      assert !ContainsFrom(t, w, 1);
      assert t[0] != w[0];
      assert !ContainsFrom(t, w, 0);
      ContainsByWalk(t, w);
    }
    assert !Contains(t, "restauration") by {
      var w := "restauration";
      assert !ContainsFrom(t, w, 0);
      ContainsByWalk(t, w);
    }
    assert !Contains(t, "hôtel") by {
      var w := "hôtel";
      assert !ContainsFrom(t, w, 6);
      assert t[5] != w[0];
      assert !ContainsFrom(t, w, 5);
      assert t[4] != w[0];
      assert !ContainsFrom(t, w, 4);
      assert t[3] != w[0];
      assert !ContainsFrom(t, w, 3);
      assert t[2] != w[0];
      assert !ContainsFrom(t, w, 2);
      assert t[1] != w[0];
      assert !ContainsFrom(t, w, 1);
      assert t[0] != w[0];
      assert !ContainsFrom(t, w, 0);
      ContainsByWalk(t, w);
    }
    assert !Contains(t, "hotel") by {
      var w := "hotel";
      assert !ContainsFrom(t, w, 6);
      assert t[5] != w[0];
      assert !ContainsFrom(t, w, 5);
      assert t[4] != w[0];
      assert !ContainsFrom(t, w, 4);
      assert t[3] != w[0];
      assert !ContainsFrom(t, w, 3);
      assert t[2] != w[0];
      assert !ContainsFrom(t, w, 2);
      assert t[1] != w[0];
      assert !ContainsFrom(t, w, 1);
      assert t[0] != w[0];
      assert !ContainsFrom(t, w, 0);
      ContainsByWalk(t, w);
    }
    assert !Contains(t, "chef de rang") by {
      var w := "chef de rang";
      assert !ContainsFrom(t, w, 0);
      ContainsByWalk(t, w);
    }
    assert !Contains(t, "restaurant") by {
      var w := "restaurant";
      assert !ContainsFrom(t, w, 1);
      assert t[0] != w[0];
      assert !ContainsFrom(t, w, 0);
      ContainsByWalk(t, w);
    }
  }

  lemma MagasinierFiresLogistique(t: string)
    requires t == "magasinier"
    ensures Contains(t, "magasinier")
  {
    MagasinierChars(t);
      var w := "magasinier";
      assert PrefixAt(t, w, 0, 9);
      assert PrefixAt(t, w, 0, 8);
      assert PrefixAt(t, w, 0, 7);
      assert PrefixAt(t, w, 0, 6);
      assert PrefixAt(t, w, 0, 5);
      assert PrefixAt(t, w, 0, 4);
      assert PrefixAt(t, w, 0, 3);
      assert PrefixAt(t, w, 0, 2);
      assert PrefixAt(t, w, 0, 1);
      assert ContainsFrom(t, w, 0);
      ContainsByWalk(t, w);
  }

  /** Every title spelled "magasinier" in any case is Logistique: the keyword belongs to both Logistique and Commerce, and Logistique comes first. */
  lemma MagasinierExample(titre: string)
    requires Lower(titre) == "magasinier"
    ensures ExtraireDomaine(titre) == "Logistique"
  {
    var t := Lower(titre);
    RulesTable();
    MagasinierNotRestauration(t);
    forall j | 0 <= j < 1
      ensures !Fires(t, Rules[j])
    {
      { assert j == 0; }
    }
    MagasinierFiresLogistique(t);
    assert "magasinier" in LogistiqueKeywords;
    FirstFiringRuleWins(titre, 1);
  }

  /** The characters of "directeur de magasin", one by one. */
  lemma DirecteurDeMagasinChars(t: string)
    requires t == "directeur de magasin"
    ensures |t| == 20
    ensures t[0] == 'd'
    ensures t[1] == 'i'
    ensures t[2] == 'r'
    ensures t[3] == 'e'
    ensures t[4] == 'c'
    ensures t[5] == 't'
    ensures t[6] == 'e'
    ensures t[7] == 'u'
    ensures t[8] == 'r'
    ensures t[9] == ' '
    ensures t[10] == 'd'
    ensures t[11] == 'e'
    ensures t[12] == ' '
    ensures t[13] == 'm'
    ensures t[14] == 'a'
    ensures t[15] == 'g'
    ensures t[16] == 'a'
    ensures t[17] == 's'
    ensures t[18] == 'i'
    ensures t[19] == 'n'
  {
  }

  lemma DirecteurDeMagasinNotRestauration(t: string)
    requires t == "directeur de magasin"
    ensures forall k :: k in RestaurationKeywords ==> !Contains(t, k)
  {
    DirecteurDeMagasinChars(t);
    assert !Contains(t, "cuisinier") by {
      var w := "cuisinier";
      assert !ContainsFrom(t, w, 12);
      assert t[11] != w[0];
      assert !ContainsFrom(t, w, 11);
      assert t[10] != w[0];
      assert !ContainsFrom(t, w, 10);
      assert t[9] != w[0];
      assert !ContainsFrom(t, w, 9);
      assert t[8] != w[0];
      assert !ContainsFrom(t, w, 8);
      assert t[7] != w[0];
      assert !ContainsFrom(t, w, 7);
      assert t[6] != w[0];
      assert !ContainsFrom(t, w, 6);
      assert t[5] != w[0];
      assert !ContainsFrom(t, w, 5);
      assert t[5] != w[1];
      assert !PrefixAt(t, w, 4, 1);
      assert !ContainsFrom(t, w, 4);
      assert t[3] != w[0];
      assert !ContainsFrom(t, w, 3);
      assert t[2] != w[0];
      assert !ContainsFrom(t, w, 2);
      assert t[1] != w[0];
      assert !ContainsFrom(t, w, 1);
      assert t[0] != w[0];
      assert !ContainsFrom(t, w, 0);
      ContainsByWalk(t, w);
    }
    assert !Contains(t, "serveur") by {
      var w := "serveur";
      assert !ContainsFrom(t, w, 14);
      assert t[13] != w[0];
      assert !ContainsFrom(t, w, 13);
      assert t[12] != w[0];
      assert !ContainsFrom(t, w, 12);
      assert t[11] != w[0];
      assert !ContainsFrom(t, w, 11);
      assert t[10] != w[0];
      assert !ContainsFrom(t, w, 10);
      assert t[9] != w[0];
      assert !ContainsFrom(t, w, 9);
      assert t[8] != w[0];
      assert !ContainsFrom(t, w, 8);
      assert t[7] != w[0];
      assert !ContainsFrom(t, w, 7);
      assert t[6] != w[0];
      assert !ContainsFrom(t, w, 6);
      assert t[5] != w[0];
      assert !ContainsFrom(t, w, 5);
      assert t[4] != w[0];
      assert !ContainsFrom(t, w, 4);
      assert t[3] != w[0];
      assert !ContainsFrom(t, w, 3);
      assert t[2] != w[0];
      assert !ContainsFrom(t, w, 2);
      assert t[1] != w[0];
      assert !ContainsFrom(t, w, 1);
      assert t[0] != w[0];
      assert !ContainsFrom(t, w, 0);
      ContainsByWalk(t, w);
    }
    assert !Contains(t, "restauration") by {
      var w := "restauration";
      assert !ContainsFrom(t, w, 9);
      assert t[9] != w[1];
      assert !PrefixAt(t, w, 8, 1);
      assert !ContainsFrom(t, w, 8);
      assert t[7] != w[0];
      assert !ContainsFrom(t, w, 7);
      assert t[6] != w[0];
      assert !ContainsFrom(t, w, 6);
      assert t[5] != w[0];
      assert !ContainsFrom(t, w, 5);
      assert t[4] != w[0];
      assert !ContainsFrom(t, w, 4);
      assert t[3] != w[0];
      assert !ContainsFrom(t, w, 3);
      assert t[4] != w[2];
      assert !PrefixAt(t, w, 2, 2);
      assert !PrefixAt(t, w, 2, 1);
      assert !ContainsFrom(t, w, 2);
      assert t[1] != w[0];
      assert !ContainsFrom(t, w, 1);
      assert t[0] != w[0];
      assert !ContainsFrom(t, w, 0);
      ContainsByWalk(t, w);
    }
    assert !Contains(t, "hôtel") by {
      var w := "hôtel";
      assert !ContainsFrom(t, w, 16);
      assert t[15] != w[0];
      assert !ContainsFrom(t, w, 15);
      assert t[14] != w[0];
      assert !ContainsFrom(t, w, 14);
      assert t[13] != w[0];
      assert !ContainsFrom(t, w, 13);
      assert t[12] != w[0];
      assert !ContainsFrom(t, w, 12);
      assert t[11] != w[0];
      assert !ContainsFrom(t, w, 11);
      assert t[10] != w[0];
      assert !ContainsFrom(t, w, 10);
      assert t[9] != w[0];
      assert !ContainsFrom(t, w, 9);
      assert t[8] != w[0];
      assert !ContainsFrom(t, w, 8);
      assert t[7] != w[0];
      assert !ContainsFrom(t, w, 7);
      assert t[6] != w[0];
      assert !ContainsFrom(t, w, 6);
      assert t[5] != w[0];
      assert !ContainsFrom(t, w, 5);
      assert t[4] != w[0];
      assert !ContainsFrom(t, w, 4);
      assert t[3] != w[0];
      assert !ContainsFrom(t, w, 3);
      assert t[2] != w[0];
      assert !ContainsFrom(t, w, 2);
      assert t[1] != w[0];
      assert !ContainsFrom(t, w, 1);
      assert t[0] != w[0];
      assert !ContainsFrom(t, w, 0);
      ContainsByWalk(t, w);
    }
    assert !Contains(t, "hotel") by {
      var w := "hotel";
      assert !ContainsFrom(t, w, 16);
      assert t[15] != w[0];
      assert !ContainsFrom(t, w, 15);
      assert t[14] != w[0];
      assert !ContainsFrom(t, w, 14);
      assert t[13] != w[0];
      assert !ContainsFrom(t, w, 13);
      assert t[12] != w[0];
      assert !ContainsFrom(t, w, 12);
      assert t[11] != w[0];
      assert !ContainsFrom(t, w, 11);
      assert t[10] != w[0];
      assert !ContainsFrom(t, w, 10);
      assert t[9] != w[0];
      assert !ContainsFrom(t, w, 9);
      assert t[8] != w[0];
      assert !ContainsFrom(t, w, 8);
      assert t[7] != w[0];
      assert !ContainsFrom(t, w, 7);
      assert t[6] != w[0];
      assert !ContainsFrom(t, w, 6);
      assert t[5] != w[0];
      assert !ContainsFrom(t, w, 5);
      assert t[4] != w[0];
      assert !ContainsFrom(t, w, 4);
      assert t[3] != w[0];
      assert !ContainsFrom(t, w, 3);
      assert t[2] != w[0];
      assert !ContainsFrom(t, w, 2);
      assert t[1] != w[0];
      assert !ContainsFrom(t, w, 1);
      assert t[0] != w[0];
      assert !ContainsFrom(t, w, 0);
      ContainsByWalk(t, w);
    }
    assert !Contains(t, "chef de rang") by {
      var w := "chef de rang";
      assert !ContainsFrom(t, w, 9);
      assert t[8] != w[0];
      assert !ContainsFrom(t, w, 8);
      assert t[7] != w[0];
      assert !ContainsFrom(t, w, 7);
      assert t[6] != w[0];
      assert !ContainsFrom(t, w, 6);
      assert t[5] != w[0];
      assert !ContainsFrom(t, w, 5);
      assert t[5] != w[1];
      assert !PrefixAt(t, w, 4, 1);
      assert !ContainsFrom(t, w, 4);
      assert t[3] != w[0];
      assert !ContainsFrom(t, w, 3);
      assert t[2] != w[0];
      assert !ContainsFrom(t, w, 2);
      assert t[1] != w[0];
      assert !ContainsFrom(t, w, 1);
      assert t[0] != w[0];
      assert !ContainsFrom(t, w, 0);
      ContainsByWalk(t, w);
    }
    assert !Contains(t, "restaurant") by {
      var w := "restaurant";
      assert !ContainsFrom(t, w, 11);
      assert t[10] != w[0];
      assert !ContainsFrom(t, w, 10);
      assert t[9] != w[0];
      assert !ContainsFrom(t, w, 9);
      assert t[9] != w[1];
      assert !PrefixAt(t, w, 8, 1);
      assert !ContainsFrom(t, w, 8);
      assert t[7] != w[0];
      assert !ContainsFrom(t, w, 7);
      assert t[6] != w[0];
      assert !ContainsFrom(t, w, 6);
      assert t[5] != w[0];
      assert !ContainsFrom(t, w, 5);
      assert t[4] != w[0];
      assert !ContainsFrom(t, w, 4);
      assert t[3] != w[0];
      assert !ContainsFrom(t, w, 3);
      assert t[4] != w[2];
      assert !PrefixAt(t, w, 2, 2);
      assert !PrefixAt(t, w, 2, 1);
      assert !ContainsFrom(t, w, 2);
      assert t[1] != w[0];
      assert !ContainsFrom(t, w, 1);
      assert t[0] != w[0];
      assert !ContainsFrom(t, w, 0);
      ContainsByWalk(t, w);
    }
  }

  lemma DirecteurDeMagasinNotLogistique(t: string)
    requires t == "directeur de magasin"
    ensures forall k :: k in LogistiqueKeywords ==> !Contains(t, k)
  {
    DirecteurDeMagasinChars(t);
    assert !Contains(t, "logistique") by {
      var w := "logistique";
      assert !ContainsFrom(t, w, 11);
      assert t[10] != w[0];
      assert !ContainsFrom(t, w, 10);
      assert t[9] != w[0];
      assert !ContainsFrom(t, w, 9);
      assert t[8] != w[0];
      assert !ContainsFrom(t, w, 8);
      assert t[7] != w[0];
      assert !ContainsFrom(t, w, 7);
      assert t[6] != w[0];
      assert !ContainsFrom(t, w, 6);
      assert t[5] != w[0];
      assert !ContainsFrom(t, w, 5);
      assert t[4] != w[0];
      assert !ContainsFrom(t, w, 4);
      assert t[3] != w[0];
      assert !ContainsFrom(t, w, 3);
      assert t[2] != w[0];
      assert !ContainsFrom(t, w, 2);
      assert t[1] != w[0];
      assert !ContainsFrom(t, w, 1);
      assert t[0] != w[0];
      assert !ContainsFrom(t, w, 0);
      ContainsByWalk(t, w);
    }
    assert !Contains(t, "chauffeur") by {
      var w := "chauffeur";
      assert !ContainsFrom(t, w, 12);
      assert t[11] != w[0];
      assert !ContainsFrom(t, w, 11);
      assert t[10] != w[0];
      assert !ContainsFrom(t, w, 10);
      assert t[9] != w[0];
      assert !ContainsFrom(t, w, 9);
      assert t[8] != w[0];
      assert !ContainsFrom(t, w, 8);
      assert t[7] != w[0];
      assert !ContainsFrom(t, w, 7);
      assert t[6] != w[0];
      assert !ContainsFrom(t, w, 6);
      assert t[5] != w[0];
      assert !ContainsFrom(t, w, 5);
      assert t[5] != w[1];
      assert !PrefixAt(t, w, 4, 1);
      assert !ContainsFrom(t, w, 4);
      assert t[3] != w[0];
      assert !ContainsFrom(t, w, 3);
      assert t[2] != w[0];
      assert !ContainsFrom(t, w, 2);
      assert t[1] != w[0];
      assert !ContainsFrom(t, w, 1);
      assert t[0] != w[0];
      assert !ContainsFrom(t, w, 0);
      ContainsByWalk(t, w);
    }
    assert !Contains(t, "livreur") by {
      var w := "livreur";
      assert !ContainsFrom(t, w, 14);
      assert t[13] != w[0];
      assert !ContainsFrom(t, w, 13);
      assert t[12] != w[0];
      assert !ContainsFrom(t, w, 12);
      assert t[11] != w[0];
      assert !ContainsFrom(t, w, 11);
      assert t[10] != w[0];
      assert !ContainsFrom(t, w, 10);
      assert t[9] != w[0];
      assert !ContainsFrom(t, w, 9);
      assert t[8] != w[0];
      assert !ContainsFrom(t, w, 8);
      assert t[7] != w[0];
      assert !ContainsFrom(t, w, 7);
      assert t[6] != w[0];
      assert !ContainsFrom(t, w, 6);
      assert t[5] != w[0];
      assert !ContainsFrom(t, w, 5);
      assert t[4] != w[0];
      assert !ContainsFrom(t, w, 4);
      assert t[3] != w[0];
      assert !ContainsFrom(t, w, 3);
      assert t[2] != w[0];
      assert !ContainsFrom(t, w, 2);
      assert t[1] != w[0];
      assert !ContainsFrom(t, w, 1);
      assert t[0] != w[0];
      assert !ContainsFrom(t, w, 0);
      ContainsByWalk(t, w);
    }
    assert !Contains(t, "transport") by {
      var w := "transport";
      assert !ContainsFrom(t, w, 12);
      assert t[11] != w[0];
      assert !ContainsFrom(t, w, 11);
      assert t[10] != w[0];
      assert !ContainsFrom(t, w, 10);
      assert t[9] != w[0];
      assert !ContainsFrom(t, w, 9);
      assert t[8] != w[0];
      assert !ContainsFrom(t, w, 8);
      assert t[7] != w[0];
      assert !ContainsFrom(t, w, 7);
      assert t[6] != w[0];
      assert !ContainsFrom(t, w, 6);
      assert t[6] != w[1];
      assert !PrefixAt(t, w, 5, 1);
      assert !ContainsFrom(t, w, 5);
      assert t[4] != w[0];
      assert !ContainsFrom(t, w, 4);
      assert t[3] != w[0];
      assert !ContainsFrom(t, w, 3);
      assert t[2] != w[0];
      assert !ContainsFrom(t, w, 2);
      assert t[1] != w[0];
      assert !ContainsFrom(t, w, 1);
      assert t[0] != w[0];
      assert !ContainsFrom(t, w, 0);
      ContainsByWalk(t, w);
    }
    assert !Contains(t, "pl de nuit") by {
      var w := "pl de nuit";
      assert !ContainsFrom(t, w, 11);
      assert t[10] != w[0];
      assert !ContainsFrom(t, w, 10);
      assert t[9] != w[0];
      assert !ContainsFrom(t, w, 9);
      assert t[8] != w[0];
      assert !ContainsFrom(t, w, 8);
      assert t[7] != w[0];
      assert !ContainsFrom(t, w, 7);
      assert t[6] != w[0];
      assert !ContainsFrom(t, w, 6);
      assert t[5] != w[0];
      assert !ContainsFrom(t, w, 5);
      assert t[4] != w[0];
      assert !ContainsFrom(t, w, 4);
      assert t[3] != w[0];
      assert !ContainsFrom(t, w, 3);
      assert t[2] != w[0];
      assert !ContainsFrom(t, w, 2);
      assert t[1] != w[0];
      assert !ContainsFrom(t, w, 1);
      assert t[0] != w[0];
      assert !ContainsFrom(t, w, 0);
      ContainsByWalk(t, w);
    }
    assert !Contains(t, "magasinier") by {
      var w := "magasinier";
      assert !ContainsFrom(t, w, 11);
      assert t[10] != w[0];
      assert !ContainsFrom(t, w, 10);
      assert t[9] != w[0];
      assert !ContainsFrom(t, w, 9);
      assert t[8] != w[0];
      assert !ContainsFrom(t, w, 8);
      assert t[7] != w[0];
      assert !ContainsFrom(t, w, 7);
      assert t[6] != w[0];
      assert !ContainsFrom(t, w, 6);
      assert t[5] != w[0];
      assert !ContainsFrom(t, w, 5);
      assert t[4] != w[0];
      assert !ContainsFrom(t, w, 4);
      assert t[3] != w[0];
      assert !ContainsFrom(t, w, 3);
      assert t[2] != w[0];
      assert !ContainsFrom(t, w, 2);
      assert t[1] != w[0];
      assert !ContainsFrom(t, w, 1);
      assert t[0] != w[0];
      assert !ContainsFrom(t, w, 0);
      ContainsByWalk(t, w);
    }
    assert !Contains(t, "cariste") by {
      var w := "cariste";
      assert !ContainsFrom(t, w, 14);
      assert t[13] != w[0];
      assert !ContainsFrom(t, w, 13);
      assert t[12] != w[0];
      assert !ContainsFrom(t, w, 12);
      assert t[11] != w[0];
      assert !ContainsFrom(t, w, 11);
      assert t[10] != w[0];
      assert !ContainsFrom(t, w, 10);
      assert t[9] != w[0];
      assert !ContainsFrom(t, w, 9);
      assert t[8] != w[0];
      assert !ContainsFrom(t, w, 8);
      assert t[7] != w[0];
      assert !ContainsFrom(t, w, 7);
      assert t[6] != w[0];
      assert !ContainsFrom(t, w, 6);
      assert t[5] != w[0];
      assert !ContainsFrom(t, w, 5);
      assert t[5] != w[1];
      assert !PrefixAt(t, w, 4, 1);
      assert !ContainsFrom(t, w, 4);
      assert t[3] != w[0];
      assert !ContainsFrom(t, w, 3);
      assert t[2] != w[0];
      assert !ContainsFrom(t, w, 2);
      assert t[1] != w[0];
      assert !ContainsFrom(t, w, 1);
      assert t[0] != w[0];
      assert !ContainsFrom(t, w, 0);
      ContainsByWalk(t, w);
    }
  }

  lemma DirecteurDeMagasinNotBtpPart1(t: string)
    requires t == "directeur de magasin"
    ensures forall k :: k in BtpKeywords[0..8] ==> !Contains(t, k)
  {
    DirecteurDeMagasinChars(t);
    assert !Contains(t, "conducteur de travaux") by {
      var w := "conducteur de travaux";
      assert !ContainsFrom(t, w, 0);
      ContainsByWalk(t, w);
    }
    assert !Contains(t, "chantier") by {
      var w := "chantier";
      assert !ContainsFrom(t, w, 13);
      assert t[12] != w[0];
      assert !ContainsFrom(t, w, 12);
      assert t[11] != w[0];
      assert !ContainsFrom(t, w, 11);
      assert t[10] != w[0];
      assert !ContainsFrom(t, w, 10);
      assert t[9] != w[0];
      assert !ContainsFrom(t, w, 9);
      assert t[8] != w[0];
      assert !ContainsFrom(t, w, 8);
      assert t[7] != w[0];
      assert !ContainsFrom(t, w, 7);
      assert t[6] != w[0];
      assert !ContainsFrom(t, w, 6);
      assert t[5] != w[0];
      assert !ContainsFrom(t, w, 5);
      assert t[5] != w[1];
      assert !PrefixAt(t, w, 4, 1);
      assert !ContainsFrom(t, w, 4);
      assert t[3] != w[0];
      assert !ContainsFrom(t, w, 3);
      assert t[2] != w[0];
      assert !ContainsFrom(t, w, 2);
      assert t[1] != w[0];
      assert !ContainsFrom(t, w, 1);
      assert t[0] != w[0];
      assert !ContainsFrom(t, w, 0);
      ContainsByWalk(t, w);
    }
    assert !Contains(t, "géotechnique") by {
      var w := "géotechnique";
      assert !ContainsFrom(t, w, 9);
      assert t[8] != w[0];
      assert !ContainsFrom(t, w, 8);
      assert t[7] != w[0];
      assert !ContainsFrom(t, w, 7);
      assert t[6] != w[0];
      assert !ContainsFrom(t, w, 6);
      assert t[5] != w[0];
      assert !ContainsFrom(t, w, 5);
      assert t[4] != w[0];
      assert !ContainsFrom(t, w, 4);
      assert t[3] != w[0];
      assert !ContainsFrom(t, w, 3);
      assert t[2] != w[0];
      assert !ContainsFrom(t, w, 2);
      assert t[1] != w[0];
      assert !ContainsFrom(t, w, 1);
      assert t[0] != w[0];
      assert !ContainsFrom(t, w, 0);
      ContainsByWalk(t, w);
    }
    assert !Contains(t, "geotechnique") by {
      var w := "geotechnique";
      assert !ContainsFrom(t, w, 9);
      assert t[8] != w[0];
      assert !ContainsFrom(t, w, 8);
      assert t[7] != w[0];
      assert !ContainsFrom(t, w, 7);
      assert t[6] != w[0];
      assert !ContainsFrom(t, w, 6);
      assert t[5] != w[0];
      assert !ContainsFrom(t, w, 5);
      assert t[4] != w[0];
      assert !ContainsFrom(t, w, 4);
      assert t[3] != w[0];
      assert !ContainsFrom(t, w, 3);
      assert t[2] != w[0];
      assert !ContainsFrom(t, w, 2);
      assert t[1] != w[0];
      assert !ContainsFrom(t, w, 1);
      assert t[0] != w[0];
      assert !ContainsFrom(t, w, 0);
      ContainsByWalk(t, w);
    }
    assert !Contains(t, "ingénieur travaux") by {
      var w := "ingénieur travaux";
      assert !ContainsFrom(t, w, 4);
      assert t[3] != w[0];
      assert !ContainsFrom(t, w, 3);
      assert t[2] != w[0];
      assert !ContainsFrom(t, w, 2);
      assert t[2] != w[1];
      assert !PrefixAt(t, w, 1, 1);
      assert !ContainsFrom(t, w, 1);
      assert t[0] != w[0];
      assert !ContainsFrom(t, w, 0);
      ContainsByWalk(t, w);
    }
    assert !Contains(t, "travaux publics") by {
      var w := "travaux publics";
      assert !ContainsFrom(t, w, 6);
      assert t[6] != w[1];
      assert !PrefixAt(t, w, 5, 1);
      assert !ContainsFrom(t, w, 5);
      assert t[4] != w[0];
      assert !ContainsFrom(t, w, 4);
      assert t[3] != w[0];
      assert !ContainsFrom(t, w, 3);
      assert t[2] != w[0];
      assert !ContainsFrom(t, w, 2);
      assert t[1] != w[0];
      assert !ContainsFrom(t, w, 1);
      assert t[0] != w[0];
      assert !ContainsFrom(t, w, 0);
      ContainsByWalk(t, w);
    }
    assert !Contains(t, "bâtiment") by {
      var w := "bâtiment";
      assert !ContainsFrom(t, w, 13);
      assert t[12] != w[0];
      assert !ContainsFrom(t, w, 12);
      assert t[11] != w[0];
      assert !ContainsFrom(t, w, 11);
      assert t[10] != w[0];
      assert !ContainsFrom(t, w, 10);
      assert t[9] != w[0];
      assert !ContainsFrom(t, w, 9);
      assert t[8] != w[0];
      assert !ContainsFrom(t, w, 8);
      assert t[7] != w[0];
      assert !ContainsFrom(t, w, 7);
      assert t[6] != w[0];
      assert !ContainsFrom(t, w, 6);
      assert t[5] != w[0];
      assert !ContainsFrom(t, w, 5);
      assert t[4] != w[0];
      assert !ContainsFrom(t, w, 4);
      assert t[3] != w[0];
      assert !ContainsFrom(t, w, 3);
      assert t[2] != w[0];
      assert !ContainsFrom(t, w, 2);
      assert t[1] != w[0];
      assert !ContainsFrom(t, w, 1);
      assert t[0] != w[0];
      assert !ContainsFrom(t, w, 0);
      ContainsByWalk(t, w);
    }
    assert !Contains(t, "batiment") by {
      var w := "batiment";
      assert !ContainsFrom(t, w, 13);
      assert t[12] != w[0];
      assert !ContainsFrom(t, w, 12);
      assert t[11] != w[0];
      assert !ContainsFrom(t, w, 11);
      assert t[10] != w[0];
      assert !ContainsFrom(t, w, 10);
      assert t[9] != w[0];
      assert !ContainsFrom(t, w, 9);
      assert t[8] != w[0];
      assert !ContainsFrom(t, w, 8);
      assert t[7] != w[0];
      assert !ContainsFrom(t, w, 7);
      assert t[6] != w[0];
      assert !ContainsFrom(t, w, 6);
      assert t[5] != w[0];
      assert !ContainsFrom(t, w, 5);
      assert t[4] != w[0];
      assert !ContainsFrom(t, w, 4);
      assert t[3] != w[0];
      assert !ContainsFrom(t, w, 3);
      assert t[2] != w[0];
      assert !ContainsFrom(t, w, 2);
      assert t[1] != w[0];
      assert !ContainsFrom(t, w, 1);
      assert t[0] != w[0];
      assert !ContainsFrom(t, w, 0);
      ContainsByWalk(t, w);
    }
  }

  lemma DirecteurDeMagasinNotBtpPart2(t: string)
    requires t == "directeur de magasin"
    ensures forall k :: k in BtpKeywords[8..9] ==> !Contains(t, k)
  {
    DirecteurDeMagasinChars(t);
    assert !Contains(t, "scierie") by {
      var w := "scierie";
      assert !ContainsFrom(t, w, 14);
      assert t[13] != w[0];
      assert !ContainsFrom(t, w, 13);
      assert t[12] != w[0];
      assert !ContainsFrom(t, w, 12);
      assert t[11] != w[0];
      assert !ContainsFrom(t, w, 11);
      assert t[10] != w[0];
      assert !ContainsFrom(t, w, 10);
      assert t[9] != w[0];
      assert !ContainsFrom(t, w, 9);
      assert t[8] != w[0];
      assert !ContainsFrom(t, w, 8);
      assert t[7] != w[0];
      assert !ContainsFrom(t, w, 7);
      assert t[6] != w[0];
      assert !ContainsFrom(t, w, 6);
      assert t[5] != w[0];
      assert !ContainsFrom(t, w, 5);
      assert t[4] != w[0];
      assert !ContainsFrom(t, w, 4);
      assert t[3] != w[0];
      assert !ContainsFrom(t, w, 3);
      assert t[2] != w[0];
      assert !ContainsFrom(t, w, 2);
      assert t[1] != w[0];
      assert !ContainsFrom(t, w, 1);
      assert t[0] != w[0];
      assert !ContainsFrom(t, w, 0);
      ContainsByWalk(t, w);
    }
  }

  lemma DirecteurDeMagasinNotBtp(t: string)
    requires t == "directeur de magasin"
    ensures forall k :: k in BtpKeywords ==> !Contains(t, k)
  {
    DirecteurDeMagasinNotBtpPart1(t);
    DirecteurDeMagasinNotBtpPart2(t);
    assert BtpKeywords == BtpKeywords[0..8] + BtpKeywords[8..9];
  }

  lemma DirecteurDeMagasinNotEnergieTechniquePart1(t: string)
    requires t == "directeur de magasin"
    ensures forall k :: k in EnergieKeywords[0..8] ==> !Contains(t, k)
  {
    DirecteurDeMagasinChars(t);
    assert !Contains(t, "électricien") by {
      var w := "électricien";
      assert !ContainsFrom(t, w, 10);
      assert t[9] != w[0];
      assert !ContainsFrom(t, w, 9);
      assert t[8] != w[0];
      assert !ContainsFrom(t, w, 8);
      assert t[7] != w[0];
      assert !ContainsFrom(t, w, 7);
      assert t[6] != w[0];
      assert !ContainsFrom(t, w, 6);
      assert t[5] != w[0];
      assert !ContainsFrom(t, w, 5);
      assert t[4] != w[0];
      assert !ContainsFrom(t, w, 4);
      assert t[3] != w[0];
      assert !ContainsFrom(t, w, 3);
      assert t[2] != w[0];
      assert !ContainsFrom(t, w, 2);
      assert t[1] != w[0];
      assert !ContainsFrom(t, w, 1);
      assert t[0] != w[0];
      assert !ContainsFrom(t, w, 0);
      ContainsByWalk(t, w);
    }
    assert !Contains(t, "electricien") by {
      var w := "electricien";
      assert !ContainsFrom(t, w, 10);
      assert t[9] != w[0];
      assert !ContainsFrom(t, w, 9);
      assert t[8] != w[0];
      assert !ContainsFrom(t, w, 8);
      assert t[7] != w[0];
      assert !ContainsFrom(t, w, 7);
      assert t[7] != w[1];
      assert !PrefixAt(t, w, 6, 1);
      assert !ContainsFrom(t, w, 6);
      assert t[5] != w[0];
      assert !ContainsFrom(t, w, 5);
      assert t[4] != w[0];
      assert !ContainsFrom(t, w, 4);
      assert t[4] != w[1];
      assert !PrefixAt(t, w, 3, 1);
      assert !ContainsFrom(t, w, 3);
      assert t[2] != w[0];
      assert !ContainsFrom(t, w, 2);
      assert t[1] != w[0];
      assert !ContainsFrom(t, w, 1);
      assert t[0] != w[0];
      assert !ContainsFrom(t, w, 0);
      ContainsByWalk(t, w);
    }
    assert !Contains(t, "électricité") by {
      var w := "électricité";
      assert !ContainsFrom(t, w, 10);
      assert t[9] != w[0];
      assert !ContainsFrom(t, w, 9);
      assert t[8] != w[0];
      assert !ContainsFrom(t, w, 8);
      assert t[7] != w[0];
      assert !ContainsFrom(t, w, 7);
      assert t[6] != w[0];
      assert !ContainsFrom(t, w, 6);
      assert t[5] != w[0];
      assert !ContainsFrom(t, w, 5);
      assert t[4] != w[0];
      assert !ContainsFrom(t, w, 4);
      assert t[3] != w[0];
      assert !ContainsFrom(t, w, 3);
      assert t[2] != w[0];
      assert !ContainsFrom(t, w, 2);
      assert t[1] != w[0];
      assert !ContainsFrom(t, w, 1);
      assert t[0] != w[0];
      assert !ContainsFrom(t, w, 0);
      ContainsByWalk(t, w);
    }
    assert !Contains(t, "electricite") by {
      var w := "electricite";
      assert !ContainsFrom(t, w, 10);
      assert t[9] != w[0];
      assert !ContainsFrom(t, w, 9);
      assert t[8] != w[0];
      assert !ContainsFrom(t, w, 8);
      assert t[7] != w[0];
      assert !ContainsFrom(t, w, 7);
      assert t[7] != w[1];
      assert !PrefixAt(t, w, 6, 1);
      assert !ContainsFrom(t, w, 6);
      assert t[5] != w[0];
      assert !ContainsFrom(t, w, 5);
      assert t[4] != w[0];
      assert !ContainsFrom(t, w, 4);
      assert t[4] != w[1];
      assert !PrefixAt(t, w, 3, 1);
      assert !ContainsFrom(t, w, 3);
      assert t[2] != w[0];
      assert !ContainsFrom(t, w, 2);
      assert t[1] != w[0];
      assert !ContainsFrom(t, w, 1);
      assert t[0] != w[0];
      assert !ContainsFrom(t, w, 0);
      ContainsByWalk(t, w);
    }
    assert !Contains(t, "électrique") by {
      var w := "électrique";
      assert !ContainsFrom(t, w, 11);
      assert t[10] != w[0];
      assert !ContainsFrom(t, w, 10);
      assert t[9] != w[0];
      assert !ContainsFrom(t, w, 9);
      assert t[8] != w[0];
      assert !ContainsFrom(t, w, 8);
      assert t[7] != w[0];
      assert !ContainsFrom(t, w, 7);
      assert t[6] != w[0];
      assert !ContainsFrom(t, w, 6);
      assert t[5] != w[0];
      assert !ContainsFrom(t, w, 5);
      assert t[4] != w[0];
      assert !ContainsFrom(t, w, 4);
      assert t[3] != w[0];
      assert !ContainsFrom(t, w, 3);
      assert t[2] != w[0];
      assert !ContainsFrom(t, w, 2);
      assert t[1] != w[0];
      assert !ContainsFrom(t, w, 1);
      assert t[0] != w[0];
      assert !ContainsFrom(t, w, 0);
      ContainsByWalk(t, w);
    }
    assert !Contains(t, "electric") by {
      var w := "electric";
      assert !ContainsFrom(t, w, 13);
      assert t[12] != w[0];
      assert !ContainsFrom(t, w, 12);
      assert t[12] != w[1];
      assert !PrefixAt(t, w, 11, 1);
      assert !ContainsFrom(t, w, 11);
      assert t[10] != w[0];
      assert !ContainsFrom(t, w, 10);
      assert t[9] != w[0];
      assert !ContainsFrom(t, w, 9);
      assert t[8] != w[0];
      assert !ContainsFrom(t, w, 8);
      assert t[7] != w[0];
      assert !ContainsFrom(t, w, 7);
      assert t[7] != w[1];
      assert !PrefixAt(t, w, 6, 1);
      assert !ContainsFrom(t, w, 6);
      assert t[5] != w[0];
      assert !ContainsFrom(t, w, 5);
      assert t[4] != w[0];
      assert !ContainsFrom(t, w, 4);
      assert t[4] != w[1];
      assert !PrefixAt(t, w, 3, 1);
      assert !ContainsFrom(t, w, 3);
      assert t[2] != w[0];
      assert !ContainsFrom(t, w, 2);
      assert t[1] != w[0];
      assert !ContainsFrom(t, w, 1);
      assert t[0] != w[0];
      assert !ContainsFrom(t, w, 0);
      ContainsByWalk(t, w);
    }
    assert !Contains(t, "énergie") by {
      var w := "énergie";
      assert !ContainsFrom(t, w, 14);
      assert t[13] != w[0];
      assert !ContainsFrom(t, w, 13);
      assert t[12] != w[0];
      assert !ContainsFrom(t, w, 12);
      assert t[11] != w[0];
      assert !ContainsFrom(t, w, 11);
      assert t[10] != w[0];
      assert !ContainsFrom(t, w, 10);
      assert t[9] != w[0];
      assert !ContainsFrom(t, w, 9);
      assert t[8] != w[0];
      assert !ContainsFrom(t, w, 8);
      assert t[7] != w[0];
      assert !ContainsFrom(t, w, 7);
      assert t[6] != w[0];
      assert !ContainsFrom(t, w, 6);
      assert t[5] != w[0];
      assert !ContainsFrom(t, w, 5);
      assert t[4] != w[0];
      assert !ContainsFrom(t, w, 4);
      assert t[3] != w[0];
      assert !ContainsFrom(t, w, 3);
      assert t[2] != w[0];
      assert !ContainsFrom(t, w, 2);
      assert t[1] != w[0];
      assert !ContainsFrom(t, w, 1);
      assert t[0] != w[0];
      assert !ContainsFrom(t, w, 0);
      ContainsByWalk(t, w);
    }
    assert !Contains(t, "energie") by {
      var w := "energie";
      assert !ContainsFrom(t, w, 14);
      assert t[13] != w[0];
      assert !ContainsFrom(t, w, 13);
      assert t[12] != w[0];
      assert !ContainsFrom(t, w, 12);
      assert t[12] != w[1];
      assert !PrefixAt(t, w, 11, 1);
      assert !ContainsFrom(t, w, 11);
      assert t[10] != w[0];
      assert !ContainsFrom(t, w, 10);
      assert t[9] != w[0];
      assert !ContainsFrom(t, w, 9);
      assert t[8] != w[0];
      assert !ContainsFrom(t, w, 8);
      assert t[7] != w[0];
      assert !ContainsFrom(t, w, 7);
      assert t[7] != w[1];
      assert !PrefixAt(t, w, 6, 1);
      assert !ContainsFrom(t, w, 6);
      assert t[5] != w[0];
      assert !ContainsFrom(t, w, 5);
      assert t[4] != w[0];
      assert !ContainsFrom(t, w, 4);
      assert t[4] != w[1];
      assert !PrefixAt(t, w, 3, 1);
      assert !ContainsFrom(t, w, 3);
      assert t[2] != w[0];
      assert !ContainsFrom(t, w, 2);
      assert t[1] != w[0];
      assert !ContainsFrom(t, w, 1);
      assert t[0] != w[0];
      assert !ContainsFrom(t, w, 0);
      ContainsByWalk(t, w);
    }
  }

  lemma DirecteurDeMagasinNotEnergieTechniquePart2(t: string)
    requires t == "directeur de magasin"
    ensures forall k :: k in EnergieKeywords[8..10] ==> !Contains(t, k)
  {
    DirecteurDeMagasinChars(t);
    assert !Contains(t, "technicien") by {
      var w := "technicien";
      assert !ContainsFrom(t, w, 11);
      assert t[10] != w[0];
      assert !ContainsFrom(t, w, 10);
      assert t[9] != w[0];
      assert !ContainsFrom(t, w, 9);
      assert t[8] != w[0];
      assert !ContainsFrom(t, w, 8);
      assert t[7] != w[0];
      assert !ContainsFrom(t, w, 7);
      assert t[6] != w[0];
      assert !ContainsFrom(t, w, 6);
      assert t[7] != w[2];
      assert !PrefixAt(t, w, 5, 2);
      assert !PrefixAt(t, w, 5, 1);
      assert !ContainsFrom(t, w, 5);
      assert t[4] != w[0];
      assert !ContainsFrom(t, w, 4);
      assert t[3] != w[0];
      assert !ContainsFrom(t, w, 3);
      assert t[2] != w[0];
      assert !ContainsFrom(t, w, 2);
      assert t[1] != w[0];
      assert !ContainsFrom(t, w, 1);
      assert t[0] != w[0];
      assert !ContainsFrom(t, w, 0);
      ContainsByWalk(t, w);
    }
    assert !Contains(t, "maintenance") by {
      var w := "maintenance";
      assert !ContainsFrom(t, w, 10);
      assert t[9] != w[0];
      assert !ContainsFrom(t, w, 9);
      assert t[8] != w[0];
      assert !ContainsFrom(t, w, 8);
      assert t[7] != w[0];
      assert !ContainsFrom(t, w, 7);
      assert t[6] != w[0];
      assert !ContainsFrom(t, w, 6);
      assert t[5] != w[0];
      assert !ContainsFrom(t, w, 5);
      assert t[4] != w[0];
      assert !ContainsFrom(t, w, 4);
      assert t[3] != w[0];
      assert !ContainsFrom(t, w, 3);
      assert t[2] != w[0];
      assert !ContainsFrom(t, w, 2);
      assert t[1] != w[0];
      assert !ContainsFrom(t, w, 1);
      assert t[0] != w[0];
      assert !ContainsFrom(t, w, 0);
      ContainsByWalk(t, w);
    }
  }

  lemma DirecteurDeMagasinNotEnergieTechnique(t: string)
    requires t == "directeur de magasin"
    ensures forall k :: k in EnergieKeywords ==> !Contains(t, k)
  {
    DirecteurDeMagasinNotEnergieTechniquePart1(t);
    DirecteurDeMagasinNotEnergieTechniquePart2(t);
    assert EnergieKeywords == EnergieKeywords[0..8] + EnergieKeywords[8..10];
  }

  lemma DirecteurDeMagasinNotQualiteQhse(t: string)
    requires t == "directeur de magasin"
    ensures forall k :: k in QualiteKeywords ==> !Contains(t, k)
  {
    DirecteurDeMagasinChars(t);
    assert !Contains(t, "qhse") by {
      var w := "qhse";
      assert !ContainsFrom(t, w, 17);
      assert t[16] != w[0];
      assert !ContainsFrom(t, w, 16);
      assert t[15] != w[0];
      assert !ContainsFrom(t, w, 15);
      assert t[14] != w[0];
      assert !ContainsFrom(t, w, 14);
      assert t[13] != w[0];
      assert !ContainsFrom(t, w, 13);
      assert t[12] != w[0];
      assert !ContainsFrom(t, w, 12);
      assert t[11] != w[0];
      assert !ContainsFrom(t, w, 11);
      assert t[10] != w[0];
      assert !ContainsFrom(t, w, 10);
      assert t[9] != w[0];
      assert !ContainsFrom(t, w, 9);
      assert t[8] != w[0];
      assert !ContainsFrom(t, w, 8);
      assert t[7] != w[0];
      assert !ContainsFrom(t, w, 7);
      assert t[6] != w[0];
      assert !ContainsFrom(t, w, 6);
      assert t[5] != w[0];
      assert !ContainsFrom(t, w, 5);
      assert t[4] != w[0];
      assert !ContainsFrom(t, w, 4);
      assert t[3] != w[0];
      assert !ContainsFrom(t, w, 3);
      assert t[2] != w[0];
      assert !ContainsFrom(t, w, 2);
      assert t[1] != w[0];
      assert !ContainsFrom(t, w, 1);
      assert t[0] != w[0];
      assert !ContainsFrom(t, w, 0);
      ContainsByWalk(t, w);
    }
    assert !Contains(t, "qse") by {
      var w := "qse";
      assert !ContainsFrom(t, w, 18);
      assert t[17] != w[0];
      assert !ContainsFrom(t, w, 17);
      assert t[16] != w[0];
      assert !ContainsFrom(t, w, 16);
      assert t[15] != w[0];
      assert !ContainsFrom(t, w, 15);
      assert t[14] != w[0];
      assert !ContainsFrom(t, w, 14);
      assert t[13] != w[0];
      assert !ContainsFrom(t, w, 13);
      assert t[12] != w[0];
      assert !ContainsFrom(t, w, 12);
      assert t[11] != w[0];
      assert !ContainsFrom(t, w, 11);
      assert t[10] != w[0];
      assert !ContainsFrom(t, w, 10);
      assert t[9] != w[0];
      assert !ContainsFrom(t, w, 9);
      assert t[8] != w[0];
      assert !ContainsFrom(t, w, 8);
      assert t[7] != w[0];
      assert !ContainsFrom(t, w, 7);
      assert t[6] != w[0];
      assert !ContainsFrom(t, w, 6);
      assert t[5] != w[0];
      assert !ContainsFrom(t, w, 5);
      assert t[4] != w[0];
      assert !ContainsFrom(t, w, 4);
      assert t[3] != w[0];
      assert !ContainsFrom(t, w, 3);
      assert t[2] != w[0];
      assert !ContainsFrom(t, w, 2);
      assert t[1] != w[0];
      assert !ContainsFrom(t, w, 1);
      assert t[0] != w[0];
      assert !ContainsFrom(t, w, 0);
      ContainsByWalk(t, w);
    }
    assert !Contains(t, "qualité") by {
      var w := "qualité";
      assert !ContainsFrom(t, w, 14);
      assert t[13] != w[0];
      assert !ContainsFrom(t, w, 13);
      assert t[12] != w[0];
      assert !ContainsFrom(t, w, 12);
      assert t[11] != w[0];
      assert !ContainsFrom(t, w, 11);
      assert t[10] != w[0];
      assert !ContainsFrom(t, w, 10);
      assert t[9] != w[0];
      assert !ContainsFrom(t, w, 9);
      assert t[8] != w[0];
      assert !ContainsFrom(t, w, 8);
      assert t[7] != w[0];
      assert !ContainsFrom(t, w, 7);
      assert t[6] != w[0];
      assert !ContainsFrom(t, w, 6);
      assert t[5] != w[0];
      assert !ContainsFrom(t, w, 5);
      assert t[4] != w[0];
      assert !ContainsFrom(t, w, 4);
      assert t[3] != w[0];
      assert !ContainsFrom(t, w, 3);
      assert t[2] != w[0];
      assert !ContainsFrom(t, w, 2);
      assert t[1] != w[0];
      assert !ContainsFrom(t, w, 1);
      assert t[0] != w[0];
      assert !ContainsFrom(t, w, 0);
      ContainsByWalk(t, w);
    }
    assert !Contains(t, "qualite") by {
      var w := "qualite";
      assert !ContainsFrom(t, w, 14);
      assert t[13] != w[0];
      assert !ContainsFrom(t, w, 13);
      assert t[12] != w[0];
      assert !ContainsFrom(t, w, 12);
      assert t[11] != w[0];
      assert !ContainsFrom(t, w, 11);
      assert t[10] != w[0];
      assert !ContainsFrom(t, w, 10);
      assert t[9] != w[0];
      assert !ContainsFrom(t, w, 9);
      assert t[8] != w[0];
      assert !ContainsFrom(t, w, 8);
      assert t[7] != w[0];
      assert !ContainsFrom(t, w, 7);
      assert t[6] != w[0];
      assert !ContainsFrom(t, w, 6);
      assert t[5] != w[0];
      assert !ContainsFrom(t, w, 5);
      assert t[4] != w[0];
      assert !ContainsFrom(t, w, 4);
      assert t[3] != w[0];
      assert !ContainsFrom(t, w, 3);
      assert t[2] != w[0];
      assert !ContainsFrom(t, w, 2);
      assert t[1] != w[0];
      assert !ContainsFrom(t, w, 1);
      assert t[0] != w[0];
      assert !ContainsFrom(t, w, 0);
      ContainsByWalk(t, w);
    }
    assert !Contains(t, "sécurité") by {
      var w := "sécurité";
      assert !ContainsFrom(t, w, 13);
      assert t[12] != w[0];
      assert !ContainsFrom(t, w, 12);
      assert t[11] != w[0];
      assert !ContainsFrom(t, w, 11);
      assert t[10] != w[0];
      assert !ContainsFrom(t, w, 10);
      assert t[9] != w[0];
      assert !ContainsFrom(t, w, 9);
      assert t[8] != w[0];
      assert !ContainsFrom(t, w, 8);
      assert t[7] != w[0];
      assert !ContainsFrom(t, w, 7);
      assert t[6] != w[0];
      assert !ContainsFrom(t, w, 6);
      assert t[5] != w[0];
      assert !ContainsFrom(t, w, 5);
      assert t[4] != w[0];
      assert !ContainsFrom(t, w, 4);
      assert t[3] != w[0];
      assert !ContainsFrom(t, w, 3);
      assert t[2] != w[0];
      assert !ContainsFrom(t, w, 2);
      assert t[1] != w[0];
      assert !ContainsFrom(t, w, 1);
      assert t[0] != w[0];
      assert !ContainsFrom(t, w, 0);
      ContainsByWalk(t, w);
    }
    assert !Contains(t, "securite") by {
      var w := "securite";
      assert !ContainsFrom(t, w, 13);
      assert t[12] != w[0];
      assert !ContainsFrom(t, w, 12);
      assert t[11] != w[0];
      assert !ContainsFrom(t, w, 11);
      assert t[10] != w[0];
      assert !ContainsFrom(t, w, 10);
      assert t[9] != w[0];
      assert !ContainsFrom(t, w, 9);
      assert t[8] != w[0];
      assert !ContainsFrom(t, w, 8);
      assert t[7] != w[0];
      assert !ContainsFrom(t, w, 7);
      assert t[6] != w[0];
      assert !ContainsFrom(t, w, 6);
      assert t[5] != w[0];
      assert !ContainsFrom(t, w, 5);
      assert t[4] != w[0];
      assert !ContainsFrom(t, w, 4);
      assert t[3] != w[0];
      assert !ContainsFrom(t, w, 3);
      assert t[2] != w[0];
      assert !ContainsFrom(t, w, 2);
      assert t[1] != w[0];
      assert !ContainsFrom(t, w, 1);
      assert t[0] != w[0];
      assert !ContainsFrom(t, w, 0);
      ContainsByWalk(t, w);
    }
    assert !Contains(t, "hse") by {
      var w := "hse";
      assert !ContainsFrom(t, w, 18);
      assert t[17] != w[0];
      assert !ContainsFrom(t, w, 17);
      assert t[16] != w[0];
      assert !ContainsFrom(t, w, 16);
      assert t[15] != w[0];
      assert !ContainsFrom(t, w, 15);
      assert t[14] != w[0];
      assert !ContainsFrom(t, w, 14);
      assert t[13] != w[0];
      assert !ContainsFrom(t, w, 13);
      assert t[12] != w[0];
      assert !ContainsFrom(t, w, 12);
      assert t[11] != w[0];
      assert !ContainsFrom(t, w, 11);
      assert t[10] != w[0];
      assert !ContainsFrom(t, w, 10);
      assert t[9] != w[0];
      assert !ContainsFrom(t, w, 9);
      assert t[8] != w[0];
      assert !ContainsFrom(t, w, 8);
      assert t[7] != w[0];
      assert !ContainsFrom(t, w, 7);
      assert t[6] != w[0];
      assert !ContainsFrom(t, w, 6);
      assert t[5] != w[0];
      assert !ContainsFrom(t, w, 5);
      assert t[4] != w[0];
      assert !ContainsFrom(t, w, 4);
      assert t[3] != w[0];
      assert !ContainsFrom(t, w, 3);
      assert t[2] != w[0];
      assert !ContainsFrom(t, w, 2);
      assert t[1] != w[0];
      assert !ContainsFrom(t, w, 1);
      assert t[0] != w[0];
      assert !ContainsFrom(t, w, 0);
      ContainsByWalk(t, w);
    }
  }

  lemma DirecteurDeMagasinNotFinanceAssurancePart1(t: string)
    requires t == "directeur de magasin"
    ensures forall k :: k in FinanceKeywords[0..8] ==> !Contains(t, k)
  {
    DirecteurDeMagasinChars(t);
    assert !Contains(t, "actuaire") by {
      var w := "actuaire";
      assert !ContainsFrom(t, w, 13);
      assert t[12] != w[0];
      assert !ContainsFrom(t, w, 12);
      assert t[11] != w[0];
      assert !ContainsFrom(t, w, 11);
      assert t[10] != w[0];
      assert !ContainsFrom(t, w, 10);
      assert t[9] != w[0];
      assert !ContainsFrom(t, w, 9);
      assert t[8] != w[0];
      assert !ContainsFrom(t, w, 8);
      assert t[7] != w[0];
      assert !ContainsFrom(t, w, 7);
      assert t[6] != w[0];
      assert !ContainsFrom(t, w, 6);
      assert t[5] != w[0];
      assert !ContainsFrom(t, w, 5);
      assert t[4] != w[0];
      assert !ContainsFrom(t, w, 4);
      assert t[3] != w[0];
      assert !ContainsFrom(t, w, 3);
      assert t[2] != w[0];
      assert !ContainsFrom(t, w, 2);
      assert t[1] != w[0];
      assert !ContainsFrom(t, w, 1);
      assert t[0] != w[0];
      assert !ContainsFrom(t, w, 0);
      ContainsByWalk(t, w);
    }
    assert !Contains(t, "risques") by {
      var w := "risques";
      assert !ContainsFrom(t, w, 14);
      assert t[13] != w[0];
      assert !ContainsFrom(t, w, 13);
      assert t[12] != w[0];
      assert !ContainsFrom(t, w, 12);
      assert t[11] != w[0];
      assert !ContainsFrom(t, w, 11);
      assert t[10] != w[0];
      assert !ContainsFrom(t, w, 10);
      assert t[9] != w[0];
      assert !ContainsFrom(t, w, 9);
      assert t[9] != w[1];
      assert !PrefixAt(t, w, 8, 1);
      assert !ContainsFrom(t, w, 8);
      assert t[7] != w[0];
      assert !ContainsFrom(t, w, 7);
      assert t[6] != w[0];
      assert !ContainsFrom(t, w, 6);
      assert t[5] != w[0];
      assert !ContainsFrom(t, w, 5);
      assert t[4] != w[0];
      assert !ContainsFrom(t, w, 4);
      assert t[3] != w[0];
      assert !ContainsFrom(t, w, 3);
      assert t[3] != w[1];
      assert !PrefixAt(t, w, 2, 1);
      assert !ContainsFrom(t, w, 2);
      assert t[1] != w[0];
      assert !ContainsFrom(t, w, 1);
      assert t[0] != w[0];
      assert !ContainsFrom(t, w, 0);
      ContainsByWalk(t, w);
    }
    assert !Contains(t, "assurances") by {
      var w := "assurances";
      assert !ContainsFrom(t, w, 11);
      assert t[10] != w[0];
      assert !ContainsFrom(t, w, 10);
      assert t[9] != w[0];
      assert !ContainsFrom(t, w, 9);
      assert t[8] != w[0];
      assert !ContainsFrom(t, w, 8);
      assert t[7] != w[0];
      assert !ContainsFrom(t, w, 7);
      assert t[6] != w[0];
      assert !ContainsFrom(t, w, 6);
      assert t[5] != w[0];
      assert !ContainsFrom(t, w, 5);
      assert t[4] != w[0];
      assert !ContainsFrom(t, w, 4);
      assert t[3] != w[0];
      assert !ContainsFrom(t, w, 3);
      assert t[2] != w[0];
      assert !ContainsFrom(t, w, 2);
      assert t[1] != w[0];
      assert !ContainsFrom(t, w, 1);
      assert t[0] != w[0];
      assert !ContainsFrom(t, w, 0);
      ContainsByWalk(t, w);
    }
    assert !Contains(t, "assurance") by {
      var w := "assurance";
      assert !ContainsFrom(t, w, 12);
      assert t[11] != w[0];
      assert !ContainsFrom(t, w, 11);
      assert t[10] != w[0];
      assert !ContainsFrom(t, w, 10);
      assert t[9] != w[0];
      assert !ContainsFrom(t, w, 9);
      assert t[8] != w[0];
      assert !ContainsFrom(t, w, 8);
      assert t[7] != w[0];
      assert !ContainsFrom(t, w, 7);
      assert t[6] != w[0];
      assert !ContainsFrom(t, w, 6);
      assert t[5] != w[0];
      assert !ContainsFrom(t, w, 5);
      assert t[4] != w[0];
      assert !ContainsFrom(t, w, 4);
      assert t[3] != w[0];
      assert !ContainsFrom(t, w, 3);
      assert t[2] != w[0];
      assert !ContainsFrom(t, w, 2);
      assert t[1] != w[0];
      assert !ContainsFrom(t, w, 1);
      assert t[0] != w[0];
      assert !ContainsFrom(t, w, 0);
      ContainsByWalk(t, w);
    }
    assert !Contains(t, "comptable") by {
      var w := "comptable";
      assert !ContainsFrom(t, w, 12);
      assert t[11] != w[0];
      assert !ContainsFrom(t, w, 11);
      assert t[10] != w[0];
      assert !ContainsFrom(t, w, 10);
      assert t[9] != w[0];
      assert !ContainsFrom(t, w, 9);
      assert t[8] != w[0];
      assert !ContainsFrom(t, w, 8);
      assert t[7] != w[0];
      assert !ContainsFrom(t, w, 7);
      assert t[6] != w[0];
      assert !ContainsFrom(t, w, 6);
      assert t[5] != w[0];
      assert !ContainsFrom(t, w, 5);
      assert t[5] != w[1];
      assert !PrefixAt(t, w, 4, 1);
      assert !ContainsFrom(t, w, 4);
      assert t[3] != w[0];
      assert !ContainsFrom(t, w, 3);
      assert t[2] != w[0];
      assert !ContainsFrom(t, w, 2);
      assert t[1] != w[0];
      assert !ContainsFrom(t, w, 1);
      assert t[0] != w[0];
      assert !ContainsFrom(t, w, 0);
      ContainsByWalk(t, w);
    }
    assert !Contains(t, "comptabilité") by {
      var w := "comptabilité";
      assert !ContainsFrom(t, w, 9);
      assert t[8] != w[0];
      assert !ContainsFrom(t, w, 8);
      assert t[7] != w[0];
      assert !ContainsFrom(t, w, 7);
      assert t[6] != w[0];
      assert !ContainsFrom(t, w, 6);
      assert t[5] != w[0];
      assert !ContainsFrom(t, w, 5);
      assert t[5] != w[1];
      assert !PrefixAt(t, w, 4, 1);
      assert !ContainsFrom(t, w, 4);
      assert t[3] != w[0];
      assert !ContainsFrom(t, w, 3);
      assert t[2] != w[0];
      assert !ContainsFrom(t, w, 2);
      assert t[1] != w[0];
      assert !ContainsFrom(t, w, 1);
      assert t[0] != w[0];
      assert !ContainsFrom(t, w, 0);
      ContainsByWalk(t, w);
    }
    assert !Contains(t, "audit") by {
      var w := "audit";
      assert !ContainsFrom(t, w, 16);
      assert t[15] != w[0];
      assert !ContainsFrom(t, w, 15);
      assert t[15] != w[1];
      assert !PrefixAt(t, w, 14, 1);
      assert !ContainsFrom(t, w, 14);
      assert t[13] != w[0];
      assert !ContainsFrom(t, w, 13);
      assert t[12] != w[0];
      assert !ContainsFrom(t, w, 12);
      assert t[11] != w[0];
      assert !ContainsFrom(t, w, 11);
      assert t[10] != w[0];
      assert !ContainsFrom(t, w, 10);
      assert t[9] != w[0];
      assert !ContainsFrom(t, w, 9);
      assert t[8] != w[0];
      assert !ContainsFrom(t, w, 8);
      assert t[7] != w[0];
      assert !ContainsFrom(t, w, 7);
      assert t[6] != w[0];
      assert !ContainsFrom(t, w, 6);
      assert t[5] != w[0];
      assert !ContainsFrom(t, w, 5);
      assert t[4] != w[0];
      assert !ContainsFrom(t, w, 4);
      assert t[3] != w[0];
      assert !ContainsFrom(t, w, 3);
      assert t[2] != w[0];
      assert !ContainsFrom(t, w, 2);
      assert t[1] != w[0];
      assert !ContainsFrom(t, w, 1);
      assert t[0] != w[0];
      assert !ContainsFrom(t, w, 0);
      ContainsByWalk(t, w);
    }
    assert !Contains(t, "contrôle de gestion") by {
      var w := "contrôle de gestion";
      assert !ContainsFrom(t, w, 2);
      assert t[1] != w[0];
      assert !ContainsFrom(t, w, 1);
      assert t[0] != w[0];
      assert !ContainsFrom(t, w, 0);
      ContainsByWalk(t, w);
    }
  }

  lemma DirecteurDeMagasinNotFinanceAssurancePart2(t: string)
    requires t == "directeur de magasin"
    ensures forall k :: k in FinanceKeywords[8..9] ==> !Contains(t, k)
  {
    DirecteurDeMagasinChars(t);
    assert !Contains(t, "controle de gestion") by {
      var w := "controle de gestion";
      assert !ContainsFrom(t, w, 2);
      assert t[1] != w[0];
      assert !ContainsFrom(t, w, 1);
      assert t[0] != w[0];
      assert !ContainsFrom(t, w, 0);
      ContainsByWalk(t, w);
    }
  }

  lemma DirecteurDeMagasinNotFinanceAssurance(t: string)
    requires t == "directeur de magasin"
    ensures forall k :: k in FinanceKeywords ==> !Contains(t, k)
  {
    DirecteurDeMagasinNotFinanceAssurancePart1(t);
    DirecteurDeMagasinNotFinanceAssurancePart2(t);
    assert FinanceKeywords == FinanceKeywords[0..8] + FinanceKeywords[8..9];
  }

  lemma DirecteurDeMagasinNotInformatiquePart1(t: string)
    requires t == "directeur de magasin"
    ensures forall k :: k in InformatiqueKeywords[0..8] ==> !Contains(t, k)
  {
    DirecteurDeMagasinChars(t);
    assert !Contains(t, "développeur") by {
      var w := "développeur";
      assert !ContainsFrom(t, w, 10);
      assert t[9] != w[0];
      assert !ContainsFrom(t, w, 9);
      assert t[8] != w[0];
      assert !ContainsFrom(t, w, 8);
      assert t[7] != w[0];
      assert !ContainsFrom(t, w, 7);
      assert t[6] != w[0];
      assert !ContainsFrom(t, w, 6);
      assert t[5] != w[0];
      assert !ContainsFrom(t, w, 5);
      assert t[4] != w[0];
      assert !ContainsFrom(t, w, 4);
      assert t[3] != w[0];
      assert !ContainsFrom(t, w, 3);
      assert t[2] != w[0];
      assert !ContainsFrom(t, w, 2);
      assert t[1] != w[0];
      assert !ContainsFrom(t, w, 1);
      assert t[1] != w[1];
      assert !PrefixAt(t, w, 0, 1);
      assert !ContainsFrom(t, w, 0);
      ContainsByWalk(t, w);
    }
    assert !Contains(t, "developpeur") by {
      var w := "developpeur";
      assert !ContainsFrom(t, w, 10);
      assert t[9] != w[0];
      assert !ContainsFrom(t, w, 9);
      assert t[8] != w[0];
      assert !ContainsFrom(t, w, 8);
      assert t[7] != w[0];
      assert !ContainsFrom(t, w, 7);
      assert t[6] != w[0];
      assert !ContainsFrom(t, w, 6);
      assert t[5] != w[0];
      assert !ContainsFrom(t, w, 5);
      assert t[4] != w[0];
      assert !ContainsFrom(t, w, 4);
      assert t[3] != w[0];
      assert !ContainsFrom(t, w, 3);
      assert t[2] != w[0];
      assert !ContainsFrom(t, w, 2);
      assert t[1] != w[0];
      assert !ContainsFrom(t, w, 1);
      assert t[1] != w[1];
      assert !PrefixAt(t, w, 0, 1);
      assert !ContainsFrom(t, w, 0);
      ContainsByWalk(t, w);
    }
    assert !Contains(t, "développeuse") by {
      var w := "développeuse";
      assert !ContainsFrom(t, w, 9);
      assert t[8] != w[0];
      assert !ContainsFrom(t, w, 8);
      assert t[7] != w[0];
      assert !ContainsFrom(t, w, 7);
      assert t[6] != w[0];
      assert !ContainsFrom(t, w, 6);
      assert t[5] != w[0];
      assert !ContainsFrom(t, w, 5);
      assert t[4] != w[0];
      assert !ContainsFrom(t, w, 4);
      assert t[3] != w[0];
      assert !ContainsFrom(t, w, 3);
      assert t[2] != w[0];
      assert !ContainsFrom(t, w, 2);
      assert t[1] != w[0];
      assert !ContainsFrom(t, w, 1);
      assert t[1] != w[1];
      assert !PrefixAt(t, w, 0, 1);
      assert !ContainsFrom(t, w, 0);
      ContainsByWalk(t, w);
    }
    assert !Contains(t, "developer") by {
      var w := "developer";
      assert !ContainsFrom(t, w, 12);
      assert t[11] != w[0];
      assert !ContainsFrom(t, w, 11);
      assert t[12] != w[2];
      assert !PrefixAt(t, w, 10, 2);
      assert !PrefixAt(t, w, 10, 1);
      assert !ContainsFrom(t, w, 10);
      assert t[9] != w[0];
      assert !ContainsFrom(t, w, 9);
      assert t[8] != w[0];
      assert !ContainsFrom(t, w, 8);
      assert t[7] != w[0];
      assert !ContainsFrom(t, w, 7);
      assert t[6] != w[0];
      assert !ContainsFrom(t, w, 6);
      assert t[5] != w[0];
      assert !ContainsFrom(t, w, 5);
      assert t[4] != w[0];
      assert !ContainsFrom(t, w, 4);
      assert t[3] != w[0];
      assert !ContainsFrom(t, w, 3);
      assert t[2] != w[0];
      assert !ContainsFrom(t, w, 2);
      assert t[1] != w[0];
      assert !ContainsFrom(t, w, 1);
      assert t[1] != w[1];
      assert !PrefixAt(t, w, 0, 1);
      assert !ContainsFrom(t, w, 0);
      ContainsByWalk(t, w);
    }
    assert !Contains(t, "informatique") by {
      var w := "informatique";
      assert !ContainsFrom(t, w, 9);
      assert t[8] != w[0];
      assert !ContainsFrom(t, w, 8);
      assert t[7] != w[0];
      assert !ContainsFrom(t, w, 7);
      assert t[6] != w[0];
      assert !ContainsFrom(t, w, 6);
      assert t[5] != w[0];
      assert !ContainsFrom(t, w, 5);
      assert t[4] != w[0];
      assert !ContainsFrom(t, w, 4);
      assert t[3] != w[0];
      assert !ContainsFrom(t, w, 3);
      assert t[2] != w[0];
      assert !ContainsFrom(t, w, 2);
      assert t[2] != w[1];
      assert !PrefixAt(t, w, 1, 1);
      assert !ContainsFrom(t, w, 1);
      assert t[0] != w[0];
      assert !ContainsFrom(t, w, 0);
      ContainsByWalk(t, w);
    }
    assert !Contains(t, "data") by {
      var w := "data";
      assert !ContainsFrom(t, w, 17);
      assert t[16] != w[0];
      assert !ContainsFrom(t, w, 16);
      assert t[15] != w[0];
      assert !ContainsFrom(t, w, 15);
      assert t[14] != w[0];
      assert !ContainsFrom(t, w, 14);
      assert t[13] != w[0];
      assert !ContainsFrom(t, w, 13);
      assert t[12] != w[0];
      assert !ContainsFrom(t, w, 12);
      assert t[11] != w[0];
      assert !ContainsFrom(t, w, 11);
      assert t[11] != w[1];
      assert !PrefixAt(t, w, 10, 1);
      assert !ContainsFrom(t, w, 10);
      assert t[9] != w[0];
      assert !ContainsFrom(t, w, 9);
      assert t[8] != w[0];
      assert !ContainsFrom(t, w, 8);
      assert t[7] != w[0];
      assert !ContainsFrom(t, w, 7);
      assert t[6] != w[0];
      assert !ContainsFrom(t, w, 6);
      assert t[5] != w[0];
      assert !ContainsFrom(t, w, 5);
      assert t[4] != w[0];
      assert !ContainsFrom(t, w, 4);
      assert t[3] != w[0];
      assert !ContainsFrom(t, w, 3);
      assert t[2] != w[0];
      assert !ContainsFrom(t, w, 2);
      assert t[1] != w[0];
      assert !ContainsFrom(t, w, 1);
      assert t[1] != w[1];
      assert !PrefixAt(t, w, 0, 1);
      assert !ContainsFrom(t, w, 0);
      ContainsByWalk(t, w);
    }
    assert !Contains(t, "si ") by {
      var w := "si ";
      assert !ContainsFrom(t, w, 18);
      assert t[19] != w[2];
      assert !PrefixAt(t, w, 17, 2);
      assert !PrefixAt(t, w, 17, 1);
      assert !ContainsFrom(t, w, 17);
      assert t[16] != w[0];
      assert !ContainsFrom(t, w, 16);
      assert t[15] != w[0];
      assert !ContainsFrom(t, w, 15);
      assert t[14] != w[0];
      assert !ContainsFrom(t, w, 14);
      assert t[13] != w[0];
      assert !ContainsFrom(t, w, 13);
      assert t[12] != w[0];
      assert !ContainsFrom(t, w, 12);
      assert t[11] != w[0];
      assert !ContainsFrom(t, w, 11);
      assert t[10] != w[0];
      assert !ContainsFrom(t, w, 10);
      assert t[9] != w[0];
      assert !ContainsFrom(t, w, 9);
      assert t[8] != w[0];
      assert !ContainsFrom(t, w, 8);
      assert t[7] != w[0];
      assert !ContainsFrom(t, w, 7);
      assert t[6] != w[0];
      assert !ContainsFrom(t, w, 6);
      assert t[5] != w[0];
      assert !ContainsFrom(t, w, 5);
      assert t[4] != w[0];
      assert !ContainsFrom(t, w, 4);
      assert t[3] != w[0];
      assert !ContainsFrom(t, w, 3);
      assert t[2] != w[0];
      assert !ContainsFrom(t, w, 2);
      assert t[1] != w[0];
      assert !ContainsFrom(t, w, 1);
      assert t[0] != w[0];
      assert !ContainsFrom(t, w, 0);
      ContainsByWalk(t, w);
    }
    assert !Contains(t, "système d'information") by {
      var w := "système d'information";
      assert !ContainsFrom(t, w, 0);
      ContainsByWalk(t, w);
    }
  }

  lemma DirecteurDeMagasinNotInformatiquePart2(t: string)
    requires t == "directeur de magasin"
    ensures forall k :: k in InformatiqueKeywords[8..16] ==> !Contains(t, k)
  {
    DirecteurDeMagasinChars(t);
    assert !Contains(t, "systèmes d'information") by {
      var w := "systèmes d'information";
      assert !ContainsFrom(t, w, 0);
      ContainsByWalk(t, w);
    }
    assert !Contains(t, "logiciel") by {
      var w := "logiciel";
      assert !ContainsFrom(t, w, 13);
      assert t[12] != w[0];
      assert !ContainsFrom(t, w, 12);
      assert t[11] != w[0];
      assert !ContainsFrom(t, w, 11);
      assert t[10] != w[0];
      assert !ContainsFrom(t, w, 10);
      assert t[9] != w[0];
      assert !ContainsFrom(t, w, 9);
      assert t[8] != w[0];
      assert !ContainsFrom(t, w, 8);
      assert t[7] != w[0];
      assert !ContainsFrom(t, w, 7);
      assert t[6] != w[0];
      assert !ContainsFrom(t, w, 6);
      assert t[5] != w[0];
      assert !ContainsFrom(t, w, 5);
      assert t[4] != w[0];
      assert !ContainsFrom(t, w, 4);
      assert t[3] != w[0];
      assert !ContainsFrom(t, w, 3);
      assert t[2] != w[0];
      assert !ContainsFrom(t, w, 2);
      assert t[1] != w[0];
      assert !ContainsFrom(t, w, 1);
      assert t[0] != w[0];
      assert !ContainsFrom(t, w, 0);
      ContainsByWalk(t, w);
    }
    assert !Contains(t, "software") by {
      var w := "software";
      assert !ContainsFrom(t, w, 13);
      assert t[12] != w[0];
      assert !ContainsFrom(t, w, 12);
      assert t[11] != w[0];
      assert !ContainsFrom(t, w, 11);
      assert t[10] != w[0];
      assert !ContainsFrom(t, w, 10);
      assert t[9] != w[0];
      assert !ContainsFrom(t, w, 9);
      assert t[8] != w[0];
      assert !ContainsFrom(t, w, 8);
      assert t[7] != w[0];
      assert !ContainsFrom(t, w, 7);
      assert t[6] != w[0];
      assert !ContainsFrom(t, w, 6);
      assert t[5] != w[0];
      assert !ContainsFrom(t, w, 5);
      assert t[4] != w[0];
      assert !ContainsFrom(t, w, 4);
      assert t[3] != w[0];
      assert !ContainsFrom(t, w, 3);
      assert t[2] != w[0];
      assert !ContainsFrom(t, w, 2);
      assert t[1] != w[0];
      assert !ContainsFrom(t, w, 1);
      assert t[0] != w[0];
      assert !ContainsFrom(t, w, 0);
      ContainsByWalk(t, w);
    }
    assert !Contains(t, "it") by {
      var w := "it";
      assert !ContainsFrom(t, w, 19);
      assert t[19] != w[1];
      assert !PrefixAt(t, w, 18, 1);
      assert !ContainsFrom(t, w, 18);
      assert t[17] != w[0];
      assert !ContainsFrom(t, w, 17);
      assert t[16] != w[0];
      assert !ContainsFrom(t, w, 16);
      assert t[15] != w[0];
      assert !ContainsFrom(t, w, 15);
      assert t[14] != w[0];
      assert !ContainsFrom(t, w, 14);
      assert t[13] != w[0];
      assert !ContainsFrom(t, w, 13);
      assert t[12] != w[0];
      assert !ContainsFrom(t, w, 12);
      assert t[11] != w[0];
      assert !ContainsFrom(t, w, 11);
      assert t[10] != w[0];
      assert !ContainsFrom(t, w, 10);
      assert t[9] != w[0];
      assert !ContainsFrom(t, w, 9);
      assert t[8] != w[0];
      assert !ContainsFrom(t, w, 8);
      assert t[7] != w[0];
      assert !ContainsFrom(t, w, 7);
      assert t[6] != w[0];
      assert !ContainsFrom(t, w, 6);
      assert t[5] != w[0];
      assert !ContainsFrom(t, w, 5);
      assert t[4] != w[0];
      assert !ContainsFrom(t, w, 4);
      assert t[3] != w[0];
      assert !ContainsFrom(t, w, 3);
      assert t[2] != w[0];
      assert !ContainsFrom(t, w, 2);
      assert t[2] != w[1];
      assert !PrefixAt(t, w, 1, 1);
      assert !ContainsFrom(t, w, 1);
      assert t[0] != w[0];
      assert !ContainsFrom(t, w, 0);
      ContainsByWalk(t, w);
    }
    assert !Contains(t, "tech") by {
      var w := "tech";
      assert !ContainsFrom(t, w, 17);
      assert t[16] != w[0];
      assert !ContainsFrom(t, w, 16);
      assert t[15] != w[0];
      assert !ContainsFrom(t, w, 15);
      assert t[14] != w[0];
      assert !ContainsFrom(t, w, 14);
      assert t[13] != w[0];
      assert !ContainsFrom(t, w, 13);
      assert t[12] != w[0];
      assert !ContainsFrom(t, w, 12);
      assert t[11] != w[0];
      assert !ContainsFrom(t, w, 11);
      assert t[10] != w[0];
      assert !ContainsFrom(t, w, 10);
      assert t[9] != w[0];
      assert !ContainsFrom(t, w, 9);
      assert t[8] != w[0];
      assert !ContainsFrom(t, w, 8);
      assert t[7] != w[0];
      assert !ContainsFrom(t, w, 7);
      assert t[6] != w[0];
      assert !ContainsFrom(t, w, 6);
      assert t[7] != w[2];
      assert !PrefixAt(t, w, 5, 2);
      assert !PrefixAt(t, w, 5, 1);
      assert !ContainsFrom(t, w, 5);
      assert t[4] != w[0];
      assert !ContainsFrom(t, w, 4);
      assert t[3] != w[0];
      assert !ContainsFrom(t, w, 3);
      assert t[2] != w[0];
      assert !ContainsFrom(t, w, 2);
      assert t[1] != w[0];
      assert !ContainsFrom(t, w, 1);
      assert t[0] != w[0];
      assert !ContainsFrom(t, w, 0);
      ContainsByWalk(t, w);
    }
    assert !Contains(t, "numérique") by {
      var w := "numérique";
      assert !ContainsFrom(t, w, 12);
      assert t[11] != w[0];
      assert !ContainsFrom(t, w, 11);
      assert t[10] != w[0];
      assert !ContainsFrom(t, w, 10);
      assert t[9] != w[0];
      assert !ContainsFrom(t, w, 9);
      assert t[8] != w[0];
      assert !ContainsFrom(t, w, 8);
      assert t[7] != w[0];
      assert !ContainsFrom(t, w, 7);
      assert t[6] != w[0];
      assert !ContainsFrom(t, w, 6);
      assert t[5] != w[0];
      assert !ContainsFrom(t, w, 5);
      assert t[4] != w[0];
      assert !ContainsFrom(t, w, 4);
      assert t[3] != w[0];
      assert !ContainsFrom(t, w, 3);
      assert t[2] != w[0];
      assert !ContainsFrom(t, w, 2);
      assert t[1] != w[0];
      assert !ContainsFrom(t, w, 1);
      assert t[0] != w[0];
      assert !ContainsFrom(t, w, 0);
      ContainsByWalk(t, w);
    }
    assert !Contains(t, "digital") by {
      var w := "digital";
      assert !ContainsFrom(t, w, 14);
      assert t[13] != w[0];
      assert !ContainsFrom(t, w, 13);
      assert t[12] != w[0];
      assert !ContainsFrom(t, w, 12);
      assert t[11] != w[0];
      assert !ContainsFrom(t, w, 11);
      assert t[11] != w[1];
      assert !PrefixAt(t, w, 10, 1);
      assert !ContainsFrom(t, w, 10);
      assert t[9] != w[0];
      assert !ContainsFrom(t, w, 9);
      assert t[8] != w[0];
      assert !ContainsFrom(t, w, 8);
      assert t[7] != w[0];
      assert !ContainsFrom(t, w, 7);
      assert t[6] != w[0];
      assert !ContainsFrom(t, w, 6);
      assert t[5] != w[0];
      assert !ContainsFrom(t, w, 5);
      assert t[4] != w[0];
      assert !ContainsFrom(t, w, 4);
      assert t[3] != w[0];
      assert !ContainsFrom(t, w, 3);
      assert t[2] != w[0];
      assert !ContainsFrom(t, w, 2);
      assert t[1] != w[0];
      assert !ContainsFrom(t, w, 1);
      assert t[2] != w[2];
      assert !PrefixAt(t, w, 0, 2);
      assert !PrefixAt(t, w, 0, 1);
      assert !ContainsFrom(t, w, 0);
      ContainsByWalk(t, w);
    }
    assert !Contains(t, "progiciel") by {
      var w := "progiciel";
      assert !ContainsFrom(t, w, 12);
      assert t[11] != w[0];
      assert !ContainsFrom(t, w, 11);
      assert t[10] != w[0];
      assert !ContainsFrom(t, w, 10);
      assert t[9] != w[0];
      assert !ContainsFrom(t, w, 9);
      assert t[8] != w[0];
      assert !ContainsFrom(t, w, 8);
      assert t[7] != w[0];
      assert !ContainsFrom(t, w, 7);
      assert t[6] != w[0];
      assert !ContainsFrom(t, w, 6);
      assert t[5] != w[0];
      assert !ContainsFrom(t, w, 5);
      assert t[4] != w[0];
      assert !ContainsFrom(t, w, 4);
      assert t[3] != w[0];
      assert !ContainsFrom(t, w, 3);
      assert t[2] != w[0];
      assert !ContainsFrom(t, w, 2);
      assert t[1] != w[0];
      assert !ContainsFrom(t, w, 1);
      assert t[0] != w[0];
      assert !ContainsFrom(t, w, 0);
      ContainsByWalk(t, w);
    }
  }

  lemma DirecteurDeMagasinNotInformatique(t: string)
    requires t == "directeur de magasin"
    ensures forall k :: k in InformatiqueKeywords ==> !Contains(t, k)
  {
    DirecteurDeMagasinNotInformatiquePart1(t);
    DirecteurDeMagasinNotInformatiquePart2(t);
    assert InformatiqueKeywords == InformatiqueKeywords[0..8] + InformatiqueKeywords[8..16];
  }

  lemma DirecteurDeMagasinFiresCommerce(t: string)
    requires t == "directeur de magasin"
    ensures Contains(t, "magasin")
  {
    DirecteurDeMagasinChars(t);
      var w := "magasin";
      assert PrefixAt(t, w, 13, 6);
      assert PrefixAt(t, w, 13, 5);
      assert PrefixAt(t, w, 13, 4);
      assert PrefixAt(t, w, 13, 3);
      assert PrefixAt(t, w, 13, 2);
      assert PrefixAt(t, w, 13, 1);
      assert ContainsFrom(t, w, 13);
      assert ContainsFrom(t, w, 12);
      assert ContainsFrom(t, w, 11);
      assert ContainsFrom(t, w, 10);
      assert ContainsFrom(t, w, 9);
      assert ContainsFrom(t, w, 8);
      assert ContainsFrom(t, w, 7);
      assert ContainsFrom(t, w, 6);
      assert ContainsFrom(t, w, 5);
      assert ContainsFrom(t, w, 4);
      assert ContainsFrom(t, w, 3);
      assert ContainsFrom(t, w, 2);
      assert ContainsFrom(t, w, 1);
      assert ContainsFrom(t, w, 0);
      ContainsByWalk(t, w);
  }

  /** "directeur de magasin" holds the Management keyword "directeur", but Commerce comes first and wins. */
  lemma DirecteurDeMagasinExample(titre: string)
    requires Lower(titre) == "directeur de magasin"
    ensures ExtraireDomaine(titre) == "Commerce"
  {
    var t := Lower(titre);
    RulesTable();
    DirecteurDeMagasinNotRestauration(t);
    DirecteurDeMagasinNotLogistique(t);
    DirecteurDeMagasinNotBtp(t);
    DirecteurDeMagasinNotEnergieTechnique(t);
    DirecteurDeMagasinNotQualiteQhse(t);
    DirecteurDeMagasinNotFinanceAssurance(t);
    DirecteurDeMagasinNotInformatique(t);
    forall j | 0 <= j < 7
      ensures !Fires(t, Rules[j])
    {
      if j == 0 { } else if j == 1 { } else if j == 2 { } else if j == 3 { } else if j == 4 { } else if j == 5 { } else { assert j == 6; }
    }
    DirecteurDeMagasinFiresCommerce(t);
    assert "magasin" in CommerceKeywords;
    FirstFiringRuleWins(titre, 7);
  }

  /** The characters of "chef de projet", one by one. */
  lemma ChefDeProjetChars(t: string)
    requires t == "chef de projet"
    ensures |t| == 14
    ensures t[0] == 'c'
    ensures t[1] == 'h'
    ensures t[2] == 'e'
    ensures t[3] == 'f'
    ensures t[4] == ' '
    ensures t[5] == 'd'
    ensures t[6] == 'e'
    ensures t[7] == ' '
    ensures t[8] == 'p'
    ensures t[9] == 'r'
    ensures t[10] == 'o'
    ensures t[11] == 'j'
    ensures t[12] == 'e'
    ensures t[13] == 't'
  {
  }

  lemma ChefDeProjetNotRestauration(t: string)
    requires t == "chef de projet"
    ensures forall k :: k in RestaurationKeywords ==> !Contains(t, k)
  {
    ChefDeProjetChars(t);
    assert !Contains(t, "cuisinier") by {
      var w := "cuisinier";
      assert !ContainsFrom(t, w, 6);
      assert t[5] != w[0];
      assert !ContainsFrom(t, w, 5);
      assert t[4] != w[0];
      assert !ContainsFrom(t, w, 4);
      assert t[3] != w[0];
      assert !ContainsFrom(t, w, 3);
      assert t[2] != w[0];
      assert !ContainsFrom(t, w, 2);
      assert t[1] != w[0];
      assert !ContainsFrom(t, w, 1);
      assert t[1] != w[1];
      assert !PrefixAt(t, w, 0, 1);
      assert !ContainsFrom(t, w, 0);
      ContainsByWalk(t, w);
    }
    assert !Contains(t, "serveur") by {
      var w := "serveur";
      assert !ContainsFrom(t, w, 8);
      assert t[7] != w[0];
      assert !ContainsFrom(t, w, 7);
      assert t[6] != w[0];
      assert !ContainsFrom(t, w, 6);
      assert t[5] != w[0];
      assert !ContainsFrom(t, w, 5);
      assert t[4] != w[0];
      assert !ContainsFrom(t, w, 4);
      assert t[3] != w[0];
      assert !ContainsFrom(t, w, 3);
      assert t[2] != w[0];
      assert !ContainsFrom(t, w, 2);
      assert t[1] != w[0];
      assert !ContainsFrom(t, w, 1);
      assert t[0] != w[0];
      assert !ContainsFrom(t, w, 0);
      ContainsByWalk(t, w);
    }
    assert !Contains(t, "restauration") by {
      var w := "restauration";
      assert !ContainsFrom(t, w, 3);
      assert t[2] != w[0];
      assert !ContainsFrom(t, w, 2);
      assert t[1] != w[0];
      assert !ContainsFrom(t, w, 1);
      assert t[0] != w[0];
      assert !ContainsFrom(t, w, 0);
      ContainsByWalk(t, w);
    }
    assert !Contains(t, "hôtel") by {
      var w := "hôtel";
      assert !ContainsFrom(t, w, 10);
      assert t[9] != w[0];
      assert !ContainsFrom(t, w, 9);
      assert t[8] != w[0];
      assert !ContainsFrom(t, w, 8);
      assert t[7] != w[0];
      assert !ContainsFrom(t, w, 7);
      assert t[6] != w[0];
      assert !ContainsFrom(t, w, 6);
      assert t[5] != w[0];
      assert !ContainsFrom(t, w, 5);
      assert t[4] != w[0];
      assert !ContainsFrom(t, w, 4);
      assert t[3] != w[0];
      assert !ContainsFrom(t, w, 3);
      assert t[2] != w[0];
      assert !ContainsFrom(t, w, 2);
      assert t[2] != w[1];
      assert !PrefixAt(t, w, 1, 1);
      assert !ContainsFrom(t, w, 1);
      assert t[0] != w[0];
      assert !ContainsFrom(t, w, 0);
      ContainsByWalk(t, w);
    }
    assert !Contains(t, "hotel") by {
      var w := "hotel";
      assert !ContainsFrom(t, w, 10);
      assert t[9] != w[0];
      assert !ContainsFrom(t, w, 9);
      assert t[8] != w[0];
      assert !ContainsFrom(t, w, 8);
      assert t[7] != w[0];
      assert !ContainsFrom(t, w, 7);
      assert t[6] != w[0];
      assert !ContainsFrom(t, w, 6);
      assert t[5] != w[0];
      assert !ContainsFrom(t, w, 5);
      assert t[4] != w[0];
      assert !ContainsFrom(t, w, 4);
      assert t[3] != w[0];
      assert !ContainsFrom(t, w, 3);
      assert t[2] != w[0];
      assert !ContainsFrom(t, w, 2);
      assert t[2] != w[1];
      assert !PrefixAt(t, w, 1, 1);
      assert !ContainsFrom(t, w, 1);
      assert t[0] != w[0];
      assert !ContainsFrom(t, w, 0);
      ContainsByWalk(t, w);
    }
    assert !Contains(t, "chef de rang") by {
      var w := "chef de rang";
      assert !ContainsFrom(t, w, 3);
      assert t[2] != w[0];
      assert !ContainsFrom(t, w, 2);
      assert t[1] != w[0];
      assert !ContainsFrom(t, w, 1);
      assert t[8] != w[8];
      assert !PrefixAt(t, w, 0, 8);
      assert !PrefixAt(t, w, 0, 7);
      assert !PrefixAt(t, w, 0, 6);
      assert !PrefixAt(t, w, 0, 5);
      assert !PrefixAt(t, w, 0, 4);
      assert !PrefixAt(t, w, 0, 3);
      assert !PrefixAt(t, w, 0, 2);
      assert !PrefixAt(t, w, 0, 1);
      assert !ContainsFrom(t, w, 0);
      ContainsByWalk(t, w);
    }
    assert !Contains(t, "restaurant") by {
      var w := "restaurant";
      assert !ContainsFrom(t, w, 5);
      assert t[4] != w[0];
      assert !ContainsFrom(t, w, 4);
      assert t[3] != w[0];
      assert !ContainsFrom(t, w, 3);
      assert t[2] != w[0];
      assert !ContainsFrom(t, w, 2);
      assert t[1] != w[0];
      assert !ContainsFrom(t, w, 1);
      assert t[0] != w[0];
      assert !ContainsFrom(t, w, 0);
      ContainsByWalk(t, w);
    }
  }

  lemma ChefDeProjetNotLogistique(t: string)
    requires t == "chef de projet"
    ensures forall k :: k in LogistiqueKeywords ==> !Contains(t, k)
  {
    ChefDeProjetChars(t);
    assert !Contains(t, "logistique") by {
      var w := "logistique";
      assert !ContainsFrom(t, w, 5);
      assert t[4] != w[0];
      assert !ContainsFrom(t, w, 4);
      assert t[3] != w[0];
      assert !ContainsFrom(t, w, 3);
      assert t[2] != w[0];
      assert !ContainsFrom(t, w, 2);
      assert t[1] != w[0];
      assert !ContainsFrom(t, w, 1);
      assert t[0] != w[0];
      assert !ContainsFrom(t, w, 0);
      ContainsByWalk(t, w);
    }
    assert !Contains(t, "chauffeur") by {
      var w := "chauffeur";
      assert !ContainsFrom(t, w, 6);
      assert t[5] != w[0];
      assert !ContainsFrom(t, w, 5);
      assert t[4] != w[0];
      assert !ContainsFrom(t, w, 4);
      assert t[3] != w[0];
      assert !ContainsFrom(t, w, 3);
      assert t[2] != w[0];
      assert !ContainsFrom(t, w, 2);
      assert t[1] != w[0];
      assert !ContainsFrom(t, w, 1);
      assert t[2] != w[2];
      assert !PrefixAt(t, w, 0, 2);
      assert !PrefixAt(t, w, 0, 1);
      assert !ContainsFrom(t, w, 0);
      ContainsByWalk(t, w);
    }
    assert !Contains(t, "livreur") by {
      var w := "livreur";
      assert !ContainsFrom(t, w, 8);
      assert t[7] != w[0];
      assert !ContainsFrom(t, w, 7);
      assert t[6] != w[0];
      assert !ContainsFrom(t, w, 6);
      assert t[5] != w[0];
      assert !ContainsFrom(t, w, 5);
      assert t[4] != w[0];
      assert !ContainsFrom(t, w, 4);
      assert t[3] != w[0];
      assert !ContainsFrom(t, w, 3);
      assert t[2] != w[0];
      assert !ContainsFrom(t, w, 2);
      assert t[1] != w[0];
      assert !ContainsFrom(t, w, 1);
      assert t[0] != w[0];
      assert !ContainsFrom(t, w, 0);
      ContainsByWalk(t, w);
    }
    assert !Contains(t, "transport") by {
      var w := "transport";
      assert !ContainsFrom(t, w, 6);
      assert t[5] != w[0];
      assert !ContainsFrom(t, w, 5);
      assert t[4] != w[0];
      assert !ContainsFrom(t, w, 4);
      assert t[3] != w[0];
      assert !ContainsFrom(t, w, 3);
      assert t[2] != w[0];
      assert !ContainsFrom(t, w, 2);
      assert t[1] != w[0];
      assert !ContainsFrom(t, w, 1);
      assert t[0] != w[0];
      assert !ContainsFrom(t, w, 0);
      ContainsByWalk(t, w);
    }
    assert !Contains(t, "pl de nuit") by {
      var w := "pl de nuit";
      assert !ContainsFrom(t, w, 5);
      assert t[4] != w[0];
      assert !ContainsFrom(t, w, 4);
      assert t[3] != w[0];
      assert !ContainsFrom(t, w, 3);
      assert t[2] != w[0];
      assert !ContainsFrom(t, w, 2);
      assert t[1] != w[0];
      assert !ContainsFrom(t, w, 1);
      assert t[0] != w[0];
      assert !ContainsFrom(t, w, 0);
      ContainsByWalk(t, w);
    }
    assert !Contains(t, "magasinier") by {
      var w := "magasinier";
      assert !ContainsFrom(t, w, 5);
      assert t[4] != w[0];
      assert !ContainsFrom(t, w, 4);
      assert t[3] != w[0];
      assert !ContainsFrom(t, w, 3);
      assert t[2] != w[0];
      assert !ContainsFrom(t, w, 2);
      assert t[1] != w[0];
      assert !ContainsFrom(t, w, 1);
      assert t[0] != w[0];
      assert !ContainsFrom(t, w, 0);
      ContainsByWalk(t, w);
    }
    assert !Contains(t, "cariste") by {
      var w := "cariste";
      assert !ContainsFrom(t, w, 8);
      assert t[7] != w[0];
      assert !ContainsFrom(t, w, 7);
      assert t[6] != w[0];
      assert !ContainsFrom(t, w, 6);
      assert t[5] != w[0];
      assert !ContainsFrom(t, w, 5);
      assert t[4] != w[0];
      assert !ContainsFrom(t, w, 4);
      assert t[3] != w[0];
      assert !ContainsFrom(t, w, 3);
      assert t[2] != w[0];
      assert !ContainsFrom(t, w, 2);
      assert t[1] != w[0];
      assert !ContainsFrom(t, w, 1);
      assert t[1] != w[1];
      assert !PrefixAt(t, w, 0, 1);
      assert !ContainsFrom(t, w, 0);
      ContainsByWalk(t, w);
    }
  }

  lemma ChefDeProjetNotBtp(t: string)
    requires t == "chef de projet"
    ensures forall k :: k in BtpKeywords ==> !Contains(t, k)
  {
    ChefDeProjetChars(t);
    assert !Contains(t, "conducteur de travaux") by {
      var w := "conducteur de travaux";
      assert !ContainsFrom(t, w, 0);
      ContainsByWalk(t, w);
    }
    assert !Contains(t, "chantier") by {
      var w := "chantier";
      assert !ContainsFrom(t, w, 7);
      assert t[6] != w[0];
      assert !ContainsFrom(t, w, 6);
      assert t[5] != w[0];
      assert !ContainsFrom(t, w, 5);
      assert t[4] != w[0];
      assert !ContainsFrom(t, w, 4);
      assert t[3] != w[0];
      assert !ContainsFrom(t, w, 3);
      assert t[2] != w[0];
      assert !ContainsFrom(t, w, 2);
      assert t[1] != w[0];
      assert !ContainsFrom(t, w, 1);
      assert t[2] != w[2];
      assert !PrefixAt(t, w, 0, 2);
      assert !PrefixAt(t, w, 0, 1);
      assert !ContainsFrom(t, w, 0);
      ContainsByWalk(t, w);
    }
    assert !Contains(t, "géotechnique") by {
      var w := "géotechnique";
      assert !ContainsFrom(t, w, 3);
      assert t[2] != w[0];
      assert !ContainsFrom(t, w, 2);
      assert t[1] != w[0];
      assert !ContainsFrom(t, w, 1);
      assert t[0] != w[0];
      assert !ContainsFrom(t, w, 0);
      ContainsByWalk(t, w);
    }
    assert !Contains(t, "geotechnique") by {
      var w := "geotechnique";
      assert !ContainsFrom(t, w, 3);
      assert t[2] != w[0];
      assert !ContainsFrom(t, w, 2);
      assert t[1] != w[0];
      assert !ContainsFrom(t, w, 1);
      assert t[0] != w[0];
      assert !ContainsFrom(t, w, 0);
      ContainsByWalk(t, w);
    }
    assert !Contains(t, "ingénieur travaux") by {
      var w := "ingénieur travaux";
      assert !ContainsFrom(t, w, 0);
      ContainsByWalk(t, w);
    }
    assert !Contains(t, "travaux publics") by {
      var w := "travaux publics";
      assert !ContainsFrom(t, w, 0);
      ContainsByWalk(t, w);
    }
    assert !Contains(t, "bâtiment") by {
      var w := "bâtiment";
      assert !ContainsFrom(t, w, 7);
      assert t[6] != w[0];
      assert !ContainsFrom(t, w, 6);
      assert t[5] != w[0];
      assert !ContainsFrom(t, w, 5);
      assert t[4] != w[0];
      assert !ContainsFrom(t, w, 4);
      assert t[3] != w[0];
      assert !ContainsFrom(t, w, 3);
      assert t[2] != w[0];
      assert !ContainsFrom(t, w, 2);
      assert t[1] != w[0];
      assert !ContainsFrom(t, w, 1);
      assert t[0] != w[0];
      assert !ContainsFrom(t, w, 0);
      ContainsByWalk(t, w);
    }
    assert !Contains(t, "batiment") by {
      var w := "batiment";
      assert !ContainsFrom(t, w, 7);
      assert t[6] != w[0];
      assert !ContainsFrom(t, w, 6);
      assert t[5] != w[0];
      assert !ContainsFrom(t, w, 5);
      assert t[4] != w[0];
      assert !ContainsFrom(t, w, 4);
      assert t[3] != w[0];
      assert !ContainsFrom(t, w, 3);
      assert t[2] != w[0];
      assert !ContainsFrom(t, w, 2);
      assert t[1] != w[0];
      assert !ContainsFrom(t, w, 1);
      assert t[0] != w[0];
      assert !ContainsFrom(t, w, 0);
      ContainsByWalk(t, w);
    }
    assert !Contains(t, "scierie") by {
      var w := "scierie";
      assert !ContainsFrom(t, w, 8);
      assert t[7] != w[0];
      assert !ContainsFrom(t, w, 7);
      assert t[6] != w[0];
      assert !ContainsFrom(t, w, 6);
      assert t[5] != w[0];
      assert !ContainsFrom(t, w, 5);
      assert t[4] != w[0];
      assert !ContainsFrom(t, w, 4);
      assert t[3] != w[0];
      assert !ContainsFrom(t, w, 3);
      assert t[2] != w[0];
      assert !ContainsFrom(t, w, 2);
      assert t[1] != w[0];
      assert !ContainsFrom(t, w, 1);
      assert t[0] != w[0];
      assert !ContainsFrom(t, w, 0);
      ContainsByWalk(t, w);
    }
  }

  lemma ChefDeProjetNotEnergieTechnique(t: string)
    requires t == "chef de projet"
    ensures forall k :: k in EnergieKeywords ==> !Contains(t, k)
  {
    ChefDeProjetChars(t);
    assert !Contains(t, "électricien") by {
      var w := "électricien";
      assert !ContainsFrom(t, w, 4);
      assert t[3] != w[0];
      assert !ContainsFrom(t, w, 3);
      assert t[2] != w[0];
      assert !ContainsFrom(t, w, 2);
      assert t[1] != w[0];
      assert !ContainsFrom(t, w, 1);
      assert t[0] != w[0];
      assert !ContainsFrom(t, w, 0);
      ContainsByWalk(t, w);
    }
    assert !Contains(t, "electricien") by {
      var w := "electricien";
      assert !ContainsFrom(t, w, 4);
      assert t[3] != w[0];
      assert !ContainsFrom(t, w, 3);
      assert t[3] != w[1];
      assert !PrefixAt(t, w, 2, 1);
      assert !ContainsFrom(t, w, 2);
      assert t[1] != w[0];
      assert !ContainsFrom(t, w, 1);
      assert t[0] != w[0];
      assert !ContainsFrom(t, w, 0);
      ContainsByWalk(t, w);
    }
    assert !Contains(t, "électricité") by {
      var w := "électricité";
      assert !ContainsFrom(t, w, 4);
      assert t[3] != w[0];
      assert !ContainsFrom(t, w, 3);
      assert t[2] != w[0];
      assert !ContainsFrom(t, w, 2);
      assert t[1] != w[0];
      assert !ContainsFrom(t, w, 1);
      assert t[0] != w[0];
      assert !ContainsFrom(t, w, 0);
      ContainsByWalk(t, w);
    }
    assert !Contains(t, "electricite") by {
      var w := "electricite";
      assert !ContainsFrom(t, w, 4);
      assert t[3] != w[0];
      assert !ContainsFrom(t, w, 3);
      assert t[3] != w[1];
      assert !PrefixAt(t, w, 2, 1);
      assert !ContainsFrom(t, w, 2);
      assert t[1] != w[0];
      assert !ContainsFrom(t, w, 1);
      assert t[0] != w[0];
      assert !ContainsFrom(t, w, 0);
      ContainsByWalk(t, w);
    }
    assert !Contains(t, "électrique") by {
      var w := "électrique";
      assert !ContainsFrom(t, w, 5);
      assert t[4] != w[0];
      assert !ContainsFrom(t, w, 4);
      assert t[3] != w[0];
      assert !ContainsFrom(t, w, 3);
      assert t[2] != w[0];
      assert !ContainsFrom(t, w, 2);
      assert t[1] != w[0];
      assert !ContainsFrom(t, w, 1);
      assert t[0] != w[0];
      assert !ContainsFrom(t, w, 0);
      ContainsByWalk(t, w);
    }
    assert !Contains(t, "electric") by {
      var w := "electric";
      assert !ContainsFrom(t, w, 7);
      assert t[7] != w[1];
      assert !PrefixAt(t, w, 6, 1);
      assert !ContainsFrom(t, w, 6);
      assert t[5] != w[0];
      assert !ContainsFrom(t, w, 5);
      assert t[4] != w[0];
      assert !ContainsFrom(t, w, 4);
      assert t[3] != w[0];
      assert !ContainsFrom(t, w, 3);
      assert t[3] != w[1];
      assert !PrefixAt(t, w, 2, 1);
      assert !ContainsFrom(t, w, 2);
      assert t[1] != w[0];
      assert !ContainsFrom(t, w, 1);
      assert t[0] != w[0];
      assert !ContainsFrom(t, w, 0);
      ContainsByWalk(t, w);
    }
    assert !Contains(t, "énergie") by {
      var w := "énergie";
      assert !ContainsFrom(t, w, 8);
      assert t[7] != w[0];
      assert !ContainsFrom(t, w, 7);
      assert t[6] != w[0];
      assert !ContainsFrom(t, w, 6);
      assert t[5] != w[0];
      assert !ContainsFrom(t, w, 5);
      assert t[4] != w[0];
      assert !ContainsFrom(t, w, 4);
      assert t[3] != w[0];
      assert !ContainsFrom(t, w, 3);
      assert t[2] != w[0];
      assert !ContainsFrom(t, w, 2);
      assert t[1] != w[0];
      assert !ContainsFrom(t, w, 1);
      assert t[0] != w[0];
      assert !ContainsFrom(t, w, 0);
      ContainsByWalk(t, w);
    }
    assert !Contains(t, "energie") by {
      var w := "energie";
      assert !ContainsFrom(t, w, 8);
      assert t[7] != w[0];
      assert !ContainsFrom(t, w, 7);
      assert t[7] != w[1];
      assert !PrefixAt(t, w, 6, 1);
      assert !ContainsFrom(t, w, 6);
      assert t[5] != w[0];
      assert !ContainsFrom(t, w, 5);
      assert t[4] != w[0];
      assert !ContainsFrom(t, w, 4);
      assert t[3] != w[0];
      assert !ContainsFrom(t, w, 3);
      assert t[3] != w[1];
      assert !PrefixAt(t, w, 2, 1);
      assert !ContainsFrom(t, w, 2);
      assert t[1] != w[0];
      assert !ContainsFrom(t, w, 1);
      assert t[0] != w[0];
      assert !ContainsFrom(t, w, 0);
      ContainsByWalk(t, w);
    }
    assert !Contains(t, "technicien") by {
      var w := "technicien";
      assert !ContainsFrom(t, w, 5);
      assert t[4] != w[0];
      assert !ContainsFrom(t, w, 4);
      assert t[3] != w[0];
      assert !ContainsFrom(t, w, 3);
      assert t[2] != w[0];
      assert !ContainsFrom(t, w, 2);
      assert t[1] != w[0];
      assert !ContainsFrom(t, w, 1);
      assert t[0] != w[0];
      assert !ContainsFrom(t, w, 0);
      ContainsByWalk(t, w);
    }
    assert !Contains(t, "maintenance") by {
      var w := "maintenance";
      assert !ContainsFrom(t, w, 4);
      assert t[3] != w[0];
      assert !ContainsFrom(t, w, 3);
      assert t[2] != w[0];
      assert !ContainsFrom(t, w, 2);
      assert t[1] != w[0];
      assert !ContainsFrom(t, w, 1);
      assert t[0] != w[0];
      assert !ContainsFrom(t, w, 0);
      ContainsByWalk(t, w);
    }
  }

  lemma ChefDeProjetNotQualiteQhse(t: string)
    requires t == "chef de projet"
    ensures forall k :: k in QualiteKeywords ==> !Contains(t, k)
  {
    ChefDeProjetChars(t);
    assert !Contains(t, "qhse") by {
      var w := "qhse";
      assert !ContainsFrom(t, w, 11);
      assert t[10] != w[0];
      assert !ContainsFrom(t, w, 10);
      assert t[9] != w[0];
      assert !ContainsFrom(t, w, 9);
      assert t[8] != w[0];
      assert !ContainsFrom(t, w, 8);
      assert t[7] != w[0];
      assert !ContainsFrom(t, w, 7);
      assert t[6] != w[0];
      assert !ContainsFrom(t, w, 6);
      assert t[5] != w[0];
      assert !ContainsFrom(t, w, 5);
      assert t[4] != w[0];
      assert !ContainsFrom(t, w, 4);
      assert t[3] != w[0];
      assert !ContainsFrom(t, w, 3);
      assert t[2] != w[0];
      assert !ContainsFrom(t, w, 2);
      assert t[1] != w[0];
      assert !ContainsFrom(t, w, 1);
      assert t[0] != w[0];
      assert !ContainsFrom(t, w, 0);
      ContainsByWalk(t, w);
    }
    assert !Contains(t, "qse") by {
      var w := "qse";
      assert !ContainsFrom(t, w, 12);
      assert t[11] != w[0];
      assert !ContainsFrom(t, w, 11);
      assert t[10] != w[0];
      assert !ContainsFrom(t, w, 10);
      assert t[9] != w[0];
      assert !ContainsFrom(t, w, 9);
      assert t[8] != w[0];
      assert !ContainsFrom(t, w, 8);
      assert t[7] != w[0];
      assert !ContainsFrom(t, w, 7);
      assert t[6] != w[0];
      assert !ContainsFrom(t, w, 6);
      assert t[5] != w[0];
      assert !ContainsFrom(t, w, 5);
      assert t[4] != w[0];
      assert !ContainsFrom(t, w, 4);
      assert t[3] != w[0];
      assert !ContainsFrom(t, w, 3);
      assert t[2] != w[0];
      assert !ContainsFrom(t, w, 2);
      assert t[1] != w[0];
      assert !ContainsFrom(t, w, 1);
      assert t[0] != w[0];
      assert !ContainsFrom(t, w, 0);
      ContainsByWalk(t, w);
    }
    assert !Contains(t, "qualité") by {
      var w := "qualité";
      assert !ContainsFrom(t, w, 8);
      assert t[7] != w[0];
      assert !ContainsFrom(t, w, 7);
      assert t[6] != w[0];
      assert !ContainsFrom(t, w, 6);
      assert t[5] != w[0];
      assert !ContainsFrom(t, w, 5);
      assert t[4] != w[0];
      assert !ContainsFrom(t, w, 4);
      assert t[3] != w[0];
      assert !ContainsFrom(t, w, 3);
      assert t[2] != w[0];
      assert !ContainsFrom(t, w, 2);
      assert t[1] != w[0];
      assert !ContainsFrom(t, w, 1);
      assert t[0] != w[0];
      assert !ContainsFrom(t, w, 0);
      ContainsByWalk(t, w);
    }
    assert !Contains(t, "qualite") by {
      var w := "qualite";
      assert !ContainsFrom(t, w, 8);
      assert t[7] != w[0];
      assert !ContainsFrom(t, w, 7);
      assert t[6] != w[0];
      assert !ContainsFrom(t, w, 6);
      assert t[5] != w[0];
      assert !ContainsFrom(t, w, 5);
      assert t[4] != w[0];
      assert !ContainsFrom(t, w, 4);
      assert t[3] != w[0];
      assert !ContainsFrom(t, w, 3);
      assert t[2] != w[0];
      assert !ContainsFrom(t, w, 2);
      assert t[1] != w[0];
      assert !ContainsFrom(t, w, 1);
      assert t[0] != w[0];
      assert !ContainsFrom(t, w, 0);
      ContainsByWalk(t, w);
    }
    assert !Contains(t, "sécurité") by {
      var w := "sécurité";
      assert !ContainsFrom(t, w, 7);
      assert t[6] != w[0];
      assert !ContainsFrom(t, w, 6);
      assert t[5] != w[0];
      assert !ContainsFrom(t, w, 5);
      assert t[4] != w[0];
      assert !ContainsFrom(t, w, 4);
      assert t[3] != w[0];
      assert !ContainsFrom(t, w, 3);
      assert t[2] != w[0];
      assert !ContainsFrom(t, w, 2);
      assert t[1] != w[0];
      assert !ContainsFrom(t, w, 1);
      assert t[0] != w[0];
      assert !ContainsFrom(t, w, 0);
      ContainsByWalk(t, w);
    }
    assert !Contains(t, "securite") by {
      var w := "securite";
      assert !ContainsFrom(t, w, 7);
      assert t[6] != w[0];
      assert !ContainsFrom(t, w, 6);
      assert t[5] != w[0];
      assert !ContainsFrom(t, w, 5);
      assert t[4] != w[0];
      assert !ContainsFrom(t, w, 4);
      assert t[3] != w[0];
      assert !ContainsFrom(t, w, 3);
      assert t[2] != w[0];
      assert !ContainsFrom(t, w, 2);
      assert t[1] != w[0];
      assert !ContainsFrom(t, w, 1);
      assert t[0] != w[0];
      assert !ContainsFrom(t, w, 0);
      ContainsByWalk(t, w);
    }
    assert !Contains(t, "hse") by {
      var w := "hse";
      assert !ContainsFrom(t, w, 12);
      assert t[11] != w[0];
      assert !ContainsFrom(t, w, 11);
      assert t[10] != w[0];
      assert !ContainsFrom(t, w, 10);
      assert t[9] != w[0];
      assert !ContainsFrom(t, w, 9);
      assert t[8] != w[0];
      assert !ContainsFrom(t, w, 8);
      assert t[7] != w[0];
      assert !ContainsFrom(t, w, 7);
      assert t[6] != w[0];
      assert !ContainsFrom(t, w, 6);
      assert t[5] != w[0];
      assert !ContainsFrom(t, w, 5);
      assert t[4] != w[0];
      assert !ContainsFrom(t, w, 4);
      assert t[3] != w[0];
      assert !ContainsFrom(t, w, 3);
      assert t[2] != w[0];
      assert !ContainsFrom(t, w, 2);
      assert t[2] != w[1];
      assert !PrefixAt(t, w, 1, 1);
      assert !ContainsFrom(t, w, 1);
      assert t[0] != w[0];
      assert !ContainsFrom(t, w, 0);
      ContainsByWalk(t, w);
    }
  }

  lemma ChefDeProjetNotFinanceAssurance(t: string)
    requires t == "chef de projet"
    ensures forall k :: k in FinanceKeywords ==> !Contains(t, k)
  {
    ChefDeProjetChars(t);
    assert !Contains(t, "actuaire") by {
      var w := "actuaire";
      assert !ContainsFrom(t, w, 7);
      assert t[6] != w[0];
      assert !ContainsFrom(t, w, 6);
      assert t[5] != w[0];
      assert !ContainsFrom(t, w, 5);
      assert t[4] != w[0];
      assert !ContainsFrom(t, w, 4);
      assert t[3] != w[0];
      assert !ContainsFrom(t, w, 3);
      assert t[2] != w[0];
      assert !ContainsFrom(t, w, 2);
      assert t[1] != w[0];
      assert !ContainsFrom(t, w, 1);
      assert t[0] != w[0];
      assert !ContainsFrom(t, w, 0);
      ContainsByWalk(t, w);
    }
    assert !Contains(t, "risques") by {
      var w := "risques";
      assert !ContainsFrom(t, w, 8);
      assert t[7] != w[0];
      assert !ContainsFrom(t, w, 7);
      assert t[6] != w[0];
      assert !ContainsFrom(t, w, 6);
      assert t[5] != w[0];
      assert !ContainsFrom(t, w, 5);
      assert t[4] != w[0];
      assert !ContainsFrom(t, w, 4);
      assert t[3] != w[0];
      assert !ContainsFrom(t, w, 3);
      assert t[2] != w[0];
      assert !ContainsFrom(t, w, 2);
      assert t[1] != w[0];
      assert !ContainsFrom(t, w, 1);
      assert t[0] != w[0];
      assert !ContainsFrom(t, w, 0);
      ContainsByWalk(t, w);
    }
    assert !Contains(t, "assurances") by {
      var w := "assurances";
      assert !ContainsFrom(t, w, 5);
      assert t[4] != w[0];
      assert !ContainsFrom(t, w, 4);
      assert t[3] != w[0];
      assert !ContainsFrom(t, w, 3);
      assert t[2] != w[0];
      assert !ContainsFrom(t, w, 2);
      assert t[1] != w[0];
      assert !ContainsFrom(t, w, 1);
      assert t[0] != w[0];
      assert !ContainsFrom(t, w, 0);
      ContainsByWalk(t, w);
    }
    assert !Contains(t, "assurance") by {
      var w := "assurance";
      assert !ContainsFrom(t, w, 6);
      assert t[5] != w[0];
      assert !ContainsFrom(t, w, 5);
      assert t[4] != w[0];
      assert !ContainsFrom(t, w, 4);
      assert t[3] != w[0];
      assert !ContainsFrom(t, w, 3);
      assert t[2] != w[0];
      assert !ContainsFrom(t, w, 2);
      assert t[1] != w[0];
      assert !ContainsFrom(t, w, 1);
      assert t[0] != w[0];
      assert !ContainsFrom(t, w, 0);
      ContainsByWalk(t, w);
    }
    assert !Contains(t, "comptable") by {
      var w := "comptable";
      assert !ContainsFrom(t, w, 6);
      assert t[5] != w[0];
      assert !ContainsFrom(t, w, 5);
      assert t[4] != w[0];
      assert !ContainsFrom(t, w, 4);
      assert t[3] != w[0];
      assert !ContainsFrom(t, w, 3);
      assert t[2] != w[0];
      assert !ContainsFrom(t, w, 2);
      assert t[1] != w[0];
      assert !ContainsFrom(t, w, 1);
      assert t[1] != w[1];
      assert !PrefixAt(t, w, 0, 1);
      assert !ContainsFrom(t, w, 0);
      ContainsByWalk(t, w);
    }
    assert !Contains(t, "comptabilité") by {
      var w := "comptabilité";
      assert !ContainsFrom(t, w, 3);
      assert t[2] != w[0];
      assert !ContainsFrom(t, w, 2);
      assert t[1] != w[0];
      assert !ContainsFrom(t, w, 1);
      assert t[1] != w[1];
      assert !PrefixAt(t, w, 0, 1);
      assert !ContainsFrom(t, w, 0);
      ContainsByWalk(t, w);
    }
    assert !Contains(t, "audit") by {
      var w := "audit";
      assert !ContainsFrom(t, w, 10);
      assert t[9] != w[0];
      assert !ContainsFrom(t, w, 9);
      assert t[8] != w[0];
      assert !ContainsFrom(t, w, 8);
      assert t[7] != w[0];
      assert !ContainsFrom(t, w, 7);
      assert t[6] != w[0];
      assert !ContainsFrom(t, w, 6);
      assert t[5] != w[0];
      assert !ContainsFrom(t, w, 5);
      assert t[4] != w[0];
      assert !ContainsFrom(t, w, 4);
      assert t[3] != w[0];
      assert !ContainsFrom(t, w, 3);
      assert t[2] != w[0];
      assert !ContainsFrom(t, w, 2);
      assert t[1] != w[0];
      assert !ContainsFrom(t, w, 1);
      assert t[0] != w[0];
      assert !ContainsFrom(t, w, 0);
      ContainsByWalk(t, w);
    }
    assert !Contains(t, "contrôle de gestion") by {
      var w := "contrôle de gestion";
      assert !ContainsFrom(t, w, 0);
      ContainsByWalk(t, w);
    }
    assert !Contains(t, "controle de gestion") by {
      var w := "controle de gestion";
      assert !ContainsFrom(t, w, 0);
      ContainsByWalk(t, w);
    }
  }

  lemma ChefDeProjetNotInformatiquePart1(t: string)
    requires t == "chef de projet"
    ensures forall k :: k in InformatiqueKeywords[0..11] ==> !Contains(t, k)
  {
    ChefDeProjetChars(t);
    assert !Contains(t, "développeur") by {
      var w := "développeur";
      assert !ContainsFrom(t, w, 4);
      assert t[3] != w[0];
      assert !ContainsFrom(t, w, 3);
      assert t[2] != w[0];
      assert !ContainsFrom(t, w, 2);
      assert t[1] != w[0];
      assert !ContainsFrom(t, w, 1);
      assert t[0] != w[0];
      assert !ContainsFrom(t, w, 0);
      ContainsByWalk(t, w);
    }
    assert !Contains(t, "developpeur") by {
      var w := "developpeur";
      assert !ContainsFrom(t, w, 4);
      assert t[3] != w[0];
      assert !ContainsFrom(t, w, 3);
      assert t[2] != w[0];
      assert !ContainsFrom(t, w, 2);
      assert t[1] != w[0];
      assert !ContainsFrom(t, w, 1);
      assert t[0] != w[0];
      assert !ContainsFrom(t, w, 0);
      ContainsByWalk(t, w);
    }
    assert !Contains(t, "développeuse") by {
      var w := "développeuse";
      assert !ContainsFrom(t, w, 3);
      assert t[2] != w[0];
      assert !ContainsFrom(t, w, 2);
      assert t[1] != w[0];
      assert !ContainsFrom(t, w, 1);
      assert t[0] != w[0];
      assert !ContainsFrom(t, w, 0);
      ContainsByWalk(t, w);
    }
    assert !Contains(t, "developer") by {
      var w := "developer";
      assert !ContainsFrom(t, w, 6);
      assert t[7] != w[2];
      assert !PrefixAt(t, w, 5, 2);
      assert !PrefixAt(t, w, 5, 1);
      assert !ContainsFrom(t, w, 5);
      assert t[4] != w[0];
      assert !ContainsFrom(t, w, 4);
      assert t[3] != w[0];
      assert !ContainsFrom(t, w, 3);
      assert t[2] != w[0];
      assert !ContainsFrom(t, w, 2);
      assert t[1] != w[0];
      assert !ContainsFrom(t, w, 1);
      assert t[0] != w[0];
      assert !ContainsFrom(t, w, 0);
      ContainsByWalk(t, w);
    }
    assert !Contains(t, "informatique") by {
      var w := "informatique";
      assert !ContainsFrom(t, w, 3);
      assert t[2] != w[0];
      assert !ContainsFrom(t, w, 2);
      assert t[1] != w[0];
      assert !ContainsFrom(t, w, 1);
      assert t[0] != w[0];
      assert !ContainsFrom(t, w, 0);
      ContainsByWalk(t, w);
    }
    assert !Contains(t, "data") by {
      var w := "data";
      assert !ContainsFrom(t, w, 11);
      assert t[10] != w[0];
      assert !ContainsFrom(t, w, 10);
      assert t[9] != w[0];
      assert !ContainsFrom(t, w, 9);
      assert t[8] != w[0];
      assert !ContainsFrom(t, w, 8);
      assert t[7] != w[0];
      assert !ContainsFrom(t, w, 7);
      assert t[6] != w[0];
      assert !ContainsFrom(t, w, 6);
      assert t[6] != w[1];
      assert !PrefixAt(t, w, 5, 1);
      assert !ContainsFrom(t, w, 5);
      assert t[4] != w[0];
      assert !ContainsFrom(t, w, 4);
      assert t[3] != w[0];
      assert !ContainsFrom(t, w, 3);
      assert t[2] != w[0];
      assert !ContainsFrom(t, w, 2);
      assert t[1] != w[0];
      assert !ContainsFrom(t, w, 1);
      assert t[0] != w[0];
      assert !ContainsFrom(t, w, 0);
      ContainsByWalk(t, w);
    }
    assert !Contains(t, "si ") by {
      var w := "si ";
      assert !ContainsFrom(t, w, 12);
      assert t[11] != w[0];
      assert !ContainsFrom(t, w, 11);
      assert t[10] != w[0];
      assert !ContainsFrom(t, w, 10);
      assert t[9] != w[0];
      assert !ContainsFrom(t, w, 9);
      assert t[8] != w[0];
      assert !ContainsFrom(t, w, 8);
      assert t[7] != w[0];
      assert !ContainsFrom(t, w, 7);
      assert t[6] != w[0];
      assert !ContainsFrom(t, w, 6);
      assert t[5] != w[0];
      assert !ContainsFrom(t, w, 5);
      assert t[4] != w[0];
      assert !ContainsFrom(t, w, 4);
      assert t[3] != w[0];
      assert !ContainsFrom(t, w, 3);
      assert t[2] != w[0];
      assert !ContainsFrom(t, w, 2);
      assert t[1] != w[0];
      assert !ContainsFrom(t, w, 1);
      assert t[0] != w[0];
      assert !ContainsFrom(t, w, 0);
      ContainsByWalk(t, w);
    }
    assert !Contains(t, "système d'information") by {
      var w := "système d'information";
      assert !ContainsFrom(t, w, 0);
      ContainsByWalk(t, w);
    }
    assert !Contains(t, "systèmes d'information") by {
      var w := "systèmes d'information";
      assert !ContainsFrom(t, w, 0);
      ContainsByWalk(t, w);
    }
    assert !Contains(t, "logiciel") by {
      var w := "logiciel";
      assert !ContainsFrom(t, w, 7);
      assert t[6] != w[0];
      assert !ContainsFrom(t, w, 6);
      assert t[5] != w[0];
      assert !ContainsFrom(t, w, 5);
      assert t[4] != w[0];
      assert !ContainsFrom(t, w, 4);
      assert t[3] != w[0];
      assert !ContainsFrom(t, w, 3);
      assert t[2] != w[0];
      assert !ContainsFrom(t, w, 2);
      assert t[1] != w[0];
      assert !ContainsFrom(t, w, 1);
      assert t[0] != w[0];
      assert !ContainsFrom(t, w, 0);
      ContainsByWalk(t, w);
    }
    assert !Contains(t, "software") by {
      var w := "software";
      assert !ContainsFrom(t, w, 7);
      assert t[6] != w[0];
      assert !ContainsFrom(t, w, 6);
      assert t[5] != w[0];
      assert !ContainsFrom(t, w, 5);
      assert t[4] != w[0];
      assert !ContainsFrom(t, w, 4);
      assert t[3] != w[0];
      assert !ContainsFrom(t, w, 3);
      assert t[2] != w[0];
      assert !ContainsFrom(t, w, 2);
      assert t[1] != w[0];
      assert !ContainsFrom(t, w, 1);
      assert t[0] != w[0];
      assert !ContainsFrom(t, w, 0);
      ContainsByWalk(t, w);
    }
  }

  lemma ChefDeProjetNotInformatiquePart2(t: string)
    requires t == "chef de projet"
    ensures forall k :: k in InformatiqueKeywords[11..16] ==> !Contains(t, k)
  {
    ChefDeProjetChars(t);
    assert !Contains(t, "it") by {
      var w := "it";
      assert !ContainsFrom(t, w, 13);
      assert t[12] != w[0];
      assert !ContainsFrom(t, w, 12);
      assert t[11] != w[0];
      assert !ContainsFrom(t, w, 11);
      assert t[10] != w[0];
      assert !ContainsFrom(t, w, 10);
      assert t[9] != w[0];
      assert !ContainsFrom(t, w, 9);
      assert t[8] != w[0];
      assert !ContainsFrom(t, w, 8);
      assert t[7] != w[0];
      assert !ContainsFrom(t, w, 7);
      assert t[6] != w[0];
      assert !ContainsFrom(t, w, 6);
      assert t[5] != w[0];
      assert !ContainsFrom(t, w, 5);
      assert t[4] != w[0];
      assert !ContainsFrom(t, w, 4);
      assert t[3] != w[0];
      assert !ContainsFrom(t, w, 3);
      assert t[2] != w[0];
      assert !ContainsFrom(t, w, 2);
      assert t[1] != w[0];
      assert !ContainsFrom(t, w, 1);
      assert t[0] != w[0];
      assert !ContainsFrom(t, w, 0);
      ContainsByWalk(t, w);
    }
    assert !Contains(t, "tech") by {
      var w := "tech";
      assert !ContainsFrom(t, w, 11);
      assert t[10] != w[0];
      assert !ContainsFrom(t, w, 10);
      assert t[9] != w[0];
      assert !ContainsFrom(t, w, 9);
      assert t[8] != w[0];
      assert !ContainsFrom(t, w, 8);
      assert t[7] != w[0];
      assert !ContainsFrom(t, w, 7);
      assert t[6] != w[0];
      assert !ContainsFrom(t, w, 6);
      assert t[5] != w[0];
      assert !ContainsFrom(t, w, 5);
      assert t[4] != w[0];
      assert !ContainsFrom(t, w, 4);
      assert t[3] != w[0];
      assert !ContainsFrom(t, w, 3);
      assert t[2] != w[0];
      assert !ContainsFrom(t, w, 2);
      assert t[1] != w[0];
      assert !ContainsFrom(t, w, 1);
      assert t[0] != w[0];
      assert !ContainsFrom(t, w, 0);
      ContainsByWalk(t, w);
    }
    assert !Contains(t, "numérique") by {
      var w := "numérique";
      assert !ContainsFrom(t, w, 6);
      assert t[5] != w[0];
      assert !ContainsFrom(t, w, 5);
      assert t[4] != w[0];
      assert !ContainsFrom(t, w, 4);
      assert t[3] != w[0];
      assert !ContainsFrom(t, w, 3);
      assert t[2] != w[0];
      assert !ContainsFrom(t, w, 2);
      assert t[1] != w[0];
      assert !ContainsFrom(t, w, 1);
      assert t[0] != w[0];
      assert !ContainsFrom(t, w, 0);
      ContainsByWalk(t, w);
    }
    assert !Contains(t, "digital") by {
      var w := "digital";
      assert !ContainsFrom(t, w, 8);
      assert t[7] != w[0];
      assert !ContainsFrom(t, w, 7);
      assert t[6] != w[0];
      assert !ContainsFrom(t, w, 6);
      assert t[6] != w[1];
      assert !PrefixAt(t, w, 5, 1);
      assert !ContainsFrom(t, w, 5);
      assert t[4] != w[0];
      assert !ContainsFrom(t, w, 4);
      assert t[3] != w[0];
      assert !ContainsFrom(t, w, 3);
      assert t[2] != w[0];
      assert !ContainsFrom(t, w, 2);
      assert t[1] != w[0];
      assert !ContainsFrom(t, w, 1);
      assert t[0] != w[0];
      assert !ContainsFrom(t, w, 0);
      ContainsByWalk(t, w);
    }
    assert !Contains(t, "progiciel") by {
      var w := "progiciel";
      assert !ContainsFrom(t, w, 6);
      assert t[5] != w[0];
      assert !ContainsFrom(t, w, 5);
      assert t[4] != w[0];
      assert !ContainsFrom(t, w, 4);
      assert t[3] != w[0];
      assert !ContainsFrom(t, w, 3);
      assert t[2] != w[0];
      assert !ContainsFrom(t, w, 2);
      assert t[1] != w[0];
      assert !ContainsFrom(t, w, 1);
      assert t[0] != w[0];
      assert !ContainsFrom(t, w, 0);
      ContainsByWalk(t, w);
    }
  }

  lemma ChefDeProjetNotInformatique(t: string)
    requires t == "chef de projet"
    ensures forall k :: k in InformatiqueKeywords ==> !Contains(t, k)
  {
    ChefDeProjetNotInformatiquePart1(t);
    ChefDeProjetNotInformatiquePart2(t);
    assert InformatiqueKeywords == InformatiqueKeywords[0..11] + InformatiqueKeywords[11..16];
  }

  lemma ChefDeProjetNotCommerce(t: string)
    requires t == "chef de projet"
    ensures forall k :: k in CommerceKeywords ==> !Contains(t, k)
  {
    ChefDeProjetChars(t);
    assert !Contains(t, "commercial") by {
      var w := "commercial";
      assert !ContainsFrom(t, w, 5);
      assert t[4] != w[0];
      assert !ContainsFrom(t, w, 4);
      assert t[3] != w[0];
      assert !ContainsFrom(t, w, 3);
      assert t[2] != w[0];
      assert !ContainsFrom(t, w, 2);
      assert t[1] != w[0];
      assert !ContainsFrom(t, w, 1);
      assert t[1] != w[1];
      assert !PrefixAt(t, w, 0, 1);
      assert !ContainsFrom(t, w, 0);
      ContainsByWalk(t, w);
    }
    assert !Contains(t, "vente") by {
      var w := "vente";
      assert !ContainsFrom(t, w, 10);
      assert t[9] != w[0];
      assert !ContainsFrom(t, w, 9);
      assert t[8] != w[0];
      assert !ContainsFrom(t, w, 8);
      assert t[7] != w[0];
      assert !ContainsFrom(t, w, 7);
      assert t[6] != w[0];
      assert !ContainsFrom(t, w, 6);
      assert t[5] != w[0];
      assert !ContainsFrom(t, w, 5);
      assert t[4] != w[0];
      assert !ContainsFrom(t, w, 4);
      assert t[3] != w[0];
      assert !ContainsFrom(t, w, 3);
      assert t[2] != w[0];
      assert !ContainsFrom(t, w, 2);
      assert t[1] != w[0];
      assert !ContainsFrom(t, w, 1);
      assert t[0] != w[0];
      assert !ContainsFrom(t, w, 0);
      ContainsByWalk(t, w);
    }
    assert !Contains(t, "vendeur") by {
      var w := "vendeur";
      assert !ContainsFrom(t, w, 8);
      assert t[7] != w[0];
      assert !ContainsFrom(t, w, 7);
      assert t[6] != w[0];
      assert !ContainsFrom(t, w, 6);
      assert t[5] != w[0];
      assert !ContainsFrom(t, w, 5);
      assert t[4] != w[0];
      assert !ContainsFrom(t, w, 4);
      assert t[3] != w[0];
      assert !ContainsFrom(t, w, 3);
      assert t[2] != w[0];
      assert !ContainsFrom(t, w, 2);
      assert t[1] != w[0];
      assert !ContainsFrom(t, w, 1);
      assert t[0] != w[0];
      assert !ContainsFrom(t, w, 0);
      ContainsByWalk(t, w);
    }
    assert !Contains(t, "magasin") by {
      var w := "magasin";
      assert !ContainsFrom(t, w, 8);
      assert t[7] != w[0];
      assert !ContainsFrom(t, w, 7);
      assert t[6] != w[0];
      assert !ContainsFrom(t, w, 6);
      assert t[5] != w[0];
      assert !ContainsFrom(t, w, 5);
      assert t[4] != w[0];
      assert !ContainsFrom(t, w, 4);
      assert t[3] != w[0];
      assert !ContainsFrom(t, w, 3);
      assert t[2] != w[0];
      assert !ContainsFrom(t, w, 2);
      assert t[1] != w[0];
      assert !ContainsFrom(t, w, 1);
      assert t[0] != w[0];
      assert !ContainsFrom(t, w, 0);
      ContainsByWalk(t, w);
    }
    assert !Contains(t, "magasinier") by {
      var w := "magasinier";
      assert !ContainsFrom(t, w, 5);
      assert t[4] != w[0];
      assert !ContainsFrom(t, w, 4);
      assert t[3] != w[0];
      assert !ContainsFrom(t, w, 3);
      assert t[2] != w[0];
      assert !ContainsFrom(t, w, 2);
      assert t[1] != w[0];
      assert !ContainsFrom(t, w, 1);
      assert t[0] != w[0];
      assert !ContainsFrom(t, w, 0);
      ContainsByWalk(t, w);
    }
    assert !Contains(t, "conseiller de vente") by {
      var w := "conseiller de vente";
      assert !ContainsFrom(t, w, 0);
      ContainsByWalk(t, w);
    }
    assert !Contains(t, "conseiller client") by {
      var w := "conseiller client";
      assert !ContainsFrom(t, w, 0);
      ContainsByWalk(t, w);
    }
    assert !Contains(t, "relation client") by {
      var w := "relation client";
      assert !ContainsFrom(t, w, 0);
      ContainsByWalk(t, w);
    }
    assert !Contains(t, "directeur de magasin") by {
      var w := "directeur de magasin";
      assert !ContainsFrom(t, w, 0);
      ContainsByWalk(t, w);
    }
    assert !Contains(t, "responsable magasin") by {
      var w := "responsable magasin";
      assert !ContainsFrom(t, w, 0);
      ContainsByWalk(t, w);
    }
  }

  lemma ChefDeProjetNotAdministration(t: string)
    requires t == "chef de projet"
    ensures forall k :: k in AdministrationKeywords ==> !Contains(t, k)
  {
    ChefDeProjetChars(t);
    assert !Contains(t, "assistant") by {
      var w := "assistant";
      assert !ContainsFrom(t, w, 6);
      assert t[5] != w[0];
      assert !ContainsFrom(t, w, 5);
      assert t[4] != w[0];
      assert !ContainsFrom(t, w, 4);
      assert t[3] != w[0];
      assert !ContainsFrom(t, w, 3);
      assert t[2] != w[0];
      assert !ContainsFrom(t, w, 2);
      assert t[1] != w[0];
      assert !ContainsFrom(t, w, 1);
      assert t[0] != w[0];
      assert !ContainsFrom(t, w, 0);
      ContainsByWalk(t, w);
    }
    assert !Contains(t, "assistante") by {
      var w := "assistante";
      assert !ContainsFrom(t, w, 5);
      assert t[4] != w[0];
      assert !ContainsFrom(t, w, 4);
      assert t[3] != w[0];
      assert !ContainsFrom(t, w, 3);
      assert t[2] != w[0];
      assert !ContainsFrom(t, w, 2);
      assert t[1] != w[0];
      assert !ContainsFrom(t, w, 1);
      assert t[0] != w[0];
      assert !ContainsFrom(t, w, 0);
      ContainsByWalk(t, w);
    }
    assert !Contains(t, "administratif") by {
      var w := "administratif";
      assert !ContainsFrom(t, w, 2);
      assert t[1] != w[0];
      assert !ContainsFrom(t, w, 1);
      assert t[0] != w[0];
      assert !ContainsFrom(t, w, 0);
      ContainsByWalk(t, w);
    }
    assert !Contains(t, "administrative") by {
      var w := "administrative";
      assert !ContainsFrom(t, w, 1);
      assert t[0] != w[0];
      assert !ContainsFrom(t, w, 0);
      ContainsByWalk(t, w);
    }
    assert !Contains(t, "gestionnaire") by {
      var w := "gestionnaire";
      assert !ContainsFrom(t, w, 3);
      assert t[2] != w[0];
      assert !ContainsFrom(t, w, 2);
      assert t[1] != w[0];
      assert !ContainsFrom(t, w, 1);
      assert t[0] != w[0];
      assert !ContainsFrom(t, w, 0);
      ContainsByWalk(t, w);
    }
    assert !Contains(t, "secrétaire") by {
      var w := "secrétaire";
      assert !ContainsFrom(t, w, 5);
      assert t[4] != w[0];
      assert !ContainsFrom(t, w, 4);
      assert t[3] != w[0];
      assert !ContainsFrom(t, w, 3);
      assert t[2] != w[0];
      assert !ContainsFrom(t, w, 2);
      assert t[1] != w[0];
      assert !ContainsFrom(t, w, 1);
      assert t[0] != w[0];
      assert !ContainsFrom(t, w, 0);
      ContainsByWalk(t, w);
    }
    assert !Contains(t, "back office") by {
      var w := "back office";
      assert !ContainsFrom(t, w, 4);
      assert t[3] != w[0];
      assert !ContainsFrom(t, w, 3);
      assert t[2] != w[0];
      assert !ContainsFrom(t, w, 2);
      assert t[1] != w[0];
      assert !ContainsFrom(t, w, 1);
      assert t[0] != w[0];
      assert !ContainsFrom(t, w, 0);
      ContainsByWalk(t, w);
    }
  }

  lemma ChefDeProjetFiresManagement(t: string)
    requires t == "chef de projet"
    ensures Contains(t, "chef de projet")
  {
    ChefDeProjetChars(t);
      var w := "chef de projet";
      assert PrefixAt(t, w, 0, 13);
      assert PrefixAt(t, w, 0, 12);
      assert PrefixAt(t, w, 0, 11);
      assert PrefixAt(t, w, 0, 10);
      assert PrefixAt(t, w, 0, 9);
      assert PrefixAt(t, w, 0, 8);
      assert PrefixAt(t, w, 0, 7);
      assert PrefixAt(t, w, 0, 6);
      assert PrefixAt(t, w, 0, 5);
      assert PrefixAt(t, w, 0, 4);
      assert PrefixAt(t, w, 0, 3);
      assert PrefixAt(t, w, 0, 2);
      assert PrefixAt(t, w, 0, 1);
      assert ContainsFrom(t, w, 0);
      ContainsByWalk(t, w);
  }

  /** A title reading "chef de projet" once lower-cased is Management. */
  lemma ChefDeProjetExample(titre: string)
    requires Lower(titre) == "chef de projet"
    ensures ExtraireDomaine(titre) == "Management"
  {
    var t := Lower(titre);
    RulesTable();
    ChefDeProjetNotRestauration(t);
    ChefDeProjetNotLogistique(t);
    ChefDeProjetNotBtp(t);
    ChefDeProjetNotEnergieTechnique(t);
    ChefDeProjetNotQualiteQhse(t);
    ChefDeProjetNotFinanceAssurance(t);
    ChefDeProjetNotInformatique(t);
    ChefDeProjetNotCommerce(t);
    ChefDeProjetNotAdministration(t);
    forall j | 0 <= j < 9
      ensures !Fires(t, Rules[j])
    {
      if j == 0 { } else if j == 1 { } else if j == 2 { } else if j == 3 { } else if j == 4 { } else if j == 5 { } else if j == 6 { } else if j == 7 { } else { assert j == 8; }
    }
    ChefDeProjetFiresManagement(t);
    assert "chef de projet" in ManagementKeywords;
    FirstFiringRuleWins(titre, 9);
  }

  lemma ChefDeProjetLoweredPart1(s: string)
    requires s == "Chef de Projet"
    ensures forall i :: 0 <= i < 6 ==> Lower(s)[i] == "chef de projet"[i]
  {
    var r := Lower(s);
    forall i | 0 <= i < 6
      ensures r[i] == "chef de projet"[i]
    {
      if i == 0 { assert r[0] == LowerChar(s[0]); } else if i == 1 { assert r[1] == LowerChar(s[1]); } else if i == 2 { assert r[2] == LowerChar(s[2]); } else if i == 3 { assert r[3] == LowerChar(s[3]); } else if i == 4 { assert r[4] == LowerChar(s[4]); } else { assert i == 5; assert r[5] == LowerChar(s[5]); }
    }
  }

  lemma ChefDeProjetLoweredPart2(s: string)
    requires s == "Chef de Projet"
    ensures forall i :: 6 <= i < 12 ==> Lower(s)[i] == "chef de projet"[i]
  {
    var r := Lower(s);
    forall i | 6 <= i < 12
      ensures r[i] == "chef de projet"[i]
    {
      if i == 6 { assert r[6] == LowerChar(s[6]); } else if i == 7 { assert r[7] == LowerChar(s[7]); } else if i == 8 { assert r[8] == LowerChar(s[8]); } else if i == 9 { assert r[9] == LowerChar(s[9]); } else if i == 10 { assert r[10] == LowerChar(s[10]); } else { assert i == 11; assert r[11] == LowerChar(s[11]); }
    }
  }

  lemma ChefDeProjetLoweredPart3(s: string)
    requires s == "Chef de Projet"
    ensures forall i :: 12 <= i < 14 ==> Lower(s)[i] == "chef de projet"[i]
  {
    var r := Lower(s);
    forall i | 12 <= i < 14
      ensures r[i] == "chef de projet"[i]
    {
      if i == 12 { assert r[12] == LowerChar(s[12]); } else { assert i == 13; assert r[13] == LowerChar(s[13]); }
    }
  }

  /** Lower-casing "Chef de Projet" gives "chef de projet". */
  lemma ChefDeProjetLowered(s: string)
    requires s == "Chef de Projet"
    ensures Lower(s) == "chef de projet"
  {
    ChefDeProjetLoweredPart1(s);
    ChefDeProjetLoweredPart2(s);
    ChefDeProjetLoweredPart3(s);
  }

  lemma ChefDeProjetUpperExample()
    ensures ExtraireDomaine("Chef de Projet") == "Management"
  {
    ChefDeProjetLowered("Chef de Projet");
    ChefDeProjetExample("Chef de Projet");
  }

  /** The characters of "développeur python", one by one. */
  lemma DeveloppeurPythonChars(t: string)
    requires t == "développeur python"
    ensures |t| == 18
    ensures t[0] == 'd'
    ensures t[1] == 'é'
    ensures t[2] == 'v'
    ensures t[3] == 'e'
    ensures t[4] == 'l'
    ensures t[5] == 'o'
    ensures t[6] == 'p'
    ensures t[7] == 'p'
    ensures t[8] == 'e'
    ensures t[9] == 'u'
    ensures t[10] == 'r'
    ensures t[11] == ' '
    ensures t[12] == 'p'
    ensures t[13] == 'y'
    ensures t[14] == 't'
    ensures t[15] == 'h'
    ensures t[16] == 'o'
    ensures t[17] == 'n'
  {
  }

  lemma DeveloppeurPythonNotRestauration(t: string)
    requires t == "développeur python"
    ensures forall k :: k in RestaurationKeywords ==> !Contains(t, k)
  {
    DeveloppeurPythonChars(t);
    assert !Contains(t, "cuisinier") by {
      var w := "cuisinier";
      assert !ContainsFrom(t, w, 10);
      assert t[9] != w[0];
      assert !ContainsFrom(t, w, 9);
      assert t[8] != w[0];
      assert !ContainsFrom(t, w, 8);
      assert t[7] != w[0];
      assert !ContainsFrom(t, w, 7);
      assert t[6] != w[0];
      assert !ContainsFrom(t, w, 6);
      assert t[5] != w[0];
      assert !ContainsFrom(t, w, 5);
      assert t[4] != w[0];
      assert !ContainsFrom(t, w, 4);
      assert t[3] != w[0];
      assert !ContainsFrom(t, w, 3);
      assert t[2] != w[0];
      assert !ContainsFrom(t, w, 2);
      assert t[1] != w[0];
      assert !ContainsFrom(t, w, 1);
      assert t[0] != w[0];
      assert !ContainsFrom(t, w, 0);
      ContainsByWalk(t, w);
    }
    assert !Contains(t, "serveur") by {
      var w := "serveur";
      assert !ContainsFrom(t, w, 12);
      assert t[11] != w[0];
      assert !ContainsFrom(t, w, 11);
      assert t[10] != w[0];
      assert !ContainsFrom(t, w, 10);
      assert t[9] != w[0];
      assert !ContainsFrom(t, w, 9);
      assert t[8] != w[0];
      assert !ContainsFrom(t, w, 8);
      assert t[7] != w[0];
      assert !ContainsFrom(t, w, 7);
      assert t[6] != w[0];
      assert !ContainsFrom(t, w, 6);
      assert t[5] != w[0];
      assert !ContainsFrom(t, w, 5);
      assert t[4] != w[0];
      assert !ContainsFrom(t, w, 4);
      assert t[3] != w[0];
      assert !ContainsFrom(t, w, 3);
      assert t[2] != w[0];
      assert !ContainsFrom(t, w, 2);
      assert t[1] != w[0];
      assert !ContainsFrom(t, w, 1);
      assert t[0] != w[0];
      assert !ContainsFrom(t, w, 0);
      ContainsByWalk(t, w);
    }
    assert !Contains(t, "restauration") by {
      var w := "restauration";
      assert !ContainsFrom(t, w, 7);
      assert t[6] != w[0];
      assert !ContainsFrom(t, w, 6);
      assert t[5] != w[0];
      assert !ContainsFrom(t, w, 5);
      assert t[4] != w[0];
      assert !ContainsFrom(t, w, 4);
      assert t[3] != w[0];
      assert !ContainsFrom(t, w, 3);
      assert t[2] != w[0];
      assert !ContainsFrom(t, w, 2);
      assert t[1] != w[0];
      assert !ContainsFrom(t, w, 1);
      assert t[0] != w[0];
      assert !ContainsFrom(t, w, 0);
      ContainsByWalk(t, w);
    }
    assert !Contains(t, "hôtel") by {
      var w := "hôtel";
      assert !ContainsFrom(t, w, 14);
      assert t[13] != w[0];
      assert !ContainsFrom(t, w, 13);
      assert t[12] != w[0];
      assert !ContainsFrom(t, w, 12);
      assert t[11] != w[0];
      assert !ContainsFrom(t, w, 11);
      assert t[10] != w[0];
      assert !ContainsFrom(t, w, 10);
      assert t[9] != w[0];
      assert !ContainsFrom(t, w, 9);
      assert t[8] != w[0];
      assert !ContainsFrom(t, w, 8);
      assert t[7] != w[0];
      assert !ContainsFrom(t, w, 7);
      assert t[6] != w[0];
      assert !ContainsFrom(t, w, 6);
      assert t[5] != w[0];
      assert !ContainsFrom(t, w, 5);
      assert t[4] != w[0];
      assert !ContainsFrom(t, w, 4);
      assert t[3] != w[0];
      assert !ContainsFrom(t, w, 3);
      assert t[2] != w[0];
      assert !ContainsFrom(t, w, 2);
      assert t[1] != w[0];
      assert !ContainsFrom(t, w, 1);
      assert t[0] != w[0];
      assert !ContainsFrom(t, w, 0);
      ContainsByWalk(t, w);
    }
    assert !Contains(t, "hotel") by {
      var w := "hotel";
      assert !ContainsFrom(t, w, 14);
      assert t[13] != w[0];
      assert !ContainsFrom(t, w, 13);
      assert t[12] != w[0];
      assert !ContainsFrom(t, w, 12);
      assert t[11] != w[0];
      assert !ContainsFrom(t, w, 11);
      assert t[10] != w[0];
      assert !ContainsFrom(t, w, 10);
      assert t[9] != w[0];
      assert !ContainsFrom(t, w, 9);
      assert t[8] != w[0];
      assert !ContainsFrom(t, w, 8);
      assert t[7] != w[0];
      assert !ContainsFrom(t, w, 7);
      assert t[6] != w[0];
      assert !ContainsFrom(t, w, 6);
      assert t[5] != w[0];
      assert !ContainsFrom(t, w, 5);
      assert t[4] != w[0];
      assert !ContainsFrom(t, w, 4);
      assert t[3] != w[0];
      assert !ContainsFrom(t, w, 3);
      assert t[2] != w[0];
      assert !ContainsFrom(t, w, 2);
      assert t[1] != w[0];
      assert !ContainsFrom(t, w, 1);
      assert t[0] != w[0];
      assert !ContainsFrom(t, w, 0);
      ContainsByWalk(t, w);
    }
    assert !Contains(t, "chef de rang") by {
      var w := "chef de rang";
      assert !ContainsFrom(t, w, 7);
      assert t[6] != w[0];
      assert !ContainsFrom(t, w, 6);
      assert t[5] != w[0];
      assert !ContainsFrom(t, w, 5);
      assert t[4] != w[0];
      assert !ContainsFrom(t, w, 4);
      assert t[3] != w[0];
      assert !ContainsFrom(t, w, 3);
      assert t[2] != w[0];
      assert !ContainsFrom(t, w, 2);
      assert t[1] != w[0];
      assert !ContainsFrom(t, w, 1);
      assert t[0] != w[0];
      assert !ContainsFrom(t, w, 0);
      ContainsByWalk(t, w);
    }
    assert !Contains(t, "restaurant") by {
      var w := "restaurant";
      assert !ContainsFrom(t, w, 9);
      assert t[8] != w[0];
      assert !ContainsFrom(t, w, 8);
      assert t[7] != w[0];
      assert !ContainsFrom(t, w, 7);
      assert t[6] != w[0];
      assert !ContainsFrom(t, w, 6);
      assert t[5] != w[0];
      assert !ContainsFrom(t, w, 5);
      assert t[4] != w[0];
      assert !ContainsFrom(t, w, 4);
      assert t[3] != w[0];
      assert !ContainsFrom(t, w, 3);
      assert t[2] != w[0];
      assert !ContainsFrom(t, w, 2);
      assert t[1] != w[0];
      assert !ContainsFrom(t, w, 1);
      assert t[0] != w[0];
      assert !ContainsFrom(t, w, 0);
      ContainsByWalk(t, w);
    }
  }

  lemma DeveloppeurPythonNotLogistique(t: string)
    requires t == "développeur python"
    ensures forall k :: k in LogistiqueKeywords ==> !Contains(t, k)
  {
    DeveloppeurPythonChars(t);
    assert !Contains(t, "logistique") by {
      var w := "logistique";
      assert !ContainsFrom(t, w, 9);
      assert t[8] != w[0];
      assert !ContainsFrom(t, w, 8);
      assert t[7] != w[0];
      assert !ContainsFrom(t, w, 7);
      assert t[6] != w[0];
      assert !ContainsFrom(t, w, 6);
      assert t[5] != w[0];
      assert !ContainsFrom(t, w, 5);
      assert t[6] != w[2];
      assert !PrefixAt(t, w, 4, 2);
      assert !PrefixAt(t, w, 4, 1);
      assert !ContainsFrom(t, w, 4);
      assert t[3] != w[0];
      assert !ContainsFrom(t, w, 3);
      assert t[2] != w[0];
      assert !ContainsFrom(t, w, 2);
      assert t[1] != w[0];
      assert !ContainsFrom(t, w, 1);
      assert t[0] != w[0];
      assert !ContainsFrom(t, w, 0);
      ContainsByWalk(t, w);
    }
    assert !Contains(t, "chauffeur") by {
      var w := "chauffeur";
      assert !ContainsFrom(t, w, 10);
      assert t[9] != w[0];
      assert !ContainsFrom(t, w, 9);
      assert t[8] != w[0];
      assert !ContainsFrom(t, w, 8);
      assert t[7] != w[0];
      assert !ContainsFrom(t, w, 7);
      assert t[6] != w[0];
      assert !ContainsFrom(t, w, 6);
      assert t[5] != w[0];
      assert !ContainsFrom(t, w, 5);
      assert t[4] != w[0];
      assert !ContainsFrom(t, w, 4);
      assert t[3] != w[0];
      assert !ContainsFrom(t, w, 3);
      assert t[2] != w[0];
      assert !ContainsFrom(t, w, 2);
      assert t[1] != w[0];
      assert !ContainsFrom(t, w, 1);
      assert t[0] != w[0];
      assert !ContainsFrom(t, w, 0);
      ContainsByWalk(t, w);
    }
    assert !Contains(t, "livreur") by {
      var w := "livreur";
      assert !ContainsFrom(t, w, 12);
      assert t[11] != w[0];
      assert !ContainsFrom(t, w, 11);
      assert t[10] != w[0];
      assert !ContainsFrom(t, w, 10);
      assert t[9] != w[0];
      assert !ContainsFrom(t, w, 9);
      assert t[8] != w[0];
      assert !ContainsFrom(t, w, 8);
      assert t[7] != w[0];
      assert !ContainsFrom(t, w, 7);
      assert t[6] != w[0];
      assert !ContainsFrom(t, w, 6);
      assert t[5] != w[0];
      assert !ContainsFrom(t, w, 5);
      assert t[5] != w[1];
      assert !PrefixAt(t, w, 4, 1);
      assert !ContainsFrom(t, w, 4);
      assert t[3] != w[0];
      assert !ContainsFrom(t, w, 3);
      assert t[2] != w[0];
      assert !ContainsFrom(t, w, 2);
      assert t[1] != w[0];
      assert !ContainsFrom(t, w, 1);
      assert t[0] != w[0];
      assert !ContainsFrom(t, w, 0);
      ContainsByWalk(t, w);
    }
    assert !Contains(t, "transport") by {
      var w := "transport";
      assert !ContainsFrom(t, w, 10);
      assert t[9] != w[0];
      assert !ContainsFrom(t, w, 9);
      assert t[8] != w[0];
      assert !ContainsFrom(t, w, 8);
      assert t[7] != w[0];
      assert !ContainsFrom(t, w, 7);
      assert t[6] != w[0];
      assert !ContainsFrom(t, w, 6);
      assert t[5] != w[0];
      assert !ContainsFrom(t, w, 5);
      assert t[4] != w[0];
      assert !ContainsFrom(t, w, 4);
      assert t[3] != w[0];
      assert !ContainsFrom(t, w, 3);
      assert t[2] != w[0];
      assert !ContainsFrom(t, w, 2);
      assert t[1] != w[0];
      assert !ContainsFrom(t, w, 1);
      assert t[0] != w[0];
      assert !ContainsFrom(t, w, 0);
      ContainsByWalk(t, w);
    }
    assert !Contains(t, "pl de nuit") by {
      var w := "pl de nuit";
      assert !ContainsFrom(t, w, 9);
      assert t[8] != w[0];
      assert !ContainsFrom(t, w, 8);
      assert t[8] != w[1];
      assert !PrefixAt(t, w, 7, 1);
      assert !ContainsFrom(t, w, 7);
      assert t[7] != w[1];
      assert !PrefixAt(t, w, 6, 1);
      assert !ContainsFrom(t, w, 6);
      assert t[5] != w[0];
      assert !ContainsFrom(t, w, 5);
      assert t[4] != w[0];
      assert !ContainsFrom(t, w, 4);
      assert t[3] != w[0];
      assert !ContainsFrom(t, w, 3);
      assert t[2] != w[0];
      assert !ContainsFrom(t, w, 2);
      assert t[1] != w[0];
      assert !ContainsFrom(t, w, 1);
      assert t[0] != w[0];
      assert !ContainsFrom(t, w, 0);
      ContainsByWalk(t, w);
    }
    assert !Contains(t, "magasinier") by {
      var w := "magasinier";
      assert !ContainsFrom(t, w, 9);
      assert t[8] != w[0];
      assert !ContainsFrom(t, w, 8);
      assert t[7] != w[0];
      assert !ContainsFrom(t, w, 7);
      assert t[6] != w[0];
      assert !ContainsFrom(t, w, 6);
      assert t[5] != w[0];
      assert !ContainsFrom(t, w, 5);
      assert t[4] != w[0];
      assert !ContainsFrom(t, w, 4);
      assert t[3] != w[0];
      assert !ContainsFrom(t, w, 3);
      assert t[2] != w[0];
      assert !ContainsFrom(t, w, 2);
      assert t[1] != w[0];
      assert !ContainsFrom(t, w, 1);
      assert t[0] != w[0];
      assert !ContainsFrom(t, w, 0);
      ContainsByWalk(t, w);
    }
    assert !Contains(t, "cariste") by {
      var w := "cariste";
      assert !ContainsFrom(t, w, 12);
      assert t[11] != w[0];
      assert !ContainsFrom(t, w, 11);
      assert t[10] != w[0];
      assert !ContainsFrom(t, w, 10);
      assert t[9] != w[0];
      assert !ContainsFrom(t, w, 9);
      assert t[8] != w[0];
      assert !ContainsFrom(t, w, 8);
      assert t[7] != w[0];
      assert !ContainsFrom(t, w, 7);
      assert t[6] != w[0];
      assert !ContainsFrom(t, w, 6);
      assert t[5] != w[0];
      assert !ContainsFrom(t, w, 5);
      assert t[4] != w[0];
      assert !ContainsFrom(t, w, 4);
      assert t[3] != w[0];
      assert !ContainsFrom(t, w, 3);
      assert t[2] != w[0];
      assert !ContainsFrom(t, w, 2);
      assert t[1] != w[0];
      assert !ContainsFrom(t, w, 1);
      assert t[0] != w[0];
      assert !ContainsFrom(t, w, 0);
      ContainsByWalk(t, w);
    }
  }

  lemma DeveloppeurPythonNotBtpPart1(t: string)
    requires t == "développeur python"
    ensures forall k :: k in BtpKeywords[0..8] ==> !Contains(t, k)
  {
    DeveloppeurPythonChars(t);
    assert !Contains(t, "conducteur de travaux") by {
      var w := "conducteur de travaux";
      assert !ContainsFrom(t, w, 0);
      ContainsByWalk(t, w);
    }
    assert !Contains(t, "chantier") by {
      var w := "chantier";
      assert !ContainsFrom(t, w, 11);
      assert t[10] != w[0];
      assert !ContainsFrom(t, w, 10);
      assert t[9] != w[0];
      assert !ContainsFrom(t, w, 9);
      assert t[8] != w[0];
      assert !ContainsFrom(t, w, 8);
      assert t[7] != w[0];
      assert !ContainsFrom(t, w, 7);
      assert t[6] != w[0];
      assert !ContainsFrom(t, w, 6);
      assert t[5] != w[0];
      assert !ContainsFrom(t, w, 5);
      assert t[4] != w[0];
      assert !ContainsFrom(t, w, 4);
      assert t[3] != w[0];
      assert !ContainsFrom(t, w, 3);
      assert t[2] != w[0];
      assert !ContainsFrom(t, w, 2);
      assert t[1] != w[0];
      assert !ContainsFrom(t, w, 1);
      assert t[0] != w[0];
      assert !ContainsFrom(t, w, 0);
      ContainsByWalk(t, w);
    }
    assert !Contains(t, "géotechnique") by {
      var w := "géotechnique";
      assert !ContainsFrom(t, w, 7);
      assert t[6] != w[0];
      assert !ContainsFrom(t, w, 6);
      assert t[5] != w[0];
      assert !ContainsFrom(t, w, 5);
      assert t[4] != w[0];
      assert !ContainsFrom(t, w, 4);
      assert t[3] != w[0];
      assert !ContainsFrom(t, w, 3);
      assert t[2] != w[0];
      assert !ContainsFrom(t, w, 2);
      assert t[1] != w[0];
      assert !ContainsFrom(t, w, 1);
      assert t[0] != w[0];
      assert !ContainsFrom(t, w, 0);
      ContainsByWalk(t, w);
    }
    assert !Contains(t, "geotechnique") by {
      var w := "geotechnique";
      assert !ContainsFrom(t, w, 7);
      assert t[6] != w[0];
      assert !ContainsFrom(t, w, 6);
      assert t[5] != w[0];
      assert !ContainsFrom(t, w, 5);
      assert t[4] != w[0];
      assert !ContainsFrom(t, w, 4);
      assert t[3] != w[0];
      assert !ContainsFrom(t, w, 3);
      assert t[2] != w[0];
      assert !ContainsFrom(t, w, 2);
      assert t[1] != w[0];
      assert !ContainsFrom(t, w, 1);
      assert t[0] != w[0];
      assert !ContainsFrom(t, w, 0);
      ContainsByWalk(t, w);
    }
    assert !Contains(t, "ingénieur travaux") by {
      var w := "ingénieur travaux";
      assert !ContainsFrom(t, w, 2);
      assert t[1] != w[0];
      assert !ContainsFrom(t, w, 1);
      assert t[0] != w[0];
      assert !ContainsFrom(t, w, 0);
      ContainsByWalk(t, w);
    }
    assert !Contains(t, "travaux publics") by {
      var w := "travaux publics";
      assert !ContainsFrom(t, w, 4);
      assert t[3] != w[0];
      assert !ContainsFrom(t, w, 3);
      assert t[2] != w[0];
      assert !ContainsFrom(t, w, 2);
      assert t[1] != w[0];
      assert !ContainsFrom(t, w, 1);
      assert t[0] != w[0];
      assert !ContainsFrom(t, w, 0);
      ContainsByWalk(t, w);
    }
    assert !Contains(t, "bâtiment") by {
      var w := "bâtiment";
      assert !ContainsFrom(t, w, 11);
      assert t[10] != w[0];
      assert !ContainsFrom(t, w, 10);
      assert t[9] != w[0];
      assert !ContainsFrom(t, w, 9);
      assert t[8] != w[0];
      assert !ContainsFrom(t, w, 8);
      assert t[7] != w[0];
      assert !ContainsFrom(t, w, 7);
      assert t[6] != w[0];
      assert !ContainsFrom(t, w, 6);
      assert t[5] != w[0];
      assert !ContainsFrom(t, w, 5);
      assert t[4] != w[0];
      assert !ContainsFrom(t, w, 4);
      assert t[3] != w[0];
      assert !ContainsFrom(t, w, 3);
      assert t[2] != w[0];
      assert !ContainsFrom(t, w, 2);
      assert t[1] != w[0];
      assert !ContainsFrom(t, w, 1);
      assert t[0] != w[0];
      assert !ContainsFrom(t, w, 0);
      ContainsByWalk(t, w);
    }
    assert !Contains(t, "batiment") by {
      var w := "batiment";
      assert !ContainsFrom(t, w, 11);
      assert t[10] != w[0];
      assert !ContainsFrom(t, w, 10);
      assert t[9] != w[0];
      assert !ContainsFrom(t, w, 9);
      assert t[8] != w[0];
      assert !ContainsFrom(t, w, 8);
      assert t[7] != w[0];
      assert !ContainsFrom(t, w, 7);
      assert t[6] != w[0];
      assert !ContainsFrom(t, w, 6);
      assert t[5] != w[0];
      assert !ContainsFrom(t, w, 5);
      assert t[4] != w[0];
      assert !ContainsFrom(t, w, 4);
      assert t[3] != w[0];
      assert !ContainsFrom(t, w, 3);
      assert t[2] != w[0];
      assert !ContainsFrom(t, w, 2);
      assert t[1] != w[0];
      assert !ContainsFrom(t, w, 1);
      assert t[0] != w[0];
      assert !ContainsFrom(t, w, 0);
      ContainsByWalk(t, w);
    }
  }

  lemma DeveloppeurPythonNotBtpPart2(t: string)
    requires t == "développeur python"
    ensures forall k :: k in BtpKeywords[8..9] ==> !Contains(t, k)
  {
    DeveloppeurPythonChars(t);
    assert !Contains(t, "scierie") by {
      var w := "scierie";
      assert !ContainsFrom(t, w, 12);
      assert t[11] != w[0];
      assert !ContainsFrom(t, w, 11);
      assert t[10] != w[0];
      assert !ContainsFrom(t, w, 10);
      assert t[9] != w[0];
      assert !ContainsFrom(t, w, 9);
      assert t[8] != w[0];
      assert !ContainsFrom(t, w, 8);
      assert t[7] != w[0];
      assert !ContainsFrom(t, w, 7);
      assert t[6] != w[0];
      assert !ContainsFrom(t, w, 6);
      assert t[5] != w[0];
      assert !ContainsFrom(t, w, 5);
      assert t[4] != w[0];
      assert !ContainsFrom(t, w, 4);
      assert t[3] != w[0];
      assert !ContainsFrom(t, w, 3);
      assert t[2] != w[0];
      assert !ContainsFrom(t, w, 2);
      assert t[1] != w[0];
      assert !ContainsFrom(t, w, 1);
      assert t[0] != w[0];
      assert !ContainsFrom(t, w, 0);
      ContainsByWalk(t, w);
    }
  }

  lemma DeveloppeurPythonNotBtp(t: string)
    requires t == "développeur python"
    ensures forall k :: k in BtpKeywords ==> !Contains(t, k)
  {
    DeveloppeurPythonNotBtpPart1(t);
    DeveloppeurPythonNotBtpPart2(t);
    assert BtpKeywords == BtpKeywords[0..8] + BtpKeywords[8..9];
  }

  lemma DeveloppeurPythonNotEnergieTechniquePart1(t: string)
    requires t == "développeur python"
    ensures forall k :: k in EnergieKeywords[0..8] ==> !Contains(t, k)
  {
    DeveloppeurPythonChars(t);
    assert !Contains(t, "électricien") by {
      var w := "électricien";
      assert !ContainsFrom(t, w, 8);
      assert t[7] != w[0];
      assert !ContainsFrom(t, w, 7);
      assert t[6] != w[0];
      assert !ContainsFrom(t, w, 6);
      assert t[5] != w[0];
      assert !ContainsFrom(t, w, 5);
      assert t[4] != w[0];
      assert !ContainsFrom(t, w, 4);
      assert t[3] != w[0];
      assert !ContainsFrom(t, w, 3);
      assert t[2] != w[0];
      assert !ContainsFrom(t, w, 2);
      assert t[2] != w[1];
      assert !PrefixAt(t, w, 1, 1);
      assert !ContainsFrom(t, w, 1);
      assert t[0] != w[0];
      assert !ContainsFrom(t, w, 0);
      ContainsByWalk(t, w);
    }
    assert !Contains(t, "electricien") by {
      var w := "electricien";
      assert !ContainsFrom(t, w, 8);
      assert t[7] != w[0];
      assert !ContainsFrom(t, w, 7);
      assert t[6] != w[0];
      assert !ContainsFrom(t, w, 6);
      assert t[5] != w[0];
      assert !ContainsFrom(t, w, 5);
      assert t[4] != w[0];
      assert !ContainsFrom(t, w, 4);
      assert t[5] != w[2];
      assert !PrefixAt(t, w, 3, 2);
      assert !PrefixAt(t, w, 3, 1);
      assert !ContainsFrom(t, w, 3);
      assert t[2] != w[0];
      assert !ContainsFrom(t, w, 2);
      assert t[1] != w[0];
      assert !ContainsFrom(t, w, 1);
      assert t[0] != w[0];
      assert !ContainsFrom(t, w, 0);
      ContainsByWalk(t, w);
    }
    assert !Contains(t, "électricité") by {
      var w := "électricité";
      assert !ContainsFrom(t, w, 8);
      assert t[7] != w[0];
      assert !ContainsFrom(t, w, 7);
      assert t[6] != w[0];
      assert !ContainsFrom(t, w, 6);
      assert t[5] != w[0];
      assert !ContainsFrom(t, w, 5);
      assert t[4] != w[0];
      assert !ContainsFrom(t, w, 4);
      assert t[3] != w[0];
      assert !ContainsFrom(t, w, 3);
      assert t[2] != w[0];
      assert !ContainsFrom(t, w, 2);
      assert t[2] != w[1];
      assert !PrefixAt(t, w, 1, 1);
      assert !ContainsFrom(t, w, 1);
      assert t[0] != w[0];
      assert !ContainsFrom(t, w, 0);
      ContainsByWalk(t, w);
    }
    assert !Contains(t, "electricite") by {
      var w := "electricite";
      assert !ContainsFrom(t, w, 8);
      assert t[7] != w[0];
      assert !ContainsFrom(t, w, 7);
      assert t[6] != w[0];
      assert !ContainsFrom(t, w, 6);
      assert t[5] != w[0];
      assert !ContainsFrom(t, w, 5);
      assert t[4] != w[0];
      assert !ContainsFrom(t, w, 4);
      assert t[5] != w[2];
      assert !PrefixAt(t, w, 3, 2);
      assert !PrefixAt(t, w, 3, 1);
      assert !ContainsFrom(t, w, 3);
      assert t[2] != w[0];
      assert !ContainsFrom(t, w, 2);
      assert t[1] != w[0];
      assert !ContainsFrom(t, w, 1);
      assert t[0] != w[0];
      assert !ContainsFrom(t, w, 0);
      ContainsByWalk(t, w);
    }
    assert !Contains(t, "électrique") by {
      var w := "électrique";
      assert !ContainsFrom(t, w, 9);
      assert t[8] != w[0];
      assert !ContainsFrom(t, w, 8);
      assert t[7] != w[0];
      assert !ContainsFrom(t, w, 7);
      assert t[6] != w[0];
      assert !ContainsFrom(t, w, 6);
      assert t[5] != w[0];
      assert !ContainsFrom(t, w, 5);
      assert t[4] != w[0];
      assert !ContainsFrom(t, w, 4);
      assert t[3] != w[0];
      assert !ContainsFrom(t, w, 3);
      assert t[2] != w[0];
      assert !ContainsFrom(t, w, 2);
      assert t[2] != w[1];
      assert !PrefixAt(t, w, 1, 1);
      assert !ContainsFrom(t, w, 1);
      assert t[0] != w[0];
      assert !ContainsFrom(t, w, 0);
      ContainsByWalk(t, w);
    }
    assert !Contains(t, "electric") by {
      var w := "electric";
      assert !ContainsFrom(t, w, 11);
      assert t[10] != w[0];
      assert !ContainsFrom(t, w, 10);
      assert t[9] != w[0];
      assert !ContainsFrom(t, w, 9);
      assert t[9] != w[1];
      assert !PrefixAt(t, w, 8, 1);
      assert !ContainsFrom(t, w, 8);
      assert t[7] != w[0];
      assert !ContainsFrom(t, w, 7);
      assert t[6] != w[0];
      assert !ContainsFrom(t, w, 6);
      assert t[5] != w[0];
      assert !ContainsFrom(t, w, 5);
      assert t[4] != w[0];
      assert !ContainsFrom(t, w, 4);
      assert t[5] != w[2];
      assert !PrefixAt(t, w, 3, 2);
      assert !PrefixAt(t, w, 3, 1);
      assert !ContainsFrom(t, w, 3);
      assert t[2] != w[0];
      assert !ContainsFrom(t, w, 2);
      assert t[1] != w[0];
      assert !ContainsFrom(t, w, 1);
      assert t[0] != w[0];
      assert !ContainsFrom(t, w, 0);
      ContainsByWalk(t, w);
    }
    assert !Contains(t, "énergie") by {
      var w := "énergie";
      assert !ContainsFrom(t, w, 12);
      assert t[11] != w[0];
      assert !ContainsFrom(t, w, 11);
      assert t[10] != w[0];
      assert !ContainsFrom(t, w, 10);
      assert t[9] != w[0];
      assert !ContainsFrom(t, w, 9);
      assert t[8] != w[0];
      assert !ContainsFrom(t, w, 8);
      assert t[7] != w[0];
      assert !ContainsFrom(t, w, 7);
      assert t[6] != w[0];
      assert !ContainsFrom(t, w, 6);
      assert t[5] != w[0];
      assert !ContainsFrom(t, w, 5);
      assert t[4] != w[0];
      assert !ContainsFrom(t, w, 4);
      assert t[3] != w[0];
      assert !ContainsFrom(t, w, 3);
      assert t[2] != w[0];
      assert !ContainsFrom(t, w, 2);
      assert t[2] != w[1];
      assert !PrefixAt(t, w, 1, 1);
      assert !ContainsFrom(t, w, 1);
      assert t[0] != w[0];
      assert !ContainsFrom(t, w, 0);
      ContainsByWalk(t, w);
    }
    assert !Contains(t, "energie") by {
      var w := "energie";
      assert !ContainsFrom(t, w, 12);
      assert t[11] != w[0];
      assert !ContainsFrom(t, w, 11);
      assert t[10] != w[0];
      assert !ContainsFrom(t, w, 10);
      assert t[9] != w[0];
      assert !ContainsFrom(t, w, 9);
      assert t[9] != w[1];
      assert !PrefixAt(t, w, 8, 1);
      assert !ContainsFrom(t, w, 8);
      assert t[7] != w[0];
      assert !ContainsFrom(t, w, 7);
      assert t[6] != w[0];
      assert !ContainsFrom(t, w, 6);
      assert t[5] != w[0];
      assert !ContainsFrom(t, w, 5);
      assert t[4] != w[0];
      assert !ContainsFrom(t, w, 4);
      assert t[4] != w[1];
      assert !PrefixAt(t, w, 3, 1);
      assert !ContainsFrom(t, w, 3);
      assert t[2] != w[0];
      assert !ContainsFrom(t, w, 2);
      assert t[1] != w[0];
      assert !ContainsFrom(t, w, 1);
      assert t[0] != w[0];
      assert !ContainsFrom(t, w, 0);
      ContainsByWalk(t, w);
    }
  }

  lemma DeveloppeurPythonNotEnergieTechniquePart2(t: string)
    requires t == "développeur python"
    ensures forall k :: k in EnergieKeywords[8..10] ==> !Contains(t, k)
  {
    DeveloppeurPythonChars(t);
    assert !Contains(t, "technicien") by {
      var w := "technicien";
      assert !ContainsFrom(t, w, 9);
      assert t[8] != w[0];
      assert !ContainsFrom(t, w, 8);
      assert t[7] != w[0];
      assert !ContainsFrom(t, w, 7);
      assert t[6] != w[0];
      assert !ContainsFrom(t, w, 6);
      assert t[5] != w[0];
      assert !ContainsFrom(t, w, 5);
      assert t[4] != w[0];
      assert !ContainsFrom(t, w, 4);
      assert t[3] != w[0];
      assert !ContainsFrom(t, w, 3);
      assert t[2] != w[0];
      assert !ContainsFrom(t, w, 2);
      assert t[1] != w[0];
      assert !ContainsFrom(t, w, 1);
      assert t[0] != w[0];
      assert !ContainsFrom(t, w, 0);
      ContainsByWalk(t, w);
    }
    assert !Contains(t, "maintenance") by {
      var w := "maintenance";
      assert !ContainsFrom(t, w, 8);
      assert t[7] != w[0];
      assert !ContainsFrom(t, w, 7);
      assert t[6] != w[0];
      assert !ContainsFrom(t, w, 6);
      assert t[5] != w[0];
      assert !ContainsFrom(t, w, 5);
      assert t[4] != w[0];
      assert !ContainsFrom(t, w, 4);
      assert t[3] != w[0];
      assert !ContainsFrom(t, w, 3);
      assert t[2] != w[0];
      assert !ContainsFrom(t, w, 2);
      assert t[1] != w[0];
      assert !ContainsFrom(t, w, 1);
      assert t[0] != w[0];
      assert !ContainsFrom(t, w, 0);
      ContainsByWalk(t, w);
    }
  }

  lemma DeveloppeurPythonNotEnergieTechnique(t: string)
    requires t == "développeur python"
    ensures forall k :: k in EnergieKeywords ==> !Contains(t, k)
  {
    DeveloppeurPythonNotEnergieTechniquePart1(t);
    DeveloppeurPythonNotEnergieTechniquePart2(t);
    assert EnergieKeywords == EnergieKeywords[0..8] + EnergieKeywords[8..10];
  }

  lemma DeveloppeurPythonNotQualiteQhse(t: string)
    requires t == "développeur python"
    ensures forall k :: k in QualiteKeywords ==> !Contains(t, k)
  {
    DeveloppeurPythonChars(t);
    assert !Contains(t, "qhse") by {
      var w := "qhse";
      assert !ContainsFrom(t, w, 15);
      assert t[14] != w[0];
      assert !ContainsFrom(t, w, 14);
      assert t[13] != w[0];
      assert !ContainsFrom(t, w, 13);
      assert t[12] != w[0];
      assert !ContainsFrom(t, w, 12);
      assert t[11] != w[0];
      assert !ContainsFrom(t, w, 11);
      assert t[10] != w[0];
      assert !ContainsFrom(t, w, 10);
      assert t[9] != w[0];
      assert !ContainsFrom(t, w, 9);
      assert t[8] != w[0];
      assert !ContainsFrom(t, w, 8);
      assert t[7] != w[0];
      assert !ContainsFrom(t, w, 7);
      assert t[6] != w[0];
      assert !ContainsFrom(t, w, 6);
      assert t[5] != w[0];
      assert !ContainsFrom(t, w, 5);
      assert t[4] != w[0];
      assert !ContainsFrom(t, w, 4);
      assert t[3] != w[0];
      assert !ContainsFrom(t, w, 3);
      assert t[2] != w[0];
      assert !ContainsFrom(t, w, 2);
      assert t[1] != w[0];
      assert !ContainsFrom(t, w, 1);
      assert t[0] != w[0];
      assert !ContainsFrom(t, w, 0);
      ContainsByWalk(t, w);
    }
    assert !Contains(t, "qse") by {
      var w := "qse";
      assert !ContainsFrom(t, w, 16);
      assert t[15] != w[0];
      assert !ContainsFrom(t, w, 15);
      assert t[14] != w[0];
      assert !ContainsFrom(t, w, 14);
      assert t[13] != w[0];
      assert !ContainsFrom(t, w, 13);
      assert t[12] != w[0];
      assert !ContainsFrom(t, w, 12);
      assert t[11] != w[0];
      assert !ContainsFrom(t, w, 11);
      assert t[10] != w[0];
      assert !ContainsFrom(t, w, 10);
      assert t[9] != w[0];
      assert !ContainsFrom(t, w, 9);
      assert t[8] != w[0];
      assert !ContainsFrom(t, w, 8);
      assert t[7] != w[0];
      assert !ContainsFrom(t, w, 7);
      assert t[6] != w[0];
      assert !ContainsFrom(t, w, 6);
      assert t[5] != w[0];
      assert !ContainsFrom(t, w, 5);
      assert t[4] != w[0];
      assert !ContainsFrom(t, w, 4);
      assert t[3] != w[0];
      assert !ContainsFrom(t, w, 3);
      assert t[2] != w[0];
      assert !ContainsFrom(t, w, 2);
      assert t[1] != w[0];
      assert !ContainsFrom(t, w, 1);
      assert t[0] != w[0];
      assert !ContainsFrom(t, w, 0);
      ContainsByWalk(t, w);
    }
    assert !Contains(t, "qualité") by {
      var w := "qualité";
      assert !ContainsFrom(t, w, 12);
      assert t[11] != w[0];
      assert !ContainsFrom(t, w, 11);
      assert t[10] != w[0];
      assert !ContainsFrom(t, w, 10);
      assert t[9] != w[0];
      assert !ContainsFrom(t, w, 9);
      assert t[8] != w[0];
      assert !ContainsFrom(t, w, 8);
      assert t[7] != w[0];
      assert !ContainsFrom(t, w, 7);
      assert t[6] != w[0];
      assert !ContainsFrom(t, w, 6);
      assert t[5] != w[0];
      assert !ContainsFrom(t, w, 5);
      assert t[4] != w[0];
      assert !ContainsFrom(t, w, 4);
      assert t[3] != w[0];
      assert !ContainsFrom(t, w, 3);
      assert t[2] != w[0];
      assert !ContainsFrom(t, w, 2);
      assert t[1] != w[0];
      assert !ContainsFrom(t, w, 1);
      assert t[0] != w[0];
      assert !ContainsFrom(t, w, 0);
      ContainsByWalk(t, w);
    }
    assert !Contains(t, "qualite") by {
      var w := "qualite";
      assert !ContainsFrom(t, w, 12);
      assert t[11] != w[0];
      assert !ContainsFrom(t, w, 11);
      assert t[10] != w[0];
      assert !ContainsFrom(t, w, 10);
      assert t[9] != w[0];
      assert !ContainsFrom(t, w, 9);
      assert t[8] != w[0];
      assert !ContainsFrom(t, w, 8);
      assert t[7] != w[0];
      assert !ContainsFrom(t, w, 7);
      assert t[6] != w[0];
      assert !ContainsFrom(t, w, 6);
      assert t[5] != w[0];
      assert !ContainsFrom(t, w, 5);
      assert t[4] != w[0];
      assert !ContainsFrom(t, w, 4);
      assert t[3] != w[0];
      assert !ContainsFrom(t, w, 3);
      assert t[2] != w[0];
      assert !ContainsFrom(t, w, 2);
      assert t[1] != w[0];
      assert !ContainsFrom(t, w, 1);
      assert t[0] != w[0];
      assert !ContainsFrom(t, w, 0);
      ContainsByWalk(t, w);
    }
    assert !Contains(t, "sécurité") by {
      var w := "sécurité";
      assert !ContainsFrom(t, w, 11);
      assert t[10] != w[0];
      assert !ContainsFrom(t, w, 10);
      assert t[9] != w[0];
      assert !ContainsFrom(t, w, 9);
      assert t[8] != w[0];
      assert !ContainsFrom(t, w, 8);
      assert t[7] != w[0];
      assert !ContainsFrom(t, w, 7);
      assert t[6] != w[0];
      assert !ContainsFrom(t, w, 6);
      assert t[5] != w[0];
      assert !ContainsFrom(t, w, 5);
      assert t[4] != w[0];
      assert !ContainsFrom(t, w, 4);
      assert t[3] != w[0];
      assert !ContainsFrom(t, w, 3);
      assert t[2] != w[0];
      assert !ContainsFrom(t, w, 2);
      assert t[1] != w[0];
      assert !ContainsFrom(t, w, 1);
      assert t[0] != w[0];
      assert !ContainsFrom(t, w, 0);
      ContainsByWalk(t, w);
    }
    assert !Contains(t, "securite") by {
      var w := "securite";
      assert !ContainsFrom(t, w, 11);
      assert t[10] != w[0];
      assert !ContainsFrom(t, w, 10);
      assert t[9] != w[0];
      assert !ContainsFrom(t, w, 9);
      assert t[8] != w[0];
      assert !ContainsFrom(t, w, 8);
      assert t[7] != w[0];
      assert !ContainsFrom(t, w, 7);
      assert t[6] != w[0];
      assert !ContainsFrom(t, w, 6);
      assert t[5] != w[0];
      assert !ContainsFrom(t, w, 5);
      assert t[4] != w[0];
      assert !ContainsFrom(t, w, 4);
      assert t[3] != w[0];
      assert !ContainsFrom(t, w, 3);
      assert t[2] != w[0];
      assert !ContainsFrom(t, w, 2);
      assert t[1] != w[0];
      assert !ContainsFrom(t, w, 1);
      assert t[0] != w[0];
      assert !ContainsFrom(t, w, 0);
      ContainsByWalk(t, w);
    }
    assert !Contains(t, "hse") by {
      var w := "hse";
      assert !ContainsFrom(t, w, 16);
      assert t[16] != w[1];
      assert !PrefixAt(t, w, 15, 1);
      assert !ContainsFrom(t, w, 15);
      assert t[14] != w[0];
      assert !ContainsFrom(t, w, 14);
      assert t[13] != w[0];
      assert !ContainsFrom(t, w, 13);
      assert t[12] != w[0];
      assert !ContainsFrom(t, w, 12);
      assert t[11] != w[0];
      assert !ContainsFrom(t, w, 11);
      assert t[10] != w[0];
      assert !ContainsFrom(t, w, 10);
      assert t[9] != w[0];
      assert !ContainsFrom(t, w, 9);
      assert t[8] != w[0];
      assert !ContainsFrom(t, w, 8);
      assert t[7] != w[0];
      assert !ContainsFrom(t, w, 7);
      assert t[6] != w[0];
      assert !ContainsFrom(t, w, 6);
      assert t[5] != w[0];
      assert !ContainsFrom(t, w, 5);
      assert t[4] != w[0];
      assert !ContainsFrom(t, w, 4);
      assert t[3] != w[0];
      assert !ContainsFrom(t, w, 3);
      assert t[2] != w[0];
      assert !ContainsFrom(t, w, 2);
      assert t[1] != w[0];
      assert !ContainsFrom(t, w, 1);
      assert t[0] != w[0];
      assert !ContainsFrom(t, w, 0);
      ContainsByWalk(t, w);
    }
  }

  lemma DeveloppeurPythonNotFinanceAssurancePart1(t: string)
    requires t == "développeur python"
    ensures forall k :: k in FinanceKeywords[0..8] ==> !Contains(t, k)
  {
    DeveloppeurPythonChars(t);
    assert !Contains(t, "actuaire") by {
      var w := "actuaire";
      assert !ContainsFrom(t, w, 11);
      assert t[10] != w[0];
      assert !ContainsFrom(t, w, 10);
      assert t[9] != w[0];
      assert !ContainsFrom(t, w, 9);
      assert t[8] != w[0];
      assert !ContainsFrom(t, w, 8);
      assert t[7] != w[0];
      assert !ContainsFrom(t, w, 7);
      assert t[6] != w[0];
      assert !ContainsFrom(t, w, 6);
      assert t[5] != w[0];
      assert !ContainsFrom(t, w, 5);
      assert t[4] != w[0];
      assert !ContainsFrom(t, w, 4);
      assert t[3] != w[0];
      assert !ContainsFrom(t, w, 3);
      assert t[2] != w[0];
      assert !ContainsFrom(t, w, 2);
      assert t[1] != w[0];
      assert !ContainsFrom(t, w, 1);
      assert t[0] != w[0];
      assert !ContainsFrom(t, w, 0);
      ContainsByWalk(t, w);
    }
    assert !Contains(t, "risques") by {
      var w := "risques";
      assert !ContainsFrom(t, w, 12);
      assert t[11] != w[0];
      assert !ContainsFrom(t, w, 11);
      assert t[11] != w[1];
      assert !PrefixAt(t, w, 10, 1);
      assert !ContainsFrom(t, w, 10);
      assert t[9] != w[0];
      assert !ContainsFrom(t, w, 9);
      assert t[8] != w[0];
      assert !ContainsFrom(t, w, 8);
      assert t[7] != w[0];
      assert !ContainsFrom(t, w, 7);
      assert t[6] != w[0];
      assert !ContainsFrom(t, w, 6);
      assert t[5] != w[0];
      assert !ContainsFrom(t, w, 5);
      assert t[4] != w[0];
      assert !ContainsFrom(t, w, 4);
      assert t[3] != w[0];
      assert !ContainsFrom(t, w, 3);
      assert t[2] != w[0];
      assert !ContainsFrom(t, w, 2);
      assert t[1] != w[0];
      assert !ContainsFrom(t, w, 1);
      assert t[0] != w[0];
      assert !ContainsFrom(t, w, 0);
      ContainsByWalk(t, w);
    }
    assert !Contains(t, "assurances") by {
      var w := "assurances";
      assert !ContainsFrom(t, w, 9);
      assert t[8] != w[0];
      assert !ContainsFrom(t, w, 8);
      assert t[7] != w[0];
      assert !ContainsFrom(t, w, 7);
      assert t[6] != w[0];
      assert !ContainsFrom(t, w, 6);
      assert t[5] != w[0];
      assert !ContainsFrom(t, w, 5);
      assert t[4] != w[0];
      assert !ContainsFrom(t, w, 4);
      assert t[3] != w[0];
      assert !ContainsFrom(t, w, 3);
      assert t[2] != w[0];
      assert !ContainsFrom(t, w, 2);
      assert t[1] != w[0];
      assert !ContainsFrom(t, w, 1);
      assert t[0] != w[0];
      assert !ContainsFrom(t, w, 0);
      ContainsByWalk(t, w);
    }
    assert !Contains(t, "assurance") by {
      var w := "assurance";
      assert !ContainsFrom(t, w, 10);
      assert t[9] != w[0];
      assert !ContainsFrom(t, w, 9);
      assert t[8] != w[0];
      assert !ContainsFrom(t, w, 8);
      assert t[7] != w[0];
      assert !ContainsFrom(t, w, 7);
      assert t[6] != w[0];
      assert !ContainsFrom(t, w, 6);
      assert t[5] != w[0];
      assert !ContainsFrom(t, w, 5);
      assert t[4] != w[0];
      assert !ContainsFrom(t, w, 4);
      assert t[3] != w[0];
      assert !ContainsFrom(t, w, 3);
      assert t[2] != w[0];
      assert !ContainsFrom(t, w, 2);
      assert t[1] != w[0];
      assert !ContainsFrom(t, w, 1);
      assert t[0] != w[0];
      assert !ContainsFrom(t, w, 0);
      ContainsByWalk(t, w);
    }
    assert !Contains(t, "comptable") by {
      var w := "comptable";
      assert !ContainsFrom(t, w, 10);
      assert t[9] != w[0];
      assert !ContainsFrom(t, w, 9);
      assert t[8] != w[0];
      assert !ContainsFrom(t, w, 8);
      assert t[7] != w[0];
      assert !ContainsFrom(t, w, 7);
      assert t[6] != w[0];
      assert !ContainsFrom(t, w, 6);
      assert t[5] != w[0];
      assert !ContainsFrom(t, w, 5);
      assert t[4] != w[0];
      assert !ContainsFrom(t, w, 4);
      assert t[3] != w[0];
      assert !ContainsFrom(t, w, 3);
      assert t[2] != w[0];
      assert !ContainsFrom(t, w, 2);
      assert t[1] != w[0];
      assert !ContainsFrom(t, w, 1);
      assert t[0] != w[0];
      assert !ContainsFrom(t, w, 0);
      ContainsByWalk(t, w);
    }
    assert !Contains(t, "comptabilité") by {
      var w := "comptabilité";
      assert !ContainsFrom(t, w, 7);
      assert t[6] != w[0];
      assert !ContainsFrom(t, w, 6);
      assert t[5] != w[0];
      assert !ContainsFrom(t, w, 5);
      assert t[4] != w[0];
      assert !ContainsFrom(t, w, 4);
      assert t[3] != w[0];
      assert !ContainsFrom(t, w, 3);
      assert t[2] != w[0];
      assert !ContainsFrom(t, w, 2);
      assert t[1] != w[0];
      assert !ContainsFrom(t, w, 1);
      assert t[0] != w[0];
      assert !ContainsFrom(t, w, 0);
      ContainsByWalk(t, w);
    }
    assert !Contains(t, "audit") by {
      var w := "audit";
      assert !ContainsFrom(t, w, 14);
      assert t[13] != w[0];
      assert !ContainsFrom(t, w, 13);
      assert t[12] != w[0];
      assert !ContainsFrom(t, w, 12);
      assert t[11] != w[0];
      assert !ContainsFrom(t, w, 11);
      assert t[10] != w[0];
      assert !ContainsFrom(t, w, 10);
      assert t[9] != w[0];
      assert !ContainsFrom(t, w, 9);
      assert t[8] != w[0];
      assert !ContainsFrom(t, w, 8);
      assert t[7] != w[0];
      assert !ContainsFrom(t, w, 7);
      assert t[6] != w[0];
      assert !ContainsFrom(t, w, 6);
      assert t[5] != w[0];
      assert !ContainsFrom(t, w, 5);
      assert t[4] != w[0];
      assert !ContainsFrom(t, w, 4);
      assert t[3] != w[0];
      assert !ContainsFrom(t, w, 3);
      assert t[2] != w[0];
      assert !ContainsFrom(t, w, 2);
      assert t[1] != w[0];
      assert !ContainsFrom(t, w, 1);
      assert t[0] != w[0];
      assert !ContainsFrom(t, w, 0);
      ContainsByWalk(t, w);
    }
    assert !Contains(t, "contrôle de gestion") by {
      var w := "contrôle de gestion";
      assert !ContainsFrom(t, w, 0);
      ContainsByWalk(t, w);
    }
  }

  lemma DeveloppeurPythonNotFinanceAssurancePart2(t: string)
    requires t == "développeur python"
    ensures forall k :: k in FinanceKeywords[8..9] ==> !Contains(t, k)
  {
    DeveloppeurPythonChars(t);
    assert !Contains(t, "controle de gestion") by {
      var w := "controle de gestion";
      assert !ContainsFrom(t, w, 0);
      ContainsByWalk(t, w);
    }
  }

  lemma DeveloppeurPythonNotFinanceAssurance(t: string)
    requires t == "développeur python"
    ensures forall k :: k in FinanceKeywords ==> !Contains(t, k)
  {
    DeveloppeurPythonNotFinanceAssurancePart1(t);
    DeveloppeurPythonNotFinanceAssurancePart2(t);
    assert FinanceKeywords == FinanceKeywords[0..8] + FinanceKeywords[8..9];
  }

  lemma DeveloppeurPythonFiresInformatique(t: string)
    requires t == "développeur python"
    ensures Contains(t, "développeur")
  {
    DeveloppeurPythonChars(t);
      var w := "développeur";
      assert PrefixAt(t, w, 0, 10);
      assert PrefixAt(t, w, 0, 9);
      assert PrefixAt(t, w, 0, 8);
      assert PrefixAt(t, w, 0, 7);
      assert PrefixAt(t, w, 0, 6);
      assert PrefixAt(t, w, 0, 5);
      assert PrefixAt(t, w, 0, 4);
      assert PrefixAt(t, w, 0, 3);
      assert PrefixAt(t, w, 0, 2);
      assert PrefixAt(t, w, 0, 1);
      assert ContainsFrom(t, w, 0);
      ContainsByWalk(t, w);
  }

  /** A title reading "développeur python" once lower-cased is Informatique. */
  lemma DeveloppeurPythonExample(titre: string)
    requires Lower(titre) == "développeur python"
    ensures ExtraireDomaine(titre) == "Informatique"
  {
    var t := Lower(titre);
    RulesTable();
    DeveloppeurPythonNotRestauration(t);
    DeveloppeurPythonNotLogistique(t);
    DeveloppeurPythonNotBtp(t);
    DeveloppeurPythonNotEnergieTechnique(t);
    DeveloppeurPythonNotQualiteQhse(t);
    DeveloppeurPythonNotFinanceAssurance(t);
    forall j | 0 <= j < 6
      ensures !Fires(t, Rules[j])
    {
      if j == 0 { } else if j == 1 { } else if j == 2 { } else if j == 3 { } else if j == 4 { } else { assert j == 5; }
    }
    DeveloppeurPythonFiresInformatique(t);
    assert "développeur" in InformatiqueKeywords;
    FirstFiringRuleWins(titre, 6);
  }

  lemma DeveloppeurPythonLoweredPart1(s: string)
    requires s == "Développeur Python"
    ensures forall i :: 0 <= i < 6 ==> Lower(s)[i] == "développeur python"[i]
  {
    var r := Lower(s);
    forall i | 0 <= i < 6
      ensures r[i] == "développeur python"[i]
    {
      if i == 0 { assert r[0] == LowerChar(s[0]); } else if i == 1 { assert r[1] == LowerChar(s[1]); } else if i == 2 { assert r[2] == LowerChar(s[2]); } else if i == 3 { assert r[3] == LowerChar(s[3]); } else if i == 4 { assert r[4] == LowerChar(s[4]); } else { assert i == 5; assert r[5] == LowerChar(s[5]); }
    }
  }

  lemma DeveloppeurPythonLoweredPart2(s: string)
    requires s == "Développeur Python"
    ensures forall i :: 6 <= i < 12 ==> Lower(s)[i] == "développeur python"[i]
  {
    var r := Lower(s);
    forall i | 6 <= i < 12
      ensures r[i] == "développeur python"[i]
    {
      if i == 6 { assert r[6] == LowerChar(s[6]); } else if i == 7 { assert r[7] == LowerChar(s[7]); } else if i == 8 { assert r[8] == LowerChar(s[8]); } else if i == 9 { assert r[9] == LowerChar(s[9]); } else if i == 10 { assert r[10] == LowerChar(s[10]); } else { assert i == 11; assert r[11] == LowerChar(s[11]); }
    }
  }

  lemma DeveloppeurPythonLoweredPart3(s: string)
    requires s == "Développeur Python"
    ensures forall i :: 12 <= i < 18 ==> Lower(s)[i] == "développeur python"[i]
  {
    var r := Lower(s);
    forall i | 12 <= i < 18
      ensures r[i] == "développeur python"[i]
    {
      if i == 12 { assert r[12] == LowerChar(s[12]); } else if i == 13 { assert r[13] == LowerChar(s[13]); } else if i == 14 { assert r[14] == LowerChar(s[14]); } else if i == 15 { assert r[15] == LowerChar(s[15]); } else if i == 16 { assert r[16] == LowerChar(s[16]); } else { assert i == 17; assert r[17] == LowerChar(s[17]); }
    }
  }

  /** Lower-casing "Développeur Python" gives "développeur python". */
  lemma DeveloppeurPythonLowered(s: string)
    requires s == "Développeur Python"
    ensures Lower(s) == "développeur python"
  {
    DeveloppeurPythonLoweredPart1(s);
    DeveloppeurPythonLoweredPart2(s);
    DeveloppeurPythonLoweredPart3(s);
  }

  lemma DeveloppeurPythonUpperExample()
    ensures ExtraireDomaine("Développeur Python") == "Informatique"
  {
    DeveloppeurPythonLowered("Développeur Python");
    DeveloppeurPythonExample("Développeur Python");
  }

  /** The characters of "stagiaire marketing", one by one. */
  lemma StagiaireMarketingChars(t: string)
    requires t == "stagiaire marketing"
    ensures |t| == 19
    ensures t[0] == 's'
    ensures t[1] == 't'
    ensures t[2] == 'a'
    ensures t[3] == 'g'
    ensures t[4] == 'i'
    ensures t[5] == 'a'
    ensures t[6] == 'i'
    ensures t[7] == 'r'
    ensures t[8] == 'e'
    ensures t[9] == ' '
    ensures t[10] == 'm'
    ensures t[11] == 'a'
    ensures t[12] == 'r'
    ensures t[13] == 'k'
    ensures t[14] == 'e'
    ensures t[15] == 't'
    ensures t[16] == 'i'
    ensures t[17] == 'n'
    ensures t[18] == 'g'
  {
  }

  lemma StagiaireMarketingNotRestauration(t: string)
    requires t == "stagiaire marketing"
    ensures forall k :: k in RestaurationKeywords ==> !Contains(t, k)
  {
    StagiaireMarketingChars(t);
    assert !Contains(t, "cuisinier") by {
      var w := "cuisinier";
      assert !ContainsFrom(t, w, 11);
      assert t[10] != w[0];
      assert !ContainsFrom(t, w, 10);
      assert t[9] != w[0];
      assert !ContainsFrom(t, w, 9);
      assert t[8] != w[0];
      assert !ContainsFrom(t, w, 8);
      assert t[7] != w[0];
      assert !ContainsFrom(t, w, 7);
      assert t[6] != w[0];
      assert !ContainsFrom(t, w, 6);
      assert t[5] != w[0];
      assert !ContainsFrom(t, w, 5);
      assert t[4] != w[0];
      assert !ContainsFrom(t, w, 4);
      assert t[3] != w[0];
      assert !ContainsFrom(t, w, 3);
      assert t[2] != w[0];
      assert !ContainsFrom(t, w, 2);
      assert t[1] != w[0];
      assert !ContainsFrom(t, w, 1);
      assert t[0] != w[0];
      assert !ContainsFrom(t, w, 0);
      ContainsByWalk(t, w);
    }
    assert !Contains(t, "serveur") by {
      var w := "serveur";
      assert !ContainsFrom(t, w, 13);
      assert t[12] != w[0];
      assert !ContainsFrom(t, w, 12);
      assert t[11] != w[0];
      assert !ContainsFrom(t, w, 11);
      assert t[10] != w[0];
      assert !ContainsFrom(t, w, 10);
      assert t[9] != w[0];
      assert !ContainsFrom(t, w, 9);
      assert t[8] != w[0];
      assert !ContainsFrom(t, w, 8);
      assert t[7] != w[0];
      assert !ContainsFrom(t, w, 7);
      assert t[6] != w[0];
      assert !ContainsFrom(t, w, 6);
      assert t[5] != w[0];
      assert !ContainsFrom(t, w, 5);
      assert t[4] != w[0];
      assert !ContainsFrom(t, w, 4);
      assert t[3] != w[0];
      assert !ContainsFrom(t, w, 3);
      assert t[2] != w[0];
      assert !ContainsFrom(t, w, 2);
      assert t[1] != w[0];
      assert !ContainsFrom(t, w, 1);
      assert t[1] != w[1];
      assert !PrefixAt(t, w, 0, 1);
      assert !ContainsFrom(t, w, 0);
      ContainsByWalk(t, w);
    }
    assert !Contains(t, "restauration") by {
      var w := "restauration";
      assert !ContainsFrom(t, w, 8);
      assert t[9] != w[2];
      assert !PrefixAt(t, w, 7, 2);
      assert !PrefixAt(t, w, 7, 1);
      assert !ContainsFrom(t, w, 7);
      assert t[6] != w[0];
      assert !ContainsFrom(t, w, 6);
      assert t[5] != w[0];
      assert !ContainsFrom(t, w, 5);
      assert t[4] != w[0];
      assert !ContainsFrom(t, w, 4);
      assert t[3] != w[0];
      assert !ContainsFrom(t, w, 3);
      assert t[2] != w[0];
      assert !ContainsFrom(t, w, 2);
      assert t[1] != w[0];
      assert !ContainsFrom(t, w, 1);
      assert t[0] != w[0];
      assert !ContainsFrom(t, w, 0);
      ContainsByWalk(t, w);
    }
    assert !Contains(t, "hôtel") by {
      var w := "hôtel";
      assert !ContainsFrom(t, w, 15);
      assert t[14] != w[0];
      assert !ContainsFrom(t, w, 14);
      assert t[13] != w[0];
      assert !ContainsFrom(t, w, 13);
      assert t[12] != w[0];
      assert !ContainsFrom(t, w, 12);
      assert t[11] != w[0];
      assert !ContainsFrom(t, w, 11);
      assert t[10] != w[0];
      assert !ContainsFrom(t, w, 10);
      assert t[9] != w[0];
      assert !ContainsFrom(t, w, 9);
      assert t[8] != w[0];
      assert !ContainsFrom(t, w, 8);
      assert t[7] != w[0];
      assert !ContainsFrom(t, w, 7);
      assert t[6] != w[0];
      assert !ContainsFrom(t, w, 6);
      assert t[5] != w[0];
      assert !ContainsFrom(t, w, 5);
      assert t[4] != w[0];
      assert !ContainsFrom(t, w, 4);
      assert t[3] != w[0];
      assert !ContainsFrom(t, w, 3);
      assert t[2] != w[0];
      assert !ContainsFrom(t, w, 2);
      assert t[1] != w[0];
      assert !ContainsFrom(t, w, 1);
      assert t[0] != w[0];
      assert !ContainsFrom(t, w, 0);
      ContainsByWalk(t, w);
    }
    assert !Contains(t, "hotel") by {
      var w := "hotel";
      assert !ContainsFrom(t, w, 15);
      assert t[14] != w[0];
      assert !ContainsFrom(t, w, 14);
      assert t[13] != w[0];
      assert !ContainsFrom(t, w, 13);
      assert t[12] != w[0];
      assert !ContainsFrom(t, w, 12);
      assert t[11] != w[0];
      assert !ContainsFrom(t, w, 11);
      assert t[10] != w[0];
      assert !ContainsFrom(t, w, 10);
      assert t[9] != w[0];
      assert !ContainsFrom(t, w, 9);
      assert t[8] != w[0];
      assert !ContainsFrom(t, w, 8);
      assert t[7] != w[0];
      assert !ContainsFrom(t, w, 7);
      assert t[6] != w[0];
      assert !ContainsFrom(t, w, 6);
      assert t[5] != w[0];
      assert !ContainsFrom(t, w, 5);
      assert t[4] != w[0];
      assert !ContainsFrom(t, w, 4);
      assert t[3] != w[0];
      assert !ContainsFrom(t, w, 3);
      assert t[2] != w[0];
      assert !ContainsFrom(t, w, 2);
      assert t[1] != w[0];
      assert !ContainsFrom(t, w, 1);
      assert t[0] != w[0];
      assert !ContainsFrom(t, w, 0);
      ContainsByWalk(t, w);
    }
    assert !Contains(t, "chef de rang") by {
      var w := "chef de rang";
      assert !ContainsFrom(t, w, 8);
      assert t[7] != w[0];
      assert !ContainsFrom(t, w, 7);
      assert t[6] != w[0];
      assert !ContainsFrom(t, w, 6);
      assert t[5] != w[0];
      assert !ContainsFrom(t, w, 5);
      assert t[4] != w[0];
      assert !ContainsFrom(t, w, 4);
      assert t[3] != w[0];
      assert !ContainsFrom(t, w, 3);
      assert t[2] != w[0];
      assert !ContainsFrom(t, w, 2);
      assert t[1] != w[0];
      assert !ContainsFrom(t, w, 1);
      assert t[0] != w[0];
      assert !ContainsFrom(t, w, 0);
      ContainsByWalk(t, w);
    }
    assert !Contains(t, "restaurant") by {
      var w := "restaurant";
      assert !ContainsFrom(t, w, 10);
      assert t[9] != w[0];
      assert !ContainsFrom(t, w, 9);
      assert t[8] != w[0];
      assert !ContainsFrom(t, w, 8);
      assert t[9] != w[2];
      assert !PrefixAt(t, w, 7, 2);
      assert !PrefixAt(t, w, 7, 1);
      assert !ContainsFrom(t, w, 7);
      assert t[6] != w[0];
      assert !ContainsFrom(t, w, 6);
      assert t[5] != w[0];
      assert !ContainsFrom(t, w, 5);
      assert t[4] != w[0];
      assert !ContainsFrom(t, w, 4);
      assert t[3] != w[0];
      assert !ContainsFrom(t, w, 3);
      assert t[2] != w[0];
      assert !ContainsFrom(t, w, 2);
      assert t[1] != w[0];
      assert !ContainsFrom(t, w, 1);
      assert t[0] != w[0];
      assert !ContainsFrom(t, w, 0);
      ContainsByWalk(t, w);
    }
  }

  lemma StagiaireMarketingNotLogistique(t: string)
    requires t == "stagiaire marketing"
    ensures forall k :: k in LogistiqueKeywords ==> !Contains(t, k)
  {
    StagiaireMarketingChars(t);
    assert !Contains(t, "logistique") by {
      var w := "logistique";
      assert !ContainsFrom(t, w, 10);
      assert t[9] != w[0];
      assert !ContainsFrom(t, w, 9);
      assert t[8] != w[0];
      assert !ContainsFrom(t, w, 8);
      assert t[7] != w[0];
      assert !ContainsFrom(t, w, 7);
      assert t[6] != w[0];
      assert !ContainsFrom(t, w, 6);
      assert t[5] != w[0];
      assert !ContainsFrom(t, w, 5);
      assert t[4] != w[0];
      assert !ContainsFrom(t, w, 4);
      assert t[3] != w[0];
      assert !ContainsFrom(t, w, 3);
      assert t[2] != w[0];
      assert !ContainsFrom(t, w, 2);
      assert t[1] != w[0];
      assert !ContainsFrom(t, w, 1);
      assert t[0] != w[0];
      assert !ContainsFrom(t, w, 0);
      ContainsByWalk(t, w);
    }
    assert !Contains(t, "chauffeur") by {
      var w := "chauffeur";
      assert !ContainsFrom(t, w, 11);
      assert t[10] != w[0];
      assert !ContainsFrom(t, w, 10);
      assert t[9] != w[0];
      assert !ContainsFrom(t, w, 9);
      assert t[8] != w[0];
      assert !ContainsFrom(t, w, 8);
      assert t[7] != w[0];
      assert !ContainsFrom(t, w, 7);
      assert t[6] != w[0];
      assert !ContainsFrom(t, w, 6);
      assert t[5] != w[0];
      assert !ContainsFrom(t, w, 5);
      assert t[4] != w[0];
      assert !ContainsFrom(t, w, 4);
      assert t[3] != w[0];
      assert !ContainsFrom(t, w, 3);
      assert t[2] != w[0];
      assert !ContainsFrom(t, w, 2);
      assert t[1] != w[0];
      assert !ContainsFrom(t, w, 1);
      assert t[0] != w[0];
      assert !ContainsFrom(t, w, 0);
      ContainsByWalk(t, w);
    }
    assert !Contains(t, "livreur") by {
      var w := "livreur";
      assert !ContainsFrom(t, w, 13);
      assert t[12] != w[0];
      assert !ContainsFrom(t, w, 12);
      assert t[11] != w[0];
      assert !ContainsFrom(t, w, 11);
      assert t[10] != w[0];
      assert !ContainsFrom(t, w, 10);
      assert t[9] != w[0];
      assert !ContainsFrom(t, w, 9);
      assert t[8] != w[0];
      assert !ContainsFrom(t, w, 8);
      assert t[7] != w[0];
      assert !ContainsFrom(t, w, 7);
      assert t[6] != w[0];
      assert !ContainsFrom(t, w, 6);
      assert t[5] != w[0];
      assert !ContainsFrom(t, w, 5);
      assert t[4] != w[0];
      assert !ContainsFrom(t, w, 4);
      assert t[3] != w[0];
      assert !ContainsFrom(t, w, 3);
      assert t[2] != w[0];
      assert !ContainsFrom(t, w, 2);
      assert t[1] != w[0];
      assert !ContainsFrom(t, w, 1);
      assert t[0] != w[0];
      assert !ContainsFrom(t, w, 0);
      ContainsByWalk(t, w);
    }
    assert !Contains(t, "transport") by {
      var w := "transport";
      assert !ContainsFrom(t, w, 11);
      assert t[10] != w[0];
      assert !ContainsFrom(t, w, 10);
      assert t[9] != w[0];
      assert !ContainsFrom(t, w, 9);
      assert t[8] != w[0];
      assert !ContainsFrom(t, w, 8);
      assert t[7] != w[0];
      assert !ContainsFrom(t, w, 7);
      assert t[6] != w[0];
      assert !ContainsFrom(t, w, 6);
      assert t[5] != w[0];
      assert !ContainsFrom(t, w, 5);
      assert t[4] != w[0];
      assert !ContainsFrom(t, w, 4);
      assert t[3] != w[0];
      assert !ContainsFrom(t, w, 3);
      assert t[2] != w[0];
      assert !ContainsFrom(t, w, 2);
      assert t[2] != w[1];
      assert !PrefixAt(t, w, 1, 1);
      assert !ContainsFrom(t, w, 1);
      assert t[0] != w[0];
      assert !ContainsFrom(t, w, 0);
      ContainsByWalk(t, w);
    }
    assert !Contains(t, "pl de nuit") by {
      var w := "pl de nuit";
      assert !ContainsFrom(t, w, 10);
      assert t[9] != w[0];
      assert !ContainsFrom(t, w, 9);
      assert t[8] != w[0];
      assert !ContainsFrom(t, w, 8);
      assert t[7] != w[0];
      assert !ContainsFrom(t, w, 7);
      assert t[6] != w[0];
      assert !ContainsFrom(t, w, 6);
      assert t[5] != w[0];
      assert !ContainsFrom(t, w, 5);
      assert t[4] != w[0];
      assert !ContainsFrom(t, w, 4);
      assert t[3] != w[0];
      assert !ContainsFrom(t, w, 3);
      assert t[2] != w[0];
      assert !ContainsFrom(t, w, 2);
      assert t[1] != w[0];
      assert !ContainsFrom(t, w, 1);
      assert t[0] != w[0];
      assert !ContainsFrom(t, w, 0);
      ContainsByWalk(t, w);
    }
    assert !Contains(t, "magasinier") by {
      var w := "magasinier";
      assert !ContainsFrom(t, w, 10);
      assert t[9] != w[0];
      assert !ContainsFrom(t, w, 9);
      assert t[8] != w[0];
      assert !ContainsFrom(t, w, 8);
      assert t[7] != w[0];
      assert !ContainsFrom(t, w, 7);
      assert t[6] != w[0];
      assert !ContainsFrom(t, w, 6);
      assert t[5] != w[0];
      assert !ContainsFrom(t, w, 5);
      assert t[4] != w[0];
      assert !ContainsFrom(t, w, 4);
      assert t[3] != w[0];
      assert !ContainsFrom(t, w, 3);
      assert t[2] != w[0];
      assert !ContainsFrom(t, w, 2);
      assert t[1] != w[0];
      assert !ContainsFrom(t, w, 1);
      assert t[0] != w[0];
      assert !ContainsFrom(t, w, 0);
      ContainsByWalk(t, w);
    }
    assert !Contains(t, "cariste") by {
      var w := "cariste";
      assert !ContainsFrom(t, w, 13);
      assert t[12] != w[0];
      assert !ContainsFrom(t, w, 12);
      assert t[11] != w[0];
      assert !ContainsFrom(t, w, 11);
      assert t[10] != w[0];
      assert !ContainsFrom(t, w, 10);
      assert t[9] != w[0];
      assert !ContainsFrom(t, w, 9);
      assert t[8] != w[0];
      assert !ContainsFrom(t, w, 8);
      assert t[7] != w[0];
      assert !ContainsFrom(t, w, 7);
      assert t[6] != w[0];
      assert !ContainsFrom(t, w, 6);
      assert t[5] != w[0];
      assert !ContainsFrom(t, w, 5);
      assert t[4] != w[0];
      assert !ContainsFrom(t, w, 4);
      assert t[3] != w[0];
      assert !ContainsFrom(t, w, 3);
      assert t[2] != w[0];
      assert !ContainsFrom(t, w, 2);
      assert t[1] != w[0];
      assert !ContainsFrom(t, w, 1);
      assert t[0] != w[0];
      assert !ContainsFrom(t, w, 0);
      ContainsByWalk(t, w);
    }
  }

  lemma StagiaireMarketingNotBtpPart1(t: string)
    requires t == "stagiaire marketing"
    ensures forall k :: k in BtpKeywords[0..8] ==> !Contains(t, k)
  {
    StagiaireMarketingChars(t);
    assert !Contains(t, "conducteur de travaux") by {
      var w := "conducteur de travaux";
      assert !ContainsFrom(t, w, 0);
      ContainsByWalk(t, w);
    }
    assert !Contains(t, "chantier") by {
      var w := "chantier";
      assert !ContainsFrom(t, w, 12);
      assert t[11] != w[0];
      assert !ContainsFrom(t, w, 11);
      assert t[10] != w[0];
      assert !ContainsFrom(t, w, 10);
      assert t[9] != w[0];
      assert !ContainsFrom(t, w, 9);
      assert t[8] != w[0];
      assert !ContainsFrom(t, w, 8);
      assert t[7] != w[0];
      assert !ContainsFrom(t, w, 7);
      assert t[6] != w[0];
      assert !ContainsFrom(t, w, 6);
      assert t[5] != w[0];
      assert !ContainsFrom(t, w, 5);
      assert t[4] != w[0];
      assert !ContainsFrom(t, w, 4);
      assert t[3] != w[0];
      assert !ContainsFrom(t, w, 3);
      assert t[2] != w[0];
      assert !ContainsFrom(t, w, 2);
      assert t[1] != w[0];
      assert !ContainsFrom(t, w, 1);
      assert t[0] != w[0];
      assert !ContainsFrom(t, w, 0);
      ContainsByWalk(t, w);
    }
    assert !Contains(t, "géotechnique") by {
      var w := "géotechnique";
      assert !ContainsFrom(t, w, 8);
      assert t[7] != w[0];
      assert !ContainsFrom(t, w, 7);
      assert t[6] != w[0];
      assert !ContainsFrom(t, w, 6);
      assert t[5] != w[0];
      assert !ContainsFrom(t, w, 5);
      assert t[4] != w[0];
      assert !ContainsFrom(t, w, 4);
      assert t[4] != w[1];
      assert !PrefixAt(t, w, 3, 1);
      assert !ContainsFrom(t, w, 3);
      assert t[2] != w[0];
      assert !ContainsFrom(t, w, 2);
      assert t[1] != w[0];
      assert !ContainsFrom(t, w, 1);
      assert t[0] != w[0];
      assert !ContainsFrom(t, w, 0);
      ContainsByWalk(t, w);
    }
    assert !Contains(t, "geotechnique") by {
      var w := "geotechnique";
      assert !ContainsFrom(t, w, 8);
      assert t[7] != w[0];
      assert !ContainsFrom(t, w, 7);
      assert t[6] != w[0];
      assert !ContainsFrom(t, w, 6);
      assert t[5] != w[0];
      assert !ContainsFrom(t, w, 5);
      assert t[4] != w[0];
      assert !ContainsFrom(t, w, 4);
      assert t[4] != w[1];
      assert !PrefixAt(t, w, 3, 1);
      assert !ContainsFrom(t, w, 3);
      assert t[2] != w[0];
      assert !ContainsFrom(t, w, 2);
      assert t[1] != w[0];
      assert !ContainsFrom(t, w, 1);
      assert t[0] != w[0];
      assert !ContainsFrom(t, w, 0);
      ContainsByWalk(t, w);
    }
    assert !Contains(t, "ingénieur travaux") by {
      var w := "ingénieur travaux";
      assert !ContainsFrom(t, w, 3);
      assert t[2] != w[0];
      assert !ContainsFrom(t, w, 2);
      assert t[1] != w[0];
      assert !ContainsFrom(t, w, 1);
      assert t[0] != w[0];
      assert !ContainsFrom(t, w, 0);
      ContainsByWalk(t, w);
    }
    assert !Contains(t, "travaux publics") by {
      var w := "travaux publics";
      assert !ContainsFrom(t, w, 5);
      assert t[4] != w[0];
      assert !ContainsFrom(t, w, 4);
      assert t[3] != w[0];
      assert !ContainsFrom(t, w, 3);
      assert t[2] != w[0];
      assert !ContainsFrom(t, w, 2);
      assert t[2] != w[1];
      assert !PrefixAt(t, w, 1, 1);
      assert !ContainsFrom(t, w, 1);
      assert t[0] != w[0];
      assert !ContainsFrom(t, w, 0);
      ContainsByWalk(t, w);
    }
    assert !Contains(t, "bâtiment") by {
      var w := "bâtiment";
      assert !ContainsFrom(t, w, 12);
      assert t[11] != w[0];
      assert !ContainsFrom(t, w, 11);
      assert t[10] != w[0];
      assert !ContainsFrom(t, w, 10);
      assert t[9] != w[0];
      assert !ContainsFrom(t, w, 9);
      assert t[8] != w[0];
      assert !ContainsFrom(t, w, 8);
      assert t[7] != w[0];
      assert !ContainsFrom(t, w, 7);
      assert t[6] != w[0];
      assert !ContainsFrom(t, w, 6);
      assert t[5] != w[0];
      assert !ContainsFrom(t, w, 5);
      assert t[4] != w[0];
      assert !ContainsFrom(t, w, 4);
      assert t[3] != w[0];
      assert !ContainsFrom(t, w, 3);
      assert t[2] != w[0];
      assert !ContainsFrom(t, w, 2);
      assert t[1] != w[0];
      assert !ContainsFrom(t, w, 1);
      assert t[0] != w[0];
      assert !ContainsFrom(t, w, 0);
      ContainsByWalk(t, w);
    }
    assert !Contains(t, "batiment") by {
      var w := "batiment";
      assert !ContainsFrom(t, w, 12);
      assert t[11] != w[0];
      assert !ContainsFrom(t, w, 11);
      assert t[10] != w[0];
      assert !ContainsFrom(t, w, 10);
      assert t[9] != w[0];
      assert !ContainsFrom(t, w, 9);
      assert t[8] != w[0];
      assert !ContainsFrom(t, w, 8);
      assert t[7] != w[0];
      assert !ContainsFrom(t, w, 7);
      assert t[6] != w[0];
      assert !ContainsFrom(t, w, 6);
      assert t[5] != w[0];
      assert !ContainsFrom(t, w, 5);
      assert t[4] != w[0];
      assert !ContainsFrom(t, w, 4);
      assert t[3] != w[0];
      assert !ContainsFrom(t, w, 3);
      assert t[2] != w[0];
      assert !ContainsFrom(t, w, 2);
      assert t[1] != w[0];
      assert !ContainsFrom(t, w, 1);
      assert t[0] != w[0];
      assert !ContainsFrom(t, w, 0);
      ContainsByWalk(t, w);
    }
  }

  lemma StagiaireMarketingNotBtpPart2(t: string)
    requires t == "stagiaire marketing"
    ensures forall k :: k in BtpKeywords[8..9] ==> !Contains(t, k)
  {
    StagiaireMarketingChars(t);
    assert !Contains(t, "scierie") by {
      var w := "scierie";
      assert !ContainsFrom(t, w, 13);
      assert t[12] != w[0];
      assert !ContainsFrom(t, w, 12);
      assert t[11] != w[0];
      assert !ContainsFrom(t, w, 11);
      assert t[10] != w[0];
      assert !ContainsFrom(t, w, 10);
      assert t[9] != w[0];
      assert !ContainsFrom(t, w, 9);
      assert t[8] != w[0];
      assert !ContainsFrom(t, w, 8);
      assert t[7] != w[0];
      assert !ContainsFrom(t, w, 7);
      assert t[6] != w[0];
      assert !ContainsFrom(t, w, 6);
      assert t[5] != w[0];
      assert !ContainsFrom(t, w, 5);
      assert t[4] != w[0];
      assert !ContainsFrom(t, w, 4);
      assert t[3] != w[0];
      assert !ContainsFrom(t, w, 3);
      assert t[2] != w[0];
      assert !ContainsFrom(t, w, 2);
      assert t[1] != w[0];
      assert !ContainsFrom(t, w, 1);
      assert t[1] != w[1];
      assert !PrefixAt(t, w, 0, 1);
      assert !ContainsFrom(t, w, 0);
      ContainsByWalk(t, w);
    }
  }

  lemma StagiaireMarketingNotBtp(t: string)
    requires t == "stagiaire marketing"
    ensures forall k :: k in BtpKeywords ==> !Contains(t, k)
  {
    StagiaireMarketingNotBtpPart1(t);
    StagiaireMarketingNotBtpPart2(t);
    assert BtpKeywords == BtpKeywords[0..8] + BtpKeywords[8..9];
  }

  lemma StagiaireMarketingNotEnergieTechniquePart1(t: string)
    requires t == "stagiaire marketing"
    ensures forall k :: k in EnergieKeywords[0..8] ==> !Contains(t, k)
  {
    StagiaireMarketingChars(t);
    assert !Contains(t, "électricien") by {
      var w := "électricien";
      assert !ContainsFrom(t, w, 9);
      assert t[8] != w[0];
      assert !ContainsFrom(t, w, 8);
      assert t[7] != w[0];
      assert !ContainsFrom(t, w, 7);
      assert t[6] != w[0];
      assert !ContainsFrom(t, w, 6);
      assert t[5] != w[0];
      assert !ContainsFrom(t, w, 5);
      assert t[4] != w[0];
      assert !ContainsFrom(t, w, 4);
      assert t[3] != w[0];
      assert !ContainsFrom(t, w, 3);
      assert t[2] != w[0];
      assert !ContainsFrom(t, w, 2);
      assert t[1] != w[0];
      assert !ContainsFrom(t, w, 1);
      assert t[0] != w[0];
      assert !ContainsFrom(t, w, 0);
      ContainsByWalk(t, w);
    }
    assert !Contains(t, "electricien") by {
      var w := "electricien";
      assert !ContainsFrom(t, w, 9);
      assert t[9] != w[1];
      assert !PrefixAt(t, w, 8, 1);
      assert !ContainsFrom(t, w, 8);
      assert t[7] != w[0];
      assert !ContainsFrom(t, w, 7);
      assert t[6] != w[0];
      assert !ContainsFrom(t, w, 6);
      assert t[5] != w[0];
      assert !ContainsFrom(t, w, 5);
      assert t[4] != w[0];
      assert !ContainsFrom(t, w, 4);
      assert t[3] != w[0];
      assert !ContainsFrom(t, w, 3);
      assert t[2] != w[0];
      assert !ContainsFrom(t, w, 2);
      assert t[1] != w[0];
      assert !ContainsFrom(t, w, 1);
      assert t[0] != w[0];
      assert !ContainsFrom(t, w, 0);
      ContainsByWalk(t, w);
    }
    assert !Contains(t, "électricité") by {
      var w := "électricité";
      assert !ContainsFrom(t, w, 9);
      assert t[8] != w[0];
      assert !ContainsFrom(t, w, 8);
      assert t[7] != w[0];
      assert !ContainsFrom(t, w, 7);
      assert t[6] != w[0];
      assert !ContainsFrom(t, w, 6);
      assert t[5] != w[0];
      assert !ContainsFrom(t, w, 5);
      assert t[4] != w[0];
      assert !ContainsFrom(t, w, 4);
      assert t[3] != w[0];
      assert !ContainsFrom(t, w, 3);
      assert t[2] != w[0];
      assert !ContainsFrom(t, w, 2);
      assert t[1] != w[0];
      assert !ContainsFrom(t, w, 1);
      assert t[0] != w[0];
      assert !ContainsFrom(t, w, 0);
      ContainsByWalk(t, w);
    }
    assert !Contains(t, "electricite") by {
      var w := "electricite";
      assert !ContainsFrom(t, w, 9);
      assert t[9] != w[1];
      assert !PrefixAt(t, w, 8, 1);
      assert !ContainsFrom(t, w, 8);
      assert t[7] != w[0];
      assert !ContainsFrom(t, w, 7);
      assert t[6] != w[0];
      assert !ContainsFrom(t, w, 6);
      assert t[5] != w[0];
      assert !ContainsFrom(t, w, 5);
      assert t[4] != w[0];
      assert !ContainsFrom(t, w, 4);
      assert t[3] != w[0];
      assert !ContainsFrom(t, w, 3);
      assert t[2] != w[0];
      assert !ContainsFrom(t, w, 2);
      assert t[1] != w[0];
      assert !ContainsFrom(t, w, 1);
      assert t[0] != w[0];
      assert !ContainsFrom(t, w, 0);
      ContainsByWalk(t, w);
    }
    assert !Contains(t, "électrique") by {
      var w := "électrique";
      assert !ContainsFrom(t, w, 10);
      assert t[9] != w[0];
      assert !ContainsFrom(t, w, 9);
      assert t[8] != w[0];
      assert !ContainsFrom(t, w, 8);
      assert t[7] != w[0];
      assert !ContainsFrom(t, w, 7);
      assert t[6] != w[0];
      assert !ContainsFrom(t, w, 6);
      assert t[5] != w[0];
      assert !ContainsFrom(t, w, 5);
      assert t[4] != w[0];
      assert !ContainsFrom(t, w, 4);
      assert t[3] != w[0];
      assert !ContainsFrom(t, w, 3);
      assert t[2] != w[0];
      assert !ContainsFrom(t, w, 2);
      assert t[1] != w[0];
      assert !ContainsFrom(t, w, 1);
      assert t[0] != w[0];
      assert !ContainsFrom(t, w, 0);
      ContainsByWalk(t, w);
    }
    assert !Contains(t, "electric") by {
      var w := "electric";
      assert !ContainsFrom(t, w, 12);
      assert t[11] != w[0];
      assert !ContainsFrom(t, w, 11);
      assert t[10] != w[0];
      assert !ContainsFrom(t, w, 10);
      assert t[9] != w[0];
      assert !ContainsFrom(t, w, 9);
      assert t[9] != w[1];
      assert !PrefixAt(t, w, 8, 1);
      assert !ContainsFrom(t, w, 8);
      assert t[7] != w[0];
      assert !ContainsFrom(t, w, 7);
      assert t[6] != w[0];
      assert !ContainsFrom(t, w, 6);
      assert t[5] != w[0];
      assert !ContainsFrom(t, w, 5);
      assert t[4] != w[0];
      assert !ContainsFrom(t, w, 4);
      assert t[3] != w[0];
      assert !ContainsFrom(t, w, 3);
      assert t[2] != w[0];
      assert !ContainsFrom(t, w, 2);
      assert t[1] != w[0];
      assert !ContainsFrom(t, w, 1);
      assert t[0] != w[0];
      assert !ContainsFrom(t, w, 0);
      ContainsByWalk(t, w);
    }
    assert !Contains(t, "énergie") by {
      var w := "énergie";
      assert !ContainsFrom(t, w, 13);
      assert t[12] != w[0];
      assert !ContainsFrom(t, w, 12);
      assert t[11] != w[0];
      assert !ContainsFrom(t, w, 11);
      assert t[10] != w[0];
      assert !ContainsFrom(t, w, 10);
      assert t[9] != w[0];
      assert !ContainsFrom(t, w, 9);
      assert t[8] != w[0];
      assert !ContainsFrom(t, w, 8);
      assert t[7] != w[0];
      assert !ContainsFrom(t, w, 7);
      assert t[6] != w[0];
      assert !ContainsFrom(t, w, 6);
      assert t[5] != w[0];
      assert !ContainsFrom(t, w, 5);
      assert t[4] != w[0];
      assert !ContainsFrom(t, w, 4);
      assert t[3] != w[0];
      assert !ContainsFrom(t, w, 3);
      assert t[2] != w[0];
      assert !ContainsFrom(t, w, 2);
      assert t[1] != w[0];
      assert !ContainsFrom(t, w, 1);
      assert t[0] != w[0];
      assert !ContainsFrom(t, w, 0);
      ContainsByWalk(t, w);
    }
    assert !Contains(t, "energie") by {
      var w := "energie";
      assert !ContainsFrom(t, w, 13);
      assert t[12] != w[0];
      assert !ContainsFrom(t, w, 12);
      assert t[11] != w[0];
      assert !ContainsFrom(t, w, 11);
      assert t[10] != w[0];
      assert !ContainsFrom(t, w, 10);
      assert t[9] != w[0];
      assert !ContainsFrom(t, w, 9);
      assert t[9] != w[1];
      assert !PrefixAt(t, w, 8, 1);
      assert !ContainsFrom(t, w, 8);
      assert t[7] != w[0];
      assert !ContainsFrom(t, w, 7);
      assert t[6] != w[0];
      assert !ContainsFrom(t, w, 6);
      assert t[5] != w[0];
      assert !ContainsFrom(t, w, 5);
      assert t[4] != w[0];
      assert !ContainsFrom(t, w, 4);
      assert t[3] != w[0];
      assert !ContainsFrom(t, w, 3);
      assert t[2] != w[0];
      assert !ContainsFrom(t, w, 2);
      assert t[1] != w[0];
      assert !ContainsFrom(t, w, 1);
      assert t[0] != w[0];
      assert !ContainsFrom(t, w, 0);
      ContainsByWalk(t, w);
    }
  }

  lemma StagiaireMarketingNotEnergieTechniquePart2(t: string)
    requires t == "stagiaire marketing"
    ensures forall k :: k in EnergieKeywords[8..10] ==> !Contains(t, k)
  {
    StagiaireMarketingChars(t);
    assert !Contains(t, "technicien") by {
      var w := "technicien";
      assert !ContainsFrom(t, w, 10);
      assert t[9] != w[0];
      assert !ContainsFrom(t, w, 9);
      assert t[8] != w[0];
      assert !ContainsFrom(t, w, 8);
      assert t[7] != w[0];
      assert !ContainsFrom(t, w, 7);
      assert t[6] != w[0];
      assert !ContainsFrom(t, w, 6);
      assert t[5] != w[0];
      assert !ContainsFrom(t, w, 5);
      assert t[4] != w[0];
      assert !ContainsFrom(t, w, 4);
      assert t[3] != w[0];
      assert !ContainsFrom(t, w, 3);
      assert t[2] != w[0];
      assert !ContainsFrom(t, w, 2);
      assert t[2] != w[1];
      assert !PrefixAt(t, w, 1, 1);
      assert !ContainsFrom(t, w, 1);
      assert t[0] != w[0];
      assert !ContainsFrom(t, w, 0);
      ContainsByWalk(t, w);
    }
    assert !Contains(t, "maintenance") by {
      var w := "maintenance";
      assert !ContainsFrom(t, w, 9);
      assert t[8] != w[0];
      assert !ContainsFrom(t, w, 8);
      assert t[7] != w[0];
      assert !ContainsFrom(t, w, 7);
      assert t[6] != w[0];
      assert !ContainsFrom(t, w, 6);
      assert t[5] != w[0];
      assert !ContainsFrom(t, w, 5);
      assert t[4] != w[0];
      assert !ContainsFrom(t, w, 4);
      assert t[3] != w[0];
      assert !ContainsFrom(t, w, 3);
      assert t[2] != w[0];
      assert !ContainsFrom(t, w, 2);
      assert t[1] != w[0];
      assert !ContainsFrom(t, w, 1);
      assert t[0] != w[0];
      assert !ContainsFrom(t, w, 0);
      ContainsByWalk(t, w);
    }
  }

  lemma StagiaireMarketingNotEnergieTechnique(t: string)
    requires t == "stagiaire marketing"
    ensures forall k :: k in EnergieKeywords ==> !Contains(t, k)
  {
    StagiaireMarketingNotEnergieTechniquePart1(t);
    StagiaireMarketingNotEnergieTechniquePart2(t);
    assert EnergieKeywords == EnergieKeywords[0..8] + EnergieKeywords[8..10];
  }

  lemma StagiaireMarketingNotQualiteQhse(t: string)
    requires t == "stagiaire marketing"
    ensures forall k :: k in QualiteKeywords ==> !Contains(t, k)
  {
    StagiaireMarketingChars(t);
    assert !Contains(t, "qhse") by {
      var w := "qhse";
      assert !ContainsFrom(t, w, 16);
      assert t[15] != w[0];
      assert !ContainsFrom(t, w, 15);
      assert t[14] != w[0];
      assert !ContainsFrom(t, w, 14);
      assert t[13] != w[0];
      assert !ContainsFrom(t, w, 13);
      assert t[12] != w[0];
      assert !ContainsFrom(t, w, 12);
      assert t[11] != w[0];
      assert !ContainsFrom(t, w, 11);
      assert t[10] != w[0];
      assert !ContainsFrom(t, w, 10);
      assert t[9] != w[0];
      assert !ContainsFrom(t, w, 9);
      assert t[8] != w[0];
      assert !ContainsFrom(t, w, 8);
      assert t[7] != w[0];
      assert !ContainsFrom(t, w, 7);
      assert t[6] != w[0];
      assert !ContainsFrom(t, w, 6);
      assert t[5] != w[0];
      assert !ContainsFrom(t, w, 5);
      assert t[4] != w[0];
      assert !ContainsFrom(t, w, 4);
      assert t[3] != w[0];
      assert !ContainsFrom(t, w, 3);
      assert t[2] != w[0];
      assert !ContainsFrom(t, w, 2);
      assert t[1] != w[0];
      assert !ContainsFrom(t, w, 1);
      assert t[0] != w[0];
      assert !ContainsFrom(t, w, 0);
      ContainsByWalk(t, w);
    }
    assert !Contains(t, "qse") by {
      var w := "qse";
      assert !ContainsFrom(t, w, 17);
      assert t[16] != w[0];
      assert !ContainsFrom(t, w, 16);
      assert t[15] != w[0];
      assert !ContainsFrom(t, w, 15);
      assert t[14] != w[0];
      assert !ContainsFrom(t, w, 14);
      assert t[13] != w[0];
      assert !ContainsFrom(t, w, 13);
      assert t[12] != w[0];
      assert !ContainsFrom(t, w, 12);
      assert t[11] != w[0];
      assert !ContainsFrom(t, w, 11);
      assert t[10] != w[0];
      assert !ContainsFrom(t, w, 10);
      assert t[9] != w[0];
      assert !ContainsFrom(t, w, 9);
      assert t[8] != w[0];
      assert !ContainsFrom(t, w, 8);
      assert t[7] != w[0];
      assert !ContainsFrom(t, w, 7);
      assert t[6] != w[0];
      assert !ContainsFrom(t, w, 6);
      assert t[5] != w[0];
      assert !ContainsFrom(t, w, 5);
      assert t[4] != w[0];
      assert !ContainsFrom(t, w, 4);
      assert t[3] != w[0];
      assert !ContainsFrom(t, w, 3);
      assert t[2] != w[0];
      assert !ContainsFrom(t, w, 2);
      assert t[1] != w[0];
      assert !ContainsFrom(t, w, 1);
      assert t[0] != w[0];
      assert !ContainsFrom(t, w, 0);
      ContainsByWalk(t, w);
    }
    assert !Contains(t, "qualité") by {
      var w := "qualité";
      assert !ContainsFrom(t, w, 13);
      assert t[12] != w[0];
      assert !ContainsFrom(t, w, 12);
      assert t[11] != w[0];
      assert !ContainsFrom(t, w, 11);
      assert t[10] != w[0];
      assert !ContainsFrom(t, w, 10);
      assert t[9] != w[0];
      assert !ContainsFrom(t, w, 9);
      assert t[8] != w[0];
      assert !ContainsFrom(t, w, 8);
      assert t[7] != w[0];
      assert !ContainsFrom(t, w, 7);
      assert t[6] != w[0];
      assert !ContainsFrom(t, w, 6);
      assert t[5] != w[0];
      assert !ContainsFrom(t, w, 5);
      assert t[4] != w[0];
      assert !ContainsFrom(t, w, 4);
      assert t[3] != w[0];
      assert !ContainsFrom(t, w, 3);
      assert t[2] != w[0];
      assert !ContainsFrom(t, w, 2);
      assert t[1] != w[0];
      assert !ContainsFrom(t, w, 1);
      assert t[0] != w[0];
      assert !ContainsFrom(t, w, 0);
      ContainsByWalk(t, w);
    }
    assert !Contains(t, "qualite") by {
      var w := "qualite";
      assert !ContainsFrom(t, w, 13);
      assert t[12] != w[0];
      assert !ContainsFrom(t, w, 12);
      assert t[11] != w[0];
      assert !ContainsFrom(t, w, 11);
      assert t[10] != w[0];
      assert !ContainsFrom(t, w, 10);
      assert t[9] != w[0];
      assert !ContainsFrom(t, w, 9);
      assert t[8] != w[0];
      assert !ContainsFrom(t, w, 8);
      assert t[7] != w[0];
      assert !ContainsFrom(t, w, 7);
      assert t[6] != w[0];
      assert !ContainsFrom(t, w, 6);
      assert t[5] != w[0];
      assert !ContainsFrom(t, w, 5);
      assert t[4] != w[0];
      assert !ContainsFrom(t, w, 4);
      assert t[3] != w[0];
      assert !ContainsFrom(t, w, 3);
      assert t[2] != w[0];
      assert !ContainsFrom(t, w, 2);
      assert t[1] != w[0];
      assert !ContainsFrom(t, w, 1);
      assert t[0] != w[0];
      assert !ContainsFrom(t, w, 0);
      ContainsByWalk(t, w);
    }
    assert !Contains(t, "sécurité") by {
      var w := "sécurité";
      assert !ContainsFrom(t, w, 12);
      assert t[11] != w[0];
      assert !ContainsFrom(t, w, 11);
      assert t[10] != w[0];
      assert !ContainsFrom(t, w, 10);
      assert t[9] != w[0];
      assert !ContainsFrom(t, w, 9);
      assert t[8] != w[0];
      assert !ContainsFrom(t, w, 8);
      assert t[7] != w[0];
      assert !ContainsFrom(t, w, 7);
      assert t[6] != w[0];
      assert !ContainsFrom(t, w, 6);
      assert t[5] != w[0];
      assert !ContainsFrom(t, w, 5);
      assert t[4] != w[0];
      assert !ContainsFrom(t, w, 4);
      assert t[3] != w[0];
      assert !ContainsFrom(t, w, 3);
      assert t[2] != w[0];
      assert !ContainsFrom(t, w, 2);
      assert t[1] != w[0];
      assert !ContainsFrom(t, w, 1);
      assert t[1] != w[1];
      assert !PrefixAt(t, w, 0, 1);
      assert !ContainsFrom(t, w, 0);
      ContainsByWalk(t, w);
    }
    assert !Contains(t, "securite") by {
      var w := "securite";
      assert !ContainsFrom(t, w, 12);
      assert t[11] != w[0];
      assert !ContainsFrom(t, w, 11);
      assert t[10] != w[0];
      assert !ContainsFrom(t, w, 10);
      assert t[9] != w[0];
      assert !ContainsFrom(t, w, 9);
      assert t[8] != w[0];
      assert !ContainsFrom(t, w, 8);
      assert t[7] != w[0];
      assert !ContainsFrom(t, w, 7);
      assert t[6] != w[0];
      assert !ContainsFrom(t, w, 6);
      assert t[5] != w[0];
      assert !ContainsFrom(t, w, 5);
      assert t[4] != w[0];
      assert !ContainsFrom(t, w, 4);
      assert t[3] != w[0];
      assert !ContainsFrom(t, w, 3);
      assert t[2] != w[0];
      assert !ContainsFrom(t, w, 2);
      assert t[1] != w[0];
      assert !ContainsFrom(t, w, 1);
      assert t[1] != w[1];
      assert !PrefixAt(t, w, 0, 1);
      assert !ContainsFrom(t, w, 0);
      ContainsByWalk(t, w);
    }
    assert !Contains(t, "hse") by {
      var w := "hse";
      assert !ContainsFrom(t, w, 17);
      assert t[16] != w[0];
      assert !ContainsFrom(t, w, 16);
      assert t[15] != w[0];
      assert !ContainsFrom(t, w, 15);
      assert t[14] != w[0];
      assert !ContainsFrom(t, w, 14);
      assert t[13] != w[0];
      assert !ContainsFrom(t, w, 13);
      assert t[12] != w[0];
      assert !ContainsFrom(t, w, 12);
      assert t[11] != w[0];
      assert !ContainsFrom(t, w, 11);
      assert t[10] != w[0];
      assert !ContainsFrom(t, w, 10);
      assert t[9] != w[0];
      assert !ContainsFrom(t, w, 9);
      assert t[8] != w[0];
      assert !ContainsFrom(t, w, 8);
      assert t[7] != w[0];
      assert !ContainsFrom(t, w, 7);
      assert t[6] != w[0];
      assert !ContainsFrom(t, w, 6);
      assert t[5] != w[0];
      assert !ContainsFrom(t, w, 5);
      assert t[4] != w[0];
      assert !ContainsFrom(t, w, 4);
      assert t[3] != w[0];
      assert !ContainsFrom(t, w, 3);
      assert t[2] != w[0];
      assert !ContainsFrom(t, w, 2);
      assert t[1] != w[0];
      assert !ContainsFrom(t, w, 1);
      assert t[0] != w[0];
      assert !ContainsFrom(t, w, 0);
      ContainsByWalk(t, w);
    }
  }

  lemma StagiaireMarketingNotFinanceAssurancePart1(t: string)
    requires t == "stagiaire marketing"
    ensures forall k :: k in FinanceKeywords[0..8] ==> !Contains(t, k)
  {
    StagiaireMarketingChars(t);
    assert !Contains(t, "actuaire") by {
      var w := "actuaire";
      assert !ContainsFrom(t, w, 12);
      assert t[12] != w[1];
      assert !PrefixAt(t, w, 11, 1);
      assert !ContainsFrom(t, w, 11);
      assert t[10] != w[0];
      assert !ContainsFrom(t, w, 10);
      assert t[9] != w[0];
      assert !ContainsFrom(t, w, 9);
      assert t[8] != w[0];
      assert !ContainsFrom(t, w, 8);
      assert t[7] != w[0];
      assert !ContainsFrom(t, w, 7);
      assert t[6] != w[0];
      assert !ContainsFrom(t, w, 6);
      assert t[6] != w[1];
      assert !PrefixAt(t, w, 5, 1);
      assert !ContainsFrom(t, w, 5);
      assert t[4] != w[0];
      assert !ContainsFrom(t, w, 4);
      assert t[3] != w[0];
      assert !ContainsFrom(t, w, 3);
      assert t[3] != w[1];
      assert !PrefixAt(t, w, 2, 1);
      assert !ContainsFrom(t, w, 2);
      assert t[1] != w[0];
      assert !ContainsFrom(t, w, 1);
      assert t[0] != w[0];
      assert !ContainsFrom(t, w, 0);
      ContainsByWalk(t, w);
    }
    assert !Contains(t, "risques") by {
      var w := "risques";
      assert !ContainsFrom(t, w, 13);
      assert t[13] != w[1];
      assert !PrefixAt(t, w, 12, 1);
      assert !ContainsFrom(t, w, 12);
      assert t[11] != w[0];
      assert !ContainsFrom(t, w, 11);
      assert t[10] != w[0];
      assert !ContainsFrom(t, w, 10);
      assert t[9] != w[0];
      assert !ContainsFrom(t, w, 9);
      assert t[8] != w[0];
      assert !ContainsFrom(t, w, 8);
      assert t[8] != w[1];
      assert !PrefixAt(t, w, 7, 1);
      assert !ContainsFrom(t, w, 7);
      assert t[6] != w[0];
      assert !ContainsFrom(t, w, 6);
      assert t[5] != w[0];
      assert !ContainsFrom(t, w, 5);
      assert t[4] != w[0];
      assert !ContainsFrom(t, w, 4);
      assert t[3] != w[0];
      assert !ContainsFrom(t, w, 3);
      assert t[2] != w[0];
      assert !ContainsFrom(t, w, 2);
      assert t[1] != w[0];
      assert !ContainsFrom(t, w, 1);
      assert t[0] != w[0];
      assert !ContainsFrom(t, w, 0);
      ContainsByWalk(t, w);
    }
    assert !Contains(t, "assurances") by {
      var w := "assurances";
      assert !ContainsFrom(t, w, 10);
      assert t[9] != w[0];
      assert !ContainsFrom(t, w, 9);
      assert t[8] != w[0];
      assert !ContainsFrom(t, w, 8);
      assert t[7] != w[0];
      assert !ContainsFrom(t, w, 7);
      assert t[6] != w[0];
      assert !ContainsFrom(t, w, 6);
      assert t[6] != w[1];
      assert !PrefixAt(t, w, 5, 1);
      assert !ContainsFrom(t, w, 5);
      assert t[4] != w[0];
      assert !ContainsFrom(t, w, 4);
      assert t[3] != w[0];
      assert !ContainsFrom(t, w, 3);
      assert t[3] != w[1];
      assert !PrefixAt(t, w, 2, 1);
      assert !ContainsFrom(t, w, 2);
      assert t[1] != w[0];
      assert !ContainsFrom(t, w, 1);
      assert t[0] != w[0];
      assert !ContainsFrom(t, w, 0);
      ContainsByWalk(t, w);
    }
    assert !Contains(t, "assurance") by {
      var w := "assurance";
      assert !ContainsFrom(t, w, 11);
      assert t[10] != w[0];
      assert !ContainsFrom(t, w, 10);
      assert t[9] != w[0];
      assert !ContainsFrom(t, w, 9);
      assert t[8] != w[0];
      assert !ContainsFrom(t, w, 8);
      assert t[7] != w[0];
      assert !ContainsFrom(t, w, 7);
      assert t[6] != w[0];
      assert !ContainsFrom(t, w, 6);
      assert t[6] != w[1];
      assert !PrefixAt(t, w, 5, 1);
      assert !ContainsFrom(t, w, 5);
      assert t[4] != w[0];
      assert !ContainsFrom(t, w, 4);
      assert t[3] != w[0];
      assert !ContainsFrom(t, w, 3);
      assert t[3] != w[1];
      assert !PrefixAt(t, w, 2, 1);
      assert !ContainsFrom(t, w, 2);
      assert t[1] != w[0];
      assert !ContainsFrom(t, w, 1);
      assert t[0] != w[0];
      assert !ContainsFrom(t, w, 0);
      ContainsByWalk(t, w);
    }
    assert !Contains(t, "comptable") by {
      var w := "comptable";
      assert !ContainsFrom(t, w, 11);
      assert t[10] != w[0];
      assert !ContainsFrom(t, w, 10);
      assert t[9] != w[0];
      assert !ContainsFrom(t, w, 9);
      assert t[8] != w[0];
      assert !ContainsFrom(t, w, 8);
      assert t[7] != w[0];
      assert !ContainsFrom(t, w, 7);
      assert t[6] != w[0];
      assert !ContainsFrom(t, w, 6);
      assert t[5] != w[0];
      assert !ContainsFrom(t, w, 5);
      assert t[4] != w[0];
      assert !ContainsFrom(t, w, 4);
      assert t[3] != w[0];
      assert !ContainsFrom(t, w, 3);
      assert t[2] != w[0];
      assert !ContainsFrom(t, w, 2);
      assert t[1] != w[0];
      assert !ContainsFrom(t, w, 1);
      assert t[0] != w[0];
      assert !ContainsFrom(t, w, 0);
      ContainsByWalk(t, w);
    }
    assert !Contains(t, "comptabilité") by {
      var w := "comptabilité";
      assert !ContainsFrom(t, w, 8);
      assert t[7] != w[0];
      assert !ContainsFrom(t, w, 7);
      assert t[6] != w[0];
      assert !ContainsFrom(t, w, 6);
      assert t[5] != w[0];
      assert !ContainsFrom(t, w, 5);
      assert t[4] != w[0];
      assert !ContainsFrom(t, w, 4);
      assert t[3] != w[0];
      assert !ContainsFrom(t, w, 3);
      assert t[2] != w[0];
      assert !ContainsFrom(t, w, 2);
      assert t[1] != w[0];
      assert !ContainsFrom(t, w, 1);
      assert t[0] != w[0];
      assert !ContainsFrom(t, w, 0);
      ContainsByWalk(t, w);
    }
    assert !Contains(t, "audit") by {
      var w := "audit";
      assert !ContainsFrom(t, w, 15);
      assert t[14] != w[0];
      assert !ContainsFrom(t, w, 14);
      assert t[13] != w[0];
      assert !ContainsFrom(t, w, 13);
      assert t[12] != w[0];
      assert !ContainsFrom(t, w, 12);
      assert t[12] != w[1];
      assert !PrefixAt(t, w, 11, 1);
      assert !ContainsFrom(t, w, 11);
      assert t[10] != w[0];
      assert !ContainsFrom(t, w, 10);
      assert t[9] != w[0];
      assert !ContainsFrom(t, w, 9);
      assert t[8] != w[0];
      assert !ContainsFrom(t, w, 8);
      assert t[7] != w[0];
      assert !ContainsFrom(t, w, 7);
      assert t[6] != w[0];
      assert !ContainsFrom(t, w, 6);
      assert t[6] != w[1];
      assert !PrefixAt(t, w, 5, 1);
      assert !ContainsFrom(t, w, 5);
      assert t[4] != w[0];
      assert !ContainsFrom(t, w, 4);
      assert t[3] != w[0];
      assert !ContainsFrom(t, w, 3);
      assert t[3] != w[1];
      assert !PrefixAt(t, w, 2, 1);
      assert !ContainsFrom(t, w, 2);
      assert t[1] != w[0];
      assert !ContainsFrom(t, w, 1);
      assert t[0] != w[0];
      assert !ContainsFrom(t, w, 0);
      ContainsByWalk(t, w);
    }
    assert !Contains(t, "contrôle de gestion") by {
      var w := "contrôle de gestion";
      assert !ContainsFrom(t, w, 1);
      assert t[0] != w[0];
      assert !ContainsFrom(t, w, 0);
      ContainsByWalk(t, w);
    }
  }

  lemma StagiaireMarketingNotFinanceAssurancePart2(t: string)
    requires t == "stagiaire marketing"
    ensures forall k :: k in FinanceKeywords[8..9] ==> !Contains(t, k)
  {
    StagiaireMarketingChars(t);
    assert !Contains(t, "controle de gestion") by {
      var w := "controle de gestion";
      assert !ContainsFrom(t, w, 1);
      assert t[0] != w[0];
      assert !ContainsFrom(t, w, 0);
      ContainsByWalk(t, w);
    }
  }

  lemma StagiaireMarketingNotFinanceAssurance(t: string)
    requires t == "stagiaire marketing"
    ensures forall k :: k in FinanceKeywords ==> !Contains(t, k)
  {
    StagiaireMarketingNotFinanceAssurancePart1(t);
    StagiaireMarketingNotFinanceAssurancePart2(t);
    assert FinanceKeywords == FinanceKeywords[0..8] + FinanceKeywords[8..9];
  }

  lemma StagiaireMarketingNotInformatiquePart1(t: string)
    requires t == "stagiaire marketing"
    ensures forall k :: k in InformatiqueKeywords[0..8] ==> !Contains(t, k)
  {
    StagiaireMarketingChars(t);
    assert !Contains(t, "développeur") by {
      var w := "développeur";
      assert !ContainsFrom(t, w, 9);
      assert t[8] != w[0];
      assert !ContainsFrom(t, w, 8);
      assert t[7] != w[0];
      assert !ContainsFrom(t, w, 7);
      assert t[6] != w[0];
      assert !ContainsFrom(t, w, 6);
      assert t[5] != w[0];
      assert !ContainsFrom(t, w, 5);
      assert t[4] != w[0];
      assert !ContainsFrom(t, w, 4);
      assert t[3] != w[0];
      assert !ContainsFrom(t, w, 3);
      assert t[2] != w[0];
      assert !ContainsFrom(t, w, 2);
      assert t[1] != w[0];
      assert !ContainsFrom(t, w, 1);
      assert t[0] != w[0];
      assert !ContainsFrom(t, w, 0);
      ContainsByWalk(t, w);
    }
    assert !Contains(t, "developpeur") by {
      var w := "developpeur";
      assert !ContainsFrom(t, w, 9);
      assert t[8] != w[0];
      assert !ContainsFrom(t, w, 8);
      assert t[7] != w[0];
      assert !ContainsFrom(t, w, 7);
      assert t[6] != w[0];
      assert !ContainsFrom(t, w, 6);
      assert t[5] != w[0];
      assert !ContainsFrom(t, w, 5);
      assert t[4] != w[0];
      assert !ContainsFrom(t, w, 4);
      assert t[3] != w[0];
      assert !ContainsFrom(t, w, 3);
      assert t[2] != w[0];
      assert !ContainsFrom(t, w, 2);
      assert t[1] != w[0];
      assert !ContainsFrom(t, w, 1);
      assert t[0] != w[0];
      assert !ContainsFrom(t, w, 0);
      ContainsByWalk(t, w);
    }
    assert !Contains(t, "développeuse") by {
      var w := "développeuse";
      assert !ContainsFrom(t, w, 8);
      assert t[7] != w[0];
      assert !ContainsFrom(t, w, 7);
      assert t[6] != w[0];
      assert !ContainsFrom(t, w, 6);
      assert t[5] != w[0];
      assert !ContainsFrom(t, w, 5);
      assert t[4] != w[0];
      assert !ContainsFrom(t, w, 4);
      assert t[3] != w[0];
      assert !ContainsFrom(t, w, 3);
      assert t[2] != w[0];
      assert !ContainsFrom(t, w, 2);
      assert t[1] != w[0];
      assert !ContainsFrom(t, w, 1);
      assert t[0] != w[0];
      assert !ContainsFrom(t, w, 0);
      ContainsByWalk(t, w);
    }
    assert !Contains(t, "developer") by {
      var w := "developer";
      assert !ContainsFrom(t, w, 11);
      assert t[10] != w[0];
      assert !ContainsFrom(t, w, 10);
      assert t[9] != w[0];
      assert !ContainsFrom(t, w, 9);
      assert t[8] != w[0];
      assert !ContainsFrom(t, w, 8);
      assert t[7] != w[0];
      assert !ContainsFrom(t, w, 7);
      assert t[6] != w[0];
      assert !ContainsFrom(t, w, 6);
      assert t[5] != w[0];
      assert !ContainsFrom(t, w, 5);
      assert t[4] != w[0];
      assert !ContainsFrom(t, w, 4);
      assert t[3] != w[0];
      assert !ContainsFrom(t, w, 3);
      assert t[2] != w[0];
      assert !ContainsFrom(t, w, 2);
      assert t[1] != w[0];
      assert !ContainsFrom(t, w, 1);
      assert t[0] != w[0];
      assert !ContainsFrom(t, w, 0);
      ContainsByWalk(t, w);
    }
    assert !Contains(t, "informatique") by {
      var w := "informatique";
      assert !ContainsFrom(t, w, 8);
      assert t[7] != w[0];
      assert !ContainsFrom(t, w, 7);
      assert t[7] != w[1];
      assert !PrefixAt(t, w, 6, 1);
      assert !ContainsFrom(t, w, 6);
      assert t[5] != w[0];
      assert !ContainsFrom(t, w, 5);
      assert t[5] != w[1];
      assert !PrefixAt(t, w, 4, 1);
      assert !ContainsFrom(t, w, 4);
      assert t[3] != w[0];
      assert !ContainsFrom(t, w, 3);
      assert t[2] != w[0];
      assert !ContainsFrom(t, w, 2);
      assert t[1] != w[0];
      assert !ContainsFrom(t, w, 1);
      assert t[0] != w[0];
      assert !ContainsFrom(t, w, 0);
      ContainsByWalk(t, w);
    }
    assert !Contains(t, "data") by {
      var w := "data";
      assert !ContainsFrom(t, w, 16);
      assert t[15] != w[0];
      assert !ContainsFrom(t, w, 15);
      assert t[14] != w[0];
      assert !ContainsFrom(t, w, 14);
      assert t[13] != w[0];
      assert !ContainsFrom(t, w, 13);
      assert t[12] != w[0];
      assert !ContainsFrom(t, w, 12);
      assert t[11] != w[0];
      assert !ContainsFrom(t, w, 11);
      assert t[10] != w[0];
      assert !ContainsFrom(t, w, 10);
      assert t[9] != w[0];
      assert !ContainsFrom(t, w, 9);
      assert t[8] != w[0];
      assert !ContainsFrom(t, w, 8);
      assert t[7] != w[0];
      assert !ContainsFrom(t, w, 7);
      assert t[6] != w[0];
      assert !ContainsFrom(t, w, 6);
      assert t[5] != w[0];
      assert !ContainsFrom(t, w, 5);
      assert t[4] != w[0];
      assert !ContainsFrom(t, w, 4);
      assert t[3] != w[0];
      assert !ContainsFrom(t, w, 3);
      assert t[2] != w[0];
      assert !ContainsFrom(t, w, 2);
      assert t[1] != w[0];
      assert !ContainsFrom(t, w, 1);
      assert t[0] != w[0];
      assert !ContainsFrom(t, w, 0);
      ContainsByWalk(t, w);
    }
    assert !Contains(t, "si ") by {
      var w := "si ";
      assert !ContainsFrom(t, w, 17);
      assert t[16] != w[0];
      assert !ContainsFrom(t, w, 16);
      assert t[15] != w[0];
      assert !ContainsFrom(t, w, 15);
      assert t[14] != w[0];
      assert !ContainsFrom(t, w, 14);
      assert t[13] != w[0];
      assert !ContainsFrom(t, w, 13);
      assert t[12] != w[0];
      assert !ContainsFrom(t, w, 12);
      assert t[11] != w[0];
      assert !ContainsFrom(t, w, 11);
      assert t[10] != w[0];
      assert !ContainsFrom(t, w, 10);
      assert t[9] != w[0];
      assert !ContainsFrom(t, w, 9);
      assert t[8] != w[0];
      assert !ContainsFrom(t, w, 8);
      assert t[7] != w[0];
      assert !ContainsFrom(t, w, 7);
      assert t[6] != w[0];
      assert !ContainsFrom(t, w, 6);
      assert t[5] != w[0];
      assert !ContainsFrom(t, w, 5);
      assert t[4] != w[0];
      assert !ContainsFrom(t, w, 4);
      assert t[3] != w[0];
      assert !ContainsFrom(t, w, 3);
      assert t[2] != w[0];
      assert !ContainsFrom(t, w, 2);
      assert t[1] != w[0];
      assert !ContainsFrom(t, w, 1);
      assert t[1] != w[1];
      assert !PrefixAt(t, w, 0, 1);
      assert !ContainsFrom(t, w, 0);
      ContainsByWalk(t, w);
    }
    assert !Contains(t, "système d'information") by {
      var w := "système d'information";
      assert !ContainsFrom(t, w, 0);
      ContainsByWalk(t, w);
    }
  }

  lemma StagiaireMarketingNotInformatiquePart2(t: string)
    requires t == "stagiaire marketing"
    ensures forall k :: k in InformatiqueKeywords[8..16] ==> !Contains(t, k)
  {
    StagiaireMarketingChars(t);
    assert !Contains(t, "systèmes d'information") by {
      var w := "systèmes d'information";
      assert !ContainsFrom(t, w, 0);
      ContainsByWalk(t, w);
    }
    assert !Contains(t, "logiciel") by {
      var w := "logiciel";
      assert !ContainsFrom(t, w, 12);
      assert t[11] != w[0];
      assert !ContainsFrom(t, w, 11);
      assert t[10] != w[0];
      assert !ContainsFrom(t, w, 10);
      assert t[9] != w[0];
      assert !ContainsFrom(t, w, 9);
      assert t[8] != w[0];
      assert !ContainsFrom(t, w, 8);
      assert t[7] != w[0];
      assert !ContainsFrom(t, w, 7);
      assert t[6] != w[0];
      assert !ContainsFrom(t, w, 6);
      assert t[5] != w[0];
      assert !ContainsFrom(t, w, 5);
      assert t[4] != w[0];
      assert !ContainsFrom(t, w, 4);
      assert t[3] != w[0];
      assert !ContainsFrom(t, w, 3);
      assert t[2] != w[0];
      assert !ContainsFrom(t, w, 2);
      assert t[1] != w[0];
      assert !ContainsFrom(t, w, 1);
      assert t[0] != w[0];
      assert !ContainsFrom(t, w, 0);
      ContainsByWalk(t, w);
    }
    assert !Contains(t, "software") by {
      var w := "software";
      assert !ContainsFrom(t, w, 12);
      assert t[11] != w[0];
      assert !ContainsFrom(t, w, 11);
      assert t[10] != w[0];
      assert !ContainsFrom(t, w, 10);
      assert t[9] != w[0];
      assert !ContainsFrom(t, w, 9);
      assert t[8] != w[0];
      assert !ContainsFrom(t, w, 8);
      assert t[7] != w[0];
      assert !ContainsFrom(t, w, 7);
      assert t[6] != w[0];
      assert !ContainsFrom(t, w, 6);
      assert t[5] != w[0];
      assert !ContainsFrom(t, w, 5);
      assert t[4] != w[0];
      assert !ContainsFrom(t, w, 4);
      assert t[3] != w[0];
      assert !ContainsFrom(t, w, 3);
      assert t[2] != w[0];
      assert !ContainsFrom(t, w, 2);
      assert t[1] != w[0];
      assert !ContainsFrom(t, w, 1);
      assert t[1] != w[1];
      assert !PrefixAt(t, w, 0, 1);
      assert !ContainsFrom(t, w, 0);
      ContainsByWalk(t, w);
    }
    assert !Contains(t, "it") by {
      var w := "it";
      assert !ContainsFrom(t, w, 18);
      assert t[17] != w[0];
      assert !ContainsFrom(t, w, 17);
      assert t[17] != w[1];
      assert !PrefixAt(t, w, 16, 1);
      assert !ContainsFrom(t, w, 16);
      assert t[15] != w[0];
      assert !ContainsFrom(t, w, 15);
      assert t[14] != w[0];
      assert !ContainsFrom(t, w, 14);
      assert t[13] != w[0];
      assert !ContainsFrom(t, w, 13);
      assert t[12] != w[0];
      assert !ContainsFrom(t, w, 12);
      assert t[11] != w[0];
      assert !ContainsFrom(t, w, 11);
      assert t[10] != w[0];
      assert !ContainsFrom(t, w, 10);
      assert t[9] != w[0];
      assert !ContainsFrom(t, w, 9);
      assert t[8] != w[0];
      assert !ContainsFrom(t, w, 8);
      assert t[7] != w[0];
      assert !ContainsFrom(t, w, 7);
      assert t[7] != w[1];
      assert !PrefixAt(t, w, 6, 1);
      assert !ContainsFrom(t, w, 6);
      assert t[5] != w[0];
      assert !ContainsFrom(t, w, 5);
      assert t[5] != w[1];
      assert !PrefixAt(t, w, 4, 1);
      assert !ContainsFrom(t, w, 4);
      assert t[3] != w[0];
      assert !ContainsFrom(t, w, 3);
      assert t[2] != w[0];
      assert !ContainsFrom(t, w, 2);
      assert t[1] != w[0];
      assert !ContainsFrom(t, w, 1);
      assert t[0] != w[0];
      assert !ContainsFrom(t, w, 0);
      ContainsByWalk(t, w);
    }
    assert !Contains(t, "tech") by {
      var w := "tech";
      assert !ContainsFrom(t, w, 16);
      assert t[16] != w[1];
      assert !PrefixAt(t, w, 15, 1);
      assert !ContainsFrom(t, w, 15);
      assert t[14] != w[0];
      assert !ContainsFrom(t, w, 14);
      assert t[13] != w[0];
      assert !ContainsFrom(t, w, 13);
      assert t[12] != w[0];
      assert !ContainsFrom(t, w, 12);
      assert t[11] != w[0];
      assert !ContainsFrom(t, w, 11);
      assert t[10] != w[0];
      assert !ContainsFrom(t, w, 10);
      assert t[9] != w[0];
      assert !ContainsFrom(t, w, 9);
      assert t[8] != w[0];
      assert !ContainsFrom(t, w, 8);
      assert t[7] != w[0];
      assert !ContainsFrom(t, w, 7);
      assert t[6] != w[0];
      assert !ContainsFrom(t, w, 6);
      assert t[5] != w[0];
      assert !ContainsFrom(t, w, 5);
      assert t[4] != w[0];
      assert !ContainsFrom(t, w, 4);
      assert t[3] != w[0];
      assert !ContainsFrom(t, w, 3);
      assert t[2] != w[0];
      assert !ContainsFrom(t, w, 2);
      assert t[2] != w[1];
      assert !PrefixAt(t, w, 1, 1);
      assert !ContainsFrom(t, w, 1);
      assert t[0] != w[0];
      assert !ContainsFrom(t, w, 0);
      ContainsByWalk(t, w);
    }
    assert !Contains(t, "numérique") by {
      var w := "numérique";
      assert !ContainsFrom(t, w, 11);
      assert t[10] != w[0];
      assert !ContainsFrom(t, w, 10);
      assert t[9] != w[0];
      assert !ContainsFrom(t, w, 9);
      assert t[8] != w[0];
      assert !ContainsFrom(t, w, 8);
      assert t[7] != w[0];
      assert !ContainsFrom(t, w, 7);
      assert t[6] != w[0];
      assert !ContainsFrom(t, w, 6);
      assert t[5] != w[0];
      assert !ContainsFrom(t, w, 5);
      assert t[4] != w[0];
      assert !ContainsFrom(t, w, 4);
      assert t[3] != w[0];
      assert !ContainsFrom(t, w, 3);
      assert t[2] != w[0];
      assert !ContainsFrom(t, w, 2);
      assert t[1] != w[0];
      assert !ContainsFrom(t, w, 1);
      assert t[0] != w[0];
      assert !ContainsFrom(t, w, 0);
      ContainsByWalk(t, w);
    }
    assert !Contains(t, "digital") by {
      var w := "digital";
      assert !ContainsFrom(t, w, 13);
      assert t[12] != w[0];
      assert !ContainsFrom(t, w, 12);
      assert t[11] != w[0];
      assert !ContainsFrom(t, w, 11);
      assert t[10] != w[0];
      assert !ContainsFrom(t, w, 10);
      assert t[9] != w[0];
      assert !ContainsFrom(t, w, 9);
      assert t[8] != w[0];
      assert !ContainsFrom(t, w, 8);
      assert t[7] != w[0];
      assert !ContainsFrom(t, w, 7);
      assert t[6] != w[0];
      assert !ContainsFrom(t, w, 6);
      assert t[5] != w[0];
      assert !ContainsFrom(t, w, 5);
      assert t[4] != w[0];
      assert !ContainsFrom(t, w, 4);
      assert t[3] != w[0];
      assert !ContainsFrom(t, w, 3);
      assert t[2] != w[0];
      assert !ContainsFrom(t, w, 2);
      assert t[1] != w[0];
      assert !ContainsFrom(t, w, 1);
      assert t[0] != w[0];
      assert !ContainsFrom(t, w, 0);
      ContainsByWalk(t, w);
    }
    assert !Contains(t, "progiciel") by {
      var w := "progiciel";
      assert !ContainsFrom(t, w, 11);
      assert t[10] != w[0];
      assert !ContainsFrom(t, w, 10);
      assert t[9] != w[0];
      assert !ContainsFrom(t, w, 9);
      assert t[8] != w[0];
      assert !ContainsFrom(t, w, 8);
      assert t[7] != w[0];
      assert !ContainsFrom(t, w, 7);
      assert t[6] != w[0];
      assert !ContainsFrom(t, w, 6);
      assert t[5] != w[0];
      assert !ContainsFrom(t, w, 5);
      assert t[4] != w[0];
      assert !ContainsFrom(t, w, 4);
      assert t[3] != w[0];
      assert !ContainsFrom(t, w, 3);
      assert t[2] != w[0];
      assert !ContainsFrom(t, w, 2);
      assert t[1] != w[0];
      assert !ContainsFrom(t, w, 1);
      assert t[0] != w[0];
      assert !ContainsFrom(t, w, 0);
      ContainsByWalk(t, w);
    }
  }

  lemma StagiaireMarketingNotInformatique(t: string)
    requires t == "stagiaire marketing"
    ensures forall k :: k in InformatiqueKeywords ==> !Contains(t, k)
  {
    StagiaireMarketingNotInformatiquePart1(t);
    StagiaireMarketingNotInformatiquePart2(t);
    assert InformatiqueKeywords == InformatiqueKeywords[0..8] + InformatiqueKeywords[8..16];
  }

  lemma StagiaireMarketingNotCommercePart1(t: string)
    requires t == "stagiaire marketing"
    ensures forall k :: k in CommerceKeywords[0..8] ==> !Contains(t, k)
  {
    StagiaireMarketingChars(t);
    assert !Contains(t, "commercial") by {
      var w := "commercial";
      assert !ContainsFrom(t, w, 10);
      assert t[9] != w[0];
      assert !ContainsFrom(t, w, 9);
      assert t[8] != w[0];
      assert !ContainsFrom(t, w, 8);
      assert t[7] != w[0];
      assert !ContainsFrom(t, w, 7);
      assert t[6] != w[0];
      assert !ContainsFrom(t, w, 6);
      assert t[5] != w[0];
      assert !ContainsFrom(t, w, 5);
      assert t[4] != w[0];
      assert !ContainsFrom(t, w, 4);
      assert t[3] != w[0];
      assert !ContainsFrom(t, w, 3);
      assert t[2] != w[0];
      assert !ContainsFrom(t, w, 2);
      assert t[1] != w[0];
      assert !ContainsFrom(t, w, 1);
      assert t[0] != w[0];
      assert !ContainsFrom(t, w, 0);
      ContainsByWalk(t, w);
    }
    assert !Contains(t, "vente") by {
      var w := "vente";
      assert !ContainsFrom(t, w, 15);
      assert t[14] != w[0];
      assert !ContainsFrom(t, w, 14);
      assert t[13] != w[0];
      assert !ContainsFrom(t, w, 13);
      assert t[12] != w[0];
      assert !ContainsFrom(t, w, 12);
      assert t[11] != w[0];
      assert !ContainsFrom(t, w, 11);
      assert t[10] != w[0];
      assert !ContainsFrom(t, w, 10);
      assert t[9] != w[0];
      assert !ContainsFrom(t, w, 9);
      assert t[8] != w[0];
      assert !ContainsFrom(t, w, 8);
      assert t[7] != w[0];
      assert !ContainsFrom(t, w, 7);
      assert t[6] != w[0];
      assert !ContainsFrom(t, w, 6);
      assert t[5] != w[0];
      assert !ContainsFrom(t, w, 5);
      assert t[4] != w[0];
      assert !ContainsFrom(t, w, 4);
      assert t[3] != w[0];
      assert !ContainsFrom(t, w, 3);
      assert t[2] != w[0];
      assert !ContainsFrom(t, w, 2);
      assert t[1] != w[0];
      assert !ContainsFrom(t, w, 1);
      assert t[0] != w[0];
      assert !ContainsFrom(t, w, 0);
      ContainsByWalk(t, w);
    }
    assert !Contains(t, "vendeur") by {
      var w := "vendeur";
      assert !ContainsFrom(t, w, 13);
      assert t[12] != w[0];
      assert !ContainsFrom(t, w, 12);
      assert t[11] != w[0];
      assert !ContainsFrom(t, w, 11);
      assert t[10] != w[0];
      assert !ContainsFrom(t, w, 10);
      assert t[9] != w[0];
      assert !ContainsFrom(t, w, 9);
      assert t[8] != w[0];
      assert !ContainsFrom(t, w, 8);
      assert t[7] != w[0];
      assert !ContainsFrom(t, w, 7);
      assert t[6] != w[0];
      assert !ContainsFrom(t, w, 6);
      assert t[5] != w[0];
      assert !ContainsFrom(t, w, 5);
      assert t[4] != w[0];
      assert !ContainsFrom(t, w, 4);
      assert t[3] != w[0];
      assert !ContainsFrom(t, w, 3);
      assert t[2] != w[0];
      assert !ContainsFrom(t, w, 2);
      assert t[1] != w[0];
      assert !ContainsFrom(t, w, 1);
      assert t[0] != w[0];
      assert !ContainsFrom(t, w, 0);
      ContainsByWalk(t, w);
    }
    assert !Contains(t, "magasin") by {
      var w := "magasin";
      assert !ContainsFrom(t, w, 13);
      assert t[12] != w[0];
      assert !ContainsFrom(t, w, 12);
      assert t[11] != w[0];
      assert !ContainsFrom(t, w, 11);
      assert t[12] != w[2];
      assert !PrefixAt(t, w, 10, 2);
      assert !PrefixAt(t, w, 10, 1);
      assert !ContainsFrom(t, w, 10);
      assert t[9] != w[0];
      assert !ContainsFrom(t, w, 9);
      assert t[8] != w[0];
      assert !ContainsFrom(t, w, 8);
      assert t[7] != w[0];
      assert !ContainsFrom(t, w, 7);
      assert t[6] != w[0];
      assert !ContainsFrom(t, w, 6);
      assert t[5] != w[0];
      assert !ContainsFrom(t, w, 5);
      assert t[4] != w[0];
      assert !ContainsFrom(t, w, 4);
      assert t[3] != w[0];
      assert !ContainsFrom(t, w, 3);
      assert t[2] != w[0];
      assert !ContainsFrom(t, w, 2);
      assert t[1] != w[0];
      assert !ContainsFrom(t, w, 1);
      assert t[0] != w[0];
      assert !ContainsFrom(t, w, 0);
      ContainsByWalk(t, w);
    }
    assert !Contains(t, "magasinier") by {
      var w := "magasinier";
      assert !ContainsFrom(t, w, 10);
      assert t[9] != w[0];
      assert !ContainsFrom(t, w, 9);
      assert t[8] != w[0];
      assert !ContainsFrom(t, w, 8);
      assert t[7] != w[0];
      assert !ContainsFrom(t, w, 7);
      assert t[6] != w[0];
      assert !ContainsFrom(t, w, 6);
      assert t[5] != w[0];
      assert !ContainsFrom(t, w, 5);
      assert t[4] != w[0];
      assert !ContainsFrom(t, w, 4);
      assert t[3] != w[0];
      assert !ContainsFrom(t, w, 3);
      assert t[2] != w[0];
      assert !ContainsFrom(t, w, 2);
      assert t[1] != w[0];
      assert !ContainsFrom(t, w, 1);
      assert t[0] != w[0];
      assert !ContainsFrom(t, w, 0);
      ContainsByWalk(t, w);
    }
    assert !Contains(t, "conseiller de vente") by {
      var w := "conseiller de vente";
      assert !ContainsFrom(t, w, 1);
      assert t[0] != w[0];
      assert !ContainsFrom(t, w, 0);
      ContainsByWalk(t, w);
    }
    assert !Contains(t, "conseiller client") by {
      var w := "conseiller client";
      assert !ContainsFrom(t, w, 3);
      assert t[2] != w[0];
      assert !ContainsFrom(t, w, 2);
      assert t[1] != w[0];
      assert !ContainsFrom(t, w, 1);
      assert t[0] != w[0];
      assert !ContainsFrom(t, w, 0);
      ContainsByWalk(t, w);
    }
    assert !Contains(t, "relation client") by {
      var w := "relation client";
      assert !ContainsFrom(t, w, 5);
      assert t[4] != w[0];
      assert !ContainsFrom(t, w, 4);
      assert t[3] != w[0];
      assert !ContainsFrom(t, w, 3);
      assert t[2] != w[0];
      assert !ContainsFrom(t, w, 2);
      assert t[1] != w[0];
      assert !ContainsFrom(t, w, 1);
      assert t[0] != w[0];
      assert !ContainsFrom(t, w, 0);
      ContainsByWalk(t, w);
    }
  }

  lemma StagiaireMarketingNotCommercePart2(t: string)
    requires t == "stagiaire marketing"
    ensures forall k :: k in CommerceKeywords[8..10] ==> !Contains(t, k)
  {
    StagiaireMarketingChars(t);
    assert !Contains(t, "directeur de magasin") by {
      var w := "directeur de magasin";
      assert !ContainsFrom(t, w, 0);
      ContainsByWalk(t, w);
    }
    assert !Contains(t, "responsable magasin") by {
      var w := "responsable magasin";
      assert !ContainsFrom(t, w, 1);
      assert t[0] != w[0];
      assert !ContainsFrom(t, w, 0);
      ContainsByWalk(t, w);
    }
  }

  lemma StagiaireMarketingNotCommerce(t: string)
    requires t == "stagiaire marketing"
    ensures forall k :: k in CommerceKeywords ==> !Contains(t, k)
  {
    StagiaireMarketingNotCommercePart1(t);
    StagiaireMarketingNotCommercePart2(t);
    assert CommerceKeywords == CommerceKeywords[0..8] + CommerceKeywords[8..10];
  }

  lemma StagiaireMarketingNotAdministration(t: string)
    requires t == "stagiaire marketing"
    ensures forall k :: k in AdministrationKeywords ==> !Contains(t, k)
  {
    StagiaireMarketingChars(t);
    assert !Contains(t, "assistant") by {
      var w := "assistant";
      assert !ContainsFrom(t, w, 11);
      assert t[10] != w[0];
      assert !ContainsFrom(t, w, 10);
      assert t[9] != w[0];
      assert !ContainsFrom(t, w, 9);
      assert t[8] != w[0];
      assert !ContainsFrom(t, w, 8);
      assert t[7] != w[0];
      assert !ContainsFrom(t, w, 7);
      assert t[6] != w[0];
      assert !ContainsFrom(t, w, 6);
      assert t[6] != w[1];
      assert !PrefixAt(t, w, 5, 1);
      assert !ContainsFrom(t, w, 5);
      assert t[4] != w[0];
      assert !ContainsFrom(t, w, 4);
      assert t[3] != w[0];
      assert !ContainsFrom(t, w, 3);
      assert t[3] != w[1];
      assert !PrefixAt(t, w, 2, 1);
      assert !ContainsFrom(t, w, 2);
      assert t[1] != w[0];
      assert !ContainsFrom(t, w, 1);
      assert t[0] != w[0];
      assert !ContainsFrom(t, w, 0);
      ContainsByWalk(t, w);
    }
    assert !Contains(t, "assistante") by {
      var w := "assistante";
      assert !ContainsFrom(t, w, 10);
      assert t[9] != w[0];
      assert !ContainsFrom(t, w, 9);
      assert t[8] != w[0];
      assert !ContainsFrom(t, w, 8);
      assert t[7] != w[0];
      assert !ContainsFrom(t, w, 7);
      assert t[6] != w[0];
      assert !ContainsFrom(t, w, 6);
      assert t[6] != w[1];
      assert !PrefixAt(t, w, 5, 1);
      assert !ContainsFrom(t, w, 5);
      assert t[4] != w[0];
      assert !ContainsFrom(t, w, 4);
      assert t[3] != w[0];
      assert !ContainsFrom(t, w, 3);
      assert t[3] != w[1];
      assert !PrefixAt(t, w, 2, 1);
      assert !ContainsFrom(t, w, 2);
      assert t[1] != w[0];
      assert !ContainsFrom(t, w, 1);
      assert t[0] != w[0];
      assert !ContainsFrom(t, w, 0);
      ContainsByWalk(t, w);
    }
    assert !Contains(t, "administratif") by {
      var w := "administratif";
      assert !ContainsFrom(t, w, 7);
      assert t[6] != w[0];
      assert !ContainsFrom(t, w, 6);
      assert t[6] != w[1];
      assert !PrefixAt(t, w, 5, 1);
      assert !ContainsFrom(t, w, 5);
      assert t[4] != w[0];
      assert !ContainsFrom(t, w, 4);
      assert t[3] != w[0];
      assert !ContainsFrom(t, w, 3);
      assert t[3] != w[1];
      assert !PrefixAt(t, w, 2, 1);
      assert !ContainsFrom(t, w, 2);
      assert t[1] != w[0];
      assert !ContainsFrom(t, w, 1);
      assert t[0] != w[0];
      assert !ContainsFrom(t, w, 0);
      ContainsByWalk(t, w);
    }
    assert !Contains(t, "administrative") by {
      var w := "administrative";
      assert !ContainsFrom(t, w, 6);
      assert t[6] != w[1];
      assert !PrefixAt(t, w, 5, 1);
      assert !ContainsFrom(t, w, 5);
      assert t[4] != w[0];
      assert !ContainsFrom(t, w, 4);
      assert t[3] != w[0];
      assert !ContainsFrom(t, w, 3);
      assert t[3] != w[1];
      assert !PrefixAt(t, w, 2, 1);
      assert !ContainsFrom(t, w, 2);
      assert t[1] != w[0];
      assert !ContainsFrom(t, w, 1);
      assert t[0] != w[0];
      assert !ContainsFrom(t, w, 0);
      ContainsByWalk(t, w);
    }
    assert !Contains(t, "gestionnaire") by {
      var w := "gestionnaire";
      assert !ContainsFrom(t, w, 8);
      assert t[7] != w[0];
      assert !ContainsFrom(t, w, 7);
      assert t[6] != w[0];
      assert !ContainsFrom(t, w, 6);
      assert t[5] != w[0];
      assert !ContainsFrom(t, w, 5);
      assert t[4] != w[0];
      assert !ContainsFrom(t, w, 4);
      assert t[4] != w[1];
      assert !PrefixAt(t, w, 3, 1);
      assert !ContainsFrom(t, w, 3);
      assert t[2] != w[0];
      assert !ContainsFrom(t, w, 2);
      assert t[1] != w[0];
      assert !ContainsFrom(t, w, 1);
      assert t[0] != w[0];
      assert !ContainsFrom(t, w, 0);
      ContainsByWalk(t, w);
    }
    assert !Contains(t, "secrétaire") by {
      var w := "secrétaire";
      assert !ContainsFrom(t, w, 10);
      assert t[9] != w[0];
      assert !ContainsFrom(t, w, 9);
      assert t[8] != w[0];
      assert !ContainsFrom(t, w, 8);
      assert t[7] != w[0];
      assert !ContainsFrom(t, w, 7);
      assert t[6] != w[0];
      assert !ContainsFrom(t, w, 6);
      assert t[5] != w[0];
      assert !ContainsFrom(t, w, 5);
      assert t[4] != w[0];
      assert !ContainsFrom(t, w, 4);
      assert t[3] != w[0];
      assert !ContainsFrom(t, w, 3);
      assert t[2] != w[0];
      assert !ContainsFrom(t, w, 2);
      assert t[1] != w[0];
      assert !ContainsFrom(t, w, 1);
      assert t[1] != w[1];
      assert !PrefixAt(t, w, 0, 1);
      assert !ContainsFrom(t, w, 0);
      ContainsByWalk(t, w);
    }
    assert !Contains(t, "back office") by {
      var w := "back office";
      assert !ContainsFrom(t, w, 9);
      assert t[8] != w[0];
      assert !ContainsFrom(t, w, 8);
      assert t[7] != w[0];
      assert !ContainsFrom(t, w, 7);
      assert t[6] != w[0];
      assert !ContainsFrom(t, w, 6);
      assert t[5] != w[0];
      assert !ContainsFrom(t, w, 5);
      assert t[4] != w[0];
      assert !ContainsFrom(t, w, 4);
      assert t[3] != w[0];
      assert !ContainsFrom(t, w, 3);
      assert t[2] != w[0];
      assert !ContainsFrom(t, w, 2);
      assert t[1] != w[0];
      assert !ContainsFrom(t, w, 1);
      assert t[0] != w[0];
      assert !ContainsFrom(t, w, 0);
      ContainsByWalk(t, w);
    }
  }

  lemma StagiaireMarketingNotManagementPart1(t: string)
    requires t == "stagiaire marketing"
    ensures forall k :: k in ManagementKeywords[0..8] ==> !Contains(t, k)
  {
    StagiaireMarketingChars(t);
    assert !Contains(t, "manager") by {
      var w := "manager";
      assert !ContainsFrom(t, w, 13);
      assert t[12] != w[0];
      assert !ContainsFrom(t, w, 12);
      assert t[11] != w[0];
      assert !ContainsFrom(t, w, 11);
      assert t[12] != w[2];
      assert !PrefixAt(t, w, 10, 2);
      assert !PrefixAt(t, w, 10, 1);
      assert !ContainsFrom(t, w, 10);
      assert t[9] != w[0];
      assert !ContainsFrom(t, w, 9);
      assert t[8] != w[0];
      assert !ContainsFrom(t, w, 8);
      assert t[7] != w[0];
      assert !ContainsFrom(t, w, 7);
      assert t[6] != w[0];
      assert !ContainsFrom(t, w, 6);
      assert t[5] != w[0];
      assert !ContainsFrom(t, w, 5);
      assert t[4] != w[0];
      assert !ContainsFrom(t, w, 4);
      assert t[3] != w[0];
      assert !ContainsFrom(t, w, 3);
      assert t[2] != w[0];
      assert !ContainsFrom(t, w, 2);
      assert t[1] != w[0];
      assert !ContainsFrom(t, w, 1);
      assert t[0] != w[0];
      assert !ContainsFrom(t, w, 0);
      ContainsByWalk(t, w);
    }
    assert !Contains(t, "responsable") by {
      var w := "responsable";
      assert !ContainsFrom(t, w, 9);
      assert t[8] != w[0];
      assert !ContainsFrom(t, w, 8);
      assert t[9] != w[2];
      assert !PrefixAt(t, w, 7, 2);
      assert !PrefixAt(t, w, 7, 1);
      assert !ContainsFrom(t, w, 7);
      assert t[6] != w[0];
      assert !ContainsFrom(t, w, 6);
      assert t[5] != w[0];
      assert !ContainsFrom(t, w, 5);
      assert t[4] != w[0];
      assert !ContainsFrom(t, w, 4);
      assert t[3] != w[0];
      assert !ContainsFrom(t, w, 3);
      assert t[2] != w[0];
      assert !ContainsFrom(t, w, 2);
      assert t[1] != w[0];
      assert !ContainsFrom(t, w, 1);
      assert t[0] != w[0];
      assert !ContainsFrom(t, w, 0);
      ContainsByWalk(t, w);
    }
    assert !Contains(t, "directeur") by {
      var w := "directeur";
      assert !ContainsFrom(t, w, 11);
      assert t[10] != w[0];
      assert !ContainsFrom(t, w, 10);
      assert t[9] != w[0];
      assert !ContainsFrom(t, w, 9);
      assert t[8] != w[0];
      assert !ContainsFrom(t, w, 8);
      assert t[7] != w[0];
      assert !ContainsFrom(t, w, 7);
      assert t[6] != w[0];
      assert !ContainsFrom(t, w, 6);
      assert t[5] != w[0];
      assert !ContainsFrom(t, w, 5);
      assert t[4] != w[0];
      assert !ContainsFrom(t, w, 4);
      assert t[3] != w[0];
      assert !ContainsFrom(t, w, 3);
      assert t[2] != w[0];
      assert !ContainsFrom(t, w, 2);
      assert t[1] != w[0];
      assert !ContainsFrom(t, w, 1);
      assert t[0] != w[0];
      assert !ContainsFrom(t, w, 0);
      ContainsByWalk(t, w);
    }
    assert !Contains(t, "directrice") by {
      var w := "directrice";
      assert !ContainsFrom(t, w, 10);
      assert t[9] != w[0];
      assert !ContainsFrom(t, w, 9);
      assert t[8] != w[0];
      assert !ContainsFrom(t, w, 8);
      assert t[7] != w[0];
      assert !ContainsFrom(t, w, 7);
      assert t[6] != w[0];
      assert !ContainsFrom(t, w, 6);
      assert t[5] != w[0];
      assert !ContainsFrom(t, w, 5);
      assert t[4] != w[0];
      assert !ContainsFrom(t, w, 4);
      assert t[3] != w[0];
      assert !ContainsFrom(t, w, 3);
      assert t[2] != w[0];
      assert !ContainsFrom(t, w, 2);
      assert t[1] != w[0];
      assert !ContainsFrom(t, w, 1);
      assert t[0] != w[0];
      assert !ContainsFrom(t, w, 0);
      ContainsByWalk(t, w);
    }
    assert !Contains(t, "chef de projet") by {
      var w := "chef de projet";
      assert !ContainsFrom(t, w, 6);
      assert t[5] != w[0];
      assert !ContainsFrom(t, w, 5);
      assert t[4] != w[0];
      assert !ContainsFrom(t, w, 4);
      assert t[3] != w[0];
      assert !ContainsFrom(t, w, 3);
      assert t[2] != w[0];
      assert !ContainsFrom(t, w, 2);
      assert t[1] != w[0];
      assert !ContainsFrom(t, w, 1);
      assert t[0] != w[0];
      assert !ContainsFrom(t, w, 0);
      ContainsByWalk(t, w);
    }
    assert !Contains(t, "chef de département") by {
      var w := "chef de département";
      assert !ContainsFrom(t, w, 1);
      assert t[0] != w[0];
      assert !ContainsFrom(t, w, 0);
      ContainsByWalk(t, w);
    }
    assert !Contains(t, "chef d'équipe") by {
      var w := "chef d'équipe";
      assert !ContainsFrom(t, w, 7);
      assert t[6] != w[0];
      assert !ContainsFrom(t, w, 6);
      assert t[5] != w[0];
      assert !ContainsFrom(t, w, 5);
      assert t[4] != w[0];
      assert !ContainsFrom(t, w, 4);
      assert t[3] != w[0];
      assert !ContainsFrom(t, w, 3);
      assert t[2] != w[0];
      assert !ContainsFrom(t, w, 2);
      assert t[1] != w[0];
      assert !ContainsFrom(t, w, 1);
      assert t[0] != w[0];
      assert !ContainsFrom(t, w, 0);
      ContainsByWalk(t, w);
    }
    assert !Contains(t, "chef d equipe") by {
      var w := "chef d equipe";
      assert !ContainsFrom(t, w, 7);
      assert t[6] != w[0];
      assert !ContainsFrom(t, w, 6);
      assert t[5] != w[0];
      assert !ContainsFrom(t, w, 5);
      assert t[4] != w[0];
      assert !ContainsFrom(t, w, 4);
      assert t[3] != w[0];
      assert !ContainsFrom(t, w, 3);
      assert t[2] != w[0];
      assert !ContainsFrom(t, w, 2);
      assert t[1] != w[0];
      assert !ContainsFrom(t, w, 1);
      assert t[0] != w[0];
      assert !ContainsFrom(t, w, 0);
      ContainsByWalk(t, w);
    }
  }

  lemma StagiaireMarketingNotManagementPart2(t: string)
    requires t == "stagiaire marketing"
    ensures forall k :: k in ManagementKeywords[8..10] ==> !Contains(t, k)
  {
    StagiaireMarketingChars(t);
    assert !Contains(t, "responsable agence") by {
      var w := "responsable agence";
      assert !ContainsFrom(t, w, 2);
      assert t[1] != w[0];
      assert !ContainsFrom(t, w, 1);
      assert t[0] != w[0];
      assert !ContainsFrom(t, w, 0);
      ContainsByWalk(t, w);
    }
    assert !Contains(t, "responsable des projets") by {
      var w := "responsable des projets";
      assert !ContainsFrom(t, w, 0);
      ContainsByWalk(t, w);
    }
  }

  lemma StagiaireMarketingNotManagement(t: string)
    requires t == "stagiaire marketing"
    ensures forall k :: k in ManagementKeywords ==> !Contains(t, k)
  {
    StagiaireMarketingNotManagementPart1(t);
    StagiaireMarketingNotManagementPart2(t);
    assert ManagementKeywords == ManagementKeywords[0..8] + ManagementKeywords[8..10];
  }

  /** No rule fires on "stagiaire marketing": the fallback tag applies. */
  lemma StagiaireMarketingExample(titre: string)
    requires Lower(titre) == "stagiaire marketing"
    ensures ExtraireDomaine(titre) == "Autre"
  {
    var t := Lower(titre);
    RulesTable();
    StagiaireMarketingNotRestauration(t);
    StagiaireMarketingNotLogistique(t);
    StagiaireMarketingNotBtp(t);
    StagiaireMarketingNotEnergieTechnique(t);
    StagiaireMarketingNotQualiteQhse(t);
    StagiaireMarketingNotFinanceAssurance(t);
    StagiaireMarketingNotInformatique(t);
    StagiaireMarketingNotCommerce(t);
    StagiaireMarketingNotAdministration(t);
    StagiaireMarketingNotManagement(t);
    forall j | 0 <= j < 10
      ensures !Fires(t, Rules[j])
    {
      if j == 0 { } else if j == 1 { } else if j == 2 { } else if j == 3 { } else if j == 4 { } else if j == 5 { } else if j == 6 { } else if j == 7 { } else if j == 8 { } else { assert j == 9; }
    }
  }

  lemma StagiaireMarketingLoweredPart1(s: string)
    requires s == "Stagiaire Marketing"
    ensures forall i :: 0 <= i < 6 ==> Lower(s)[i] == "stagiaire marketing"[i]
  {
    var r := Lower(s);
    forall i | 0 <= i < 6
      ensures r[i] == "stagiaire marketing"[i]
    {
      if i == 0 { assert r[0] == LowerChar(s[0]); } else if i == 1 { assert r[1] == LowerChar(s[1]); } else if i == 2 { assert r[2] == LowerChar(s[2]); } else if i == 3 { assert r[3] == LowerChar(s[3]); } else if i == 4 { assert r[4] == LowerChar(s[4]); } else { assert i == 5; assert r[5] == LowerChar(s[5]); }
    }
  }

  lemma StagiaireMarketingLoweredPart2(s: string)
    requires s == "Stagiaire Marketing"
    ensures forall i :: 6 <= i < 12 ==> Lower(s)[i] == "stagiaire marketing"[i]
  {
    var r := Lower(s);
    forall i | 6 <= i < 12
      ensures r[i] == "stagiaire marketing"[i]
    {
      if i == 6 { assert r[6] == LowerChar(s[6]); } else if i == 7 { assert r[7] == LowerChar(s[7]); } else if i == 8 { assert r[8] == LowerChar(s[8]); } else if i == 9 { assert r[9] == LowerChar(s[9]); } else if i == 10 { assert r[10] == LowerChar(s[10]); } else { assert i == 11; assert r[11] == LowerChar(s[11]); }
    }
  }

  lemma StagiaireMarketingLoweredPart3(s: string)
    requires s == "Stagiaire Marketing"
    ensures forall i :: 12 <= i < 18 ==> Lower(s)[i] == "stagiaire marketing"[i]
  {
    var r := Lower(s);
    forall i | 12 <= i < 18
      ensures r[i] == "stagiaire marketing"[i]
    {
      if i == 12 { assert r[12] == LowerChar(s[12]); } else if i == 13 { assert r[13] == LowerChar(s[13]); } else if i == 14 { assert r[14] == LowerChar(s[14]); } else if i == 15 { assert r[15] == LowerChar(s[15]); } else if i == 16 { assert r[16] == LowerChar(s[16]); } else { assert i == 17; assert r[17] == LowerChar(s[17]); }
    }
  }

  lemma StagiaireMarketingLoweredPart4(s: string)
    requires s == "Stagiaire Marketing"
    ensures forall i :: 18 <= i < 19 ==> Lower(s)[i] == "stagiaire marketing"[i]
  {
    var r := Lower(s);
    forall i | 18 <= i < 19
      ensures r[i] == "stagiaire marketing"[i]
    {
      { assert i == 18; assert r[18] == LowerChar(s[18]); }
    }
  }

  /** Lower-casing "Stagiaire Marketing" gives "stagiaire marketing". */
  lemma StagiaireMarketingLowered(s: string)
    requires s == "Stagiaire Marketing"
    ensures Lower(s) == "stagiaire marketing"
  {
    StagiaireMarketingLoweredPart1(s);
    StagiaireMarketingLoweredPart2(s);
    StagiaireMarketingLoweredPart3(s);
    StagiaireMarketingLoweredPart4(s);
  }

  lemma StagiaireMarketingUpperExample()
    ensures ExtraireDomaine("Stagiaire Marketing") == "Autre"
  {
    StagiaireMarketingLowered("Stagiaire Marketing");
    StagiaireMarketingExample("Stagiaire Marketing");
  }

  /** The characters of "directeur de site", one by one. */
  lemma DirecteurDeSiteChars(t: string)
    requires t == "directeur de site"
    ensures |t| == 17
    ensures t[0] == 'd'
    ensures t[1] == 'i'
    ensures t[2] == 'r'
    ensures t[3] == 'e'
    ensures t[4] == 'c'
    ensures t[5] == 't'
    ensures t[6] == 'e'
    ensures t[7] == 'u'
    ensures t[8] == 'r'
    ensures t[9] == ' '
    ensures t[10] == 'd'
    ensures t[11] == 'e'
    ensures t[12] == ' '
    ensures t[13] == 's'
    ensures t[14] == 'i'
    ensures t[15] == 't'
    ensures t[16] == 'e'
  {
  }

  lemma DirecteurDeSiteNotRestauration(t: string)
    requires t == "directeur de site"
    ensures forall k :: k in RestaurationKeywords ==> !Contains(t, k)
  {
    DirecteurDeSiteChars(t);
    assert !Contains(t, "cuisinier") by {
      var w := "cuisinier";
      assert !ContainsFrom(t, w, 9);
      assert t[8] != w[0];
      assert !ContainsFrom(t, w, 8);
      assert t[7] != w[0];
      assert !ContainsFrom(t, w, 7);
      assert t[6] != w[0];
      assert !ContainsFrom(t, w, 6);
      assert t[5] != w[0];
      assert !ContainsFrom(t, w, 5);
      assert t[5] != w[1];
      assert !PrefixAt(t, w, 4, 1);
      assert !ContainsFrom(t, w, 4);
      assert t[3] != w[0];
      assert !ContainsFrom(t, w, 3);
      assert t[2] != w[0];
      assert !ContainsFrom(t, w, 2);
      assert t[1] != w[0];
      assert !ContainsFrom(t, w, 1);
      assert t[0] != w[0];
      assert !ContainsFrom(t, w, 0);
      ContainsByWalk(t, w);
    }
    assert !Contains(t, "serveur") by {
      var w := "serveur";
      assert !ContainsFrom(t, w, 11);
      assert t[10] != w[0];
      assert !ContainsFrom(t, w, 10);
      assert t[9] != w[0];
      assert !ContainsFrom(t, w, 9);
      assert t[8] != w[0];
      assert !ContainsFrom(t, w, 8);
      assert t[7] != w[0];
      assert !ContainsFrom(t, w, 7);
      assert t[6] != w[0];
      assert !ContainsFrom(t, w, 6);
      assert t[5] != w[0];
      assert !ContainsFrom(t, w, 5);
      assert t[4] != w[0];
      assert !ContainsFrom(t, w, 4);
      assert t[3] != w[0];
      assert !ContainsFrom(t, w, 3);
      assert t[2] != w[0];
      assert !ContainsFrom(t, w, 2);
      assert t[1] != w[0];
      assert !ContainsFrom(t, w, 1);
      assert t[0] != w[0];
      assert !ContainsFrom(t, w, 0);
      ContainsByWalk(t, w);
    }
    assert !Contains(t, "restauration") by {
      var w := "restauration";
      assert !ContainsFrom(t, w, 6);
      assert t[5] != w[0];
      assert !ContainsFrom(t, w, 5);
      assert t[4] != w[0];
      assert !ContainsFrom(t, w, 4);
      assert t[3] != w[0];
      assert !ContainsFrom(t, w, 3);
      assert t[4] != w[2];
      assert !PrefixAt(t, w, 2, 2);
      assert !PrefixAt(t, w, 2, 1);
      assert !ContainsFrom(t, w, 2);
      assert t[1] != w[0];
      assert !ContainsFrom(t, w, 1);
      assert t[0] != w[0];
      assert !ContainsFrom(t, w, 0);
      ContainsByWalk(t, w);
    }
    assert !Contains(t, "hôtel") by {
      var w := "hôtel";
      assert !ContainsFrom(t, w, 13);
      assert t[12] != w[0];
      assert !ContainsFrom(t, w, 12);
      assert t[11] != w[0];
      assert !ContainsFrom(t, w, 11);
      assert t[10] != w[0];
      assert !ContainsFrom(t, w, 10);
      assert t[9] != w[0];
      assert !ContainsFrom(t, w, 9);
      assert t[8] != w[0];
      assert !ContainsFrom(t, w, 8);
      assert t[7] != w[0];
      assert !ContainsFrom(t, w, 7);
      assert t[6] != w[0];
      assert !ContainsFrom(t, w, 6);
      assert t[5] != w[0];
      assert !ContainsFrom(t, w, 5);
      assert t[4] != w[0];
      assert !ContainsFrom(t, w, 4);
      assert t[3] != w[0];
      assert !ContainsFrom(t, w, 3);
      assert t[2] != w[0];
      assert !ContainsFrom(t, w, 2);
      assert t[1] != w[0];
      assert !ContainsFrom(t, w, 1);
      assert t[0] != w[0];
      assert !ContainsFrom(t, w, 0);
      ContainsByWalk(t, w);
    }
    assert !Contains(t, "hotel") by {
      var w := "hotel";
      assert !ContainsFrom(t, w, 13);
      assert t[12] != w[0];
      assert !ContainsFrom(t, w, 12);
      assert t[11] != w[0];
      assert !ContainsFrom(t, w, 11);
      assert t[10] != w[0];
      assert !ContainsFrom(t, w, 10);
      assert t[9] != w[0];
      assert !ContainsFrom(t, w, 9);
      assert t[8] != w[0];
      assert !ContainsFrom(t, w, 8);
      assert t[7] != w[0];
      assert !ContainsFrom(t, w, 7);
      assert t[6] != w[0];
      assert !ContainsFrom(t, w, 6);
      assert t[5] != w[0];
      assert !ContainsFrom(t, w, 5);
      assert t[4] != w[0];
      assert !ContainsFrom(t, w, 4);
      assert t[3] != w[0];
      assert !ContainsFrom(t, w, 3);
      assert t[2] != w[0];
      assert !ContainsFrom(t, w, 2);
      assert t[1] != w[0];
      assert !ContainsFrom(t, w, 1);
      assert t[0] != w[0];
      assert !ContainsFrom(t, w, 0);
      ContainsByWalk(t, w);
    }
    assert !Contains(t, "chef de rang") by {
      var w := "chef de rang";
      assert !ContainsFrom(t, w, 6);
      assert t[5] != w[0];
      assert !ContainsFrom(t, w, 5);
      assert t[5] != w[1];
      assert !PrefixAt(t, w, 4, 1);
      assert !ContainsFrom(t, w, 4);
      assert t[3] != w[0];
      assert !ContainsFrom(t, w, 3);
      assert t[2] != w[0];
      assert !ContainsFrom(t, w, 2);
      assert t[1] != w[0];
      assert !ContainsFrom(t, w, 1);
      assert t[0] != w[0];
      assert !ContainsFrom(t, w, 0);
      ContainsByWalk(t, w);
    }
    assert !Contains(t, "restaurant") by {
      var w := "restaurant";
      assert !ContainsFrom(t, w, 8);
      assert t[7] != w[0];
      assert !ContainsFrom(t, w, 7);
      assert t[6] != w[0];
      assert !ContainsFrom(t, w, 6);
      assert t[5] != w[0];
      assert !ContainsFrom(t, w, 5);
      assert t[4] != w[0];
      assert !ContainsFrom(t, w, 4);
      assert t[3] != w[0];
      assert !ContainsFrom(t, w, 3);
      assert t[4] != w[2];
      assert !PrefixAt(t, w, 2, 2);
      assert !PrefixAt(t, w, 2, 1);
      assert !ContainsFrom(t, w, 2);
      assert t[1] != w[0];
      assert !ContainsFrom(t, w, 1);
      assert t[0] != w[0];
      assert !ContainsFrom(t, w, 0);
      ContainsByWalk(t, w);
    }
  }

  lemma DirecteurDeSiteNotLogistique(t: string)
    requires t == "directeur de site"
    ensures forall k :: k in LogistiqueKeywords ==> !Contains(t, k)
  {
    DirecteurDeSiteChars(t);
    assert !Contains(t, "logistique") by {
      var w := "logistique";
      assert !ContainsFrom(t, w, 8);
      assert t[7] != w[0];
      assert !ContainsFrom(t, w, 7);
      assert t[6] != w[0];
      assert !ContainsFrom(t, w, 6);
      assert t[5] != w[0];
      assert !ContainsFrom(t, w, 5);
      assert t[4] != w[0];
      assert !ContainsFrom(t, w, 4);
      assert t[3] != w[0];
      assert !ContainsFrom(t, w, 3);
      assert t[2] != w[0];
      assert !ContainsFrom(t, w, 2);
      assert t[1] != w[0];
      assert !ContainsFrom(t, w, 1);
      assert t[0] != w[0];
      assert !ContainsFrom(t, w, 0);
      ContainsByWalk(t, w);
    }
    assert !Contains(t, "chauffeur") by {
      var w := "chauffeur";
      assert !ContainsFrom(t, w, 9);
      assert t[8] != w[0];
      assert !ContainsFrom(t, w, 8);
      assert t[7] != w[0];
      assert !ContainsFrom(t, w, 7);
      assert t[6] != w[0];
      assert !ContainsFrom(t, w, 6);
      assert t[5] != w[0];
      assert !ContainsFrom(t, w, 5);
      assert t[5] != w[1];
      assert !PrefixAt(t, w, 4, 1);
      assert !ContainsFrom(t, w, 4);
      assert t[3] != w[0];
      assert !ContainsFrom(t, w, 3);
      assert t[2] != w[0];
      assert !ContainsFrom(t, w, 2);
      assert t[1] != w[0];
      assert !ContainsFrom(t, w, 1);
      assert t[0] != w[0];
      assert !ContainsFrom(t, w, 0);
      ContainsByWalk(t, w);
    }
    assert !Contains(t, "livreur") by {
      var w := "livreur";
      assert !ContainsFrom(t, w, 11);
      assert t[10] != w[0];
      assert !ContainsFrom(t, w, 10);
      assert t[9] != w[0];
      assert !ContainsFrom(t, w, 9);
      assert t[8] != w[0];
      assert !ContainsFrom(t, w, 8);
      assert t[7] != w[0];
      assert !ContainsFrom(t, w, 7);
      assert t[6] != w[0];
      assert !ContainsFrom(t, w, 6);
      assert t[5] != w[0];
      assert !ContainsFrom(t, w, 5);
      assert t[4] != w[0];
      assert !ContainsFrom(t, w, 4);
      assert t[3] != w[0];
      assert !ContainsFrom(t, w, 3);
      assert t[2] != w[0];
      assert !ContainsFrom(t, w, 2);
      assert t[1] != w[0];
      assert !ContainsFrom(t, w, 1);
      assert t[0] != w[0];
      assert !ContainsFrom(t, w, 0);
      ContainsByWalk(t, w);
    }
    assert !Contains(t, "transport") by {
      var w := "transport";
      assert !ContainsFrom(t, w, 9);
      assert t[8] != w[0];
      assert !ContainsFrom(t, w, 8);
      assert t[7] != w[0];
      assert !ContainsFrom(t, w, 7);
      assert t[6] != w[0];
      assert !ContainsFrom(t, w, 6);
      assert t[6] != w[1];
      assert !PrefixAt(t, w, 5, 1);
      assert !ContainsFrom(t, w, 5);
      assert t[4] != w[0];
      assert !ContainsFrom(t, w, 4);
      assert t[3] != w[0];
      assert !ContainsFrom(t, w, 3);
      assert t[2] != w[0];
      assert !ContainsFrom(t, w, 2);
      assert t[1] != w[0];
      assert !ContainsFrom(t, w, 1);
      assert t[0] != w[0];
      assert !ContainsFrom(t, w, 0);
      ContainsByWalk(t, w);
    }
    assert !Contains(t, "pl de nuit") by {
      var w := "pl de nuit";
      assert !ContainsFrom(t, w, 8);
      assert t[7] != w[0];
      assert !ContainsFrom(t, w, 7);
      assert t[6] != w[0];
      assert !ContainsFrom(t, w, 6);
      assert t[5] != w[0];
      assert !ContainsFrom(t, w, 5);
      assert t[4] != w[0];
      assert !ContainsFrom(t, w, 4);
      assert t[3] != w[0];
      assert !ContainsFrom(t, w, 3);
      assert t[2] != w[0];
      assert !ContainsFrom(t, w, 2);
      assert t[1] != w[0];
      assert !ContainsFrom(t, w, 1);
      assert t[0] != w[0];
      assert !ContainsFrom(t, w, 0);
      ContainsByWalk(t, w);
    }
    assert !Contains(t, "magasinier") by {
      var w := "magasinier";
      assert !ContainsFrom(t, w, 8);
      assert t[7] != w[0];
      assert !ContainsFrom(t, w, 7);
      assert t[6] != w[0];
      assert !ContainsFrom(t, w, 6);
      assert t[5] != w[0];
      assert !ContainsFrom(t, w, 5);
      assert t[4] != w[0];
      assert !ContainsFrom(t, w, 4);
      assert t[3] != w[0];
      assert !ContainsFrom(t, w, 3);
      assert t[2] != w[0];
      assert !ContainsFrom(t, w, 2);
      assert t[1] != w[0];
      assert !ContainsFrom(t, w, 1);
      assert t[0] != w[0];
      assert !ContainsFrom(t, w, 0);
      ContainsByWalk(t, w);
    }
    assert !Contains(t, "cariste") by {
      var w := "cariste";
      assert !ContainsFrom(t, w, 11);
      assert t[10] != w[0];
      assert !ContainsFrom(t, w, 10);
      assert t[9] != w[0];
      assert !ContainsFrom(t, w, 9);
      assert t[8] != w[0];
      assert !ContainsFrom(t, w, 8);
      assert t[7] != w[0];
      assert !ContainsFrom(t, w, 7);
      assert t[6] != w[0];
      assert !ContainsFrom(t, w, 6);
      assert t[5] != w[0];
      assert !ContainsFrom(t, w, 5);
      assert t[5] != w[1];
      assert !PrefixAt(t, w, 4, 1);
      assert !ContainsFrom(t, w, 4);
      assert t[3] != w[0];
      assert !ContainsFrom(t, w, 3);
      assert t[2] != w[0];
      assert !ContainsFrom(t, w, 2);
      assert t[1] != w[0];
      assert !ContainsFrom(t, w, 1);
      assert t[0] != w[0];
      assert !ContainsFrom(t, w, 0);
      ContainsByWalk(t, w);
    }
  }

  lemma DirecteurDeSiteNotBtp(t: string)
    requires t == "directeur de site"
    ensures forall k :: k in BtpKeywords ==> !Contains(t, k)
  {
    DirecteurDeSiteChars(t);
    assert !Contains(t, "conducteur de travaux") by {
      var w := "conducteur de travaux";
      assert !ContainsFrom(t, w, 0);
      ContainsByWalk(t, w);
    }
    assert !Contains(t, "chantier") by {
      var w := "chantier";
      assert !ContainsFrom(t, w, 10);
      assert t[9] != w[0];
      assert !ContainsFrom(t, w, 9);
      assert t[8] != w[0];
      assert !ContainsFrom(t, w, 8);
      assert t[7] != w[0];
      assert !ContainsFrom(t, w, 7);
      assert t[6] != w[0];
      assert !ContainsFrom(t, w, 6);
      assert t[5] != w[0];
      assert !ContainsFrom(t, w, 5);
      assert t[5] != w[1];
      assert !PrefixAt(t, w, 4, 1);
      assert !ContainsFrom(t, w, 4);
      assert t[3] != w[0];
      assert !ContainsFrom(t, w, 3);
      assert t[2] != w[0];
      assert !ContainsFrom(t, w, 2);
      assert t[1] != w[0];
      assert !ContainsFrom(t, w, 1);
      assert t[0] != w[0];
      assert !ContainsFrom(t, w, 0);
      ContainsByWalk(t, w);
    }
    assert !Contains(t, "géotechnique") by {
      var w := "géotechnique";
      assert !ContainsFrom(t, w, 6);
      assert t[5] != w[0];
      assert !ContainsFrom(t, w, 5);
      assert t[4] != w[0];
      assert !ContainsFrom(t, w, 4);
      assert t[3] != w[0];
      assert !ContainsFrom(t, w, 3);
      assert t[2] != w[0];
      assert !ContainsFrom(t, w, 2);
      assert t[1] != w[0];
      assert !ContainsFrom(t, w, 1);
      assert t[0] != w[0];
      assert !ContainsFrom(t, w, 0);
      ContainsByWalk(t, w);
    }
    assert !Contains(t, "geotechnique") by {
      var w := "geotechnique";
      assert !ContainsFrom(t, w, 6);
      assert t[5] != w[0];
      assert !ContainsFrom(t, w, 5);
      assert t[4] != w[0];
      assert !ContainsFrom(t, w, 4);
      assert t[3] != w[0];
      assert !ContainsFrom(t, w, 3);
      assert t[2] != w[0];
      assert !ContainsFrom(t, w, 2);
      assert t[1] != w[0];
      assert !ContainsFrom(t, w, 1);
      assert t[0] != w[0];
      assert !ContainsFrom(t, w, 0);
      ContainsByWalk(t, w);
    }
    assert !Contains(t, "ingénieur travaux") by {
      var w := "ingénieur travaux";
      assert !ContainsFrom(t, w, 1);
      assert t[0] != w[0];
      assert !ContainsFrom(t, w, 0);
      ContainsByWalk(t, w);
    }
    assert !Contains(t, "travaux publics") by {
      var w := "travaux publics";
      assert !ContainsFrom(t, w, 3);
      assert t[2] != w[0];
      assert !ContainsFrom(t, w, 2);
      assert t[1] != w[0];
      assert !ContainsFrom(t, w, 1);
      assert t[0] != w[0];
      assert !ContainsFrom(t, w, 0);
      ContainsByWalk(t, w);
    }
    assert !Contains(t, "bâtiment") by {
      var w := "bâtiment";
      assert !ContainsFrom(t, w, 10);
      assert t[9] != w[0];
      assert !ContainsFrom(t, w, 9);
      assert t[8] != w[0];
      assert !ContainsFrom(t, w, 8);
      assert t[7] != w[0];
      assert !ContainsFrom(t, w, 7);
      assert t[6] != w[0];
      assert !ContainsFrom(t, w, 6);
      assert t[5] != w[0];
      assert !ContainsFrom(t, w, 5);
      assert t[4] != w[0];
      assert !ContainsFrom(t, w, 4);
      assert t[3] != w[0];
      assert !ContainsFrom(t, w, 3);
      assert t[2] != w[0];
      assert !ContainsFrom(t, w, 2);
      assert t[1] != w[0];
      assert !ContainsFrom(t, w, 1);
      assert t[0] != w[0];
      assert !ContainsFrom(t, w, 0);
      ContainsByWalk(t, w);
    }
    assert !Contains(t, "batiment") by {
      var w := "batiment";
      assert !ContainsFrom(t, w, 10);
      assert t[9] != w[0];
      assert !ContainsFrom(t, w, 9);
      assert t[8] != w[0];
      assert !ContainsFrom(t, w, 8);
      assert t[7] != w[0];
      assert !ContainsFrom(t, w, 7);
      assert t[6] != w[0];
      assert !ContainsFrom(t, w, 6);
      assert t[5] != w[0];
      assert !ContainsFrom(t, w, 5);
      assert t[4] != w[0];
      assert !ContainsFrom(t, w, 4);
      assert t[3] != w[0];
      assert !ContainsFrom(t, w, 3);
      assert t[2] != w[0];
      assert !ContainsFrom(t, w, 2);
      assert t[1] != w[0];
      assert !ContainsFrom(t, w, 1);
      assert t[0] != w[0];
      assert !ContainsFrom(t, w, 0);
      ContainsByWalk(t, w);
    }
    assert !Contains(t, "scierie") by {
      var w := "scierie";
      assert !ContainsFrom(t, w, 11);
      assert t[10] != w[0];
      assert !ContainsFrom(t, w, 10);
      assert t[9] != w[0];
      assert !ContainsFrom(t, w, 9);
      assert t[8] != w[0];
      assert !ContainsFrom(t, w, 8);
      assert t[7] != w[0];
      assert !ContainsFrom(t, w, 7);
      assert t[6] != w[0];
      assert !ContainsFrom(t, w, 6);
      assert t[5] != w[0];
      assert !ContainsFrom(t, w, 5);
      assert t[4] != w[0];
      assert !ContainsFrom(t, w, 4);
      assert t[3] != w[0];
      assert !ContainsFrom(t, w, 3);
      assert t[2] != w[0];
      assert !ContainsFrom(t, w, 2);
      assert t[1] != w[0];
      assert !ContainsFrom(t, w, 1);
      assert t[0] != w[0];
      assert !ContainsFrom(t, w, 0);
      ContainsByWalk(t, w);
    }
  }

  lemma DirecteurDeSiteNotEnergieTechniquePart1(t: string)
    requires t == "directeur de site"
    ensures forall k :: k in EnergieKeywords[0..9] ==> !Contains(t, k)
  {
    DirecteurDeSiteChars(t);
    assert !Contains(t, "électricien") by {
      var w := "électricien";
      assert !ContainsFrom(t, w, 7);
      assert t[6] != w[0];
      assert !ContainsFrom(t, w, 6);
      assert t[5] != w[0];
      assert !ContainsFrom(t, w, 5);
      assert t[4] != w[0];
      assert !ContainsFrom(t, w, 4);
      assert t[3] != w[0];
      assert !ContainsFrom(t, w, 3);
      assert t[2] != w[0];
      assert !ContainsFrom(t, w, 2);
      assert t[1] != w[0];
      assert !ContainsFrom(t, w, 1);
      assert t[0] != w[0];
      assert !ContainsFrom(t, w, 0);
      ContainsByWalk(t, w);
    }
    assert !Contains(t, "electricien") by {
      var w := "electricien";
      assert !ContainsFrom(t, w, 7);
      assert t[7] != w[1];
      assert !PrefixAt(t, w, 6, 1);
      assert !ContainsFrom(t, w, 6);
      assert t[5] != w[0];
      assert !ContainsFrom(t, w, 5);
      assert t[4] != w[0];
      assert !ContainsFrom(t, w, 4);
      assert t[4] != w[1];
      assert !PrefixAt(t, w, 3, 1);
      assert !ContainsFrom(t, w, 3);
      assert t[2] != w[0];
      assert !ContainsFrom(t, w, 2);
      assert t[1] != w[0];
      assert !ContainsFrom(t, w, 1);
      assert t[0] != w[0];
      assert !ContainsFrom(t, w, 0);
      ContainsByWalk(t, w);
    }
    assert !Contains(t, "électricité") by {
      var w := "électricité";
      assert !ContainsFrom(t, w, 7);
      assert t[6] != w[0];
      assert !ContainsFrom(t, w, 6);
      assert t[5] != w[0];
      assert !ContainsFrom(t, w, 5);
      assert t[4] != w[0];
      assert !ContainsFrom(t, w, 4);
      assert t[3] != w[0];
      assert !ContainsFrom(t, w, 3);
      assert t[2] != w[0];
      assert !ContainsFrom(t, w, 2);
      assert t[1] != w[0];
      assert !ContainsFrom(t, w, 1);
      assert t[0] != w[0];
      assert !ContainsFrom(t, w, 0);
      ContainsByWalk(t, w);
    }
    assert !Contains(t, "electricite") by {
      var w := "electricite";
      assert !ContainsFrom(t, w, 7);
      assert t[7] != w[1];
      assert !PrefixAt(t, w, 6, 1);
      assert !ContainsFrom(t, w, 6);
      assert t[5] != w[0];
      assert !ContainsFrom(t, w, 5);
      assert t[4] != w[0];
      assert !ContainsFrom(t, w, 4);
      assert t[4] != w[1];
      assert !PrefixAt(t, w, 3, 1);
      assert !ContainsFrom(t, w, 3);
      assert t[2] != w[0];
      assert !ContainsFrom(t, w, 2);
      assert t[1] != w[0];
      assert !ContainsFrom(t, w, 1);
      assert t[0] != w[0];
      assert !ContainsFrom(t, w, 0);
      ContainsByWalk(t, w);
    }
    assert !Contains(t, "électrique") by {
      var w := "électrique";
      assert !ContainsFrom(t, w, 8);
      assert t[7] != w[0];
      assert !ContainsFrom(t, w, 7);
      assert t[6] != w[0];
      assert !ContainsFrom(t, w, 6);
      assert t[5] != w[0];
      assert !ContainsFrom(t, w, 5);
      assert t[4] != w[0];
      assert !ContainsFrom(t, w, 4);
      assert t[3] != w[0];
      assert !ContainsFrom(t, w, 3);
      assert t[2] != w[0];
      assert !ContainsFrom(t, w, 2);
      assert t[1] != w[0];
      assert !ContainsFrom(t, w, 1);
      assert t[0] != w[0];
      assert !ContainsFrom(t, w, 0);
      ContainsByWalk(t, w);
    }
    assert !Contains(t, "electric") by {
      var w := "electric";
      assert !ContainsFrom(t, w, 10);
      assert t[9] != w[0];
      assert !ContainsFrom(t, w, 9);
      assert t[8] != w[0];
      assert !ContainsFrom(t, w, 8);
      assert t[7] != w[0];
      assert !ContainsFrom(t, w, 7);
      assert t[7] != w[1];
      assert !PrefixAt(t, w, 6, 1);
      assert !ContainsFrom(t, w, 6);
      assert t[5] != w[0];
      assert !ContainsFrom(t, w, 5);
      assert t[4] != w[0];
      assert !ContainsFrom(t, w, 4);
      assert t[4] != w[1];
      assert !PrefixAt(t, w, 3, 1);
      assert !ContainsFrom(t, w, 3);
      assert t[2] != w[0];
      assert !ContainsFrom(t, w, 2);
      assert t[1] != w[0];
      assert !ContainsFrom(t, w, 1);
      assert t[0] != w[0];
      assert !ContainsFrom(t, w, 0);
      ContainsByWalk(t, w);
    }
    assert !Contains(t, "énergie") by {
      var w := "énergie";
      assert !ContainsFrom(t, w, 11);
      assert t[10] != w[0];
      assert !ContainsFrom(t, w, 10);
      assert t[9] != w[0];
      assert !ContainsFrom(t, w, 9);
      assert t[8] != w[0];
      assert !ContainsFrom(t, w, 8);
      assert t[7] != w[0];
      assert !ContainsFrom(t, w, 7);
      assert t[6] != w[0];
      assert !ContainsFrom(t, w, 6);
      assert t[5] != w[0];
      assert !ContainsFrom(t, w, 5);
      assert t[4] != w[0];
      assert !ContainsFrom(t, w, 4);
      assert t[3] != w[0];
      assert !ContainsFrom(t, w, 3);
      assert t[2] != w[0];
      assert !ContainsFrom(t, w, 2);
      assert t[1] != w[0];
      assert !ContainsFrom(t, w, 1);
      assert t[0] != w[0];
      assert !ContainsFrom(t, w, 0);
      ContainsByWalk(t, w);
    }
    assert !Contains(t, "energie") by {
      var w := "energie";
      assert !ContainsFrom(t, w, 11);
      assert t[10] != w[0];
      assert !ContainsFrom(t, w, 10);
      assert t[9] != w[0];
      assert !ContainsFrom(t, w, 9);
      assert t[8] != w[0];
      assert !ContainsFrom(t, w, 8);
      assert t[7] != w[0];
      assert !ContainsFrom(t, w, 7);
      assert t[7] != w[1];
      assert !PrefixAt(t, w, 6, 1);
      assert !ContainsFrom(t, w, 6);
      assert t[5] != w[0];
      assert !ContainsFrom(t, w, 5);
      assert t[4] != w[0];
      assert !ContainsFrom(t, w, 4);
      assert t[4] != w[1];
      assert !PrefixAt(t, w, 3, 1);
      assert !ContainsFrom(t, w, 3);
      assert t[2] != w[0];
      assert !ContainsFrom(t, w, 2);
      assert t[1] != w[0];
      assert !ContainsFrom(t, w, 1);
      assert t[0] != w[0];
      assert !ContainsFrom(t, w, 0);
      ContainsByWalk(t, w);
    }
    assert !Contains(t, "technicien") by {
      var w := "technicien";
      assert !ContainsFrom(t, w, 8);
      assert t[7] != w[0];
      assert !ContainsFrom(t, w, 7);
      assert t[6] != w[0];
      assert !ContainsFrom(t, w, 6);
      assert t[7] != w[2];
      assert !PrefixAt(t, w, 5, 2);
      assert !PrefixAt(t, w, 5, 1);
      assert !ContainsFrom(t, w, 5);
      assert t[4] != w[0];
      assert !ContainsFrom(t, w, 4);
      assert t[3] != w[0];
      assert !ContainsFrom(t, w, 3);
      assert t[2] != w[0];
      assert !ContainsFrom(t, w, 2);
      assert t[1] != w[0];
      assert !ContainsFrom(t, w, 1);
      assert t[0] != w[0];
      assert !ContainsFrom(t, w, 0);
      ContainsByWalk(t, w);
    }
  }

  lemma DirecteurDeSiteNotEnergieTechniquePart2(t: string)
    requires t == "directeur de site"
    ensures forall k :: k in EnergieKeywords[9..10] ==> !Contains(t, k)
  {
    DirecteurDeSiteChars(t);
    assert !Contains(t, "maintenance") by {
      var w := "maintenance";
      assert !ContainsFrom(t, w, 7);
      assert t[6] != w[0];
      assert !ContainsFrom(t, w, 6);
      assert t[5] != w[0];
      assert !ContainsFrom(t, w, 5);
      assert t[4] != w[0];
      assert !ContainsFrom(t, w, 4);
      assert t[3] != w[0];
      assert !ContainsFrom(t, w, 3);
      assert t[2] != w[0];
      assert !ContainsFrom(t, w, 2);
      assert t[1] != w[0];
      assert !ContainsFrom(t, w, 1);
      assert t[0] != w[0];
      assert !ContainsFrom(t, w, 0);
      ContainsByWalk(t, w);
    }
  }

  lemma DirecteurDeSiteNotEnergieTechnique(t: string)
    requires t == "directeur de site"
    ensures forall k :: k in EnergieKeywords ==> !Contains(t, k)
  {
    DirecteurDeSiteNotEnergieTechniquePart1(t);
    DirecteurDeSiteNotEnergieTechniquePart2(t);
    assert EnergieKeywords == EnergieKeywords[0..9] + EnergieKeywords[9..10];
  }

  lemma DirecteurDeSiteNotQualiteQhse(t: string)
    requires t == "directeur de site"
    ensures forall k :: k in QualiteKeywords ==> !Contains(t, k)
  {
    DirecteurDeSiteChars(t);
    assert !Contains(t, "qhse") by {
      var w := "qhse";
      assert !ContainsFrom(t, w, 14);
      assert t[13] != w[0];
      assert !ContainsFrom(t, w, 13);
      assert t[12] != w[0];
      assert !ContainsFrom(t, w, 12);
      assert t[11] != w[0];
      assert !ContainsFrom(t, w, 11);
      assert t[10] != w[0];
      assert !ContainsFrom(t, w, 10);
      assert t[9] != w[0];
      assert !ContainsFrom(t, w, 9);
      assert t[8] != w[0];
      assert !ContainsFrom(t, w, 8);
      assert t[7] != w[0];
      assert !ContainsFrom(t, w, 7);
      assert t[6] != w[0];
      assert !ContainsFrom(t, w, 6);
      assert t[5] != w[0];
      assert !ContainsFrom(t, w, 5);
      assert t[4] != w[0];
      assert !ContainsFrom(t, w, 4);
      assert t[3] != w[0];
      assert !ContainsFrom(t, w, 3);
      assert t[2] != w[0];
      assert !ContainsFrom(t, w, 2);
      assert t[1] != w[0];
      assert !ContainsFrom(t, w, 1);
      assert t[0] != w[0];
      assert !ContainsFrom(t, w, 0);
      ContainsByWalk(t, w);
    }
    assert !Contains(t, "qse") by {
      var w := "qse";
      assert !ContainsFrom(t, w, 15);
      assert t[14] != w[0];
      assert !ContainsFrom(t, w, 14);
      assert t[13] != w[0];
      assert !ContainsFrom(t, w, 13);
      assert t[12] != w[0];
      assert !ContainsFrom(t, w, 12);
      assert t[11] != w[0];
      assert !ContainsFrom(t, w, 11);
      assert t[10] != w[0];
      assert !ContainsFrom(t, w, 10);
      assert t[9] != w[0];
      assert !ContainsFrom(t, w, 9);
      assert t[8] != w[0];
      assert !ContainsFrom(t, w, 8);
      assert t[7] != w[0];
      assert !ContainsFrom(t, w, 7);
      assert t[6] != w[0];
      assert !ContainsFrom(t, w, 6);
      assert t[5] != w[0];
      assert !ContainsFrom(t, w, 5);
      assert t[4] != w[0];
      assert !ContainsFrom(t, w, 4);
      assert t[3] != w[0];
      assert !ContainsFrom(t, w, 3);
      assert t[2] != w[0];
      assert !ContainsFrom(t, w, 2);
      assert t[1] != w[0];
      assert !ContainsFrom(t, w, 1);
      assert t[0] != w[0];
      assert !ContainsFrom(t, w, 0);
      ContainsByWalk(t, w);
    }
    assert !Contains(t, "qualité") by {
      var w := "qualité";
      assert !ContainsFrom(t, w, 11);
      assert t[10] != w[0];
      assert !ContainsFrom(t, w, 10);
      assert t[9] != w[0];
      assert !ContainsFrom(t, w, 9);
      assert t[8] != w[0];
      assert !ContainsFrom(t, w, 8);
      assert t[7] != w[0];
      assert !ContainsFrom(t, w, 7);
      assert t[6] != w[0];
      assert !ContainsFrom(t, w, 6);
      assert t[5] != w[0];
      assert !ContainsFrom(t, w, 5);
      assert t[4] != w[0];
      assert !ContainsFrom(t, w, 4);
      assert t[3] != w[0];
      assert !ContainsFrom(t, w, 3);
      assert t[2] != w[0];
      assert !ContainsFrom(t, w, 2);
      assert t[1] != w[0];
      assert !ContainsFrom(t, w, 1);
      assert t[0] != w[0];
      assert !ContainsFrom(t, w, 0);
      ContainsByWalk(t, w);
    }
    assert !Contains(t, "qualite") by {
      var w := "qualite";
      assert !ContainsFrom(t, w, 11);
      assert t[10] != w[0];
      assert !ContainsFrom(t, w, 10);
      assert t[9] != w[0];
      assert !ContainsFrom(t, w, 9);
      assert t[8] != w[0];
      assert !ContainsFrom(t, w, 8);
      assert t[7] != w[0];
      assert !ContainsFrom(t, w, 7);
      assert t[6] != w[0];
      assert !ContainsFrom(t, w, 6);
      assert t[5] != w[0];
      assert !ContainsFrom(t, w, 5);
      assert t[4] != w[0];
      assert !ContainsFrom(t, w, 4);
      assert t[3] != w[0];
      assert !ContainsFrom(t, w, 3);
      assert t[2] != w[0];
      assert !ContainsFrom(t, w, 2);
      assert t[1] != w[0];
      assert !ContainsFrom(t, w, 1);
      assert t[0] != w[0];
      assert !ContainsFrom(t, w, 0);
      ContainsByWalk(t, w);
    }
    assert !Contains(t, "sécurité") by {
      var w := "sécurité";
      assert !ContainsFrom(t, w, 10);
      assert t[9] != w[0];
      assert !ContainsFrom(t, w, 9);
      assert t[8] != w[0];
      assert !ContainsFrom(t, w, 8);
      assert t[7] != w[0];
      assert !ContainsFrom(t, w, 7);
      assert t[6] != w[0];
      assert !ContainsFrom(t, w, 6);
      assert t[5] != w[0];
      assert !ContainsFrom(t, w, 5);
      assert t[4] != w[0];
      assert !ContainsFrom(t, w, 4);
      assert t[3] != w[0];
      assert !ContainsFrom(t, w, 3);
      assert t[2] != w[0];
      assert !ContainsFrom(t, w, 2);
      assert t[1] != w[0];
      assert !ContainsFrom(t, w, 1);
      assert t[0] != w[0];
      assert !ContainsFrom(t, w, 0);
      ContainsByWalk(t, w);
    }
    assert !Contains(t, "securite") by {
      var w := "securite";
      assert !ContainsFrom(t, w, 10);
      assert t[9] != w[0];
      assert !ContainsFrom(t, w, 9);
      assert t[8] != w[0];
      assert !ContainsFrom(t, w, 8);
      assert t[7] != w[0];
      assert !ContainsFrom(t, w, 7);
      assert t[6] != w[0];
      assert !ContainsFrom(t, w, 6);
      assert t[5] != w[0];
      assert !ContainsFrom(t, w, 5);
      assert t[4] != w[0];
      assert !ContainsFrom(t, w, 4);
      assert t[3] != w[0];
      assert !ContainsFrom(t, w, 3);
      assert t[2] != w[0];
      assert !ContainsFrom(t, w, 2);
      assert t[1] != w[0];
      assert !ContainsFrom(t, w, 1);
      assert t[0] != w[0];
      assert !ContainsFrom(t, w, 0);
      ContainsByWalk(t, w);
    }
    assert !Contains(t, "hse") by {
      var w := "hse";
      assert !ContainsFrom(t, w, 15);
      assert t[14] != w[0];
      assert !ContainsFrom(t, w, 14);
      assert t[13] != w[0];
      assert !ContainsFrom(t, w, 13);
      assert t[12] != w[0];
      assert !ContainsFrom(t, w, 12);
      assert t[11] != w[0];
      assert !ContainsFrom(t, w, 11);
      assert t[10] != w[0];
      assert !ContainsFrom(t, w, 10);
      assert t[9] != w[0];
      assert !ContainsFrom(t, w, 9);
      assert t[8] != w[0];
      assert !ContainsFrom(t, w, 8);
      assert t[7] != w[0];
      assert !ContainsFrom(t, w, 7);
      assert t[6] != w[0];
      assert !ContainsFrom(t, w, 6);
      assert t[5] != w[0];
      assert !ContainsFrom(t, w, 5);
      assert t[4] != w[0];
      assert !ContainsFrom(t, w, 4);
      assert t[3] != w[0];
      assert !ContainsFrom(t, w, 3);
      assert t[2] != w[0];
      assert !ContainsFrom(t, w, 2);
      assert t[1] != w[0];
      assert !ContainsFrom(t, w, 1);
      assert t[0] != w[0];
      assert !ContainsFrom(t, w, 0);
      ContainsByWalk(t, w);
    }
  }

  lemma DirecteurDeSiteNotFinanceAssurance(t: string)
    requires t == "directeur de site"
    ensures forall k :: k in FinanceKeywords ==> !Contains(t, k)
  {
    DirecteurDeSiteChars(t);
    assert !Contains(t, "actuaire") by {
      var w := "actuaire";
      assert !ContainsFrom(t, w, 10);
      assert t[9] != w[0];
      assert !ContainsFrom(t, w, 9);
      assert t[8] != w[0];
      assert !ContainsFrom(t, w, 8);
      assert t[7] != w[0];
      assert !ContainsFrom(t, w, 7);
      assert t[6] != w[0];
      assert !ContainsFrom(t, w, 6);
      assert t[5] != w[0];
      assert !ContainsFrom(t, w, 5);
      assert t[4] != w[0];
      assert !ContainsFrom(t, w, 4);
      assert t[3] != w[0];
      assert !ContainsFrom(t, w, 3);
      assert t[2] != w[0];
      assert !ContainsFrom(t, w, 2);
      assert t[1] != w[0];
      assert !ContainsFrom(t, w, 1);
      assert t[0] != w[0];
      assert !ContainsFrom(t, w, 0);
      ContainsByWalk(t, w);
    }
    assert !Contains(t, "risques") by {
      var w := "risques";
      assert !ContainsFrom(t, w, 11);
      assert t[10] != w[0];
      assert !ContainsFrom(t, w, 10);
      assert t[9] != w[0];
      assert !ContainsFrom(t, w, 9);
      assert t[9] != w[1];
      assert !PrefixAt(t, w, 8, 1);
      assert !ContainsFrom(t, w, 8);
      assert t[7] != w[0];
      assert !ContainsFrom(t, w, 7);
      assert t[6] != w[0];
      assert !ContainsFrom(t, w, 6);
      assert t[5] != w[0];
      assert !ContainsFrom(t, w, 5);
      assert t[4] != w[0];
      assert !ContainsFrom(t, w, 4);
      assert t[3] != w[0];
      assert !ContainsFrom(t, w, 3);
      assert t[3] != w[1];
      assert !PrefixAt(t, w, 2, 1);
      assert !ContainsFrom(t, w, 2);
      assert t[1] != w[0];
      assert !ContainsFrom(t, w, 1);
      assert t[0] != w[0];
      assert !ContainsFrom(t, w, 0);
      ContainsByWalk(t, w);
    }
    assert !Contains(t, "assurances") by {
      var w := "assurances";
      assert !ContainsFrom(t, w, 8);
      assert t[7] != w[0];
      assert !ContainsFrom(t, w, 7);
      assert t[6] != w[0];
      assert !ContainsFrom(t, w, 6);
      assert t[5] != w[0];
      assert !ContainsFrom(t, w, 5);
      assert t[4] != w[0];
      assert !ContainsFrom(t, w, 4);
      assert t[3] != w[0];
      assert !ContainsFrom(t, w, 3);
      assert t[2] != w[0];
      assert !ContainsFrom(t, w, 2);
      assert t[1] != w[0];
      assert !ContainsFrom(t, w, 1);
      assert t[0] != w[0];
      assert !ContainsFrom(t, w, 0);
      ContainsByWalk(t, w);
    }
    assert !Contains(t, "assurance") by {
      var w := "assurance";
      assert !ContainsFrom(t, w, 9);
      assert t[8] != w[0];
      assert !ContainsFrom(t, w, 8);
      assert t[7] != w[0];
      assert !ContainsFrom(t, w, 7);
      assert t[6] != w[0];
      assert !ContainsFrom(t, w, 6);
      assert t[5] != w[0];
      assert !ContainsFrom(t, w, 5);
      assert t[4] != w[0];
      assert !ContainsFrom(t, w, 4);
      assert t[3] != w[0];
      assert !ContainsFrom(t, w, 3);
      assert t[2] != w[0];
      assert !ContainsFrom(t, w, 2);
      assert t[1] != w[0];
      assert !ContainsFrom(t, w, 1);
      assert t[0] != w[0];
      assert !ContainsFrom(t, w, 0);
      ContainsByWalk(t, w);
    }
    assert !Contains(t, "comptable") by {
      var w := "comptable";
      assert !ContainsFrom(t, w, 9);
      assert t[8] != w[0];
      assert !ContainsFrom(t, w, 8);
      assert t[7] != w[0];
      assert !ContainsFrom(t, w, 7);
      assert t[6] != w[0];
      assert !ContainsFrom(t, w, 6);
      assert t[5] != w[0];
      assert !ContainsFrom(t, w, 5);
      assert t[5] != w[1];
      assert !PrefixAt(t, w, 4, 1);
      assert !ContainsFrom(t, w, 4);
      assert t[3] != w[0];
      assert !ContainsFrom(t, w, 3);
      assert t[2] != w[0];
      assert !ContainsFrom(t, w, 2);
      assert t[1] != w[0];
      assert !ContainsFrom(t, w, 1);
      assert t[0] != w[0];
      assert !ContainsFrom(t, w, 0);
      ContainsByWalk(t, w);
    }
    assert !Contains(t, "comptabilité") by {
      var w := "comptabilité";
      assert !ContainsFrom(t, w, 6);
      assert t[5] != w[0];
      assert !ContainsFrom(t, w, 5);
      assert t[5] != w[1];
      assert !PrefixAt(t, w, 4, 1);
      assert !ContainsFrom(t, w, 4);
      assert t[3] != w[0];
      assert !ContainsFrom(t, w, 3);
      assert t[2] != w[0];
      assert !ContainsFrom(t, w, 2);
      assert t[1] != w[0];
      assert !ContainsFrom(t, w, 1);
      assert t[0] != w[0];
      assert !ContainsFrom(t, w, 0);
      ContainsByWalk(t, w);
    }
    assert !Contains(t, "audit") by {
      var w := "audit";
      assert !ContainsFrom(t, w, 13);
      assert t[12] != w[0];
      assert !ContainsFrom(t, w, 12);
      assert t[11] != w[0];
      assert !ContainsFrom(t, w, 11);
      assert t[10] != w[0];
      assert !ContainsFrom(t, w, 10);
      assert t[9] != w[0];
      assert !ContainsFrom(t, w, 9);
      assert t[8] != w[0];
      assert !ContainsFrom(t, w, 8);
      assert t[7] != w[0];
      assert !ContainsFrom(t, w, 7);
      assert t[6] != w[0];
      assert !ContainsFrom(t, w, 6);
      assert t[5] != w[0];
      assert !ContainsFrom(t, w, 5);
      assert t[4] != w[0];
      assert !ContainsFrom(t, w, 4);
      assert t[3] != w[0];
      assert !ContainsFrom(t, w, 3);
      assert t[2] != w[0];
      assert !ContainsFrom(t, w, 2);
      assert t[1] != w[0];
      assert !ContainsFrom(t, w, 1);
      assert t[0] != w[0];
      assert !ContainsFrom(t, w, 0);
      ContainsByWalk(t, w);
    }
    assert !Contains(t, "contrôle de gestion") by {
      var w := "contrôle de gestion";
      assert !ContainsFrom(t, w, 0);
      ContainsByWalk(t, w);
    }
    assert !Contains(t, "controle de gestion") by {
      var w := "controle de gestion";
      assert !ContainsFrom(t, w, 0);
      ContainsByWalk(t, w);
    }
  }

  lemma DirecteurDeSiteFiresInformatique(t: string)
    requires t == "directeur de site"
    ensures Contains(t, "it")
  {
    DirecteurDeSiteChars(t);
      var w := "it";
      assert PrefixAt(t, w, 14, 1);
      assert ContainsFrom(t, w, 14);
      assert ContainsFrom(t, w, 13);
      assert ContainsFrom(t, w, 12);
      assert ContainsFrom(t, w, 11);
      assert ContainsFrom(t, w, 10);
      assert ContainsFrom(t, w, 9);
      assert ContainsFrom(t, w, 8);
      assert ContainsFrom(t, w, 7);
      assert ContainsFrom(t, w, 6);
      assert ContainsFrom(t, w, 5);
      assert ContainsFrom(t, w, 4);
      assert ContainsFrom(t, w, 3);
      assert ContainsFrom(t, w, 2);
      assert ContainsFrom(t, w, 1);
      assert ContainsFrom(t, w, 0);
      ContainsByWalk(t, w);
  }

  /** Keywords match inside words: the Informatique keyword "it" occurs in "site", so "directeur de site" is Informatique and not Management. */
  lemma DirecteurDeSiteExample(titre: string)
    requires Lower(titre) == "directeur de site"
    ensures ExtraireDomaine(titre) == "Informatique"
  {
    var t := Lower(titre);
    RulesTable();
    DirecteurDeSiteNotRestauration(t);
    DirecteurDeSiteNotLogistique(t);
    DirecteurDeSiteNotBtp(t);
    DirecteurDeSiteNotEnergieTechnique(t);
    DirecteurDeSiteNotQualiteQhse(t);
    DirecteurDeSiteNotFinanceAssurance(t);
    forall j | 0 <= j < 6
      ensures !Fires(t, Rules[j])
    {
      if j == 0 { } else if j == 1 { } else if j == 2 { } else if j == 3 { } else if j == 4 { } else { assert j == 5; }
    }
    DirecteurDeSiteFiresInformatique(t);
    assert "it" in InformatiqueKeywords;
    FirstFiringRuleWins(titre, 6);
  }

}
