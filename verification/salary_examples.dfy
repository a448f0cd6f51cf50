/** A concrete title run through the salary heuristic: the leadership and
    expertise keyword groups add up, and no junior keyword occurs. */
module SalaryExamples {
  import opened Text
  import opened Classification

  /** The characters of "manager senior", one by one. */
  lemma ManagerSeniorChars(t: string)
    requires t == "manager senior"
    ensures |t| == 14
    ensures t[0] == 'm'
    ensures t[1] == 'a'
    ensures t[2] == 'n'
    ensures t[3] == 'a'
    ensures t[4] == 'g'
    ensures t[5] == 'e'
    ensures t[6] == 'r'
    ensures t[7] == ' '
    ensures t[8] == 's'
    ensures t[9] == 'e'
    ensures t[10] == 'n'
    ensures t[11] == 'i'
    ensures t[12] == 'o'
    ensures t[13] == 'r'
  {
  }

  lemma ManagerSeniorNotJunior(t: string)
    requires t == "manager senior"
    ensures forall k :: k in JuniorWords ==> !Contains(t, k)
  {
    ManagerSeniorChars(t);
    assert !Contains(t, "junior") by {
      var w := "junior";
      assert !ContainsFrom(t, w, 9);
      assert t[8] != w[0];
      assert !ContainsFrom(t, w, 8);
      assert t[7] != w[0];
      assert !ContainsFrom(t, w, 7);
      assert t[6] != w[0];
      assert !ContainsFrom(t, w, 6);
      assert t[5] != w[0];
      assert !ContainsFrom(t, w, 5);
      assert t[4] != w[0];
      assert !ContainsFrom(t, w, 4);
      assert t[3] != w[0];
      assert !ContainsFrom(t, w, 3);
      assert t[2] != w[0];
      assert !ContainsFrom(t, w, 2);
      assert t[1] != w[0];
      assert !ContainsFrom(t, w, 1);
      assert t[0] != w[0];
      assert !ContainsFrom(t, w, 0);
      ContainsByWalk(t, w);
    }
    assert !Contains(t, "assistant") by {
      var w := "assistant";
      assert !ContainsFrom(t, w, 6);
      assert t[5] != w[0];
      assert !ContainsFrom(t, w, 5);
      assert t[4] != w[0];
      assert !ContainsFrom(t, w, 4);
      assert t[4] != w[1];
      assert !PrefixAt(t, w, 3, 1);
      assert !ContainsFrom(t, w, 3);
      assert t[2] != w[0];
      assert !ContainsFrom(t, w, 2);
      assert t[2] != w[1];
      assert !PrefixAt(t, w, 1, 1);
      assert !ContainsFrom(t, w, 1);
      assert t[0] != w[0];
      assert !ContainsFrom(t, w, 0);
      ContainsByWalk(t, w);
    }
    assert !Contains(t, "stagiaire") by {
      var w := "stagiaire";
      assert !ContainsFrom(t, w, 6);
      assert t[5] != w[0];
      assert !ContainsFrom(t, w, 5);
      assert t[4] != w[0];
      assert !ContainsFrom(t, w, 4);
      assert t[3] != w[0];
      assert !ContainsFrom(t, w, 3);
      assert t[2] != w[0];
      assert !ContainsFrom(t, w, 2);
      assert t[1] != w[0];
      assert !ContainsFrom(t, w, 1);
      assert t[0] != w[0];
      assert !ContainsFrom(t, w, 0);
      ContainsByWalk(t, w);
    }
  }

  lemma ManagerSeniorKeywords(t: string)
    requires t == "manager senior"
    ensures Contains(t, "manager") && Contains(t, "senior")
  {
    ManagerSeniorChars(t);
    assert Contains(t, "manager") by {
      var w := "manager";
      assert PrefixAt(t, w, 0, 6);
      assert PrefixAt(t, w, 0, 5);
      assert PrefixAt(t, w, 0, 4);
      assert PrefixAt(t, w, 0, 3);
      assert PrefixAt(t, w, 0, 2);
      assert PrefixAt(t, w, 0, 1);
      assert ContainsFrom(t, w, 0);
      ContainsByWalk(t, w);
    }
    assert Contains(t, "senior") by {
      var w := "senior";
      assert PrefixAt(t, w, 8, 5);
      assert PrefixAt(t, w, 8, 4);
      assert PrefixAt(t, w, 8, 3);
      assert PrefixAt(t, w, 8, 2);
      assert PrefixAt(t, w, 8, 1);
      assert ContainsFrom(t, w, 8);
      assert ContainsFrom(t, w, 7);
      assert ContainsFrom(t, w, 6);
      assert ContainsFrom(t, w, 5);
      assert ContainsFrom(t, w, 4);
      assert ContainsFrom(t, w, 3);
      assert ContainsFrom(t, w, 2);
      assert ContainsFrom(t, w, 1);
      assert ContainsFrom(t, w, 0);
      ContainsByWalk(t, w);
    }
  }

  /** "manager senior" collects both bonuses: 20 for leadership and 15 for
      expertise, 35 in all. */
  lemma ManagerSeniorTitlePoints(titre: string)
    requires Lower(titre) == "manager senior"
    ensures TitlePoints(titre) == 35
  {
    var t := Lower(titre);
    ManagerSeniorNotJunior(t);
    ManagerSeniorKeywords(t);
    assert "manager" in LeadershipWords && "senior" in ExpertiseWords;
  }

  /** Under a permanent contract, in a domain without points, the title
      alone lifts the score from 70 to the ceiling. */
  lemma ManagerSeniorSalary(contrat: string, domaine: string, titre: string)
    requires Contains(Upper(contrat), "CDI") && DomainPoints(domaine) == 0
    requires Lower(titre) == "manager senior"
    ensures RawSalaryScore(contrat, domaine, titre) == 105
    ensures EstimerSalaire(contrat, domaine, titre) == 100
  {
    ManagerSeniorTitlePoints(titre);
  }
}
