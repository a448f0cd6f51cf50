# Job-offer enrichment pipeline — Dafny model

This project models the row-level logic of a small pipeline that scrapes job
offers, cleans them, tags each with a business domain, scores them, and shows
them on a dashboard. It covers three stages.

- **Cleaning** (`prepare_data.py`):
  - whitespace normalisation of the text columns;
  - sentinels for missing titles, companies and dates;
  - the split of `"Ville - 75"` into `Ville_propre` and `Departement`;
  - the contract token `Contrat_propre`;
  - the domain tagger `extraire_domaine`;
  - the concatenated `texte_complet`.
- **Scoring** (`classification.py`):
  - the classifier text `nettoyer_texte`;
  - the "very much sought-after job" label (`metier_tres_demande`, the 0.8
    quantile of per-title counts);
  - the salary heuristic `estimer_salaire` and its `pd.cut` bands;
  - the popularity score with its min–max normalisation.
- **Dashboard** (`app_dash.py`): the three dropdown option lists, the
  `high_only` check box, and the row filter `apply_filters`.

Every pandas column operation becomes a pure function on one row, and a table
is a `seq` of rows. A missing cell (NaN) is `Option.None`. The classifier's
predictions and the cluster numbers come from library numerics, so they
arrive as inputs.

Two choices follow the code directly.

- The missing-contract token is "NON_SPECIFIE", as
  `src/etl/prepare_data.py:69-73` writes it.
- The demand label is the 0.8 quantile of the per-title row counts, as
  `src/ml/classification.py:51-58` computes it.

The city column is the one place where the model departs from the code as
written; see "## Findings".

Modules, one per source component plus shared utilities:

| module | contents |
|---|---|
| `Wrappers` | `Option` |
| `Text` | Python whitespace, `strip`, `\s+` collapsing, `lower`/`upper`, substring search, `str.replace`, decimal digits, code-point string order |
| `Seqs` | counting, filtering (boolean indexing), sorting, `sorted(unique())` |
| `Domain` | `extraire_domaine` and its rule table |
| `DomainExamples` | concrete titles through the tagger |
| `PrepareData` | the cleaning of a row and of the table |
| `Classification` | the scoring of a row and of the table |
| `SalaryExamples` | a concrete title through the salary heuristic |
| `Dashboard` | dropdown options and the row filter |

## Model

| member | source | states |
|---|---|---|
| Text.CleanSpaces | src/etl/prepare_data.py:30-35 | The cleaned cell is the input's words (maximal whitespace-free runs) joined by single spaces. So it has no whitespace at either end, every space sits between non-spaces, the non-whitespace characters are kept in order, and it is never longer than the input. |
| Text.WordsOfJoin | src/etl/prepare_data.py:34 | Joining words by single spaces and splitting again gives back the same words, so the cleaned cell determines its words. |
| Text.CleanSpacesIdempotent | src/etl/prepare_data.py:30-35 | Cleaning a cleaned cell changes nothing. |
| Text.CleanSpacesNoNewline | src/etl/prepare_data.py:34 | A cleaned cell holds no line break. So the location pattern's `.` and `$` need no special case for newlines. |
| PrepareData.CellText | src/etl/prepare_data.py:28-35 | `astype(str)` then the whitespace cleaning. A missing cell becomes the text "nan". A present cell becomes its words (maximal whitespace-free runs) joined by single spaces. |
| PrepareData.CellTextIdempotent | src/etl/prepare_data.py:28-35 | Re-cleaning a cleaned cell changes nothing. |
| PrepareData.CleanField | src/etl/prepare_data.py:45-56 | The result is the sentinel exactly when the cleaned cell is "", "nan", "NaN" or the sentinel itself. Otherwise it is the cleaned cell. It is never a missing mark, and a missing cell gives the sentinel. |
| PrepareData.CleanFieldKeeps | src/etl/prepare_data.py:48 | A cell whose cleaned text is not a missing mark keeps that text unchanged. |
| PrepareData.CleanFieldIdempotent | src/etl/prepare_data.py:45-56 | Cleaning a cleaned field again with the same sentinel changes nothing. |
| PrepareData.TitreSentinelValid | src/etl/prepare_data.py:47-48 | "Non spécifié" is trimmed, collapsed and not itself a missing mark. |
| PrepareData.EntrepriseSentinelValid | src/etl/prepare_data.py:54-55 | "Entreprise non communiquée" is trimmed, collapsed and not a missing mark. |
| PrepareData.DateSentinelValid | src/etl/prepare_data.py:79-80 | "Date inconnue" is trimmed, collapsed and not a missing mark. |
| PrepareData.DeptTailIff | src/etl/prepare_data.py:59 | The executable test agrees with the pattern `\s*-\s*\d+$`. The test strips the final digit run and checks that the rest strips to a lone dash. |
| PrepareData.FirstSplit | src/etl/prepare_data.py:59 | Returns the first position at or after `start` where a department tail begins, and no earlier one exists. |
| PrepareData.FirstSplitSpec | src/etl/prepare_data.py:59 | The search stops exactly where the lazy `(.+?)` stops: the shortest non-empty name followed by a department tail. |
| PrepareData.SplitLocation | src/etl/prepare_data.py:59-64 | On a match, `Ville_propre` is the stripped shortest name and `Departement` is the value of the final digit run. With no match, the whole text is kept, stripped, with department 0. A cleaned non-empty text never gives an empty city. |
| PrepareData.LocationSplitDigits | src/etl/prepare_data.py:59-61 | `name + " - " + digits` splits back into the stripped name and the digits' decimal value. |
| PrepareData.LocationRoundTrip | src/etl/prepare_data.py:59-61 | `name + " - " + str(n)` gives back the stripped name and `n`. |
| PrepareData.LocationLeadingZero | src/etl/prepare_data.py:61 | A zero-padded department such as "01" reads as 1. |
| PrepareData.NoDashNoDepartement | src/etl/prepare_data.py:60-64 | A text without a dash keeps its whole stripped text as the city, with department 0. |
| PrepareData.MissingCityAsWritten | src/etl/prepare_data.py:59-60 | As written, a missing city yields `Ville_propre` = "nan". |
| PrepareData.BlankCityAsWritten | src/etl/prepare_data.py:30-62 | As written, a whitespace-only city cleans to "" and yields `Ville_propre` = "" with department 0; the corrected city gives "Non spécifié". |
| PrepareData.CleanVille | src/etl/prepare_data.py:59-64 | Corrected city: a missing mark gives "Non spécifié" with department 0, anything else is split. The city is never empty. |
| PrepareData.MissingCityCorrected | src/etl/prepare_data.py:60 | A missing city yields "Non spécifié" and department 0. |
| PrepareData.NormalizeContrat | src/etl/prepare_data.py:67-74 | With u the upper-cased text with its plain spaces removed: the token is "NON_SPECIFIE" exactly when u is "", "NAN", "NONE" or "NON_SPECIFIE", and otherwise it is u itself. Hence it is non-empty, upper case, free of spaces and never "", "NAN" or "NONE"; it holds no whitespace at all when the input was cleaned. |
| PrepareData.DeleteSpacesIsFilter | src/etl/prepare_data.py:72 | `str.replace(" ", "")` keeps exactly the characters other than the plain space, in order. |
| PrepareData.NormalizeContratIdempotent | src/etl/prepare_data.py:67-74 | Normalising a token again changes nothing. |
| PrepareData.NormalizeContratIgnoresCase | src/etl/prepare_data.py:71 | The input's case does not matter. |
| PrepareData.MissingContratBecomesSentinel | src/etl/prepare_data.py:69-73 | A missing contract reads "nan", hence "NAN", hence "NON_SPECIFIE". |
| PrepareData.ContratCdd | src/etl/prepare_data.py:71-72 | "cdd" becomes "CDD". |
| PrepareData.ContratNone | src/etl/prepare_data.py:73 | "None" becomes "NON_SPECIFIE". |
| PrepareData.TexteComplet | src/etl/prepare_data.py:167-173 | After the final strip, the text has no whitespace at either end. Its non-whitespace characters are those of the five fields, in field order. |
| PrepareData.TexteCompletJoins | src/etl/prepare_data.py:167-173 | When the first and last fields are non-empty and trimmed, the text is exactly the five fields joined by single spaces. |
| PrepareData.PrepareRow | src/etl/prepare_data.py:28-173 | Each column is its defining step applied to the raw cell: `Titre`, `Entreprise` and `Date` by the sentinel cleaning, `Ville` and `Contrat` by the whitespace cleaning, `Contrat_propre` by the contract normalisation of the cleaned text, and `Ville_propre`/`Departement` by the corrected city split, which agrees with the code as written whenever the cleaned city is not "", "nan" or "NaN". The row satisfies every column invariant, including `Domaine_metier = extraire_domaine(Titre)` and the joined `texte_complet`. Each missing cell gets its column's sentinel. |
| PrepareData.PrepareRowIdempotent | src/etl/prepare_data.py:28-81 | Cleaning the saved cleaned row again gives the same row. |
| PrepareData.PrepareTable | src/etl/prepare_data.py:40 | One cleaned row per input row, in order: no row is dropped. |
| PrepareData.PrepareTableClean | src/etl/prepare_data.py:159 | Every row of the cleaned table satisfies the column invariants (with the corrected city, so no row has an empty or "nan" `Ville_propre`). |
| Domain.FirstMatch | src/etl/prepare_data.py:99-151 | Returns the index of a rule with a keyword in the title, and no earlier rule has one. |
| Domain.ExtraireDomaine | src/etl/prepare_data.py:91-154 | The tag is one of the 11 tags. It is "Autre" exactly when no rule fires. Otherwise it is the tag of the earliest rule with a keyword inside the lower-cased title. |
| Domain.RulesTable | src/etl/prepare_data.py:99-151 | The rule table, rule by rule, in the source's order. |
| Domain.FirstFiringRuleWins | src/etl/prepare_data.py:99-151 | A rule that fires, with no earlier rule firing, decides the tag. |
| Domain.CaseInsensitive | src/etl/prepare_data.py:96 | Tagging a title and its lower-case form agree. |
| DomainExamples.MagasinierExample | src/etl/prepare_data.py:103-104 | "magasinier" is Logistique, though it is also a Commerce keyword. |
| DomainExamples.DirecteurDeMagasinExample | src/etl/prepare_data.py:131-136 | "directeur de magasin" is Commerce, not Management. |
| DomainExamples.ChefDeProjetUpperExample | src/etl/prepare_data.py:146-151 | "Chef de Projet" is Management. |
| DomainExamples.DeveloppeurPythonUpperExample | src/etl/prepare_data.py:123-128 | "Développeur Python" is Informatique. |
| DomainExamples.StagiaireMarketingUpperExample | src/etl/prepare_data.py:153-154 | "Stagiaire Marketing" fires no rule and is "Autre". |
| DomainExamples.DirecteurDeSiteExample | src/etl/prepare_data.py:123-128 | "directeur de site" is Informatique: the keyword "it" matches inside "site". |
| Classification.NettoyerTexte | src/ml/classification.py:31-40 | The text is lower case and never longer than the input. It never contains "h/f", since the later replacements only insert spaces. |
| Classification.NettoyerTexteIgnoresCase | src/ml/classification.py:32 | Scrubbing ignores the input's case. |
| Classification.NettoyerTexteOnePattern | src/ml/classification.py:32-40 | A lower-cased text holding one occurrence of one pattern, no earlier pattern, and no later pattern once that occurrence is a space, becomes the text with that occurrence replaced by a single space. |
| Classification.NettoyerTexteNoBoilerplate | src/ml/classification.py:33-39 | A text holding none of the eleven patterns is only lower-cased. |
| Classification.ReplaceEachKeepsAbsent | src/ml/classification.py:38-39 | A space-free text absent before the replacements is absent after them. |
| Classification.Quantile | src/ml/classification.py:54 | The linear-interpolation quantile: with lo the floor of the position `(n - 1) * num / den` and h/den its fractional part, the quantile is the value at lo when h = 0, and otherwise satisfies `q * den = v[lo] * (den - h) + v[lo + 1] * h`. It lies between the extreme values; values up to lo are at most it and values after lo are at least it. |
| Classification.LerpScaled | src/ml/classification.py:54 | Interpolating a fraction h/den between a and b, scaled by den, is `a * (den - h) + b * h`. |
| Classification.QuantileOnIndex | src/ml/classification.py:54 | When the position is a whole number, the quantile is the value there. |
| Classification.SortedTitleCounts | src/ml/classification.py:51 | `value_counts()` sorted: one entry per distinct title, in increasing order, and each count c occurs exactly as many times as there are titles with c rows. Each entry is some title's count and every title's count is present; it is empty exactly for an empty table. |
| Classification.CountsOfMultiplicity | src/ml/classification.py:51 | Over distinct titles, a count occurs in the list of counts once per title having it. |
| Classification.Seuil | src/ml/classification.py:54 | The threshold is NaN exactly for an empty table. Otherwise it is the 4/5 quantile of the sorted per-title counts, at least 1, and reached by some title's count. |
| Classification.MetierTresDemande | src/ml/classification.py:56-58 | The label is 0 or 1. It is 1 exactly when the title's count reaches the threshold, and only titles of the table get 1. |
| Classification.MostFrequentIsDemanded | src/ml/classification.py:54-58 | The most frequent title is labelled 1. |
| Classification.DemandMonotone | src/ml/classification.py:56-58 | The label never decreases as the count grows. |
| Classification.UniformCountsAllDemanded | src/ml/classification.py:54-58 | When all titles have the same count, all are labelled 1. |
| Classification.TopFifthDemanded | src/ml/classification.py:54-58 | Against the sorted counts around the quantile position lo: a count reaching the value after lo is labelled 1, a count below the value at lo is labelled 0, and when the position is a whole number the label is 1 exactly when the count reaches the value at lo. |
| Classification.ContractPoints | src/ml/classification.py:100-104 | 20 exactly when "CDI" occurs. 10 exactly when "CDD" occurs without "CDI". 0 otherwise. Never both bonuses. |
| Classification.DomainPoints | src/ml/classification.py:106-114 | Informatique 25, Santé 15, Industrie 10, Commerce 5, and 0 for every other domain. |
| Classification.TitlePoints | src/ml/classification.py:116-122 | The title groups add up to −10..35. The only negative value is −10. |
| Classification.TitlePointsTable | src/ml/classification.py:116-122 | For each of the eight combinations of leadership, expertise and junior keywords in the lower-cased title, the points are +20, +15 and −10 summed over the groups present. |
| Classification.RawSalaryScore | src/ml/classification.py:98-122 | The unclamped score lies in 40..130. |
| Classification.EstimerSalaire | src/ml/classification.py:97-124 | The raw score clamped to 100: it equals the raw score when that is at most 100 and is 100 otherwise, so it lies in 40..100. |
| Classification.SalaryFloor | src/ml/classification.py:97-124 | The score is 40 exactly for a contract with neither bonus, a domain without points, and a title with a junior keyword and no other. |
| Classification.SalaryCeiling | src/ml/classification.py:101-124 | A permanent Informatique job with a leadership title scores 100. |
| Classification.SalaryDomainsReachable | src/ml/classification.py:107-114 | On tagged rows the domain bonus is 0, 5 or 25. The Santé and Industrie branches are dead. |
| Classification.SalaryIgnoresCase | src/ml/classification.py:100-116 | The score ignores the case of the contract and of the title. |
| Classification.PermanentNeverLower | src/ml/classification.py:101-104 | With all else equal, a "CDI" contract never scores lower. |
| SalaryExamples.ManagerSeniorTitlePoints | src/ml/classification.py:116-122 | "manager senior" collects +20 and +15, so +35. |
| SalaryExamples.ManagerSeniorSalary | src/ml/classification.py:97-124 | With a permanent contract and no domain points, "manager senior" has raw score 105 and is clamped to 100. |
| Classification.NiveauSalaire | src/ml/classification.py:128-132 | A band exists exactly for scores in (0, 100]. The score lies in its band's right-closed interval. |
| Classification.NiveauOfInterval | src/ml/classification.py:128-132 | Any score inside a band's interval gets that band. |
| Classification.NiveauEdges | src/ml/classification.py:130-131 | 40, 60 and 80 fall in Bas, Moyen and Bon. 41, 61 and 81 fall in the next band up. 0 and 101 get no band. |
| Classification.NiveauMonotone | src/ml/classification.py:128-132 | A higher score never gets a lower band. |
| Classification.SalaryHasBand | src/ml/classification.py:126-132 | Every salary score gets a band, and Bas only at 40. |
| Classification.DomainPopularity | src/ml/classification.py:147-161 | A domain in the table gets its table value; any other domain gets 5. Points lie in 5..30. |
| Classification.DomainPopularityTable | src/ml/classification.py:147-161 | The bonus of each of the thirteen named domains: Informatique 30, Santé 25, Commerce 15, Logistique 10, Administration 10, Industrie 15, Restauration 5, Autre 5, BTP 15, Énergie / Technique 20, Finance / Assurance 20, Management 15, Qualité / QHSE 10. |
| Classification.TagsHavePopularity | src/ml/classification.py:147-161 | Every tag the tagger produces has its own table entry. |
| Classification.RawPopularity | src/ml/classification.py:144-162 | The raw score is the title's share of the rows in percent, plus 30 times the prediction, plus the domain bonus: scaled by the row count, `r * total = 100 * count + (30 * pred + points) * total`. It lies in 5..160 for a 0/1 prediction. |
| Classification.RawPopularityParts | src/ml/classification.py:144-162 | A predicted sought-after job adds exactly 30 to the raw score, and the domain bonus adds exactly its points. |
| Classification.RawPopularityMono | src/ml/classification.py:145 | The raw score grows with the title's count. |
| Classification.TitleCounts | src/ml/classification.py:145 | `transform("count")`: each row's title count lies between 1 and the table size. |
| Classification.Normalize | src/ml/classification.py:164-167 | The same length. Every value is NaN exactly when min = max; otherwise each value is `(x - min) / (max - min) * 100` and lies in 0..100. |
| Classification.RescaleFacts | src/ml/classification.py:164-167 | The rescale maps min to 0 and max to 100, keeps the range in 0..100, and preserves order both ways. |
| Classification.NormalizeOrder | src/ml/classification.py:164-167 | When max ≠ min, normalisation preserves order both ways. The minimum row gets 0 and the maximum row gets 100. |
| Classification.Popularite | src/ml/classification.py:144-167 | One popularity per row, the min–max normalisation of the raw scores: every value is NaN exactly when all raw scores are equal; otherwise the row with the least raw score gets 0, the row with the greatest gets 100, and each lies within 0..100. |
| Classification.MoreFrequentMorePopular | src/ml/classification.py:144-167 | Of two rows with the same prediction and domain, the more frequent title is at least as popular. |
| Classification.ScoreRow | src/ml/classification.py:42-132 | A scored row keeps its cleaned row, cluster and prediction. Its `texte_ml` is `nettoyer_texte(texte_complet)`, its label is the title's label against the whole table, its salary is `estimer_salaire` of the row's contract, domain and title, and its band is that salary's band; so the text is lower case, the label 0/1 and the salary in 40..100 with a band. |
| Classification.Score | src/ml/classification.py:42-167 | One scored row per input row, each scored against the whole table's titles. |
| Classification.ScoreKeepsRows | src/ml/classification.py:42-167 | Scoring keeps every row in order, with its cluster and prediction. |
| Classification.ScoreSameTitleSameLabel | src/ml/classification.py:56-58 | Rows with equal titles get equal labels. |
| Classification.ScorePopularityBounds | src/ml/classification.py:164-167 | A scored row's popularity lies within 0..100 unless NaN. |
| Dashboard.TextChoices | src/dashboard/app_dash.py:13-14 | Options are strictly increasing in code-point order, each shown as its own value. They are exactly the distinct present values: nulls are left out and nothing is missed. |
| Dashboard.TextChoicesDistinct | src/dashboard/app_dash.py:13-14 | No value is offered twice. |
| Dashboard.VillesOptions | src/dashboard/app_dash.py:13 | Every present city once, sorted, and nothing that is not a row's city. |
| Dashboard.ContratsOptions | src/dashboard/app_dash.py:14 | Every present contract token once, sorted, and nothing else. |
| Dashboard.ClusterValues | src/dashboard/app_dash.py:15 | The cluster numbers in strictly increasing order, each one some row's, and every row's included. |
| Dashboard.ClustersOptions | src/dashboard/app_dash.py:15 | Options are strictly increasing. Each label is the decimal text of its value and parses back to it. A cluster is offered exactly when some row belongs to it. |
| Dashboard.ApplyFiltersIsAccepts | src/dashboard/app_dash.py:290-300 | The four successive filters equal one filter by "passes every active filter". |
| Dashboard.ApplyFiltersSubseq | src/dashboard/app_dash.py:290-300 | The result is a subsequence of the input: order kept, nothing added or repeated. |
| Dashboard.ApplyFiltersExact | src/dashboard/app_dash.py:292-299 | A row is returned exactly when it is an input row that passes every filter that is on. This covers both soundness and completeness. |
| Dashboard.NoFilterKeepsAll | src/dashboard/app_dash.py:291-300 | With every list empty or None and `high_only` false, the table comes back unchanged. |
| Dashboard.AllAcceptedKeepsAll | src/dashboard/app_dash.py:290-300 | A table whose rows all pass comes back unchanged. |
| Dashboard.ApplyFiltersIdempotent | src/dashboard/app_dash.py:290-300 | Filtering the filtered table with the same widgets changes nothing. |
| Dashboard.HighOnly | src/dashboard/app_dash.py:314 | True exactly when 1 is in the check-box value. None counts as empty. |
| Dashboard.FilteredRows | src/dashboard/app_dash.py:313-315 | A row reaches the charts exactly when it is a table row passing the three dropdowns and, with the box ticked, predicted sought-after. |

## Left out

- The TF-IDF vectoriser, `train_test_split`, the logistic regression and its metrics (`classification.py:64-89`) are library numerics. `pred_tres_demande` is an input column of `Classification.Score`, one value per row.
- The k-means clustering: `src/ml/clustering.py` is not part of this model. `cluster_metier` is an input column.
- CSV reading and writing, path set-up and every `print`, including the statistics and the top-10 table (`prepare_data.py:179-195`, `classification.py:134-136`, `173-200`). The NA parsing `read_csv` applies to the saved "nan" texts is also left out.
- Classification.Popularite: `.round(1)` after the raw score and after normalisation is omitted. Values are exact `real`s, not floats.
- Classification.Seuil: the quantile uses the exact fraction 4/5 instead of the float 0.8. The quantile position is exact, with no rounding error.
- Text.Lower: case mapping covers ASCII, the Latin-1 letters, Œ/œ and Ÿ/ÿ only. Python's full Unicode mapping, including characters whose case-mapped form has more than one character, is not modelled.
- Text.Upper: same limited mapping as Text.Lower. Python maps "ß" to "SS" and "µ" to "Μ"; here both stay unchanged.
- PrepareData.SplitLocation: `\d` is the ASCII digits only, where Python also accepts other Unicode decimal digits. `Departement` is an unbounded `nat` rather than an `int64`, so a digit run beyond 2^63 does not overflow here. Nor is the float64 step modelled: `pd.to_numeric(..., errors="coerce")` (line 61) gives a float column whenever some row lacks a department, and `.astype(int)` (line 64) then rounds digit runs beyond 2^53; here they stay exact.
- The dashboard reads the prediction from a column named `pred_high_demand`, while the scoring stage writes `pred_tres_demande` (`app_dash.py:299` against `classification.py:89`). The model treats both as the one field `DashRow.highDemand`. As written, the dashboard would fail with a missing-column error.
- Dash layout, styling, callbacks' figure building and Plotly charts (`app_dash.py:17-287`, `317-375`) are not modelled.
- The Selenium scrapers and HTML extraction (`scrape_hellowork.py`, `scraper_hellowork.py`, `extract_html.py`, `test_selenium.py`) and the ad-hoc reader `test_csv.py` are not modelled.
- PrepareData.PrepareRow: uses the corrected city (`PrepareData.CleanVille`). As written, the code gives "nan" for a missing city and "" for a whitespace-only one (`PrepareData.MissingCityAsWritten`, `PrepareData.BlankCityAsWritten`). `PrepareData.PrepareRow` states that it agrees with `PrepareData.VilleAsWritten` whenever the cleaned city is not a missing mark.

## Findings

| source | as written | input that shows it | evidently intended | confidence | as-written member | corrected member |
|---|---|---|---|---|---|---|
| src/etl/prepare_data.py:60 | `.fillna("Non spécifié")` runs on a column that `astype(str)` (line 32) has already filled with the text "nan". So a missing city is never replaced and `Ville_propre` becomes "nan". | a row whose `Ville` cell is empty (NaN), or holds only whitespace (gives "") | "Non spécifié" with department 0, like the sentinels of the other text columns | not executed; high — the same dead `fillna` is rescued by `.replace(["", "nan", "NaN"], …)` for Titre, Entreprise and Date, but not for Ville | PrepareData.MissingCityAsWritten, PrepareData.BlankCityAsWritten | PrepareData.MissingCityCorrected |

The corrected city (`PrepareData.CleanVille`) treats "", "nan" and "NaN" the
way the other text columns do. `PrepareData.PrepareRow` uses it. The as-written
behaviour stays available as `PrepareData.VilleAsWritten`.
