# Bio-OS risk aggregation engine — a Dafny model

This project models the decision logic of the Bio-OS aquaculture console (Seed-M1).
The console reads telemetry from two operating zones, A and B, and reduces them to
one report payload, which the dashboard and the PDF reports read. The renderers
do not show every field as given: the English report derives its status text from
r_max with `risk_label_en`, the Korean report labels each zone again with
`risk_label_kr`, the dashboard takes the action list from the metrics rather than
from the payload, and every renderer shows at most six evidence lines.

- `common.dfy`, module `Common` (from `common.py`):
  - the Korean and English status classifiers, with cut points 40, 60 and 75;
  - the worse-of-two-zones rule: maximum risk, a culprit zone where A wins ties, summed shocks, and peak exposure and utilisation in percent;
  - the separate expansion-stage ladder;
  - selection of the top three causes and of the front action;
  - assembly of the payload record.
- `app.dfy`, module `App` (from `app.py`):
  - the scenario catalog `load_latest_metrics`, with its fallback to the routine entry;
  - the evidence lines built from zone A's readings;
  - the display labels of the action priorities;
  - the renderers' six-line cap on evidence.

All of it is pure and is modelled as functions and lemmas over datatypes. Scores
and fractions are `real` and are only compared, never rounded. Status, expansion
stage, zone and priority are datatypes. Their display texts come from
`KoreanName`, `EnglishName`, `StageText`, `ZoneName` and `Meaning`.

Each classifier's partner is `CutsReached`, an independent reference definition: it
counts how many cut points the score has reached. Both ladders are proved to have
that count as their rank, so the status and the stage always agree. The payload's
contract restates every field in terms of the inputs. The catalog's contract states
the facts every entry shares.

Two facts about the inputs hold as the code is written:
- The intended domain of a zone's figures (`InDomain`: risk in [0,100], a non-negative shock count, fractions in [0,1]) is not checked by the code, and the model checks nothing either. `PayloadInDomain` shows what follows when the inputs respect it.
- The evidence lines always come from zone A's readings, whichever zone is the culprit (`Evidence`, `CatalogPayload`).

## Model

| member | source | states |
|---|---|---|
| `Common.CutsReached` | common.py:6-10 | the reference band index: it is at most 3, it is 0 exactly below 40, and it is 3 exactly from 75 up |
| `Common.Classify` | common.py:6-10 | the band of a score has the rank given by the number of cut points reached |
| `Common.RiskLabelKr` | common.py:6-10 | the Korean label ladder returns the Korean name of the score's band |
| `Common.RiskLabelEn` | common.py:12-16 | the English label ladder returns the English name of the score's band |
| `Common.ClassifyBands` | common.py:6-10 | every score lies in exactly one of the four half-open bands <40, [40,60), [60,75) and >=75; each lower edge is inclusive |
| `Common.ClassifyMonotone` | common.py:6-10 | if s1 <= s2, the band of s1 is no higher than the band of s2 |
| `Common.NamesInjective` | common.py:6-16 | distinct bands have distinct Korean texts and distinct English texts |
| `Common.LabelsAgree` | common.py:6-16 | two scores get the same Korean label exactly when they get the same English label, and exactly when they are in the same band |
| `Common.ClassifyAtCutPoints` | common.py:6-10 | the bands at 39.99, 40, 59.99, 60, 74.99 and 75 |
| `Common.ExpansionStage` | common.py:49-56 | the descending `>=` stage ladder has the rank given by the number of cut points reached |
| `Common.StageTracksStatus` | common.py:34-56 | the stage of r_max always has the same rank as the status of r_max |
| `Common.StageAtCutPoints` | common.py:49-56 | the stages at 39.99, 40, 59.99, 60, 74.99 and 75 |
| `Common.RMax` | common.py:34 | r_max is at least each zone's risk and equals one of them |
| `Common.Culprit` | common.py:35 | the culprit zone's risk equals r_max; zone B is the culprit only when it is strictly riskier than A |
| `Common.CulpritTieGoesToA` | common.py:35 | when the two risks are equal, the culprit is zone A |
| `Common.PeakPercent` | common.py:46-47 | the result is at least 100 times each fraction and equals 100 times one of them |
| `Common.TopCauses` | common.py:38-41 | an empty list becomes the single cause ("특이 이상 없음", 1.0); otherwise the result is a prefix of the input, of length min(3, n) |
| `Common.Labels` | common.py:65 | the names have the same length as the causes and list their labels, position by position |
| `Common.FrontAction` | common.py:42-43 | p1 is the first action's description, or "운영 조건 점검" when there are no actions |
| `Common.BuildReportPayload` | common.py:32-75 | the payload has r_max = max of the two risks, the culprit with A winning ties, a status and stage of equal rank, the shock sum, and exposure and utilisation as 100 times the larger fraction; it keeps the top-cause prefix with its labels and the p1 rule; meta, timestamp, evidence and both zones pass through unchanged |
| `Common.PayloadStatusText` | common.py:34-36 | the payload status shows as the Korean label of the larger zone risk |
| `Common.PayloadInDomain` | common.py:34-47 | for zones inside their domain, r_max and both percentages lie in [0,100] and the shock total is non-negative |
| `App.Evidence` | app.py:58-63 | there are exactly four evidence lines, and they depend on zone A's readings only |
| `App.LoadLatestMetrics` | app.py:34-65 | for every label: the evidence comes from zone A, there are 3 causes with strictly decreasing weights in [0,1], both zones are in their domain, and A.risk > B.risk; a named scenario selects the row whose top cause is that scenario's own label, with actions P1, P2 and P3 in that order; any other label gives the routine zones, the three routine causes and only P2 and P3 actions |
| `App.CatalogRisks` | app.py:36-53 | the zone risks of each row: 82/34 for oxygen drop, 63/41 for flow drop, 58/46 for filtration load, and 52/44 for every other label |
| `App.UnknownScenarioFallsBack` | app.py:54-56 | any label outside the catalog gives the same metrics as the routine label |
| `App.RoutineHasNoActNowAction` | app.py:54-56 | the routine entry has no P1 action; its first action is P2, and that action becomes the payload's p1 |
| `App.CatalogPayload` | app.py:36-65 | every catalog payload blames zone A, has r_max equal to A's risk, keeps all three catalog causes and their labels in order, and carries four evidence lines from zone A |
| `App.OxygenDropExample` | app.py:39-43 | the oxygen-drop payload: r_max 82, culprit A, Critical status, immediate expansion review, 9 shocks, 48% exposure, 92% utilisation, top cause ("산소량 급락", 0.52) and its P1 action as p1 |
| `App.ParsePriority` | app.py:146 | a known code parses to the priority with that code; a code other than P1, P2 or P3 parses to nothing |
| `App.ParseCodeRoundTrip` | app.py:146 | parsing a priority's code gives back that priority |
| `App.PriorityLabel` | app.py:146 | the codes P1, P2 and P3 show their fixed labels; any other code shows itself |
| `App.CatalogActionLabels` | app.py:145-146 | every catalog action is shown with the fixed label of its priority |
| `App.ShownEvidence` | app.py:138 | a renderer shows exactly the first min(6, n) evidence lines, in order |

## Left out

- The Streamlit interface of `app.py` is not modelled: widgets, CSS, KPI cards, buttons, downloads and the pill CSS class at app.py:147. It is presentation only.
- The PDF renderers (`report_kr.py`, `report_en.py`, `whitepaper.py`) and `charts.py` are not modelled. They are layout over the payload and call foreign libraries. The only renderer fact kept is the six-line evidence cap (`ShownEvidence`).
- `generated_at` and the `DocMeta.rev_date` default read the wall clock. The payload takes the timestamp as the parameter `now`, and `DocMeta` holds opaque strings without their defaults.
- App.Evidence: states only the number of lines and that they depend on zone A. Their text rests on Python's fixed-point formatting (`:.1f`, `:.2f`), which is the caller-supplied `Formatter` parameter.
- Floating-point behaviour is not modelled: rounding, NaN and infinities. Scores and fractions are exact reals. For a NaN r_max the two ladders part ways: every `<` test of `risk_label_kr` fails, giving "위험", while every `>=` test of the stage ladder fails, giving "설비 여유 있음". `StageTracksStatus` holds because reals exclude NaN.
- The shock total is the integer sum of two integer counts, so the `int(...)` cast at common.py:45 changes nothing in the model; a fractional shock count, which the cast would truncate, is not modelled.
- The default argument `scenario="일반"` of `load_latest_metrics` (app.py:34) is not modelled: the model always takes the label explicitly. Passing "일반" gives the same entry.
- Dictionary keys that may be missing are not modelled. Missing `causes`, `actions` or `evidence` keys read as empty lists in the code; in the model these are always-present sequence fields, and an empty sequence plays the missing key. A missing `loop_a` or `loop_b` key raises `KeyError` in the code; in the model they are required fields.
- The payload stores the status, the stage and the culprit as datatypes. The code stores their Korean texts, which the model gives as `KoreanName`, `StageText` and `ZoneName` ("A구역" / "B구역").
- Action priorities in the code are free strings. The model keeps priorities as a closed datatype inside actions. The unknown-code fallback of the label mapping is modelled on code strings (`ParsePriority`, `PriorityLabel`).
- Each catalog `dict.update` overwrites all eight readings of a zone, so the model replaces the whole record.
