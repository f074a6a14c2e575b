# FairPrice Check — the price-fairness rule

FairPrice Check is a one-page property form for Kenyan real estate. When the
analyse button is pressed it compares the listed price with a fixed market
average for the listing's category (45 000 KES for "For Rent", 12 000 000 KES
for everything else), computes the relative deviation
`(price - avg) / avg`, and labels the listing **Underpriced** (deviation
below -20%), **Overpriced** (above +20%) or **Fair** (anything in between,
both edges included). Each verdict is shown in its own alert box.

This project models that rule in Dafny, outside the UI:

- `fairness.dfy` (module `Fairness`): categories, the reference averages,
  the exact deviation, and the decision rule twice — `Classify`, in integer
  arithmetic (`5*price < 4*avg`, `5*price > 6*avg`), and `ClassifyAsWritten`,
  step for step as the handler does it on the category text and a real-valued
  deviation — with a contract stating that both agree, plus thresholds, sign,
  monotonicity and the band edges.
- `display.dfy` (module `Display`): colour name per verdict and the
  colour-name dispatch to an alert box.
- `form.dfy` (module `Form`): the form submission with all of its fields,
  the ranges its widgets enforce, and the handler's result on a submission,
  proved independent of every field except price and category.

The deviation is modelled as an exact rational (`real`), not a float; the
category text is kept as text because the handler accepts any category text
and treats every text other than "For Rent" as a sale; the model does the
same and has no unknown-category error.

## Model

| member | source | states |
|---|---|---|
| Fairness.CategoryOf | app.py:70-73 | only the text "For Rent" selects the rental market; every other text, including ones the selector never offers, is a sale |
| Fairness.ReferenceAverage | app.py:70-73 | the reference average is 45000 for rentals and 12000000 for sales, hence always strictly positive, so the division is safe |
| Fairness.Deviation | app.py:75 | the deviation is the exact quotient: times the average it gives back `price - avg` |
| Fairness.LowerThreshold | app.py:75-77 | the deviation is strictly below -0.20 exactly when `5*price < 4*avg` |
| Fairness.UpperThreshold | app.py:75-82 | the deviation is strictly above 0.20 exactly when `5*price > 6*avg` |
| Fairness.DeviationSign | app.py:75 | the deviation is negative, zero or positive exactly as `price - avg` is |
| Fairness.DeviationMonotone | app.py:75 | for a fixed average, a higher price never has a lower deviation |
| Fairness.Classify | app.py:70-91 | the deviation times the average is `price - avg`; the verdict is Underpriced iff the deviation is below -0.20, Overpriced iff above 0.20, Fair iff within [-0.20, 0.20]; exactly one verdict per input; the deviation is zero iff the price equals the average |
| Fairness.ClassifyAsWritten | app.py:70-91 | the handler step by step: average chosen by comparing the category text with "For Rent", real-valued deviation, `< -0.20` then `> 0.20` then Fair; for every price and every text its verdict and deviation equal those of the integer rule `Classify` on `CategoryOf` of the text |
| Fairness.ClassifyMonotone | app.py:75-91 | for a fixed category, raising the price never moves the verdict down Underpriced < Fair < Overpriced, nor lowers the deviation |
| Fairness.AtAverageIsFair | app.py:75-91 | a price equal to the category average has deviation 0 and is Fair |
| Fairness.RentBoundaries | app.py:77-88 | for rent, 36000 (exactly -20%) and 54000 (exactly +20%) are Fair; 35999 is Underpriced and 54001 Overpriced |
| Fairness.SaleBoundaries | app.py:77-88 | for sale, 9600000 and 14400000 are Fair; 9599999 is Underpriced and 14400001 Overpriced |
| Fairness.Scenarios | app.py:70-91 | rent 45000 is Fair at 0; rent 30000 is Underpriced at -1/3; rent 60000 is Overpriced at 1/3; sale 12000000 is Fair at 0; sale 9000000 is Underpriced at -0.25 |
| Display.ColorName | app.py:77-91 | the colour name is "info" exactly for Underpriced, "error" exactly for Overpriced and "warning" exactly for Fair |
| Display.AlertFor | app.py:97-102 | the dispatch gives an info box exactly for "info", an error box exactly for "error", and a warning box for every other colour name |
| Display.DisplayClass | app.py:77-102 | Underpriced is shown as info, Overpriced as error, Fair as warning, and each box belongs to exactly one verdict |
| Display.DisplayClassRoundTrip | app.py:79-102 | the verdict can be read back from its alert box |
| Display.DisplayClassOnto | app.py:79-102 | every alert box is the one of some verdict |
| Display.AlertOfPrice | app.py:75-102 | for a classified price the box is info below -20%, error above +20%, warning within the band |
| Form.InWidgetRange | app.py:43-57 | the widget ranges (counts 0..10, price at least 1000, fixed option lists); a submission inside them has a positive price, and its category falls to sale exactly when it is "For Sale" |
| Form.Analyze | app.py:43-91 | for a submission the widgets can produce, the result is the classification of its price in its category, and the deviation stays above -1 because the price is at least 1000 |
| Form.AnalyzeIgnoresOtherFields | app.py:43-91 | two submissions with equal price and category text get the same verdict and deviation |
| Form.AnalyzeAfterEdit | app.py:43-91 | changing bedrooms, bathrooms, toilets, parking, the furnished/serviced/shared choices, property type, state or locality leaves the result unchanged |

## Left out

- All page rendering (title, markdown, columns, widgets, metrics, footer): it has no decision logic. The widget ranges appear only as the precondition `Form.InWidgetRange`.
- Enforcement of the widget ranges (price at least 1000, counts 0..10): it is done by the UI library, which is not part of this model.
- IEEE-754 floating point: the model's `deviation` is the exact quotient `(price - avg) / avg`, while the program's is a rounded double (the deviation metric at app.py:113 shows that rounded value). For very large prices (around 6.4e15 KES for a sale; the price input has no upper bound) neighbouring prices can round to the same deviation, but a verdict can only change near ±0.2, where consecutive prices differ in deviation by at least 1/12000000 against a double spacing of about 2.8e-17, and the four band-edge quotients (for example (36000-45000)/45000) are exactly ±1/5 and round to the same doubles as the literals ±0.20. So the float comparisons give the same verdicts as the exact ones.
- Display formatting of the price, the average and the deviation percentage (app.py:109-113): presentation only.
- The emoji and message text per verdict (app.py:79-90): each verdict selects one fixed text; only the alert-box choice is modelled.
- The 0/1 encodings of the furnished, serviced and shared choices (app.py:65-67): they are computed but never read; the model keeps the raw choices in `Listing` and proves the result does not depend on them.
- The machine-learning classifiers, training data and per-location medians described in the page text (app.py:21-33, 116-124): no code for them exists, so there is nothing to model.
