# Video-game sales dashboard: the data layer, in Dafny

The dashboard trains a random-forest regressor on a table of video games and
shows its diagnostics and per-category comparisons of actual and predicted
sales (`Copies_per_year`). Between the pandas/scikit-learn calls and the Tk
windows sits a small layer of plain data handling, and that layer is what
this project models and proves things about:

- **Category code tables** (`all_mapping`): genre and theme names to codes
  (genres 11..17, themes 0..9) and back, as two hand-written literals.
- **Dataset encoder** (`encoding_mapping`): overwrites the Price, Genre and
  Theme columns of the loaded table, in place, with integer codes; an unknown
  label becomes a missing value.
- **Diagnostics**: the importance share of the first three columns, the best
  and worst columns of the window 3..29, residuals, and the clamped value
  range ("variance").
- **Drill-downs** (`model_by_genre`, `model_by_theme`): keep the rows of one
  category, fit a mini-model on them, and report, per code of the other
  category, mean actual and mean predicted sales, or (0, 0) for an empty bucket.

Files, one module each: `wrappers.dfy` (Option, Result), `category_codes.dfy`,
`encoding.dfy`, `stats.dfy` (sums, means, minima and maxima of real columns),
`diagnostics.dfy`, `drill_down.dfy`.

Modelling choices:

- Sales, importances and percentages are Dafny `real`. A float64 division by
  zero, which gives nan or inf, is the value `NonFinite`.
- The trained forest never appears. Its importances, the scaled test targets
  and its predictions are parameters. The drill-downs' mini-model training is
  a parameter `fit` from the training inputs and targets to a predictor.
- The encoded table the drill-downs read is a `seq<Row>`. A row holds the
  genre and theme codes (`None` where encoding left NaN), the other features
  and the target. The loaded table the encoder rewrites is a class
  `GameFrame`. Its column fields are reassigned in place, and the method
  returns the same object.
- Exceptions the source lets escape become `Err` results. Three cases occur:
  indexing past the end of the columns (an IndexError when there are fewer
  than 3 or fewer than 30 feature columns), and fitting a mini-model on an
  empty selection (scikit-learn refuses zero samples). The empty selection
  covers an unknown name too: `all_mapping` returns `None`, and comparing a
  column with `None` selects no row.

Unknown labels and codes are not errors: `all_mapping` returns `None` and the
encoder writes NaN, and the model does the same. The two code tables are
independent literals; the model keeps both and proves them consistent
(`ForwardThenBackward`, `BackwardThenForward`, `TableSizes`).

## Model

| member | source | states |
|---|---|---|
| `CategoryCodes.AllMapping` | data_getters.py:142-146 | an integer key yields a name, any other key yields a code; a missing key yields `None` |
| `CategoryCodes.ForwardThenBackward` | data_getters.py:134-140 | every name of the forward table maps to a code that the backward table maps back to that name |
| `CategoryCodes.BackwardThenForward` | data_getters.py:134-140 | every code of the backward table maps to a name that the forward table maps back to that code |
| `CategoryCodes.TableSizes` | data_getters.py:134-140 | both literals have exactly 17 entries (no duplicate keys) |
| `CategoryCodes.CodeSpace` | data_getters.py:138-146 | a code decodes exactly when it is a genre code 11..17 or a theme code 0..9; 10 gives `None` |
| `CategoryCodes.AllMappingRoundTrip` | data_getters.py:142-146 | name to code and code to name through `all_mapping` undo each other, in both directions |
| `CategoryCodes.NamesByAxis` | data_getters.py:134-136 | genre names encode to genre codes, theme names to theme codes |
| `Encoding.EncodeCell` | model.py:10-14 | an encoded cell is never text; it is a number exactly when the raw cell is a label the table lists, and that number is the code the table gives that label; anything else becomes a missing value |
| `Encoding.MapColumn` | model.py:10 | the encoded column has one cell per raw cell |
| `Encoding.EncodingMapping` | model.py:7-15 | the same table object is returned; Price, Genre and Theme are replaced by their encodings; row count and all other columns are unchanged |
| `Encoding.EncodedCellMeaning` | model.py:10-14 | in an encoded column, a cell is a number exactly when the raw cell is a label the table knows, that number is the table's code for that label, and every other cell becomes missing |
| `Encoding.EncodeCellInjective` | model.py:9-14 | with an injective table, two cells that encode to the same code held the same label |
| `Encoding.PriceOrder` | model.py:9-10 | the price brackets map to 0..5 in their listed order: order-preserving, injective, onto 0..5 |
| `Encoding.EncodedPriceOrder` | model.py:9-10 | in the encoded Price column, a row holding an earlier bracket gets a smaller code than a row holding a later one |
| `Encoding.GenreCodeRange` | model.py:11-12 | the genre labels map injectively onto 11..17 |
| `Encoding.ThemeCodeRange` | model.py:13-14 | the theme labels map injectively onto 0..10 |
| `Encoding.PartyGamesTwoCodes` | model.py:11-13 | `PG` is 17 as a genre and 10 as a theme; `all_mapping` names 17 but has no entry for 10 |
| `Encoding.EncodedCodesHaveNames` | model.py:11-14 | every genre code the encoder writes has a name in `all_mapping`, and so does every theme code except the 10 of `PG` |
| `Diagnostics.PercentOf` | data_getters.py:24 | the share is finite exactly when the total is non-zero, and then share × total = part × 100 |
| `Diagnostics.GetFeatureImport` | data_getters.py:14-26 | fails exactly when there are fewer than 3 columns; otherwise returns 3 pairs, columns 0, 1, 2 in order, each with its importance as a percentage of the sum over all columns |
| `Diagnostics.BreakdownBounds` | data_getters.py:14-26 | with non-negative importances and a positive sum, each share is finite and in [0, 100], and the three shares add up to at most 100 |
| `Diagnostics.NormalisedBreakdown` | data_getters.py:24 | when the importances sum to 1, a share is the importance × 100 |
| `Diagnostics.KeptIndices` | data_getters.py:31-33 | every collected index lies in the window and passes the cut |
| `Diagnostics.KeptIndicesExact` | data_getters.py:31-33 | every passing index of the window is collected, and the indices are strictly ascending (column order, no repeats) |
| `Diagnostics.RankedColumns` | data_getters.py:29-42 | fails exactly when there are fewer than 30 importances; otherwise returns the names of the passing window columns, in column order |
| `Diagnostics.GetBestFeatures` | data_getters.py:29-34 | the window 3..29 columns with importance > 0.03, in column order; IndexError below 30 columns |
| `Diagnostics.GetWorstFeatures` | data_getters.py:37-42 | the window 3..29 columns with importance < 0.01, in column order; IndexError below 30 columns |
| `Diagnostics.BestWorstDisjoint` | data_getters.py:29-42 | the best and worst index lists are disjoint, and so are their name lists when column names are distinct |
| `Diagnostics.Residuals` | data_getters.py:60-63 | there is one residual per test value, and prediction + residual = test value at every index |
| `Diagnostics.ResidualsVanishIff` | data_getters.py:60-63 | all residuals are zero exactly when the predictions equal the test values |
| `Diagnostics.ClampedMax` | data_getters.py:72-77 | the upper bound is ≥ 0, bounds every value, and is 0 or one of the values (that is, max(0, max s)) |
| `Diagnostics.ClampedMin` | data_getters.py:71-75 | the lower bound is ≤ 0, is below every value, and is 0 or one of the values (that is, min(0, min s)) |
| `Diagnostics.GetVariance` | data_getters.py:70-79 | returns max(0, max test) − min(0, min test); the result is ≥ 0 and at least every pairwise difference |
| `Diagnostics.VarianceOfZeros` | data_getters.py:70-79 | an empty or all-zero test vector has range 0 |
| `Diagnostics.VarianceVersusTrueRange` | data_getters.py:70-79 | the clamped range is at least max − min, and equals it when the values straddle 0 |
| `DrillDown.Select` | data_getters.py:84 | the selection is no longer than the table |
| `DrillDown.SelectCounts` | data_getters.py:84 | the selection holds each matching row as many times as the table does, and no other row |
| `DrillDown.SelectMembership` | data_getters.py:84 | a row is selected exactly when it is in the table and its category equals the selected code |
| `DrillDown.GroupBy` | data_getters.py:92-102 | one line per code lo..hi−1 in ascending order, each summarising the rows with that code |
| `DrillDown.FilterAndGroup` | data_getters.py:82-129 | fails exactly when the primary selection is empty; otherwise hi − lo lines, each summarising a bucket of the selection under the mini-model fitted on that selection |
| `DrillDown.ModelByGenre` | data_getters.py:82-104 | exactly 10 lines keyed by theme codes 0..9 in ascending order (10 never appears); fails exactly when no row has the genre |
| `DrillDown.ModelByTheme` | data_getters.py:107-129 | exactly 6 lines keyed by genre codes 11..16 in ascending order (17 is excluded); fails exactly when no row has the theme |
| `DrillDown.Summary` | data_getters.py:94-99 | a summary line carries its bucket's code; an empty bucket reports (0, 0); otherwise the actual and predicted figures are the bucket's mean target and mean prediction (figure × bucket size = sum) |
| `DrillDown.SelectedCode` | data_getters.py:83 | a name yields a code exactly when the forward table lists it, and `all_mapping` maps that code back to the same name |
| `DrillDown.SummaryMeaning` | data_getters.py:94-99 | an empty bucket reports (0, 0); otherwise the means lie between the bucket's least and greatest actual (and predicted) values, and are ≥ 0 when all targets are |
| `DrillDown.WrongNameSelectsNothing` | data_getters.py:83-84 | an unknown name selects no row; so does a theme name given to the genre drill-down, and the other way round, when every cell holds a code the encoder writes |

## Left out

- The presentation layer (main.py): windows, buttons, charts, scrolling. The script that installs packages calls pip.
- Loading the CSV, the train/test split, target scaling and training the main forest (model.py:17-35). These are pandas and scikit-learn calls whose behaviour is not visible here; their outputs are parameters.
- `get_mse`, `get_r2` and `get_explained_var` (data_getters.py:45-57) wrap scikit-learn metrics. `get_y_pred` (data_getters.py:66-67) only returns the prediction vector it is given.
- The module-level globals built by `initialize_model` (data_getters.py:8-11). Tables, importances, test values and predictions are explicit parameters instead.
- IEEE floating point: rounding, and nan or inf beyond the one division by zero in the importance shares.
- DrillDown.FilterAndGroup: the mini-model is a deterministic function of its training rows, but the source's unseeded forest can predict differently on each call. No property here depends on which predictor comes out.
- DrillDown.ModelByGenre: it returns the grouped lines as a sequence of records, not a pandas frame with a reset index.
- Diagnostics.GetFeatureImport: it sums the importances by position. `get_loc` on duplicate column names, which returns a mask rather than a position, is not modelled.
- Diagnostics.Residuals: it requires the two vectors to have the same length. numpy broadcasting of a length-1 vector is not modelled; the two vectors always come from the same test rows.
- Encoding.EncodeCell: any number or missing cell becomes missing. `astype(str)` renders such cells as numerals or `nan`, and no table key has that form.
- Encoding.GameFrame: the frame's column order is not represented; the columns other than Price, Genre and Theme are a map from name to column.
