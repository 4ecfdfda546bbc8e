# Quantum-edge fraud screening — a Dafny model of the decision core

The fraud-detection demo scores one card transaction with a lightweight
logistic-regression model (the "edge" tier) and routes it on the resulting
fraud probability: confidently low risk is approved, confidently high risk is
blocked, and everything in between is forwarded to a simulated "Quantum
Service Layer" that always ends in a block. Before scoring, the app builds the
30-column input the model was trained on (`V1`..`V28`, `scaled_amount`,
`scaled_time`) from 30 zeros and writes four slider values (`V17`, `V14`,
`V12`, `V10`) into the columns found by name.

This project models both parts as pure functions and proves their properties:

- `wrappers.dfy` — `Option` and `Result` for Python's raised exceptions.
- `decimal.dfy` — module `Decimal`: the decimal rendering `f'{i}'` used to
  build the names `V1`..`V28`, with its inverse and the round trip.
- `features.dfy` — module `Features`: the column schema, Python's
  `list.index` (first occurrence, `ValueError` when absent), item assignment
  by name (`IndexError` when out of range), and the assembled vector.
- `pipeline.dfy` — module `Pipeline`: the three-way routing, the verdict and
  the trace of tiers visited, and the end-to-end screen with the edge model
  as an opaque function parameter.

The thresholds are the binary64 values of the Python literals, not the
decimal fractions: `0.3` denotes 5404319552844595 / 2^54 (just below 3/10)
and `0.9` denotes 8106479329266893 / 2^53 (just above 9/10). The edge
probability is a float64, so comparing it with these exact values reproduces
the source's `<` and `>` for every probability it can produce. A probability
equal to either threshold is forwarded, as the strict comparisons imply.

## Model

| member | source | states |
|---|---|---|
| Decimal.ParseShow | app.py:29 | `Decimal.Show`, the decimal rendering `f'{i}'` used to build `V<i>`, is inverted by `Decimal.Parse`: reading back the rendering of a number gives the number |
| Decimal.ShowInjective | app.py:29 | two numbers render to the same digits exactly when they are equal |
| Features.FeatureNames | app.py:29 | the schema has exactly 30 column names |
| Features.FeatureNamesDistinct | app.py:29 | no column name occurs twice, so every `index` lookup on the schema is well defined |
| Features.ComponentPosition | app.py:29 | for i in 1..28, `index('V<i>')` is i - 1: the components come first and in numeric order |
| Features.ScaledPositions | app.py:29 | `scaled_amount` is column 28 and `scaled_time` column 29 |
| Features.IndexOf | app.py:30-33 | `list.index` finds nothing exactly when the item is absent, and otherwise the first position holding it |
| Features.SliderPositions | app.py:29-33 | the four slider names land at positions 16, 13, 11 and 9 |
| Features.SetByName | app.py:30 | assignment by name fails with ValueError exactly when the name is missing and with IndexError when its position is past the end; on success it keeps the length, writes the named slot and leaves every other slot unchanged |
| Features.AssembleOverSchema | app.py:28-33 | `Features.AssembleOver`, the four by-name writes in the order V17, V14, V12, V10 starting from 30 zeros: over the app's schema all four writes succeed and the result is 30 zeros with the sliders at slots 16, 13, 11, 9 |
| Features.Assemble | app.py:28-34 | the vector carries the schema names and 30 values; every column holds the slider value if it is a slider column and 0.0 otherwise, so `scaled_amount` and `scaled_time` stay 0.0 |
| Pipeline.RouteOf | app.py:51-59 | every probability takes exactly one branch: approve below the low threshold, block above the high one, forward on the closed band between them |
| Pipeline.Decide | app.py:47-71 | the trace is edge only or edge then quantum; the quantum tier runs, once, exactly when p is within both thresholds inclusive; the verdict is Approved exactly when p is below the low threshold and Blocked otherwise, and every forwarded transaction ends Blocked (the fixed always-block policy of the simulated quantum tier) |
| Pipeline.BlockMonotone | app.py:51-71 | if p yields Blocked and p <= q, then q yields Blocked |
| Pipeline.Screen | app.py:28-71 | the edge model is applied to exactly the assembled vector; the trace is edge only or edge then quantum, with quantum exactly when that score is within both thresholds inclusive; the verdict is Approved exactly when the score is below the low threshold |

## Left out

- Model training (train_model.py): CSV loading, standardisation, the stratified split and logistic-regression fitting are floating-point numerics inside library calls; train_model.py is not part of this model.
- Loading the model artifact with `joblib.load` and stopping the app when the file is missing (app.py:9-13): file I/O.
- `predict_proba` (app.py:47-48): an opaque library call; it is the function parameter `edgeModel` of `Pipeline.Screen`, and its output is a `Probability` in [0, 1].
- The Streamlit page, sidebar sliders and their ranges, the button and the coloured log boxes (app.py:15-24, 35-44, 54, 58, 62, 67, 71): presentation only; the slider ranges constrain inputs but no decision depends on them.
- The `time.sleep` pacing (app.py:45, 63, 68) and the log texts with their percentage formatting: presentation; the tiers visited are kept as the abstract trace `stages`.
- The pandas DataFrame (app.py:34): represented as the pair of name and value sequences in `FeatureVector`.
- Configurable thresholds, a threshold-validation error, a choice of deep-tier policy and a deep-tier timeout are not modelled: app.py hard-codes 0.3 and 0.9, always blocks after escalation and has no timeout.
