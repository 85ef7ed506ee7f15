# Forest-fire prediction form: categorical feature initialisation

This project models the start of the feature-vector builder of a small
forest-fire prediction form (`app.py`). The form deserialises an ordered list
of feature names (the columns the classifier was trained on) and checks that
it is a `list`. It has two constant tables that map month and day
abbreviations to one-hot column names (`month_jan`, `day_fri`, ...). It then
builds the dictionary `user_input`. Starting from an empty dictionary, a loop
over the feature order gives every name that starts with `month_` or `day_` an
entry of 0 and skips every other name. Then the columns of the selected month
and day are activated.

The project has three modules:

- `PyValues` (`python_values.dfy`): the deserialised object as a `PyObject`
  (a `str`, a `list`, a `tuple` or anything else). It also holds the
  `Result` of a step that may stop the script, and the two ways the script
  stops: the feature order is not a list, or one of its elements is not a
  `str`.
- `CategoricalMaps` (`categorical_maps.dfy`): `month_map` and `day_map` as
  constant maps, Python's `startswith`, and the prefix test. The select-box
  choices are the enumerations `Month` and `Day`. They are linked to the map
  keys by a round trip, so a lookup of a selection always succeeds.
- `FeatureInput` (`feature_input.dfy`): the initialisation loop as a method
  with a `while` loop over a local map. `InitColumns` is the reference
  function it is proved against. The module also holds the activation step and
  the gate, loop and activation run in sequence.

The feature order is checked only for being a `list` (app.py:43-45). A
stricter rule is not enforced there: an empty list passes, and so does a list
with duplicate names, for which the loop gives each name one key. A list
holding a non-string also passes the check. The loop then calls `startswith`
on that element, and the model stops the script there with
`ElementNotStr(index)`.

## Model

| member | source | states |
|---|---|---|
| `PyValues.Names` | app.py:72 | the names the loop visits: one per element, in order, each the string held by that element |
| `PyValues.FirstNonString` | app.py:72-73 | the index where the loop stops: every element before it is a `str`, the element there is not, and it is the length when all elements are strings |
| `CategoricalMaps.MonthKey` | app.py:66 | every month selection is a key of `month_map` (the select box offers exactly those keys) |
| `CategoricalMaps.DayKey` | app.py:67 | every day selection is a key of `day_map` |
| `CategoricalMaps.MonthFromKey` | app.py:50-55 | a string denotes a month exactly when it is a key of `month_map`, and that month's key is the string |
| `CategoricalMaps.DayFromKey` | app.py:57-61 | a string denotes a day exactly when it is a key of `day_map`, and that day's key is the string |
| `CategoricalMaps.MonthKeyRoundTrip` | app.py:66 | month to key to month is the identity, so the twelve months and the twelve keys correspond one to one |
| `CategoricalMaps.DayKeyRoundTrip` | app.py:67 | day to key to day is the identity, so the seven days and the seven keys correspond one to one |
| `CategoricalMaps.MonthColumn` | app.py:50-55 | looking up the selected month in `month_map` succeeds and gives `month_` followed by its key, a column that passes the prefix test of line 73 |
| `CategoricalMaps.DayColumn` | app.py:57-61 | looking up the selected day in `day_map` succeeds and gives `day_` followed by its key, a column that passes the prefix test of line 73 |
| `CategoricalMaps.MonthMapValues` | app.py:50-55 | every value of `month_map` is its key prefixed with `month_`, so every value passes the prefix test |
| `CategoricalMaps.MonthMapSize` | app.py:50-55 | `month_map` has exactly 12 entries |
| `CategoricalMaps.DayMapValues` | app.py:57-61 | every value of `day_map` is its key prefixed with `day_`, so every value passes the prefix test |
| `CategoricalMaps.DayMapSize` | app.py:57-61 | `day_map` has exactly 7 entries |
| `CategoricalMaps.ColumnsDistinct` | app.py:50-61 | distinct months encode to distinct columns, and likewise distinct days; no month column starts with `day_` and no day column starts with `month_` |
| `FeatureInput.InitColumns` | app.py:72-74 | after the loop from a dictionary `d`, the keys are those of `d` plus the feature-order names that start with `month_` or `day_`; those names map to 0 and every other key keeps its value from `d` |
| `FeatureInput.InitColumnsIdempotent` | app.py:72-74 | running the loop a second time over the same feature order leaves the dictionary unchanged |
| `FeatureInput.InitColumnsConcat` | app.py:72-74 | looping over one list and then another gives the same dictionary as looping once over their concatenation |
| `FeatureInput.InitColumnsOrderInsensitive` | app.py:72-74 | two feature orders with the same names, in any order and with any repetition, give the same dictionary, so a duplicated name gives a single key |
| `FeatureInput.InitFromEmpty` | app.py:69-74 | from the empty dictionary, every key is a feature-order name, every `month_`/`day_` name is a key, no other name (such as `X` or `temp`) is a key, and every value is 0 |
| `FeatureInput.SelectedColumnPresent` | app.py:72-77 | the selected month's (day's) column is a key of `user_input` after the loop exactly when the feature order declares it |
| `FeatureInput.InitCategoricalColumns` | app.py:69-74 | the loop from an empty dictionary succeeds exactly when every element is a string, and then gives `InitColumns` of the names; otherwise it fails at the first non-string element |
| `FeatureInput.ActivateSelected` | app.py:76-77 | no key is added; the selected month's and day's columns become 1 where they are keys; every other entry keeps its value |
| `FeatureInput.PrepareCategoricalInput` | app.py:43-77 | a non-list feature order is rejected before any column is built. Otherwise the keys are exactly the declared month and day columns. The selected columns are 1 when declared and all others are 0, so at most one month column and at most one day column is 1 |

## Left out

- Page setup, titles, widgets and the error, warning and stop calls
  (app.py:9-12, 26-27, 35, 40-41, 44-45, 66-67): user-interface plumbing. The
  two selections are inputs (`Month`, `Day`), and stopping the script is a
  `Failure` result.
- Loading the classifier, the optional scaler and the feature order with
  `joblib.load`, and the `Path.exists` test (app.py:17-41): file-system
  access and opaque deserialisation. The deserialised feature order is the
  input `loaded: PyObject`.
- Numeric passthrough, alignment of the record to the feature order, float
  coercion, scaling, classifier inference and output formatting: they come
  after line 77 of `app.py`, which ends there. They are not part of this
  model, and coercion is floating-point.
- `FeatureInput.ActivateSelected`: the source ends at the bare `if` of line
  77. The activation is modelled as "set the selected column to 1 only if it
  is already a key", month before day. No property is claimed beyond that
  guarded assignment. The two columns are always distinct, so the order of
  the two assignments does not matter.
- A `str` subclass or a `list` subclass in the feature order is treated as a
  `str` or a `list`, respectively.
- Every element of the feature order that is not a `str` is modelled as
  stopping the loop at app.py:73. In Python, a `bytes` or `bytearray` element
  raises `TypeError` there rather than `AttributeError`, and a string-like
  object that is not a `str` (such as `collections.UserString`) does not stop
  the loop at all: it is tested and may become a key. Neither case is
  distinguished.
- `user_input` is a Python `dict`, which keeps its keys in insertion order
  (the order of first occurrence in the feature order). The model's
  `map<string, int>` does not keep that order; lines 1-77 never use it.
- The `pandas` import (app.py:2) is never used in lines 1-77.
