# Car price prediction: feature row and table cleaning, in Dafny

This project models two pieces of a used-car price predictor written in Python
with pandas and Streamlit, and proves properties of them.

- **The inference-time feature row** (`predict_price` in `07_app.py`). The app
  persists the ordered list of training columns next to the trained regressor
  (the *schema*). For one car it builds a one-row table over that schema, all
  zeros. It then writes the mileage into `kms_driven` and the car's age
  (reference year minus manufacturing year) into `car_age`. For each of the four
  categorical fields it sets the column `"<field>_<value>"` to 1, but only when
  the table already has that column. Last, it projects the row back onto the
  schema and hands it to the regressor. Module `PricePredictor` models the row
  as an `array<int>` indexed by schema position, built by sequential writes in
  `BuildFeatureRow`. That method is proved equal to the pure specification
  `ExpectedRow`, and the lemmas about the row are proved on `ExpectedRow`. The
  regressor is a parameter of function type `seq<int> -> real`. The wall-clock
  year becomes the parameter `referenceYear`.
- **The table-cleaning step** (`clean_data` in `02_data_cleaning.py`). It drops
  repeated rows in place, keeping the first of each, and renames the raw headers
  through a fixed map. Module `DataCleaning` models the data frame as a class
  `Table` with a header, row labels and rows. Removal of duplicates is a loop
  with a set of rows already seen (`DropDuplicateRows`), proved against
  `FirstPositions`/`Dedup`. Renaming is a loop over the header (`RenameColumns`),
  proved against `Renamed`.

Module `Sequences` holds `NoDuplicates`, which both modules use, and `Range`
and `Select`, which only `DataCleaning` uses.

Three behaviours of the code that the model keeps:

- `predict_price` does not reject a year after the reference year; it then
  computes a negative age. Only the form bounds at `07_app.py:88` keep the year
  in [1990, current year]. The model takes those bounds as the precondition of
  `FormBoundsRow` and nowhere else.
- `predict_price` does not check the column list. When it is empty, setting row
  0 at `07_app.py:67` raises pandas' error for a frame with no defined columns,
  and the regressor is never called. `PredictPrice` then returns
  `NoColumnsError`, and `BuildFeatureRow` requires a non-empty schema.
- `kms_driven` and `car_age` are written unconditionally (`07_app.py:68-69`); a
  name the schema lacks is appended and then dropped by the projection at line
  78. The model keeps appended names in `added`, and the one-hot guards test
  membership in the schema plus `added`, as `in input_df.columns` does.

## Model

| member | source | states |
|---|---|---|
| PricePredictor.ExpectedRow | 07_app.py:66-78 | the row has exactly one entry per schema position, and entry i is the value for column schema[i] |
| PricePredictor.AssignColumn | 07_app.py:68-69 | a column assignment sets every schema position with that name, leaves the others unchanged, and appends the name when the frame lacks it |
| PricePredictor.SetIfPresent | 07_app.py:72-75 | a guarded one-hot write adds its name to the columns holding 1 and keeps the mileage, the age and every other column |
| PricePredictor.BuildFeatureRow | 07_app.py:65-78 | for every non-empty schema, car and reference year, the zero-filled, assigned, guarded one-hot and projected row is a new array equal to `ExpectedRow` |
| PricePredictor.PredictPrice | 07_app.py:65-80 | an empty column list ends in `NoColumnsError` and only then; otherwise the price is the regressor applied to `ExpectedRow` and to nothing else |
| PricePredictor.ZeroOutsideTargets | 07_app.py:66-75 | every entry whose column is not `kms_driven`, `car_age` or one of the car's four one-hot names is 0 |
| PricePredictor.NumericEntries | 07_app.py:68-69 | a `kms_driven` entry holds the mileage and a `car_age` entry holds referenceYear - year |
| PricePredictor.OneHotEntry | 07_app.py:72-75 | the field's one-hot column is 1 wherever the schema has it, and some entry is 1 for it exactly when the name is in the schema |
| PricePredictor.AbsentValuesIndistinguishable | 07_app.py:67-75 | two values of a field whose one-hot columns are both missing from the schema (unseen or reference) give the same row |
| PricePredictor.AbsentValuesPredictAlike | 07_app.py:72-80 | two such values give the same prediction |
| PricePredictor.AbsentValueLeavesFieldZero | 07_app.py:67-75 | when the car's column for a field is missing from the schema, every column of that field is 0 |
| PricePredictor.CategoricalEntriesAreBits | 07_app.py:67-75 | one-hot entries are only ever 0 or 1 |
| PricePredictor.AtMostOneHotPerField | 07_app.py:72-75 | over a schema without repeated names, at most one column of each field is 1 |
| PricePredictor.AtMostFourHot | 07_app.py:72-75 | over a schema without repeated names, at most four one-hot entries are 1 |
| PricePredictor.FormBoundsRow | 07_app.py:88-89 | with the form's bounds, `car_age` lies in [0, referenceYear - 1990], `kms_driven` in [100, 500000], and no entry is negative |
| PricePredictor.NumericNotOneHot | 07_app.py:68-75 | no one-hot name equals `kms_driven` or `car_age`, so the later writes never overwrite the mileage or the age |
| PricePredictor.OneHotNameInjective | 07_app.py:72-75 | different (field, value) pairs give different one-hot names |
| PricePredictor.ColumnOfOneField | 07_app.py:72-75 | a column name belongs to at most one field |
| PricePredictor.NumericNotCategorical | 07_app.py:68-69 | neither numeric column has a field prefix |
| PricePredictor.DefaultCarColumns | 07_app.py:88-93 | over the trained columns, the form's default car (2015, 70000 km, Diesel, Individual, Manual, First Owner) in 2024 gets the row 70000, 9, then 1 only in the Diesel, Individual and Manual columns |
| PricePredictor.ReferenceCarColumns | 07_app.py:72-75 | over the trained columns, a car with only reference categories gets its mileage and age and 0 in every one-hot column |
| DataCleaning.FirstPositions | 02_data_cleaning.py:16 | the kept positions are strictly increasing and in range, so the kept rows are a subsequence in the original order |
| DataCleaning.FirstPositionsExact | 02_data_cleaning.py:16 | a position is kept exactly when its row does not occur earlier (keep="first") |
| DataCleaning.DedupNoDuplicates | 02_data_cleaning.py:16-17 | after deduplication no two rows are equal |
| DataCleaning.DedupSameRows | 02_data_cleaning.py:16 | deduplication keeps the set of distinct rows and never increases the row count |
| DataCleaning.DedupOfDistinct | 02_data_cleaning.py:16 | a table without repeated rows is left unchanged |
| DataCleaning.DedupIdempotent | 02_data_cleaning.py:16 | deduplicating twice equals deduplicating once |
| DataCleaning.DropDuplicateRows | 02_data_cleaning.py:16 | the pass with a seen set returns exactly `Dedup` of the rows and the positions the rows came from |
| DataCleaning.Table.DropDuplicates | 02_data_cleaning.py:16 | in place: the rows become `Dedup` of the old rows, each kept row keeps its label, and the header is unchanged |
| DataCleaning.RenameColumns | 02_data_cleaning.py:20-27 | same length and order; a mapped name becomes its image and any other name is unchanged |
| DataCleaning.Table.Rename | 02_data_cleaning.py:20-27 | in place: only the header changes, name by name; rows and labels are untouched |
| DataCleaning.RenameFixesUnmapped | 02_data_cleaning.py:20-27 | a header whose names are unmapped or mapped to themselves is unchanged |
| DataCleaning.CleaningImagesAreFixed | 02_data_cleaning.py:21-26 | every image of the cleaning map is either not a key or a key mapped to itself |
| DataCleaning.CleaningRenameIdempotent | 02_data_cleaning.py:20-27 | renaming an already renamed header changes nothing |
| DataCleaning.CleanedHeaderUnchanged | 02_data_cleaning.py:24 | since `seller_type` maps to itself, a header without the other five raw names is unchanged |
| DataCleaning.RawHeaderRenamed | 02_data_cleaning.py:20-27 | the raw CarDekho header becomes car_name, year, selling_price, kms_driven, fuel_type, seller_type, transmission_type, owner_type |
| DataCleaning.Table.constructor | 02_data_cleaning.py:36 | a table as read from the file, labelled 0 to n - 1 |
| DataCleaning.CleanData | 02_data_cleaning.py:4-32 | drops duplicates (first kept, labels kept), then renames the header through the cleaning map, and returns the same table |

## Left out

- `get_gemini_analysis` (`07_app.py:9-53`): a network call to an external text-generation service, with a secret lookup and JSON handling. It is foreign I/O.
- Loading the pickled model and column list, and stopping when the file is missing (`07_app.py:56-63`): file I/O. The schema is a `seq<string>` parameter and the regressor a function parameter.
- The regressor's internals (`07_app.py:79`): a library model working in floating point. It is an arbitrary function from the row to `real`. Taking element `[0]` of a one-row prediction is folded into that function.
- The Streamlit page, layout and currency formatting (`07_app.py:82-110`). Only the input bounds at lines 88-89 are used, as the precondition of `FormBoundsRow`.
- `date.today()`: the reference year is an explicit parameter.
- Cell dtypes of the one-row frame: entries are unbounded integers. The mileage and age come from integer form inputs.
- BuildFeatureRow: an empty schema is excluded by its precondition, because pandas raises at `07_app.py:67` when row 0 is set on a frame with no columns; `PredictPrice` models that error as `NoColumnsError`.
- BuildFeatureRow: the values of appended columns are not tracked, only their names. The final projection drops them.
- BuildFeatureRow: a schema with a repeated column name. pandas would return that column more than once from the projection at line 78. The model keeps one entry per schema position. `AtMostOneHotPerField` and `AtMostFourHot` assume a schema without repeated names. The schema written by training has none.
- `TrainedColumns`, `DefaultCar` and `ReferenceCar` are worked examples. The column list is the one training produces on the CarDekho data, with CNG, Dealer, Automatic and First Owner as the first category of each field in sorted order. That data file is not part of this model.
- The missing-value report and all printing in `clean_data` (`02_data_cleaning.py:8-12`, `15`, `17`, `29-30`): output only.
- Reading and writing the CSV files (`02_data_cleaning.py:34-47`, `01_data_loading.py`): file I/O. `Table.constructor` stands for a freshly read table.
- `03_eda_and_visualization.py`: plotting. Its one computation, age as current year minus year, is the same subtraction as `CarAge`.
- `Data Science/04_feature_engineering.py` and `Data Science/05_model_training.py` (one-hot encoding at training time, the train/test split and the fit) are not part of this model.
